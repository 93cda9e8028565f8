/** What has been asked of channels and selects together, and that it is what they have done. */
module SystemRecords {
  import opened Options
  import opened ChannelSpec
  import opened ChannelProof
  import opened ChannelSteps
  import opened System
  import opened SystemProof
  import opened SystemRuns
  import ChannelRuns
  import Join

  // ---------- channels ----------

  datatype Ask = AskEmit(n: nat) | AskCancel(n: nat) | AskClose | AskNothing

  /** What act a asks of channel ch. */
  function AskOf(a: Act, ch: nat): seq<Ask> {
    match a
    case Emits(k, n) => if k == ch then [AskEmit(n)] else []
    case Cancels(k, n) => if k == ch then [AskCancel(n)] else []
    case Shuts(k) => if k == ch then [AskClose] else []
    case _ => []
  }

  function Asked(acts: seq<Act>, ch: nat): seq<Ask> {
    if acts == [] then [] else Asked(acts[..|acts| - 1], ch) + AskOf(acts[|acts| - 1], ch)
  }

  function DoneBy(op: ChannelRuns.Op): Ask {
    match op
    case Arrives(n, _) => AskEmit(n)
    case TryCancel(n) => AskCancel(n)
    case Closes => AskClose
    case Decided(_) => AskNothing
  }

  function Dones(ops: seq<ChannelRuns.Op>): seq<Ask> {
    seq(|ops|, i requires 0 <= i < |ops| => DoneBy(ops[i]))
  }

  /** The operations of channel ch so far, with the one that is underway. */
  ghost predicate ChannelAsAsked<V>(s: Sys<V>, ch: nat, asked: seq<Ask>) {
    ch < |s.chans| == |s.traces| ==>
      asked == Dones(s.traces[ch].ops) + (if s.chans[ch].phase.Idle? then [] else [AskEmit(s.chans[ch].phase.n)])
  }

  lemma DonesMore(ops: seq<ChannelRuns.Op>, op: ChannelRuns.Op)
    ensures Dones(ops + [op]) == Dones(ops) + [DoneBy(op)]
  {
  }

  lemma EmitsAsked<V>(s: Sys<V>, k: nat, n: nat, ch: nat, asked: seq<Ask>)
    requires Enabled(s, Emits(k, n)) && ChannelAsAsked(s, ch, asked)
    ensures ChannelAsAsked(Step(s, Emits(k, n)), ch, asked + AskOf(Emits(k, n), ch))
  {
    if k == ch { DonesMore(s.traces[ch].ops, ChannelRuns.Arrives(n, EnvOf([]))); }
  }

  lemma AccessesAsked<V>(s: Sys<V>, k: nat, ch: nat, asked: seq<Ask>)
    requires Enabled(s, Accesses(k)) && ChannelAsAsked(s, ch, asked)
    ensures ChannelAsAsked(Step(s, Accesses(k)), ch, asked)
  {
    if k == ch {
      var l, l' := s.chans[ch], Accessed(s.chans[ch], Flags(s));
      if l'.phase.Idle? { DonesMore(s.traces[ch].ops, ChannelRuns.Arrives(l.phase.n, EnvOf(l'.seen))); } else { SameCall(l, Flags(s)); }
    }
  }

  lemma StepAsked<V>(s: Sys<V>, a: Act, ch: nat, asked: seq<Ask>)
    requires Enabled(s, a) && ChannelAsAsked(s, ch, asked)
    ensures ChannelAsAsked(Step(s, a), ch, asked + AskOf(a, ch))
  {
    match a
    case Emits(k, n) => EmitsAsked(s, k, n, ch, asked);
    case Accesses(k) => AccessesAsked(s, k, ch, asked);
    case Cancels(k, n) => if k == ch { DonesMore(s.traces[ch].ops, ChannelRuns.TryCancel(n)); }
    case Shuts(k) => if k == ch { DonesMore(s.traces[ch].ops, ChannelRuns.Closes); }
    case CallsBack(_, _) =>
    case Selects(_, _) =>
  }

  /** In every run each channel does, one after the other, just what it was asked: its run of
      ChannelRuns consists of the sends, receives, cancellations and closes that were called. */
  lemma {:induction false} ChannelsAsAsked<V>(states: seq<Sys<V>>, acts: seq<Act>, i: nat, ch: nat)
    requires IsRun(states, acts) && i < |states|
    ensures ChannelAsAsked(states[i], ch, Asked(acts[..i], ch))
  {
    if i > 0 {
      ChannelsAsAsked(states, acts, i - 1, ch);
      assert states[i - 1 + 1] == Step(states[i - 1], acts[i - 1]);
      StepAsked(states[i - 1], acts[i - 1], ch, Asked(acts[..i - 1], ch));
      assert acts[..i][..i - 1] == acts[..i - 1];
    }
  }

  // ---------- selects ----------

  /** What a case's callback does for an answer: a value after a claim, else an error or null. */
  ghost predicate Delivers<V>(node: Node<V>, i: nat, m: Join.Move) {
    match m
    case ArriveClaimed(k) => k == i && Handed(node)
    case Arrive(k, o) => k == i && ((o == Join.Error && node.out != [] && node.out[0].Failed?)
                                    || (o == Join.Null && node.out != [] && node.out[0].Nulled?))
    case _ => false
  }

  /** Select x makes move m, which it can. */
  ghost predicate Makes<V>(s: Sys<V>, s': Sys<V>, x: nat, m: Join.Move) {
    x in s.joins && x in s'.joins && Join.Enabled(s.joins[x], m) && s'.joins[x] == Join.Step(s.joins[x], m)
  }

  /** Act a makes select x do what it is about, and nothing else. */
  ghost predicate SelectAsAsked<V>(s: Sys<V>, a: Act, s': Sys<V>, x: nat) {
    x in s.joins && x in s'.joins &&
    match a
    case Selects(y, m) => if y == x then Makes(s, s', x, m) else s'.joins[x] == s.joins[x]
    case Emits(ch, n) => if InCase(s, ch, n, x) then Makes(s, s', x, Join.Begin(CaseOf(s, ch, n))) else s'.joins[x] == s.joins[x]
    case CallsBack(ch, n) =>
      if InCase(s, ch, n, x) then exists m :: Delivers(s.chans[ch].c.nodes[n], CaseOf(s, ch, n), m) && Makes(s, s', x, m)
      else s'.joins[x] == s.joins[x]
    case Accesses(ch) =>
      || s'.joins[x] == s.joins[x]
      || (exists n :: InCase(s, ch, n, x) && !Handed(s.chans[ch].c.nodes[n]) && TookPart(s', ch, n, x)
            && Makes(s, s', x, Join.Claim(CaseOf(s, ch, n))))
    case _ => s'.joins[x] == s.joins[x]
  }

  lemma EmitsSelects<V>(s: Sys<V>, ch: nat, n: nat, x: nat)
    requires Enabled(s, Emits(ch, n)) && x in s.joins
    ensures SelectAsAsked(s, Emits(ch, n), Step(s, Emits(ch, n)), x)
  {
  }

  lemma CallsBackSelects<V>(s: Sys<V>, ch: nat, n: nat, x: nat)
    requires Enabled(s, CallsBack(ch, n)) && x in s.joins
    ensures SelectAsAsked(s, CallsBack(ch, n), Step(s, CallsBack(ch, n)), x)
  {
    var node, i := s.chans[ch].c.nodes[n], CaseOf(s, ch, n);
    if InCase(s, ch, n, x) {
      assert Delivers(node, i, Callback(node, i));
      assert Makes(s, Step(s, CallsBack(ch, n)), x, Callback(node, i));
    }
  }

  lemma ClaimSelects<V>(s: Sys<V>, s': Sys<V>, ch: nat, k: nat, x: nat)
    requires Links(s) && InCase(s, ch, k, x) && OneChannel(s, s', ch) && k in s'.chans[ch].c.nodes
    requires TakesPart(s.chans[ch].c, s'.chans[ch].c, Flags(s), k)
    requires x in s'.joins && s'.joins[x] == Join.Step(s.joins[x], Join.Claim(CaseOf(s, ch, k)))
    ensures !Handed(s.chans[ch].c.nodes[k]) && TookPart(s', ch, k, x) && Makes(s, s', x, Join.Claim(CaseOf(s, ch, k)))
  {
    TakesPartLinked(s, s'.chans[ch].c, ch, k, x);
  }

  lemma ExchangeSelects<V>(s: Sys<V>, s': Sys<V>, ch: nat, a: nat, b: nat, x: nat)
    requires Links(s) && OneChannel(s, s', ch) && Has(s, ch, a) && Has(s, ch, b) && x in s.joins
    requires Exchanges(s.chans[ch].c, s'.chans[ch].c, Flags(s), a, b) && s'.joins == BothClaimed(s, ch, a, b)
    ensures SelectAsAsked(s, Accesses(ch), s', x)
  {
    assert a in {a, b} && b in {a, b};
    if InCase(s, ch, a, x) { TakesPartLinked(s, s'.chans[ch].c, ch, a, x); }
    if InCase(s, ch, b, x) { TakesPartLinked(s, s'.chans[ch].c, ch, b, x); }
    BothClaimedAt(s, ch, a, b, x);
    if InCase(s, ch, a, x) {
      ClaimSelects(s, s', ch, a, x);
    } else if InCase(s, ch, b, x) {
      ClaimSelects(s, s', ch, b, x);
    }
  }

  lemma AccessJoins<V>(s: Sys<V>, ch: nat)
    requires Enabled(s, Accesses(ch))
    ensures var s', p := Step(s, Accesses(ch)), Partners(s.chans[ch], Flags(s));
      && s'.chans[ch] == Accessed(s.chans[ch], Flags(s)) && s'.chans == s.chans[ch := s'.chans[ch]]
      && s'.wire == s.wire && |s'.traces| == |s.traces|
      && (p == None ==> s'.joins == s.joins)
      && (p.Some? && Has(s, ch, p.value.0) && Has(s, ch, p.value.1) ==> s'.joins == BothClaimed(s, ch, p.value.0, p.value.1))
  {
  }

  lemma AccessesSelects<V>(s: Sys<V>, ch: nat, x: nat)
    requires Ok(s) && Enabled(s, Accesses(ch)) && x in s.joins
    ensures SelectAsAsked(s, Accesses(ch), Step(s, Accesses(ch)), x)
  {
    var s' := Step(s, Accesses(ch));
    AccessJoins(s, ch);
    AccessQuiet(s.chans[ch], Flags(s));
    match Partners(s.chans[ch], Flags(s))
    case None => assert s'.joins[x] == s.joins[x];
    case Some(p) => ExchangeSelects(s, s', ch, p.0, p.1, x);
  }

  lemma StepSelects<V>(s: Sys<V>, a: Act, x: nat)
    requires Ok(s) && Enabled(s, a) && x in s.joins
    ensures SelectAsAsked(s, a, Step(s, a), x)
  {
    match a
    case Emits(ch, n) => EmitsSelects(s, ch, n, x);
    case Accesses(ch) => AccessesSelects(s, ch, x);
    case CallsBack(ch, n) => CallsBackSelects(s, ch, n, x);
    case _ =>
  }

  /** In every run each step of each select is the one that the act calls for: a case begins when its
      node is emitted, is claimed when its node takes part in an exchange, and is told what the
      channel has told its node. */
  lemma SelectsAsAsked<V>(states: seq<Sys<V>>, acts: seq<Act>, i: nat, x: nat)
    requires IsRun(states, acts) && i < |acts| && x in states[i].joins
    ensures SelectAsAsked(states[i], acts[i], states[i + 1], x)
  {
    RunOk(states, acts, i);
    StepSelects(states[i], acts[i], x);
  }

  /** A case that is through has the outcome that its node was told, an error for an error and null
      for null, and a value exactly after an exchange. */
  lemma CaseTold<V>(states: seq<Sys<V>>, acts: seq<Act>, i: nat, ch: nat, n: nat, x: nat)
    requires IsRun(states, acts) && i < |states| && InCase(states[i], ch, n, x)
    ensures var s := states[i]; x in s.joins && CaseOf(s, ch, n) < |s.joins[x].cases|
    ensures var s := states[i]; var c, out := s.joins[x].cases[CaseOf(s, ch, n)], s.chans[ch].c.nodes[n].out;
      !c.Waiting? ==>
        && |out| == 1
        && (Join.Out(c) == Some(Join.Error) <==> out[0].Failed?)
        && (Join.Out(c) == Some(Join.Null) <==> out[0].Nulled?)
        && (Join.Out(c) == Some(Join.Value) <==> out[0].Sent? || out[0].Received?)
  {
    var s := states[i];
    RunOk(states, acts, i);
    assert Linked(s.joins[x], CaseOf(s, ch, n), s.chans[ch].c.nodes[n]);
    NodeState(s.chans[ch], n);
  }
}
