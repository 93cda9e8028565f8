/** The promises of channels and selects together, over every run of any number of them. */
module SystemRuns {
  import opened Options
  import opened ChannelSpec
  import opened ChannelProof
  import opened ChannelSteps
  import opened System
  import opened SystemProof
  import ChannelRuns
  import ChannelOrder
  import Join

  /** Channels just opened, selects not yet emitted, and the nodes wired to cases. */
  ghost predicate Opening<V>(s: Sys<V>) {
    && |s.traces| == |s.chans| && Wired(s)
    && (forall ch :: 0 <= ch < |s.chans| ==> var info := s.chans[ch].c.info;
          && (forall n :: n in info && info[n].side == Sender ==> info[n].value.Some?)
          && s.chans[ch] == Local(Opened(info), Idle, []) && s.traces[ch] == Trace([], [Opened(info)]))
    && (forall x :: x in s.joins ==> |s.joins[x].cases| > 0 && s.joins[x] == Join.Init(Join.Select, |s.joins[x].cases|))
    && (forall ch: nat, n: nat, x: nat :: InCase(s, ch, n, x) ==> x in s.joins && CaseOf(s, ch, n) < |s.joins[x].cases|)
  }

  ghost predicate IsRun<V>(states: seq<Sys<V>>, acts: seq<Act>) {
    && |states| == |acts| + 1 && Opening(states[0])
    && forall i :: 0 <= i < |acts| ==> Enabled(states[i], acts[i]) && states[i + 1] == Step(states[i], acts[i])
  }

  lemma OpeningLinked<V>(s: Sys<V>)
    requires Opening(s)
    ensures AllLinked(s) && JoinsOk(s.joins)
  {
    forall x | x in s.joins ensures Join.Inv(s.joins[x]) && s.joins[x].kind == Join.Select {
      Join.InitInv(Join.Select, |s.joins[x].cases|);
    }
  }

  lemma OpeningOk<V>(s: Sys<V>)
    requires Opening(s)
    ensures Ok(s)
  {
    forall ch | 0 <= ch < |s.chans| ensures LocalOk(s.chans[ch]) { ChannelRuns.OpenedInv(s.chans[ch].c.info); }
    OpeningLinked(s);
  }

  lemma {:induction false} RunOk<V>(states: seq<Sys<V>>, acts: seq<Act>, i: nat)
    requires IsRun(states, acts) && i < |states|
    ensures Ok(states[i])
  {
    if i == 0 {
      OpeningOk(states[0]);
    } else {
      RunOk(states, acts, i - 1);
      assert states[i - 1 + 1] == Step(states[i - 1], acts[i - 1]);
      StepOk(states[i - 1], acts[i - 1]);
    }
  }

  // ---------- each channel is one of ChannelRuns ----------

  ghost predicate TracesOk<V>(s: Sys<V>) {
    |s.traces| == |s.chans| && forall ch :: 0 <= ch < |s.chans| ==> TraceOk(s.chans[ch], s.traces[ch])
  }

  lemma OpTrace<V>(l: Local<V>, t: Trace<V>, op: ChannelRuns.Op, l': Local<V>)
    requires ChannelRuns.IsRun(l.c.info, t.ops, t.cs) && ChannelRuns.Step(t.cs[|t.ops|], op, l'.c)
    requires l'.phase.Idle? && l'.c.info == l.c.info
    ensures TraceOk(l', Extended(t, op, l'.c))
  {
    ChannelOrder.RunExtends(l.c.info, t.ops, t.cs, op, l'.c);
  }

  lemma CallStep<V>(c: Chan<V>, n: nat, l: Local<V>)
    requires Underway(c, n, l) && l.phase.Idle? && n in c.nodes && c.nodes[n].stamp == None
    ensures ChannelRuns.Step(c, ChannelRuns.Arrives(n, EnvOf(l.seen)), l.c)
  {
    UnderwayEnds(c, n, l);
  }

  lemma CallTrace<V>(c: Chan<V>, n: nat, l: Local<V>, t: Trace<V>)
    requires ChannelRuns.IsRun(c.info, t.ops, t.cs) && t.cs[|t.ops|] == c && l.c.info == c.info
    requires Inv(c, {}) && n in c.info && c.nodes[n].stamp == None && Underway(c, n, l)
    requires l.phase.Idle? || l.phase.n == n
    ensures TraceOk(l, if l.phase.Idle? then Extended(t, ChannelRuns.Arrives(n, EnvOf(l.seen)), l.c) else t)
  {
    if l.phase.Idle? {
      CallStep(c, n, l);
      OpTrace(l, t, ChannelRuns.Arrives(n, EnvOf(l.seen)), l);
    }
  }

  lemma EmitsTrace<V>(l: Local<V>, t: Trace<V>, n: nat)
    requires TraceOk(l, t) && LocalOk(l) && l.phase.Idle? && n in l.c.info && l.c.nodes[n].stamp == None
    ensures var l' := Entered(l.c, n);
      TraceOk(l', if l'.phase.Idle? then Extended(t, ChannelRuns.Arrives(n, EnvOf([])), l'.c) else t)
  {
    EnteredUnderway(l.c, n);
    EnteredQuiet(l.c, n);
    CallTrace(l.c, n, Entered(l.c, n), t);
  }

  lemma AccessesTrace<V>(l: Local<V>, t: Trace<V>, done: set<nat>)
    requires TraceOk(l, t) && LocalOk(l) && Ready(l) && !l.phase.Idle?
    ensures var l' := Accessed(l, done);
      TraceOk(l', if l'.phase.Idle? then Extended(t, ChannelRuns.Arrives(l.phase.n, EnvOf(l'.seen)), l'.c) else t)
  {
    var c := t.cs[|t.ops|];
    AccessedUnderway(c, l.phase.n, l, done);
    AccessedInfo(l, done);
    if !Accessed(l, done).phase.Idle? { SameCall(l, done); }
    CallTrace(c, l.phase.n, Accessed(l, done), t);
  }

  lemma SameCall<V>(l: Local<V>, done: set<nat>)
    requires Ready(l) && !Accessed(l, done).phase.Idle?
    ensures !l.phase.Idle? && Accessed(l, done).phase.n == l.phase.n
  {
  }

  lemma AccessedInfo<V>(l: Local<V>, done: set<nat>)
    requires LocalOk(l) && Ready(l) && !l.phase.Idle?
    ensures Accessed(l, done).c.info == l.c.info && Accessed(l, done).c.nodes.Keys == l.c.nodes.Keys
  {
    AccessQuiet(l, done);
  }

  lemma OthersTrace<V>(s: Sys<V>, s': Sys<V>, ch: nat)
    requires TracesOk(s) && OneChannel(s, s', ch) && s'.traces == s.traces[ch := s'.traces[ch]]
    requires TraceOk(s'.chans[ch], s'.traces[ch])
    ensures TracesOk(s')
  {
  }

  lemma EmitsTraces<V>(s: Sys<V>, ch: nat, n: nat)
    requires Ok(s) && TracesOk(s) && Enabled(s, Emits(ch, n))
    ensures TracesOk(Step(s, Emits(ch, n)))
  {
    EmitsTrace(s.chans[ch], s.traces[ch], n);
    EnteredQuiet(s.chans[ch].c, n);
    OthersTrace(s, Step(s, Emits(ch, n)), ch);
  }

  lemma AccessesTraces<V>(s: Sys<V>, ch: nat)
    requires Ok(s) && TracesOk(s) && Enabled(s, Accesses(ch))
    ensures TracesOk(Step(s, Accesses(ch)))
  {
    AccessesTrace(s.chans[ch], s.traces[ch], Flags(s));
    AccessedInfo(s.chans[ch], Flags(s));
    OthersTrace(s, Step(s, Accesses(ch)), ch);
  }

  lemma CancelTrace<V>(l: Local<V>, t: Trace<V>, n: nat)
    requires TraceOk(l, t) && l.phase.Idle? && Typed(l.c) && n in l.c.info && n in l.c.nodes && !l.c.nodes[n].tried
    ensures TraceOk(l.(c := Cancel(l.c, n)), Extended(t, ChannelRuns.TryCancel(n), Cancel(l.c, n)))
  {
    OpTrace(l, t, ChannelRuns.TryCancel(n), l.(c := Cancel(l.c, n)));
  }

  lemma CancelsTraces<V>(s: Sys<V>, ch: nat, n: nat)
    requires Ok(s) && TracesOk(s) && Enabled(s, Cancels(ch, n))
    ensures TracesOk(Step(s, Cancels(ch, n)))
  {
    CancelTrace(s.chans[ch], s.traces[ch], n);
    CancelQuiet(s.chans[ch].c, n);
    OthersTrace(s, Step(s, Cancels(ch, n)), ch);
  }

  lemma CloseTrace<V>(l: Local<V>, t: Trace<V>)
    requires TraceOk(l, t) && l.phase.Idle? && Typed(l.c)
    ensures TraceOk(l.(c := Close(l.c)), Extended(t, ChannelRuns.Closes, Close(l.c)))
  {
    OpTrace(l, t, ChannelRuns.Closes, l.(c := Close(l.c)));
  }

  lemma ShutsTraces<V>(s: Sys<V>, ch: nat)
    requires Ok(s) && TracesOk(s) && Enabled(s, Shuts(ch))
    ensures TracesOk(Step(s, Shuts(ch)))
  {
    CloseTrace(s.chans[ch], s.traces[ch]);
    CloseQuiet(s.chans[ch].c);
    OthersTrace(s, Step(s, Shuts(ch)), ch);
  }

  lemma StepTraces<V>(s: Sys<V>, a: Act)
    requires Ok(s) && TracesOk(s) && Enabled(s, a)
    ensures TracesOk(Step(s, a))
  {
    match a
    case Emits(ch, n) => EmitsTraces(s, ch, n);
    case Accesses(ch) => AccessesTraces(s, ch);
    case Cancels(ch, n) => CancelsTraces(s, ch, n);
    case Shuts(ch) => ShutsTraces(s, ch);
    case CallsBack(_, _) =>
    case Selects(_, _) =>
  }

  /** In every run of a system, what each channel goes through is a run of ChannelRuns: all that is
      proved there holds of every channel here. A call in progress is the specified operation, for
      the flags it has found set so far. */
  lemma {:induction false} ChannelsFollow<V>(states: seq<Sys<V>>, acts: seq<Act>, i: nat)
    requires IsRun(states, acts) && i < |states|
    ensures TracesOk(states[i])
  {
    if i > 0 {
      ChannelsFollow(states, acts, i - 1);
      RunOk(states, acts, i - 1);
      assert states[i - 1 + 1] == Step(states[i - 1], acts[i - 1]);
      StepTraces(states[i - 1], acts[i - 1]);
    }
  }

  // ---------- selects across channels ----------

  /** Node n of channel ch has handed over or been given a value, as a case of select x. */
  ghost predicate TookPart<V>(s: Sys<V>, ch: nat, n: nat, x: nat) {
    InCase(s, ch, n, x) && Handed(s.chans[ch].c.nodes[n])
  }

  /** Over all channels, a select takes part in at most one exchange, and there as one of two. */
  lemma OneExchangePerSelect<V>(states: seq<Sys<V>>, acts: seq<Act>, i: nat, x: nat, ch: nat, n: nat, ch': nat, n': nat)
    requires IsRun(states, acts) && i < |states| && TookPart(states[i], ch, n, x) && TookPart(states[i], ch', n', x)
    ensures ch == ch' && n == n'
    ensures exists s, r :: ChannelRuns.Exchange(states[i].chans[ch].c, s, r) && (n == s || n == r)
  {
    var s := states[i];
    RunOk(states, acts, i);
    assert Linked(s.joins[x], CaseOf(s, ch, n), s.chans[ch].c.nodes[n]);
    assert Linked(s.joins[x], CaseOf(s, ch', n'), s.chans[ch'].c.nodes[n']);
    LocalPairs(s.chans[ch]);
    ChannelRuns.HasPartner(s.chans[ch].c, n);
  }

  lemma LocalPairs<V>(l: Local<V>)
    requires LocalOk(l)
    ensures Typed(l.c) && PairsOk(l.c)
  {
  }

  ghost predicate ServesCase<V>(s: Sys<V>, x: nat, i: nat) {
    exists ch: nat, n: nat :: InCase(s, ch, n, x) && CaseOf(s, ch, n) == i
  }

  /** All cases of select x are nodes of channels. */
  ghost predicate Served<V>(s: Sys<V>, x: nat) {
    x in s.joins && forall i :: 0 <= i < |s.joins[x].cases| ==> ServesCase(s, x, i)
  }

  lemma WinnerTookPart<V>(s: Sys<V>, x: nat)
    requires Ok(s) && Served(s, x) && s.joins[x].slot == [Join.Value]
    ensures exists ch: nat, n: nat :: TookPart(s, ch, n, x)
  {
    var j := s.joins[x];
    assert Join.WinnerOk(j);
    assert ServesCase(s, x, j.winner.value);
    var ch: nat, n: nat :| InCase(s, ch, n, x) && CaseOf(s, ch, n) == j.winner.value;
    assert Linked(j, j.winner.value, s.chans[ch].c.nodes[n]);
    assert TookPart(s, ch, n, x);
  }

  lemma TookPartWins<V>(s: Sys<V>, ch: nat, n: nat, x: nat)
    requires Ok(s) && TookPart(s, ch, n, x)
    ensures x in s.joins && s.joins[x].winner == Some(CaseOf(s, ch, n)) && (s.joins[x].slot == [] || s.joins[x].slot == [Join.Value])
  {
    assert Linked(s.joins[x], CaseOf(s, ch, n), s.chans[ch].c.nodes[n]);
    assert Join.WinnerOk(s.joins[x]);
  }

  /** A select over channels is completed at most once, and with a value exactly when one of its
      cases took part in an exchange. */
  lemma SlotTellsExchange<V>(states: seq<Sys<V>>, acts: seq<Act>, i: nat, x: nat)
    requires IsRun(states, acts) && i < |states| && Served(states[i], x)
    ensures var slot := states[i].joins[x].slot;
      |slot| <= 1 && (slot != [] ==> (slot[0] == Join.Value <==> exists ch: nat, n: nat :: TookPart(states[i], ch, n, x)))
  {
    var s := states[i];
    RunOk(states, acts, i);
    SlotOnce(s, x);
    if s.joins[x].slot == [Join.Value] { WinnerTookPart(s, x); }
    if ch: nat, n: nat :| TookPart(s, ch, n, x) { TookPartWins(s, ch, n, x); }
  }

  lemma SlotOnce<V>(s: Sys<V>, x: nat)
    requires JoinsOk(s.joins) && x in s.joins
    ensures |s.joins[x].slot| <= 1
  {
    assert Join.WinnerOk(s.joins[x]);
  }

  // ---------- every case gets its answer ----------

  /** The winner has passed everything on, and each cancel handle that was used has reached its node. */
  ghost predicate Passed<V>(s: Sys<V>, x: nat) {
    && x in s.joins && var j := s.joins[x];
    && j.emitted && j.queue == [] && j.winner.Some? && j.winner.value < |j.cases|
    && j.cases[j.winner.value] == Join.Finished(Join.Value)
    && forall ch: nat, n: nat :: InCase(s, ch, n, x) && CaseOf(s, ch, n) in j.cancelled ==> s.chans[ch].c.nodes[n].tried
  }

  lemma NodeState<V>(l: Local<V>, n: nat)
    requires LocalOk(l) && n in l.c.nodes
    ensures InHand(l.c.nodes[n]) || AtRest(l.c.nodes[n])
  {
  }

  lemma CaseAnswered<V>(s: Sys<V>, x: nat, ch: nat, n: nat)
    requires Ok(s) && Passed(s, x) && InCase(s, ch, n, x)
    ensures |s.chans[ch].c.nodes[n].out| == 1
    ensures Handed(s.chans[ch].c.nodes[n]) <==> s.joins[x].winner == Some(CaseOf(s, ch, n))
  {
    var j := s.joins[x];
    assert Linked(j, CaseOf(s, ch, n), s.chans[ch].c.nodes[n]);
    NodeState(s.chans[ch], n);
    AllBeside(j);
  }

  /** All cases of such a select have begun, and the handles of all others than the winner's were used. */
  lemma AllBeside(j: Join.State)
    requires Join.Inv(j) && j.kind == Join.Select && j.emitted && j.queue == [] && j.winner.Some?
    requires j.winner.value < |j.cases| && j.cases[j.winner.value] == Join.Finished(Join.Value)
    ensures forall i :: 0 <= i < |j.cases| ==> i in j.started && (i != j.winner.value ==> i in j.cancelled)
  {
    assert Join.CancelOk(j) && Join.QueueOk(j);
    assert j.cancelled == Join.Beside(|j.cases|, j.winner.value);
  }

  /** Then every case of the select that is a node of a channel has been answered exactly once, with
      a value for the winner and an error or null for all others. */
  lemma LosersAnswered<V>(states: seq<Sys<V>>, acts: seq<Act>, i: nat, x: nat, ch: nat, n: nat)
    requires IsRun(states, acts) && i < |states| && Passed(states[i], x) && InCase(states[i], ch, n, x)
    ensures var node := states[i].chans[ch].c.nodes[n];
      |node.out| == 1 && (Handed(node) <==> states[i].joins[x].winner == Some(CaseOf(states[i], ch, n)))
  {
    RunOk(states, acts, i);
    CaseAnswered(states[i], x, ch, n);
  }
}
