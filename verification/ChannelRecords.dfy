/** What a run has been asked, and that it is what the channel has done: it is closed exactly after a
    close, and a node has arrived or was cancelled exactly after the operation that says so. */
module ChannelRecords {
  import opened Options
  import opened ChannelSpec
  import opened ChannelProof
  import opened ChannelMatch
  import opened ChannelRuns
  import ChannelOrder
  import ChannelAnswers

  // ---------- send and receive ----------

  /** Nobody else arrives, is cancelled, or closes. */
  ghost predicate SameRecords<V>(c: Chan<V>, d: Chan<V>) {
    && d.info == c.info && d.nodes.Keys == c.nodes.Keys && d.closed == c.closed
    && forall k :: k in c.nodes ==> d.nodes[k].stamp == c.nodes[k].stamp && d.nodes[k].tried == c.nodes[k].tried
  }

  lemma PairRecords<V>(c: Chan<V>, s: nat, r: nat)
    requires s in c.nodes && r in c.nodes && s in c.info && r in c.info && c.info[s].value.Some?
    ensures SameRecords(c, Pair(c, s, r))
  {
  }

  lemma MarkRecords<V>(c: Chan<V>, q: Chan<V>, m: nat)
    requires m in c.nodes && SameRecords(c, q)
    ensures SameRecords(c, Mark(q, m))
  {
  }

  lemma BackRecords<V>(c: Chan<V>, q: Chan<V>, m: nat)
    requires m in c.nodes && m in c.info && SameRecords(c, q)
    ensures SameRecords(c, PushFront(q, m))
  {
  }

  lemma SettleRecords<V>(c: Chan<V>, n: nat, m: nat, y: set<nat>)
    requires Typed(c) && n in c.info && m in c.info && c.info[m].side == Other(c.info[n].side)
    ensures SameRecords(c, Settle(c, n, m, y).0)
  {
    if CanPair(c, n, m) {
      if c.info[n].side == Sender { PairRecords(c, n, m); } else { PairRecords(c, m, n); }
    } else {
      MarkRecords(c, Flip(c, y), m);
      BackRecords(c, Flip(c, y), m);
      MarkRecords(c, PushFront(Flip(c, y), m), n);
    }
  }

  lemma TryFirstRecords<V>(c: Chan<V>, n: nat, x: set<nat>, y: set<nat>)
    requires Typed(c) && n in c.info && Theirs(c, n) != []
    ensures SameRecords(c, TryFirst(c, n, x, y).0)
  {
    var p := Flip(PopFront(c, Other(c.info[n].side)), x);
    assert SameRecords(c, p);
    SettleRecords(p, n, Theirs(c, n)[0], y);
  }

  lemma {:induction false} MatchRecords<V>(c: Chan<V>, n: nat, env: Env, k: nat)
    requires Typed(c) && n in c.info
    ensures SameRecords(c, Match(c, n, env, k))
    decreases |Theirs(c, n)|
  {
    if Theirs(c, n) != [] {
      var (d, round) := TryFirst(c, n, env(k), env(k + 1));
      TryFirstRecords(c, n, env(k), env(k + 1));
      MatchAgain(c, n, env, k);
      if round.Skipped? { MatchRecords(d, n, env, k + 2); }
    }
  }

  lemma EmitRecords<V>(c: Chan<V>, n: nat, env: Env)
    requires Typed(c) && n in c.info
    ensures SameRecords(Arrive(c, n), Emit(c, n, env))
  {
    if !Refused(c, n) && Meets(c, n) { MatchRecords(Arrive(c, n), n, env, 0); }
  }

  // ---------- one operation ----------

  predicate IsArrival(op: Op, n: nat) {
    op.Arrives? && op.n == n
  }

  predicate IsCancel(op: Op, n: nat) {
    op.TryCancel? && op.n == n
  }

  /** Each operation does what it is called for, and only that one does. */
  ghost predicate Records<V>(c: Chan<V>, op: Op, d: Chan<V>) {
    && d.info == c.info && d.nodes.Keys == c.nodes.Keys
    && (d.closed <==> c.closed || op.Closes?)
    && (forall k :: k in c.nodes ==>
          && (d.nodes[k].stamp.Some? <==> c.nodes[k].stamp.Some? || IsArrival(op, k))
          && (d.nodes[k].tried <==> c.nodes[k].tried || IsCancel(op, k)))
    && (op.Decided? ==> forall x :: x in op.sels ==> x in d.claims)
  }

  lemma CancelRecords<V>(c: Chan<V>, n: nat)
    requires n in c.info && n in c.nodes
    ensures Records(c, TryCancel(n), Cancel(c, n))
  {
  }

  lemma CloseRecords<V>(c: Chan<V>)
    ensures Records(c, Closes, Close(c))
  {
  }

  lemma StepRecords<V>(c: Chan<V>, op: Op, d: Chan<V>)
    requires Step(c, op, d)
    ensures Records(c, op, d)
  {
    match op
    case Arrives(n, env) => ArrivalRecords(c, n, env);
    case TryCancel(n) => CancelRecords(c, n);
    case Closes => CloseRecords(c);
    case Decided(_) =>
  }

  lemma ArrivalRecords<V>(c: Chan<V>, n: nat, env: Env)
    requires Typed(c) && n in c.info
    ensures Records(c, Arrives(n, env), Emit(c, n, env))
  {
    EmitRecords(c, n, env);
  }

  // ---------- runs ----------

  ghost predicate Emitted(ops: seq<Op>, n: nat, j: nat) {
    exists i :: 0 <= i < j && i < |ops| && IsArrival(ops[i], n)
  }

  ghost predicate Cancelled(ops: seq<Op>, n: nat, j: nat) {
    exists i :: 0 <= i < j && i < |ops| && IsCancel(ops[i], n)
  }

  ghost predicate Shut(ops: seq<Op>, j: nat) {
    exists i :: 0 <= i < j && i < |ops| && ops[i].Closes?
  }

  lemma OneMore(ops: seq<Op>, n: nat, j: nat)
    requires 0 < j <= |ops|
    ensures Emitted(ops, n, j) <==> Emitted(ops, n, j - 1) || IsArrival(ops[j - 1], n)
    ensures Cancelled(ops, n, j) <==> Cancelled(ops, n, j - 1) || IsCancel(ops[j - 1], n)
    ensures Shut(ops, j) <==> Shut(ops, j - 1) || ops[j - 1].Closes?
  {
  }

  ghost predicate NodeAsAsked<V>(c: Chan<V>, ops: seq<Op>, n: nat, j: nat) {
    n in c.nodes ==>
      (c.nodes[n].stamp.Some? <==> Emitted(ops, n, j)) && (c.nodes[n].tried <==> Cancelled(ops, n, j))
  }

  lemma RunStep<V>(info: map<nat, Info<V>>, ops: seq<Op>, cs: seq<Chan<V>>, j: nat)
    requires IsRun(info, ops, cs) && j < |ops|
    ensures Records(cs[j], ops[j], cs[j + 1])
  {
    StepRecords(cs[j], ops[j], cs[j + 1]);
  }

  /** The channel is closed exactly when it has been closed, whoever was waiting then; a node has its
      arrival recorded exactly when send or receive was called for it, and its cancellation exactly
      when try_cancel was. */
  lemma {:induction false} AsAsked<V>(info: map<nat, Info<V>>, ops: seq<Op>, cs: seq<Chan<V>>, j: nat, n: nat)
    requires IsRun(info, ops, cs) && j < |cs|
    ensures (cs[j].closed <==> Shut(ops, j)) && NodeAsAsked(cs[j], ops, n, j)
    decreases j
  {
    if j > 0 {
      AsAsked(info, ops, cs, j - 1, n);
      RunStep(info, ops, cs, j - 1);
      OneMore(ops, n, j);
      NodeStep(cs[j - 1], cs[j], ops, n, j - 1);
    }
  }

  lemma NodeStep<V>(c: Chan<V>, d: Chan<V>, ops: seq<Op>, n: nat, j: nat)
    requires j < |ops| && Records(c, ops[j], d) && NodeAsAsked(c, ops, n, j)
    ensures NodeAsAsked(d, ops, n, j + 1)
  {
    OneMore(ops, n, j + 1);
  }

  /** A send that is called after a close fails, also when nobody was waiting at the close. */
  lemma SendAfterClose<V>(info: map<nat, Info<V>>, ops: seq<Op>, cs: seq<Chan<V>>, i: nat, j: nat, n: nat)
    requires IsRun(info, ops, cs) && i < j < |ops| && ops[i].Closes?
    requires IsArrival(ops[j], n) && n in info && info[n].side == Sender
    ensures n in cs[j + 1].nodes && cs[j + 1].nodes[n].out == [Failed]
  {
    AsAsked(info, ops, cs, j, n);
    ChannelAnswers.SendFails(info, ops, cs, j, n, ops[j].env);
  }

  /** Once send or receive and try_cancel have been called for a node, it has exactly one answer. */
  lemma EmittedAndCancelled<V>(info: map<nat, Info<V>>, ops: seq<Op>, cs: seq<Chan<V>>, j: nat, n: nat)
    requires IsRun(info, ops, cs) && j < |cs| && n in info && Emitted(ops, n, j) && Cancelled(ops, n, j)
    ensures n in cs[j].nodes && |cs[j].nodes[n].out| == 1
  {
    RunInv(info, ops, cs, j);
    AsAsked(info, ops, cs, j, n);
    AnsweredOnce(info, ops, cs, j, j, n);
  }

  /** Flags that are set from outside stay set. */
  lemma DecidedStays<V>(info: map<nat, Info<V>>, ops: seq<Op>, cs: seq<Chan<V>>, i: nat, j: nat, x: nat)
    requires IsRun(info, ops, cs) && i < j < |cs| && ops[i].Decided? && x in ops[i].sels
    ensures x in cs[j].claims
  {
    RunStep(info, ops, cs, i);
    RunGrows(info, ops, cs, i + 1, j);
  }

  // ---------- arrivals that look for nobody ----------

  /** Apart from node n nothing changes, but maybe n's own queue. */
  ghost predicate OnlyArrives<V>(c: Chan<V>, d: Chan<V>, n: nat)
    requires n in c.info && d.info == c.info
  {
    && d.claims == c.claims && d.pairs == c.pairs && d.closed == c.closed && Theirs(d, n) == Theirs(c, n)
    && d.nodes.Keys == c.nodes.Keys && forall k :: k in c.nodes && k != n ==> d.nodes[k] == c.nodes[k]
  }

  /** A node that is refused is told why; one that finds nobody of the other side, or there last a
      node of its own select, waits behind the others of its own side, or fails after close. */
  ghost predicate Lands<V>(c: Chan<V>, d: Chan<V>, n: nat)
    requires n in c.info && n in c.nodes && n in d.nodes && d.info == c.info
  {
    var side, out := c.info[n].side, d.nodes[n].out;
    && (c.closed && side == Sender ==> out == [Failed])
    && (c.nodes[n].requestedCancel && !(c.closed && side == Sender) ==> out == [Nulled])
    && (!Refused(c, n) && c.closed ==> out == [Failed])
    && (if !Refused(c, n) && !c.closed then Queue(d, side) == Queue(c, side) + [n] && d.nodes[n].queued && out == []
        else Queue(d, side) == Queue(c, side) && !d.nodes[n].queued)
  }

  lemma UnmetRest<V>(c: Chan<V>, n: nat, env: Env)
    requires Typed(c) && n in c.info && (Refused(c, n) || !Meets(c, n))
    ensures Emit(c, n, env).info == c.info && OnlyArrives(c, Emit(c, n, env), n)
  {
  }

  lemma UnmetLands<V>(c: Chan<V>, n: nat, env: Env)
    requires Typed(c) && n in c.info && c.nodes[n].out == [] && !c.nodes[n].queued && (Refused(c, n) || !Meets(c, n))
    ensures n in Emit(c, n, env).nodes && Emit(c, n, env).info == c.info && Lands(c, Emit(c, n, env), n)
  {
  }

  lemma UnmetArrival<V>(info: map<nat, Info<V>>, ops: seq<Op>, cs: seq<Chan<V>>, j: nat, n: nat)
    requires IsRun(info, ops, cs) && j < |ops| && IsArrival(ops[j], n) && n in cs[j].info && n in cs[j].nodes && Typed(cs[j])
    requires Refused(cs[j], n) || !Meets(cs[j], n)
    ensures n in cs[j + 1].nodes && cs[j + 1].info == cs[j].info
    ensures OnlyArrives(cs[j], cs[j + 1], n) && Lands(cs[j], cs[j + 1], n)
  {
    RunInv(info, ops, cs, j);
    assert Step(cs[j], ops[j], cs[j + 1]) && AtRest(cs[j].nodes[n]);
    UnmetRest(cs[j], n, ops[j].env);
    UnmetLands(cs[j], n, ops[j].env);
  }
}
