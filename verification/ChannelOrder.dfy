/** First come, first served; what close means; and when a node is stranded. */
module ChannelOrder {
  import opened Options
  import opened ChannelSpec
  import opened ChannelProof
  import opened ChannelMatch
  import opened ChannelRuns

  // ---------- first come, first served ----------

  /** Node n, arriving in c, exchanges a value with the i-th waiting node of the other side, whose
      select was not done. The nodes after it go on waiting. */
  ghost predicate Serves<V>(c: Chan<V>, d: Chan<V>, n: nat, i: nat)
    requires Typed(c) && n in c.info && i < |Theirs(c, n)| && d.info == c.info
  {
    var m := Theirs(c, n)[i];
    && c.nodes[m].out == [] && !IsDone(c, m) && !IsDone(c, n) && Theirs(d, n) == Theirs(c, n)[i + 1..]
    && (if c.info[n].side == Sender then Exchange(d, n, m) else Exchange(d, m, n))
  }

  /** Node n is left marked, in favour of the i-th waiting node, which goes on waiting. */
  ghost predicate Yielded<V>(c: Chan<V>, d: Chan<V>, n: nat, i: nat)
    requires Typed(c) && n in c.info && i < |Theirs(c, n)| && d.info == c.info && n in d.nodes
  {
    var m := Theirs(c, n)[i];
    && d.nodes[n] == c.nodes[n].(stamp := Some(c.clock), requestedCancel := true) && Theirs(d, n) == Theirs(c, n)[i..]
    && m in d.nodes && d.nodes[m].queued && d.nodes[m].out == [] && !IsDone(d, m) && (IsDone(d, n) || SameSelect(c, n, m))
  }

  /** Nobody is left to try, and node n waits, or fails because the channel is closed. */
  ghost predicate Alone<V>(c: Chan<V>, d: Chan<V>, n: nat)
    requires Typed(c) && n in c.info && d.info == c.info && n in d.nodes
  {
    && d.pairs == c.pairs && Theirs(d, n) == []
    && (if c.closed then d.nodes[n].out == [Failed] else d.nodes[n].queued && d.nodes[n].out == [])
  }

  /** Everything about the arrival of node n when there was somebody to try: those before the i-th
      waiting node are passed over, nobody else is touched. */
  ghost predicate Met<V>(c: Chan<V>, d: Chan<V>, n: nat, i: nat)
    requires Typed(c) && n in c.info
  {
    var q, side := Theirs(c, n), c.info[n].side;
    && i <= |q| && d.info == c.info && n in d.nodes && d.closed == c.closed
    && AllPassedOver(c, d, q[..i]) && Untouched(c, d, n, q, i)
    && Queue(d, side) == Queue(c, side) + (if i == |q| && !c.closed then [n] else [])
    && (if i == |q| then Alone(c, d, n) else if d.pairs != c.pairs then Serves(c, d, n, i) else Yielded(c, d, n, i))
  }

  /** Those passed over are not n, so for them the arrival of n changed nothing. */
  lemma ArrivedPassedOver<V>(c: Chan<V>, d: Chan<V>, n: nat, q: seq<nat>)
    requires Typed(c) && n in c.info && (forall k :: k in q ==> k in Theirs(c, n)) && AllPassedOver(Arrive(c, n), d, q)
    ensures AllPassedOver(c, d, q)
  {
    forall k | k in q ensures PassedOver(c, d, k) {
      assert PassedOver(Arrive(c, n), d, k);
      assert k in Theirs(c, n) && c.info[k].side != c.info[n].side;
    }
  }

  lemma ArrivedServes<V>(c: Chan<V>, d: Chan<V>, n: nat, i: nat)
    requires NodesOk(c, {}) && QueuesOk(c) && Typed(d) && PairsOk(d) && n in c.info && i < |Theirs(c, n)| && d.info == c.info
    requires Pairs(Arrive(c, n), d, n, Theirs(c, n)[i]) && Theirs(d, n) == Theirs(c, n)[i + 1..]
    ensures Serves(c, d, n, i)
  {
    assert Theirs(c, n)[i] in Theirs(c, n) && c.nodes[Theirs(c, n)[i]].queued && AtRest(c.nodes[Theirs(c, n)[i]]);
    var p := if c.info[n].side == Sender then (n, Theirs(c, n)[i]) else (Theirs(c, n)[i], n);
    assert d.pairs[|c.pairs|] == p;
    Recorded(d, p.0, p.1);
  }

  lemma ArrivedYields<V>(c: Chan<V>, d: Chan<V>, n: nat, i: nat)
    requires NodesOk(c, {}) && QueuesOk(c) && n in c.info && i < |Theirs(c, n)| && d.info == c.info
    requires Yields(Arrive(c, n), d, n, Theirs(c, n)[i]) && Theirs(d, n) == Theirs(c, n)[i..]
    ensures Yielded(c, d, n, i)
  {
    var m := Theirs(c, n)[i];
    assert m in Theirs(c, n) && c.nodes[m].queued && AtRest(c.nodes[m]);
  }

  lemma ArrivedEnds<V>(c: Chan<V>, d: Chan<V>, n: nat, i: nat)
    requires NodesOk(c, {}) && QueuesOk(c) && Typed(d) && PairsOk(d) && n in c.info && c.nodes[n].stamp == None
    requires Typed(Arrive(c, n)) && i <= |Theirs(c, n)| && d.info == c.info && n in d.nodes && Ends(Arrive(c, n), d, n, i)
    ensures Queue(d, c.info[n].side) == Queue(c, c.info[n].side) + (if i == |Theirs(c, n)| && !c.closed then [n] else [])
    ensures if i == |Theirs(c, n)| then Alone(c, d, n) else if d.pairs != c.pairs then Serves(c, d, n, i) else Yielded(c, d, n, i)
  {
    if i < |Theirs(c, n)| {
      if d.pairs != c.pairs { ArrivedServes(c, d, n, i); } else { ArrivedYields(c, d, n, i); }
    } else {
      ArrivedAlone(c, d, n);
    }
  }

  lemma ArrivedAlone<V>(c: Chan<V>, d: Chan<V>, n: nat)
    requires NodesOk(c, {}) && n in c.info && c.nodes[n].stamp == None && d.info == c.info && n in d.nodes
    requires Waits(Arrive(c, n), d, n)
    ensures Alone(c, d, n) && Queue(d, c.info[n].side) == Queue(c, c.info[n].side) + (if !c.closed then [n] else [])
  {
    assert AtRest(c.nodes[n]);
  }

  lemma ArrivedUntouched<V>(c: Chan<V>, d: Chan<V>, n: nat, q: seq<nat>, i: nat)
    requires n in c.nodes && i <= |q| && Untouched(Arrive(c, n), d, n, q, i)
    ensures Untouched(c, d, n, q, i)
  {
  }

  lemma ArrivedMet<V>(c: Chan<V>, d: Chan<V>, n: nat, i: nat)
    requires NodesOk(c, {}) && QueuesOk(c) && Typed(d) && PairsOk(d) && n in c.info && c.nodes[n].stamp == None
    requires Typed(Arrive(c, n)) && Outcome(Arrive(c, n), d, n, i)
    ensures Met(c, d, n, i)
  {
    ArrivedPassedOver(c, d, n, Theirs(c, n)[..i]);
    ArrivedUntouched(c, d, n, Theirs(c, n), i);
    ArrivedEnds(c, d, n, i);
  }

  lemma MeetOutcome<V>(c: Chan<V>, n: nat, env: Env) returns (i: nat)
    requires Inv(c, {}) && n in c.info && c.nodes[n].stamp == None && !Refused(c, n) && Meets(c, n)
    ensures Met(c, Emit(c, n, env), n, i)
  {
    ArriveInv(c, n);
    MatchOutcome(Arrive(c, n), n, env, 0);
    i :| Outcome(Arrive(c, n), Match(Arrive(c, n), n, env, 0), n, i);
    EmitInv(c, n, env);
    ArrivedMet(c, Emit(c, n, env), n, i);
  }

  lemma NothingToPair<V>(c: Chan<V>, n: nat, env: Env)
    requires Typed(c) && n in c.info && (Refused(c, n) || !Meets(c, n))
    ensures Emit(c, n, env).pairs == c.pairs
  {
  }

  lemma ArrivalServes<V>(c: Chan<V>, n: nat, env: Env) returns (i: nat)
    requires Inv(c, {}) && n in c.info && c.nodes[n].stamp == None && Emit(c, n, env).pairs != c.pairs
    ensures Met(c, Emit(c, n, env), n, i) && i < |Theirs(c, n)|
  {
    if Refused(c, n) || !Meets(c, n) { NothingToPair(c, n, env); }
    i := MeetOutcome(c, n, env);
  }

  /** Whenever an arriving node is paired, it is paired with the earliest live one: everybody who
      waited longer is passed over because their select was decided. */
  lemma EarliestServed<V>(info: map<nat, Info<V>>, ops: seq<Op>, cs: seq<Chan<V>>, i: nat, n: nat, env: Env)
    returns (k: nat)
    requires IsRun(info, ops, cs) && i < |ops| && ops[i] == Arrives(n, env)
    requires cs[i + 1].pairs != cs[i].pairs
    ensures Typed(cs[i]) && n in cs[i].info && cs[i + 1].info == cs[i].info && k < |Theirs(cs[i], n)|
    ensures Serves(cs[i], cs[i + 1], n, k) && AllPassedOver(cs[i], cs[i + 1], Theirs(cs[i], n)[..k])
  {
    RunInv(info, ops, cs, i);
    assert Step(cs[i], ops[i], cs[i + 1]);
    k := ArrivalServes(cs[i], n, env);
  }

  // ---------- close ----------

  lemma ClosedMeet<V>(c: Chan<V>, d: Chan<V>, n: nat, i: nat)
    requires Typed(c) && n in c.info && Met(c, d, n, i) && c.closed
    ensures forall m :: m in d.sendq ==> m in c.sendq
  {
  }

  lemma ClosedArrival<V>(c: Chan<V>, n: nat, env: Env)
    requires Inv(c, {}) && n in c.info && c.nodes[n].stamp == None && c.closed
    ensures forall m :: m in Emit(c, n, env).sendq ==> m in c.sendq
  {
    if !Refused(c, n) && Meets(c, n) {
      var i := MeetOutcome(c, n, env);
      ClosedMeet(c, Emit(c, n, env), n, i);
    }
  }

  lemma ClosedStep<V>(c: Chan<V>, op: Op, d: Chan<V>)
    requires Inv(c, {}) && Step(c, op, d) && c.closed
    ensures forall m :: m in d.sendq ==> m in c.sendq
  {
    match op
    case Arrives(n, env) => ClosedArrival(c, n, env);
    case TryCancel(n) => WithoutSorted(c.nodes, Queue(c, c.info[n].side), n);
    case Closes =>
    case Decided(_) =>
  }

  lemma ClosedRun<V>(info: map<nat, Info<V>>, ops: seq<Op>, cs: seq<Chan<V>>, i: nat)
    requires IsRun(info, ops, cs) && i < |ops| && cs[i].closed
    ensures forall m :: m in cs[i + 1].sendq ==> m in cs[i].sendq
  {
    RunInv(info, ops, cs, i);
    ClosedStep(cs[i], ops[i], cs[i + 1]);
  }

  /** After close no send is queued again, no receiver waits, and the channel stays closed. */
  lemma {:induction false} ClosedForGood<V>(info: map<nat, Info<V>>, ops: seq<Op>, cs: seq<Chan<V>>, i: nat, j: nat)
    requires IsRun(info, ops, cs) && i <= j < |cs| && cs[i].closed
    ensures cs[j].closed && cs[j].recvq == []
    ensures forall m :: m in cs[j].sendq ==> m in cs[i].sendq
    decreases j
  {
    if i < j {
      ClosedForGood(info, ops, cs, i, j - 1);
      ClosedRun(info, ops, cs, j - 1);
    }
    RunGrows(info, ops, cs, i, j);
    QueueTruth(info, ops, cs, j);
  }

  /** Why an arriving receive can fail: every waiting send has been decided elsewhere, or the last
      of them belongs to the receive's own select. */
  ghost predicate NobodyLeft<V>(c: Chan<V>, d: Chan<V>, n: nat)
    requires Typed(c) && n in c.info
  {
    AllPassedOver(c, d, c.sendq) || (c.sendq != [] && SameSelect(c, n, c.sendq[|c.sendq| - 1]))
  }

  lemma MeetFails<V>(c: Chan<V>, d: Chan<V>, n: nat, i: nat)
    requires Typed(c) && n in c.info && c.info[n].side == Receiver && c.nodes[n].out == []
    requires Meets(c, n) && Met(c, d, n, i)
    ensures d.nodes[n].out == [Failed] <==> c.closed && NobodyLeft(c, d, n)
  {
    var q := c.sendq;
    if i == |q| {
      assert q[..i] == q;
    } else {
      assert q[i] in q;
      assert !PassedOver(c, d, q[i]);
    }
  }

  lemma AnsweredFails<V>(c: Chan<V>, n: nat, env: Env)
    requires Typed(c) && n in c.info && c.nodes[n].out == [] && c.info[n].side == Receiver && (Refused(c, n) || !Meets(c, n))
    ensures n in Emit(c, n, env).nodes
    ensures Emit(c, n, env).nodes[n].out == [Failed] <==>
      c.closed && !c.nodes[n].requestedCancel && NobodyLeft(c, Emit(c, n, env), n)
  {
    var d := Emit(c, n, env);
    if Refused(c, n) {
      assert d.nodes[n].out == [Nulled];
    } else {
      assert d == Enqueue(Arrive(c, n), n);
    }
  }

  lemma MetFails<V>(c: Chan<V>, n: nat, env: Env)
    requires Inv(c, {}) && n in c.info && c.nodes[n].stamp == None && c.nodes[n].out == [] && c.info[n].side == Receiver
    requires !Refused(c, n) && Meets(c, n)
    ensures n in Emit(c, n, env).nodes
    ensures Emit(c, n, env).nodes[n].out == [Failed] <==> c.closed && NobodyLeft(c, Emit(c, n, env), n)
  {
    var i := MeetOutcome(c, n, env);
    MeetFails(c, Emit(c, n, env), n, i);
  }

  lemma ArrivalFails<V>(c: Chan<V>, n: nat, env: Env)
    requires Inv(c, {}) && n in c.info && c.nodes[n].stamp == None && c.info[n].side == Receiver
    ensures n in Emit(c, n, env).nodes
    ensures Emit(c, n, env).nodes[n].out == [Failed] <==>
      c.closed && !c.nodes[n].requestedCancel && NobodyLeft(c, Emit(c, n, env), n)
  {
    assert AtRest(c.nodes[n]);
    if Refused(c, n) || !Meets(c, n) { AnsweredFails(c, n, env); } else { MetFails(c, n, env); }
  }

  /** An arriving receive fails exactly when the channel is closed, it was not cancelled before,
      and nobody is left to send to it. */
  lemma ReceiveFails<V>(info: map<nat, Info<V>>, ops: seq<Op>, cs: seq<Chan<V>>, i: nat, n: nat, env: Env)
    requires IsRun(info, ops, cs) && i < |ops| && ops[i] == Arrives(n, env) && n in info && info[n].side == Receiver
    ensures Typed(cs[i]) && n in cs[i].info && n in cs[i].nodes && n in cs[i + 1].nodes
    ensures cs[i + 1].nodes[n].out == [Failed] <==>
      cs[i].closed && !cs[i].nodes[n].requestedCancel && NobodyLeft(cs[i], cs[i + 1], n)
  {
    RunInv(info, ops, cs, i);
    assert Step(cs[i], ops[i], cs[i + 1]);
    ArrivalFails(cs[i], n, env);
  }

  // ---------- stranded nodes ----------

  /** Emitted, but neither waiting nor answered, while nothing has decided its select: nobody will
      ever pair it, and its select has no reason to cancel it. */
  ghost predicate Stranded<V>(c: Chan<V>, n: nat) {
    && n in c.nodes && n in c.info && c.nodes[n].stamp.Some?
    && !c.nodes[n].queued && c.nodes[n].out == [] && !IsDone(c, n)
  }

  ghost predicate NobodyStranded<V>(c: Chan<V>) {
    forall n :: n in c.info ==> !Stranded(c, n)
  }

  /** Some select both sends to and receives from this channel, and a third node t, on the side of
      one of the two, belongs to something else. */
  ghost predicate Crosses<V>(info: map<nat, Info<V>>, a: nat, b: nat, t: nat) {
    && a in info && b in info && t in info
    && info[a].select.Some? && info[b].select == info[a].select && info[t].select != info[a].select
    && info[a].side != info[b].side && info[t].side == info[b].side
  }

  ghost predicate Crossed<V>(info: map<nat, Info<V>>) {
    exists a, b, t :: Crosses(info, a, b, t)
  }

  /** Node n itself: it is left marked only if its select is done, unless selects cross. */
  lemma MeetStrandsNot<V>(c: Chan<V>, d: Chan<V>, n: nat, i: nat)
    requires Typed(c) && n in c.info && Meets(c, n) && Met(c, d, n, i) && !Crossed(c.info)
    ensures !Stranded(d, n)
  {
    var q := Theirs(c, n);
    if i < |q| {
      assert q[i] in q && q[|q| - 1] in q;
      assert !Crosses(c.info, n, q[i], q[|q| - 1]);
    }
  }

  /** Another node is passed over, answered, or as before. */
  lemma MeetStrandsNone<V>(c: Chan<V>, d: Chan<V>, n: nat, i: nat, m: nat)
    requires Typed(c) && n in c.info && Met(c, d, n, i) && m in c.info && m != n && !Stranded(c, m)
    requires forall x :: x in c.claims ==> x in d.claims
    ensures !Stranded(d, m)
  {
    var q := Theirs(c, n);
    if m in q[..i] { assert PassedOver(c, d, m); }
  }

  lemma MeetStrands<V>(c: Chan<V>, d: Chan<V>, n: nat, i: nat)
    requires Typed(c) && n in c.info && Meets(c, n) && Met(c, d, n, i) && !Crossed(c.info) && NobodyStranded(c)
    requires forall x :: x in c.claims ==> x in d.claims
    ensures NobodyStranded(d)
  {
    MeetStrandsNot(c, d, n, i);
    forall m | m in d.info && m != n ensures !Stranded(d, m) { MeetStrandsNone(c, d, n, i, m); }
  }

  /** Refused or waiting, without a partner to try only node n changes. */
  lemma AnswerStrands<V>(c: Chan<V>, n: nat, env: Env)
    requires Typed(c) && n in c.info && (Refused(c, n) || !Meets(c, n)) && NobodyStranded(c)
    ensures NobodyStranded(Emit(c, n, env))
  {
    var d := Emit(c, n, env);
    forall m | m in d.info && m != n ensures !Stranded(d, m) { assert !Stranded(c, m); }
  }

  lemma ArrivalStrands<V>(c: Chan<V>, n: nat, env: Env)
    requires Inv(c, {}) && n in c.info && c.nodes[n].stamp == None && !Crossed(c.info) && NobodyStranded(c)
    ensures NobodyStranded(Emit(c, n, env))
  {
    if Refused(c, n) || !Meets(c, n) {
      AnswerStrands(c, n, env);
    } else {
      EmitGrows(c, n, env);
      var i := MeetOutcome(c, n, env);
      MeetStrands(c, Emit(c, n, env), n, i);
    }
  }

  lemma StepStrands<V>(c: Chan<V>, op: Op, d: Chan<V>)
    requires Inv(c, {}) && Step(c, op, d) && !Crossed(c.info) && NobodyStranded(c)
    ensures NobodyStranded(d)
  {
    if op.Arrives? {
      ArrivalStrands(c, op.n, op.env);
    } else {
      forall m | m in d.info ensures !Stranded(d, m) {
        assert !Stranded(c, m) && AtRest(c.nodes[m]);
        assert op.Closes? && m in c.recvq && !c.closed ==> d.nodes[m].out != [];
      }
    }
  }

  lemma {:induction false} RunStrands<V>(info: map<nat, Info<V>>, ops: seq<Op>, cs: seq<Chan<V>>, i: nat)
    requires IsRun(info, ops, cs) && i < |cs| && !Crossed(info)
    ensures NobodyStranded(cs[i])
  {
    if i > 0 {
      RunStrands(info, ops, cs, i - 1);
      RunInv(info, ops, cs, i - 1);
      StepStrands(cs[i - 1], ops[i - 1], cs[i]);
    }
  }

  /** Out of the queues for good: whatever happens, such a node can only be told null. */
  ghost predicate Lost<V>(c: Chan<V>, n: nat) {
    && n in c.nodes && n in c.info && c.nodes[n].stamp.Some? && !c.nodes[n].queued
    && ((c.nodes[n].out == [] && c.nodes[n].requestedCancel) || c.nodes[n].out == [Nulled])
  }

  lemma ArrivalKeepsLost<V>(c: Chan<V>, n: nat, env: Env, m: nat)
    requires Inv(c, {}) && n in c.info && c.nodes[n].stamp == None && Lost(c, m)
    ensures m in Emit(c, n, env).nodes && Emit(c, n, env).nodes[m] == c.nodes[m]
  {
    if !Refused(c, n) && Meets(c, n) {
      var i := MeetOutcome(c, n, env);
      assert m !in Theirs(c, n);
    }
  }

  lemma ArrivalLost<V>(c: Chan<V>, n: nat, env: Env, m: nat)
    requires Inv(c, {}) && n in c.info && c.nodes[n].stamp == None && Lost(c, m)
    ensures Lost(Emit(c, n, env), m)
  {
    EmitGrows(c, n, env);
    ArrivalKeepsLost(c, n, env, m);
  }

  lemma StepKeepsLost<V>(c: Chan<V>, op: Op, d: Chan<V>, m: nat)
    requires Inv(c, {}) && Step(c, op, d) && Lost(c, m)
    ensures Lost(d, m)
  {
    match op
    case Arrives(n, env) => ArrivalLost(c, n, env, m);
    case TryCancel(n) => CancelKeepsLost(c, n, m);
    case Closes => CloseKeepsLost(c, m);
    case Decided(_) =>
  }

  lemma CancelKeepsLost<V>(c: Chan<V>, n: nat, m: nat)
    requires NodesOk(c, {}) && n in c.info && !c.nodes[n].tried && Lost(c, m)
    ensures Lost(Cancel(c, n), m)
  {
    assert AtRest(c.nodes[m]);
  }

  lemma CloseKeepsLost<V>(c: Chan<V>, m: nat)
    requires Typed(c) && QueuesOk(c) && Lost(c, m)
    ensures Lost(Close(c), m)
  {
    assert m !in c.recvq;
  }

  lemma RunKeepsLost<V>(info: map<nat, Info<V>>, ops: seq<Op>, cs: seq<Chan<V>>, i: nat, n: nat)
    requires IsRun(info, ops, cs) && i < |ops| && Lost(cs[i], n)
    ensures Lost(cs[i + 1], n)
  {
    RunInv(info, ops, cs, i);
    StepKeepsLost(cs[i], ops[i], cs[i + 1], n);
  }

  lemma StrandedLost<V>(c: Chan<V>, n: nat)
    requires NodesOk(c, {}) && Stranded(c, n)
    ensures Lost(c, n)
  {
    assert AtRest(c.nodes[n]);
  }

  /** A stranded node never takes part in an exchange: the most it can get is the null of a cancel. */
  lemma {:induction false} StrandedForGood<V>(info: map<nat, Info<V>>, ops: seq<Op>, cs: seq<Chan<V>>, i: nat, j: nat, n: nat)
    requires IsRun(info, ops, cs) && i <= j < |cs| && Stranded(cs[i], n)
    ensures Lost(cs[j], n)
    decreases j
  {
    if i < j {
      StrandedForGood(info, ops, cs, i, j - 1, n);
      RunKeepsLost(info, ops, cs, j - 1, n);
    } else {
      RunInv(info, ops, cs, i);
      StrandedLost(cs[i], n);
    }
  }

  // ---------- and when selects do cross ----------

  const QUIET: Env := _ => {}

  /** Node n goes to the back of its queue and nothing else happens. */
  ghost predicate Queues<V>(c: Chan<V>, d: Chan<V>, n: nat)
    requires n in c.info
  {
    var side := c.info[n].side;
    && d.info == c.info && d.claims == c.claims && d.closed == c.closed
    && Queue(d, side) == Queue(c, side) + [n] && Queue(d, Other(side)) == Queue(c, Other(side))
    && d.nodes.Keys == c.nodes.Keys && forall k :: k in c.nodes && k != n ==> d.nodes[k] == c.nodes[k]
  }

  /** That is what happens with nothing to meet. */
  lemma QueuedAtOnce<V>(c: Chan<V>, n: nat)
    requires Typed(c) && n in c.info && c.nodes[n] == Fresh() && !c.closed && Theirs(c, n) == []
    ensures Queues(c, Emit(c, n, QUIET), n)
  {
  }

  lemma QueuedStep<V>(c: Chan<V>, n: nat) returns (d: Chan<V>)
    requires Inv(c, {}) && n in c.info && c.nodes[n] == Fresh() && !c.closed && Theirs(c, n) == []
    ensures Step(c, Arrives(n, QUIET), d) && Queues(c, d, n) && Inv(d, {})
  {
    d := Emit(c, n, QUIET);
    QueuedAtOnce(c, n);
    EmitInv(c, n, QUIET);
  }

  lemma FrontRefuses<V>(a: Chan<V>, n: nat)
    requires Typed(a) && n in a.info && Theirs(a, n) != []
    requires a.claims == map[] && SameSelect(a, n, Theirs(a, n)[0])
    ensures TryFirst(a, n, {}, {}).1 == PutBack && TryFirst(a, n, {}, {}).0.claims == map[]
  {
  }

  /** The queue's front belongs to n's select and its back does not: n is refused by the front. */
  lemma RefusedByFront<V>(c: Chan<V>, n: nat)
    requires Inv(c, {}) && n in c.info && c.nodes[n] == Fresh() && !c.closed
    requires c.claims == map[] && Meets(c, n) && SameSelect(c, n, Theirs(c, n)[0])
    ensures Met(c, Emit(c, n, QUIET), n, 0)
    ensures Emit(c, n, QUIET).pairs == c.pairs && Emit(c, n, QUIET).claims == map[]
  {
    var a := Arrive(c, n);
    ArriveInv(c, n);
    FrontRefuses(a, n);
    MatchAgain(a, n, QUIET, 0);
    LastOutcome(a, n, {}, {});
    EmitInv(c, n, QUIET);
    ArrivedMet(c, Emit(c, n, QUIET), n, 0);
  }

  /** b waits, and then t behind it. */
  lemma TwoWait<V>(info: map<nat, Info<V>>, a: nat, b: nat, t: nat) returns (c1: Chan<V>, c2: Chan<V>)
    requires (forall n :: n in info && info[n].side == Sender ==> info[n].value.Some?) && Crosses(info, a, b, t)
    ensures Step(Opened(info), Arrives(b, QUIET), c1) && Step(c1, Arrives(t, QUIET), c2) && Inv(c2, {})
    ensures c2.info == info && !c2.closed && c2.claims == map[] && c2.nodes[a] == Fresh()
    ensures Theirs(c2, a) == [b, t]
  {
    OpenedInv(info);
    c1 := QueuedStep(Opened(info), b);
    c2 := QueuedStep(c1, t);
    BothQueued(info, c1, c2, a, b, t);
  }

  lemma BothQueued<V>(info: map<nat, Info<V>>, c1: Chan<V>, c2: Chan<V>, a: nat, b: nat, t: nat)
    requires Crosses(info, a, b, t) && Queues(Opened(info), c1, b) && t in c1.info && Queues(c1, c2, t)
    ensures c2.info == info && !c2.closed && c2.claims == map[] && a in c2.nodes && c2.nodes[a] == Fresh()
    ensures Theirs(c2, a) == [b, t]
  {
  }

  /** n is stranded although t, which could be its partner, is waiting. */
  ghost predicate Bypassed<V>(c: Chan<V>, n: nat, t: nat) {
    Stranded(c, n) && t in Theirs(c, n) && t in c.info && CanPair(c, n, t)
  }

  lemma CrossMeets<V>(c: Chan<V>, a: nat, b: nat, t: nat)
    requires Typed(c) && Crosses(c.info, a, b, t) && Theirs(c, a) == [b, t]
    ensures Meets(c, a) && SameSelect(c, a, Theirs(c, a)[0])
  {
  }

  lemma CrossBypassed<V>(c: Chan<V>, d: Chan<V>, a: nat, b: nat, t: nat)
    requires Typed(c) && Crosses(c.info, a, b, t) && Theirs(c, a) == [b, t] && c.nodes[a] == Fresh()
    requires Met(c, d, a, 0) && d.pairs == c.pairs && d.claims == map[]
    ensures Bypassed(d, a, t)
  {
  }

  lemma ThenRefused<V>(c: Chan<V>, a: nat, b: nat, t: nat) returns (d: Chan<V>)
    requires Inv(c, {}) && Crosses(c.info, a, b, t) && !c.closed && c.claims == map[] && c.nodes[a] == Fresh()
    requires Theirs(c, a) == [b, t]
    ensures Step(c, Arrives(a, QUIET), d) && Bypassed(d, a, t)
  {
    d := Emit(c, a, QUIET);
    CrossMeets(c, a, b, t);
    RefusedByFront(c, a);
    CrossBypassed(c, d, a, b, t);
  }

  /** b waits, then t, then a arrives. */
  lemma CrossedStrands<V>(info: map<nat, Info<V>>, a: nat, b: nat, t: nat) returns (ops: seq<Op>, cs: seq<Chan<V>>)
    requires (forall n :: n in info && info[n].side == Sender ==> info[n].value.Some?) && Crosses(info, a, b, t)
    ensures IsRun(info, ops, cs) && |ops| == 3 && Bypassed(cs[3], a, t)
  {
    var c1, c2 := TwoWait(info, a, b, t);
    var c3 := ThenRefused(c2, a, b, t);
    RunOfThree(info, c1, c2, c3, Arrives(b, QUIET), Arrives(t, QUIET), Arrives(a, QUIET));
    ops, cs := [Arrives(b, QUIET), Arrives(t, QUIET), Arrives(a, QUIET)], [Opened(info), c1, c2, c3];
  }

  lemma RunOfThree<V>(info: map<nat, Info<V>>, c1: Chan<V>, c2: Chan<V>, c3: Chan<V>, o0: Op, o1: Op, o2: Op)
    requires forall n :: n in info && info[n].side == Sender ==> info[n].value.Some?
    requires Step(Opened(info), o0, c1) && Step(c1, o1, c2) && Step(c2, o2, c3)
    ensures IsRun(info, [o0, o1, o2], [Opened(info), c1, c2, c3])
  {
    RunExtends(info, [], [Opened(info)], o0, c1);
    assert [] + [o0] == [o0] && [Opened(info)] + [c1] == [Opened(info), c1];
    RunExtends(info, [o0], [Opened(info), c1], o1, c2);
    assert [o0] + [o1] == [o0, o1] && [Opened(info), c1] + [c2] == [Opened(info), c1, c2];
    RunExtends(info, [o0, o1], [Opened(info), c1, c2], o2, c3);
    assert [o0, o1] + [o2] == [o0, o1, o2] && [Opened(info), c1, c2] + [c3] == [Opened(info), c1, c2, c3];
  }

  lemma RunExtends<V>(info: map<nat, Info<V>>, ops: seq<Op>, cs: seq<Chan<V>>, op: Op, d: Chan<V>)
    requires IsRun(info, ops, cs) && Step(cs[|ops|], op, d)
    ensures IsRun(info, ops + [op], cs + [d])
  {
    var ops', cs' := ops + [op], cs + [d];
    forall i | 0 <= i < |ops'| ensures Step(cs'[i], ops'[i], cs'[i + 1]) {
      if i < |ops| { assert Step(cs[i], ops[i], cs[i + 1]); }
    }
  }

  /** No node is ever stranded, whatever happens, exactly when no select crosses in this channel. */
  lemma StrandedExactlyWhenCrossed<V>(info: map<nat, Info<V>>)
    requires forall n :: n in info && info[n].side == Sender ==> info[n].value.Some?
    ensures Crossed(info) <==>
      exists ops, cs: seq<Chan<V>> :: IsRun(info, ops, cs) && !NobodyStranded(cs[|ops|])
  {
    if Crossed(info) {
      var a, b, t :| Crosses(info, a, b, t);
      var ops, cs := CrossedStrands(info, a, b, t);
      assert IsRun(info, ops, cs) && Stranded(cs[3], a);
    } else {
      forall ops, cs: seq<Chan<V>> | IsRun(info, ops, cs) ensures NobodyStranded(cs[|ops|]) {
        RunStrands(info, ops, cs, |ops|);
      }
    }
  }
}
