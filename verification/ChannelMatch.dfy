/** Whom an incoming node is paired with, and what no operation of the channel takes back. */
module ChannelMatch {
  import opened Options
  import opened ChannelSpec
  import opened ChannelProof

  // ---------- nothing is taken back ----------

  ghost predicate RecordsGrow<V>(c: Chan<V>, d: Chan<V>) {
    && d.info == c.info && d.nodes.Keys == c.nodes.Keys && (c.closed ==> d.closed) && c.pairs <= d.pairs
    && (forall x :: x in c.claims ==> x in d.claims && d.claims[x] == c.claims[x])
  }

  ghost predicate NodeGrows<V>(a: Node<V>, b: Node<V>) {
    && (a.stamp.Some? ==> b.stamp == a.stamp)
    && (a.out != [] ==> b.out == a.out)
    && (a.tried ==> b.tried)
  }

  /** From c to d no claim, pairing, arrival, answer or closing is undone. */
  ghost predicate Grows<V>(c: Chan<V>, d: Chan<V>) {
    RecordsGrow(c, d) && (forall k :: k in c.nodes ==> NodeGrows(c.nodes[k], d.nodes[k]))
  }

  lemma GrowsTrans<V>(a: Chan<V>, b: Chan<V>, c: Chan<V>)
    requires Grows(a, b) && Grows(b, c)
    ensures Grows(a, c)
  {
    forall k | k in a.nodes ensures NodeGrows(a.nodes[k], c.nodes[k]) {
      assert NodeGrows(a.nodes[k], b.nodes[k]) && NodeGrows(b.nodes[k], c.nodes[k]);
    }
  }

  /** It is enough that one node grows. */
  lemma OneNodeGrows<V>(c: Chan<V>, d: Chan<V>, n: nat)
    requires OneNode(c, d, n) && NodeGrows(c.nodes[n], d.nodes[n])
    ensures Grows(c, d)
  {
  }

  lemma PairGrows<V>(c: Chan<V>, s: nat, r: nat)
    requires s in c.info && r in c.info && c.info.Keys == c.nodes.Keys && c.info[s].value.Some?
    requires c.nodes[s].out == [] && c.nodes[r].out == [] && s != r && CanPair(c, s, r)
    ensures Grows(c, Pair(c, s, r))
  {
  }

  /** Leaving m marked, or putting it back and leaving n marked. */
  lemma MissGrows<V>(c: Chan<V>, n: nat, m: nat)
    requires Typed(c) && n in c.info && m in c.info
    ensures Grows(c, Mark(c, m)) && Grows(c, Mark(PushFront(c, m), n))
  {
    var back := PushFront(c, m);
    OneNodeGrows(c, Mark(c, m), m);
    OneNodeGrows(c, back, m);
    OneNodeGrows(back, Mark(back, n), n);
    GrowsTrans(c, back, Mark(back, n));
  }

  lemma SettleGrows<V>(c: Chan<V>, n: nat, m: nat, y: set<nat>)
    requires Typed(c) && n in c.info && m in c.info && c.info[m].side == Other(c.info[n].side)
    requires c.nodes[n].out == [] && c.nodes[m].out == []
    ensures Grows(c, Settle(c, n, m, y).0)
  {
    if CanPair(c, n, m) {
      if c.info[n].side == Sender { PairGrows(c, n, m); } else { PairGrows(c, m, n); }
    } else {
      var looked := Flip(c, y);
      assert Grows(c, looked);
      MissGrows(looked, n, m);
      GrowsTrans(c, looked, Settle(c, n, m, y).0);
    }
  }

  lemma PopFrontGrows<V>(c: Chan<V>, n: nat, x: set<nat>)
    requires NodesOk(c, {n}) && QueuesOk(c) && n in c.info && Theirs(c, n) != []
    ensures var m, d := Theirs(c, n)[0], Flip(PopFront(c, Other(c.info[n].side)), x);
      && Grows(c, d) && Typed(d) && m in d.info && d.info[m].side == Other(d.info[n].side)
      && d.nodes[m].out == [] && d.nodes[n].out == []
  {
    var side := Other(c.info[n].side);
    PopFrontSide(c, side);
    PopFrontNode(c, {n}, side);
    assert n in {n};
    OneNodeGrows(c, PopFront(c, side), Theirs(c, n)[0]);
  }

  lemma TryFirstGrows<V>(c: Chan<V>, n: nat, x: set<nat>, y: set<nat>)
    requires NodesOk(c, {n}) && QueuesOk(c) && n in c.info && Theirs(c, n) != []
    ensures Grows(c, TryFirst(c, n, x, y).0)
  {
    var popped := Flip(PopFront(c, Other(c.info[n].side)), x);
    PopFrontGrows(c, n, x);
    SettleGrows(popped, n, Theirs(c, n)[0], y);
    GrowsTrans(c, popped, TryFirst(c, n, x, y).0);
  }

  lemma {:induction false} MatchGrows<V>(c: Chan<V>, n: nat, env: Env, k: nat)
    requires Inv(c, {n}) && n in c.info
    ensures Grows(c, Match(c, n, env, k))
    decreases |Theirs(c, n)|
  {
    if Theirs(c, n) == [] {
      assert n in {n};
      OneNodeGrows(c, Enqueue(c, n), n);
    } else {
      var (d, round) := TryFirst(c, n, env(k), env(k + 1));
      TryFirstGrows(c, n, env(k), env(k + 1));
      if round.Skipped? {
        TryFirstInv(c, n, env(k), env(k + 1));
        Skips(c, n, env(k), env(k + 1));
        MatchGrows(d, n, env, k + 2);
        GrowsTrans(c, d, Match(d, n, env, k + 2));
      }
    }
  }

  lemma MeetGrows<V>(c: Chan<V>, n: nat, env: Env)
    requires Inv(c, {}) && n in c.info && c.nodes[n].stamp == None && !Refused(c, n)
    ensures Grows(c, Match(Arrive(c, n), n, env, 0))
  {
    var a := Arrive(c, n);
    assert c.nodes[n].out == [];
    OneNodeGrows(c, a, n);
    ArriveInv(c, n);
    MatchGrows(a, n, env, 0);
    GrowsTrans(c, a, Match(a, n, env, 0));
  }

  lemma RefuseGrows<V>(c: Chan<V>, n: nat, env: Env)
    requires Inv(c, {}) && n in c.info && c.nodes[n].stamp == None && Refused(c, n)
    ensures Grows(c, Emit(c, n, env))
  {
    assert c.nodes[n].out == [];
    OneNodeGrows(c, Emit(c, n, env), n);
  }

  lemma WaitGrows<V>(c: Chan<V>, n: nat, env: Env)
    requires NodesOk(c, {}) && n in c.info && c.nodes[n].stamp == None && !Refused(c, n) && !Meets(c, n)
    ensures Grows(c, Emit(c, n, env))
  {
    assert c.nodes[n].out == [];
    OneNodeGrows(c, Enqueue(Arrive(c, n), n), n);
  }

  lemma EmitGrows<V>(c: Chan<V>, n: nat, env: Env)
    requires Inv(c, {}) && n in c.info && c.nodes[n].stamp == None
    ensures Grows(c, Emit(c, n, env))
  {
    if Refused(c, n) {
      RefuseGrows(c, n, env);
    } else if Meets(c, n) {
      MeetGrows(c, n, env);
    } else {
      WaitGrows(c, n, env);
    }
  }

  lemma CancelGrows<V>(c: Chan<V>, n: nat)
    requires Inv(c, {}) && n in c.info && !c.nodes[n].tried
    ensures Grows(c, Cancel(c, n))
  {
    assert AtRest(c.nodes[n]);
    OneNodeGrows(c, Cancel(c, n), n);
  }

  lemma CloseGrows<V>(c: Chan<V>)
    requires Inv(c, {})
    ensures Grows(c, Close(c))
  {
    forall k | k in c.recvq ensures c.nodes[k].out == [] { assert c.nodes[k].queued; }
  }

  // ---------- one round ----------

  /** Apart from n and m, nodes stay as they are. */
  ghost predicate Framed<V>(c: Chan<V>, d: Chan<V>, n: nat, m: nat) {
    && d.info == c.info && d.closed == c.closed && d.nodes.Keys == c.nodes.Keys
    && forall k :: k in c.nodes && k != n && k != m ==> d.nodes[k] == c.nodes[k]
  }

  /** Node n, about to be paired with m, which heads its queue. */
  ghost predicate Pairs<V>(c: Chan<V>, d: Chan<V>, n: nat, m: nat)
    requires n in c.info && m in c.info
  {
    && d.pairs == c.pairs + [if c.info[n].side == Sender then (n, m) else (m, n)]
    && !IsDone(c, m) && !IsDone(c, n) && !SameSelect(c, n, m)
  }

  /** Node n is left marked: its own select is done, or it is the select of m, which is not. */
  ghost predicate Yields<V>(c: Chan<V>, d: Chan<V>, n: nat, m: nat)
    requires n in c.info && m in c.info && d.info == c.info && n in c.nodes && m in c.nodes
  {
    && d.pairs == c.pairs && n in d.nodes && m in d.nodes
    && d.nodes[n] == c.nodes[n].(requestedCancel := true) && d.nodes[m] == c.nodes[m]
    && !IsDone(d, m) && (IsDone(d, n) || SameSelect(c, n, m))
  }

  /** Node m is out of its queue, marked, and its select is done. */
  ghost predicate PassedOver<V>(c: Chan<V>, d: Chan<V>, m: nat) {
    && m in c.nodes && m in d.info && m in d.nodes
    && IsDone(d, m) && d.nodes[m] == c.nodes[m].(queued := false, requestedCancel := true)
  }

  lemma PairFramed<V>(c: Chan<V>, s: nat, r: nat)
    requires Typed(c) && s in c.info && r in c.info && c.info[s].value.Some?
    ensures Framed(c, Pair(c, s, r), s, r)
  {
  }

  lemma SettleFramed<V>(c: Chan<V>, n: nat, m: nat, y: set<nat>)
    requires Typed(c) && n in c.info && m in c.info && n != m && c.info[m].side == Other(c.info[n].side)
    ensures var d := Settle(c, n, m, y).0; Framed(c, d, n, m)
  {
    if CanPair(c, n, m) {
      if c.info[n].side == Sender { PairFramed(c, n, m); } else { PairFramed(c, m, n); }
    }
  }

  /** How a round that has popped m ends, seen from the state p after the pop. */
  ghost predicate Settled<V>(p: Chan<V>, d: Chan<V>, round: Round, n: nat, m: nat)
    requires n in p.info && m in p.info && n in p.nodes && m in p.nodes
  {
    && Framed(p, d, n, m)
    && Queue(d, p.info[n].side) == Queue(p, p.info[n].side)
    && Theirs(d, n) == (if round.PutBack? then [m] else []) + Theirs(p, n)
    && (round.Paired? ==> Pairs(p, d, n, m))
    && (round.PutBack? ==> Yields(p.(nodes := p.nodes[m := p.nodes[m].(queued := true)]), d, n, m))
    && (round.Skipped? ==> d.nodes[n] == p.nodes[n] && d.pairs == p.pairs && PassedOver(p, d, m))
  }

  lemma SettleRound<V>(p: Chan<V>, n: nat, m: nat, y: set<nat>)
    requires Typed(p) && n in p.info && m in p.info && n != m && p.info[m].side == Other(p.info[n].side)
    requires !p.nodes[m].queued
    ensures Settled(p, Settle(p, n, m, y).0, Settle(p, n, m, y).1, n, m)
  {
    SettleFramed(p, n, m, y);
    var looked := Flip(p, y);
    if !CanPair(p, n, m) && !IsDone(looked, m) {
      assert IsDone(p, n) ==> IsDone(looked, n);
    }
  }

  /** The first waiting node m of the other side has been popped, and flags may have been set. */
  ghost predicate Popped<V>(c: Chan<V>, p: Chan<V>, n: nat, m: nat)
    requires n in c.info && Theirs(c, n) != []
  {
    && m == Theirs(c, n)[0] && m in c.info && m in c.nodes && m != n && c.info[m].side == Other(c.info[n].side)
    && Typed(p) && p.info == c.info && p.closed == c.closed && p.pairs == c.pairs
    && c.nodes[m].queued && p.nodes == c.nodes[m := c.nodes[m].(queued := false)]
    && Queue(p, c.info[n].side) == Queue(c, c.info[n].side) && Theirs(p, n) == Theirs(c, n)[1..]
    && forall x :: x in c.claims ==> x in p.claims
  }

  lemma FirstPopped<V>(c: Chan<V>, n: nat, x: set<nat>)
    requires NodesOk(c, {n}) && QueuesOk(c) && n in c.info && Theirs(c, n) != []
    ensures Popped(c, Flip(PopFront(c, Other(c.info[n].side)), x), n, Theirs(c, n)[0])
  {
    var side := Other(c.info[n].side);
    PopFrontSide(c, side);
    PopFrontNode(c, {n}, side);
    assert n in {n};
    assert Theirs(c, n)[0] in Theirs(c, n);
  }

  /** What one round of the pop loop does. */
  ghost predicate RoundEnd<V>(c: Chan<V>, d: Chan<V>, round: Round, n: nat, m: nat)
    requires n in c.info && Theirs(c, n) != [] && m in c.info && n in c.nodes && m in c.nodes
  {
    && Framed(c, d, n, m)
    && Queue(d, c.info[n].side) == Queue(c, c.info[n].side)
    && Theirs(d, n) == (if round.PutBack? then Theirs(c, n) else Theirs(c, n)[1..])
    && (round.Paired? ==> Pairs(c, d, n, m))
    && (round.PutBack? ==> Yields(c, d, n, m))
    && (round.Skipped? ==> d.nodes[n] == c.nodes[n] && d.pairs == c.pairs && PassedOver(c, d, m))
  }

  lemma PoppedRound<V>(c: Chan<V>, p: Chan<V>, d: Chan<V>, round: Round, n: nat, m: nat)
    requires Typed(c) && n in c.info && Theirs(c, n) != [] && Popped(c, p, n, m) && Settled(p, d, round, n, m)
    ensures RoundEnd(c, d, round, n, m)
  {
    assert Theirs(c, n) == [m] + Theirs(c, n)[1..];
    assert p.nodes[m].(queued := true) == c.nodes[m];
  }

  lemma TryFirstRound<V>(c: Chan<V>, n: nat, x: set<nat>, y: set<nat>)
    requires NodesOk(c, {n}) && QueuesOk(c) && n in c.info && Theirs(c, n) != []
    ensures var m := Theirs(c, n)[0];
      m in c.info && RoundEnd(c, TryFirst(c, n, x, y).0, TryFirst(c, n, x, y).1, n, m)
  {
    var m, p := Theirs(c, n)[0], Flip(PopFront(c, Other(c.info[n].side)), x);
    FirstPopped(c, n, x);
    SettleRound(p, n, m, y);
    PoppedRound(c, p, TryFirst(c, n, x, y).0, TryFirst(c, n, x, y).1, n, m);
  }

  // ---------- the whole loop ----------

  /** Nobody is left to try: node n waits, or fails because the channel is closed. */
  ghost predicate Waits<V>(c: Chan<V>, d: Chan<V>, n: nat)
    requires n in c.info && n in c.nodes && d.info == c.info && n in d.nodes
  {
    var side := c.info[n].side;
    && d.pairs == c.pairs && Theirs(d, n) == []
    && (if c.closed then d.nodes[n] == c.nodes[n].(out := c.nodes[n].out + [Failed]) && Queue(d, side) == Queue(c, side)
        else d.nodes[n] == c.nodes[n].(queued := true) && Queue(d, side) == Queue(c, side) + [n])
  }

  /** Apart from n and the first nodes of q, up to and including q[i], nodes stay as they are. */
  ghost predicate Untouched<V>(c: Chan<V>, d: Chan<V>, n: nat, q: seq<nat>, i: nat)
    requires i <= |q|
  {
    && d.nodes.Keys == c.nodes.Keys
    && forall k :: k in c.nodes && k != n && k !in q[..i] && (i < |q| ==> k != q[i]) ==> d.nodes[k] == c.nodes[k]
  }

  ghost predicate AllPassedOver<V>(c: Chan<V>, d: Chan<V>, q: seq<nat>) {
    forall m :: m in q ==> PassedOver(c, d, m)
  }

  /** Node n is paired with the i-th waiting node, or yields to it, or there is none and n waits. */
  ghost predicate Ends<V>(c: Chan<V>, d: Chan<V>, n: nat, i: nat)
    requires Typed(c) && n in c.info && i <= |Theirs(c, n)| && d.info == c.info && n in d.nodes
  {
    var q := Theirs(c, n);
    if i == |q| then Waits(c, d, n)
    else
      && Queue(d, c.info[n].side) == Queue(c, c.info[n].side)
      && (|| (Theirs(d, n) == q[i + 1..] && Pairs(c, d, n, q[i]))
          || (Theirs(d, n) == q[i..] && Yields(c, d, n, q[i])))
  }

  /** The loop passes over the first i waiting nodes of the other side and ends at the next. */
  ghost predicate Outcome<V>(c: Chan<V>, d: Chan<V>, n: nat, i: nat)
    requires Typed(c) && n in c.info
  {
    var q := Theirs(c, n);
    && i <= |q| && d.info == c.info && d.closed == c.closed
    && AllPassedOver(c, d, q[..i]) && Untouched(c, d, n, q, i) && Ends(c, d, n, i)
  }

  /** The i-th of what is left after the first is the one after the i-th of all. */
  lemma Behind(q: seq<nat>, r: seq<nat>, i: nat)
    requires q != [] && r == q[1..] && q[0] !in r && i <= |r|
    ensures q[..i + 1] == [q[0]] + r[..i] && q[0] !in r[..i] && (i < |r| ==> q[0] != r[i] && r[i] == q[i + 1])
    ensures i < |r| ==> r[i + 1..] == q[i + 2..] && r[i..] == q[i + 1..] && r[i] in q
    ensures forall k :: k in r[..i] ==> k in r
    ensures forall k :: k in r ==> k in q
  {
  }

  /** One skipped round: node m is passed over, and n and the rest of the queue are as before. */
  ghost predicate Skip<V>(c: Chan<V>, e: Chan<V>, n: nat)
    requires Typed(c) && n in c.info && Theirs(c, n) != []
  {
    var m := Theirs(c, n)[0];
    && Typed(e) && Framed(c, e, n, m) && PassedOver(c, e, m) && e.nodes[n] == c.nodes[n] && e.pairs == c.pairs
    && Queue(e, c.info[n].side) == Queue(c, c.info[n].side) && Theirs(e, n) == Theirs(c, n)[1..]
    && m !in Theirs(e, n) && n !in Theirs(c, n)
    && forall x :: x in c.claims ==> x in e.claims
  }

  lemma ShiftedPassed<V>(c: Chan<V>, e: Chan<V>, d: Chan<V>, n: nat, i: nat)
    requires Typed(c) && n in c.info && Theirs(c, n) != [] && Skip(c, e, n)
    requires Outcome(e, d, n, i) && forall x :: x in e.claims ==> x in d.claims
    ensures AllPassedOver(c, d, Theirs(c, n)[..i + 1])
  {
    var q, r := Theirs(c, n), Theirs(e, n);
    Behind(q, r, i);
    forall m | m in q[..i + 1] ensures PassedOver(c, d, m) {
      if m != q[0] {
        assert m in r[..i] && PassedOver(e, d, m);
      } else {
        assert d.nodes[m] == e.nodes[m];
      }
    }
  }

  lemma ShiftedUntouched<V>(c: Chan<V>, e: Chan<V>, d: Chan<V>, n: nat, i: nat)
    requires Typed(c) && n in c.info && Theirs(c, n) != [] && Skip(c, e, n)
    requires i <= |Theirs(e, n)| && Untouched(e, d, n, Theirs(e, n), i)
    ensures Untouched(c, d, n, Theirs(c, n), i + 1)
  {
    Behind(Theirs(c, n), Theirs(e, n), i);
  }

  lemma ShiftedEnds<V>(c: Chan<V>, e: Chan<V>, d: Chan<V>, n: nat, i: nat)
    requires Typed(c) && n in c.info && Theirs(c, n) != [] && Skip(c, e, n)
    requires i <= |Theirs(e, n)| && d.info == e.info && n in d.nodes && Ends(e, d, n, i)
    ensures Ends(c, d, n, i + 1)
  {
    Behind(Theirs(c, n), Theirs(e, n), i);
  }

  lemma SkipRound<V>(c: Chan<V>, n: nat, x: set<nat>, y: set<nat>)
    requires Inv(c, {n}) && n in c.info && Theirs(c, n) != [] && TryFirst(c, n, x, y).1.Skipped?
    ensures Inv(TryFirst(c, n, x, y).0, {n}) && Skip(c, TryFirst(c, n, x, y).0, n)
  {
    TryFirstInv(c, n, x, y);
    TryFirstGrows(c, n, x, y);
    TryFirstRound(c, n, x, y);
    SortedTail(c.nodes, Theirs(c, n));
    assert n in {n} && n !in Theirs(c, n);
  }

  lemma LastOutcome<V>(c: Chan<V>, n: nat, x: set<nat>, y: set<nat>)
    requires Inv(c, {n}) && n in c.info && Theirs(c, n) != [] && !TryFirst(c, n, x, y).1.Skipped?
    ensures Outcome(c, TryFirst(c, n, x, y).0, n, 0) && Ended(c, TryFirst(c, n, x, y).0, n)
  {
    TryFirstRound(c, n, x, y);
    assert Outcome(c, TryFirst(c, n, x, y).0, n, 0);
  }

  lemma SkippedOutcome<V>(c: Chan<V>, e: Chan<V>, d: Chan<V>, n: nat, i: nat)
    requires Typed(c) && n in c.info && Theirs(c, n) != [] && Skip(c, e, n)
    requires Outcome(e, d, n, i) && forall x :: x in e.claims ==> x in d.claims
    ensures Outcome(c, d, n, i + 1)
  {
    ShiftedPassed(c, e, d, n, i);
    ShiftedUntouched(c, e, d, n, i);
    ShiftedEnds(c, e, d, n, i);
  }

  lemma MatchAgain<V>(c: Chan<V>, n: nat, env: Env, k: nat)
    requires Typed(c) && n in c.info && Theirs(c, n) != []
    ensures var (d, round) := TryFirst(c, n, env(k), env(k + 1));
      if round.Skipped? then
        Typed(d) && d.info == c.info && |Theirs(d, n)| < |Theirs(c, n)| && Match(c, n, env, k) == Match(d, n, env, k + 2)
      else
        Match(c, n, env, k) == d
  {
    Skips(c, n, env(k), env(k + 1));
  }

  lemma EmptyOutcome<V>(c: Chan<V>, n: nat)
    requires Inv(c, {n}) && n in c.info && Theirs(c, n) == []
    ensures Ended(c, Enqueue(c, n), n)
  {
    assert n in {n};
    assert Outcome(c, Enqueue(c, n), n, 0);
  }

  /** The loop has one of the outcomes. */
  ghost predicate Ended<V>(c: Chan<V>, d: Chan<V>, n: nat)
    requires Typed(c) && n in c.info
  {
    exists i: nat :: Outcome(c, d, n, i)
  }

  /** After a skipped round, the outcome of the rest is the outcome one node further on. */
  lemma NextOutcome<V>(c: Chan<V>, n: nat, env: Env, k: nat, d: Chan<V>)
    requires Inv(c, {n}) && Inv(d, {n}) && n in c.info && n in d.info && Theirs(c, n) != [] && Skip(c, d, n)
    requires Ended(d, Match(d, n, env, k), n)
    ensures Ended(c, Match(d, n, env, k), n)
  {
    var e := Match(d, n, env, k);
    var i: nat :| Outcome(d, e, n, i);
    MatchGrows(d, n, env, k);
    SkippedOutcome(c, d, e, n, i);
    assert Outcome(c, e, n, i + 1);
  }

  /** What the pop loop does to an incoming node. */
  lemma {:induction false} MatchOutcome<V>(c: Chan<V>, n: nat, env: Env, k: nat)
    requires Inv(c, {n}) && n in c.info
    ensures Ended(c, Match(c, n, env, k), n)
    decreases |Theirs(c, n)|
  {
    if Theirs(c, n) == [] {
      EmptyOutcome(c, n);
    } else {
      var (d, round) := TryFirst(c, n, env(k), env(k + 1));
      MatchAgain(c, n, env, k);
      if round.Skipped? {
        SkipRound(c, n, env(k), env(k + 1));
        MatchOutcome(d, n, env, k + 2);
        NextOutcome(c, n, env, k + 2, d);
      } else {
        LastOutcome(c, n, env(k), env(k + 1));
      }
    }
  }
}
