/** A channel one access to a done_ flag at a time. Its mutex keeps other operations of the same
    channel out, but between two accesses other channels and the selects themselves go on. This is
    what ChannelSpec's operations come from: each is what the accesses of one critical section add
    up to, for the flags that were found set. */
module ChannelSteps {
  import opened Options
  import opened ChannelSpec
  import opened ChannelProof
  import opened ChannelMatch

  /** Outside of send and receive, before the pop for n, or after a failed kcas for n and m. */
  datatype Phase = Idle | Matching(n: nat) | Looking(n: nat, m: nat)

  /** "seen" records which flags each access so far found set. */
  datatype Local<V> = Local(c: Chan<V>, phase: Phase, seen: seq<set<nat>>)

  /** send or receive is called: everything up to the pop loop. */
  function Entered<V>(c: Chan<V>, n: nat): Local<V>
    requires Typed(c) && n in c.info
  {
    if !Refused(c, n) && Meets(c, n) then Local(Arrive(c, n), Matching(n), [])
    else Local(Emit(c, n, _ => {}), Idle, [])
  }

  predicate Ready<V>(l: Local<V>) {
    Typed(l.c) && match l.phase
    case Idle => true
    case Matching(n) => n in l.c.info
    case Looking(n, m) => n in l.c.info && m in l.c.info && l.c.info[m].side == Other(l.c.info[n].side)
  }

  /** Pop and try the kcas; or read the popped node's flag after a failed one. */
  function Accessed<V>(l: Local<V>, done: set<nat>): Local<V>
    requires Ready(l)
  {
    match l.phase
    case Idle => l
    case Matching(n) =>
      if Theirs(l.c, n) == [] then l.(c := Enqueue(l.c, n), phase := Idle)
      else
        var m, p := Theirs(l.c, n)[0], Flip(PopFront(l.c, Other(l.c.info[n].side)), done);
        if !CanPair(p, n, m) then Local(p, Looking(n, m), l.seen + [done])
        else Local(if p.info[n].side == Sender then Pair(p, n, m) else Pair(p, m, n), Idle, l.seen + [done])
    case Looking(n, m) =>
      var q := Flip(l.c, done);
      if IsDone(q, m) then Local(Mark(q, m), Matching(n), l.seen + [done])
      else Local(Mark(PushFront(q, m), n), Idle, l.seen + [done])
  }

  // ---------- the invariant between accesses ----------

  /** The popped node m could go back to the front, and the kcas for n and m has failed. */
  ghost predicate PlaceOk<V>(c: Chan<V>, n: nat, m: nat) {
    && Typed(c) && n in c.info && m in c.info && n != m && Newest(c, n)
    && c.info[m].side == Other(c.info[n].side) && (c.closed ==> c.info[m].side == Sender)
    && (forall k :: k in Queue(c, c.info[m].side) ==> Before(c, m, k))
    && (c.info[m].select.Some? || forall k :: k in Theirs(c, m) ==> c.info[k].select.Some?)
    && !CanPair(c, n, m)
  }

  ghost predicate HoldsBoth<V>(c: Chan<V>, n: nat, m: nat) {
    Inv(c, {n, m}) && PlaceOk(c, n, m)
  }

  ghost predicate LocalOk<V>(l: Local<V>) {
    match l.phase
    case Idle => Inv(l.c, {})
    case Matching(n) => Inv(l.c, {n}) && n in l.c.info && Newest(l.c, n)
    case Looking(n, m) => HoldsBoth(l.c, n, m)
  }

  lemma OkReady<V>(l: Local<V>)
    requires LocalOk(l)
    ensures Ready(l)
  {
  }

  lemma EnteredOk<V>(c: Chan<V>, n: nat)
    requires Inv(c, {}) && n in c.info && c.nodes[n].stamp == None
    ensures LocalOk(Entered(c, n))
  {
    if !Refused(c, n) && Meets(c, n) {
      ArriveInv(c, n);
      ArriveNewest(c, n);
    } else {
      EmitInv(c, n, _ => {});
    }
  }

  /** The kcas fails: both nodes are in hand. */
  lemma MissOk<V>(c: Chan<V>, n: nat, done: set<nat>)
    requires Inv(c, {n}) && n in c.info && Newest(c, n) && Theirs(c, n) != []
    requires var p := Flip(PopFront(c, Other(c.info[n].side)), done); !CanPair(p, n, Theirs(c, n)[0])
    ensures HoldsBoth(Flip(PopFront(c, Other(c.info[n].side)), done), n, Theirs(c, n)[0])
  {
    PoppedInv(c, n, done);
    MissPlace(c, n, done);
  }

  lemma NewestKept<V>(c: Chan<V>, d: Chan<V>, n: nat)
    requires Typed(c) && Typed(d) && d.info == c.info && n in c.info && Newest(c, n)
    requires Queue(d, c.info[n].side) == Queue(c, c.info[n].side)
    requires forall k :: k in c.nodes ==> d.nodes[k].stamp == c.nodes[k].stamp
    ensures Newest(d, n)
  {
  }

  lemma PopStamps<V>(c: Chan<V>, n: nat, done: set<nat>)
    requires Typed(c) && n in c.info && Theirs(c, n) != []
    ensures var p := Flip(PopFront(c, Other(c.info[n].side)), done);
      && Typed(p) && p.info == c.info && p.closed == c.closed && Queue(p, c.info[n].side) == Queue(c, c.info[n].side)
      && forall k :: k in c.nodes ==> p.nodes[k].stamp == c.nodes[k].stamp
  {
  }

  lemma MissPlace<V>(c: Chan<V>, n: nat, done: set<nat>)
    requires NodesOk(c, {n}) && QueuesOk(c) && NoFreePair(c) && n in c.info && Newest(c, n) && Theirs(c, n) != []
    requires var p := Flip(PopFront(c, Other(c.info[n].side)), done); !CanPair(p, n, Theirs(c, n)[0])
    ensures PlaceOk(Flip(PopFront(c, Other(c.info[n].side)), done), n, Theirs(c, n)[0])
  {
    PopStamps(c, n, done);
    NewestKept(c, Flip(PopFront(c, Other(c.info[n].side)), done), n);
    PoppedPlace(c, n, done);
  }

  lemma HitOk<V>(c: Chan<V>, n: nat, done: set<nat>)
    requires Inv(c, {n}) && n in c.info && Theirs(c, n) != []
    requires var p := Flip(PopFront(c, Other(c.info[n].side)), done); CanPair(p, n, Theirs(c, n)[0])
    ensures var m, p := Theirs(c, n)[0], Flip(PopFront(c, Other(c.info[n].side)), done);
      m in p.info && (if p.info[n].side == Sender then Inv(Pair(p, n, m), {}) else Inv(Pair(p, m, n), {}))
  {
    var m, p := Theirs(c, n)[0], Flip(PopFront(c, Other(c.info[n].side)), done);
    PoppedInv(c, n, done);
    PoppedPlace(c, n, done);
    assert {n, m} == {m, n};
    if p.info[n].side == Sender { PairInv(p, n, m); } else { PairInv(p, m, n); }
  }

  lemma PopOk<V>(c: Chan<V>, n: nat, done: set<nat>, seen: seq<set<nat>>)
    requires Inv(c, {n}) && n in c.info && Newest(c, n) && Theirs(c, n) != []
    ensures LocalOk(Accessed(Local(c, Matching(n), seen), done))
  {
    if CanPair(Flip(PopFront(c, Other(c.info[n].side)), done), n, Theirs(c, n)[0]) {
      HitOk(c, n, done);
    } else {
      MissOk(c, n, done);
    }
  }

  /** Reading the flag ends the round as Settle says. */
  lemma LookShape<V>(c: Chan<V>, n: nat, m: nat, done: set<nat>, seen: seq<set<nat>>)
    requires PlaceOk(c, n, m)
    ensures var (d, round) := Settle(c, n, m, done);
      Accessed(Local(c, Looking(n, m), seen), done) == Local(d, if round.Skipped? then Matching(n) else Idle, seen + [done])
    ensures Settle(c, n, m, done).1.Skipped? ==> Settle(c, n, m, done).0 == Mark(Flip(c, done), m)
  {
  }

  lemma LookOk<V>(c: Chan<V>, n: nat, m: nat, done: set<nat>, seen: seq<set<nat>>)
    requires HoldsBoth(c, n, m)
    ensures LocalOk(Accessed(Local(c, Looking(n, m), seen), done))
  {
    LookShape(c, n, m, done, seen);
    SettleInv(c, n, m, done);
    LookNewest(c, n, m, done);
  }

  lemma LookNewest<V>(c: Chan<V>, n: nat, m: nat, done: set<nat>)
    requires PlaceOk(c, n, m)
    ensures var d := Mark(Flip(c, done), m); Typed(d) && n in d.info && Newest(d, n)
  {
    NewestKept(c, Mark(Flip(c, done), m), n);
  }

  /** Every access keeps the channel consistent, whatever flags it finds set. */
  lemma AccessedOk<V>(l: Local<V>, done: set<nat>)
    requires LocalOk(l)
    ensures Ready(l) && LocalOk(Accessed(l, done))
  {
    OkReady(l);
    match l.phase
    case Idle =>
    case Matching(n) => if Theirs(l.c, n) == [] { EnqueueInv(l.c, n); } else { PopOk(l.c, n, done, l.seen); }
    case Looking(n, m) => LookOk(l.c, n, m, done, l.seen);
  }

  // ---------- what the accesses add up to ----------

  ghost predicate Agrees(env: Env, seen: seq<set<nat>>) {
    forall k :: 0 <= k < |seen| ==> env(k) == seen[k]
  }

  /** What is still to come if the remaining accesses find env. */
  ghost function Rest<V>(l: Local<V>, env: Env): Chan<V>
    requires LocalOk(l)
  {
    match l.phase
    case Idle => l.c
    case Matching(n) => Match(l.c, n, env, |l.seen|)
    case Looking(n, m) =>
      var (d, round) := Settle(l.c, n, m, env(|l.seen|));
      LookTyped(l.c, n, m, env(|l.seen|));
      if round.Skipped? then Match(d, n, env, |l.seen| + 1) else d
  }

  lemma LookTyped<V>(c: Chan<V>, n: nat, m: nat, y: set<nat>)
    requires HoldsBoth(c, n, m)
    ensures Settle(c, n, m, y).1.Skipped? ==> Typed(Settle(c, n, m, y).0) && n in Settle(c, n, m, y).0.info
  {
    SettleInv(c, n, m, y);
  }

  /** The call for node n in state c has come as far as l. */
  ghost predicate Underway<V>(c: Chan<V>, n: nat, l: Local<V>) {
    LocalOk(l) && Typed(c) && n in c.info && forall env :: Agrees(env, l.seen) ==> Emit(c, n, env) == Rest(l, env)
  }

  lemma EnteredUnderway<V>(c: Chan<V>, n: nat)
    requires Inv(c, {}) && n in c.info && c.nodes[n].stamp == None
    ensures Underway(c, n, Entered(c, n))
  {
    EnteredOk(c, n);
  }

  lemma SeenGrows<V>(l: Local<V>, done: set<nat>)
    requires Ready(l)
    ensures Accessed(l, done).seen == l.seen || Accessed(l, done).seen == l.seen + [done]
  {
  }

  lemma SameRound<V>(c: Chan<V>, n: nat, x: set<nat>, y: set<nat>)
    requires Typed(c) && n in c.info && Theirs(c, n) != []
    ensures var m, p := Theirs(c, n)[0], Flip(PopFront(c, Other(c.info[n].side)), x);
      && p.info == c.info && p.info.Keys == p.nodes.Keys && m in p.info && p.info[m].side == Other(p.info[n].side)
      && (forall k :: k in p.info && p.info[k].side == Sender ==> p.info[k].value.Some?)
      && TryFirst(c, n, x, y) == Settle(p, n, m, y)
  {
  }

  /** The rest after a failed kcas is the rest of the round and of the loop. */
  lemma MissRest<V>(c: Chan<V>, p: Chan<V>, n: nat, m: nat, k: nat, seen: seq<set<nat>>, env: Env)
    requires Typed(c) && n in c.info && Theirs(c, n) != [] && m == Theirs(c, n)[0] && |seen| == k + 1
    requires p == Flip(PopFront(c, Other(c.info[n].side)), env(k)) && HoldsBoth(p, n, m)
    ensures Rest(Local(p, Looking(n, m), seen), env) == Match(c, n, env, k)
  {
    SameRound(c, n, env(k), env(k + 1));
    LookTyped(p, n, m, env(k + 1));
    MatchAgain(c, n, env, k);
  }

  lemma MissShape<V>(c: Chan<V>, n: nat, seen: seq<set<nat>>, done: set<nat>)
    requires Typed(c) && n in c.info && Theirs(c, n) != []
    requires !Accessed(Local(c, Matching(n), seen), done).phase.Idle?
    ensures Accessed(Local(c, Matching(n), seen), done)
         == Local(Flip(PopFront(c, Other(c.info[n].side)), done), Looking(n, Theirs(c, n)[0]), seen + [done])
  {
  }

  /** After a successful one nothing is left to do. */
  lemma HitRest<V>(c: Chan<V>, n: nat, seen: seq<set<nat>>, env: Env)
    requires Typed(c) && n in c.info && Theirs(c, n) != []
    requires Accessed(Local(c, Matching(n), seen), env(|seen|)).phase.Idle?
    ensures Accessed(Local(c, Matching(n), seen), env(|seen|)).c == Match(c, n, env, |seen|)
  {
    SameRound(c, n, env(|seen|), env(|seen| + 1));
    MatchAgain(c, n, env, |seen|);
  }

  lemma PopRest<V>(c: Chan<V>, n: nat, seen: seq<set<nat>>, done: set<nat>, env: Env)
    requires Inv(c, {n}) && n in c.info && Theirs(c, n) != [] && env(|seen|) == done
    requires LocalOk(Accessed(Local(c, Matching(n), seen), done))
    ensures Rest(Accessed(Local(c, Matching(n), seen), done), env) == Match(c, n, env, |seen|)
  {
    if Accessed(Local(c, Matching(n), seen), done).phase.Idle? {
      HitRest(c, n, seen, env);
    } else {
      MissShape(c, n, seen, done);
      MissRest(c, Flip(PopFront(c, Other(c.info[n].side)), done), n, Theirs(c, n)[0], |seen|, seen + [done], env);
    }
  }

  lemma LookRest<V>(c: Chan<V>, n: nat, m: nat, seen: seq<set<nat>>, done: set<nat>, env: Env)
    requires HoldsBoth(c, n, m) && env(|seen|) == done
    requires LocalOk(Accessed(Local(c, Looking(n, m), seen), done))
    ensures Rest(Accessed(Local(c, Looking(n, m), seen), done), env) == Rest(Local(c, Looking(n, m), seen), env)
  {
    LookShape(c, n, m, done, seen);
    LookTyped(c, n, m, done);
  }

  lemma AccessedRest<V>(l: Local<V>, done: set<nat>, env: Env)
    requires LocalOk(l) && Ready(l) && LocalOk(Accessed(l, done))
    requires Accessed(l, done).seen != l.seen ==> env(|l.seen|) == done
    ensures Rest(Accessed(l, done), env) == Rest(l, env)
  {
    match l.phase
    case Idle =>
    case Matching(n) => if Theirs(l.c, n) != [] { PopRest(l.c, n, l.seen, done, env); }
    case Looking(n, m) => LookRest(l.c, n, m, l.seen, done, env);
  }

  lemma AgreesBefore(env: Env, seen: seq<set<nat>>, seen': seq<set<nat>>, done: set<nat>)
    requires Agrees(env, seen') && (seen' == seen || seen' == seen + [done])
    ensures Agrees(env, seen) && (seen' != seen ==> env(|seen|) == done)
  {
    forall k | 0 <= k < |seen| ensures env(k) == seen[k] { assert seen'[k] == seen[k]; }
    if seen' != seen { assert seen'[|seen|] == done; }
  }

  /** The specified operation, with the flags found set so far, is what has been done plus the rest. */
  lemma AccessedUnderway<V>(c: Chan<V>, n: nat, l: Local<V>, done: set<nat>)
    requires Underway(c, n, l)
    ensures Ready(l) && Underway(c, n, Accessed(l, done))
  {
    AccessedOk(l, done);
    SeenGrows(l, done);
    var l' := Accessed(l, done);
    forall env | Agrees(env, l'.seen) ensures Emit(c, n, env) == Rest(l', env) {
      AgreesBefore(env, l.seen, l'.seen, done);
      AccessedRest(l, done, env);
    }
  }

  /** The flags found set, as an environment. */
  function EnvOf(seen: seq<set<nat>>): Env {
    (k: nat) => if k < |seen| then seen[k] else {}
  }

  /** When the call is over, the channel is in the state that the specified operation leads to. */
  lemma UnderwayEnds<V>(c: Chan<V>, n: nat, l: Local<V>)
    requires Underway(c, n, l) && l.phase.Idle?
    ensures l.c == Emit(c, n, EnvOf(l.seen))
  {
    assert Agrees(EnvOf(l.seen), l.seen);
  }

  // ---------- and they come to an end ----------

  /** How many accesses a call can still need. */
  function Left<V>(l: Local<V>): nat
    requires Ready(l)
  {
    match l.phase
    case Idle => 0
    case Matching(n) => 2 * |Theirs(l.c, n)| + 1
    case Looking(n, _) => 2 * |Theirs(l.c, n)| + 2
  }

  /** Every access brings the call closer to its end, whatever it finds: others cannot keep it busy. */
  lemma AccessFalls<V>(l: Local<V>, done: set<nat>)
    requires LocalOk(l) && Ready(l) && !l.phase.Idle?
    ensures Ready(Accessed(l, done)) && Left(Accessed(l, done)) < Left(l)
  {
    AccessedOk(l, done);
    OkReady(Accessed(l, done));
    match l.phase
    case Matching(n) => if Theirs(l.c, n) != [] { PopFalls(l.c, n, l.seen, done); }
    case Looking(n, m) => LookFalls(l.c, n, m, l.seen, done);
  }

  lemma PopFalls<V>(c: Chan<V>, n: nat, seen: seq<set<nat>>, done: set<nat>)
    requires Typed(c) && n in c.info && Theirs(c, n) != []
    ensures var l := Accessed(Local(c, Matching(n), seen), done);
      l.phase.Idle? || (l.phase.Looking? && l.phase.n == n && l.c.info == c.info && |Theirs(l.c, n)| == |Theirs(c, n)| - 1)
  {
  }

  lemma LookFalls<V>(c: Chan<V>, n: nat, m: nat, seen: seq<set<nat>>, done: set<nat>)
    requires PlaceOk(c, n, m)
    ensures var l := Accessed(Local(c, Looking(n, m), seen), done);
      l.phase.Idle? || (l.phase == Matching(n) && l.c.info == c.info && Theirs(l.c, n) == Theirs(c, n))
  {
  }
}
