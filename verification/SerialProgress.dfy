/** schedule and the inner task always come to an end: once nobody calls schedule any more, only so
    many accesses are left, and after the last of them everything that was asked for has run. */
module SerialProgress {
  import opened Options
  import opened Counting
  import opened IntrusiveList
  import opened Serial

  // ---------- how much is left ----------

  /** A retry is due: the head has changed since the call looked at it. */
  predicate Outdated(c: Caller, next: map<nat, Option<nat>>, head: Option<nat>) {
    c.Swapping? && (c.task !in next || next[c.task] != head)
  }

  function Retries(cs: seq<Caller>, next: map<nat, Option<nat>>, head: Option<nat>): nat {
    if cs == [] then 0 else One(Outdated(cs[0], next, head)) + Retries(cs[1..], next, head)
  }

  /** With k calls, a push can cost k retries; then its task has to be counted, taken and run. */
  function CallLeft(c: Caller, k: nat): nat {
    match c
    case Loading(_) => 2 * k + 13
    case Swapping(_) => 2 * k + 12
    case Adding => 5
    case Starting => 3
    case Returned => 0
  }

  function CallsLeft(cs: seq<Caller>, k: nat): nat {
    if cs == [] then 0 else CallLeft(cs[0], k) + CallsLeft(cs[1..], k)
  }

  function TurnLeft(t: Turn, head: Option<nat>): nat {
    match t
    case Queued => 2
    case Loaded(h) => 1 + One(h != head)
    case Running(rest, _) => |rest| + 4
    case Again => 3
    case Finished => 0
    case Crashed => 0
  }

  /** An upper bound for the accesses that are left when no more calls come. */
  ghost function Left(s: State): nat {
    var k := |s.callers|;
    (k + 5) * |Stack(s)| + CallsLeft(s.callers, k) + Retries(s.callers, s.next, s.head) + TurnLeft(Current(s), s.head)
  }

  lemma {:induction false} CallsUpdate(cs: seq<Caller>, i: nat, c: Caller, k: nat)
    requires i < |cs|
    ensures CallsLeft(cs[i := c], k) == CallsLeft(cs, k) - CallLeft(cs[i], k) + CallLeft(c, k)
    ensures CallsLeft(cs, k) >= CallLeft(cs[i], k)
  {
    if i == 0 {
      assert cs[i := c][1..] == cs[1..];
    } else {
      assert cs[i := c][1..] == cs[1..][i - 1 := c];
      CallsUpdate(cs[1..], i - 1, c, k);
    }
  }

  lemma {:induction false} RetriesUpdate(cs: seq<Caller>, i: nat, c: Caller, next: map<nat, Option<nat>>, head: Option<nat>)
    requires i < |cs|
    ensures Retries(cs[i := c], next, head)
         == Retries(cs, next, head) - One(Outdated(cs[i], next, head)) + One(Outdated(c, next, head))
  {
    if i == 0 {
      assert cs[i := c][1..] == cs[1..];
    } else {
      assert cs[i := c][1..] == cs[1..][i - 1 := c];
      RetriesUpdate(cs[1..], i - 1, c, next, head);
    }
  }

  lemma {:induction false} RetriesBound(cs: seq<Caller>, next: map<nat, Option<nat>>, head: Option<nat>)
    ensures Retries(cs, next, head) <= |cs|
  {
    if cs != [] { RetriesBound(cs[1..], next, head); }
  }

  /** Writing the link of a task that no call is about to push does not concern the calls. */
  lemma {:induction false} RetriesLink(cs: seq<Caller>, next: map<nat, Option<nat>>, head: Option<nat>, x: nat, v: Option<nat>)
    requires forall j :: 0 <= j < |cs| && cs[j].Swapping? ==> cs[j].task != x
    ensures Retries(cs, next[x := v], head) == Retries(cs, next, head)
  {
    if cs != [] {
      assert forall j :: 0 <= j < |cs[1..]| ==> cs[1..][j] == cs[j + 1];
      assert cs[0].Swapping? ==> cs[0].task != x;
      RetriesLink(cs[1..], next, head, x, v);
    }
  }

  // ---------- every access leaves less ----------

  /** A call sets its node's link to the head it has seen. */
  lemma LinkRetries(s: State, i: nat)
    requires CallersOk(s) && i < |s.callers| && Pushing(s.callers[i])
    ensures var x := s.callers[i].task;
      Retries(s.callers[i := Swapping(x)], s.next[x := s.head], s.head)
      == Retries(s.callers, s.next, s.head) - One(Outdated(s.callers[i], s.next, s.head))
  {
    var x, others := s.callers[i].task, s.callers[i := Returned];
    RetriesUpdate(s.callers, i, Returned, s.next, s.head);
    RetriesLink(others, s.next, s.head, x, s.head);
    assert others[i := Swapping(x)] == s.callers[i := Swapping(x)];
    RetriesUpdate(others, i, Swapping(x), s.next[x := s.head], s.head);
  }

  lemma LinkFalls(s: State, i: nat)
    requires Inv(s) && i < |s.callers| && Pushing(s.callers[i])
    requires s.callers[i].Swapping? ==> s.next[s.callers[i].task] != s.head
    ensures Left(CallStep(s, i)) < Left(s)
  {
    var s', x := CallStep(s, i), s.callers[i].task;
    LinkList(s, s', x);
    LinkRetries(s, i);
    CallsUpdate(s.callers, i, Swapping(x), |s.callers|);
    assert s'.callers == s.callers[i := Swapping(x)];
  }

  lemma PushFalls(s: State, i: nat)
    requires Inv(s) && i < |s.callers| && s.callers[i].Swapping? && s.next[s.callers[i].task] == s.head
    ensures Left(CallStep(s, i)) < Left(s)
  {
    var s', k := CallStep(s, i), |s.callers|;
    PushListOk(s, s', s.callers[i].task);
    CallsUpdate(s.callers, i, Adding, k);
    RetriesBound(s'.callers, s'.next, s'.head);
    Times(k + 5, |Stack(s)|);
  }

  lemma Times(a: nat, n: nat)
    ensures a * (n + 1) == a * n + a
  {
  }

  lemma CountFalls(s: State, i: nat)
    requires Inv(s) && i < |s.callers| && (s.callers[i].Adding? || s.callers[i].Starting?)
    ensures Left(CallStep(s, i)) < Left(s)
  {
    var s', k := CallStep(s, i), |s.callers|;
    CountBounds(s.callers);
    CallsUpdate(s.callers, i, s'.callers[i], k);
    RetriesUpdate(s.callers, i, s'.callers[i], s.next, s.head);
    assert Stack(s') == Stack(s);
  }

  lemma CallFalls(s: State, i: nat)
    requires Inv(s) && i < |s.callers| && !s.callers[i].Returned?
    ensures Left(CallStep(s, i)) < Left(s)
  {
    match s.callers[i]
    case Loading(_) => LinkFalls(s, i);
    case Swapping(x) => if s.next[x] == s.head { PushFalls(s, i); } else { LinkFalls(s, i); }
    case Adding => CountFalls(s, i);
    case Starting => CountFalls(s, i);
  }

  /** Taking the whole stack pays for running it, and for the retries that it causes. */
  lemma ExtractFalls(s: State)
    requires Turning(s) && Current(s).Loaded? && s.head == Current(s).h
    ensures Left(TurnStepOf(s, |s.turns| - 1)) < Left(s)
  {
    var s', k := TurnStepOf(s, |s.turns| - 1), |s.callers|;
    ExtractList(s, s');
    RetriesBound(s.callers, s'.next, s'.head);
    assert Stack(s) != [];
    Product(k + 5, |Stack(s)|);
  }

  lemma {:induction false} Product(a: nat, n: nat)
    requires n > 0 && a > 0
    ensures a * n >= a + n - 1
  {
    if n > 1 {
      Product(a, n - 1);
      assert a * n == a * (n - 1) + a;
    }
  }

  lemma TurnFalls(s: State)
    requires Turning(s)
    ensures Left(TurnStepOf(s, |s.turns| - 1)) < Left(s)
  {
    var s' := TurnStepOf(s, |s.turns| - 1);
    if Current(s).Loaded? && s.head == Current(s).h {
      ExtractFalls(s);
    } else {
      assert Stack(s') == Stack(s) && s'.callers == s.callers && s'.next == s.next && s'.head == s.head;
    }
  }

  /** Every access other than a new call leaves less to do. */
  lemma StepFalls(s: State, m: Move)
    requires Inv(s) && Enabled(s, m) && !m.Schedule?
    ensures Left(Step(s, m)) < Left(s)
  {
    match m
    case CallerStep(i) => CallFalls(s, i);
    case TurnStep(r) =>
      assert r == |s.turns| - 1;
      TurnFalls(s);
  }

  // ---------- runs ----------

  /** From state i on nobody calls schedule any more. */
  ghost predicate NoMoreCalls(moves: seq<Move>, i: nat, j: nat) {
    forall l :: i <= l < j && l < |moves| ==> !moves[l].Schedule?
  }

  lemma RunFalls(states: seq<State>, moves: seq<Move>, i: nat, n: nat)
    requires Run(states, moves) && Within(states, n) && n < WORD && i < |moves| && !moves[i].Schedule?
    ensures Left(states[i + 1]) < Left(states[i])
  {
    RunInv(states, moves, i, n);
    StepFalls(states[i], moves[i]);
  }

  /** Then no more than Left accesses follow. */
  lemma {:induction false} ComesToRest(states: seq<State>, moves: seq<Move>, i: nat, d: nat, n: nat)
    requires Run(states, moves) && Within(states, n) && n < WORD && i + d < |states| && NoMoreCalls(moves, i, i + d)
    ensures d + Left(states[i + d]) <= Left(states[i])
  {
    if d > 0 {
      ComesToRest(states, moves, i, d - 1, n);
      RunFalls(states, moves, i + d - 1, n);
    }
  }

  /** And when no access is left but new calls, everything that schedule was called with has run. */
  lemma AllHasRun(states: seq<State>, moves: seq<Move>, i: nat, n: nat)
    requires Run(states, moves) && Within(states, n) && n < WORD && i < |states|
    requires forall m :: Enabled(states[i], m) ==> m.Schedule?
    ensures multiset(states[i].executed) == Asked(moves[..i])
  {
    var s := states[i];
    RunInv(states, moves, i, n);
    forall c | 0 <= c < |s.callers| ensures s.callers[c].Returned? { assert !Enabled(s, CallerStep(c)); }
    forall r | 0 <= r < |s.turns| ensures s.turns[r].Finished? { assert !Enabled(s, TurnStep(r)); }
    NoTaskLost(states, moves, i, n);
  }
}
