/** How far the promises of serial_executor go: its work counter has 32 bits, and fewer than 2^32
    tasks under way is exactly what it takes. */
module SerialLimits {
  import opened Options
  import opened Counting
  import opened IntrusiveList
  import opened Serial

  /** Some run with at most n tasks under way leads to s. */
  ghost predicate Reaches(n: nat, s: State) {
    exists states, moves :: Run(states, moves) && Within(states, n) && s == states[|moves|]
  }

  lemma Nothing(n: nat)
    ensures Reaches(n, INIT) && Tasks(INIT) == 0 && Stack(INIT) == [] && ListOk(INIT)
  {
    InitInv();
    assert Run([INIT], []) && Within([INIT], n);
  }

  /** One more move. */
  lemma Go(n: nat, s: State, m: Move) returns (s': State)
    requires Reaches(n, s) && Enabled(s, m) && Tasks(Step(s, m)) <= n
    ensures s' == Step(s, m) && Reaches(n, s')
  {
    s' := Step(s, m);
    var states, moves :| Run(states, moves) && Within(states, n) && s == states[|moves|];
    var states', moves' := states + [s'], moves + [m];
    forall i | 0 <= i < |moves'| ensures Enabled(states'[i], moves'[i]) && states'[i + 1] == Step(states'[i], moves'[i]) {
      if i < |moves| { assert states[i + 1] == Step(states[i], moves[i]); }
    }
    assert Run(states', moves') && Within(states', n) && s' == states'[|moves'|];
  }

  lemma ReachesMore(n: nat, n': nat, s: State)
    requires Reaches(n, s) && n <= n'
    ensures Reaches(n', s)
  {
    var states, moves :| Run(states, moves) && Within(states, n) && s == states[|moves|];
    assert Within(states, n');
  }

  lemma ReachesWithin(n: nat, s: State)
    requires Reaches(n, s)
    ensures Tasks(s) <= n
  {
    var states, moves :| Run(states, moves) && Within(states, n) && s == states[|moves|];
  }

  // ---------- schedule, one call at a time ----------

  /** A call arrives and sets its node's link to the head. */
  lemma Link(n: nat, s: State, x: nat) returns (b: State)
    requires Reaches(n, s) && ListOk(s) && x !in s.busy && Tasks(s) < n
    ensures Reaches(n, b) && ListOk(b) && Stack(b) == Stack(s) && Tasks(b) == Tasks(s) + 1
    ensures b == s.(next := s.next[x := s.head], callers := s.callers + [Swapping(x)], busy := s.busy + {x})
  {
    var i := |s.callers|;
    CountAppend(s.callers, Loading(x));
    ListKept(s, Step(s, Schedule(x)));
    var a := Go(n, s, Schedule(x));
    CountUpdate(a.callers, i, Swapping(x));
    LinkList(a, CallStep(a, i), x);
    b := Go(n, a, CallerStep(i));
    assert b.callers == s.callers + [Swapping(x)];
  }

  /** A new task is scheduled, up to its push; the call is about to count it. */
  lemma Push(n: nat, s: State, x: nat) returns (c: State)
    requires Reaches(n, s) && ListOk(s) && x !in s.busy && Tasks(s) < n
    ensures Reaches(n, c) && ListOk(c) && Stack(c) == [x] + Stack(s) && Tasks(c) == Tasks(s) + 1
    ensures c == s.(head := Some(x), next := s.next[x := s.head], callers := s.callers + [Adding],
                    pushed := s.pushed + [x], busy := s.busy + {x})
  {
    var b := Link(n, s, x);
    Swaps(b, s.callers, x);
    ReachesWithin(n, b);
    c := Go(n, b, CallerStep(|s.callers|));
  }

  lemma Swaps(b: State, before: seq<Caller>, x: nat)
    requires ListOk(b) && b.callers == before + [Swapping(x)] && x in b.next && b.next[x] == b.head
    requires x in b.busy && x !in Stack(b) && x !in Rest(b)
    ensures var c := CallStep(b, |before|);
      && ListOk(c) && Stack(c) == [x] + Stack(b) && Tasks(c) == Tasks(b)
      && c == b.(head := Some(x), callers := before + [Adding], pushed := b.pushed + [x])
  {
    CountUpdate(b.callers, |before|, Adding);
    PushListOk(b, CallStep(b, |before|), x);
    assert CallStep(b, |before|).callers == before + [Adding];
  }

  /** The last call counts its task, and starts nothing because the counter is not zero. */
  lemma Count(n: nat, s: State, before: seq<Caller>) returns (c: State)
    requires Reaches(n, s) && s.callers == before + [Adding] && s.work != 0
    ensures Reaches(n, c)
    ensures c == s.(work := (s.work + 1) % WORD, balance := s.balance + 1, callers := before + [Returned])
  {
    var i := |before|;
    CountUpdate(s.callers, i, Returned);
    ListKept(s, CallStep(s, i));
    ReachesWithin(n, s);
    c := Go(n, s, CallerStep(i));
    assert c.callers == before + [Returned];
  }

  /** The last call counts its task when the counter reads zero, and hands out the inner task. */
  lemma Start(n: nat, s: State, before: seq<Caller>) returns (c: State)
    requires Reaches(n, s) && s.callers == before + [Adding] && s.work == 0
    requires s.turns == [] || (Current(s).Running? && Current(s).rest == [])
    ensures Reaches(n, c)
    ensures c == s.(work := 1, balance := s.balance + 1, callers := before + [Returned], turns := s.turns + [Queued])
  {
    var i := |before|;
    CountUpdate(s.callers, i, Starting);
    ListKept(s, CallStep(s, i));
    ReachesWithin(n, s);
    var b := Go(n, s, CallerStep(i));
    assert b.callers == before + [Starting];
    CountUpdate(b.callers, i, Returned);
    assert Stack(CallStep(b, i)) == Stack(b);
    c := Go(n, b, CallerStep(i));
    assert c.callers == before + [Returned];
  }

  /** The first task is scheduled: the inner task is due and nobody else is there. */
  lemma First(n: nat) returns (s: State)
    requires n > 0
    ensures Reaches(n, s) && ListOk(s) && Stack(s) == [0]
    ensures s == INIT.(head := Some(0), next := map[0 := None], work := 1, callers := [Returned], turns := [Queued],
                       pushed := [0], balance := 1, busy := {0})
  {
    Nothing(n);
    var a := Push(n, INIT, 0);
    s := Start(n, a, []);
    Opening(a, s);
  }

  lemma Opening(a: State, s: State)
    requires ListOk(a) && a.turns == []
    requires s == a.(work := s.work, balance := s.balance, callers := s.callers, turns := [Queued])
    ensures ListOk(s) && Stack(s) == Stack(a)
  {
    assert Stack(s) == Stack(a) && Rest(s) == Rest(a);
  }

  // ---------- the inner task ----------

  /** The inner task takes the whole stack. */
  lemma Take(n: nat, s: State) returns (c: State)
    requires Reaches(n, s) && ListOk(s) && s.turns == [Queued] && Stack(s) != []
    ensures Reaches(n, c) && ListOk(c) && Stack(c) == []
    ensures c == s.(head := None, turns := [Running(Reverse(Stack(s)), 0)])
  {
    ReachesWithin(n, s);
    var b := Go(n, s, TurnStep(0));
    assert b.turns == [Loaded(s.head)] && Stack(b) == Stack(s) && Rest(b) == [];
    ExtractList(b, TurnStepOf(b, 0));
    c := Go(n, b, TurnStep(0));
    assert c.turns == [Running(Reverse(Stack(s)), 0)];
  }

  lemma RunOneStep(s: State, rest: seq<nat>, size: nat)
    requires s.turns == [Running(rest, size)] && rest != [] && size + 1 < WORD
    ensures Step(s, TurnStep(0)) ==
      s.(turns := [Running(rest[1..], size + 1)], executed := s.executed + [rest[0]], busy := s.busy - {rest[0]})
    ensures Tasks(Step(s, TurnStep(0))) == Tasks(s)
  {
    assert Step(s, TurnStep(0)).turns == [Running(rest[1..], size + 1)];
    assert Stack(Step(s, TurnStep(0))) == Stack(s);
  }

  lemma RunOne(n: nat, s: State, rest: seq<nat>, size: nat) returns (b: State)
    requires Reaches(n, s) && s.turns == [Running(rest, size)] && rest != [] && size + 1 < WORD
    ensures Reaches(n, b)
    ensures b == s.(turns := [Running(rest[1..], size + 1)], executed := s.executed + [rest[0]], busy := s.busy - {rest[0]})
  {
    ReachesWithin(n, s);
    RunOneStep(s, rest, size);
    b := Go(n, s, TurnStep(0));
  }

  /** And runs all of it. */
  lemma {:induction false} RunAll(n: nat, s: State, rest: seq<nat>, size: nat) returns (c: State)
    requires Reaches(n, s) && s.turns == [Running(rest, size)] && size + |rest| < WORD
    ensures Reaches(n, c) && c.turns == [Running([], size + |rest|)] && c.work == s.work && c.balance == s.balance
    decreases |rest|
  {
    if rest == [] { return s; }
    var b := RunOne(n, s, rest, size);
    c := RunAll(n, b, rest[1..], size + 1);
  }

  /** The batch leaves the counter. As its uint32 comparison sees nothing left, the turn is over. */
  lemma EndBatch(n: nat, s: State, size: nat) returns (c: State)
    requires Reaches(n, s) && s.turns == [Running([], size)] && s.work <= size
    ensures Reaches(n, c)
    ensures c == s.(turns := [Finished], work := (s.work - size) % WORD, balance := s.balance - size)
  {
    ReachesWithin(n, s);
    EndBatchStep(s, size);
    c := Go(n, s, TurnStep(0));
  }

  lemma EndBatchStep(s: State, size: nat)
    requires s.turns == [Running([], size)] && s.work <= size
    ensures Step(s, TurnStep(0)) == s.(turns := [Finished], work := (s.work - size) % WORD, balance := s.balance - size)
    ensures Tasks(Step(s, TurnStep(0))) <= Tasks(s)
  {
    assert Step(s, TurnStep(0)).turns == [Finished];
    assert Stack(Step(s, TurnStep(0))) == Stack(s);
  }

  // ---------- as many tasks as one likes ----------

  /** One task was run by a turn that is still going on, and k more are pushed and counted. */
  ghost predicate Filled(s: State, k: nat) {
    && ListOk(s) && |Stack(s)| == k && s.turns == [Running([], 1)] && s.executed == [0]
    && s.balance == k + 1 && s.work == (k + 1) % WORD
    && (forall i :: 0 <= i < |s.callers| ==> s.callers[i].Returned?)
    && (forall x :: x in s.busy ==> x <= k)
  }

  lemma FillFirst(n: nat) returns (s: State)
    requires n > 0
    ensures Reaches(n, s) && Filled(s, 0)
  {
    var a := First(n);
    var b := Take(n, a);
    assert Reverse([0]) == [0];
    s := RunOne(n, b, [0], 0);
    FollowNone(s.next);
    assert Stack(s) == [] && s.executed == [0];
  }

  lemma FilledTasks(s: State, k: nat)
    requires Filled(s, k)
    ensures Tasks(s) == k + 1 && Early(s.callers) == 0
  {
    CountBounds(s.callers);
  }

  lemma FilledMore(s: State, b: State, c: State, k: nat)
    requires Filled(s, k) && k + 1 < WORD && ListOk(b) && Stack(b) == [k + 1] + Stack(s)
    requires b == s.(head := b.head, next := b.next, callers := b.callers, pushed := b.pushed, busy := s.busy + {k + 1})
    requires c == b.(work := (b.work + 1) % WORD, balance := b.balance + 1, callers := s.callers + [Returned])
    ensures Filled(c, k + 1)
  {
    ListKept(b, c);
  }

  lemma FillOne(n: nat, s: State, k: nat) returns (c: State)
    requires Reaches(n, s) && Filled(s, k) && k + 1 < WORD && k + 1 < n
    ensures Reaches(n, c) && Filled(c, k + 1)
  {
    FilledTasks(s, k);
    var b := Push(n, s, k + 1);
    c := Count(n, b, s.callers);
    FilledMore(s, b, c, k);
  }

  /** For every k below 2^32 the machine can have k + 1 tasks counted and a turn in progress. */
  lemma {:induction false} Fill(n: nat, k: nat) returns (s: State)
    requires k < WORD && k < n
    ensures Reaches(n, s) && Filled(s, k)
  {
    if k == 0 {
      s := FillFirst(n);
    } else {
      var a := Fill(n, k - 1);
      s := FillOne(n, a, k - 1);
    }
  }

  // ---------- 2^32 tasks are too many ----------

  /** With 2^32 tasks counted the counter reads zero: at the end of its batch the inner task finds
      nothing left and is over, and 2^32 - 1 pushed tasks are never run. */
  lemma TasksLost() returns (s: State)
    ensures Reaches(WORD, s) && Settled(s) && s.balance == WORD - 1 && |s.executed| == 1 && |s.pushed| == WORD
  {
    var a := Fill(WORD, WORD - 1);
    assert |a.pushed| == WORD;
    s := EndBatch(WORD, a, 1);
  }

  lemma Twice(s: State)
    requires s.turns == [Running([], 1), Queued] && forall i :: 0 <= i < |s.callers| ==> s.callers[i].Returned?
    ensures Due(s) == 2
  {
    CountBounds(s.callers);
    assert s.turns[1..] == [Queued] && Unfinished([Queued]) == 1 by { assert [Queued][1..] == []; }
  }

  /** One call more, and the inner task is handed out while it is running. */
  lemma TwoTurns() returns (s: State)
    ensures Reaches(WORD + 1, s) && Due(s) == 2 && s.turns == [Running([], 1), Queued]
  {
    var a := Fill(WORD + 1, WORD - 1);
    FilledTasks(a, WORD - 1);
    var b := Push(WORD + 1, a, WORD);
    s := Start(WORD + 1, b, a.callers);
    assert s.turns == [Running([], 1)] + [Queued];
    Twice(s);
  }

  ghost predicate PromiseKept(n: nat) {
    forall states, moves :: Run(states, moves) && Within(states, n) ==> Promise(states[|moves|], Asked(moves))
  }

  lemma PromiseBelow(states: seq<State>, moves: seq<Move>, n: nat)
    requires Run(states, moves) && Within(states, n) && n < WORD
    ensures Promise(states[|moves|], Asked(moves))
  {
    FirstInFirstOut(states, moves, |moves|, n);
    OneTurnAtATime(states, moves, |moves|, n);
    NoTaskLost(states, moves, |moves|, n);
    assert moves[..|moves|] == moves;
  }

  /** The promise is kept in every run with at most n tasks under way exactly when n is below 2^32. */
  lemma PromiseExactlyBelow(n: nat)
    ensures PromiseKept(n) <==> n < WORD
  {
    if n < WORD {
      forall states, moves | Run(states, moves) && Within(states, n) ensures Promise(states[|moves|], Asked(moves)) {
        PromiseBelow(states, moves, n);
      }
    } else {
      PromiseBroken(n);
    }
  }

  lemma PromiseBroken(n: nat)
    requires n >= WORD
    ensures !PromiseKept(n)
  {
    var s := TasksLost();
    ReachesMore(WORD, n, s);
    var states, moves :| Run(states, moves) && Within(states, n) && s == states[|moves|];
    LostWakeup(s, Asked(moves));
  }

  /** Counted work is left, and the inner task is not due. */
  lemma LostWakeup(s: State, asked: multiset<nat>)
    requires Settled(s) && s.balance > 0
    ensures !Promise(s, asked)
  {
    CountBounds(s.callers);
    OnlyLast(s.turns);
  }

  // ---------- how far below zero ----------

  /** The inner task is due for one counted task, and k more tasks are pushed but not counted. */
  ghost predicate Ahead(s: State, k: nat) {
    && ListOk(s) && |Stack(s)| == k + 1 && s.turns == [Queued] && s.balance == 1 && s.work == 1
    && Tasks(s) == k + 1 && forall x :: x in s.busy ==> x <= k
  }

  lemma {:induction false} RunAhead(n: nat, k: nat) returns (s: State)
    requires k < n
    ensures Reaches(n, s) && Ahead(s, k)
  {
    if k == 0 {
      s := First(n);
    } else {
      var a := RunAhead(n, k - 1);
      s := Push(n, a, k);
    }
  }

  /** Both ends of the counter's range are reached: n counted tasks, and n - 1 tasks that ran
      before their own calls counted them. */
  lemma BalanceReached(n: nat) returns (high: State, low: State)
    requires 0 < n < WORD
    ensures Reaches(n, high) && high.balance == n
    ensures Reaches(n, low) && low.balance == 1 - n && (n > 1 ==> low.work == WORD + 1 - n)
  {
    high := Fill(n, n - 1);
    var a := RunAhead(n, n - 1);
    var b := Take(n, a);
    var c := RunAll(n, b, Reverse(Stack(a)), 0);
    low := EndBatch(n, c, n);
  }
}
