/** What the signals and the owner of a connection have done, that this is what it works with, and
    that it comes to an end. */
module JoinRuns {
  import opened Options
  import opened Counting
  import opened Join

  // ---------- what was told ----------

  /** What case i was told: by its signal, or by the channel that claimed it. */
  function Told(moves: seq<Move>, i: nat): Option<Outcome> {
    if moves == [] then None
    else match moves[|moves| - 1]
      case Arrive(j, o) => if j == i then Some(o) else Told(moves[..|moves| - 1], i)
      case Claim(j) => if j == i then Some(Value) else Told(moves[..|moves| - 1], i)
      case _ => Told(moves[..|moves| - 1], i)
  }

  ghost predicate Begun(moves: seq<Move>, i: nat, k: nat) {
    exists l :: 0 <= l < k && l < |moves| && moves[l] == Begin(i)
  }

  ghost predicate EmissionOver(moves: seq<Move>, k: nat) {
    exists l :: 0 <= l < k && l < |moves| && moves[l] == EndEmit
  }

  /** What a step does to the outcome, the start and the emission. */
  ghost predicate Records(s: State, m: Move, s': State, i: nat)
    requires i < |s.cases|
  {
    && i < |s'.cases|
    && Out(s'.cases[i]) == (if m == Claim(i) then Some(Value) else if m.Arrive? && m.i == i then Some(m.o) else Out(s.cases[i]))
    && (i in s'.started <==> i in s.started || m == Begin(i))
    && (s'.emitted <==> s.emitted || m == EndEmit)
  }

  lemma CaseStepRecords(s: State, j: nat, i: nat)
    requires Enabled(s, CaseStep(j)) && i < |s.cases|
    ensures Records(s, CaseStep(j), CaseStepOf(s, j), i)
  {
    CaseOutsKept(s, j);
    CaseStepAside(s, j);
  }

  lemma CaseStepAside(s: State, j: nat)
    requires j < |s.cases|
    ensures CaseStepOf(s, j).started == s.started && CaseStepOf(s, j).emitted == s.emitted
  {
  }

  lemma StepRecords(s: State, m: Move, i: nat)
    requires Enabled(s, m) && i < |s.cases|
    ensures Records(s, m, Step(s, m), i)
  {
    match m
    case Begin(_) =>
    case EndEmit =>
    case Arrive(_, _) =>
    case Claim(_) =>
    case ArriveClaimed(_) =>
    case CaseStep(j) => CaseStepRecords(s, j, i);
    case RunTask =>
  }

  lemma OneMore(moves: seq<Move>, i: nat, k: nat)
    requires 0 < k <= |moves|
    ensures Begun(moves, i, k) <==> Begun(moves, i, k - 1) || moves[k - 1] == Begin(i)
    ensures EmissionOver(moves, k) <==> EmissionOver(moves, k - 1) || moves[k - 1] == EndEmit
    ensures Told(moves[..k], i) ==
      if moves[k - 1] == Claim(i) then Some(Value)
      else if moves[k - 1].Arrive? && moves[k - 1].i == i then Some(moves[k - 1].o)
      else Told(moves[..k - 1], i)
  {
    assert moves[..k][..k - 1] == moves[..k - 1];
  }

  ghost predicate CaseAsTold(s: State, moves: seq<Move>, i: nat, k: nat) {
    && i < |s.cases| && k <= |moves| && Out(s.cases[i]) == Told(moves[..k], i)
    && (i in s.started <==> Begun(moves, i, k)) && (s.emitted <==> EmissionOver(moves, k))
  }

  lemma RunStep(kind: Kind, n: nat, states: seq<State>, moves: seq<Move>, k: nat)
    requires Run(kind, n, states, moves) && k < |moves|
    ensures Enabled(states[k], moves[k]) && states[k + 1] == Step(states[k], moves[k])
  {
  }

  /** In every run the connection works with the outcomes that its signals were completed with. */
  lemma {:induction false} AsTold(kind: Kind, n: nat, states: seq<State>, moves: seq<Move>, k: nat, i: nat)
    requires Run(kind, n, states, moves) && k < |states| && i < n
    ensures CaseAsTold(states[k], moves, i, k)
  {
    if k > 0 {
      AsTold(kind, n, states, moves, k - 1, i);
      RunStep(kind, n, states, moves, k - 1);
      StepRecords(states[k - 1], moves[k - 1], i);
      OneMore(moves, i, k);
    }
  }

  // ---------- how much is left ----------

  function CaseLeft(c: Case): nat {
    match c
    case Waiting => 10
    case Claimed => 9
    case Deciding(_) => 9
    case Winner(_) => 8
    case Cancelling(_) => 7
    case Counting(_) => 5
    case LastDeciding(_) => 4
    case LastWinner(_) => 3
    case Deleting(_) => 2
    case Finished(_) => 0
  }

  function CasesLeft(cs: seq<Case>): nat {
    if cs == [] then 0 else CaseLeft(cs[0]) + CasesLeft(cs[1..])
  }

  /** Connections that emit has not come to yet. */
  function Unstarted(n: nat, started: set<nat>): nat {
    if n == 0 then 0 else One(n - 1 !in started) + Unstarted(n - 1, started)
  }

  /** An upper bound for everything that can still happen. */
  function Left(s: State): nat {
    CasesLeft(s.cases) + Unstarted(|s.cases|, s.started) + 2 * One(!s.emitted) + |s.queue|
  }

  lemma {:induction false} CasesUpdate(cs: seq<Case>, i: nat, c: Case)
    requires i < |cs|
    ensures CasesLeft(cs[i := c]) == CasesLeft(cs) - CaseLeft(cs[i]) + CaseLeft(c)
  {
    if i == 0 {
      assert cs[i := c][1..] == cs[1..];
    } else {
      assert cs[i := c][1..] == cs[1..][i - 1 := c];
      CasesUpdate(cs[1..], i - 1, c);
    }
  }

  lemma {:induction false} UnstartedUpdate(n: nat, started: set<nat>, i: nat)
    requires i !in started
    ensures Unstarted(n, started + {i}) == Unstarted(n, started) - One(i < n)
    ensures i < n ==> Unstarted(n, started) > 0
  {
    if n > 0 { UnstartedUpdate(n - 1, started, i); }
  }

  lemma CaseStepFalls(s: State, i: nat)
    requires Enabled(s, CaseStep(i))
    ensures Left(CaseStepOf(s, i)) < Left(s)
  {
    var s' := CaseStepOf(s, i);
    CaseOutsKept(s, i);
    CaseStepAside(s, i);
    assert s'.cases == s.cases[i := s'.cases[i]];
    CasesUpdate(s.cases, i, s'.cases[i]);
    CaseStepCost(s, i);
  }

  lemma CaseStepCost(s: State, i: nat)
    requires Enabled(s, CaseStep(i))
    ensures CaseLeft(CaseStepOf(s, i).cases[i]) + |CaseStepOf(s, i).queue| < CaseLeft(s.cases[i]) + |s.queue|
  {
    match s.cases[i]
    case Deciding(_) =>
    case Winner(_) =>
    case Cancelling(_) =>
    case Counting(_) =>
    case LastDeciding(_) =>
    case LastWinner(_) =>
    case Deleting(_) =>
  }

  lemma ArriveFalls(s: State, i: nat, o: Outcome)
    requires i < |s.cases| && s.cases[i].Waiting?
    ensures Left(ArriveOf(s, i, o)) < Left(s)
  {
    CasesUpdate(s.cases, i, if Early(s.kind, o) then Deciding(o) else Counting(o));
  }

  lemma ClaimFalls(s: State, i: nat)
    requires i < |s.cases|
    ensures Enabled(s, Claim(i)) ==> Left(Step(s, Claim(i))) < Left(s)
    ensures Enabled(s, ArriveClaimed(i)) ==> Left(Step(s, ArriveClaimed(i))) < Left(s)
  {
    CasesUpdate(s.cases, i, Claimed);
    CasesUpdate(s.cases, i, Winner(Value));
  }

  /** Every move, of whomever, leaves less to happen. */
  lemma StepFalls(s: State, m: Move)
    requires Enabled(s, m)
    ensures Left(Step(s, m)) < Left(s)
  {
    match m
    case Begin(i) => UnstartedUpdate(|s.cases|, s.started, i);
    case EndEmit =>
    case Arrive(i, o) => ArriveFalls(s, i, o);
    case Claim(i) => ClaimFalls(s, i);
    case ArriveClaimed(i) => ClaimFalls(s, i);
    case CaseStep(i) => CaseStepFalls(s, i);
    case RunTask =>
  }

  /** So every run is finite, and short: there is no way to keep a connection busy. */
  lemma {:induction false} RunEnds(kind: Kind, n: nat, states: seq<State>, moves: seq<Move>, k: nat)
    requires Run(kind, n, states, moves) && k < |states|
    ensures k + Left(states[k]) <= Left(states[0])
  {
    if k > 0 {
      RunEnds(kind, n, states, moves, k - 1);
      RunStep(kind, n, states, moves, k - 1);
      StepFalls(states[k - 1], moves[k - 1]);
    }
  }

  lemma {:induction false} InitLeft(kind: Kind, n: nat)
    ensures Left(Init(kind, n)) == 11 * n + 2
  {
    AllWaiting(Init(kind, n).cases);
    NoneStarted(n);
  }

  lemma {:induction false} AllWaiting(cs: seq<Case>)
    requires forall i :: 0 <= i < |cs| ==> cs[i].Waiting?
    ensures CasesLeft(cs) == 10 * |cs|
  {
    if cs != [] {
      assert forall i :: 0 <= i < |cs[1..]| ==> cs[1..][i] == cs[i + 1];
      AllWaiting(cs[1..]);
    }
  }

  lemma {:induction false} NoneStarted(n: nat)
    ensures Unstarted(n, {}) == n
  {
    if n > 0 { NoneStarted(n - 1); }
  }

  // ---------- where it ends ----------

  /** Every signal has been completed, and nothing is left to happen. */
  ghost predicate AtEnd(s: State, moves: seq<Move>) {
    && (forall i :: 0 <= i < |s.cases| ==> Told(moves, i).Some?)
    && forall m :: !Enabled(s, m)
  }

  function ToldAll(moves: seq<Move>, n: nat): seq<Outcome>
    requires forall i :: 0 <= i < n ==> Told(moves, i).Some?
  {
    seq(n, i requires 0 <= i < n => Told(moves, i).value)
  }

  lemma EndFinished(s: State, i: nat)
    requires Inv(s) && (forall m :: !Enabled(s, m)) && i < |s.cases| && Out(s.cases[i]).Some?
    ensures s.cases[i].Finished?
  {
    assert !Enabled(s, CaseStep(i)) && !Enabled(s, ArriveClaimed(i));
  }

  lemma EndEmitted(s: State)
    requires Inv(s) && (forall m :: !Enabled(s, m)) && AllFinished(s)
    ensures s.emitted && s.queue == []
  {
    assert !Enabled(s, EndEmit) && !Enabled(s, RunTask);
    forall i | 0 <= i < |s.cases| ensures i in s.started { assert CaseOk(s, i); }
  }

  /** Every run that cannot go on, with all signals completed, has completed the slot exactly once,
      with a value exactly when the formula over what the signals were completed with is true, has
      used all other cancel handles if it was decided early, and has deleted the connection once. */
  lemma EndPromise(kind: Kind, n: nat, states: seq<State>, moves: seq<Move>)
    requires Run(kind, n, states, moves) && AtEnd(states[|moves|], moves)
    ensures var s := states[|moves|];
      && |s.cases| == n && |s.slot| == 1 && (s.slot[0] == Value <==> Formula(kind, ToldAll(moves, n)))
      && s.deleted == 1 && s.winner.Some? && Told(moves, s.winner.value) == Some(s.slot[0])
      && s.cancelled == if Early(kind, s.slot[0]) then Beside(n, s.winner.value) else []
  {
    var s := states[|moves|];
    RunInv(kind, n, states, moves, |moves|);
    assert moves[..|moves|] == moves;
    forall i | 0 <= i < n ensures s.cases[i].Finished? && Out(s.cases[i]) == Told(moves, i) {
      AsTold(kind, n, states, moves, |moves|, i);
      EndFinished(s, i);
    }
    EndEmitted(s);
    SlotCompletedOnce(s, ToldAll(moves, n));
    SlotTellsFormula(s, ToldAll(moves, n));
    DeletedInTheEnd(s);
    CancelledBesideWinner(s);
  }
}
