/** parallel_connection together with its three users, all, any and select, as one machine.

  N cases complete concurrently, possibly while the connections are still being emitted. Each
  completion races for done_, counts itself, and the last one asks for the deletion; emit,
  cancel and delete tasks run one at a time, in order, on a serial_executor (module Serial).
  "winner" records which case set done_; the code passes that index along instead. */
module Join {
  import opened Options

  datatype Kind = All | Any | Select
  datatype Outcome = Value | Error | Null

  /** Where case i is inside set_value, set_error or set_null. */
  datatype Case =
    | Waiting
    | Claimed                 // select only: a channel's kcas set done_ for this case
    | Deciding(o: Outcome)    // about to exchange done_, before counting
    | Winner(o: Outcome)      // got done_: about to complete the slot
    | Cancelling(o: Outcome)  // about to schedule try_cancel_beside
    | Counting(o: Outcome)    // about to increment the counter
    | LastDeciding(o: Outcome) // counted last: about to exchange done_
    | LastWinner(o: Outcome)  // got done_ as the last: about to complete the slot
    | Deleting(o: Outcome)    // about to schedule delete_this
    | Finished(o: Outcome)

  datatype Task = EmitTask | CancelBeside(i: nat) | DeleteThis

  datatype State = State(
    kind: Kind, cases: seq<Case>, done: bool, winner: Option<nat>, counter: nat,
    results: set<nat>, slot: seq<Outcome>,
    started: set<nat>, emitted: bool, queue: seq<Task>,
    handles: bool, cancelRequest: Option<nat>, deleteRequested: bool,
    cancelled: seq<nat>, deleted: nat)

  datatype Move =
    | Begin(i: nat)                // emit() of connection i begins
    | EndEmit                      // all emit() calls are back: schedule the emit task
    | Arrive(i: nat, o: Outcome)   // the signal of case i calls set_value, set_error or set_null
    | Claim(i: nat)                // a channel's kcas takes done_ for case i
    | ArriveClaimed(i: nat)        // set_value_skip_done
    | CaseStep(i: nat)
    | RunTask

  function Init(kind: Kind, n: nat): State {
    State(kind, seq(n, _ => Waiting), false, None, 0, {}, [], {}, false, [], false, None, false, [], 0)
  }

  /** Outcomes that decide on their own: a failure for all, a value for any and select. */
  predicate Early(kind: Kind, o: Outcome) {
    if kind == All then o != Value else o == Value
  }

  /** All handles but number x, in index order. */
  function Beside(n: nat, x: nat): (r: seq<nat>)
    ensures forall i: nat :: i in r <==> i < n && i != x
    ensures forall p, q :: 0 <= p < q < |r| ==> r[p] < r[q]
  {
    if n == 0 then []
    else
      var r := Beside(n - 1, x);
      assert forall p :: 0 <= p < |r| ==> r[p] in r;
      if n - 1 != x then r + [n - 1] else r
  }

  // ---------- steps ----------

  predicate Enabled(s: State, m: Move) {
    match m
    case Begin(i) => !s.emitted && i < |s.cases| && i !in s.started
    case EndEmit => !s.emitted && forall i :: 0 <= i < |s.cases| ==> i in s.started
    case Arrive(i, _) => i < |s.cases| && i in s.started && s.cases[i].Waiting?
    case Claim(i) => s.kind.Select? && i < |s.cases| && i in s.started && s.cases[i].Waiting? && !s.done
    case ArriveClaimed(i) => i < |s.cases| && s.cases[i].Claimed?
    case CaseStep(i) =>
      i < |s.cases| && !s.cases[i].Waiting? && !s.cases[i].Claimed? && !s.cases[i].Finished?
    case RunTask => s.queue != []
  }

  function To(s: State, i: nat, c: Case): State
    requires i < |s.cases|
  {
    s.(cases := s.cases[i := c])
  }

  /** The first lines of set_value_impl, set_error_impl and set_null_impl. */
  function ArriveOf(s: State, i: nat, o: Outcome): State
    requires i < |s.cases|
  {
    if Early(s.kind, o) then To(s, i, Deciding(o))
    else To(s, i, Counting(o)).(results := if s.kind == All then s.results + {i} else s.results)
  }

  function CaseStepOf(s: State, i: nat): (r: State)
    requires i < |s.cases|
    ensures r.kind == s.kind && |r.cases| == |s.cases| && s.slot <= r.slot
  {
    match s.cases[i]
    case Deciding(o) =>
      if s.done then To(s, i, Counting(o)) else To(s, i, Winner(o)).(done := true, winner := Some(i))
    case Winner(o) => To(s, i, Cancelling(o)).(slot := s.slot + [o])
    case Cancelling(o) => To(s, i, Counting(o)).(queue := s.queue + [CancelBeside(i)])
    case Counting(o) =>
      var count := s.counter + 1;
      To(s, i, if count != |s.cases| then Finished(o)
               else if Early(s.kind, o) then Deleting(o)
               else LastDeciding(o)).(counter := count)
    case LastDeciding(o) =>
      if s.done then To(s, i, Deleting(o)) else To(s, i, LastWinner(o)).(done := true, winner := Some(i))
    case LastWinner(o) => To(s, i, Deleting(o)).(slot := s.slot + [o])
    case Deleting(o) => To(s, i, Finished(o)).(queue := s.queue + [DeleteThis])
    case _ => s
  }

  /** serialized_emit, serialized_try_cancel_beside, serialized_delete_this. */
  function RunTaskOf(s: State): (r: State)
    requires s.queue != []
    ensures r.kind == s.kind && r.cases == s.cases && r.slot == s.slot
  {
    var q := s.(queue := s.queue[1..]);
    match s.queue[0]
    case EmitTask =>
      var e := q.(handles := true);
      var c := if e.cancelRequest.Some?
               then e.(cancelled := e.cancelled + Beside(|e.cases|, e.cancelRequest.value), cancelRequest := None)
               else e;
      if c.deleteRequested then c.(deleted := c.deleted + 1) else c
    case CancelBeside(x) =>
      if q.cancelRequest.Some? then q
      else if !q.handles then q.(cancelRequest := Some(x))
      else q.(cancelled := q.cancelled + Beside(|q.cases|, x))
    case DeleteThis =>
      if !q.handles then q.(deleteRequested := true) else q.(deleted := q.deleted + 1)
  }

  function Step(s: State, m: Move): (r: State)
    requires Enabled(s, m)
    ensures r.kind == s.kind && |r.cases| == |s.cases| && s.slot <= r.slot
  {
    match m
    case Begin(i) => s.(started := s.started + {i})
    case EndEmit => s.(emitted := true, queue := s.queue + [EmitTask])
    case Arrive(i, o) => ArriveOf(s, i, o)
    case Claim(i) => To(s, i, Claimed).(done := true, winner := Some(i))
    case ArriveClaimed(i) => To(s, i, Winner(Value))
    case CaseStep(i) => CaseStepOf(s, i)
    case RunTask => RunTaskOf(s)
  }

  // ---------- what a case has done so far ----------

  function Out(c: Case): Option<Outcome> {
    match c
    case Waiting => None
    case Claimed => Some(Value)
    case _ => Some(c.o)
  }

  predicate Counted(c: Case) {
    c.LastDeciding? || c.LastWinner? || c.Deleting? || c.Finished?
  }

  /** Between the increment that made this case the last and the scheduling of the deletion. */
  predicate Closing(c: Case) {
    c.LastDeciding? || c.LastWinner? || c.Deleting?
  }

  /** Got done_ and has not yet passed on everything that goes with it. */
  predicate Holding(c: Case) {
    c.Claimed? || c.Winner? || c.Cancelling? || c.LastWinner?
  }

  /** Got done_ and still owes the slot its completion. */
  predicate Owing(c: Case) {
    c.Claimed? || c.Winner? || c.LastWinner?
  }

  function Count(cs: seq<Case>): nat {
    if cs == [] then 0 else (if Counted(cs[0]) then 1 else 0) + Count(cs[1..])
  }

  lemma {:induction false} CountUpdate(cs: seq<Case>, i: nat, c: Case)
    requires i < |cs|
    ensures Count(cs[i := c]) == Count(cs) - (if Counted(cs[i]) then 1 else 0) + (if Counted(c) then 1 else 0)
  {
    if i == 0 {
      assert cs[i := c][1..] == cs[1..];
    } else {
      assert cs[i := c][1..] == cs[1..][i - 1 := c];
      CountUpdate(cs[1..], i - 1, c);
    }
  }

  lemma {:induction false} CountAll(cs: seq<Case>)
    ensures Count(cs) <= |cs|
    ensures Count(cs) == |cs| <==> forall i :: 0 <= i < |cs| ==> Counted(cs[i])
  {
    if cs != [] {
      CountAll(cs[1..]);
      assert forall i :: 0 < i < |cs| ==> cs[i] == cs[1..][i - 1];
      assert forall i :: 0 <= i < |cs[1..]| ==> cs[1..][i] == cs[i + 1];
    }
  }

  // ---------- invariant: who wins, and with what ----------

  /** The deletion has been asked for: it is queued, deferred to the emit task, or done. */
  predicate Closed(s: State) {
    DeleteThis in s.queue || s.deleteRequested || s.deleted > 0
  }

  ghost predicate CaseOk(s: State, i: nat)
    requires i < |s.cases|
  {
    var c := s.cases[i];
    && (!c.Waiting? ==> i in s.started)
    && (c.Claimed? ==> s.kind.Select?)
    && (c.Deciding? || c.Winner? || c.Cancelling? ==> Early(s.kind, c.o))
    && (c.LastDeciding? || c.LastWinner? ==> !Early(s.kind, c.o))
    && (Holding(c) ==> s.winner == Some(i))
    && (Closing(c) ==> s.counter == |s.cases| && !Closed(s))
    && (c.Deleting? ==> s.done)
    && (!c.Waiting? && !c.Deciding? && Early(s.kind, Out(c).value) ==> s.done)
    && (s.kind == All ==> (i in s.results <==> Out(c) == Some(Value)))
  }

  ghost predicate WinnerOk(s: State) {
    && (s.done <==> s.winner.Some?)
    && (s.winner.Some? ==>
          && s.winner.value < |s.cases|
          && var c := s.cases[s.winner.value];
          && Out(c).Some? && !c.Deciding? && !c.LastDeciding?
          && (Early(s.kind, Out(c).value) || (Counted(c) && NoneEarly(s)))
          && s.slot == (if Owing(c) then [] else [Out(c).value]))
    && (!s.done ==> s.slot == [])
  }

  /** Every case has counted itself, and none of them with a deciding outcome. */
  ghost predicate NoneEarly(s: State) {
    forall i :: 0 <= i < |s.cases| ==> Counted(s.cases[i]) && !Early(s.kind, s.cases[i].o)
  }

  ghost predicate CloseOk(s: State) {
    && s.counter == Count(s.cases)
    && (forall i, j :: 0 <= i < j < |s.cases| ==> !(Closing(s.cases[i]) && Closing(s.cases[j])))
    && (Closed(s) ==> s.done && s.counter == |s.cases|)
    && (s.counter == |s.cases| && !Closed(s) ==> exists i :: 0 <= i < |s.cases| && Closing(s.cases[i]))
  }

  // ---------- invariant: tasks ----------

  /** The winner has scheduled the cancellation of the others. */
  ghost predicate CancelAsked(s: State) {
    s.winner.Some? && s.winner.value < |s.cases| &&
    var c := s.cases[s.winner.value];
    (c.Counting? || Counted(c)) && Early(s.kind, c.o)
  }

  predicate CancelQueued(s: State) {
    exists p :: 0 <= p < |s.queue| && s.queue[p].CancelBeside?
  }

  ghost predicate QueueOk(s: State) {
    && (forall p, q :: 0 <= p < q < |s.queue| ==> s.queue[p] != s.queue[q])
    && (forall p, q :: 0 <= p < q < |s.queue| ==> !(s.queue[p].DeleteThis? && s.queue[q].CancelBeside?))
    && (EmitTask in s.queue <==> s.emitted && !s.handles)
    && (s.handles ==> s.emitted && s.cancelRequest == None)
    && (s.emitted ==> forall i :: 0 <= i < |s.cases| ==> i in s.started)
    && (s.deleteRequested ==> DeleteThis !in s.queue && !CancelQueued(s))
    && s.deleted <= 1
    && (s.deleted == 1 ==> s.handles && s.queue == [])
    && (s.deleteRequested ==> (s.handles <==> s.deleted == 1))
  }

  ghost predicate CancelOk(s: State) {
    && (forall p :: 0 <= p < |s.queue| && s.queue[p].CancelBeside? ==>
          CancelAsked(s) && s.winner == Some(s.queue[p].i) && s.cancelled == [] && s.cancelRequest == None)
    && (s.cancelRequest.Some? ==> CancelAsked(s) && s.winner == s.cancelRequest && s.cancelled == [])
    && (CancelAsked(s) && !CancelQueued(s) && s.cancelRequest == None ==>
          s.cancelled == Beside(|s.cases|, s.winner.value))
    && (!CancelAsked(s) ==> s.cancelled == [])
  }

  ghost predicate Inv(s: State) {
    && |s.cases| > 0
    && (forall i :: 0 <= i < |s.cases| ==> CaseOk(s, i))
    && WinnerOk(s) && CloseOk(s) && QueueOk(s) && CancelOk(s)
  }

  lemma {:induction false} InitInv(kind: Kind, n: nat)
    requires n > 0
    ensures Inv(Init(kind, n))
  {
    CountAll(Init(kind, n).cases);
    assert !Counted(Init(kind, n).cases[0]);
    NoCount(Init(kind, n).cases);
  }

  lemma {:induction false} NoCount(cs: seq<Case>)
    requires forall i :: 0 <= i < |cs| ==> cs[i].Waiting?
    ensures Count(cs) == 0
  {
    if cs != [] { NoCount(cs[1..]); }
  }

  // ---------- the invariant is kept ----------

  lemma Appended(s: State, s': State, task: Task)
    requires s'.queue == s.queue + [task]
    ensures CancelQueued(s') <==> CancelQueued(s) || task.CancelBeside?
  {
    assert s'.queue[|s.queue|] == task;
    assert forall p :: 0 <= p < |s.queue| ==> s'.queue[p] == s.queue[p];
  }

  lemma Popped(s: State, s': State)
    requires s.queue != [] && s'.queue == s.queue[1..]
    ensures CancelQueued(s) <==> CancelQueued(s') || s.queue[0].CancelBeside?
    ensures forall task :: task in s.queue <==> task == s.queue[0] || task in s'.queue
  {
    assert s.queue == [s.queue[0]] + s'.queue;
    assert forall p :: 0 <= p < |s'.queue| ==> s'.queue[p] == s.queue[p + 1];
  }

  /** The connections' own emission. */
  lemma EmitInv(s: State, m: Move)
    requires Inv(s) && Enabled(s, m) && (m.Begin? || m.EndEmit?)
    ensures Inv(Step(s, m))
  {
    var s' := Step(s, m);
    if m.EndEmit? { Appended(s, s', EmitTask); }
    forall i | 0 <= i < |s'.cases| ensures CaseOk(s', i) { assert CaseOk(s, i); }
    assert NoneEarly(s) ==> NoneEarly(s');
  }

  /** What the cases have done does not depend on where the tasks are. */
  lemma CasesKept(s: State, s': State)
    requires Inv(s)
    requires s'.kind == s.kind && s'.cases == s.cases && s'.done == s.done && s'.winner == s.winner
    requires s'.counter == s.counter && s'.results == s.results && s'.slot == s.slot
    requires s'.started == s.started && (Closed(s') <==> Closed(s))
    ensures forall i :: 0 <= i < |s'.cases| ==> CaseOk(s', i)
    ensures WinnerOk(s') && CloseOk(s')
  {
    forall i | 0 <= i < |s'.cases| ensures CaseOk(s', i) { assert CaseOk(s, i); }
    assert NoneEarly(s) ==> NoneEarly(s');
  }

  lemma TaskCases(s: State)
    requires Inv(s) && s.queue != []
    ensures var s' := Step(s, RunTask);
      (forall i :: 0 <= i < |s'.cases| ==> CaseOk(s', i)) && WinnerOk(s') && CloseOk(s')
  {
    Popped(s, s.(queue := s.queue[1..]));
    CasesKept(s, Step(s, RunTask));
  }

  lemma TaskQueue(s: State)
    requires Inv(s) && s.queue != []
    ensures QueueOk(Step(s, RunTask))
  {
    var s' := Step(s, RunTask);
    Popped(s, s');
    assert forall p :: 0 <= p < |s'.queue| ==> s'.queue[p] == s.queue[p + 1];
    if s.queue[0].DeleteThis? || (s.queue[0].EmitTask? && s.deleteRequested) {
      NothingAfterDelete(s);
    }
  }

  /** Behind the task that deletes the object there is no other. */
  lemma NothingAfterDelete(s: State)
    requires QueueOk(s) && s.queue != []
    ensures s.queue[0].DeleteThis? && s.handles ==> s.queue == [s.queue[0]]
    ensures s.queue[0].DeleteThis? ==> forall p :: 0 < p < |s.queue| ==> s.queue[p] == EmitTask
    ensures s.queue[0].EmitTask? && s.deleteRequested ==> s.queue == [EmitTask]
  {
    if |s.queue| > 1 {
      assert s.queue[1] in s.queue && s.queue[0] != s.queue[1];
    }
    forall p | 0 < p < |s.queue| ensures s.queue[0].DeleteThis? ==> s.queue[p] == EmitTask {
      assert s.queue[0] != s.queue[p];
    }
  }

  lemma TaskCancel(s: State)
    requires Inv(s) && s.queue != []
    ensures CancelOk(Step(s, RunTask))
  {
    var s' := Step(s, RunTask);
    Popped(s, s');
    forall p | 0 <= p < |s'.queue| && s'.queue[p].CancelBeside? ensures s.queue[0].CancelBeside? ==> false {
      assert s'.queue[p] == s.queue[p + 1];
    }
    assert [] + Beside(|s.cases|, if s.winner.Some? then s.winner.value else 0)
        == Beside(|s.cases|, if s.winner.Some? then s.winner.value else 0);
  }

  lemma Counts(cs: seq<Case>, i: nat, ds: seq<Case>)
    requires i < |cs| && |ds| == |cs| && ds == cs[i := ds[i]]
    ensures Count(ds) == Count(cs) - (if Counted(cs[i]) then 1 else 0) + (if Counted(ds[i]) then 1 else 0)
    ensures Count(cs) == |cs| <==> forall j :: 0 <= j < |cs| ==> Counted(cs[j])
    ensures Count(ds) == |cs| <==> forall j :: 0 <= j < |cs| ==> Counted(ds[j])
    ensures Count(cs) <= |cs| && Count(ds) <= |cs|
  {
    CountUpdate(cs, i, ds[i]);
    CountAll(cs);
    CountAll(ds);
  }

  lemma ArriveEarlyInv(s: State, i: nat, o: Outcome)
    requires Inv(s) && Enabled(s, Arrive(i, o)) && Early(s.kind, o)
    ensures Inv(To(s, i, Deciding(o)))
  {
    var s' := To(s, i, Deciding(o));
    Counts(s.cases, i, s'.cases);
    forall j | 0 <= j < |s.cases| ensures CaseOk(s', j) { assert CaseOk(s, j); }
  }

  lemma ArriveLateInv(s: State, i: nat, o: Outcome)
    requires Inv(s) && Enabled(s, Arrive(i, o)) && !Early(s.kind, o)
    ensures Inv(Step(s, Arrive(i, o)))
  {
    var s' := Step(s, Arrive(i, o));
    Counts(s.cases, i, s'.cases);
    forall j | 0 <= j < |s.cases| ensures CaseOk(s', j) { assert CaseOk(s, j); }
  }

  lemma ClaimInv(s: State, i: nat)
    requires Inv(s) && Enabled(s, Claim(i))
    ensures Inv(Step(s, Claim(i)))
  {
    var s' := Step(s, Claim(i));
    Counts(s.cases, i, s'.cases);
    forall j | 0 <= j < |s.cases| ensures CaseOk(s', j) { assert CaseOk(s, j) && CaseOk(s, i); }
  }

  lemma ArriveClaimedInv(s: State, i: nat)
    requires Inv(s) && Enabled(s, ArriveClaimed(i))
    ensures Inv(Step(s, ArriveClaimed(i)))
  {
    var s' := Step(s, ArriveClaimed(i));
    Counts(s.cases, i, s'.cases);
    forall j | 0 <= j < |s.cases| ensures CaseOk(s', j) { assert CaseOk(s, j) && CaseOk(s, i); }
  }

  lemma DecidingCases(s: State, i: nat)
    requires Inv(s) && i < |s.cases| && s.cases[i].Deciding?
    ensures var s' := CaseStepOf(s, i); WinnerOk(s') && forall j :: 0 <= j < |s'.cases| ==> CaseOk(s', j)
  {
    var s' := CaseStepOf(s, i);
    forall j | 0 <= j < |s.cases| ensures CaseOk(s', j) { assert CaseOk(s, j) && CaseOk(s, i); }
  }

  lemma DecidingInv(s: State, i: nat)
    requires Inv(s) && i < |s.cases| && s.cases[i].Deciding?
    ensures Inv(CaseStepOf(s, i))
  {
    Counts(s.cases, i, CaseStepOf(s, i).cases);
    DecidingCases(s, i);
  }

  lemma WinnerInv(s: State, i: nat)
    requires Inv(s) && i < |s.cases| && s.cases[i].Winner?
    ensures Inv(CaseStepOf(s, i))
  {
    var s' := CaseStepOf(s, i);
    Counts(s.cases, i, s'.cases);
    forall j | 0 <= j < |s.cases| ensures CaseOk(s', j) { assert CaseOk(s, j) && CaseOk(s, i); }
  }

  lemma CancellingInv(s: State, i: nat)
    requires Inv(s) && i < |s.cases| && s.cases[i].Cancelling?
    ensures Inv(CaseStepOf(s, i))
  {
    var s' := CaseStepOf(s, i);
    Counts(s.cases, i, s'.cases);
    forall j | 0 <= j < |s.cases| ensures CaseOk(s', j) { assert CaseOk(s, j) && CaseOk(s, i); }
    Appended(s, s', CancelBeside(i));
  }

  lemma CountingInv(s: State, i: nat)
    requires Inv(s) && i < |s.cases| && s.cases[i].Counting?
    ensures Inv(CaseStepOf(s, i))
  {
    var s' := CaseStepOf(s, i);
    Counts(s.cases, i, s'.cases);
    forall j | 0 <= j < |s.cases| ensures CaseOk(s', j) { assert CaseOk(s, j) && CaseOk(s, i); }
    assert s.counter < |s.cases|;
    forall j | 0 <= j < |s.cases| ensures !Closing(s.cases[j]) { assert CaseOk(s, j); }
  }

  /** The last case of all with nothing decided yet: no case had a deciding outcome. */
  lemma LastDecidingInv(s: State, i: nat)
    requires Inv(s) && i < |s.cases| && s.cases[i].LastDeciding?
    ensures Inv(CaseStepOf(s, i))
  {
    var s' := CaseStepOf(s, i);
    Counts(s.cases, i, s'.cases);
    forall j | 0 <= j < |s.cases| ensures CaseOk(s', j) { assert CaseOk(s, j) && CaseOk(s, i); }
    forall j | 0 <= j < |s.cases| ensures Counted(s.cases[j]) && (s.done || !Early(s.kind, s.cases[j].o)) {
      assert CaseOk(s, j) && CaseOk(s, i);
    }
  }

  lemma LastWinnerInv(s: State, i: nat)
    requires Inv(s) && i < |s.cases| && s.cases[i].LastWinner?
    ensures Inv(CaseStepOf(s, i))
  {
    var s' := CaseStepOf(s, i);
    Counts(s.cases, i, s'.cases);
    forall j | 0 <= j < |s.cases| ensures CaseOk(s', j) { assert CaseOk(s, j) && CaseOk(s, i); }
  }

  lemma DeletingCases(s: State, i: nat)
    requires Inv(s) && i < |s.cases| && s.cases[i].Deleting?
    ensures var s' := CaseStepOf(s, i); WinnerOk(s') && forall j :: 0 <= j < |s'.cases| ==> CaseOk(s', j)
  {
    var s' := CaseStepOf(s, i);
    forall j | 0 <= j < |s.cases| ensures CaseOk(s', j) { assert CaseOk(s, j) && CaseOk(s, i); }
  }

  lemma DeletingInv(s: State, i: nat)
    requires Inv(s) && i < |s.cases| && s.cases[i].Deleting?
    ensures Inv(CaseStepOf(s, i))
  {
    var s' := CaseStepOf(s, i);
    Counts(s.cases, i, s'.cases);
    DeletingCases(s, i);
    assert CaseOk(s, i);
    Appended(s, s', DeleteThis);
  }

  lemma StepInv(s: State, m: Move)
    requires Inv(s) && Enabled(s, m)
    ensures Inv(Step(s, m))
  {
    match m
    case Begin(_) => EmitInv(s, m);
    case EndEmit => EmitInv(s, m);
    case Arrive(i, o) => if Early(s.kind, o) { ArriveEarlyInv(s, i, o); } else { ArriveLateInv(s, i, o); }
    case Claim(i) => ClaimInv(s, i);
    case ArriveClaimed(i) => ArriveClaimedInv(s, i);
    case CaseStep(i) => CaseStepInv(s, i);
    case RunTask => TaskCases(s); TaskQueue(s); TaskCancel(s);
  }

  lemma CaseStepInv(s: State, i: nat)
    requires Inv(s) && Enabled(s, CaseStep(i))
    ensures Inv(CaseStepOf(s, i))
  {
    match s.cases[i]
    case Deciding(_) => DecidingInv(s, i);
    case Winner(_) => WinnerInv(s, i);
    case Cancelling(_) => CancellingInv(s, i);
    case Counting(_) => CountingInv(s, i);
    case LastDeciding(_) => LastDecidingInv(s, i);
    case LastWinner(_) => LastWinnerInv(s, i);
    case Deleting(_) => DeletingInv(s, i);
  }

  // ---------- runs ----------

  ghost predicate Run(kind: Kind, n: nat, states: seq<State>, moves: seq<Move>) {
    && n > 0
    && |states| == |moves| + 1
    && states[0] == Init(kind, n)
    && forall i :: 0 <= i < |moves| ==> Enabled(states[i], moves[i]) && states[i + 1] == Step(states[i], moves[i])
  }

  lemma {:induction false} RunInv(kind: Kind, n: nat, states: seq<State>, moves: seq<Move>, i: nat)
    requires Run(kind, n, states, moves) && i < |states|
    ensures Inv(states[i]) && states[i].kind == kind && |states[i].cases| == n
  {
    if i == 0 {
      InitInv(kind, n);
    } else {
      RunInv(kind, n, states, moves, i - 1);
      var s, m := states[i - 1], moves[i - 1];
      assert Enabled(s, m) && states[i - 1 + 1] == Step(s, m);
      StepInv(s, m);
    }
  }

  /** A completion keeps its outcome on its way, and the other cases stay where they are. */
  lemma CaseOutsKept(s: State, i: nat)
    requires Enabled(s, CaseStep(i))
    ensures var r := CaseStepOf(s, i);
      && Out(r.cases[i]) == Out(s.cases[i]) && !r.cases[i].Claimed? && !r.cases[i].Waiting?
      && forall j :: 0 <= j < |s.cases| && j != i ==> r.cases[j] == s.cases[j]
  {
    match s.cases[i]
    case Deciding(_) =>
    case Winner(_) =>
    case Cancelling(_) =>
    case Counting(_) =>
    case LastDeciding(_) =>
    case LastWinner(_) =>
    case Deleting(_) =>
  }

  // ---------- what the code promises ----------

  /** all succeeds when every signal gives a value, any and select when some signal does. */
  predicate Formula(kind: Kind, outs: seq<Outcome>) {
    if kind == All then forall i :: 0 <= i < |outs| ==> outs[i] == Value
    else exists i :: 0 <= i < |outs| && outs[i] == Value
  }

  predicate AllFinished(s: State) {
    forall i :: 0 <= i < |s.cases| ==> s.cases[i].Finished?
  }

  /** Outcomes that agree with everything completed so far. */
  predicate Extends(outs: seq<Outcome>, cases: seq<Case>) {
    |outs| == |cases| && forall i :: 0 <= i < |cases| ==> Out(cases[i]).Some? ==> outs[i] == Out(cases[i]).value
  }

  /** The slot is completed at most once, with the winner's outcome, which is a value exactly when
      the formula is true, however the cases that are still open turn out. */
  lemma SlotTellsFormula(s: State, outs: seq<Outcome>)
    requires Inv(s) && Extends(outs, s.cases)
    ensures |s.slot| <= 1
    ensures s.slot != [] ==> (s.slot[0] == Value <==> Formula(s.kind, outs))
    ensures s.slot != [] ==> s.winner.Some? && s.winner.value < |outs| && s.slot[0] == outs[s.winner.value]
  {
    if s.slot != [] {
      var w := s.winner.value;
      assert outs[w] == Out(s.cases[w]).value;
      if !Early(s.kind, outs[w]) {
        forall i | 0 <= i < |outs| ensures !Early(s.kind, outs[i]) { assert Counted(s.cases[i]); }
      }
    }
  }

  /** Once every case is through, the slot has been completed, and exactly once. */
  lemma SlotCompletedOnce(s: State, outs: seq<Outcome>)
    requires Inv(s) && Extends(outs, s.cases)
    requires AllFinished(s)
    ensures |s.slot| == 1 && (s.slot[0] == Value <==> Formula(s.kind, outs))
  {
    CountAll(s.cases);
    SlotTellsFormula(s, outs);
  }

  /** When all completes with a value, every element is there. */
  lemma AllResultsPresent(s: State, i: nat)
    requires Inv(s) && s.kind == All && i < |s.cases| && s.cases[i].LastWinner?
    ensures s.cases[i].o == Value && forall j :: 0 <= j < |s.cases| ==> j in s.results
  {
    assert CaseOk(s, i);
    forall j | 0 <= j < |s.cases| ensures j in s.results { assert CaseOk(s, j) && Counted(s.cases[j]); }
  }

  /** done_ is set once: who set it never changes. */
  lemma WinnerFixed(s: State, m: Move)
    requires (s.done <==> s.winner.Some?) && Enabled(s, m) && s.winner.Some?
    ensures Step(s, m).winner == s.winner && Step(s, m).done
  {
    match m
    case CaseStep(i) => CaseStepWinner(s, i);
    case _ =>
  }

  lemma CaseStepWinner(s: State, i: nat)
    requires i < |s.cases| && s.done
    ensures CaseStepOf(s, i).winner == s.winner && CaseStepOf(s, i).done
  {
  }

  /** Handles are used at most once each, in order, and the winner's never. In the end, when some
      outcome decided early, all the others have been used. */
  lemma CancelledBesideWinner(s: State)
    requires Inv(s)
    ensures forall p, q :: 0 <= p < q < |s.cancelled| ==> s.cancelled[p] < s.cancelled[q]
    ensures s.cancelled != [] ==> s.winner.Some? && s.cancelled == Beside(|s.cases|, s.winner.value)
    ensures AllFinished(s) && s.emitted && s.queue == [] ==>
      s.slot != [] && s.cancelled == if Early(s.kind, s.slot[0]) then Beside(|s.cases|, s.winner.value) else []
  {
    assert CancelOk(s);
    if AllFinished(s) && s.emitted && s.queue == [] { CountAll(s.cases); }
  }

  /** Deletion comes once, after every completion and after the emit task; nothing is left that
      could still touch the object. */
  lemma DeletedLast(s: State, m: Move)
    requires Inv(s)
    ensures s.deleted <= 1
    ensures s.deleted == 1 ==> s.handles && !Enabled(s, m)
    ensures s.deleted == 1 ==> AllFinished(s)
  {
    if s.deleted == 1 {
      CountAll(s.cases);
      forall i | 0 <= i < |s.cases| ensures s.cases[i].Finished? && i in s.started { assert CaseOk(s, i); }
    }
  }

  /** And it does come: when all cases are through and no task is waiting, the object is gone. */
  lemma DeletedInTheEnd(s: State)
    requires Inv(s) && s.emitted && s.queue == []
    requires AllFinished(s)
    ensures s.deleted == 1
  {
    CountAll(s.cases);
  }

  /** The two halves of the promise over whole runs, from the first emission on. */
  lemma RunPromise(kind: Kind, n: nat, states: seq<State>, moves: seq<Move>, i: nat, outs: seq<Outcome>)
    requires Run(kind, n, states, moves) && i < |states| && Extends(outs, states[i].cases)
    ensures var s := states[i];
      && (s.slot != [] ==> |s.slot| == 1 && (s.slot[0] == Value <==> Formula(kind, outs)))
      && (AllFinished(s) ==> s.slot != [])
      && (s.deleted == 1 ==> AllFinished(s))
      && (AllFinished(s) && s.emitted && s.queue == [] ==> s.deleted == 1)
  {
    var s := states[i];
    RunInv(kind, n, states, moves, i);
    SlotTellsFormula(s, outs);
    DeletedLast(s, RunTask);
    if AllFinished(s) {
      SlotCompletedOnce(s, outs);
      if s.emitted && s.queue == [] { DeletedInTheEnd(s); }
    }
  }
}
