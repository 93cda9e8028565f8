/** serial_executor over lock_free_stack: tasks are pushed by any number of concurrent
    schedule calls and run by one inner task that takes whole batches.

  "pushed", "executed", "balance" and "busy" are records for the statements below; the
  code has no such fields. */
module Serial {
  import opened Options
  import opened Counting
  import opened IntrusiveList

  const WORD: int := 0x1_0000_0000

  /** Where one schedule(task) call is. */
  datatype Caller = Loading(task: nat) | Swapping(task: nat) | Adding | Starting | Returned

  /** One time the inner task was handed to the underlying executor. */
  datatype Turn = Queued | Loaded(h: Option<nat>) | Running(rest: seq<nat>, size: nat) | Again | Finished | Crashed

  datatype State = State(
    head: Option<nat>, next: map<nat, Option<nat>>, work: int,
    callers: seq<Caller>, turns: seq<Turn>,
    pushed: seq<nat>, executed: seq<nat>, balance: int, busy: set<nat>)

  datatype Move = Schedule(task: nat) | CallerStep(i: nat) | TurnStep(r: nat)

  const INIT: State := State(None, map[], 0, [], [], [], [], 0, {})

  // ---------- steps ----------

  function Reverse(s: seq<nat>): (r: seq<nat>)
    ensures |r| == |s|
    ensures forall x :: x in r <==> x in s
  {
    if s == [] then [] else Reverse(s[1..]) + [s[0]]
  }

  predicate Pushing(c: Caller) {
    c.Loading? || c.Swapping?
  }

  /** A task is not scheduled again while it is still in a list or a batch. */
  predicate Enabled(s: State, m: Move) {
    match m
    case Schedule(task) => task !in s.busy
    case CallerStep(i) => i < |s.callers| && !s.callers[i].Returned?
    case TurnStep(r) => r < |s.turns| && !s.turns[r].Finished? && !s.turns[r].Crashed?
  }

  function CallStep(s: State, i: nat): State
    requires i < |s.callers|
  {
    match s.callers[i]
    case Loading(x) => s.(next := s.next[x := s.head], callers := s.callers[i := Swapping(x)])
    case Swapping(x) =>
      if x in s.next && s.next[x] == s.head then
        s.(head := Some(x), callers := s.callers[i := Adding], pushed := s.pushed + [x])
      else
        s.(next := s.next[x := s.head])
    case Adding =>
      s.(work := (s.work + 1) % WORD, balance := s.balance + 1,
         callers := s.callers[i := if s.work == 0 then Starting else Returned])
    case Starting => s.(turns := s.turns + [Queued], callers := s.callers[i := Returned])
    case Returned => s
  }

  ghost function TurnStepOf(s: State, r: nat): State
    requires r < |s.turns|
  {
    match s.turns[r]
    case Queued => s.(turns := s.turns[r := Loaded(s.head)])
    case Loaded(h) =>
      if h == None then s.(turns := s.turns[r := Crashed])
      else if s.head == h then
        s.(head := None, turns := s.turns[r := Running(Reverse(Follow(s.next, h)), 0)])
      else s.(turns := s.turns[r := Loaded(s.head)])
    case Running(rest, size) =>
      if rest != [] then
        s.(executed := s.executed + [rest[0]], busy := s.busy - {rest[0]},
           turns := s.turns[r := Running(rest[1..], (size + 1) % WORD)])
      else
        s.(work := (s.work - size) % WORD, balance := s.balance - size,
           turns := s.turns[r := if s.work > size then Again else Finished])
    case Again => s.(turns := s.turns[r := Finished] + [Queued])
    case Finished => s
    case Crashed => s
  }

  ghost function Step(s: State, m: Move): State
    requires Enabled(s, m)
  {
    match m
    case Schedule(task) => s.(callers := s.callers + [Loading(task)], busy := s.busy + {task})
    case CallerStep(i) => CallStep(s, i)
    case TurnStep(r) => TurnStepOf(s, r)
  }

  // ---------- counting ----------

  /** Calls that have pushed their task but not yet added it to the work counter. */
  function Late(cs: seq<Caller>): nat {
    if cs == [] then 0 else (if cs[0].Adding? then 1 else 0) + Late(cs[1..])
  }

  function Starts(cs: seq<Caller>): nat {
    if cs == [] then 0 else (if cs[0].Starting? then 1 else 0) + Starts(cs[1..])
  }

  function Early(cs: seq<Caller>): nat {
    if cs == [] then 0 else (if Pushing(cs[0]) then 1 else 0) + Early(cs[1..])
  }

  lemma {:induction false} CountUpdate(cs: seq<Caller>, i: nat, c: Caller)
    requires i < |cs|
    ensures Late(cs[i := c]) == Late(cs) - One(cs[i].Adding?) + One(c.Adding?)
    ensures Starts(cs[i := c]) == Starts(cs) - One(cs[i].Starting?) + One(c.Starting?)
    ensures Early(cs[i := c]) == Early(cs) - One(Pushing(cs[i])) + One(Pushing(c))
  {
    if i == 0 {
      assert cs[i := c][1..] == cs[1..];
    } else {
      assert cs[i := c][1..] == cs[1..][i - 1 := c];
      CountUpdate(cs[1..], i - 1, c);
    }
  }

  lemma {:induction false} CountAppend(cs: seq<Caller>, c: Caller)
    ensures Late(cs + [c]) == Late(cs) + One(c.Adding?)
    ensures Starts(cs + [c]) == Starts(cs) + One(c.Starting?)
    ensures Early(cs + [c]) == Early(cs) + One(Pushing(c))
  {
    if cs == [] {
      assert cs + [c] == [c];
    } else {
      assert (cs + [c])[1..] == cs[1..] + [c];
      CountAppend(cs[1..], c);
    }
  }

  lemma {:induction false} CountBounds(cs: seq<Caller>)
    ensures forall i :: 0 <= i < |cs| && cs[i].Starting? ==> Starts(cs) > 0
    ensures forall i :: 0 <= i < |cs| && cs[i].Adding? ==> Late(cs) > 0
    ensures (forall i :: 0 <= i < |cs| ==> cs[i].Returned?) ==> Early(cs) == 0 && Late(cs) == 0 && Starts(cs) == 0
  {
    if cs != [] {
      CountBounds(cs[1..]);
      assert forall i :: 0 < i < |cs| ==> cs[i] == cs[1..][i - 1];
      if forall i :: 0 <= i < |cs| ==> cs[i].Returned? {
        assert forall i :: 0 <= i < |cs[1..]| ==> cs[1..][i] == cs[i + 1];
      }
    }
  }

  // ---------- what holds in every reachable state ----------

  /** The turn in progress, if any: all earlier ones are over. */
  function Current(s: State): Turn {
    if s.turns == [] then Finished else s.turns[|s.turns| - 1]
  }

  function Rest(s: State): seq<nat> {
    if Current(s).Running? then Current(s).rest else []
  }

  /** Tasks of the current batch that already ran; they leave the counter together at its end. */
  function Size(s: State): nat {
    if Current(s).Running? then Current(s).size else 0
  }

  ghost function Stack(s: State): seq<nat> {
    Follow(s.next, s.head)
  }

  /** Tasks scheduled and not yet taken off the work counter. */
  ghost function Tasks(s: State): nat {
    |Stack(s)| + |Rest(s)| + Size(s) + Early(s.callers)
  }

  ghost predicate ListOk(s: State) {
    && (exists c :: Linked(s.next, s.head, c))
    && NoRepeats(Stack(s) + Rest(s))
    && (forall x :: x in Stack(s) || x in Rest(s) ==> x in s.busy)
    && s.pushed == s.executed + Rest(s) + Reverse(Stack(s))
  }

  ghost predicate CallersOk(s: State) {
    && (forall i :: 0 <= i < |s.callers| && Pushing(s.callers[i]) ==>
          var x := s.callers[i].task;
          x in s.busy && x !in Stack(s) && x !in Rest(s) && (s.callers[i].Swapping? ==> x in s.next))
    && (forall i, j :: 0 <= i < j < |s.callers| && Pushing(s.callers[i]) && Pushing(s.callers[j]) ==>
          s.callers[i].task != s.callers[j].task)
  }

  predicate TurnsOk(s: State) {
    && (forall r :: 0 <= r < |s.turns| - 1 ==> s.turns[r].Finished?)
    && !Current(s).Crashed?
    && (Current(s).Loaded? ==> Current(s).h != None)
  }

  ghost predicate CountsOk(s: State) {
    && s.work == s.balance % WORD
    && s.balance + Late(s.callers) == |Stack(s)| + |Rest(s)| + Size(s)
    && Tasks(s) < WORD
    && -WORD < s.balance
    && Starts(s.callers) + One(!Current(s).Finished?) == One(s.balance > 0)
  }

  ghost predicate Inv(s: State) {
    ListOk(s) && CallersOk(s) && TurnsOk(s) && CountsOk(s)
  }

  lemma InitInv()
    ensures Inv(INIT)
  {
    FollowNone(INIT.next);
  }

  // ---------- schedule ----------

  /** A step that leaves the list and the turns alone. */
  lemma ListKept(s: State, s': State)
    requires s'.head == s.head && s'.next == s.next && s'.turns == s.turns
    ensures Stack(s') == Stack(s) && Rest(s') == Rest(s) && Size(s') == Size(s)
  {
  }

  /** Writing the next pointer of a node that is in no list. */
  lemma LinkList(s: State, s': State, x: nat)
    requires ListOk(s) && x !in Stack(s)
    requires s' == s.(next := s.next[x := s.head], callers := s'.callers)
    ensures ListOk(s') && Stack(s') == Stack(s) && Rest(s') == Rest(s) && Size(s') == Size(s)
  {
    FollowFrame(s.next, s.head, x, s.head);
  }

  lemma LinkStep(s: State, i: nat)
    requires Inv(s) && i < |s.callers| && Pushing(s.callers[i])
    requires s.callers[i].Swapping? ==> s.next[s.callers[i].task] != s.head
    ensures Inv(CallStep(s, i))
  {
    var s', x := CallStep(s, i), s.callers[i].task;
    LinkList(s, s', x);
    if s.callers[i].Loading? { CountUpdate(s.callers, i, Swapping(x)); }
    assert CountsOk(s') && TurnsOk(s');
    assert CallersOk(s');
  }

  lemma AddFirst(x: nat, xs: seq<nat>)
    requires NoRepeats(xs) && x !in xs
    ensures NoRepeats([x] + xs)
  {
    forall i, j | 0 <= i < j < |xs| + 1 ensures ([x] + xs)[i] != ([x] + xs)[j] {
      assert ([x] + xs)[j] == xs[j - 1];
    }
  }

  lemma PushListOk(s: State, s': State, x: nat)
    requires ListOk(s) && x in s.next && s.next[x] == s.head
    requires x in s.busy && x !in Stack(s) && x !in Rest(s)
    requires s' == s.(head := Some(x), pushed := s.pushed + [x], callers := s'.callers)
    ensures ListOk(s') && Stack(s') == [x] + Stack(s)
  {
    LinkedPush(s.next, s.head, x);
    AddFirst(x, Stack(s) + Rest(s));
    assert Stack(s') + Rest(s') == [x] + (Stack(s) + Rest(s));
    assert Reverse(Stack(s')) == Reverse(Stack(s)) + [x] by {
      assert ([x] + Stack(s))[1..] == Stack(s);
    }
    assert s'.executed + Rest(s') + Reverse(Stack(s')) == (s.executed + Rest(s) + Reverse(Stack(s))) + [x];
  }

  lemma PushStep(s: State, i: nat)
    requires Inv(s) && i < |s.callers| && s.callers[i].Swapping? && s.next[s.callers[i].task] == s.head
    ensures Inv(CallStep(s, i))
    ensures Stack(CallStep(s, i)) == [s.callers[i].task] + Stack(s)
  {
    PushListOk(s, CallStep(s, i), s.callers[i].task);
    CountUpdate(s.callers, i, Adding);
  }

  /** fetch_add on the work counter: it starts the inner task exactly when no turn is due. */
  lemma AddStep(s: State, i: nat)
    requires Inv(s) && i < |s.callers| && s.callers[i].Adding?
    ensures Inv(CallStep(s, i))
    ensures CallStep(s, i).callers[i].Starting? <==> s.balance == 0
  {
    var s' := CallStep(s, i);
    ListKept(s, s');
    CountBounds(s.callers);
    CountUpdate(s.callers, i, s'.callers[i]);
    Wraps(s.balance);
    assert CallersOk(s') && ListOk(s') && TurnsOk(s');
  }

  lemma StartStep(s: State, i: nat)
    requires Inv(s) && i < |s.callers| && s.callers[i].Starting?
    ensures Inv(CallStep(s, i))
  {
    var s' := CallStep(s, i);
    CountBounds(s.callers);
    CountUpdate(s.callers, i, Returned);
    assert Current(s).Finished?;
    assert Stack(s') == Stack(s) && Rest(s') == Rest(s) && Size(s') == Size(s);
  }

  /** A counter that wraps at 2^32 shows zero, within range, only for zero. */
  lemma Wraps(b: int)
    requires -WORD < b < WORD
    ensures b % WORD == 0 <==> b == 0
    ensures (b + 1) % WORD == (b % WORD + 1) % WORD
    ensures b >= 0 ==> b % WORD == b
  {
  }

  lemma ArriveStep(s: State, task: nat)
    requires Inv(s) && Enabled(s, Schedule(task)) && Tasks(Step(s, Schedule(task))) < WORD
    ensures Inv(Step(s, Schedule(task)))
  {
    var s' := Step(s, Schedule(task));
    CountAppend(s.callers, Loading(task));
    ListKept(s, s');
  }

  // ---------- execute ----------

  ghost predicate Turning(s: State) {
    Inv(s) && !Current(s).Finished?
  }

  lemma ExtractList(s: State, s': State)
    requires ListOk(s) && Rest(s) == []
    requires s'.head == None && Rest(s') == Reverse(Stack(s))
    requires s'.busy == s.busy && s'.pushed == s.pushed && s'.executed == s.executed
    ensures Stack(s') == [] && ListOk(s')
  {
    FollowNone(s'.next);
    assert Stack(s) + Rest(s) == Stack(s);
    ReverseNoRepeats(Stack(s));
    assert Stack(s') + Rest(s') == Rest(s');
    assert s.executed + Rest(s) == s.executed;
    assert Reverse(Stack(s')) == [];
    assert s'.executed + Rest(s') + [] == s'.executed + Rest(s');
  }

  /** Extracting the whole stack: the batch is the stack read back to front, so in push order. */
  lemma ExtractStep(s: State)
    requires Turning(s) && Current(s).Loaded? && s.head == Current(s).h
    ensures Inv(TurnStepOf(s, |s.turns| - 1))
    ensures Rest(TurnStepOf(s, |s.turns| - 1)) == Reverse(Stack(s))
  {
    ExtractList(s, TurnStepOf(s, |s.turns| - 1));
  }

  lemma {:induction false} ReverseNoRepeats(xs: seq<nat>)
    requires NoRepeats(xs)
    ensures NoRepeats(Reverse(xs))
  {
    if xs != [] {
      ReverseNoRepeats(xs[1..]);
      assert xs[0] !in xs[1..];
    }
  }

  /** The load of extract finds a task: a turn in progress means pushed work that nobody took. */
  lemma LoadStep(s: State)
    requires Turning(s) && (Current(s).Queued? || (Current(s).Loaded? && s.head != Current(s).h))
    ensures Inv(TurnStepOf(s, |s.turns| - 1)) && s.head != None
  {
    var s' := TurnStepOf(s, |s.turns| - 1);
    assert Stack(s') == Stack(s) && Rest(s') == Rest(s);
    assert Stack(s) != [];
  }

  lemma RunStep(s: State)
    requires Turning(s) && Current(s).Running? && Current(s).rest != []
    ensures Inv(TurnStepOf(s, |s.turns| - 1))
  {
    var s' := TurnStepOf(s, |s.turns| - 1);
    assert Stack(s') == Stack(s) && Rest(s') == Rest(s)[1..] && Size(s') == Size(s) + 1;
    DropFirst(Stack(s), Rest(s));
    assert s'.executed + Rest(s') == s.executed + Rest(s);
    assert ListOk(s') && CallersOk(s') && TurnsOk(s') && CountsOk(s');
  }

  lemma DropFirst(xs: seq<nat>, ys: seq<nat>)
    requires NoRepeats(xs + ys) && ys != []
    ensures NoRepeats(xs + ys[1..]) && ys[0] !in xs && ys[0] !in ys[1..]
  {
    var zs, ws := xs + ys, xs + ys[1..];
    assert forall i :: 0 <= i < |xs| ==> xs[i] == zs[i];
    assert forall i :: 0 <= i < |ys| ==> ys[i] == zs[|xs| + i];
    forall i, j | 0 <= i < j < |ws| ensures ws[i] != ws[j] {
      assert ws[i] == zs[if i < |xs| then i else i + 1] && ws[j] == zs[if j < |xs| then j else j + 1];
    }
  }

  /** fetch_sub at the end of a batch: it comes back exactly when counted work is left. */
  lemma SubStep(s: State)
    requires Turning(s) && Current(s).Running? && Current(s).rest == []
    ensures Inv(TurnStepOf(s, |s.turns| - 1))
    ensures Current(TurnStepOf(s, |s.turns| - 1)).Again? <==> s.balance > Current(s).size
  {
    var s' := TurnStepOf(s, |s.turns| - 1);
    Wraps(s.balance);
    assert Stack(s') == Stack(s) && Rest(s') == [];
    assert s.pushed == s'.executed + Rest(s') + Reverse(Stack(s'));
  }

  lemma AgainStep(s: State)
    requires Turning(s) && Current(s).Again?
    ensures Inv(TurnStepOf(s, |s.turns| - 1))
  {
    var s' := TurnStepOf(s, |s.turns| - 1);
    assert Stack(s') == Stack(s) && Rest(s') == [];
  }

  // ---------- all steps, all runs ----------

  lemma CallerStepInv(s: State, i: nat)
    requires Inv(s) && i < |s.callers|
    ensures Inv(CallStep(s, i)) && CallStep(s, i).balance >= s.balance
  {
    match s.callers[i]
    case Loading(_) => LinkStep(s, i);
    case Swapping(x) => if s.next[x] == s.head { PushStep(s, i); } else { LinkStep(s, i); }
    case Adding => AddStep(s, i);
    case Starting => StartStep(s, i);
    case Returned =>
  }

  lemma TurnStepInv(s: State)
    requires Turning(s)
    ensures Inv(TurnStepOf(s, |s.turns| - 1))
  {
    match Current(s)
    case Queued => LoadStep(s);
    case Loaded(h) => if s.head == h { ExtractStep(s); } else { LoadStep(s); }
    case Running(rest, _) => if rest != [] { RunStep(s); } else { SubStep(s); }
    case Again => AgainStep(s);
    case _ =>
  }

  /** Every access keeps the invariant, as long as fewer than 2^32 tasks are under way after it. */
  lemma StepInv(s: State, m: Move)
    requires Inv(s) && Enabled(s, m) && Tasks(Step(s, m)) < WORD
    ensures Inv(Step(s, m))
  {
    match m
    case Schedule(task) => ArriveStep(s, task);
    case CallerStep(i) => CallerStepInv(s, i);
    case TurnStep(r) =>
      assert r == |s.turns| - 1;
      TurnStepInv(s);
  }

  ghost predicate Run(states: seq<State>, moves: seq<Move>) {
    && |states| == |moves| + 1
    && states[0] == INIT
    && forall i :: 0 <= i < |moves| ==> Enabled(states[i], moves[i]) && states[i + 1] == Step(states[i], moves[i])
  }

  /** At no moment are more than n tasks under way. */
  ghost predicate Within(states: seq<State>, n: nat) {
    forall i :: 0 <= i < |states| ==> Tasks(states[i]) <= n
  }

  lemma {:induction false} RunInv(states: seq<State>, moves: seq<Move>, i: nat, n: nat)
    requires Run(states, moves) && Within(states, n) && n < WORD && i < |states|
    ensures Inv(states[i])
  {
    if i == 0 {
      InitInv();
    } else {
      RunInv(states, moves, i - 1, n);
      assert states[i - 1 + 1] == Step(states[i - 1], moves[i - 1]);
      StepInv(states[i - 1], moves[i - 1]);
    }
  }

  // ---------- what was asked ----------

  /** The tasks that schedule was called with. */
  function Asked(moves: seq<Move>): multiset<nat> {
    if moves == [] then multiset{}
    else
      var m := moves[|moves| - 1];
      Asked(moves[..|moves| - 1]) + if m.Schedule? then multiset{m.task} else multiset{}
  }

  function TaskOf(c: Caller): multiset<nat> {
    if Pushing(c) then multiset{c.task} else multiset{}
  }

  /** The tasks of calls that have not pushed them yet. */
  function Unpushed(cs: seq<Caller>): multiset<nat> {
    if cs == [] then multiset{} else TaskOf(cs[0]) + Unpushed(cs[1..])
  }

  lemma {:induction false} UnpushedUpdate(cs: seq<Caller>, i: nat, c: Caller)
    requires i < |cs|
    ensures Unpushed(cs[i := c]) + TaskOf(cs[i]) == Unpushed(cs) + TaskOf(c)
  {
    var ds, rest := cs[i := c], cs[1..];
    if i == 0 {
      assert ds[1..] == rest;
      Beside(Unpushed(rest), TaskOf(c), TaskOf(cs[0]), TaskOf(cs[0]), TaskOf(c));
    } else {
      assert ds[1..] == rest[i - 1 := c] && rest[i - 1] == cs[i] && ds[0] == cs[0];
      UnpushedUpdate(rest, i - 1, c);
      Beside(TaskOf(cs[0]), Unpushed(rest[i - 1 := c]), TaskOf(cs[i]), Unpushed(rest), TaskOf(c));
    }
  }

  lemma Beside(a: multiset<nat>, u: multiset<nat>, x: multiset<nat>, v: multiset<nat>, y: multiset<nat>)
    requires u + x == v + y
    ensures (a + u) + x == (a + v) + y
  {
    assert (a + u) + x == a + (u + x) && (a + v) + y == a + (v + y);
  }

  /** What one caller gives up, something else gains. */
  lemma Handover(p: multiset<nat>, u: multiset<nat>, x: multiset<nat>, p': multiset<nat>, u': multiset<nat>, x': multiset<nat>)
    requires u' + x == u + x' && p' + x' == p + x
    ensures p' + u' == p + u
  {
    forall e ensures (p' + u')[e] == (p + u)[e] {
      assert (u' + x)[e] == (u + x')[e] && (p' + x')[e] == (p + x)[e];
    }
  }

  lemma {:induction false} UnpushedAppend(cs: seq<Caller>, c: Caller)
    ensures Unpushed(cs + [c]) == Unpushed(cs) + TaskOf(c)
  {
    if cs == [] {
      assert cs + [c] == [c];
    } else {
      assert (cs + [c])[1..] == cs[1..] + [c];
      UnpushedAppend(cs[1..], c);
    }
  }

  lemma {:induction false} NoneUnpushed(cs: seq<Caller>)
    requires forall i :: 0 <= i < |cs| ==> cs[i].Returned?
    ensures Unpushed(cs) == multiset{}
  {
    if cs != [] {
      assert forall i :: 0 <= i < |cs[1..]| ==> cs[1..][i] == cs[i + 1];
      NoneUnpushed(cs[1..]);
    }
  }

  /** Every task that was asked for has been pushed, or its call is still about to push it. */
  ghost predicate NoneForgotten(s: State, asked: multiset<nat>) {
    multiset(s.pushed) + Unpushed(s.callers) == asked
  }

  lemma CallForgetsNone(s: State, i: nat, asked: multiset<nat>)
    requires i < |s.callers| && NoneForgotten(s, asked)
    ensures NoneForgotten(CallStep(s, i), asked)
  {
    var s' := CallStep(s, i);
    var c, c' := s.callers[i], s'.callers[i];
    UnpushedUpdate(s.callers, i, c');
    CallHandover(s, i);
    Handover(multiset(s.pushed), Unpushed(s.callers), TaskOf(c), multiset(s'.pushed), Unpushed(s'.callers), TaskOf(c'));
  }

  /** A call keeps its task until it has pushed it. */
  lemma CallHandover(s: State, i: nat)
    requires i < |s.callers|
    ensures var s' := CallStep(s, i);
      && |s'.callers| == |s.callers| && s'.callers == s.callers[i := s'.callers[i]]
      && multiset(s'.pushed) + TaskOf(s'.callers[i]) == multiset(s.pushed) + TaskOf(s.callers[i])
  {
    match s.callers[i]
    case Loading(_) =>
    case Swapping(_) =>
    case Adding =>
    case Starting =>
    case Returned =>
  }

  lemma AskForgetsNone(s: State, task: nat, asked: multiset<nat>)
    requires Enabled(s, Schedule(task)) && NoneForgotten(s, asked)
    ensures NoneForgotten(Step(s, Schedule(task)), asked + multiset{task})
  {
    UnpushedAppend(s.callers, Loading(task));
  }

  lemma StepForgetsNone(s: State, m: Move, asked: multiset<nat>)
    requires Enabled(s, m) && NoneForgotten(s, asked)
    ensures NoneForgotten(Step(s, m), asked + if m.Schedule? then multiset{m.task} else multiset{})
  {
    match m
    case Schedule(task) => AskForgetsNone(s, task, asked);
    case CallerStep(i) => CallForgetsNone(s, i, asked);
    case TurnStep(r) => TurnForgetsNone(s, r);
  }

  lemma TurnForgetsNone(s: State, r: nat)
    requires r < |s.turns|
    ensures TurnStepOf(s, r).pushed == s.pushed && TurnStepOf(s, r).callers == s.callers
  {
  }

  lemma {:induction false} RunForgetsNone(states: seq<State>, moves: seq<Move>, i: nat)
    requires Run(states, moves) && i < |states|
    ensures NoneForgotten(states[i], Asked(moves[..i]))
  {
    if i > 0 {
      RunForgetsNone(states, moves, i - 1);
      assert states[i - 1 + 1] == Step(states[i - 1], moves[i - 1]);
      StepForgetsNone(states[i - 1], moves[i - 1], Asked(moves[..i - 1]));
      assert moves[..i][..i - 1] == moves[..i - 1];
    }
  }

  // ---------- what the code promises ----------

  /** Turns that are due or in progress. */
  function Unfinished(turns: seq<Turn>): nat {
    if turns == [] then 0 else One(!turns[0].Finished?) + Unfinished(turns[1..])
  }

  lemma {:induction false} OnlyLast(turns: seq<Turn>)
    requires forall r :: 0 <= r < |turns| - 1 ==> turns[r].Finished?
    ensures Unfinished(turns) == One(turns != [] && !turns[|turns| - 1].Finished?)
  {
    if turns != [] {
      assert forall r :: 0 <= r < |turns[1..]| ==> turns[1..][r] == turns[r + 1];
      OnlyLast(turns[1..]);
    }
  }

  /** Times that the inner task is due, about to be handed out, or running. */
  function Due(s: State): nat {
    Unfinished(s.turns) + Starts(s.callers)
  }

  /** Nobody is inside schedule and the inner task is not due. */
  predicate Settled(s: State) {
    && (forall i :: 0 <= i < |s.callers| ==> s.callers[i].Returned?)
    && (forall r :: 0 <= r < |s.turns| ==> s.turns[r].Finished?)
  }

  /** Tasks run in the order of their pushes; the inner task is due once while the counter, as an
      integer, is positive, and else not at all, so tasks never overlap or nest; extract never
      comes back empty-handed; nothing runs that was not asked for; and when everything has settled
      all that was asked for has run, each as often as it was asked for. */
  predicate Promise(s: State, asked: multiset<nat>) {
    && s.executed <= s.pushed
    && Due(s) == One(s.balance > 0)
    && (forall r :: 0 <= r < |s.turns| ==> !s.turns[r].Crashed?)
    && multiset(s.executed) <= asked
    && (Settled(s) ==> multiset(s.executed) == asked)
  }

  /** Tasks run in the order of their successful pushes, across batches. */
  lemma FirstInFirstOut(states: seq<State>, moves: seq<Move>, i: nat, n: nat)
    requires Run(states, moves) && Within(states, n) && n < WORD && i < |states|
    ensures states[i].executed <= states[i].pushed
  {
    RunInv(states, moves, i, n);
  }

  /** At most one turn is due or in progress; it is there exactly while the counter, as an integer,
      is positive; and extract never comes back empty-handed. */
  lemma OneTurnAtATime(states: seq<State>, moves: seq<Move>, i: nat, n: nat)
    requires Run(states, moves) && Within(states, n) && n < WORD && i < |states|
    ensures Due(states[i]) == One(states[i].balance > 0)
    ensures forall r :: 0 <= r < |states[i].turns| ==> !states[i].turns[r].Crashed?
  {
    RunInv(states, moves, i, n);
    OnlyLast(states[i].turns);
  }

  /** Once every schedule call has returned and no turn is due, every task that schedule was called
      with has run, as often as it was. */
  lemma NoTaskLost(states: seq<State>, moves: seq<Move>, i: nat, n: nat)
    requires Run(states, moves) && Within(states, n) && n < WORD && i < |states|
    ensures multiset(states[i].executed) <= Asked(moves[..i])
    ensures Settled(states[i]) ==> multiset(states[i].executed) == Asked(moves[..i])
  {
    RunInv(states, moves, i, n);
    RunForgetsNone(states, moves, i);
    ExecutedAsked(states[i], Asked(moves[..i]));
  }

  lemma ExecutedAsked(s: State, asked: multiset<nat>)
    requires Inv(s) && NoneForgotten(s, asked)
    ensures multiset(s.executed) <= asked && (Settled(s) ==> multiset(s.executed) == asked)
  {
    var waiting := Rest(s) + Reverse(Stack(s));
    assert s.pushed == s.executed + waiting;
    assert multiset(s.pushed) == multiset(s.executed) + multiset(waiting);
    if Settled(s) {
      NoneUnpushed(s.callers);
      SettledEmpty(s);
    }
  }

  lemma SettledEmpty(s: State)
    requires Inv(s) && Settled(s)
    ensures Stack(s) == [] && Rest(s) == []
  {
    CountBounds(s.callers);
  }

  /** The counter stays between 1 - n and n. It may pass below zero, because a task can run before
      its own schedule call counts it. */
  lemma {:induction false} BalanceRange(states: seq<State>, moves: seq<Move>, i: nat, n: nat)
    requires Run(states, moves) && Within(states, n) && n < WORD && i < |states|
    ensures states[i].balance <= n && (states[i].balance < 0 ==> 1 - n <= states[i].balance)
  {
    RunInv(states, moves, i, n);
    if i > 0 {
      BalanceRange(states, moves, i - 1, n);
      RunInv(states, moves, i - 1, n);
      assert states[i - 1 + 1] == Step(states[i - 1], moves[i - 1]);
      BalanceFalls(states[i - 1], moves[i - 1], n);
    }
  }

  /** Only the end of a batch lowers the counter, from above zero and by tasks under way. */
  lemma BalanceFalls(s: State, m: Move, n: nat)
    requires Inv(s) && Enabled(s, m) && Tasks(s) <= n
    ensures Step(s, m).balance < s.balance ==> 1 - n <= Step(s, m).balance
  {
    match m
    case Schedule(_) =>
    case CallerStep(i) => CallerStepInv(s, i);
    case TurnStep(r) => assert r == |s.turns| - 1;
  }
}
