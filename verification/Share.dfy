/** share_storage: one word that goes from empty over a list of callbacks to the result,
    a reference count, and any number of signals and connections racing with the result.

  "inners", "deleted", "received" and the Served cases are records for the statements; the
  code has no such fields. */
module Share {
  import opened Options
  import opened Counting
  import opened IntrusiveList

  /** state_: nothing yet, the newest callback of a list, or "result is there". */
  datatype Word = Empty | List(cb: nat) | Result

  /** The life of one subscriber: a share_signal, then the share_connection made from it. */
  datatype Handle =
    | Signal
    | Conn
    | First                  // emit: about to try state_empty -> this
    | Linking(seen: Word)    // emit: about to set intrusive_next to what was seen
    | Pushing(seen: Word)    // emit: about to try seen -> this
    | Pushed                 // in the list, or in the list taken by set_result
    | Serving                // emit: the result is there, about to run the callback
    | Dropping               // emit: callback has run, about to decref
    | Served                 // emitted, holds no reference any more
    | Gone                   // destroyed without being emitted

  /** The inner connection, from its emission through set_result. */
  datatype Inner =
    | Idle
    | Running
    | Stored                              // maybe_result_ is written
    | Walking(rest: seq<nat>, count: nat) // state_ is exchanged; callbacks still to run, and run so far
    | Over
    | Broken                              // ASSERT in set_result would fail

  datatype State<R> = State(
    word: Word, next: map<nat, Option<nat>>, refcount: int, result: Option<R>,
    box: bool, handles: seq<Handle>, starter: Option<nat>, inner: Inner,
    inners: nat, deleted: nat, received: seq<seq<R>>)

  datatype Move<R> =
    | GetSignal
    | DropBox
    | Subscribe(i: nat)
    | Drop(i: nat)              // a signal, or a connection that was not emitted, is destroyed
    | Emit(i: nat)
    | HandleStep(i: nat)
    | StartInner                // internal_connection_emit
    | Complete(r: R)            // the inner signal calls set_value, set_error or set_null
    | InnerStep

  function Init<R>(): State<R> {
    State(Empty, map[], 1, None, true, [], None, Idle, 0, 0, [])
  }

  function HeadOf(w: Word): Option<nat> {
    match w
    case List(cb) => Some(cb)
    case _ => None
  }

  // ---------- steps ----------

  function Decref<R>(s: State<R>, diff: nat): State<R> {
    s.(refcount := s.refcount - diff, deleted := if s.refcount == diff then s.deleted + 1 else s.deleted)
  }

  function To<R>(s: State<R>, i: nat, h: Handle): State<R>
    requires i < |s.handles|
  {
    s.(handles := s.handles[i := h])
  }

  predicate Acting(h: Handle) {
    h.First? || h.Linking? || h.Pushing? || h.Serving? || h.Dropping?
  }

  predicate Enabled<R>(s: State<R>, m: Move<R>) {
    match m
    case GetSignal => s.box
    case DropBox => s.box
    case Subscribe(i) => i < |s.handles| && s.handles[i].Signal?
    case Drop(i) => i < |s.handles| && (s.handles[i].Signal? || s.handles[i].Conn?)
    case Emit(i) => i < |s.handles| && s.handles[i].Conn?
    case HandleStep(i) => i < |s.handles| && Acting(s.handles[i])
    case StartInner => s.starter.Some?
    case Complete(_) => s.inner.Running?
    case InnerStep => s.inner.Stored? || s.inner.Walking?
  }

  /** The loop of emit after a failed CAS has seen w. */
  function Seen(w: Word): Handle {
    if w.Result? then Serving else Linking(w)
  }

  function Deliver<R>(received: seq<seq<R>>, i: nat, r: Option<R>): seq<seq<R>> {
    if i < |received| && r.Some? then received[i := received[i] + [r.value]] else received
  }

  /** share_storage_base::emit, one access at a time; callback i is node i of the list. */
  function HandleStepOf<R>(s: State<R>, i: nat): State<R>
    requires i < |s.handles|
  {
    match s.handles[i]
    case First =>
      if s.word == Empty then To(s, i, Pushed).(word := List(i), starter := Some(i)) else To(s, i, Seen(s.word))
    case Linking(seen) => To(s, i, Pushing(seen)).(next := s.next[i := HeadOf(seen)])
    case Pushing(seen) =>
      if s.word == seen then To(s, i, Pushed).(word := List(i)) else To(s, i, Seen(s.word))
    case Serving => To(s, i, Dropping).(received := Deliver(s.received, i, s.result))
    case Dropping => Decref(To(s, i, Served), 1)
    case _ => s
  }

  function ServeAll(hs: seq<Handle>): (r: seq<Handle>)
    ensures |r| == |hs|
    ensures forall i :: 0 <= i < |hs| ==> r[i] == if hs[i].Pushed? then Served else hs[i]
  {
    if hs == [] then [] else [if hs[0].Pushed? then Served else hs[0]] + ServeAll(hs[1..])
  }

  /** set_result after the result is stored: exchange the word, run the callbacks, decref once
      for all of them. */
  ghost function InnerStepOf<R>(s: State<R>): State<R> {
    match s.inner
    case Stored =>
      s.(word := Result,
         inner := if s.word.List? then Walking(Follow(s.next, HeadOf(s.word)), 0) else Broken)
    case Walking(rest, count) =>
      if rest != [] then
        s.(received := Deliver(s.received, rest[0], s.result), inner := Walking(rest[1..], count + 1))
      else
        Decref(s.(handles := ServeAll(s.handles), inner := Over), count)
    case _ => s
  }

  ghost function Step<R>(s: State<R>, m: Move<R>): State<R>
    requires Enabled(s, m)
  {
    match m
    case GetSignal =>
      s.(handles := s.handles + [Signal], received := s.received + [[]], refcount := s.refcount + 1,
         next := s.next[|s.handles| := None])
    case DropBox => Decref(s.(box := false), 1)
    case Subscribe(i) => To(s, i, Conn)
    case Drop(i) => Decref(To(s, i, Gone), 1)
    case Emit(i) => To(s, i, First)
    case HandleStep(i) => HandleStepOf(s, i)
    case StartInner => s.(starter := None, inner := Running, inners := s.inners + 1)
    case Complete(r) => s.(result := Some(r), inner := Stored)
    case InnerStep => InnerStepOf(s)
  }

  // ---------- counting references ----------

  predicate Holds(h: Handle) {
    !h.Served? && !h.Gone?
  }

  function Holders(hs: seq<Handle>): nat {
    if hs == [] then 0 else (if Holds(hs[0]) then 1 else 0) + Holders(hs[1..])
  }

  function Waiting(hs: seq<Handle>): nat {
    if hs == [] then 0 else (if hs[0].Pushed? then 1 else 0) + Waiting(hs[1..])
  }

  lemma {:induction false} CountUpdate(hs: seq<Handle>, i: nat, h: Handle)
    requires i < |hs|
    ensures Holders(hs[i := h]) == Holders(hs) - One(Holds(hs[i])) + One(Holds(h))
    ensures Waiting(hs[i := h]) == Waiting(hs) - One(hs[i].Pushed?) + One(h.Pushed?)
  {
    if i == 0 {
      assert hs[i := h][1..] == hs[1..];
    } else {
      assert hs[i := h][1..] == hs[1..][i - 1 := h];
      CountUpdate(hs[1..], i - 1, h);
    }
  }

  lemma {:induction false} CountAppend(hs: seq<Handle>, h: Handle)
    ensures Holders(hs + [h]) == Holders(hs) + One(Holds(h))
    ensures Waiting(hs + [h]) == Waiting(hs) + One(h.Pushed?)
  {
    if hs == [] {
      assert hs + [h] == [h];
    } else {
      assert (hs + [h])[1..] == hs[1..] + [h];
      CountAppend(hs[1..], h);
    }
  }

  lemma {:induction false} CountServed(hs: seq<Handle>)
    ensures Holders(ServeAll(hs)) == Holders(hs) - Waiting(hs) && Waiting(ServeAll(hs)) == 0
  {
    if hs != [] {
      assert ServeAll(hs)[1..] == ServeAll(hs[1..]);
      CountServed(hs[1..]);
    }
  }

  lemma {:induction false} CountBounds(hs: seq<Handle>)
    ensures Waiting(hs) <= Holders(hs)
    ensures Holders(hs) == 0 <==> forall i :: 0 <= i < |hs| ==> !Holds(hs[i])
    ensures Waiting(hs) == 0 <==> forall i :: 0 <= i < |hs| ==> !hs[i].Pushed?
  {
    if hs != [] {
      CountBounds(hs[1..]);
      assert forall i :: 0 < i < |hs| ==> hs[i] == hs[1..][i - 1];
      assert forall i :: 0 <= i < |hs[1..]| ==> hs[1..][i] == hs[i + 1];
    }
  }

  // ---------- invariant ----------

  /** The callbacks waiting to be run, newest first. */
  ghost function Chain<R>(s: State<R>): seq<nat> {
    if s.inner.Walking? then s.inner.rest else Follow(s.next, HeadOf(s.word))
  }

  /** How many callbacks set_result has run so far. */
  function Ran(inner: Inner): nat {
    if inner.Walking? then inner.count else 0
  }

  ghost predicate ListOk<R>(s: State<R>) {
    && Linked(s.next, HeadOf(s.word), Follow(s.next, HeadOf(s.word)))
    && NoRepeats(Chain(s))
    && |Chain(s)| + Ran(s.inner) == Waiting(s.handles)
    && (forall x :: x in Chain(s) ==> x < |s.handles| && s.handles[x].Pushed?)
    && (!s.inner.Walking? ==> forall i :: 0 <= i < |s.handles| && s.handles[i].Pushed? ==> i in Chain(s))
  }

  ghost predicate InnerOk<R>(s: State<R>) {
    && !s.inner.Broken?
    && (s.word.Empty? ==> s.inner.Idle? && s.starter == None)
    && (s.word.List? ==> s.inner.Idle? || s.inner.Running? || s.inner.Stored?)
    && (s.word.Result? ==> s.inner.Walking? || s.inner.Over?)
    && (s.inner.Idle? ==> s.inners == 0 && (s.word.List? <==> s.starter.Some?))
    && (!s.inner.Idle? ==> s.inners == 1 && s.starter == None)
    && (s.result.Some? <==> s.inner.Stored? || s.inner.Walking? || s.inner.Over?)
    && (s.inner.Over? ==> Waiting(s.handles) == 0)
    && (s.word.List? || s.inner.Walking? ==> Waiting(s.handles) > 0)
  }

  /** Callback i has been run. */
  predicate Answered<R>(s: State<R>, i: nat)
    requires i < |s.handles|
  {
    var h := s.handles[i];
    h.Dropping? || h.Served? || (h.Pushed? && s.inner.Walking? && i !in s.inner.rest)
  }

  ghost predicate HandleOk<R>(s: State<R>, i: nat)
    requires i < |s.handles| == |s.received|
  {
    var h, got := s.handles[i], s.received[i];
    && i in s.next
    && ((h.Signal? || h.Conn? || h.First?) ==> s.next[i] == None)
    && (h.Linking? || h.Pushing? ==> h.seen.List? && !s.word.Empty?)
    && (h.Pushing? ==> s.next[i] == HeadOf(h.seen))
    && (h.Serving? || h.Dropping? ==> s.word.Result?)
    && (h.Served? ==> s.inner.Over? || s.word.Result?)
    && got == (if Answered(s, i) && s.result.Some? then [s.result.value] else [])
  }

  ghost predicate RefsOk<R>(s: State<R>) {
    && s.refcount == One(s.box) + Holders(s.handles)
    && s.deleted == One(s.refcount == 0)
  }

  ghost predicate Inv<R>(s: State<R>) {
    && |s.received| == |s.handles|
    && InnerOk(s)
    && ListOk(s)
    && (forall i :: 0 <= i < |s.handles| ==> HandleOk(s, i))
    && RefsOk(s)
  }

  lemma InitInv<R>()
    ensures Inv(Init<R>())
  {
    FollowNone(map[]);
  }

  // ---------- the invariant is kept ----------

  /** A step of one subscriber that touches neither the list nor the inner connection. */
  lemma HandleMoves<R>(s: State<R>, s': State<R>, i: nat)
    requires Inv(s) && i < |s.handles|
    requires |s'.handles| == |s.handles| && s'.handles == s.handles[i := s'.handles[i]]
    requires !s.handles[i].Pushed? && !s'.handles[i].Pushed?
    requires s' == s.(handles := s'.handles, received := s'.received, refcount := s'.refcount, deleted := s'.deleted)
    requires |s'.received| == |s.received| && s'.received == s.received[i := s'.received[i]]
    requires HandleOk(s', i) && Holds(s.handles[i])
    requires s'.refcount == s.refcount - One(Holds(s.handles[i])) + One(Holds(s'.handles[i]))
    requires s'.deleted == s.deleted + One(s.refcount != 0 && s'.refcount == 0)
    ensures Inv(s')
  {
    CountUpdate(s.handles, i, s'.handles[i]);
    CountBounds(s.handles);
    assert Chain(s') == Chain(s);
    forall j | 0 <= j < |s'.handles| ensures HandleOk(s', j) { assert HandleOk(s, j); }
  }

  lemma GetSignalInv<R>(s: State<R>)
    requires Inv(s) && s.box
    ensures Inv(Step(s, GetSignal))
  {
    var s', n := Step(s, GetSignal), |s.handles|;
    CountAppend(s.handles, Signal);
    OutsideList(s, n, None);
    assert Chain(s') == Chain(s);
    forall j | 0 <= j < |s'.handles| ensures HandleOk(s', j) { if j < n { assert HandleOk(s, j); } }
  }

  lemma DropBoxInv<R>(s: State<R>)
    requires Inv(s) && s.box
    ensures Inv(Step(s, DropBox))
  {
    var s' := Step(s, DropBox);
    assert Chain(s') == Chain(s);
    forall j | 0 <= j < |s'.handles| ensures HandleOk(s', j) { assert HandleOk(s, j); }
  }

  ghost predicate Lists<R>(s: State<R>, i: nat) {
    && Inv(s) && i < |s.handles|
    && ((s.handles[i].First? && s.word.Empty?) || (s.handles[i].Pushing? && s.word == s.handles[i].seen))
  }

  lemma PushList<R>(s: State<R>, i: nat)
    requires Lists(s, i)
    ensures ListOk(HandleStepOf(s, i)) && Chain(HandleStepOf(s, i)) == [i] + Chain(s)
  {
    var s' := HandleStepOf(s, i);
    assert HandleOk(s, i);
    LinkedPush(s.next, HeadOf(s.word), i);
    CountUpdate(s.handles, i, Pushed);
    assert i !in Chain(s);
    assert forall k :: 0 < k < |Chain(s')| ==> Chain(s')[k] == Chain(s)[k - 1];
  }

  /** The CAS of emit succeeds: the callback is the new head, in front of what it saw. */
  lemma PushInv<R>(s: State<R>, i: nat)
    requires Lists(s, i)
    ensures Inv(HandleStepOf(s, i))
  {
    var s' := HandleStepOf(s, i);
    PushList(s, i);
    CountUpdate(s.handles, i, Pushed);
    forall j | 0 <= j < |s'.handles| ensures HandleOk(s', j) { assert HandleOk(s, j) && HandleOk(s, i); }
  }

  /** A node outside the list may be written to. */
  lemma OutsideList<R>(s: State<R>, i: nat, v: Option<nat>)
    requires Inv(s) && (i < |s.handles| ==> !s.handles[i].Pushed?)
    ensures Linked(s.next[i := v], HeadOf(s.word), Follow(s.next[i := v], HeadOf(s.word)))
    ensures Follow(s.next[i := v], HeadOf(s.word)) == Follow(s.next, HeadOf(s.word))
  {
    if s.inner.Walking? { FollowNone(s.next); } else { assert Follow(s.next, HeadOf(s.word)) == Chain(s); }
    FollowFrame(s.next, HeadOf(s.word), i, v);
  }

  lemma LinkList<R>(s: State<R>, i: nat)
    requires Inv(s) && i < |s.handles| && s.handles[i].Linking?
    ensures var s' := HandleStepOf(s, i); ListOk(s') && InnerOk(s') && RefsOk(s')
  {
    CountUpdate(s.handles, i, HandleStepOf(s, i).handles[i]);
    OutsideList(s, i, HeadOf(s.handles[i].seen));
    assert Chain(HandleStepOf(s, i)) == Chain(s);
  }

  lemma LinkInv<R>(s: State<R>, i: nat)
    requires Inv(s) && i < |s.handles| && s.handles[i].Linking?
    ensures Inv(HandleStepOf(s, i))
  {
    LinkList(s, i);
    assert HandleOk(s, i);
    forall j | 0 <= j < |s.handles| ensures HandleOk(HandleStepOf(s, i), j) { assert HandleOk(s, j); }
  }

  /** emit finds another word than it expected. */
  lemma MissInv<R>(s: State<R>, i: nat)
    requires Inv(s) && i < |s.handles| && (s.handles[i].First? || s.handles[i].Pushing?) && !Lists(s, i)
    ensures Inv(HandleStepOf(s, i))
  {
    assert HandleOk(s, i);
    PositiveRefs(s, i);
    HandleMoves(s, HandleStepOf(s, i), i);
  }

  /** emit runs its callback with the result, or gives its reference back. */
  lemma ServeInv<R>(s: State<R>, i: nat)
    requires Inv(s) && i < |s.handles| && (s.handles[i].Serving? || s.handles[i].Dropping?)
    ensures Inv(HandleStepOf(s, i))
  {
    assert HandleOk(s, i);
    PositiveRefs(s, i);
    HandleMoves(s, HandleStepOf(s, i), i);
  }

  /** While a subscriber holds a reference the storage is there. */
  lemma PositiveRefs<R>(s: State<R>, i: nat)
    requires Inv(s) && i < |s.handles| && Holds(s.handles[i])
    ensures s.refcount > 0 && s.deleted == 0
  {
    CountBounds(s.handles);
  }

  lemma HandleStepInv<R>(s: State<R>, i: nat)
    requires Inv(s) && Enabled(s, HandleStep(i))
    ensures Inv(HandleStepOf(s, i))
  {
    if Lists(s, i) { PushInv(s, i); }
    else if s.handles[i].Linking? { LinkInv(s, i); }
    else if s.handles[i].Serving? || s.handles[i].Dropping? { ServeInv(s, i); }
    else { MissInv(s, i); }
  }

  /** Subscribing, emitting or destroying what has not been emitted yet. */
  lemma OwnerStepInv<R>(s: State<R>, m: Move<R>)
    requires Inv(s) && Enabled(s, m) && (m.Subscribe? || m.Drop? || m.Emit?)
    ensures Inv(Step(s, m))
  {
    assert HandleOk(s, m.i);
    PositiveRefs(s, m.i);
    HandleMoves(s, Step(s, m), m.i);
  }

  lemma StartInv<R>(s: State<R>)
    requires Inv(s) && s.starter.Some?
    ensures Inv(Step(s, StartInner))
  {
    var s' := Step(s, StartInner);
    assert Chain(s') == Chain(s);
    forall j | 0 <= j < |s'.handles| ensures HandleOk(s', j) { assert HandleOk(s, j); }
  }

  lemma CompleteInv<R>(s: State<R>, r: R)
    requires Inv(s) && s.inner.Running?
    ensures Inv(Step(s, Complete(r)))
  {
    var s' := Step(s, Complete(r));
    assert Chain(s') == Chain(s);
    forall j | 0 <= j < |s'.handles| ensures HandleOk(s', j) { assert HandleOk(s, j); }
  }

  /** set_result takes the list; from now on emit finds the result. */
  lemma ExchangeInv<R>(s: State<R>)
    requires Inv(s) && s.inner.Stored?
    ensures Inv(InnerStepOf(s)) && s.word.List?
  {
    var s' := InnerStepOf(s);
    FollowNone(s.next);
    assert Chain(s') == Chain(s);
    forall j | 0 <= j < |s'.handles| ensures HandleOk(s', j) { assert HandleOk(s, j); }
  }

  lemma WalkInv<R>(s: State<R>)
    requires Inv(s) && s.inner.Walking? && s.inner.rest != []
    ensures Inv(InnerStepOf(s))
  {
    var s', rest := InnerStepOf(s), s.inner.rest;
    assert Chain(s) == rest && Chain(s') == rest[1..];
    forall x | x in rest[1..] ensures x < |s.handles| && s.handles[x].Pushed? && x != rest[0] {
      var k :| 0 <= k < |rest[1..]| && rest[1..][k] == x;
      assert rest[k + 1] == x && x in Chain(s);
    }
    assert rest[0] in rest && forall k :: 0 <= k < |rest[1..]| ==> rest[1..][k] == rest[k + 1];
    forall j | 0 <= j < |s'.handles| ensures HandleOk(s', j) {
      assert HandleOk(s, j);
      assert j in rest <==> j == rest[0] || j in rest[1..];
    }
  }

  lemma FinishRefs<R>(s: State<R>)
    requires Inv(s) && s.inner.Walking? && s.inner.rest == []
    ensures RefsOk(InnerStepOf(s)) && Waiting(InnerStepOf(s).handles) == 0
  {
    CountServed(s.handles);
    CountBounds(s.handles);
  }

  /** The one decref at the end of set_result gives back every reference its callbacks held. */
  lemma FinishInv<R>(s: State<R>)
    requires Inv(s) && s.inner.Walking? && s.inner.rest == []
    ensures Inv(InnerStepOf(s))
  {
    var s' := InnerStepOf(s);
    FinishRefs(s);
    CountBounds(s'.handles);
    FollowNone(s.next);
    assert Chain(s') == [];
    forall j | 0 <= j < |s'.handles| ensures HandleOk(s', j) { assert HandleOk(s, j); }
  }

  lemma StepInv<R>(s: State<R>, m: Move<R>)
    requires Inv(s) && Enabled(s, m)
    ensures Inv(Step(s, m))
  {
    match m
    case GetSignal => GetSignalInv(s);
    case DropBox => DropBoxInv(s);
    case Subscribe(_) => OwnerStepInv(s, m);
    case Drop(_) => OwnerStepInv(s, m);
    case Emit(_) => OwnerStepInv(s, m);
    case HandleStep(i) => HandleStepInv(s, i);
    case StartInner => StartInv(s);
    case Complete(r) => CompleteInv(s, r);
    case InnerStep =>
      if s.inner.Stored? { ExchangeInv(s); } else if s.inner.rest != [] { WalkInv(s); } else { FinishInv(s); }
  }

  // ---------- runs ----------

  ghost predicate Run<R>(states: seq<State<R>>, moves: seq<Move<R>>) {
    && |states| == |moves| + 1
    && states[0] == Init()
    && forall i :: 0 <= i < |moves| ==> Enabled(states[i], moves[i]) && states[i + 1] == Step(states[i], moves[i])
  }

  lemma {:induction false} RunInv<R>(states: seq<State<R>>, moves: seq<Move<R>>, i: nat)
    requires Run(states, moves) && i < |states|
    ensures Inv(states[i])
  {
    if i == 0 {
      InitInv<R>();
    } else {
      RunInv(states, moves, i - 1);
      assert states[i - 1 + 1] == Step(states[i - 1], moves[i - 1]);
      StepInv(states[i - 1], moves[i - 1]);
    }
  }

  /** The inner connection is emitted at most once, and exactly once when a subscriber's emit
      has put its callback anywhere and internal_connection_emit is not still to come. */
  lemma InnerEmittedOnce<R>(s: State<R>, i: nat)
    requires Inv(s) && i < |s.handles|
    ensures s.inners <= 1
    ensures s.handles[i].Pushed? || s.handles[i].Served? ==> s.inners == 1 || s.starter.Some?
  {
    assert HandleOk(s, i);
  }

  /** Each callback is run at most once and with the one result; once nothing is left to happen
      every emitted callback has been run. */
  lemma AnsweredOnce<R>(s: State<R>, i: nat)
    requires Inv(s) && i < |s.handles|
    ensures |s.received[i]| <= 1
    ensures s.received[i] != [] ==> s.result == Some(s.received[i][0])
    ensures s.handles[i].Served? ==> s.result.Some? && s.received[i] == [s.result.value]
    ensures s.inner.Over? ==> !s.handles[i].Pushed?
  {
    assert HandleOk(s, i);
    CountBounds(s.handles);
  }

  /** The result never changes once it is stored. */
  lemma ResultFixed<R>(s: State<R>, m: Move<R>)
    requires InnerOk(s) && Enabled(s, m) && s.result.Some?
    ensures Step(s, m).result == s.result
  {
  }

  /** The count is the box, plus the signals and unemitted connections, plus the emitted callbacks
      not yet given back; storage is freed exactly when that is nothing, and then no step is left. */
  lemma FreedOnceAndLast<R>(s: State<R>, m: Move<R>)
    requires Inv(s)
    ensures s.refcount == One(s.box) + Holders(s.handles)
    ensures s.deleted <= 1
    ensures s.deleted == 1 <==> !s.box && forall i :: 0 <= i < |s.handles| ==> !Holds(s.handles[i])
    ensures s.deleted == 1 ==> !Enabled(s, m)
  {
    CountBounds(s.handles);
  }

  /** All of it, at every moment of every run. */
  lemma SharePromise<R>(states: seq<State<R>>, moves: seq<Move<R>>, k: nat, i: nat, m: Move<R>)
    requires Run(states, moves) && k < |states| && i < |states[k].handles|
    ensures var s := states[k];
      && s.inners <= 1
      && (s.handles[i].Pushed? || s.handles[i].Served? ==> s.inners == 1 || s.starter.Some?)
      && i < |s.received| && |s.received[i]| <= 1
      && (s.received[i] != [] ==> s.result == Some(s.received[i][0]))
      && (s.handles[i].Served? ==> s.received[i] != [])
      && (s.inner.Over? ==> !s.handles[i].Pushed?)
      && s.refcount == One(s.box) + Holders(s.handles) && s.deleted <= 1
      && (s.deleted == 1 ==> !Enabled(s, m))
      && (s.deleted == 1 <==> !s.box && forall j :: 0 <= j < |s.handles| ==> !Holds(s.handles[j]))
  {
    RunInv(states, moves, k);
    InnerEmittedOnce(states[k], i);
    AnsweredOnce(states[k], i);
    FreedOnceAndLast(states[k], m);
  }
}
