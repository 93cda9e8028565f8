/** read_immutables against create_new on one descriptor slot, copied field by field.

  The owner rewrites the slot any number of times, helpers change the mutable part of the
  state word, and any number of readers copy the fields in between. The fields are read and
  written one at a time, so a copy can mix two creations; the two version checks reject it. */
module Seqlock {
  type Fields = seq<int>

  /** The owner between calls of create_new, or inside one with i fields already written. */
  datatype Owner = Resting | Writing(values: Fields, i: nat)

  /** A reader holding a pointer with sequence number ver. */
  datatype Reader =
    | Start(ver: nat)
    | Copying(ver: nat, copy: Fields)
    | Got(ver: nat, copy: Fields)
    | Bottom(ver: nat)

  /** "published" remembers what each finished creation was given; the code has no such record. */
  datatype State = State(ver: nat, mutables: int, fields: Fields, owner: Owner,
                         readers: seq<Reader>, published: map<nat, Fields>)

  datatype Move =
    | Create(values: Fields)
    | Write
    | Publish(mutables: int)
    | Mutate(ver: nat, mutables: int)
    | Arrive(ver: nat)
    | ReadOn(r: nat)

  function Init(width: nat): State {
    State(0, 0, seq(width, _ => 0), Resting, [], map[])
  }

  /** One access of read_immutables: check the version, copy the next field, check again. */
  function ReadStep(s: State, r: Reader): Reader {
    match r
    case Start(ver) => if s.ver == ver then Copying(ver, []) else Bottom(ver)
    case Copying(ver, copy) =>
      if |copy| < |s.fields| then Copying(ver, copy + [s.fields[|copy|]])
      else if s.ver == ver then Got(ver, copy)
      else Bottom(ver)
    case Got(_, _) => r
    case Bottom(_) => r
  }

  predicate Enabled(s: State, m: Move) {
    match m
    case Create(values) => s.owner.Resting? && |values| == |s.fields|
    case Write => s.owner.Writing? && s.owner.i < |s.fields| == |s.owner.values|
    case Publish(_) => s.owner.Writing? && s.owner.i == |s.fields|
    case Mutate(_, _) => true
    case Arrive(ver) => ver in s.published
    case ReadOn(r) => r < |s.readers|
  }

  /** create_new's stores, a CAS on the mutable part, or one access of a reader. */
  function Step(s: State, m: Move): State
    requires Enabled(s, m)
  {
    match m
    case Create(values) => s.(ver := s.ver + 1, owner := Writing(values, 0))
    case Write => s.(fields := s.fields[s.owner.i := s.owner.values[s.owner.i]], owner := s.owner.(i := s.owner.i + 1))
    case Publish(mutables) =>
      s.(ver := s.ver + 1, mutables := mutables, owner := Resting,
         published := s.published[s.ver + 1 := s.owner.values])
    case Mutate(ver, mutables) => if s.ver == ver then s.(mutables := mutables) else s
    case Arrive(ver) => s.(readers := s.readers + [Start(ver)])
    case ReadOn(r) => s.(readers := s.readers[r := ReadStep(s, s.readers[r])])
  }

  // ---------- invariant ----------

  ghost predicate ReaderOk(s: State, r: Reader) {
    && r.ver in s.published && r.ver <= s.ver
    && match r
       case Copying(ver, copy) =>
         && |copy| <= |s.fields|
         && (s.ver == ver ==> copy <= s.published[ver])
       case Got(ver, copy) => copy == s.published[ver]
       case _ => true
  }

  ghost predicate Inv(s: State) {
    && (forall v :: v in s.published ==> v <= s.ver && v % 2 == 0 && |s.published[v]| == |s.fields|)
    && (s.owner.Resting? <==> s.ver % 2 == 0)
    && (s.ver in s.published ==> s.fields == s.published[s.ver])
    && (s.owner.Writing? ==>
          |s.owner.values| == |s.fields| && s.owner.i <= |s.fields| && s.fields[..s.owner.i] == s.owner.values[..s.owner.i])
    && forall r :: 0 <= r < |s.readers| ==> ReaderOk(s, s.readers[r])
  }

  lemma StepInv(s: State, m: Move)
    requires Inv(s) && Enabled(s, m)
    ensures Inv(Step(s, m))
  {
    var s' := Step(s, m);
    forall r | 0 <= r < |s'.readers| ensures ReaderOk(s', s'.readers[r]) {
      if r < |s.readers| {
        assert ReaderOk(s, s.readers[r]);
      }
    }
    if m.Publish? {
      assert s.fields == s.fields[..s.owner.i] && s.owner.values == s.owner.values[..s.owner.i];
    }
  }

  // ---------- runs ----------

  /** All states of a run from an unused slot. */
  ghost predicate Run(width: nat, states: seq<State>, moves: seq<Move>) {
    && |states| == |moves| + 1
    && states[0] == Init(width)
    && forall i :: 0 <= i < |moves| ==> Enabled(states[i], moves[i]) && states[i + 1] == Step(states[i], moves[i])
  }

  lemma {:induction false} RunInv(width: nat, states: seq<State>, moves: seq<Move>, i: nat)
    requires Run(width, states, moves) && i < |states|
    ensures Inv(states[i])
  {
    if i > 0 {
      RunInv(width, states, moves, i - 1);
      assert states[i - 1 + 1] == Step(states[i - 1], moves[i - 1]);
      StepInv(states[i - 1], moves[i - 1]);
    }
  }

  /** What create_new was called with, call by call. */
  function Created(moves: seq<Move>): seq<Fields> {
    if moves == [] then []
    else
      var m := moves[|moves| - 1];
      Created(moves[..|moves| - 1]) + if m.Create? then [m.values] else []
  }

  /** The slot holds what the calls so far were given: call c makes version 2 * c + 2. */
  ghost predicate AsCreated(s: State, created: seq<Fields>) {
    && |created| == (s.ver + 1) / 2
    && (s.owner.Resting? <==> s.ver % 2 == 0)
    && (s.owner.Writing? ==> s.owner.values == created[|created| - 1])
    && (forall v :: v in s.published <==> 2 <= v <= s.ver && v % 2 == 0)
    && (forall v :: v in s.published ==> s.published[v] == created[v / 2 - 1])
  }

  lemma StepCreated(s: State, m: Move, created: seq<Fields>)
    requires Enabled(s, m) && AsCreated(s, created)
    ensures AsCreated(Step(s, m), created + if m.Create? then [m.values] else [])
  {
    if m.Publish? { assert |created| == s.ver / 2 + 1; }
  }

  lemma {:induction false} RunCreated(width: nat, states: seq<State>, moves: seq<Move>, i: nat)
    requires Run(width, states, moves) && i < |states|
    ensures AsCreated(states[i], Created(moves[..i]))
  {
    if i > 0 {
      RunCreated(width, states, moves, i - 1);
      assert states[i - 1 + 1] == Step(states[i - 1], moves[i - 1]);
      StepCreated(states[i - 1], moves[i - 1], Created(moves[..i - 1]));
      assert moves[..i][..i - 1] == moves[..i - 1];
    }
  }

  /** A read never mixes two creations: it gives bottom, or exactly the fields that create_new was
      given by the call whose pointer the reader holds. */
  lemma NeverMixed(width: nat, states: seq<State>, moves: seq<Move>, i: nat, r: nat)
    requires Run(width, states, moves) && i < |states| && r < |states[i].readers|
    requires states[i].readers[r].Got?
    ensures var g, created := states[i].readers[r], Created(moves[..i]);
      2 <= g.ver && g.ver / 2 - 1 < |created| && g.copy == created[g.ver / 2 - 1]
  {
    RunInv(width, states, moves, i);
    RunCreated(width, states, moves, i);
    assert ReaderOk(states[i], states[i].readers[r]);
  }

  /** A read that succeeds can be taken as one atomic read at its last access: at that moment the
      slot still has the version asked for, and the copy is what the slot holds. */
  lemma ReadIsAtomic(s: State, r: nat)
    requires Inv(s) && r < |s.readers| && !s.readers[r].Got? && Step(s, ReadOn(r)).readers[r].Got?
    ensures s.ver == s.readers[r].ver && Step(s, ReadOn(r)).readers[r].copy == s.fields
  {
    assert ReaderOk(s, s.readers[r]);
  }

  /** A read that gives bottom does so because its creation is over: the version has moved on for good. */
  lemma BottomIsStale(s: State, r: nat)
    requires Inv(s) && r < |s.readers| && !s.readers[r].Bottom? && Step(s, ReadOn(r)).readers[r].Bottom?
    ensures s.readers[r].ver < s.ver
  {
    assert ReaderOk(s, s.readers[r]);
  }

  /** What was published under a version is never changed, nor is a version published twice. */
  lemma PublishedOnce(s: State, m: Move, v: nat)
    requires Inv(s) && Enabled(s, m) && v in s.published
    ensures v in Step(s, m).published && Step(s, m).published[v] == s.published[v]
  {
    assert v % 2 == 0 && v <= s.ver;
  }

  function ReadLeft(s: State, r: Reader): nat {
    match r
    case Start(_) => |s.fields| + 2
    case Copying(_, copy) => if |copy| <= |s.fields| then |s.fields| - |copy| + 1 else 1
    case _ => 0
  }

  /** A read ends after at most as many accesses as there are fields, and two: no writer can make it
      start again. */
  lemma ReadEnds(s: State, m: Move, r: nat)
    requires Inv(s) && Enabled(s, m) && r < |s.readers|
    ensures r < |Step(s, m).readers|
    ensures ReadLeft(Step(s, m), Step(s, m).readers[r]) <= ReadLeft(s, s.readers[r])
    ensures m == ReadOn(r) && ReadLeft(s, s.readers[r]) > 0 ==>
      ReadLeft(Step(s, m), Step(s, m).readers[r]) < ReadLeft(s, s.readers[r])
    ensures ReadLeft(s, s.readers[r]) == 0 <==> s.readers[r].Got? || s.readers[r].Bottom?
  {
    assert ReaderOk(s, s.readers[r]);
  }
}
