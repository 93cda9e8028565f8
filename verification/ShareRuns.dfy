/** What the subscribers and the inner signal have asked for, and that it is what they get. */
module ShareRuns {
  import opened Options
  import opened Counting
  import opened IntrusiveList
  import opened Share

  // ---------- what was asked ----------

  predicate IsEmit<R>(m: Move<R>, i: nat) {
    m.Emit? && m.i == i
  }

  predicate IsDrop<R>(m: Move<R>, i: nat) {
    m.Drop? && m.i == i
  }

  ghost predicate Emitted<R>(moves: seq<Move<R>>, i: nat, k: nat) {
    exists l :: 0 <= l < k && l < |moves| && IsEmit(moves[l], i)
  }

  ghost predicate Dropped<R>(moves: seq<Move<R>>, i: nat, k: nat) {
    exists l :: 0 <= l < k && l < |moves| && IsDrop(moves[l], i)
  }

  /** How many signals were asked for. */
  function Signals<R>(moves: seq<Move<R>>): nat {
    if moves == [] then 0 else Signals(moves[..|moves| - 1]) + One(moves[|moves| - 1].GetSignal?)
  }

  /** What the inner signal was completed with. */
  function Completed<R>(moves: seq<Move<R>>): Option<R> {
    if moves == [] then None
    else if moves[|moves| - 1].Complete? then Some(moves[|moves| - 1].r)
    else Completed(moves[..|moves| - 1])
  }

  /** Signals and connections that were neither emitted nor destroyed. */
  predicate Fresh(h: Handle) {
    h.Signal? || h.Conn?
  }

  /** A handle is gone exactly when it was dropped, and past emission exactly when it was emitted. */
  ghost predicate HandleAsAsked<R>(s: State<R>, moves: seq<Move<R>>, i: nat, k: nat) {
    i < |s.handles| ==>
      && (s.handles[i].Gone? <==> Dropped(moves, i, k))
      && (!Fresh(s.handles[i]) && !s.handles[i].Gone? <==> Emitted(moves, i, k))
  }

  /** What a step does to one handle. */
  ghost predicate HandleMoved<R>(s: State<R>, m: Move<R>, s': State<R>, i: nat)
    requires i < |s.handles|
  {
    && i < |s'.handles|
    && (s'.handles[i].Gone? <==> s.handles[i].Gone? || IsDrop(m, i))
    && (!Fresh(s'.handles[i]) && !s'.handles[i].Gone? <==> (!Fresh(s.handles[i]) && !s.handles[i].Gone?) || IsEmit(m, i))
  }

  lemma HandleStepMoved<R>(s: State<R>, j: nat, i: nat)
    requires Enabled(s, HandleStep(j)) && i < |s.handles|
    ensures HandleMoved(s, HandleStep(j), HandleStepOf(s, j), i)
  {
  }

  lemma InnerStepMoved<R>(s: State<R>, i: nat)
    requires Enabled(s, InnerStep) && i < |s.handles|
    ensures HandleMoved(s, InnerStep, InnerStepOf(s), i)
  {
  }

  lemma StepMoved<R>(s: State<R>, m: Move<R>, i: nat)
    requires Enabled(s, m) && i < |s.handles|
    ensures HandleMoved(s, m, Step(s, m), i)
  {
    match m
    case HandleStep(j) => HandleStepMoved(s, j, i);
    case InnerStep => InnerStepMoved(s, i);
    case _ =>
  }

  lemma StepHandles<R>(s: State<R>, m: Move<R>)
    requires Enabled(s, m)
    ensures |Step(s, m).handles| == |s.handles| + One(m.GetSignal?)
    ensures m.GetSignal? ==> Step(s, m).handles[|s.handles|] == Signal
  {
  }

  lemma StepResult<R>(s: State<R>, m: Move<R>)
    requires Enabled(s, m)
    ensures Step(s, m).result == if m.Complete? then Some(m.r) else s.result
  {
  }

  lemma OneMore<R>(moves: seq<Move<R>>, i: nat, k: nat)
    requires 0 < k <= |moves|
    ensures Emitted(moves, i, k) <==> Emitted(moves, i, k - 1) || IsEmit(moves[k - 1], i)
    ensures Dropped(moves, i, k) <==> Dropped(moves, i, k - 1) || IsDrop(moves[k - 1], i)
  {
  }

  lemma RunStep<R>(states: seq<State<R>>, moves: seq<Move<R>>, k: nat)
    requires Run(states, moves) && k < |moves|
    ensures Enabled(states[k], moves[k]) && states[k + 1] == Step(states[k], moves[k])
  {
  }

  /** No signal is made up, and the result is what the inner signal was completed with. */
  lemma {:induction false} CountsAsAsked<R>(states: seq<State<R>>, moves: seq<Move<R>>, k: nat)
    requires Run(states, moves) && k < |states|
    ensures |states[k].handles| == Signals(moves[..k]) && states[k].result == Completed(moves[..k])
  {
    if k > 0 {
      CountsAsAsked(states, moves, k - 1);
      RunStep(states, moves, k - 1);
      StepHandles(states[k - 1], moves[k - 1]);
      StepResult(states[k - 1], moves[k - 1]);
      assert moves[..k][..k - 1] == moves[..k - 1];
    }
  }

  /** Nothing happens to a subscriber that does not exist yet. */
  lemma {:induction false} NotYet<R>(states: seq<State<R>>, moves: seq<Move<R>>, k: nat, i: nat)
    requires Run(states, moves) && k < |states| && i >= |states[k].handles|
    ensures !Emitted(moves, i, k) && !Dropped(moves, i, k)
  {
    if k > 0 {
      RunStep(states, moves, k - 1);
      StepHandles(states[k - 1], moves[k - 1]);
      NotYet(states, moves, k - 1, i);
      OneMore(moves, i, k);
    }
  }

  /** In every run a subscriber that was emitted is never lost: only dropping makes it gone. */
  lemma {:induction false} AsAsked<R>(states: seq<State<R>>, moves: seq<Move<R>>, k: nat, i: nat)
    requires Run(states, moves) && k < |states|
    ensures HandleAsAsked(states[k], moves, i, k)
  {
    if k > 0 {
      AsAsked(states, moves, k - 1, i);
      RunStep(states, moves, k - 1);
      OneMore(moves, i, k);
      StepHandles(states[k - 1], moves[k - 1]);
      if i < |states[k - 1].handles| { StepMoved(states[k - 1], moves[k - 1], i); } else { NotYet(states, moves, k - 1, i); }
    }
  }

  // ---------- everybody who emitted is answered ----------

  lemma OverAnswers<R>(s: State<R>, i: nat)
    requires Inv(s) && s.inner.Over? && i < |s.handles| && !Fresh(s.handles[i]) && !s.handles[i].Gone? && !Acting(s.handles[i])
    ensures s.result.Some? && s.received[i] == [s.result.value]
  {
    AnsweredOnce(s, i);
  }

  /** Once the inner connection is through and the subscriber's own emit has returned, it has been
      given exactly what the inner signal was completed with, exactly once. */
  lemma EmittedIsAnswered<R>(states: seq<State<R>>, moves: seq<Move<R>>, k: nat, i: nat)
    requires Run(states, moves) && k < |states| && Emitted(moves, i, k)
    requires states[k].inner.Over? && !Enabled(states[k], HandleStep(i))
    ensures i < |states[k].handles| && i < |states[k].received|
    ensures Completed(moves[..k]).Some? && states[k].received[i] == [Completed(moves[..k]).value]
  {
    RunInv(states, moves, k);
    if i >= |states[k].handles| { NotYet(states, moves, k, i); }
    AsAsked(states, moves, k, i);
    CountsAsAsked(states, moves, k);
    OverAnswers(states[k], i);
  }

  /** The moves that are not a subscriber's or the owner's decision. */
  predicate Internal<R>(m: Move<R>) {
    m.HandleStep? || m.StartInner? || m.Complete? || m.InnerStep?
  }

  lemma QuietOver<R>(s: State<R>, i: nat)
    requires Inv(s) && !s.inner.Running? && (forall m :: Enabled(s, m) ==> !Internal(m))
    requires i < |s.handles| && !Fresh(s.handles[i]) && !s.handles[i].Gone?
    ensures s.inner.Over? && !Acting(s.handles[i])
  {
    assert !Enabled(s, HandleStep(i)) && !Enabled(s, StartInner) && !Enabled(s, InnerStep);
    assert HandleOk(s, i);
  }

  /** When nothing is left to happen, and the inner signal is not outstanding, everybody who has
      emitted has been answered. */
  lemma AllAnswered<R>(states: seq<State<R>>, moves: seq<Move<R>>, k: nat, i: nat)
    requires Run(states, moves) && k < |states| && Emitted(moves, i, k)
    requires !states[k].inner.Running? && forall m :: Enabled(states[k], m) ==> !Internal(m)
    ensures i < |states[k].received| && Completed(moves[..k]).Some?
    ensures states[k].received[i] == [Completed(moves[..k]).value]
  {
    RunInv(states, moves, k);
    if i >= |states[k].handles| { NotYet(states, moves, k, i); }
    AsAsked(states, moves, k, i);
    QuietOver(states[k], i);
    EmittedIsAnswered(states, moves, k, i);
  }

  // ---------- and it comes to that ----------

  /** The word has changed since the subscriber looked at it. */
  predicate Outdated(h: Handle, word: Word) {
    (h.Linking? || h.Pushing?) && h.seen != word
  }

  function Retries(hs: seq<Handle>, word: Word): nat {
    if hs == [] then 0 else 2 * One(Outdated(hs[0], word)) + Retries(hs[1..], word)
  }

  /** With k subscribers, a push can cost each of them two accesses. */
  function HandleLeft(h: Handle, k: nat): nat {
    match h
    case First => 2 * k + 3
    case Linking(_) => 2 * k + 2
    case Pushing(_) => 2 * k + 1
    case Serving => 2
    case Dropping => 1
    case _ => 0
  }

  function HandlesLeft(hs: seq<Handle>, k: nat): nat {
    if hs == [] then 0 else HandleLeft(hs[0], k) + HandlesLeft(hs[1..], k)
  }

  function InnerLeft(inner: Inner, k: nat): nat {
    match inner
    case Idle => 3 * k + 5
    case Running => 3 * k + 4
    case Stored => 3 * k + 3
    case Walking(rest, _) => |rest| + 1
    case Over => 0
    case Broken => 0
  }

  /** An upper bound for the internal moves that are left. */
  function Left<R>(s: State<R>): nat {
    var k := |s.handles|;
    HandlesLeft(s.handles, k) + Retries(s.handles, s.word) + InnerLeft(s.inner, k) + One(s.starter.Some?)
  }

  lemma {:induction false} LeftUpdate(hs: seq<Handle>, i: nat, h: Handle, k: nat, word: Word)
    requires i < |hs|
    ensures HandlesLeft(hs[i := h], k) == HandlesLeft(hs, k) - HandleLeft(hs[i], k) + HandleLeft(h, k)
    ensures Retries(hs[i := h], word) == Retries(hs, word) - 2 * One(Outdated(hs[i], word)) + 2 * One(Outdated(h, word))
  {
    if i == 0 {
      assert hs[i := h][1..] == hs[1..];
    } else {
      assert hs[i := h][1..] == hs[1..][i - 1 := h];
      LeftUpdate(hs[1..], i - 1, h, k, word);
    }
  }

  lemma {:induction false} RetriesBound(hs: seq<Handle>, word: Word)
    ensures Retries(hs, word) <= 2 * |hs|
  {
    if hs != [] { RetriesBound(hs[1..], word); }
  }

  lemma {:induction false} LeftServed(hs: seq<Handle>, k: nat, word: Word)
    ensures HandlesLeft(ServeAll(hs), k) == HandlesLeft(hs, k) && Retries(ServeAll(hs), word) == Retries(hs, word)
  {
    if hs != [] {
      assert ServeAll(hs)[1..] == ServeAll(hs[1..]);
      LeftServed(hs[1..], k, word);
    }
  }

  lemma {:induction false} WaitingBound(hs: seq<Handle>)
    ensures Waiting(hs) <= |hs|
  {
    if hs != [] { WaitingBound(hs[1..]); }
  }

  /** What is left of one subscriber's emit. */
  function Cost(h: Handle, word: Word, k: nat): nat {
    HandleLeft(h, k) + 2 * One(Outdated(h, word))
  }

  /** The step itself costs the subscriber more than it can cost all retries. */
  lemma OneLess<R>(s: State<R>, i: nat)
    requires InnerOk(s) && Enabled(s, HandleStep(i))
    ensures var s', k := HandleStepOf(s, i), |s.handles|;
      && |s'.handles| == k && s'.inner == s.inner
      && (s'.word == s.word ==> s'.starter == s.starter && Cost(s'.handles[i], s.word, k) < Cost(s.handles[i], s.word, k))
      && (s'.word != s.word ==>
            HandleLeft(s'.handles[i], k) + 2 * k + One(s'.starter.Some?) < HandleLeft(s.handles[i], k) + One(s.starter.Some?))
  {
    match s.handles[i]
    case First =>
    case Linking(_) =>
    case Pushing(_) =>
    case Serving =>
    case Dropping =>
  }

  lemma OneHandle<R>(s: State<R>, i: nat) returns (h: Handle)
    requires Enabled(s, HandleStep(i))
    ensures HandleStepOf(s, i).handles == s.handles[i := h] && h == HandleStepOf(s, i).handles[i]
  {
    match s.handles[i]
    case First => h := if s.word == Empty then Pushed else Seen(s.word);
    case Linking(seen) => h := Pushing(seen);
    case Pushing(seen) => h := if s.word == seen then Pushed else Seen(s.word);
    case Serving => h := Dropping;
    case Dropping => h := Served;
  }

  lemma HandleFalls<R>(s: State<R>, i: nat)
    requires Inv(s) && Enabled(s, HandleStep(i))
    ensures Left(HandleStepOf(s, i)) < Left(s)
  {
    var s' := HandleStepOf(s, i);
    var h := OneHandle(s, i);
    OneLess(s, i);
    LeftUpdate(s.handles, i, h, |s.handles|, s.word);
    if s'.word != s.word { RetriesBound(s'.handles, s'.word); }
  }

  lemma InnerFalls<R>(s: State<R>)
    requires Inv(s) && Enabled(s, InnerStep)
    ensures Left(InnerStepOf(s)) < Left(s)
  {
    var s', k := InnerStepOf(s), |s.handles|;
    if s.inner.Stored? {
      RetriesBound(s'.handles, s'.word);
      WaitingBound(s.handles);
      assert |Chain(s)| <= k;
    } else if s.inner.rest == [] {
      LeftServed(s.handles, k, s.word);
    }
  }

  /** Every internal move leaves less to do. */
  lemma StepFalls<R>(s: State<R>, m: Move<R>)
    requires Inv(s) && Enabled(s, m) && Internal(m)
    ensures Left(Step(s, m)) < Left(s)
  {
    match m
    case HandleStep(i) => HandleFalls(s, i);
    case InnerStep => InnerFalls(s);
    case StartInner =>
    case Complete(_) =>
  }

  ghost predicate AllInternal<R>(moves: seq<Move<R>>, i: nat, j: nat) {
    forall l :: i <= l < j && l < |moves| ==> Internal(moves[l])
  }

  lemma RunFalls<R>(states: seq<State<R>>, moves: seq<Move<R>>, i: nat)
    requires Run(states, moves) && i < |moves| && Internal(moves[i])
    ensures Left(states[i + 1]) < Left(states[i])
  {
    RunInv(states, moves, i);
    StepFalls(states[i], moves[i]);
  }

  /** Once no subscriber and no owner does anything any more, no more than Left accesses follow. */
  lemma {:induction false} ComesToRest<R>(states: seq<State<R>>, moves: seq<Move<R>>, i: nat, d: nat)
    requires Run(states, moves) && i + d < |states| && AllInternal(moves, i, i + d)
    ensures d + Left(states[i + d]) <= Left(states[i])
  {
    if d > 0 {
      ComesToRest(states, moves, i, d - 1);
      RunFalls(states, moves, i + d - 1);
    }
  }
}
