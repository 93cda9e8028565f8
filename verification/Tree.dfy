/** Trees of all and any: the slot of a nested connection is a case of the connection around it.

  Leaves complete once each, with any outcome and in any order, and every connection takes its
  own steps in between. A connection inside the tree moves only after it has been emitted. */
module Tree {
  import opened Options
  import opened Join

  datatype Tree = Leaf(out: Option<Outcome>) | Node(join: State, kids: seq<Tree>)

  /** A leaf's completion, or a connection's own step. Arrivals are not moves of their own:
      they happen when the nested slot is completed. */
  datatype Act = Complete(o: Outcome) | Own(m: Move)

  function RootOut(t: Tree): Option<Outcome> {
    match t
    case Leaf(out) => out
    case Node(join, _) => if join.slot == [] then None else Some(join.slot[0])
  }

  predicate OwnMove(m: Move) {
    !m.Arrive? && !m.Claim? && !m.ArriveClaimed?
  }

  predicate CanAct(t: Tree, path: seq<nat>, a: Act)
    decreases path
  {
    match t
    case Leaf(out) => path == [] && a.Complete? && out == None
    case Node(join, kids) =>
      if path == [] then a.Own? && OwnMove(a.m) && Enabled(join, a.m)
      else path[0] < |kids| == |join.cases| && path[0] in join.started && CanAct(kids[path[0]], path[1..], a)
  }

  /** Everything that follows from one act: a slot completed below arrives here at once. */
  function Perform(t: Tree, path: seq<nat>, a: Act): Tree
    requires CanAct(t, path, a)
    decreases path
  {
    match t
    case Leaf(_) => Leaf(Some(a.o))
    case Node(join, kids) =>
      if path == [] then Node(Step(join, a.m), kids)
      else
        var i := path[0];
        var kid := Perform(kids[i], path[1..], a);
        var join' := if RootOut(kids[i]) == None && RootOut(kid).Some? then ArriveOf(join, i, RootOut(kid).value)
                     else join;
        Node(join', kids[i := kid])
  }

  ghost predicate CaseIs(join: State, kids: seq<Tree>, i: nat)
    requires i < |kids| == |join.cases|
  {
    Out(join.cases[i]) == RootOut(kids[i]) && !join.cases[i].Claimed?
  }

  ghost predicate TreeInv(t: Tree) {
    match t
    case Leaf(_) => true
    case Node(join, kids) =>
      && Inv(join) && join.kind != Select
      && |kids| == |join.cases|
      && (forall i :: 0 <= i < |kids| ==> CaseIs(join, kids, i))
      && (forall i :: 0 <= i < |kids| ==> TreeInv(kids[i]))
  }

  /** A tree before anything was emitted. */
  ghost predicate Fresh(t: Tree) {
    match t
    case Leaf(out) => out == None
    case Node(join, kids) =>
      && kids != []
      && (join == Init(All, |kids|) || join == Init(Any, |kids|))
      && (forall i :: 0 <= i < |kids| ==> Fresh(kids[i]))
  }

  lemma {:induction false} FreshInv(t: Tree)
    requires Fresh(t)
    ensures TreeInv(t) && RootOut(t) == None
  {
    if t.Node? {
      InitInv(t.join.kind, |t.kids|);
      forall i | 0 <= i < |t.kids| ensures TreeInv(t.kids[i]) && CaseIs(t.join, t.kids, i) {
        FreshInv(t.kids[i]);
      }
    }
  }

  /** A connection's own step changes no case's reported outcome. */
  lemma OutsKept(s: State, m: Move)
    requires Enabled(s, m) && OwnMove(m)
    ensures |Step(s, m).cases| == |s.cases|
    ensures forall i :: 0 <= i < |s.cases| ==>
      Out(Step(s, m).cases[i]) == Out(s.cases[i]) && (!s.cases[i].Claimed? ==> !Step(s, m).cases[i].Claimed?)
  {
    if m.CaseStep? { CaseOutsKept(s, m.i); }
  }

  /** A slot that was completed stays as it is. */
  lemma SlotKept(s: State, m: Move)
    requires Inv(s) && Enabled(s, m)
    ensures Inv(Step(s, m))
    ensures s.slot != [] ==> Step(s, m).slot == s.slot
  {
    StepInv(s, m);
    AtMostOne(s);
    AtMostOne(Step(s, m));
  }

  lemma AtMostOne(s: State)
    requires Inv(s)
    ensures |s.slot| <= 1
  {
    assert WinnerOk(s);
  }

  lemma OwnInv(t: Tree, m: Move)
    requires t.Node? && TreeInv(t) && Enabled(t.join, m) && OwnMove(m)
    ensures TreeInv(Node(Step(t.join, m), t.kids))
    ensures t.join.slot != [] ==> Step(t.join, m).slot == t.join.slot
  {
    var r := Node(Step(t.join, m), t.kids);
    SlotKept(t.join, m);
    OutsKept(t.join, m);
    forall i | 0 <= i < |t.kids| ensures CaseIs(r.join, r.kids, i) { assert CaseIs(t.join, t.kids, i); }
  }

  /** A nested slot is completed: its case has been waiting for exactly this. */
  lemma ArrivalInv(t: Tree, i: nat, kid: Tree)
    requires t.Node? && TreeInv(t) && i < |t.kids| && i in t.join.started && TreeInv(kid)
    requires RootOut(t.kids[i]) == None && RootOut(kid).Some?
    ensures TreeInv(Node(ArriveOf(t.join, i, RootOut(kid).value), t.kids[i := kid]))
    ensures t.join.slot == ArriveOf(t.join, i, RootOut(kid).value).slot
  {
    var o := RootOut(kid).value;
    assert CaseIs(t.join, t.kids, i);
    assert Enabled(t.join, Arrive(i, o));
    StepInv(t.join, Arrive(i, o));
    var r := Node(ArriveOf(t.join, i, o), t.kids[i := kid]);
    forall j | 0 <= j < |t.kids| ensures CaseIs(r.join, r.kids, j) { ArrivalCase(t, i, kid, j); }
  }

  lemma ArrivalCase(t: Tree, i: nat, kid: Tree, j: nat)
    requires t.Node? && |t.kids| == |t.join.cases| && i < |t.kids| && RootOut(kid).Some?
    requires j < |t.kids| && CaseIs(t.join, t.kids, j)
    ensures CaseIs(ArriveOf(t.join, i, RootOut(kid).value), t.kids[i := kid], j)
  {
  }

  /** Every act keeps the tree consistent, and a completed root stays completed with its outcome. */
  lemma {:induction false} PerformInv(t: Tree, path: seq<nat>, a: Act)
    requires CanAct(t, path, a) && TreeInv(t)
    ensures TreeInv(Perform(t, path, a))
    ensures RootOut(t).Some? ==> RootOut(Perform(t, path, a)) == RootOut(t)
    decreases path
  {
    if t.Node? {
      if path == [] {
        OwnInv(t, a.m);
      } else {
        var i := path[0];
        PerformInv(t.kids[i], path[1..], a);
        var kid := Perform(t.kids[i], path[1..], a);
        if RootOut(t.kids[i]) == None && RootOut(kid).Some? {
          ArrivalInv(t, i, kid);
        } else {
          KidInv(t, i, kid);
        }
      }
    }
  }

  lemma KidInv(t: Tree, i: nat, kid: Tree)
    requires t.Node? && TreeInv(t) && i < |t.kids| && TreeInv(kid) && RootOut(kid) == RootOut(t.kids[i])
    ensures TreeInv(Node(t.join, t.kids[i := kid]))
  {
    var r := Node(t.join, t.kids[i := kid]);
    forall j | 0 <= j < |t.kids| ensures CaseIs(r.join, r.kids, j) { assert CaseIs(t.join, t.kids, j); }
  }

  // ---------- the formula ----------

  /** How the leaves that are still open will turn out, by their place in the tree. */
  type Future = seq<nat> -> Outcome

  /** The AND/OR formula over the leaves' outcomes, those still open taken from f. */
  ghost predicate Succeeds(t: Tree, at: seq<nat>, f: Future) {
    match t
    case Leaf(out) => (if out.Some? then out.value else f(at)) == Value
    case Node(join, kids) =>
      if join.kind == All then forall i :: 0 <= i < |kids| ==> Succeeds(kids[i], at + [i], f)
      else exists i :: 0 <= i < |kids| && Succeeds(kids[i], at + [i], f)
  }

  /** A completed root tells the value of the formula, whatever the open leaves still do. */
  lemma {:induction false} RootTellsFormula(t: Tree, at: seq<nat>, f: Future)
    requires TreeInv(t)
    ensures RootOut(t).Some? ==> (RootOut(t).value == Value <==> Succeeds(t, at, f))
  {
    if t.Node? {
      var outs := seq(|t.kids|, i requires 0 <= i < |t.kids| =>
        if RootOut(t.kids[i]).Some? then RootOut(t.kids[i]).value
        else if Succeeds(t.kids[i], at + [i], f) then Value else Error);
      forall i | 0 <= i < |t.kids| ensures outs[i] == Value <==> Succeeds(t.kids[i], at + [i], f) {
        RootTellsFormula(t.kids[i], at + [i], f);
      }
      forall i | 0 <= i < |t.kids| ensures Out(t.join.cases[i]).Some? ==> outs[i] == Out(t.join.cases[i]).value {
        assert CaseIs(t.join, t.kids, i);
      }
      SlotTellsFormula(t.join, outs);
    }
  }

  /** All leaves have completed and no connection has a completion left to work through. */
  ghost predicate Quiet(t: Tree) {
    match t
    case Leaf(out) => out.Some?
    case Node(join, kids) =>
      && (forall i :: 0 <= i < |kids| ==> Quiet(kids[i]))
      && (forall i :: 0 <= i < |join.cases| ==> !Enabled(join, CaseStep(i)))
  }

  /** When everything is quiet the root has been completed. */
  lemma {:induction false} QuietCompletes(t: Tree)
    requires TreeInv(t) && Quiet(t)
    ensures RootOut(t).Some?
  {
    if t.Node? {
      forall i | 0 <= i < |t.kids| ensures t.join.cases[i].Finished? {
        QuietCompletes(t.kids[i]);
        assert CaseIs(t.join, t.kids, i) && !Enabled(t.join, CaseStep(i));
      }
      var outs := seq(|t.kids|, i requires 0 <= i < |t.kids| => t.join.cases[i].o);
      SlotCompletedOnce(t.join, outs);
    }
  }

  // ---------- runs ----------

  datatype Place = Place(path: seq<nat>, act: Act)

  ghost predicate Run(trees: seq<Tree>, acts: seq<Place>) {
    && |trees| == |acts| + 1
    && Fresh(trees[0])
    && forall i :: 0 <= i < |acts| ==>
         CanAct(trees[i], acts[i].path, acts[i].act) && trees[i + 1] == Perform(trees[i], acts[i].path, acts[i].act)
  }

  lemma RunStep(trees: seq<Tree>, acts: seq<Place>, i: nat)
    requires Run(trees, acts) && i < |acts| && TreeInv(trees[i])
    ensures TreeInv(trees[i + 1]) && (RootOut(trees[i]).Some? ==> RootOut(trees[i + 1]) == RootOut(trees[i]))
  {
    assert trees[i + 1] == Perform(trees[i], acts[i].path, acts[i].act);
    PerformInv(trees[i], acts[i].path, acts[i].act);
  }

  lemma {:induction false} RunInv(trees: seq<Tree>, acts: seq<Place>, i: nat)
    requires Run(trees, acts) && i < |trees|
    ensures TreeInv(trees[i])
  {
    if i == 0 {
      FreshInv(trees[0]);
    } else {
      RunInv(trees, acts, i - 1);
      RunStep(trees, acts, i - 1);
    }
  }

  lemma {:induction false} RootStays(trees: seq<Tree>, acts: seq<Place>, i: nat, j: nat)
    requires Run(trees, acts) && i <= j < |trees| && RootOut(trees[i]).Some?
    ensures RootOut(trees[j]) == RootOut(trees[i])
  {
    if i < j {
      RootStays(trees, acts, i, j - 1);
      RunInv(trees, acts, j - 1);
      RunStep(trees, acts, j - 1);
    }
  }

  /** In every interleaving the root of any finite tree of all and any completes exactly once, and
      it succeeds exactly when the formula over the leaves' actual outcomes is true: once it is
      completed at i, that is its outcome at every later j, whatever completes in between. */
  lemma RootOutcome(trees: seq<Tree>, acts: seq<Place>, i: nat, j: nat, f: Future)
    requires Run(trees, acts) && i <= j < |trees|
    ensures RootOut(trees[i]).Some? ==>
      RootOut(trees[j]) == RootOut(trees[i]) && (RootOut(trees[i]).value == Value <==> Succeeds(trees[j], [], f))
    ensures Quiet(trees[j]) ==> RootOut(trees[j]).Some?
    ensures trees[j].Node? ==> |trees[j].join.slot| <= 1
  {
    RunInv(trees, acts, j);
    if trees[j].Node? { AtMostOne(trees[j].join); }
    if RootOut(trees[i]).Some? { RootStays(trees, acts, i, j); }
    RootTellsFormula(trees[j], [], f);
    if Quiet(trees[j]) { QuietCompletes(trees[j]); }
  }
}
