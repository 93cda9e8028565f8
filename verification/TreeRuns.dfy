/** Trees of all and any come to an end, with the formula over what their leaves were told. */
module TreeRuns {
  import opened Options
  import opened Counting
  import opened Tree
  import Join
  import JoinRuns

  // ---------- what the leaves were told ----------

  /** The leaf at the end of the path, if there is one, with its outcome so far. */
  function LeafAt(t: Tree, path: seq<nat>): Option<Option<Join.Outcome>>
    decreases path
  {
    match t
    case Leaf(out) => if path == [] then Some(out) else None
    case Node(_, kids) =>
      if path != [] && path[0] < |kids| then LeafAt(kids[path[0]], path[1..]) else None
  }

  predicate Completes(p: Place, path: seq<nat>) {
    p.act.Complete? && p.path == path
  }

  function Told(acts: seq<Place>, path: seq<nat>): Option<Join.Outcome> {
    if acts == [] then None
    else if Completes(acts[|acts| - 1], path) then Some(acts[|acts| - 1].act.o)
    else Told(acts[..|acts| - 1], path)
  }

  /** An act completes the leaf it is for, and no other. */
  lemma {:induction false} PerformLeaf(t: Tree, path: seq<nat>, a: Act, q: seq<nat>)
    requires CanAct(t, path, a)
    ensures LeafAt(Perform(t, path, a), q) == if Completes(Place(path, a), q) then Some(Some(a.o)) else LeafAt(t, q)
    ensures Completes(Place(path, a), q) ==> LeafAt(t, q) == Some(None)
    decreases path
  {
    if t.Node? && path != [] {
      PerformLeaf(t.kids[path[0]], path[1..], a, if q != [] then q[1..] else []);
      if q != [] && q[0] == path[0] { assert path == [path[0]] + path[1..] && q == [q[0]] + q[1..]; }
    }
  }

  lemma RunStep(trees: seq<Tree>, acts: seq<Place>, i: nat)
    requires Run(trees, acts) && i < |acts|
    ensures CanAct(trees[i], acts[i].path, acts[i].act)
    ensures trees[i + 1] == Perform(trees[i], acts[i].path, acts[i].act)
  {
  }

  lemma {:induction false} FreshLeaf(t: Tree, q: seq<nat>)
    requires Fresh(t)
    ensures LeafAt(t, q) == None || LeafAt(t, q) == Some(None)
    decreases q
  {
    if t.Node? && q != [] && q[0] < |t.kids| { FreshLeaf(t.kids[q[0]], q[1..]); }
  }

  /** Over a whole run a leaf has the outcome that it was completed with. */
  lemma {:induction false} AsTold(trees: seq<Tree>, acts: seq<Place>, k: nat, q: seq<nat>)
    requires Run(trees, acts) && k < |trees|
    ensures if LeafAt(trees[0], q) == None then LeafAt(trees[k], q) == None
            else LeafAt(trees[k], q) == Some(Told(acts[..k], q))
  {
    FreshLeaf(trees[0], q);
    if k > 0 {
      AsTold(trees, acts, k - 1, q);
      RunStep(trees, acts, k - 1);
      PerformLeaf(trees[k - 1], acts[k - 1].path, acts[k - 1].act, q);
      assert acts[..k][..k - 1] == acts[..k - 1];
    }
  }

  lemma LeafOnce(trees: seq<Tree>, acts: seq<Place>, i: nat)
    requires Run(trees, acts) && i < |acts| && acts[i].act.Complete?
    ensures LeafAt(trees[i], acts[i].path) == Some(None)
  {
    RunStep(trees, acts, i);
    PerformLeaf(trees[i], acts[i].path, acts[i].act, acts[i].path);
  }

  /** A leaf is completed once: what it was told never changes. */
  lemma {:induction false} ToldOnce(trees: seq<Tree>, acts: seq<Place>, i: nat, k: nat)
    requires Run(trees, acts) && i < k <= |acts| && acts[i].act.Complete?
    ensures Told(acts[..k], acts[i].path) == Some(acts[i].act.o)
  {
    if k == i + 1 {
      assert acts[..k][|acts[..k]| - 1] == acts[i];
    } else {
      ToldOnce(trees, acts, i, k - 1);
      StillTold(trees, acts, i, k - 1);
    }
  }

  lemma StillTold(trees: seq<Tree>, acts: seq<Place>, i: nat, k: nat)
    requires Run(trees, acts) && i < k < |acts| && acts[i].act.Complete?
    requires Told(acts[..k], acts[i].path) == Some(acts[i].act.o)
    ensures Told(acts[..k + 1], acts[i].path) == Some(acts[i].act.o)
  {
    var q := acts[i].path;
    LeafOnce(trees, acts, i);
    AsTold(trees, acts, i, q);
    AsTold(trees, acts, k, q);
    if Completes(acts[k], q) { LeafOnce(trees, acts, k); }
    assert acts[..k + 1][..k] == acts[..k];
  }

  // ---------- the formula over what was told ----------

  /** The formula does not change when a leaf turns out as foreseen. */
  lemma {:induction false} SucceedsKept(t: Tree, path: seq<nat>, a: Act, at: seq<nat>, f: Future)
    requires CanAct(t, path, a) && (a.Complete? ==> f(at + path) == a.o)
    ensures Succeeds(Perform(t, path, a), at, f) <==> Succeeds(t, at, f)
    decreases path
  {
    if t.Leaf? {
      assert at + path == at;
    } else if path != [] {
      var i, r := path[0], Perform(t, path, a);
      assert at + path == (at + [i]) + path[1..];
      SucceedsKept(t.kids[i], path[1..], a, at + [i], f);
      assert forall j :: 0 <= j < |t.kids| && j != i ==> r.kids[j] == t.kids[j];
    }
  }

  function Foreseen(acts: seq<Place>): Future {
    q => match Told(acts, q) case Some(o) => o case None => Join.Error
  }

  lemma {:induction false} SucceedsAsTold(trees: seq<Tree>, acts: seq<Place>, k: nat)
    requires Run(trees, acts) && k < |trees|
    ensures Succeeds(trees[k], [], Foreseen(acts)) <==> Succeeds(trees[0], [], Foreseen(acts))
  {
    if k > 0 {
      SucceedsAsTold(trees, acts, k - 1);
      RunStep(trees, acts, k - 1);
      var p := acts[k - 1];
      if p.act.Complete? {
        ToldOnce(trees, acts, k - 1, |acts|);
        assert acts[..|acts|] == acts && [] + p.path == p.path;
      }
      SucceedsKept(trees[k - 1], p.path, p.act, [], Foreseen(acts));
    }
  }

  // ---------- how much is left ----------

  function Left(t: Tree): nat {
    match t
    case Leaf(out) => One(out == None)
    case Node(join, kids) => JoinRuns.Left(join) + AllLeft(kids)
  }

  function AllLeft(kids: seq<Tree>): nat {
    if kids == [] then 0 else Left(kids[0]) + AllLeft(kids[1..])
  }

  lemma {:induction false} AllLeftUpdate(kids: seq<Tree>, i: nat, kid: Tree)
    requires i < |kids|
    ensures AllLeft(kids[i := kid]) == AllLeft(kids) - Left(kids[i]) + Left(kid)
  {
    if i == 0 {
      assert kids[i := kid][1..] == kids[1..];
    } else {
      assert kids[i := kid][1..] == kids[1..][i - 1 := kid];
      AllLeftUpdate(kids[1..], i - 1, kid);
    }
  }

  /** Every act, of a leaf or of a connection anywhere in the tree, leaves less to happen. */
  lemma {:induction false} PerformFalls(t: Tree, path: seq<nat>, a: Act)
    requires CanAct(t, path, a) && TreeInv(t)
    ensures Left(Perform(t, path, a)) < Left(t)
    decreases path
  {
    if t.Node? {
      if path == [] {
        JoinRuns.StepFalls(t.join, a.m);
      } else {
        var i := path[0];
        var kid := Perform(t.kids[i], path[1..], a);
        PerformFalls(t.kids[i], path[1..], a);
        AllLeftUpdate(t.kids, i, kid);
        if RootOut(t.kids[i]) == None && RootOut(kid).Some? {
          assert CaseIs(t.join, t.kids, i);
          JoinRuns.ArriveFalls(t.join, i, RootOut(kid).value);
        }
      }
    }
  }

  lemma {:induction false} RunEnds(trees: seq<Tree>, acts: seq<Place>, k: nat)
    requires Run(trees, acts) && k < |trees|
    ensures k + Left(trees[k]) <= Left(trees[0])
  {
    if k > 0 {
      RunEnds(trees, acts, k - 1);
      RunStep(trees, acts, k - 1);
      RunInv(trees, acts, k - 1);
      PerformFalls(trees[k - 1], acts[k - 1].path, acts[k - 1].act);
    }
  }

  // ---------- where it ends ----------

  ghost predicate Stuck(t: Tree) {
    forall path, a :: !CanAct(t, path, a)
  }

  /** A tree that cannot go on has heard from all its leaves and worked everything through. */
  lemma {:induction false} StuckQuiet(t: Tree)
    requires TreeInv(t) && Stuck(t)
    ensures Quiet(t)
  {
    match t
    case Leaf(out) => assert !CanAct(t, [], Complete(Join.Value));
    case Node(join, kids) =>
      forall m | OwnMove(m) ensures !Join.Enabled(join, m) { assert !CanAct(t, [], Own(m)); }
      forall i | 0 <= i < |kids| ensures Quiet(kids[i]) {
        KidStuck(t, i);
        StuckQuiet(kids[i]);
      }
  }

  lemma KidStuck(t: Tree, i: nat)
    requires t.Node? && TreeInv(t) && Stuck(t) && i < |t.kids|
    ensures Stuck(t.kids[i])
  {
    assert !CanAct(t, [], Own(Join.Begin(i))) && Join.QueueOk(t.join);
    forall path, a ensures !CanAct(t.kids[i], path, a) {
      assert !CanAct(t, [i] + path, a) && ([i] + path)[1..] == path;
    }
  }

  /** Every run of a tree that cannot go on has completed the root, and it has succeeded exactly when
      the AND/OR formula over what the leaves were told is true. */
  lemma EndOutcome(trees: seq<Tree>, acts: seq<Place>)
    requires Run(trees, acts) && Stuck(trees[|acts|])
    ensures var out := RootOut(trees[|acts|]);
      out.Some? && (out.value == Join.Value <==> Succeeds(trees[0], [], Foreseen(acts)))
  {
    RunInv(trees, acts, |acts|);
    StuckQuiet(trees[|acts|]);
    QuietCompletes(trees[|acts|]);
    RootTellsFormula(trees[|acts|], [], Foreseen(acts));
    SucceedsAsTold(trees, acts, |acts|);
  }
}
