/** How far descriptor reuse is safe: an operation whose expected values are not the words' initial
    ones can leave a pointer behind that outlives it, even beside one-shot operations only. */
module KcasLimits {
  import opened Counting
  import opened KcasModel
  import opened KcasInvariant
  import opened KcasSolo
  import KcasRefinement

  // ---------- runs of one operation beside one-shot operations ----------

  /** Operands over distinct words of the memory. */
  predicate WellFormed(first: seq<int>, args: Args) {
    NoRepeats(args.addrs) && forall i :: 0 <= i < |args.addrs| ==> args.addrs[i] < |first|
  }

  /** Reads, one-shot operations, and the operation a. */
  ghost function Usable(first: seq<int>, a: Args): iset<Request> {
    iset req | Allowed(first, req) || req == AskKcas(a)
  }

  /** No word of a reachable state holds a pointer that has outlived its operation. */
  ghost predicate Safe(first: seq<int>, n: nat, a: Args) {
    forall s, w: nat :: Reachable(first, n, Usable(first, a), s) && Shape(s) && w < |s.sh.mem| ==> KcasRefinement.PointerOk(s, w)
  }

  lemma OneShotSafe(first: seq<int>, n: nat, a: Args)
    requires OneShot(first, a)
    ensures Safe(first, n, a)
  {
    forall s, w: nat | Reachable(first, n, Usable(first, a), s) && Shape(s) && w < |s.sh.mem| ensures KcasRefinement.PointerOk(s, w) {
      var len: nat :| After(first, n, Usable(first, a), s, len);
      ReachableInv(first, n, Usable(first, a), s, len);
      assert WordOk(s, w);
    }
  }

  // ---------- three threads against each other ----------

  /** Words 0..i of operation a expect their initial values, and word i another one. Thread 0 wants
      a; thread 1 reads word 0, and helps; thread 2 changes word i to what a expects there. */
  datatype Plot = Plot(first: seq<int>, n: nat, a: Args, i: nat)

  predicate Fits(u: Plot) {
    && WellFormed(u.first, u.a) && u.n >= 3 && 0 < u.i < |u.a.addrs|
    && (forall j :: 0 <= j < u.i ==> u.a.olds[j] == u.first[u.a.addrs[j]])
    && u.a.olds[u.i] != u.first[u.a.addrs[u.i]]
  }

  /** The word that changes. */
  function Word(u: Plot): nat
    requires Fits(u)
  {
    u.a.addrs[u.i]
  }

  function Bump(u: Plot): Args
    requires Fits(u)
  {
    Operands([Word(u)], [u.first[Word(u)]], [u.a.olds[u.i]])
  }

  ghost function PlayOf(u: Plot): Play
    requires Fits(u)
  {
    Play(iset s | Reachable(u.first, u.n, Usable(u.first, u.a), s),
         map[0 := AskKcas(u.a), 1 := AskRead(u.a.addrs[0]), 2 := AskKcas(Bump(u))])
  }

  lemma PlayClosed(u: Plot)
    requires Fits(u)
    ensures Closed(PlayOf(u))
  {
    var p := PlayOf(u);
    forall q: State, t: nat | q in p.states && Shape(q) && t < |q.threads| && t in p.wish
      ensures Step(q, t, p.wish[t]) in p.states
    {
      assert p.wish[t] in Usable(u.first, u.a);
      ReachesNext(u.first, u.n, Usable(u.first, u.a), q, t, p.wish[t]);
    }
  }

  ghost predicate Playing(u: Plot, p: Play, s: State) {
    && Fits(u) && Ready(p, s) && p.wish == map[0 := AskKcas(u.a), 1 := AskRead(u.a.addrs[0]), 2 := AskKcas(Bump(u))]
    && |s.threads| == u.n && s.sh.first == u.first
  }

  ghost predicate Goes(u: Plot, p: Play, s: State, s': State, t: nat) {
    Playing(u, p, s) && Playing(u, p, s') && Only(s, s', t)
  }

  // ---------- the run ----------

  const OWNER := Id(0, 2)
  const IDLE := Thread(Idle, NoRet, [], NoHelp)

  /** The first m words of the operation hold its pointer. */
  ghost predicate Held(u: Plot, s: State, m: nat)
    requires Fits(u)
  {
    m <= |u.a.addrs| && |s.sh.mem| == |u.first| && forall l :: 0 <= l < m ==> s.sh.mem[u.a.addrs[l]] == Kcas(OWNER)
  }

  /** The other words of the operation are as they were at first. */
  ghost predicate Fresh(u: Plot, s: State, m: nat)
    requires Fits(u)
  {
    |s.sh.mem| == |u.first| &&
    forall l :: m <= l < |u.a.addrs| ==> s.sh.mem[u.a.addrs[l]] == Plain(u.first[u.a.addrs[l]])
  }

  lemma {:induction false} InstallsMany(u: Plot, p: Play, s: State, m: nat) returns (s': State)
    requires Playing(u, p, s) && At(s, 0, OWNER, Install(0)) && Open(s, OWNER, u.a) && Fresh(u, s, 0) && m <= u.i
    ensures Goes(u, p, s, s', 0) && s'.sh.kd == s.sh.kd && Held(u, s', m) && Fresh(u, s', m)
    ensures At(s', 0, OWNER, Install(m)) && s'.threads[0].call == s.threads[0].call
  {
    if m == 0 { return s; }
    var q := InstallsMany(u, p, s, m - 1);
    s' := Installs(p, q, 0, OWNER, u.a, m - 1);
  }

  lemma {:induction false} WalksMany(u: Plot, p: Play, s: State, m: nat) returns (s': State)
    requires Playing(u, p, s) && At(s, 1, OWNER, Install(0)) && Open(s, OWNER, u.a) && Held(u, s, u.i) && m <= u.i
    ensures Goes(u, p, s, s', 1) && s'.sh.kd == s.sh.kd && s'.sh.mem == s.sh.mem && At(s', 1, OWNER, Install(m))
  {
    if m == 0 { return s; }
    var q := WalksMany(u, p, s, m - 1);
    s' := Tries(p, q, 1, OWNER, u.a, m - 1);
    s' := Passes(p, s', 1, OWNER, m - 1, u.a.addrs[m - 1], u.a.olds[m - 1]);
  }

  /** Taking the owner's pointers out leaves a dcss pointer in the word that changes. */
  lemma {:induction false} UninstallsMany(u: Plot, p: Play, s: State, m: nat, d: Id) returns (s': State)
    requires Playing(u, p, s) && At(s, 0, OWNER, Uninstall(0, false)) && KLive(s.sh, OWNER) && ArgsOf(s.sh, OWNER) == u.a
    requires m <= |u.a.addrs| && s.sh.mem[Word(u)] == Dcss(d)
    ensures Goes(u, p, s, s', 0) && s'.sh.kd == s.sh.kd && s'.sh.mem[Word(u)] == Dcss(d)
    ensures At(s', 0, OWNER, Uninstall(m, false)) && s'.threads[0].call == s.threads[0].call
  {
    if m == 0 { return s; }
    var q := UninstallsMany(u, p, s, m - 1, d);
    s' := Uninstalls(p, q, 0, OWNER, u.a, m - 1, false);
  }

  /** Thread 0 has met the other value and is about to propose failure. */
  ghost predicate Mismatched(u: Plot, p: Play, s: State) {
    && Playing(u, p, s) && Open(s, OWNER, u.a) && Held(u, s, u.i)
    && At(s, 0, OWNER, DecideLoad(u.i, Failed)) && Calls(s, 0, Running(u.a)) && Outer(s.threads[0]) == []
  }

  lemma OwnerMisses(u: Plot, p: Play) returns (s: State)
    requires Fits(u) && p == PlayOf(u)
    ensures Mismatched(u, p, s) && Fresh(u, s, u.i) && s.threads[1] == s.threads[2] == IDLE && s.sh.kd[2].ver == 0
  {
    PlayClosed(u);
    s := Init(u.first, u.n);
    assert After(u.first, u.n, Usable(u.first, u.a), s, 0);
    s := Begins(p, s, 0, u.a);
    s := Enters(p, s, 0, OWNER);
    s := InstallsMany(u, p, s, u.i);
    s := Tries(p, s, 0, OWNER, u.a, u.i);
    s := Misses(p, s, 0, OWNER, u.i, Word(u), u.a.olds[u.i], u.first[Word(u)]);
  }

  /** Thread 1 has come to the same word as a helper, before its CAS. */
  ghost predicate HelperThere(u: Plot, p: Play, s: State) {
    && Mismatched(u, p, s) && At(s, 1, OWNER, DcssSwap(u.i, Word(u), u.a.olds[u.i]))
    && s.sh.dd[1] == DcssSlot(s.sh.dd[1].ver, OWNER, Word(u), u.a.olds[u.i])
  }

  lemma HelperComes(u: Plot, p: Play, s: State) returns (s': State)
    requires Mismatched(u, p, s) && Fresh(u, s, u.i) && s.threads[1] == IDLE
    ensures HelperThere(u, p, s') && Fresh(u, s', u.i) && s'.threads[2] == s.threads[2] && s'.sh.kd == s.sh.kd
  {
    s' := Finds(p, s, 1, u.a.addrs[0], OWNER);
    s' := Enters(p, s', 1, OWNER);
    s' := WalksMany(u, p, s', u.i);
    s' := Tries(p, s', 1, OWNER, u.a, u.i);
  }

  /** Thread 2 gives the word the value that thread 0 had wanted to find. */
  lemma WordChanges(u: Plot, p: Play, s: State) returns (s': State)
    requires HelperThere(u, p, s) && Fresh(u, s, u.i) && s.threads[2] == IDLE && s.sh.kd[2].ver == 0
    ensures HelperThere(u, p, s') && s'.sh.mem[Word(u)] == Plain(u.a.olds[u.i])
  {
    var j := Id(2, 2);
    s' := Begins(p, s, 2, Bump(u));
    s' := Enters(p, s', 2, j);
    s' := Installs(p, s', 2, j, Bump(u), 0);
    s' := Agrees(p, s', 2, j, Bump(u));
    s' := Settles(p, s', 2, j, Bump(u), 1, Succeeded);
    s' := Uninstalls(p, s', 2, j, Bump(u), 0, true);
  }

  /** Thread 1 reads "undecided", thread 0 fails and is gone, and then thread 1 stores the pointer. */
  lemma PointerStays(u: Plot, p: Play, s: State) returns (s': State)
    requires HelperThere(u, p, s) && s.sh.mem[Word(u)] == Plain(u.a.olds[u.i])
    ensures Playing(u, p, s') && s'.sh.mem[Word(u)] == Kcas(OWNER) && !KLive(s'.sh, OWNER)
    ensures s'.threads[0] == Thread(Publish(u.a), Bool(false), [], NoHelp)
  {
    var w, e, d := Word(u), u.a.olds[u.i], Id(1, s.sh.dd[1].ver);
    s' := Places(p, s, 1, OWNER, u.i, w, e);
    s' := Settles(p, s', 0, OWNER, u.a, u.i, Failed);
    s' := UninstallsMany(u, p, s', |u.a.addrs|, d);
    s' := Answers(p, s', 0, OWNER, u.a, false);
    s' := Rewrites(p, s', 0, u.a, Bool(false));
    s' := Stores(p, s', 1, OWNER, u.i, w, e, d);
  }

  /** For every such operation, over any number of words: the pointer of a call that answered false
      and is gone ends up in a word. */
  lemma PointerOutlives(u: Plot) returns (s: State)
    requires Fits(u)
    ensures Reachable(u.first, u.n, Usable(u.first, u.a), s) && Shape(s) && |s.sh.mem| == |u.first| && |s.threads| == u.n
    ensures s.sh.mem[Word(u)] == Kcas(OWNER) && !KLive(s.sh, OWNER)
    ensures s.threads[0].ret == Bool(false) && !s.threads[0].call.Running?
  {
    var p := PlayOf(u);
    s := OwnerMisses(u, p);
    s := HelperComes(u, p, s);
    s := WordChanges(u, p, s);
    s := PointerStays(u, p, s);
  }

  lemma FirstMismatch(first: seq<int>, a: Args) returns (i: nat)
    requires WellFormed(first, a) && !OneShot(first, a)
    ensures i < |a.addrs| && a.olds[i] != first[a.addrs[i]]
    ensures forall j :: 0 <= j < i ==> a.olds[j] == first[a.addrs[j]]
  {
    i := 0;
    while a.olds[i] == first[a.addrs[i]]
      invariant i < |a.addrs| && forall j :: 0 <= j < i ==> a.olds[j] == first[a.addrs[j]]
      decreases |a.addrs| - i
    {
      assert exists j :: 0 <= j < |a.addrs| && a.olds[j] != first[a.addrs[j]];
      i := i + 1;
    }
  }

  /** Beside one-shot operations and reads, an operation that installs its pointer in its first word
      is safe exactly when it is one-shot in all of them. */
  lemma SafeExactlyWhenOneShot(first: seq<int>, n: nat, a: Args)
    requires n >= 3 && WellFormed(first, a) && |a.addrs| > 0 && a.olds[0] == first[a.addrs[0]]
    ensures Safe(first, n, a) <==> OneShot(first, a)
  {
    if OneShot(first, a) {
      OneShotSafe(first, n, a);
    } else {
      var i := FirstMismatch(first, a);
      var u := Plot(first, n, a, i);
      var s := PointerOutlives(u);
      assert !KcasRefinement.PointerOk(s, Word(u));
    }
  }
}
