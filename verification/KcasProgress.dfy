/** When calls of kcas and kcas_read come to an end: a thread that is left alone finishes its call, from
    every reachable state, if the operations do not name their words in circles. With operations on
    two words, as the library has them, it is exactly then. */
module KcasProgress {
  import opened Counting
  import opened KcasModel
  import opened KcasInvariant
  import KcasProof
  import opened KcasSolo

  // ---------- in which order words are named ----------

  /** Some operation names word u before word v. */
  ghost predicate Edge(may: iset<Request>, u: nat, v: nat) {
    exists args: Args, i: nat, j: nat ::
      AskKcas(args) in may && i < j < |args.addrs| && args.addrs[i] == u && args.addrs[j] == v
  }

  ghost predicate Chain(may: iset<Request>, c: seq<nat>) {
    NoRepeats(c) && forall i :: 0 < i < |c| ==> Edge(may, c[i - 1], c[i])
  }

  ghost predicate Circle(may: iset<Request>, c: seq<nat>) {
    |c| > 0 && Chain(may, c) && Edge(may, c[|c| - 1], c[0])
  }

  ghost predicate NoCircle(may: iset<Request>) {
    forall c :: !Circle(may, c)
  }

  // ---------- what holds in all runs ----------

  /** All operands are those of some request. */
  ghost predicate Asked(s: State, may: iset<Request>) {
    && (forall t :: 0 <= t < |s.threads| ==> CallAsked(s.threads[t].call, may))
    && (forall t :: 0 <= t < |s.sh.kd| ==> SlotAsked(s.sh.kd[t], may))
  }

  ghost predicate CallAsked(call: Call, may: iset<Request>) {
    call.Create? || call.Publish? || call.Running? ==> AskKcas(call.args) in may
  }

  ghost predicate SlotAsked(slot: KcasSlot, may: iset<Request>) {
    slot.args == Operands([], [], []) || AskKcas(slot.args) in may
  }

  /** An undecided operation whose pointer is in word a has it in all words that it names before a. */
  ghost predicate InOrder(sh: Shared, a: nat)
    requires a < |sh.mem|
  {
    sh.mem[a].Kcas? && Pending(sh, sh.mem[a].k) ==>
      var addrs := ArgsOf(sh, sh.mem[a].k).addrs;
      forall i, j :: 0 <= j < i < |addrs| && addrs[i] == a ==> Peek(sh, addrs[j]) == sh.mem[a]
  }

  ghost predicate Good(s: State, may: iset<Request>) {
    && Inv(s) && Asked(s, may)
    && (forall req :: req in may ==> Allowed(s.sh.first, req))
    && (forall a :: 0 <= a < |s.sh.mem| ==> InOrder(s.sh, a))
  }

  lemma AskedKept(s: State, t: nat, req: Request, may: iset<Request>)
    requires Shape(s) && t < |s.threads| && Asked(s, may) && req in may
    ensures Shape(Step(s, t, req)) && Asked(Step(s, t, req), may)
  {
    assert CallAsked(s.threads[t].call, may) && SlotAsked(s.sh.kd[t], may);
  }

  /** A kcas pointer in a word comes from there, or from a dcss pointer that names this operation. */
  lemma CameFrom(s: State, t: nat, req: Request, a: nat)
    requires Inv(s) && t < |s.threads| && Allowed(s.sh.first, req) && a < |s.sh.mem|
    requires var s' := Step(s, t, req); |s'.sh.mem| == |s.sh.mem| && s'.sh.mem[a].Kcas? && Pending(s'.sh, s'.sh.mem[a].k)
    ensures var k := Step(s, t, req).sh.mem[a].k; var sh := s.sh;
      && KNamed(sh, k)
      && (sh.mem[a] == Kcas(k) || (Pending(sh, k) && exists i: nat :: Installed(sh, k, i) && i < |ArgsOf(sh, k).addrs| && ArgsOf(sh, k).addrs[i] == a))
  {
    var s' := Step(s, t, req);
    KcasProof.StepInv(s, t, req);
    var placed :| Rely(s.sh, s'.sh, t, placed);
    assert WordMove(s.sh, s'.sh, a, placed) && WordOk(s, a);
    if s.sh.mem[a] != s'.sh.mem[a] {
      KcasProof.Installer(s, a);
      var f := Top(s.threads[s.sh.mem[a].d.pid]);
      assert Installed(s.sh, f.k, f.pc.i) && Target(s.sh, f.k, f.pc.i, a, s.sh.first[a]);
    }
  }

  lemma OrderKept(s: State, t: nat, req: Request, a: nat)
    requires Inv(s) && t < |s.threads| && Allowed(s.sh.first, req) && a < |s.sh.mem| && InOrder(s.sh, a)
    ensures |Step(s, t, req).sh.mem| == |s.sh.mem| && InOrder(Step(s, t, req).sh, a)
  {
    var s' := Step(s, t, req);
    KcasProof.StepInv(s, t, req);
    if s'.sh.mem[a].Kcas? && Pending(s'.sh, s'.sh.mem[a].k) {
      var k := s'.sh.mem[a].k;
      CameFrom(s, t, req, a);
      var placed :| Rely(s.sh, s'.sh, t, placed);
      NamesStable(s.sh, s'.sh, t, placed, k);
      var addrs := ArgsOf(s.sh, k).addrs;
      assert OneShot(s.sh.first, s.sh.kd[k.pid].args);
      forall i, j | 0 <= j < i < |addrs| && addrs[i] == a ensures Peek(s'.sh, addrs[j]) == Kcas(k) {
        WordsStable(s.sh, s'.sh, t, placed, k, addrs[j]);
      }
    }
  }

  lemma GoodStep(s: State, t: nat, req: Request, may: iset<Request>)
    requires Good(s, may) && t < |s.threads| && req in may
    ensures Good(Step(s, t, req), may)
  {
    KcasProof.StepInv(s, t, req);
    AskedKept(s, t, req, may);
    forall a | 0 <= a < |s.sh.mem| ensures InOrder(Step(s, t, req).sh, a) { OrderKept(s, t, req, a); }
  }

  // ---------- what a thread alone uses up ----------

  /** Operations that nobody has decided. */
  ghost function Unsettled(sh: Shared): set<nat> {
    set p | 0 <= p < |sh.kd| && sh.kd[p].verdict == Undecided
  }

  /** Words with something in them that thread t would have to clear away. */
  ghost function Litter(sh: Shared, t: nat): set<nat> {
    set a | 0 <= a < |sh.mem| && IsLitter(sh, sh.mem[a], t)
  }

  ghost predicate IsLitter(sh: Shared, w: Word, t: nat) {
    match w
    case Plain(_) => false
    case Dcss(d) => d.pid != t
    case Kcas(k) => !Pending(sh, k)
  }

  ghost predicate Below(sh: Shared, sh': Shared, t: nat) {
    Unsettled(sh') < Unsettled(sh) || (Unsettled(sh') == Unsettled(sh) && Litter(sh', t) < Litter(sh, t))
  }

  /** Nothing is made undecided, and no litter is made unless something is decided. */
  ghost predicate NotAbove(sh: Shared, sh': Shared, t: nat) {
    && |sh'.mem| == |sh.mem|
    && (|| Unsettled(sh') < Unsettled(sh)
        || (Unsettled(sh') == Unsettled(sh) && Litter(sh', t) <= Litter(sh, t)
            && forall a :: a in Litter(sh', t) ==> sh'.mem[a] == sh.mem[a]))
  }

  /** How many operands are left, from the i-th. */
  function Todo(n: nat, i: nat): nat {
    if i <= n then n + 1 - i else 0
  }

  function Size(sh: Shared, k: Id): nat {
    if KLive(sh, k) then |ArgsOf(sh, k).addrs| else 0
  }

  function From(sh: Shared, k: Id, i: nat): nat {
    if KLive(sh, k) then Todo(Size(sh, k), i) else 0
  }

  /** Steps of dcss_help that are left. */
  function HelpRank(h: Help): nat {
    match h
    case NoHelp => 0
    case Read(_) => 3
    case Load(_, _, _, _) => 2
    case Swap(_, _, _, _, _) => 1
  }

  /** The dcss pointer that is being resolved is in the word. */
  predicate Grips(sh: Shared, h: Help, a: nat) {
    !h.NoHelp? && Peek(sh, a) == Dcss(h.d)
  }

  /** How far the running kcas_help is from its return, if it meets nobody and decides nothing. */
  function Rank(sh: Shared, th: Thread): nat
    requires th.stack != []
  {
    var Frame(k, pc) := Top(th);
    var rest := 2 * Size(sh, k) + 10;
    match pc
    case Start => rest + 20 * (Size(sh, k) + 2)
    case Install(i) => rest + 20 * From(sh, k, i)
    case DcssBegin(i, _, _) => rest + 20 * From(sh, k, i + 1) + 13
    case DcssPublish(i, _, _) => rest + 20 * From(sh, k, i + 1) + 12
    case DcssSwap(i, a2, _) =>
      rest + 20 * From(sh, k, i + 1) + (if Grips(sh, th.help, a2) then 4 else 8) + HelpRank(th.help)
    case DcssDone(i, _, _) => rest + 20 * From(sh, k, i + 1) + 1 + HelpRank(th.help)
    case DecideLoad(_, _) => 2 * Size(sh, k) + 8
    case DecideSwap(_, _) => 2 * Size(sh, k) + (if Pending(sh, k) then 7 else 9)
    case ReadState => 2 * Size(sh, k) + 6
    case Uninstall(i, _) => 2 * From(sh, k, i)
    case UninstallSwap(i, _, _, _) => 2 * From(sh, k, i + 1) + 1
  }

  ghost predicate Falls(sh: Shared, th: Thread, sh': Shared, th': Thread, t: nat) {
    && NotAbove(sh, sh', t)
    && (Below(sh, sh', t) || (th.stack != [] && th'.stack != [] && Rank(sh', th') < Rank(sh, th)))
  }

  /** One word is rewritten. */
  lemma WordLitter(sh: Shared, a: nat, w: Word, t: nat)
    requires a < |sh.mem|
    requires IsLitter(sh, w, t) ==> w == sh.mem[a]
    ensures var sh' := sh.(mem := sh.mem[a := w]);
      NotAbove(sh, sh', t) && (IsLitter(sh, sh.mem[a], t) && !IsLitter(sh, w, t) ==> Below(sh, sh', t))
  {
    var sh' := sh.(mem := sh.mem[a := w]);
    assert forall b :: 0 <= b < |sh.mem| ==> IsLitter(sh', sh'.mem[b], t) == IsLitter(sh, sh'.mem[b], t);
    if IsLitter(sh, sh.mem[a], t) && !IsLitter(sh, w, t) {
      assert a in Litter(sh, t) && a !in Litter(sh', t);
    }
  }

  /** dcss_help clears a word that holds the pointer of another thread, and nothing else changes. */
  lemma HelpClears(s: State, t: nat)
    requires Inv(s) && t < |s.threads| && !s.threads[t].help.NoHelp?
    ensures var th := s.threads[t]; var (sh', th') := HelpStep(s.sh, th);
      && th'.stack == th.stack && th'.call == th.call && HelpRank(th'.help) < HelpRank(th.help)
      && sh'.kd == s.sh.kd && sh'.dd == s.sh.dd && NotAbove(s.sh, sh', t)
      && (th'.help.NoHelp? || (sh' == s.sh && th'.help.d == th.help.d))
      && forall a :: 0 <= a < |s.sh.mem| && th'.help.NoHelp? && th.help.d.pid != t && s.sh.mem[a] == Dcss(th.help.d) ==> Below(s.sh, sh', t)
  {
    var th := s.threads[t];
    assert ThreadOk(s.sh, t, th);
    if th.help.Swap? && Peek(s.sh, th.help.a2) == Dcss(th.help.d) {
      var Swap(d, k, a2, e2, go) := th.help;
      WordLitter(s.sh, a2, if go then Kcas(k) else Plain(e2), t);
    }
    forall a | 0 <= a < |s.sh.mem| && s.sh.mem[a] == Dcss(th.help.d) ensures WordOk(s, a) { }
  }

  lemma HelpFalls(s: State, t: nat)
    requires Inv(s) && t < |s.threads| && !s.threads[t].help.NoHelp? && s.threads[t].stack != []
    ensures var (sh', th') := HelpStep(s.sh, s.threads[t]); Falls(s.sh, s.threads[t], sh', th', t)
  {
    HelpClears(s, t);
    var th := s.threads[t];
    assert ThreadOk(s.sh, t, th);
    if Top(th).pc.DcssSwap? && Grips(s.sh, th.help, Top(th).pc.a2) {
      KcasProof.Installer(s, Top(th).pc.a2);
    }
  }

  lemma SwapFalls(s: State, t: nat)
    requires KcasProof.Runs(s, t) && Top(s.threads[t]).pc.DcssSwap?
    requires var (sh', th') := DcssSwapStep(s.sh, t, s.threads[t]); |th'.stack| == |s.threads[t].stack|
    ensures var (sh', th') := DcssSwapStep(s.sh, t, s.threads[t]); Falls(s.sh, s.threads[t], sh', th', t)
  {
    var th := s.threads[t];
    var f := Top(th);
    assert ThreadOk(s.sh, t, th) && FrameOk(s.sh, th.stack[|th.stack| - 1]) && WordOk(s, f.pc.a2);
    if s.sh.mem[f.pc.a2].Plain? { WordLitter(s.sh, f.pc.a2, Dcss(Id(t, s.sh.dd[t].ver)), t); }
  }

  lemma RemoveFalls(s: State, t: nat)
    requires KcasProof.Runs(s, t) && Top(s.threads[t]).pc.UninstallSwap?
    ensures var (sh', th') := FrameStep(s.sh, t, s.threads[t]); Falls(s.sh, s.threads[t], sh', th', t)
  {
    var th := s.threads[t];
    var f := Top(th);
    assert ThreadOk(s.sh, t, th) && FrameOk(s.sh, th.stack[|th.stack| - 1]);
    if Peek(s.sh, f.pc.a) == Kcas(f.k) && f.pc.a < |s.sh.mem| {
      assert WordOk(s, f.pc.a);
      WordLitter(s.sh, f.pc.a, Plain(f.pc.n), t);
    }
  }

  lemma DecideFalls(s: State, t: nat)
    requires KcasProof.Runs(s, t) && Top(s.threads[t]).pc.DecideSwap?
    ensures var (sh', th') := FrameStep(s.sh, t, s.threads[t]); Falls(s.sh, s.threads[t], sh', th', t)
  {
    var th := s.threads[t];
    var f := Top(th);
    assert FrameOk(s.sh, th.stack[|th.stack| - 1]);
    if Pending(s.sh, f.k) {
      var sh' := FrameStep(s.sh, t, th).0;
      assert f.k.pid in Unsettled(s.sh) && f.k.pid !in Unsettled(sh');
    }
  }

  /** A step of kcas_help that neither returns nor calls uses something up. */
  lemma FrameFalls(s: State, t: nat)
    requires KcasProof.Runs(s, t)
    requires var (sh', th') := FrameStep(s.sh, t, s.threads[t]); |th'.stack| == |s.threads[t].stack|
    ensures var (sh', th') := FrameStep(s.sh, t, s.threads[t]); Falls(s.sh, s.threads[t], sh', th', t)
  {
    var th := s.threads[t];
    var f := Top(th);
    if f.pc.DcssSwap? {
      SwapFalls(s, t);
    } else if f.pc.UninstallSwap? {
      RemoveFalls(s, t);
    } else if f.pc.DecideSwap? {
      DecideFalls(s, t);
    } else {
      assert FrameOk(s.sh, th.stack[|th.stack| - 1]);
      var sh' := FrameStep(s.sh, t, th).0;
      assert sh'.kd == s.sh.kd && sh'.mem == s.sh.mem;
    }
  }

  // ---------- one call of kcas_help ----------

  /** States in which thread t runs alone. */
  ghost predicate Lone(p: Play, may: iset<Request>, s: State, t: nat) {
    && Closed(p) && t in p.wish && p.wish[t] in may && s in p.states && t < |s.threads|
    && forall q :: q in p.states ==> Good(q, may)
  }

  lemma Next(p: Play, may: iset<Request>, s: State, t: nat) returns (s': State)
    requires Lone(p, may, s, t)
    ensures s' == Step(s, t, p.wish[t]) && Lone(p, may, s', t)
  {
    s' := Step(s, t, p.wish[t]);
    ShapeKept(s, t, p.wish[t]);
  }

  predicate Deciding(pc: Pc) {
    !pc.Start? && !pc.ReadState? && !pc.Uninstall? && !pc.UninstallSwap?
  }

  /** The words of other operations on which the outer calls wait, up to the one whose operation is
      being helped. */
  ghost predicate OnWay(s: State, t: nat, may: iset<Request>, path: seq<nat>) {
    && Shape(s) && t < |s.threads| && Chain(may, path) && (forall i :: 0 <= i < |path| ==> path[i] < |s.sh.mem|)
    && (path != [] ==>
          && s.threads[t].stack != []
          && var f := Top(s.threads[t]);
          if Pending(s.sh, f.k) then s.sh.mem[path[|path| - 1]] == Kcas(f.k) else !Deciding(f.pc))
  }

  /** kcas_help has returned. */
  ghost predicate Popped(s: State, s': State, t: nat)
    requires t < |s.threads|
  {
    && t < |s'.threads| && s.threads[t].stack != []
    && s'.threads[t].stack == Outer(s.threads[t]) && s'.threads[t].help == NoHelp
    && s'.threads[t].call == if |s.threads[t].stack| == 1 && s.threads[t].call.Running? then Idle else s.threads[t].call
  }

  /** The operation is over, and none of its pointers are left. */
  ghost predicate Gone(sh: Shared, k: Id) {
    !Pending(sh, k) && forall a :: 0 <= a < |sh.mem| ==> sh.mem[a] != Kcas(k)
  }

  ghost predicate SameVersions(sh: Shared, sh': Shared) {
    |sh'.kd| == |sh.kd| && forall p :: 0 <= p < |sh.kd| ==> sh'.kd[p].ver == sh.kd[p].ver
  }

  lemma Returns(s: State, t: nat)
    requires KcasProof.Runs(s, t)
    requires var (sh', th') := FrameStep(s.sh, t, s.threads[t]); |th'.stack| < |s.threads[t].stack|
    ensures var (sh', th') := FrameStep(s.sh, t, s.threads[t]);
      sh' == s.sh && Gone(s.sh, Top(s.threads[t]).k) && Popped(s, State(sh', s.threads[t := th']), t)
  {
    var th := s.threads[t];
    var f := Top(th);
    assert FrameOk(s.sh, th.stack[|th.stack| - 1]);
    forall a | 0 <= a < |s.sh.mem| ensures s.sh.mem[a] != Kcas(f.k) { assert WordOk(s, a); }
  }

  // ---------- counting ----------

  lemma Smaller<T>(a: set<T>, b: set<T>)
    ensures a <= b ==> |a| <= |b|
    ensures a < b ==> |a| < |b|
  {
    if a <= b { assert b == a + (b - a); }
  }

  lemma {:induction false} Fits(path: seq<nat>, used: set<nat>)
    requires NoRepeats(path) && forall i :: 0 <= i < |path| ==> path[i] in used
    ensures |path| <= |used|
  {
    if path != [] {
      var last := path[|path| - 1];
      Fits(path[..|path| - 1], used - {last});
    }
  }

  function UpTo(n: nat): (r: set<nat>)
    ensures |r| == n && forall i: nat :: i in r <==> i < n
  {
    if n == 0 then {} else UpTo(n - 1) + {n - 1}
  }

  lemma PathFits(path: seq<nat>, n: nat)
    requires NoRepeats(path) && forall i :: 0 <= i < |path| ==> path[i] < n
    ensures |path| <= n
  {
    Fits(path, UpTo(n));
  }

  lemma UsesUp(sh: Shared, sh': Shared, t: nat)
    requires NotAbove(sh, sh', t)
    ensures |Unsettled(sh')| < |Unsettled(sh)| || (Unsettled(sh') == Unsettled(sh) && |Litter(sh', t)| <= |Litter(sh, t)|)
    ensures Below(sh, sh', t) ==> |Unsettled(sh')| < |Unsettled(sh)| || (Unsettled(sh') == Unsettled(sh) && |Litter(sh', t)| < |Litter(sh, t)|)
  {
    Smaller(Unsettled(sh'), Unsettled(sh));
    Smaller(Litter(sh', t), Litter(sh, t));
  }

  lemma NotAboveTrans(sh: Shared, mid: Shared, sh': Shared, t: nat)
    requires NotAbove(sh, mid, t) && NotAbove(mid, sh', t)
    ensures NotAbove(sh, sh', t) && (Below(sh, mid, t) || Below(mid, sh', t) ==> Below(sh, sh', t))
  {
  }

  // ---------- waiting for others ----------

  /** The waiting words never come round to one they began with. */
  lemma NoReturn(may: iset<Request>, path: seq<nat>, a: nat)
    requires NoCircle(may) && Chain(may, path) && path != [] && Edge(may, path[|path| - 1], a)
    ensures a !in path && Chain(may, path + [a])
  {
    if a in path {
      var i :| 0 <= i < |path| && path[i] == a;
      var c := path[i..];
      forall l | 0 < l < |c| ensures Edge(may, c[l - 1], c[l]) { assert c[l] == path[i + l]; }
      assert Circle(may, c);
    }
  }

  /** An operation that has its pointer in w, and meets another one at word i, names w before. */
  lemma NamesBefore(s: State, may: iset<Request>, k: Id, w: nat, i: nat)
    requires Good(s, may) && Pending(s.sh, k) && w < |s.sh.mem| && s.sh.mem[w] == Kcas(k)
    requires i < |ArgsOf(s.sh, k).addrs| && Peek(s.sh, ArgsOf(s.sh, k).addrs[i]) != Kcas(k)
    ensures Edge(may, w, ArgsOf(s.sh, k).addrs[i])
  {
    var args := ArgsOf(s.sh, k);
    assert WordOk(s, w) && InOrder(s.sh, w);
    var j := IndexOf(args.addrs, w);
    assert SlotAsked(s.sh.kd[k.pid], may);
  }

  /** kcas_help is called for another operation: one more word is waited for. */
  lemma WaitsFor(s: State, t: nat, may: iset<Request>, path: seq<nat>)
    requires Good(s, may) && NoCircle(may) && KcasProof.Runs(s, t) && OnWay(s, t, may, path)
    requires var (sh', th') := FrameStep(s.sh, t, s.threads[t]); |th'.stack| > |s.threads[t].stack|
    ensures var th := s.threads[t]; var (sh', th') := FrameStep(s.sh, t, th); var f := Top(th);
      && f.pc.DcssSwap? && f.pc.a2 < |s.sh.mem| && s.sh.mem[f.pc.a2] == Kcas(Top(th').k)
      && Outer(th') == th.stack[|th.stack| - 1 := Frame(f.k, Install(f.pc.i))]
      && sh' == s.sh && th'.call == th.call && th'.help == NoHelp
      && OnWay(State(sh', s.threads[t := th']), t, may, path + [f.pc.a2])
  {
    var th := s.threads[t];
    var f := Top(th);
    assert ThreadOk(s.sh, t, th) && FrameOk(s.sh, th.stack[|th.stack| - 1]) && WordOk(s, f.pc.a2);
    if path != [] {
      NamesBefore(s, may, f.k, path[|path| - 1], f.pc.i);
      NoReturn(may, path, f.pc.a2);
    }
  }

  ghost predicate Inside(sh: Shared, th: Thread, sh': Shared, th': Thread) {
    && SameVersions(sh, sh') && th.stack != []
    && (|th'.stack| == |th.stack| ==> Outer(th') == Outer(th) && Top(th').k == Top(th).k && th'.call == th.call)
  }

  /** Once decided, an operation is only cleared away. */
  lemma StaysDecided(s: State, t: nat)
    requires KcasProof.Runs(s, t) && !Deciding(Top(s.threads[t]).pc) && !Pending(s.sh, Top(s.threads[t]).k)
    requires var (sh', th') := FrameStep(s.sh, t, s.threads[t]); |th'.stack| == |s.threads[t].stack|
    ensures var (sh', th') := FrameStep(s.sh, t, s.threads[t]); !Deciding(Top(th').pc)
  {
  }

  /** Otherwise it stays on its way. */
  lemma StaysOnWay(s: State, t: nat, req: Request, may: iset<Request>, path: seq<nat>)
    requires Good(s, may) && t < |s.threads| && req in may && s.threads[t].stack != [] && OnWay(s, t, may, path)
    requires var s' := Step(s, t, req);
      && Unsettled(s'.sh) == Unsettled(s.sh)
      && Inside(s.sh, s.threads[t], s'.sh, s'.threads[t]) && |s'.threads[t].stack| == |s.threads[t].stack|
    ensures OnWay(Step(s, t, req), t, may, path)
  {
    var th, s' := s.threads[t], Step(s, t, req);
    var k := Top(th).k;
    assert ThreadOk(s.sh, t, th) && FrameOk(s.sh, th.stack[|th.stack| - 1]);
    KcasProof.StepInv(s, t, req);
    var placed :| Rely(s.sh, s'.sh, t, placed);
    NamesStable(s.sh, s'.sh, t, placed, k);
    if path == [] {
    } else if Pending(s.sh, k) {
      assert k.pid in Unsettled(s.sh);
      WordsStable(s.sh, s'.sh, t, placed, k, path[|path| - 1]);
    } else {
      StaysDecided(s, t);
    }
  }

  /** Some pointer of the operation was in memory, and now it is over: that is progress. */
  lemma GoneIsLess(q: Shared, r: Shared, t: nat, k: Id, a: nat)
    requires NotAbove(q, r, t) && SameVersions(q, r) && a < |q.mem| && q.mem[a] == Kcas(k) && Gone(r, k)
    ensures Below(q, r, t)
  {
    if Pending(q, k) {
      assert k.pid in Unsettled(q) && k.pid !in Unsettled(r);
    } else {
      assert a in Litter(q, t);
    }
  }

  /** One step inside kcas_help that stays inside the same call. */
  lemma StepFalls(s: State, t: nat, req: Request)
    requires Inv(s) && t < |s.threads| && s.threads[t].stack != [] && |Step(s, t, req).threads[t].stack| == |s.threads[t].stack|
    ensures var s' := Step(s, t, req);
      Falls(s.sh, s.threads[t], s'.sh, s'.threads[t], t)
  {
    if s.threads[t].help.NoHelp? { FrameFalls(s, t); } else { HelpFalls(s, t); }
  }

  /** Thread t is inside the same kcas_help, and nobody has made anything undecided. */
  ghost predicate Onward(s: State, s': State, t: nat) {
    && t < |s.threads| && t < |s'.threads|
    && SameVersions(s.sh, s'.sh) && NotAbove(s.sh, s'.sh, t)
    && var th, th' := s.threads[t], s'.threads[t];
    && th.stack != [] && th'.stack != [] && Outer(th') == Outer(th) && Top(th').k == Top(th).k && th'.call == th.call
  }

  /** kcas_help has returned, and its operation is over. */
  ghost predicate Done(s: State, s': State, t: nat) {
    && t < |s.threads| && Popped(s, s', t)
    && SameVersions(s.sh, s'.sh) && NotAbove(s.sh, s'.sh, t) && Gone(s'.sh, Top(s.threads[t]).k)
  }

  lemma ThenDone(s: State, q: State, s': State, t: nat)
    requires Onward(s, q, t) && Done(q, s', t)
    ensures Done(s, s', t)
  {
    NotAboveTrans(s.sh, q.sh, s'.sh, t);
    assert |s.threads[t].stack| == |Outer(s.threads[t])| + 1 == |q.threads[t].stack|;
  }

  /** The inner call is over. */
  lemma ComesBack(s: State, q: State, r: State, t: nat, i: nat, a: nat)
    requires t < |s.threads| && s.threads[t].stack != [] && Done(q, r, t) && q.sh == s.sh
    requires var th, th' := s.threads[t], q.threads[t];
      && th'.call == th.call && a < |s.sh.mem| && s.sh.mem[a] == Kcas(Top(th').k)
      && Outer(th') == th.stack[|th.stack| - 1 := Frame(Top(th).k, Install(i))]
    ensures Onward(s, r, t) && Below(s.sh, r.sh, t)
  {
    GoneIsLess(q.sh, r.sh, t, Top(q.threads[t]).k, a);
  }

  lemma SwapKeeps(sh: Shared, t: nat, th: Thread)
    requires t < |sh.kd| == |sh.dd| && th.stack != [] && Top(th).pc.DcssSwap?
    ensures var (sh', th') := DcssSwapStep(sh, t, th); Inside(sh, th, sh', th')
  {
  }

  lemma FrameKeeps(sh: Shared, t: nat, th: Thread)
    requires t < |sh.kd| == |sh.dd| && th.stack != []
    ensures var (sh', th') := FrameStep(sh, t, th); Inside(sh, th, sh', th')
  {
    if Top(th).pc.DcssSwap? { SwapKeeps(sh, t, th); }
  }

  lemma StepKeeps(s: State, t: nat, req: Request)
    requires Shape(s) && t < |s.threads| && s.threads[t].stack != []
    ensures var s' := Step(s, t, req); var th, th' := s.threads[t], s'.threads[t];
      && Inside(s.sh, th, s'.sh, th')
      && (|th'.stack| != |th.stack| ==> th.help.NoHelp?)
  {
    if s.threads[t].help.NoHelp? {
      FrameKeeps(s.sh, t, s.threads[t]);
    } else {
      assert Step(s, t, req).sh.kd == s.sh.kd;
    }
  }

  /** Left alone, kcas_help returns, and its operation is over. */
  lemma {:induction false} TopEnds(p: Play, may: iset<Request>, s: State, t: nat, path: seq<nat>) returns (s': State)
    requires Lone(p, may, s, t) && NoCircle(may) && s.threads[t].stack != [] && OnWay(s, t, may, path)
    ensures Lone(p, may, s', t) && Done(s, s', t)
    decreases |Unsettled(s.sh)|, |Litter(s.sh, t)|, |s.sh.mem| - |path|, Rank(s.sh, s.threads[t])
  {
    var th := s.threads[t];
    PathFits(path, |s.sh.mem|);
    var q := Next(p, may, s, t);
    StepKeeps(s, t, p.wish[t]);
    if |q.threads[t].stack| < |th.stack| {
      Returns(s, t);
      s' := q;
    } else if |q.threads[t].stack| > |th.stack| {
      WaitsFor(s, t, may, path);
      var a := Top(th).pc.a2;
      PathFits(path + [a], |s.sh.mem|);
      var r := TopEnds(p, may, q, t, path + [a]);
      ComesBack(s, q, r, t, Top(th).pc.i, a);
      UsesUp(s.sh, r.sh, t);
      s' := TopEnds(p, may, r, t, []);
      ThenDone(s, r, s', t);
    } else {
      StepFalls(s, t, p.wish[t]);
      UsesUp(s.sh, q.sh, t);
      if !Below(s.sh, q.sh, t) { StaysOnWay(s, t, p.wish[t], may, path); }
      s' := TopEnds(p, may, q, t, if Below(s.sh, q.sh, t) then [] else path);
      ThenDone(s, q, s', t);
    }
  }

  // ---------- one call of kcas or kcas_read ----------

  /** How far kcas_read is from looking at its word again, or from being done with it. */
  function LookRank(sh: Shared, th: Thread): nat {
    if th.stack != [] || !th.call.Reading? then 0
    else (if Grips(sh, th.help, th.call.a) then 4 else 8) + HelpRank(th.help)
  }

  lemma {:induction false} CallEnds(p: Play, may: iset<Request>, s: State, t: nat) returns (s': State)
    requires Lone(p, may, s, t) && NoCircle(may) && !s.threads[t].call.Create? && !s.threads[t].call.Publish?
    ensures Lone(p, may, s', t) && s'.threads[t].call.Idle?
    decreases |Unsettled(s.sh)|, |Litter(s.sh, t)|, |s.threads[t].stack|, LookRank(s.sh, s.threads[t])
  {
    var th := s.threads[t];
    assert ThreadOk(s.sh, t, th);
    if th.call.Idle? {
      s' := s;
    } else if th.stack != [] {
      s' := TopEnds(p, may, s, t, []);
      UsesUp(s.sh, s'.sh, t);
      s' := CallEnds(p, may, s', t);
    } else {
      s' := Next(p, may, s, t);
      if !th.help.NoHelp? {
        HelpClears(s, t);
        UsesUp(s.sh, s'.sh, t);
        assert WordOk(s, th.call.a);
      } else if Peek(s.sh, th.call.a).Kcas? {
        var r := TopEnds(p, may, s', t, []);
        GoneIsLess(s'.sh, r.sh, t, Peek(s.sh, th.call.a).k, th.call.a);
        UsesUp(s'.sh, r.sh, t);
        s' := r;
      }
      s' := CallEnds(p, may, s', t);
    }
  }

  lemma BegunEnds(p: Play, may: iset<Request>, s: State, t: nat) returns (s': State)
    requires Lone(p, may, s, t) && NoCircle(may)
    ensures Lone(p, may, s', t) && s'.threads[t].call.Idle?
  {
    s' := s;
    assert ThreadOk(s.sh, t, s.threads[t]);
    if s'.threads[t].call.Create? { s' := Next(p, may, s', t); }
    if s'.threads[t].call.Publish? { s' := Next(p, may, s', t); }
    s' := CallEnds(p, may, s', t);
  }

  // ---------- all reachable states ----------

  /** What thread t does in k accesses when nobody else runs. */
  ghost function Turns(s: State, t: nat, req: Request, k: nat): State {
    if k == 0 then s
    else
      var q := Turns(s, t, req, k - 1);
      if Shape(q) && t < |q.threads| then Step(q, t, req) else q
  }

  ghost predicate IdleAfter(s: State, t: nat, req: Request, k: nat) {
    t < |Turns(s, t, req, k).threads| && Turns(s, t, req, k).threads[t].call.Idle?
  }

  /** Left alone, thread t finishes the call that it is in, or else the one that it is asked for. */
  ghost predicate Finishes(s: State, t: nat, req: Request) {
    exists k: nat :: k > 0 && IdleAfter(s, t, req, k)
  }

  lemma {:induction false} ReachableGood(first: seq<int>, n: nat, may: iset<Request>, s: State, len: nat)
    requires After(first, n, may, s, len) && forall req :: req in may ==> Allowed(first, req)
    ensures Good(s, may) && s.sh.first == first && |s.threads| == n
    decreases len
  {
    if len == 0 {
      KcasProof.InitInv(first, n);
    } else {
      var p: State, t: nat, req :|
        After(first, n, may, p, len - 1) && Shape(p) && t < |p.threads| && req in may && s == Step(p, t, req);
      ReachableGood(first, n, may, p, len - 1);
      GoodStep(p, t, req, may);
      ShapeKept(p, t, req);
    }
  }

  ghost function AllTurns(s: State, t: nat, req: Request, may: iset<Request>): Play {
    Play(iset q | Good(q, may) && exists k: nat :: k > 0 && q == Turns(s, t, req, k), map[t := req])
  }

  lemma NextTurn(s: State, t: nat, req: Request, k: nat)
    requires var q := Turns(s, t, req, k); Shape(q) && t < |q.threads|
    ensures Step(Turns(s, t, req, k), t, req) == Turns(s, t, req, k + 1)
  {
  }

  lemma TurnsClosed(s: State, t: nat, req: Request, may: iset<Request>)
    requires Good(s, may) && t < |s.threads| && req in may
    ensures Lone(AllTurns(s, t, req, may), may, Step(s, t, req), t)
  {
    var p := AllTurns(s, t, req, may);
    NextTurn(s, t, req, 0);
    GoodStep(s, t, req, may);
    ShapeKept(s, t, req);
    forall q: State, u: nat | q in p.states && Shape(q) && u < |q.threads| && u in p.wish
      ensures Step(q, u, p.wish[u]) in p.states
    {
      var k: nat :| k > 0 && q == Turns(s, t, req, k);
      NextTurn(s, t, req, k);
      GoodStep(q, t, req, may);
    }
  }

  /** From every reachable state, every thread finishes its call when it is left alone, whatever the
      others have left in the middle, if no words are named in a circle. */
  lemma LoneCallEnds(first: seq<int>, n: nat, may: iset<Request>, s: State, t: nat, req: Request)
    requires (forall r :: r in may ==> Allowed(first, r)) && NoCircle(may)
    requires Reachable(first, n, may, s) && t < n && req in may
    ensures Finishes(s, t, req)
  {
    var len: nat :| After(first, n, may, s, len);
    ReachableGood(first, n, may, s, len);
    var p := AllTurns(s, t, req, may);
    TurnsClosed(s, t, req, may);
    var s' := BegunEnds(p, may, Step(s, t, req), t);
    var k: nat :| k > 0 && s' == Turns(s, t, req, k);
    assert IdleAfter(s, t, req, k);
  }
}
