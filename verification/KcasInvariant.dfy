/** What every reachable state of the KCAS protocol satisfies, and the conditions under
    which one thread's step leaves the other threads' part of it alone. */
module KcasInvariant {
  import opened KcasModel

  // ---------- logical memory ----------

  function IndexOf(xs: seq<nat>, x: nat): (i: nat)
    requires x in xs
    ensures i < |xs| && xs[i] == x
  {
    if xs[0] == x then 0 else 1 + IndexOf(xs[1..], x)
  }

  /** What word a means: an undecided or failed operation has not happened, a succeeded one has. */
  function Logical(sh: Shared, a: nat): int
    requires a < |sh.mem|
  {
    match sh.mem[a]
    case Plain(v) => v
    case Dcss(d) => if d.pid < |sh.dd| then sh.dd[d.pid].e2 else 0
    case Kcas(k) =>
      if KLive(sh, k) && a in ArgsOf(sh, k).addrs then
        var args := ArgsOf(sh, k);
        var i := IndexOf(args.addrs, a);
        if sh.kd[k.pid].verdict == Succeeded then args.news[i] else args.olds[i]
      else 0
  }

  // ---------- names ----------

  /** A KCAS pointer that was handed out: even, not from the future, so stale stays stale. */
  ghost predicate KNamed(sh: Shared, k: Id) {
    k.pid < |sh.kd| && k.ver % 2 == 0 && 2 <= k.ver <= sh.kd[k.pid].ver
  }

  ghost predicate DNamed(sh: Shared, d: Id) {
    d.pid < |sh.dd| && d.ver % 2 == 0 && 2 <= d.ver <= sh.dd[d.pid].ver
  }

  // ---------- slots ----------

  ghost predicate SlotsOk(sh: Shared) {
    && |sh.kd| == |sh.dd|
    && |sh.first| == |sh.mem|
    && (forall p :: 0 <= p < |sh.kd| ==> OneShot(sh.first, sh.kd[p].args))
    && (forall p :: 0 <= p < |sh.dd| ==> DcssSlotOk(sh, sh.dd[p]))
  }

  ghost predicate DcssSlotOk(sh: Shared, slot: DcssSlot) {
    slot.ver % 2 == 0 && slot.ver > 0 ==>
      KNamed(sh, slot.k) && slot.a2 < |sh.first| && slot.e2 == sh.first[slot.a2]
  }

  // ---------- frames ----------

  /** Words 0..i of an undecided operation already hold its pointer. */
  ghost predicate Installed(sh: Shared, k: Id, i: nat) {
    KLive(sh, k) ==>
      var addrs := ArgsOf(sh, k).addrs;
      && i <= |addrs|
      && (Pending(sh, k) ==> forall j :: 0 <= j < i ==> Peek(sh, addrs[j]) == Kcas(k))
  }

  /** Word i of operation k is a2, expected to hold e2. */
  ghost predicate Target(sh: Shared, k: Id, i: nat, a2: nat, e2: int) {
    && a2 < |sh.first|
    && e2 == sh.first[a2]
    && (KLive(sh, k) ==> i < |ArgsOf(sh, k).addrs| && ArgsOf(sh, k).addrs[i] == a2)
  }

  /** The verdict a frame is about to propose is right and will stay right. */
  ghost predicate Proposal(sh: Shared, k: Id, i: nat, verdict: Verdict) {
    && verdict != Undecided
    && (Pending(sh, k) ==>
          var args := ArgsOf(sh, k);
          if verdict == Succeeded then i == |args.addrs|
          else i < |args.addrs| && Mismatch(sh, args, i))
  }

  /** Word i holds a plain value other than the expected one; on one-shot words that is for good. */
  ghost predicate Mismatch(sh: Shared, args: Args, i: nat)
    requires i < |args.addrs|
  {
    var w := Peek(sh, args.addrs[i]);
    w.Plain? && w.v != args.olds[i]
  }

  /** Words 0..i of a decided operation no longer hold its pointer. */
  ghost predicate Uninstalled(sh: Shared, k: Id, i: nat, ok: bool) {
    KLive(sh, k) ==>
      var addrs := ArgsOf(sh, k).addrs;
      && !Pending(sh, k)
      && (ok <==> sh.kd[k.pid].verdict == Succeeded)
      && i <= |addrs|
      && (forall j :: 0 <= j < i ==> Peek(sh, addrs[j]) != Kcas(k))
  }

  ghost predicate FrameOk(sh: Shared, f: Frame) {
    && KNamed(sh, f.k)
    && match f.pc
       case Start => true
       case Install(i) => Installed(sh, f.k, i)
       case DcssBegin(i, a2, e2) => Installed(sh, f.k, i) && Target(sh, f.k, i, a2, e2)
       case DcssPublish(i, a2, e2) => Installed(sh, f.k, i) && Target(sh, f.k, i, a2, e2)
       case DcssSwap(i, a2, e2) => Installed(sh, f.k, i) && Target(sh, f.k, i, a2, e2)
       case DcssDone(i, a2, e2) => Installed(sh, f.k, i) && Target(sh, f.k, i, a2, e2)
       case DecideLoad(i, verdict) => Installed(sh, f.k, i) && Proposal(sh, f.k, i, verdict)
       case DecideSwap(i, verdict) => Installed(sh, f.k, i) && Proposal(sh, f.k, i, verdict)
       case ReadState => !Pending(sh, f.k)
       case Uninstall(i, ok) => Uninstalled(sh, f.k, i, ok)
       case UninstallSwap(i, ok, a, n) =>
         && Uninstalled(sh, f.k, i, ok)
         && (KLive(sh, f.k) ==>
               var args := ArgsOf(sh, f.k);
               i < |args.addrs| && a == args.addrs[i] && n == if ok then args.news[i] else args.olds[i])
  }

  // ---------- dcss_help ----------

  ghost predicate Copied(sh: Shared, d: Id, k: Id, a2: nat, e2: int) {
    && DNamed(sh, d)
    && KNamed(sh, k)
    && a2 < |sh.first|
    && e2 == sh.first[a2]
    && (DLive(sh, d) ==> sh.dd[d.pid] == DcssSlot(d.ver, k, a2, e2))
  }

  ghost predicate HelpOk(sh: Shared, h: Help) {
    match h
    case NoHelp => true
    case Read(d) => DNamed(sh, d)
    case Load(d, k, a2, e2) => Copied(sh, d, k, a2, e2)
    case Swap(d, k, a2, e2, go) =>
      && Copied(sh, d, k, a2, e2)
      && (!go ==> !Pending(sh, k))
      && (go && Peek(sh, a2) == Dcss(d) ==> Pending(sh, k))
  }

  // ---------- threads ----------

  ghost predicate FramesOk(sh: Shared, th: Thread) {
    forall i :: 0 <= i < |th.stack| ==> FrameOk(sh, th.stack[i])
  }

  ghost predicate CallOk(sh: Shared, t: nat, th: Thread)
    requires t < |sh.kd|
  {
    && (th.call.Publish? <==> sh.kd[t].ver % 2 == 1)
    && (th.call.Idle? || th.call.Create? || th.call.Publish? ==> th.stack == [])
    && (th.call.Create? || th.call.Publish? || th.call.Running? ==> OneShot(sh.first, th.call.args))
    && (th.call.Running? ==>
          && th.stack != []
          && th.stack[0].k == Id(t, sh.kd[t].ver)
          && sh.kd[t].args == th.call.args)
    && (!th.call.Publish? && !th.call.Running? && sh.kd[t].ver > 0 ==> sh.kd[t].verdict != Undecided)
    && (th.call.Reading? ==> th.call.a < |sh.mem|)
    && (th.help.NoHelp? || th.stack != [] || th.call.Reading?)
  }

  /** A thread's own DCSS slot belongs to its top frame. */
  ghost predicate DcssOk(sh: Shared, t: nat, th: Thread)
    requires t < |sh.dd|
  {
    && (sh.dd[t].ver % 2 == 1 <==> th.stack != [] && Top(th).pc.DcssPublish?)
    && (th.stack != [] && (Top(th).pc.DcssSwap? || Top(th).pc.DcssDone?) ==>
          var pc := Top(th).pc;
          && sh.dd[t].ver >= 2
          && sh.dd[t] == DcssSlot(sh.dd[t].ver, Top(th).k, pc.a2, pc.e2)
          && (pc.DcssDone? ==>
                && (!th.help.NoHelp? ==> th.help.d == Id(t, sh.dd[t].ver))
                && (Pending(sh, Top(th).k) ==>
                      || Peek(sh, pc.a2) == Kcas(Top(th).k)
                      || (!th.help.NoHelp? && Peek(sh, pc.a2) == Dcss(Id(t, sh.dd[t].ver))))))
    && (!th.help.NoHelp? && th.stack != [] ==> Top(th).pc.DcssSwap? || Top(th).pc.DcssDone?)
    && (forall i :: 0 <= i < |th.stack| - 1 ==> th.stack[i].pc.Install?)
  }

  ghost predicate ThreadOk(sh: Shared, t: nat, th: Thread)
    requires t < |sh.kd| == |sh.dd|
  {
    FramesOk(sh, th) && HelpOk(sh, th.help) && CallOk(sh, t, th) && DcssOk(sh, t, th)
  }

  // ---------- words ----------

  /** A flagged pointer in memory names a live descriptor whose owner is still at work on it. */
  ghost predicate WordOk(s: State, a: nat)
    requires Shape(s) && a < |s.sh.mem|
  {
    match s.sh.mem[a]
    case Plain(_) => true
    case Kcas(k) =>
      && KLive(s.sh, k)
      && KNamed(s.sh, k)
      && s.threads[k.pid].call.Running?
      && a in ArgsOf(s.sh, k).addrs
    case Dcss(d) =>
      && DLive(s.sh, d)
      && DNamed(s.sh, d)
      && s.sh.dd[d.pid].a2 == a
      && Resolving(s.threads[d.pid], d, a)
  }

  /** Thread th installed d at a and is still inside its own dcss_help(d). */
  ghost predicate Resolving(th: Thread, d: Id, a: nat) {
    && th.stack != []
    && Top(th).pc.DcssDone?
    && Top(th).pc.a2 == a
    && !th.help.NoHelp?
    && th.help.d == d
  }

  /** A DCSS pointer that is not yet in memory is known to nobody but its owner. */
  ghost predicate Secret(s: State, t: nat, u: nat)
    requires Shape(s) && t < |s.threads| && u < |s.threads|
  {
    var th, other := s.threads[t], s.threads[u];
    th.stack != [] && Top(th).pc.DcssSwap? && !other.help.NoHelp? ==> other.help.d != Id(t, s.sh.dd[t].ver)
  }

  ghost predicate Inv(s: State) {
    && Shape(s)
    && SlotsOk(s.sh)
    && (forall t :: 0 <= t < |s.threads| ==> ThreadOk(s.sh, t, s.threads[t]))
    && (forall a :: 0 <= a < |s.sh.mem| ==> WordOk(s, a))
    && (forall t, u :: 0 <= t < |s.threads| && 0 <= u < |s.threads| ==> Secret(s, t, u))
  }

  // ---------- rely conditions ----------

  /** What may happen to one KCAS slot: rewritten by its owner t, or decided once. */
  ghost predicate KSlotMove(x: KcasSlot, y: KcasSlot) {
    || y == x
    || (y.ver == x.ver && y.args == x.args && x.verdict == Undecided)
    || (y.ver == x.ver + 1 && (x.ver % 2 == 1 || x.ver == 0 || x.verdict != Undecided))
  }

  ghost predicate DSlotMove(x: DcssSlot, y: DcssSlot) {
    y == x || y.ver == x.ver + 1
  }

  /** What may happen to word a. Only "placed" may newly appear as a DCSS pointer. */
  ghost predicate WordMove(sh: Shared, sh': Shared, a: nat, placed: Id)
    requires a < |sh.mem| == |sh'.mem| == |sh.first|
  {
    || sh'.mem[a] == sh.mem[a]
    || (sh.mem[a] == Plain(sh.first[a]) && sh'.mem[a] == Dcss(placed))
    || (sh.mem[a].Dcss? && DLive(sh, sh.mem[a].d) &&
        var k := sh.dd[sh.mem[a].d.pid].k;
        if Pending(sh, k) then sh'.mem[a] == Kcas(k) else sh'.mem[a] == Plain(sh.first[a]))
    || (sh.mem[a].Kcas? && !Pending(sh, sh.mem[a].k) && sh'.mem[a] == Plain(Logical(sh, a)))
  }

  /** What a step of thread t does to the shared state, seen from elsewhere. */
  ghost predicate Rely(sh: Shared, sh': Shared, t: nat, placed: Id) {
    && SlotsOk(sh) && SlotsOk(sh')
    && sh'.first == sh.first && |sh'.mem| == |sh.mem| && |sh'.kd| == |sh.kd| && |sh'.dd| == |sh.dd|
    && (forall p :: 0 <= p < |sh.kd| ==> KSlotMove(sh.kd[p], sh'.kd[p]))
    && (forall p :: 0 <= p < |sh.kd| && p != t ==> sh'.kd[p].ver == sh.kd[p].ver)
    && (forall p :: 0 <= p < |sh.dd| ==> DSlotMove(sh.dd[p], sh'.dd[p]))
    && (forall p :: 0 <= p < |sh.dd| && p != t ==> sh'.dd[p] == sh.dd[p])
    && (forall a :: 0 <= a < |sh.mem| && sh.mem[a].Dcss? ==> DLive(sh, sh.mem[a].d))
    && (forall a :: 0 <= a < |sh.mem| ==> WordMove(sh, sh', a, placed))
    && (forall a :: 0 <= a < |sh.mem| ==> StillPending(sh, sh', a))
  }

  ghost predicate Moves(sh: Shared, sh': Shared, t: nat) {
    && (exists placed :: Rely(sh, sh', t, placed))
    && (sh'.mem == sh.mem || sh'.kd == sh.kd)
  }

  /** While a DCSS pointer for an undecided operation is in memory, nobody decides the operation. */
  ghost predicate StillPending(sh: Shared, sh': Shared, a: nat)
    requires a < |sh.mem| == |sh'.mem|
  {
    sh.mem[a].Dcss? && DLive(sh, sh.mem[a].d) && sh'.mem[a] == sh.mem[a] ==>
      var k := sh.dd[sh.mem[a].d.pid].k;
      Pending(sh, k) ==> Pending(sh', k)
  }

  // ---------- stability ----------

  lemma NamesStable(sh: Shared, sh': Shared, t: nat, placed: Id, k: Id)
    requires Rely(sh, sh', t, placed) && KNamed(sh, k)
    ensures KNamed(sh', k)
    ensures KLive(sh', k) ==> KLive(sh, k) && ArgsOf(sh', k) == ArgsOf(sh, k)
    ensures Pending(sh', k) ==> Pending(sh, k)
    ensures KLive(sh', k) && !Pending(sh, k) ==> sh'.kd[k.pid] == sh.kd[k.pid]
  {
    assert KSlotMove(sh.kd[k.pid], sh'.kd[k.pid]);
  }

  /** A pointer of an undecided operation stays, a removed pointer of a decided one stays away,
      and a plain value other than the initial one stays. */
  lemma WordsStable(sh: Shared, sh': Shared, t: nat, placed: Id, k: Id, a: nat)
    requires Rely(sh, sh', t, placed) && KNamed(sh, k) && a < |sh.mem|
    ensures Pending(sh', k) && Peek(sh, a) == Kcas(k) ==> Peek(sh', a) == Kcas(k)
    ensures KLive(sh, k) && !Pending(sh, k) && Peek(sh, a) != Kcas(k) ==> Peek(sh', a) != Kcas(k)
    ensures Peek(sh, a).Plain? && Peek(sh, a) != Plain(sh.first[a]) ==> Peek(sh', a) == Peek(sh, a)
  {
    NamesStable(sh, sh', t, placed, k);
    assert WordMove(sh, sh', a, placed);
  }

  lemma FrameStable(sh: Shared, sh': Shared, t: nat, placed: Id, f: Frame)
    requires Rely(sh, sh', t, placed) && FrameOk(sh, f)
    ensures FrameOk(sh', f)
  {
    NamesStable(sh, sh', t, placed, f.k);
    if KLive(sh', f.k) {
      var args := ArgsOf(sh, f.k);
      assert OneShot(sh.first, args);
      forall j | 0 <= j < |args.addrs|
        ensures Pending(sh', f.k) && Peek(sh, args.addrs[j]) == Kcas(f.k) ==> Peek(sh', args.addrs[j]) == Kcas(f.k)
        ensures !Pending(sh, f.k) && Peek(sh, args.addrs[j]) != Kcas(f.k) ==> Peek(sh', args.addrs[j]) != Kcas(f.k)
        ensures Mismatch(sh, args, j) ==> Mismatch(sh', args, j)
      {
        WordsStable(sh, sh', t, placed, f.k, args.addrs[j]);
      }
    }
  }

  lemma HelpStable(sh: Shared, sh': Shared, t: nat, placed: Id, h: Help)
    requires Rely(sh, sh', t, placed) && HelpOk(sh, h)
    requires h.NoHelp? || h.d != placed
    ensures HelpOk(sh', h)
  {
    if !h.NoHelp? {
      assert DSlotMove(sh.dd[h.d.pid], sh'.dd[h.d.pid]);
      if !h.Read? {
        NamesStable(sh, sh', t, placed, h.k);
        if h.Swap? {
          assert WordMove(sh, sh', h.a2, placed);
          assert StillPending(sh, sh', h.a2);
        }
      }
    }
  }

  lemma DcssStable(sh: Shared, sh': Shared, t: nat, placed: Id, u: nat, th: Thread)
    requires Rely(sh, sh', t, placed) && u < |sh.kd| && u != t && ThreadOk(sh, u, th)
    ensures DcssOk(sh', u, th)
  {
    if th.stack != [] {
      var f := Top(th);
      assert FrameOk(sh, th.stack[|th.stack| - 1]);
      NamesStable(sh, sh', t, placed, f.k);
      if f.pc.DcssDone? && Pending(sh', f.k) {
        assert WordMove(sh, sh', f.pc.a2, placed);
        assert StillPending(sh, sh', f.pc.a2);
        WordsStable(sh, sh', t, placed, f.k, f.pc.a2);
      }
    }
  }

  /** A step of t leaves every other thread's invariant standing. */
  lemma OtherThreadStable(sh: Shared, sh': Shared, t: nat, placed: Id, u: nat, th: Thread)
    requires Rely(sh, sh', t, placed) && u < |sh.kd| && u != t && ThreadOk(sh, u, th)
    requires th.help.NoHelp? || th.help.d != placed
    ensures ThreadOk(sh', u, th)
  {
    forall i | 0 <= i < |th.stack| ensures FrameOk(sh', th.stack[i]) {
      FrameStable(sh, sh', t, placed, th.stack[i]);
    }
    HelpStable(sh, sh', t, placed, th.help);
    DcssStable(sh, sh', t, placed, u, th);
    assert KSlotMove(sh.kd[u], sh'.kd[u]);
  }
}
