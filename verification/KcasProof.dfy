/** The invariant of the KCAS protocol holds initially and after every step of every thread. */
module KcasProof {
  import opened KcasModel
  import opened KcasInvariant

  function With(s: State, t: nat, sh': Shared, th': Thread): State
    requires t < |s.threads|
  {
    State(sh', s.threads[t := th'])
  }

  /** Words keep their meaning when thread t moves from th to th'. */
  ghost predicate Keeps(s: State, t: nat, th': Thread)
    requires Shape(s) && t < |s.threads|
  {
    forall a :: 0 <= a < |s.sh.mem| ==> KeepsAt(s, t, th', a)
  }

  ghost predicate KeepsAt(s: State, t: nat, th': Thread, a: nat)
    requires Shape(s) && t < |s.threads| && a < |s.sh.mem|
  {
    match s.sh.mem[a]
    case Plain(_) => true
    case Kcas(k) => k.pid == t ==> th'.call.Running?
    case Dcss(d) => d.pid == t ==> Resolving(th', d, a)
  }

  /** The DCSS pointers thread t knows after its step are its own, known before, or found in memory. */
  ghost predicate Learns(s: State, t: nat, th': Thread)
    requires Shape(s) && t < |s.threads|
  {
    var th := s.threads[t];
    th'.help.NoHelp?
    || (!th.help.NoHelp? && th'.help.d == th.help.d)
    || (exists a :: 0 <= a < |s.sh.mem| && s.sh.mem[a] == Dcss(th'.help.d))
  }

  /** The part every step shares: what t changed is harmless to everybody else. */
  lemma Close(s: State, t: nat, sh': Shared, th': Thread, placed: Id)
    requires Inv(s) && t < |s.threads|
    requires Rely(s.sh, sh', t, placed) && ThreadOk(sh', t, th')
    requires sh'.mem == s.sh.mem || sh'.kd == s.sh.kd
    requires forall u :: 0 <= u < |s.threads| && u != t ==>
      s.threads[u].help.NoHelp? || s.threads[u].help.d != placed
    requires forall a :: 0 <= a < |sh'.mem| ==> WordOk(With(s, t, sh', th'), a)
    requires forall u :: 0 <= u < |s.threads| ==>
      Secret(With(s, t, sh', th'), t, u) && Secret(With(s, t, sh', th'), u, t)
    ensures Inv(With(s, t, sh', th')) && Moves(s.sh, sh', t)
  {
    var s' := With(s, t, sh', th');
    forall u | 0 <= u < |s'.threads| ensures ThreadOk(sh', u, s'.threads[u]) {
      if u != t { OtherThreadStable(s.sh, sh', t, placed, u, s.threads[u]); }
    }
    forall u, v | 0 <= u < |s'.threads| && 0 <= v < |s'.threads| ensures Secret(s', u, v) {
      if u != t && v != t { assert Secret(s, u, v); }
    }
  }

  /** A step that touches no shared state but thread t's own position. */
  lemma Quiet(s: State, t: nat, th': Thread)
    requires Inv(s) && t < |s.threads|
    requires ThreadOk(s.sh, t, th') && Keeps(s, t, th') && Learns(s, t, th')
    requires th'.stack != [] && Top(th').pc.DcssSwap? ==>
      s.threads[t].stack != [] && Top(s.threads[t]).pc.DcssSwap?
    ensures Inv(With(s, t, s.sh, th')) && Moves(s.sh, s.sh, t)
  {
    var s' := With(s, t, s.sh, th');
    var nobody := Id(0, 1);
    forall a | 0 <= a < |s.sh.mem|
      ensures WordOk(s', a) && WordMove(s.sh, s.sh, a, nobody) && StillPending(s.sh, s.sh, a)
      ensures s.sh.mem[a].Dcss? ==> DLive(s.sh, s.sh.mem[a].d)
    {
      assert WordOk(s, a) && KeepsAt(s, t, th', a);
    }
    assert Rely(s.sh, s.sh, t, nobody);
    forall u | 0 <= u < |s.threads| ensures Secret(s', t, u) && Secret(s', u, t) {
      assert Secret(s, t, u) && Secret(s, u, t) && Secret(s, t, t);
      assert ThreadOk(s.sh, u, s.threads[u]);
      if !th'.help.NoHelp? && (s.threads[t].help.NoHelp? || th'.help.d != s.threads[t].help.d) {
        var a :| 0 <= a < |s.sh.mem| && s.sh.mem[a] == Dcss(th'.help.d);
        assert WordOk(s, a) && KeepsAt(s, t, th', a);
      }
    }
    Close(s, t, s.sh, th', nobody);
  }

  /** One word under a step that changes shared state. */
  ghost predicate WordStep(s: State, t: nat, sh': Shared, th': Thread, placed: Id, a: nat)
    requires Shape(s) && t < |s.threads| && a < |s.sh.mem| == |sh'.mem|
    requires |sh'.kd| == |s.sh.kd| && |sh'.dd| == |s.sh.dd|
    requires |sh'.first| == |s.sh.first|
  {
    && WordOk(With(s, t, sh', th'), a)
    && WordMove(s.sh, sh', a, placed)
    && StillPending(s.sh, sh', a)
    && (s.sh.mem[a].Dcss? ==> DLive(s.sh, s.sh.mem[a].d))
  }

  /** A step of the top frame that changes shared state: what is left to check about it. */
  lemma Finish(s: State, t: nat, sh': Shared, th': Thread, placed: Id)
    requires Inv(s) && t < |s.threads|
    requires SlotsOk(sh') && sh'.first == s.sh.first
    requires sh'.mem == s.sh.mem || sh'.kd == s.sh.kd
    requires |sh'.mem| == |s.sh.mem| && |sh'.kd| == |s.sh.kd| && |sh'.dd| == |s.sh.dd|
    requires forall p :: 0 <= p < |sh'.kd| ==>
      KSlotMove(s.sh.kd[p], sh'.kd[p]) && (p != t ==> sh'.kd[p].ver == s.sh.kd[p].ver)
    requires forall p :: 0 <= p < |sh'.dd| ==>
      DSlotMove(s.sh.dd[p], sh'.dd[p]) && (p != t ==> sh'.dd[p] == s.sh.dd[p])
    requires forall a :: 0 <= a < |sh'.mem| ==> WordStep(s, t, sh', th', placed, a)
    requires s.threads[t].stack != [] && |th'.stack| == |s.threads[t].stack|
    requires forall i :: 0 <= i < |th'.stack| - 1 ==> th'.stack[i] == s.threads[t].stack[i]
    requires FrameOk(sh', Top(th')) && HelpOk(sh', th'.help) && CallOk(sh', t, th') && DcssOk(sh', t, th')
    requires placed.ver % 2 == 0 ==> forall u :: 0 <= u < |s.threads| && u != t ==>
      s.threads[u].help.NoHelp? || s.threads[u].help.d != placed
    requires forall u :: 0 <= u < |s.threads| ==>
      Secret(With(s, t, sh', th'), t, u) && Secret(With(s, t, sh', th'), u, t)
    ensures Inv(With(s, t, sh', th')) && Moves(s.sh, sh', t)
  {
    forall a | 0 <= a < |sh'.mem|
      ensures WordOk(With(s, t, sh', th'), a)
      ensures WordMove(s.sh, sh', a, placed) && StillPending(s.sh, sh', a)
      ensures s.sh.mem[a].Dcss? ==> DLive(s.sh, s.sh.mem[a].d)
    {
      assert WordStep(s, t, sh', th', placed, a);
    }
    assert Rely(s.sh, sh', t, placed);
    var th := s.threads[t];
    forall i | 0 <= i < |th'.stack| ensures FrameOk(sh', th'.stack[i]) {
      assert ThreadOk(s.sh, t, th) && FrameOk(s.sh, th.stack[i]);
      FrameStable(s.sh, sh', t, placed, th.stack[i]);
    }
    forall u | 0 <= u < |s.threads| && u != t ensures s.threads[u].help.NoHelp? || s.threads[u].help.d != placed {
      assert ThreadOk(s.sh, u, s.threads[u]);
    }
    Close(s, t, sh', th', placed);
  }

  /** Slots that do not change, or change only in ways their users do not see. */
  lemma SlotsKept(sh: Shared, sh': Shared)
    requires SlotsOk(sh) && sh'.first == sh.first && |sh'.mem| == |sh.mem|
    requires |sh'.kd| == |sh.kd| && sh'.dd == sh.dd
    requires forall p :: 0 <= p < |sh.kd| ==> sh'.kd[p].ver >= sh.kd[p].ver && OneShot(sh.first, sh'.kd[p].args)
    ensures SlotsOk(sh')
  {
    forall p | 0 <= p < |sh.dd| ensures DcssSlotOk(sh', sh'.dd[p]) { assert DcssSlotOk(sh, sh.dd[p]); }
  }

  /** A thread outside the install CAS keeps its own and the others' DCSS pointers secret. */
  lemma SecretsKept(s: State, t: nat, sh': Shared, th': Thread)
    requires Inv(s) && t < |s.threads| && Shape(With(s, t, sh', th'))
    requires th'.help.NoHelp?
    requires th'.stack == [] || !Top(th').pc.DcssSwap? || (sh'.dd[t].ver > s.sh.dd[t].ver)
    ensures forall u :: 0 <= u < |s.threads| ==>
      Secret(With(s, t, sh', th'), t, u) && Secret(With(s, t, sh', th'), u, t)
  {
    forall u | 0 <= u < |s.threads|
      ensures Secret(With(s, t, sh', th'), t, u) && Secret(With(s, t, sh', th'), u, t)
    {
      assert ThreadOk(s.sh, u, s.threads[u]);
    }
  }

  // ---------- dcss_help ----------

  lemma HelpStepInv(s: State, t: nat)
    requires Inv(s) && t < |s.threads| && !s.threads[t].help.NoHelp? && !s.threads[t].help.Swap?
    ensures var (sh', th') := HelpStep(s.sh, s.threads[t]); Inv(With(s, t, sh', th')) && Moves(s.sh, sh', t)
  {
    var sh, th := s.sh, s.threads[t];
    var (sh', th') := HelpStep(sh, th);
    assert ThreadOk(sh, t, th);
    assert DcssSlotOk(sh, sh.dd[th.help.d.pid]);
    forall a | 0 <= a < |sh.mem| ensures KeepsAt(s, t, th', a) { assert WordOk(s, a); }
    assert HelpOk(sh, th'.help);
    Quiet(s, t, th');
  }

  /** An undecided operation is still being run by its owner. */
  lemma PendingRuns(s: State, k: Id)
    requires Inv(s) && KNamed(s.sh, k) && Pending(s.sh, k)
    ensures s.threads[k.pid].call.Running?
  {
    assert ThreadOk(s.sh, k.pid, s.threads[k.pid]);
  }

  /** What the owner of an installed DCSS pointer is doing. */
  lemma Installer(s: State, a: nat)
    requires Inv(s) && a < |s.sh.mem| && s.sh.mem[a].Dcss?
    ensures var d := s.sh.mem[a].d;
      && DLive(s.sh, d) && DNamed(s.sh, d) && Resolving(s.threads[d.pid], d, a)
      && var f := Top(s.threads[d.pid]);
      && FrameOk(s.sh, f) && KNamed(s.sh, f.k)
      && s.sh.dd[d.pid] == DcssSlot(d.ver, f.k, a, s.sh.first[a])
      && (KLive(s.sh, f.k) ==> a in ArgsOf(s.sh, f.k).addrs)
  {
    assert WordOk(s, a);
    var d := s.sh.mem[a].d;
    assert ThreadOk(s.sh, d.pid, s.threads[d.pid]);
    var stack := s.threads[d.pid].stack;
    assert FrameOk(s.sh, stack[|stack| - 1]);
  }

  /** dcss_help's CAS on one word: it resolves the descriptor the way its operation stands. */
  lemma HelpSwapWord(s: State, t: nat, a: nat)
    requires Inv(s) && t < |s.threads| && s.threads[t].help.Swap? && a < |s.sh.mem|
    ensures var (sh', th') := HelpStep(s.sh, s.threads[t]);
      && WordOk(With(s, t, sh', th'), a)
      && WordMove(s.sh, sh', a, Id(0, 1))
      && StillPending(s.sh, sh', a)
      && (s.sh.mem[a].Dcss? ==> DLive(s.sh, s.sh.mem[a].d))
  {
    var Swap(d, k, a2, e2, go) := s.threads[t].help;
    assert ThreadOk(s.sh, t, s.threads[t]) && WordOk(s, a);
    if a == a2 && s.sh.mem[a] == Dcss(d) {
      Installer(s, a2);
      if go { PendingRuns(s, k); }
    }
  }

  lemma HelpSwapRely(s: State, t: nat)
    requires Inv(s) && t < |s.threads| && s.threads[t].help.Swap?
    ensures Rely(s.sh, HelpStep(s.sh, s.threads[t]).0, t, Id(0, 1))
  {
    var sh, sh' := s.sh, HelpStep(s.sh, s.threads[t]).0;
    forall a | 0 <= a < |sh.mem|
      ensures WordMove(sh, sh', a, Id(0, 1)) && StillPending(sh, sh', a)
      ensures sh.mem[a].Dcss? ==> DLive(sh, sh.mem[a].d)
    {
      HelpSwapWord(s, t, a);
    }
    assert forall p :: 0 <= p < |sh.dd| ==> DcssSlotOk(sh, sh.dd[p]);
  }

  lemma HelpSwapDcss(s: State, t: nat)
    requires Inv(s) && t < |s.threads| && s.threads[t].help.Swap?
    requires Rely(s.sh, HelpStep(s.sh, s.threads[t]).0, t, Id(0, 1))
    ensures var (sh', th') := HelpStep(s.sh, s.threads[t]); DcssOk(sh', t, th')
  {
    var sh, th := s.sh, s.threads[t];
    var sh' := HelpStep(sh, th).0;
    assert ThreadOk(sh, t, th);
    if th.stack != [] && Top(th).pc.DcssDone? {
      assert FrameOk(sh, th.stack[|th.stack| - 1]);
      NamesStable(sh, sh', t, Id(0, 1), Top(th).k);
      WordsStable(sh, sh', t, Id(0, 1), Top(th).k, Top(th).pc.a2);
    }
  }

  lemma HelpSwapOwn(s: State, t: nat)
    requires Inv(s) && t < |s.threads| && s.threads[t].help.Swap?
    ensures var (sh', th') := HelpStep(s.sh, s.threads[t]); ThreadOk(sh', t, th')
  {
    var sh, th := s.sh, s.threads[t];
    var sh' := HelpStep(sh, th).0;
    HelpSwapRely(s, t);
    HelpSwapDcss(s, t);
    assert ThreadOk(sh, t, th);
    forall i | 0 <= i < |th.stack| ensures FrameOk(sh', th.stack[i]) {
      FrameStable(sh, sh', t, Id(0, 1), th.stack[i]);
    }
  }

  lemma HelpSwapInv(s: State, t: nat)
    requires Inv(s) && t < |s.threads| && s.threads[t].help.Swap?
    ensures var (sh', th') := HelpStep(s.sh, s.threads[t]); Inv(With(s, t, sh', th')) && Moves(s.sh, sh', t)
  {
    var (sh', th') := HelpStep(s.sh, s.threads[t]);
    var s' := With(s, t, sh', th');
    HelpSwapRely(s, t);
    HelpSwapOwn(s, t);
    forall a | 0 <= a < |sh'.mem| ensures WordOk(s', a) { HelpSwapWord(s, t, a); }
    forall u | 0 <= u < |s.threads|
      ensures Secret(s', t, u) && Secret(s', u, t)
      ensures s.threads[u].help.NoHelp? || s.threads[u].help.d != Id(0, 1)
    {
      assert Secret(s, t, u) && Secret(s, u, t);
      assert ThreadOk(s.sh, u, s.threads[u]);
    }
    Close(s, t, sh', th', Id(0, 1));
  }

  // ---------- kcas_help: steps that only move the frame ----------

  ghost predicate Runs(s: State, t: nat) {
    Inv(s) && t < |s.threads| && s.threads[t].help.NoHelp? && s.threads[t].stack != []
  }

  /** The top frame goes to pc and nothing else happens. */
  lemma GotoInv(s: State, t: nat, pc: Pc)
    requires Runs(s, t)
    requires var th := s.threads[t];
      && FrameOk(s.sh, Top(th).(pc := pc))
      && !Top(th).pc.DcssPublish?
      && !pc.DcssPublish? && !pc.DcssSwap? && !pc.DcssDone?
    ensures Inv(With(s, t, s.sh, Goto(s.threads[t], pc))) && Moves(s.sh, s.sh, t)
  {
    var th, th' := s.threads[t], Goto(s.threads[t], pc);
    assert ThreadOk(s.sh, t, th);
    assert FramesOk(s.sh, th') by {
      forall i | 0 <= i < |th'.stack| ensures FrameOk(s.sh, th'.stack[i]) {
        if i < |th.stack| - 1 { assert FrameOk(s.sh, th.stack[i]); }
      }
    }
    forall a | 0 <= a < |s.sh.mem| ensures KeepsAt(s, t, th', a) { assert WordOk(s, a); }
    Quiet(s, t, th');
  }

  /** The owner's frame is never stale, and when it returns its pointer is gone from memory. */
  lemma ReturnInv(s: State, t: nat, r: Ret)
    requires Runs(s, t)
    requires !Top(s.threads[t]).pc.DcssPublish?
    requires var f := Top(s.threads[t]);
      || (r == Bottom && !KLive(s.sh, f.k))
      || (f.pc.Uninstall? && KLive(s.sh, f.k) && r == Bool(f.pc.ok) && f.pc.i == |ArgsOf(s.sh, f.k).addrs|)
    ensures Inv(With(s, t, s.sh, Return(s.threads[t], r))) && Moves(s.sh, s.sh, t)
  {
    var th, th' := s.threads[t], Return(s.threads[t], r);
    assert ThreadOk(s.sh, t, th);
    assert FrameOk(s.sh, th.stack[|th.stack| - 1]);
    forall i | 0 <= i < |th'.stack| ensures FrameOk(s.sh, th'.stack[i]) {
      assert FrameOk(s.sh, th.stack[i]);
    }
    forall a | 0 <= a < |s.sh.mem| ensures KeepsAt(s, t, th', a) { assert WordOk(s, a); }
    Quiet(s, t, th');
  }

  /** Reads of the descriptor: the frame moves on or, when stale, returns bottom. */
  lemma LookInv(s: State, t: nat)
    requires Runs(s, t)
    requires var pc := Top(s.threads[t]).pc;
      pc.Start? || pc.Install? || pc.DcssDone? || pc.DecideLoad? || pc.ReadState? || pc.Uninstall?
      || (pc.DecideSwap? && !Pending(s.sh, Top(s.threads[t]).k))
    ensures var (sh', th') := FrameStep(s.sh, t, s.threads[t]); Inv(With(s, t, sh', th')) && Moves(s.sh, sh', t)
  {
    var th := s.threads[t];
    assert ThreadOk(s.sh, t, th);
    var f := th.stack[|th.stack| - 1];
    assert FrameOk(s.sh, f);
    if KLive(s.sh, f.k) { assert OneShot(s.sh.first, ArgsOf(s.sh, f.k)); }
    var (sh', th') := FrameStep(s.sh, t, th);
    if f.pc.Start? || f.pc.Install? || f.pc.DecideLoad? || f.pc.Uninstall? {
      if !KLive(s.sh, f.k) {
        ReturnInv(s, t, Bottom);
      } else if f.pc.Uninstall? && f.pc.i == |ArgsOf(s.sh, f.k).addrs| {
        ReturnInv(s, t, Bool(f.pc.ok));
      } else {
        GotoInv(s, t, Top(th').pc);
      }
    } else {
      GotoInv(s, t, Top(th').pc);
    }
  }

  // ---------- kcas_help: the CAS of dcss ----------

  /** Helping another operation first: a new frame on top, this one waits at the same word. */
  lemma AssistInv(s: State, t: nat, k': Id)
    requires Runs(s, t) && Top(s.threads[t]).pc.DcssSwap? && KNamed(s.sh, k')
    ensures var waiting := Goto(s.threads[t], Install(Top(s.threads[t]).pc.i));
      && Inv(With(s, t, s.sh, waiting.(stack := waiting.stack + [Frame(k', Start)])))
      && Moves(s.sh, s.sh, t)
  {
    var th := s.threads[t];
    assert ThreadOk(s.sh, t, th);
    var waiting := Goto(th, Install(Top(th).pc.i));
    var th' := waiting.(stack := waiting.stack + [Frame(k', Start)]);
    forall j | 0 <= j < |th'.stack| ensures FrameOk(s.sh, th'.stack[j]) {
      if j < |th.stack| { assert FrameOk(s.sh, th.stack[j]); }
    }
    forall a | 0 <= a < |s.sh.mem| ensures KeepsAt(s, t, th', a) { assert WordOk(s, a); }
    Quiet(s, t, th');
  }

  /** The CAS of dcss meets another DCSS pointer, and helps it before trying again. */
  lemma DcssAssistInv(s: State, t: nat, d: Id)
    requires Runs(s, t) && Top(s.threads[t]).pc.DcssSwap? && Peek(s.sh, Top(s.threads[t]).pc.a2) == Dcss(d)
    ensures Inv(With(s, t, s.sh, s.threads[t].(help := Read(d)))) && Moves(s.sh, s.sh, t)
  {
    var th, th' := s.threads[t], s.threads[t].(help := Read(d));
    assert ThreadOk(s.sh, t, th);
    assert FrameOk(s.sh, th.stack[|th.stack| - 1]);
    assert WordOk(s, Top(th).pc.a2);
    forall a | 0 <= a < |s.sh.mem| ensures KeepsAt(s, t, th', a) { assert WordOk(s, a); }
    Quiet(s, t, th');
  }

  /** What the top frame knows once its CAS met its own operation's pointer, or another value. */
  lemma DcssSwapLooks(s: State, t: nat)
    requires Runs(s, t) && Top(s.threads[t]).pc.DcssSwap?
    ensures var Frame(k, DcssSwap(i, a2, e2)) := Top(s.threads[t]);
      && a2 < |s.sh.mem|
      && match Peek(s.sh, a2)
         case Dcss(_) => true
         case Kcas(k') => KNamed(s.sh, k') && (k' == k ==> FrameOk(s.sh, Frame(k, Install(i + 1))))
         case Plain(v) => v != e2 ==> FrameOk(s.sh, Frame(k, DecideLoad(i, Failed)))
  {
    var th := s.threads[t];
    assert ThreadOk(s.sh, t, th);
    assert FrameOk(s.sh, th.stack[|th.stack| - 1]);
    var Frame(k, DcssSwap(i, a2, e2)) := Top(th);
    assert WordOk(s, a2);
    if KLive(s.sh, k) { assert OneShot(s.sh.first, ArgsOf(s.sh, k)); }
  }

  /** The CAS of dcss fails: help the pointer found, or give up on the operation. */
  lemma DcssSwapLookInv(s: State, t: nat)
    requires Runs(s, t) && Top(s.threads[t]).pc.DcssSwap?
    requires Peek(s.sh, Top(s.threads[t]).pc.a2) != Plain(Top(s.threads[t]).pc.e2)
    ensures var (sh', th') := DcssSwapStep(s.sh, t, s.threads[t]);
      sh' == s.sh && Inv(With(s, t, sh', th')) && Moves(s.sh, sh', t)
  {
    var Frame(k, DcssSwap(i, a2, e2)) := Top(s.threads[t]);
    DcssSwapLooks(s, t);
    match Peek(s.sh, a2)
    case Dcss(d) => DcssAssistInv(s, t, d);
    case Kcas(k') => if k' == k { GotoInv(s, t, Install(i + 1)); } else { AssistInv(s, t, k'); }
    case Plain(_) => GotoInv(s, t, DecideLoad(i, Failed));
  }

  ghost predicate Places(s: State, t: nat) {
    && Runs(s, t)
    && Top(s.threads[t]).pc.DcssSwap?
    && Peek(s.sh, Top(s.threads[t]).pc.a2) == Plain(Top(s.threads[t]).pc.e2)
  }

  lemma PlaceWord(s: State, t: nat, a: nat)
    requires Places(s, t) && a < |s.sh.mem|
    ensures var (sh', th') := DcssSwapStep(s.sh, t, s.threads[t]);
      && WordOk(With(s, t, sh', th'), a)
      && WordMove(s.sh, sh', a, Id(t, s.sh.dd[t].ver))
      && StillPending(s.sh, sh', a)
      && (s.sh.mem[a].Dcss? ==> DLive(s.sh, s.sh.mem[a].d))
  {
    var th := s.threads[t];
    assert ThreadOk(s.sh, t, th) && WordOk(s, a);
    assert FrameOk(s.sh, th.stack[|th.stack| - 1]);
  }

  lemma PlaceFrame(s: State, t: nat)
    requires Places(s, t)
    ensures var (sh', th') := DcssSwapStep(s.sh, t, s.threads[t]); FrameOk(sh', Top(th'))
  {
    var sh, th := s.sh, s.threads[t];
    var sh' := DcssSwapStep(sh, t, th).0;
    assert ThreadOk(sh, t, th);
    assert FrameOk(sh, th.stack[|th.stack| - 1]);
    var Frame(k, DcssSwap(i, a2, e2)) := Top(th);
    if Pending(sh, k) {
      assert forall j :: 0 <= j < i ==> Peek(sh', ArgsOf(sh, k).addrs[j]) == Peek(sh, ArgsOf(sh, k).addrs[j]);
    }
  }

  lemma PlaceInv(s: State, t: nat)
    requires Places(s, t)
    ensures var (sh', th') := DcssSwapStep(s.sh, t, s.threads[t]); Inv(With(s, t, sh', th')) && Moves(s.sh, sh', t)
  {
    var sh, th := s.sh, s.threads[t];
    var (sh', th') := DcssSwapStep(sh, t, th);
    var s', own := With(s, t, sh', th'), Id(t, sh.dd[t].ver);
    assert ThreadOk(sh, t, th);
    assert FrameOk(sh, th.stack[|th.stack| - 1]);
    forall a | 0 <= a < |sh.mem| ensures WordStep(s, t, sh', th', own, a) { PlaceWord(s, t, a); }
    SlotsKept(sh, sh');
    forall u | 0 <= u < |s.threads|
      ensures Secret(s', t, u) && Secret(s', u, t)
      ensures s.threads[u].help.NoHelp? || s.threads[u].help.d != own
    {
      assert Secret(s, t, u) && Secret(s, u, t);
    }
    PlaceFrame(s, t);
    Finish(s, t, sh', th', own);
  }

  // ---------- kcas_help: the owner rewrites its DCSS slot ----------

  ghost predicate Rewrites(s: State, t: nat) {
    Runs(s, t) && (Top(s.threads[t]).pc.DcssBegin? || Top(s.threads[t]).pc.DcssPublish?)
  }

  lemma RewriteWord(s: State, t: nat, a: nat)
    requires Rewrites(s, t) && a < |s.sh.mem|
    ensures var (sh', th') := FrameStep(s.sh, t, s.threads[t]);
      && WordOk(With(s, t, sh', th'), a)
      && WordMove(s.sh, sh', a, Id(0, 1))
      && StillPending(s.sh, sh', a)
      && (s.sh.mem[a].Dcss? ==> DLive(s.sh, s.sh.mem[a].d))
  {
    assert WordOk(s, a);
  }

  lemma RewriteInv(s: State, t: nat)
    requires Rewrites(s, t)
    ensures var (sh', th') := FrameStep(s.sh, t, s.threads[t]); Inv(With(s, t, sh', th')) && Moves(s.sh, sh', t)
  {
    var sh, th := s.sh, s.threads[t];
    var (sh', th') := FrameStep(sh, t, th);
    assert ThreadOk(sh, t, th);
    assert FrameOk(sh, th.stack[|th.stack| - 1]);
    forall a | 0 <= a < |sh.mem| ensures WordStep(s, t, sh', th', Id(0, 1), a) { RewriteWord(s, t, a); }
    RewriteSlots(s, t);
    SecretsKept(s, t, sh', th');
    Finish(s, t, sh', th', Id(0, 1));
  }

  lemma RewriteSlots(s: State, t: nat)
    requires Rewrites(s, t)
    ensures var sh' := FrameStep(s.sh, t, s.threads[t]).0;
      |sh'.dd| == |s.sh.dd| && forall p :: 0 <= p < |s.sh.dd| ==> DcssSlotOk(sh', sh'.dd[p]) && DSlotMove(s.sh.dd[p], sh'.dd[p])
  {
    var sh, th := s.sh, s.threads[t];
    var sh' := FrameStep(sh, t, th).0;
    assert ThreadOk(sh, t, th);
    assert FrameOk(sh, th.stack[|th.stack| - 1]);
    forall p | 0 <= p < |sh.dd| ensures DcssSlotOk(sh', sh'.dd[p]) && DSlotMove(sh.dd[p], sh'.dd[p]) {
      assert DcssSlotOk(sh, sh.dd[p]);
    }
  }

  // ---------- kcas_help: the decision ----------

  ghost predicate Decides(s: State, t: nat) {
    && Runs(s, t)
    && Top(s.threads[t]).pc.DecideSwap?
    && Pending(s.sh, Top(s.threads[t]).k)
  }

  /** A frame about to decide has reached word j or gone past it, and found no DCSS pointer there. */
  lemma NoRoom(sh: Shared, k: Id, i: nat, verdict: Verdict, j: nat, a: nat, e2: int)
    requires Pending(sh, k) && Installed(sh, k, i) && Proposal(sh, k, i, verdict)
    requires Installed(sh, k, j) && Target(sh, k, j, a, e2)
    ensures j <= i && !Peek(sh, a).Dcss?
  {
  }

  /** Nobody decides an undecided operation while one of its DCSS pointers is in memory: a
      successful frame has every word installed already, and a failing one has met, at the
      word before it, a pointer or a value that leaves no room for that DCSS. */
  lemma DecideWord(s: State, t: nat, a: nat)
    requires Decides(s, t) && a < |s.sh.mem|
    ensures var (sh', th') := FrameStep(s.sh, t, s.threads[t]);
      && WordOk(With(s, t, sh', th'), a)
      && StillPending(s.sh, sh', a)
      && (s.sh.mem[a].Dcss? ==> DLive(s.sh, s.sh.mem[a].d))
  {
    assert WordOk(s, a);
    var th := s.threads[t];
    assert ThreadOk(s.sh, t, th);
    assert FrameOk(s.sh, th.stack[|th.stack| - 1]);
    var Frame(k, DecideSwap(i, verdict)) := Top(th);
    if s.sh.mem[a].Dcss? {
      Installer(s, a);
      var g := Top(s.threads[s.sh.mem[a].d.pid]);
      if g.k == k { NoRoom(s.sh, k, i, verdict, g.pc.i, a, g.pc.e2); }
    }
  }

  lemma DecideInv(s: State, t: nat)
    requires Decides(s, t)
    ensures var (sh', th') := FrameStep(s.sh, t, s.threads[t]); Inv(With(s, t, sh', th')) && Moves(s.sh, sh', t)
  {
    var sh, th := s.sh, s.threads[t];
    var (sh', th') := FrameStep(sh, t, th);
    assert ThreadOk(sh, t, th);
    assert FrameOk(sh, th.stack[|th.stack| - 1]);
    forall a | 0 <= a < |sh.mem| ensures WordStep(s, t, sh', th', Id(0, 1), a) { DecideWord(s, t, a); }
    SlotsKept(sh, sh');
    SecretsKept(s, t, sh', th');
    Finish(s, t, sh', th', Id(0, 1));
  }

  // ---------- kcas_help: taking the pointers out ----------

  ghost predicate Removes(s: State, t: nat) {
    Runs(s, t) && Top(s.threads[t]).pc.UninstallSwap?
  }

  /** A word keeps its pointer, or gets its plain value back. */
  lemma RemoveWordOk(s: State, t: nat, a: nat)
    requires Removes(s, t) && a < |s.sh.mem|
    ensures var (sh', th') := FrameStep(s.sh, t, s.threads[t]); WordOk(With(s, t, sh', th'), a)
  {
    assert WordOk(s, a);
  }

  lemma RemoveWord(s: State, t: nat, a: nat)
    requires Removes(s, t) && a < |s.sh.mem|
    ensures var (sh', th') := FrameStep(s.sh, t, s.threads[t]);
      && WordOk(With(s, t, sh', th'), a)
      && WordMove(s.sh, sh', a, Id(0, 1))
      && StillPending(s.sh, sh', a)
      && (s.sh.mem[a].Dcss? ==> DLive(s.sh, s.sh.mem[a].d))
  {
    var th := s.threads[t];
    RemoveWordOk(s, t, a);
    assert ThreadOk(s.sh, t, th) && WordOk(s, a);
    assert FrameOk(s.sh, th.stack[|th.stack| - 1]);
  }

  lemma RemoveFrame(s: State, t: nat)
    requires Removes(s, t)
    ensures var (sh', th') := FrameStep(s.sh, t, s.threads[t]); FrameOk(sh', Top(th'))
  {
    var th := s.threads[t];
    assert ThreadOk(s.sh, t, th);
    assert FrameOk(s.sh, th.stack[|th.stack| - 1]);
  }

  lemma RemoveInv(s: State, t: nat)
    requires Removes(s, t)
    ensures var (sh', th') := FrameStep(s.sh, t, s.threads[t]); Inv(With(s, t, sh', th')) && Moves(s.sh, sh', t)
  {
    var sh, th := s.sh, s.threads[t];
    var (sh', th') := FrameStep(sh, t, th);
    assert ThreadOk(sh, t, th);
    forall a | 0 <= a < |sh.mem| ensures WordStep(s, t, sh', th', Id(0, 1), a) { RemoveWord(s, t, a); }
    SlotsKept(sh, sh');
    SecretsKept(s, t, sh', th');
    RemoveFrame(s, t);
    Finish(s, t, sh', th', Id(0, 1));
  }

  // ---------- kcas and kcas_read ----------

  ghost predicate Calls(s: State, t: nat) {
    Inv(s) && t < |s.threads| && s.threads[t].help.NoHelp? && s.threads[t].stack == []
  }

  /** create_new on the KCAS slot: the owner has no operation whose pointer could still be around. */
  lemma CreateWord(s: State, t: nat, req: Request, a: nat)
    requires Calls(s, t) && a < |s.sh.mem|
    requires s.threads[t].call.Create? || s.threads[t].call.Publish?
    ensures var (sh', th') := CallStep(s.sh, t, s.threads[t], req);
      WordStep(s, t, sh', th', Id(0, 1), a)
  {
    assert ThreadOk(s.sh, t, s.threads[t]) && WordOk(s, a);
    if s.sh.mem[a].Dcss? { Installer(s, a); }
    if s.sh.mem[a].Kcas? { assert ThreadOk(s.sh, s.sh.mem[a].k.pid, s.threads[s.sh.mem[a].k.pid]); }
  }

  lemma CreateInv(s: State, t: nat, req: Request)
    requires Calls(s, t)
    requires s.threads[t].call.Create? || s.threads[t].call.Publish?
    ensures var (sh', th') := CallStep(s.sh, t, s.threads[t], req); Inv(With(s, t, sh', th')) && Moves(s.sh, sh', t)
  {
    var sh, th := s.sh, s.threads[t];
    var (sh', th') := CallStep(sh, t, th, req);
    assert ThreadOk(sh, t, th);
    forall a | 0 <= a < |sh.mem|
      ensures WordOk(With(s, t, sh', th'), a)
      ensures WordMove(sh, sh', a, Id(0, 1)) && StillPending(sh, sh', a)
      ensures sh.mem[a].Dcss? ==> DLive(sh, sh.mem[a].d)
    {
      CreateWord(s, t, req, a);
      assert WordStep(s, t, sh', th', Id(0, 1), a);
    }
    SlotsKept(sh, sh');
    SecretsKept(s, t, sh', th');
    forall u | 0 <= u < |s.threads| ensures s.threads[u].help.NoHelp? || s.threads[u].help.d != Id(0, 1) {
      assert ThreadOk(sh, u, s.threads[u]);
    }
    Close(s, t, sh', th', Id(0, 1));
  }

  /** Starting a call, or one load of kcas_read. */
  lemma CallInv(s: State, t: nat, req: Request)
    requires Calls(s, t) && Allowed(s.sh.first, req)
    requires s.threads[t].call.Idle? || s.threads[t].call.Reading?
    ensures var (sh', th') := CallStep(s.sh, t, s.threads[t], req); sh' == s.sh && Inv(With(s, t, sh', th')) && Moves(s.sh, sh', t)
  {
    var th := s.threads[t];
    var th' := CallStep(s.sh, t, th, req).1;
    assert ThreadOk(s.sh, t, th);
    if th.call.Reading? { assert WordOk(s, th.call.a); }
    assert FramesOk(s.sh, th');
    assert HelpOk(s.sh, th'.help);
    forall a | 0 <= a < |s.sh.mem| ensures KeepsAt(s, t, th', a) { assert WordOk(s, a); }
    Quiet(s, t, th');
  }

  // ---------- all steps, all runs ----------

  lemma StepInv(s: State, t: nat, req: Request)
    requires Inv(s) && t < |s.threads| && Allowed(s.sh.first, req)
    ensures Inv(Step(s, t, req)) && Step(s, t, req).sh.first == s.sh.first
    ensures |Step(s, t, req).threads| == |s.threads|
    ensures Moves(s.sh, Step(s, t, req).sh, t)
  {
    var th := s.threads[t];
    assert ThreadOk(s.sh, t, th);
    if th.help.Swap? {
      HelpSwapInv(s, t);
    } else if !th.help.NoHelp? {
      HelpStepInv(s, t);
    } else if th.stack != [] {
      FrameInv(s, t);
    } else if th.call.Create? || th.call.Publish? {
      CreateInv(s, t, req);
    } else {
      CallInv(s, t, req);
    }
  }

  lemma FrameInv(s: State, t: nat)
    requires Runs(s, t)
    ensures var (sh', th') := FrameStep(s.sh, t, s.threads[t]); sh'.first == s.sh.first && Inv(With(s, t, sh', th')) && Moves(s.sh, sh', t)
  {
    var f := Top(s.threads[t]);
    if f.pc.DcssBegin? || f.pc.DcssPublish? {
      RewriteInv(s, t);
    } else if f.pc.DcssSwap? {
      if Peek(s.sh, f.pc.a2) == Plain(f.pc.e2) { PlaceInv(s, t); } else { DcssSwapLookInv(s, t); }
    } else if f.pc.DecideSwap? && Pending(s.sh, f.k) {
      DecideInv(s, t);
    } else if f.pc.UninstallSwap? {
      RemoveInv(s, t);
    } else {
      LookInv(s, t);
    }
  }

  lemma InitInv(first: seq<int>, n: nat)
    ensures Inv(Init(first, n))
  {
    var s := Init(first, n);
    assert OneShot(first, Operands([], [], []));
    assert forall t :: 0 <= t < n ==> ThreadOk(s.sh, t, s.threads[t]);
  }
}
