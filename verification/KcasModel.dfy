/** The k-word compare-and-swap of src/thread/detail, as a transition system.

  Any number of threads share words, one KCAS descriptor each and one DCSS
  descriptor each. One step makes at most one atomic access. A thread's nested
  kcas_help calls are its stack of frames; only the last frame runs. */
module KcasModel {
  import opened Counting

  /** A flagged or unflagged descriptor pointer: the owner and the sequence number. */
  datatype Id = Id(pid: nat, ver: nat)

  /** What a shared word can hold; the two flag bits tell the cases apart. */
  datatype Word = Plain(v: int) | Dcss(d: Id) | Kcas(k: Id)

  datatype Verdict = Undecided | Succeeded | Failed

  datatype Operands = Operands(addrs: seq<nat>, olds: seq<int>, news: seq<int>)
  type Args = o: Operands | |o.addrs| == |o.olds| == |o.news| witness Operands([], [], [])

  /** Descriptor slots, reused by their owner. An odd version is a slot being rewritten. */
  datatype KcasSlot = KcasSlot(ver: nat, verdict: Verdict, args: Args)
  datatype DcssSlot = DcssSlot(ver: nat, k: Id, a2: nat, e2: int)

  /** Everything that more than one thread touches. "first" holds the initial values of the words. */
  datatype Shared = Shared(first: seq<int>, mem: seq<Word>, kd: seq<KcasSlot>, dd: seq<DcssSlot>)

  /** Where a thread is inside dcss_help(d). */
  datatype Help =
    | NoHelp
    | Read(d: Id)
    | Load(d: Id, k: Id, a2: nat, e2: int)
    | Swap(d: Id, k: Id, a2: nat, e2: int, go: bool)

  /** Where a frame is inside kcas_help. */
  datatype Pc =
    | Start
    | Install(i: nat)
    | DcssBegin(i: nat, a2: nat, e2: int)
    | DcssPublish(i: nat, a2: nat, e2: int)
    | DcssSwap(i: nat, a2: nat, e2: int)
    | DcssDone(i: nat, a2: nat, e2: int)
    | DecideLoad(i: nat, verdict: Verdict)
    | DecideSwap(i: nat, verdict: Verdict)
    | ReadState
    | Uninstall(i: nat, ok: bool)
    | UninstallSwap(i: nat, ok: bool, a: nat, n: int)

  datatype Frame = Frame(k: Id, pc: Pc)

  /** The call a thread is in: kcas(args) before and while its slot is rewritten, then
      while kcas_help runs, or kcas_read(a). */
  datatype Call = Idle | Create(args: Args) | Publish(args: Args) | Running(args: Args) | Reading(a: nat)

  datatype Ret = NoRet | Bool(b: bool) | Value(v: int) | Bottom

  datatype Thread = Thread(call: Call, ret: Ret, stack: seq<Frame>, help: Help)
  datatype State = State(sh: Shared, threads: seq<Thread>)

  /** What an idle thread is asked to do next. */
  datatype Request = AskKcas(args: Args) | AskRead(a: nat)

  // ---------- atomic accesses ----------

  function Peek(sh: Shared, a: nat): Word {
    if a < |sh.mem| then sh.mem[a] else Plain(0)
  }

  function Cas(sh: Shared, a: nat, e: Word, n: Word): Shared {
    if a < |sh.mem| && sh.mem[a] == e then sh.(mem := sh.mem[a := n]) else sh
  }

  /** The sequence number still matches: read_mutables and read_immutables do not give bottom. */
  predicate KLive(sh: Shared, k: Id) {
    k.pid < |sh.kd| && sh.kd[k.pid].ver == k.ver
  }

  predicate DLive(sh: Shared, d: Id) {
    d.pid < |sh.dd| && sh.dd[d.pid].ver == d.ver
  }

  predicate Pending(sh: Shared, k: Id) {
    KLive(sh, k) && sh.kd[k.pid].verdict == Undecided
  }

  function ArgsOf(sh: Shared, k: Id): Args
    requires KLive(sh, k)
  {
    sh.kd[k.pid].args
  }

  // ---------- steps of one thread ----------

  function Top(th: Thread): Frame
    requires th.stack != []
  {
    th.stack[|th.stack| - 1]
  }

  function Goto(th: Thread, pc: Pc): Thread
    requires th.stack != []
  {
    th.(stack := th.stack[|th.stack| - 1 := Top(th).(pc := pc)])
  }

  /** kcas_help returns r: to kcas, to kcas_read (which drops r), or to an outer kcas_help (which drops r). */
  function Return(th: Thread, r: Ret): Thread
    requires th.stack != []
  {
    if |th.stack| == 1 && th.call.Running? then
      th.(call := Idle, ret := r, stack := [])
    else
      th.(stack := th.stack[..|th.stack| - 1])
  }

  /** dcss_help, src/thread/detail/multiword_dcss.cpp. */
  function HelpStep(sh: Shared, th: Thread): (Shared, Thread)
    requires !th.help.NoHelp?
  {
    match th.help
    case Read(d) =>
      if DLive(sh, d) then
        (sh, th.(help := Load(d, sh.dd[d.pid].k, sh.dd[d.pid].a2, sh.dd[d.pid].e2)))
      else
        (sh, th.(help := NoHelp))
    case Load(d, k, a2, e2) =>
      (sh, th.(help := Swap(d, k, a2, e2, Pending(sh, k))))
    case Swap(d, k, a2, e2, go) =>
      (Cas(sh, a2, Dcss(d), if go then Kcas(k) else Plain(e2)), th.(help := NoHelp))
  }

  /** The install loop's use of dcss: its CAS on *a2 and what kcas_help does with the result. */
  function DcssSwapStep(sh: Shared, t: nat, th: Thread): (Shared, Thread)
    requires t < |sh.dd| && th.stack != [] && Top(th).pc.DcssSwap?
  {
    var Frame(k, DcssSwap(i, a2, e2)) := Top(th);
    var own := Id(t, sh.dd[t].ver);
    match Peek(sh, a2)
    case Dcss(d) => (sh, th.(help := Read(d)))
    case Kcas(k') =>
      if k' == k then (sh, Goto(th, Install(i + 1)))
      else
        var waiting := Goto(th, Install(i));
        (sh, waiting.(stack := waiting.stack + [Frame(k', Start)]))
    case Plain(v) =>
      if v == e2 then
        (Cas(sh, a2, Plain(e2), Dcss(own)), Goto(th, DcssDone(i, a2, e2)).(help := Read(own)))
      else
        (sh, Goto(th, DecideLoad(i, Failed)))
  }

  /** kcas_help, src/thread/detail/multiword_kcas.cpp, with dcss inlined. */
  function FrameStep(sh: Shared, t: nat, th: Thread): (Shared, Thread)
    requires t < |sh.kd| == |sh.dd| && th.stack != []
  {
    var Frame(k, pc) := Top(th);
    match pc
    case Start =>
      if !KLive(sh, k) then (sh, Return(th, Bottom))
      else if Pending(sh, k) then (sh, Goto(th, Install(0)))
      else (sh, Goto(th, ReadState))
    case Install(i) =>
      if !KLive(sh, k) then (sh, Return(th, Bottom))
      else
        var args := ArgsOf(sh, k);
        if i < |args.addrs| then (sh, Goto(th, DcssBegin(i, args.addrs[i], args.olds[i])))
        else (sh, Goto(th, DecideLoad(i, Succeeded)))
    case DcssBegin(i, a2, e2) =>
      (sh.(dd := sh.dd[t := sh.dd[t].(ver := sh.dd[t].ver + 1)]), Goto(th, DcssPublish(i, a2, e2)))
    case DcssPublish(i, a2, e2) =>
      (sh.(dd := sh.dd[t := DcssSlot(sh.dd[t].ver + 1, k, a2, e2)]), Goto(th, DcssSwap(i, a2, e2)))
    case DcssSwap(_, _, _) => DcssSwapStep(sh, t, th)
    case DcssDone(i, _, _) => (sh, Goto(th, Install(i + 1)))
    case DecideLoad(i, verdict) =>
      if !KLive(sh, k) then (sh, Return(th, Bottom))
      else if Pending(sh, k) then (sh, Goto(th, DecideSwap(i, verdict)))
      else (sh, Goto(th, ReadState))
    case DecideSwap(i, verdict) =>
      if Pending(sh, k) then
        (sh.(kd := sh.kd[k.pid := sh.kd[k.pid].(verdict := verdict)]), Goto(th, ReadState))
      else (sh, Goto(th, DecideLoad(i, verdict)))
    case ReadState =>
      (sh, Goto(th, Uninstall(0, KLive(sh, k) && sh.kd[k.pid].verdict == Succeeded)))
    case Uninstall(i, ok) =>
      if !KLive(sh, k) then (sh, Return(th, Bottom))
      else
        var args := ArgsOf(sh, k);
        if i < |args.addrs| then
          (sh, Goto(th, UninstallSwap(i, ok, args.addrs[i], if ok then args.news[i] else args.olds[i])))
        else (sh, Return(th, Bool(ok)))
    case UninstallSwap(i, ok, a, n) =>
      (Cas(sh, a, Kcas(k), Plain(n)), Goto(th, Uninstall(i + 1, ok)))
  }

  /** kcas, kcas_read and dcss_read outside of kcas_help and dcss_help. */
  function CallStep(sh: Shared, t: nat, th: Thread, req: Request): (Shared, Thread)
    requires t < |sh.kd| && th.stack == []
  {
    match th.call
    case Idle =>
      (match req
       case AskKcas(args) => (sh, th.(call := Create(args)))
       case AskRead(a) => (sh, th.(call := Reading(a))))
    case Create(args) =>
      (sh.(kd := sh.kd[t := sh.kd[t].(ver := sh.kd[t].ver + 1)]), th.(call := Publish(args)))
    case Publish(args) =>
      var ver := sh.kd[t].ver + 1;
      (sh.(kd := sh.kd[t := KcasSlot(ver, Undecided, args)]),
       th.(call := Running(args), stack := [Frame(Id(t, ver), Start)]))
    case Running(_) => (sh, th)
    case Reading(a) =>
      (match Peek(sh, a)
       case Dcss(d) => (sh, th.(help := Read(d)))
       case Kcas(k) => (sh, th.(stack := [Frame(k, Start)]))
       case Plain(v) => (sh, th.(call := Idle, ret := Value(v))))
  }

  function ThreadStep(sh: Shared, t: nat, th: Thread, req: Request): (Shared, Thread)
    requires t < |sh.kd| == |sh.dd|
  {
    if !th.help.NoHelp? then HelpStep(sh, th)
    else if th.stack != [] then FrameStep(sh, t, th)
    else CallStep(sh, t, th, req)
  }

  predicate Shape(s: State) {
    |s.threads| == |s.sh.kd| == |s.sh.dd| && |s.sh.first| == |s.sh.mem|
  }

  /** Thread t makes its next access; req is looked at only when t is idle. */
  function Step(s: State, t: nat, req: Request): State
    requires Shape(s) && t < |s.threads|
  {
    var (sh', th') := ThreadStep(s.sh, t, s.threads[t], req);
    State(sh', s.threads[t := th'])
  }

  /** All words plain, all slots unused, all threads idle. */
  function Init(first: seq<int>, n: nat): State {
    State(
      Shared(first, seq(|first|, i requires 0 <= i < |first| => Plain(first[i])),
             seq(n, _ => KcasSlot(0, Undecided, Operands([], [], []))),
             seq(n, _ => DcssSlot(0, Id(0, 0), 0, 0))),
      seq(n, _ => Thread(Idle, NoRet, [], NoHelp)))
  }

  /** One-shot use: distinct words of this memory, each expected to hold its initial value. */
  predicate OneShot(first: seq<int>, args: Args) {
    && NoRepeats(args.addrs)
    && forall i :: 0 <= i < |args.addrs| ==> args.addrs[i] < |first| && args.olds[i] == first[args.addrs[i]]
  }

  predicate Allowed(first: seq<int>, req: Request) {
    match req
    case AskKcas(args) => OneShot(first, args)
    case AskRead(a) => a < |first|
  }
}
