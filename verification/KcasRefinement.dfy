/** KCAS is atomic: every run of the protocol, seen through logical memory, is a run of a
    memory whose k-word compare-and-swap is a single step. */
module KcasRefinement {
  import opened KcasModel
  import opened KcasInvariant
  import opened KcasProof

  // ---------- the atomic memory ----------

  datatype Op = Rest(ret: Ret) | Wanted(args: Args) | Settled(args: Args, ok: bool) | Looking(a: nat)
  datatype Atomic = Atomic(words: seq<int>, ops: seq<Op>)

  predicate Matches(words: seq<int>, args: Args) {
    forall i :: 0 <= i < |args.addrs| ==> args.addrs[i] < |words| && words[args.addrs[i]] == args.olds[i]
  }

  function Written(words: seq<int>, args: Args): (r: seq<int>)
    ensures |r| == |words|
  {
    seq(|words|, a requires 0 <= a < |words| =>
      if a in args.addrs then args.news[IndexOf(args.addrs, a)] else words[a])
  }

  /** One step of thread u on the atomic memory: begin a call, compare and swap all words
      at once, hand back the answer, or read one word. */
  predicate AtomicStep(x: Atomic, u: nat, y: Atomic) {
    && u < |x.ops|
    && y.ops == x.ops[u := if u < |y.ops| then y.ops[u] else x.ops[u]]
    && match (x.ops[u], y.ops[u])
       case (Rest(_), Wanted(_)) => y.words == x.words
       case (Rest(_), Looking(a)) => y.words == x.words && a < |x.words|
       case (Wanted(args), Settled(args', ok)) =>
         && args' == args
         && (ok <==> Matches(x.words, args))
         && y.words == if ok then Written(x.words, args) else x.words
       case (Settled(_, ok), Rest(ret)) => ret == Bool(ok) && y.words == x.words
       case (Looking(a), Rest(ret)) => a < |x.words| && ret == Value(x.words[a]) && y.words == x.words
       case _ => false
  }

  // ---------- the abstraction ----------

  function OpOf(sh: Shared, t: nat, th: Thread): Op
    requires t < |sh.kd|
  {
    match th.call
    case Idle => Rest(th.ret)
    case Create(args) => Wanted(args)
    case Publish(args) => Wanted(args)
    case Running(args) =>
      if sh.kd[t].verdict == Undecided then Wanted(args) else Settled(args, sh.kd[t].verdict == Succeeded)
    case Reading(a) => Looking(a)
  }

  function Words(sh: Shared): seq<int> {
    seq(|sh.mem|, a requires 0 <= a < |sh.mem| => Logical(sh, a))
  }

  function Abs(s: State): Atomic
    requires Shape(s)
  {
    Atomic(Words(s.sh),
           seq(|s.threads|, t requires 0 <= t < |s.threads| => OpOf(s.sh, t, s.threads[t])))
  }

  // ---------- one step ----------

  /** Thread t's next access is the CAS that decides an undecided operation. */
  ghost predicate DecidesNow(s: State, t: nat) {
    t < |s.threads| && s.threads[t].help.NoHelp? && s.threads[t].stack != [] && Decides(s, t)
  }

  /** No other step touches a published KCAS slot. */
  lemma SlotUnchanged(s: State, t: nat, req: Request, p: nat)
    requires Shape(s) && Inv(s) && t < |s.threads| && !DecidesNow(s, t) && p < |s.threads|
    ensures var s' := Step(s, t, req);
      |s'.sh.kd| == |s.sh.kd| && (s'.sh.kd[p].ver == s.sh.kd[p].ver ==> s'.sh.kd[p] == s.sh.kd[p])
  {
  }

  lemma WordKept(s: State, s': State, t: nat, placed: Id, a: nat)
    requires Inv(s) && Inv(s') && Rely(s.sh, s'.sh, t, placed) && a < |s.sh.mem|
    requires forall p :: 0 <= p < |s.sh.kd| ==> s'.sh.kd[p].ver == s.sh.kd[p].ver ==> s'.sh.kd[p] == s.sh.kd[p]
    requires s'.sh.mem[a] == s.sh.mem[a]
    ensures Logical(s'.sh, a) == Logical(s.sh, a)
  {
    assert WordOk(s, a) && WordOk(s', a);
  }

  lemma WordMoved(s: State, s': State, t: nat, placed: Id, a: nat)
    requires Inv(s) && Inv(s') && Rely(s.sh, s'.sh, t, placed) && a < |s.sh.mem|
    requires s'.sh.mem[a] != s.sh.mem[a] && s'.sh.kd == s.sh.kd
    ensures Logical(s'.sh, a) == Logical(s.sh, a)
  {
    assert WordOk(s, a) && WordOk(s', a) && WordMove(s.sh, s'.sh, a, placed);
    if s.sh.mem[a].Dcss? {
      Installer(s, a);
      if s'.sh.mem[a].Kcas? { assert OneShot(s.sh.first, ArgsOf(s.sh, s'.sh.mem[a].k)); }
    }
    if s'.sh.mem[a].Dcss? { Installer(s', a); }
  }

  /** Install, help, retry and uninstall steps leave logical memory as it is. */
  lemma WordUnchanged(s: State, t: nat, req: Request, a: nat)
    requires Inv(s) && t < |s.threads| && Allowed(s.sh.first, req) && a < |s.sh.mem|
    requires !DecidesNow(s, t)
    ensures |Step(s, t, req).sh.mem| == |s.sh.mem|
    ensures Logical(Step(s, t, req).sh, a) == Logical(s.sh, a)
  {
    StepInv(s, t, req);
    var s' := Step(s, t, req);
    var placed :| Rely(s.sh, s'.sh, t, placed);
    forall p | 0 <= p < |s.sh.kd| ensures s'.sh.kd[p].ver == s.sh.kd[p].ver ==> s'.sh.kd[p] == s.sh.kd[p] {
      SlotUnchanged(s, t, req, p);
    }
    if s'.sh.mem[a] == s.sh.mem[a] { WordKept(s, s', t, placed, a); } else { WordMoved(s, s', t, placed, a); }
  }

  // ---------- the deciding step ----------

  /** At the deciding CAS the verdict says exactly whether every word has its expected value. */
  lemma VerdictTruthful(s: State, t: nat)
    requires Inv(s) && DecidesNow(s, t)
    ensures var f := Top(s.threads[t]);
      && KLive(s.sh, f.k)
      && (f.pc.verdict == Succeeded <==> Matches(Words(s.sh), ArgsOf(s.sh, f.k)))
      && f.pc.verdict != Undecided
  {
    var th := s.threads[t];
    assert ThreadOk(s.sh, t, th);
    assert FrameOk(s.sh, th.stack[|th.stack| - 1]);
    var Frame(k, DecideSwap(i, verdict)) := Top(th);
    var args := ArgsOf(s.sh, k);
    assert OneShot(s.sh.first, args);
    if verdict == Succeeded {
      forall j | 0 <= j < |args.addrs| ensures Words(s.sh)[args.addrs[j]] == args.olds[j] {
        assert Peek(s.sh, args.addrs[j]) == Kcas(k);
      }
    } else {
      assert Words(s.sh)[args.addrs[i]] != args.olds[i];
    }
  }

  /** Deciding changes all k words at once, from their expected to their new values, or none. */
  lemma DecisionWrites(s: State, t: nat, req: Request)
    requires Inv(s) && DecidesNow(s, t)
    ensures var f := Top(s.threads[t]);
      && KLive(s.sh, f.k)
      && Words(Step(s, t, req).sh) ==
           if f.pc.verdict == Succeeded then Written(Words(s.sh), ArgsOf(s.sh, f.k)) else Words(s.sh)
  {
    var sh, sh', f := s.sh, Step(s, t, req).sh, Top(s.threads[t]);
    assert ThreadOk(sh, t, s.threads[t]);
    assert FrameOk(sh, s.threads[t].stack[|s.threads[t].stack| - 1]);
    var args := ArgsOf(sh, f.k);
    forall a | 0 <= a < |sh.mem|
      ensures Logical(sh', a) ==
        if f.pc.verdict == Succeeded && a in args.addrs then args.news[IndexOf(args.addrs, a)] else Logical(sh, a)
    {
      assert WordOk(s, a);
      if f.pc.verdict == Succeeded && a in args.addrs {
        assert Peek(sh, args.addrs[IndexOf(args.addrs, a)]) == Kcas(f.k);
      }
    }
  }

  // ---------- refinement ----------

  lemma OpUnchanged(s: State, t: nat, req: Request, u: nat)
    requires Inv(s) && t < |s.threads| && !DecidesNow(s, t) && u < |s.threads| && u != t
    requires Allowed(s.sh.first, req)
    ensures Shape(Step(s, t, req)) && OpOf(Step(s, t, req).sh, u, Step(s, t, req).threads[u]) == OpOf(s.sh, u, s.threads[u])
  {
    StepInv(s, t, req);
    SlotUnchanged(s, t, req, u);
    var placed :| Rely(s.sh, Step(s, t, req).sh, t, placed);
  }

  ghost predicate OwnMove(sh: Shared, x: Op, y: Op) {
    || y == x
    || (x.Rest? && y.Wanted?)
    || (x.Rest? && y.Looking? && y.a < |sh.mem|)
    || (x.Settled? && y == Rest(Bool(x.ok)))
    || (x.Looking? && x.a < |sh.mem| && y == Rest(Value(Logical(sh, x.a))))
  }

  /** kcas_help returns to kcas only with the verdict, and never with bottom. */
  lemma OwnFrame(s: State, t: nat)
    requires Runs(s, t) && !Decides(s, t)
    ensures var (sh', th') := FrameStep(s.sh, t, s.threads[t]);
      |sh'.kd| == |s.sh.kd| && OwnMove(s.sh, OpOf(s.sh, t, s.threads[t]), OpOf(sh', t, th'))
  {
    var th := s.threads[t];
    assert ThreadOk(s.sh, t, th);
    assert FrameOk(s.sh, th.stack[|th.stack| - 1]);
  }

  lemma OwnCall(s: State, t: nat, req: Request)
    requires Calls(s, t) && Allowed(s.sh.first, req)
    ensures var (sh', th') := CallStep(s.sh, t, s.threads[t], req);
      |sh'.kd| == |s.sh.kd| && OwnMove(s.sh, OpOf(s.sh, t, s.threads[t]), OpOf(sh', t, th'))
  {
    assert ThreadOk(s.sh, t, s.threads[t]);
  }

  /** What the stepping thread's own operation does. */
  lemma OwnOp(s: State, t: nat, req: Request)
    requires Inv(s) && t < |s.threads| && !DecidesNow(s, t) && Allowed(s.sh.first, req)
    ensures var s' := Step(s, t, req);
      |s'.sh.kd| == |s.sh.kd| && OwnMove(s.sh, OpOf(s.sh, t, s.threads[t]), OpOf(s'.sh, t, s'.threads[t]))
  {
    if s.threads[t].help.NoHelp? {
      if s.threads[t].stack != [] { OwnFrame(s, t); } else { OwnCall(s, t, req); }
    }
  }

  /** Whoever decides it, the decision settles the owner's call and moves no other call. */
  lemma DecisionSettles(s: State, t: nat, req: Request)
    requires Inv(s) && DecidesNow(s, t)
    ensures var f, s' := Top(s.threads[t]), Step(s, t, req);
      && Shape(s') && KLive(s.sh, f.k)
      && OpOf(s.sh, f.k.pid, s.threads[f.k.pid]) == Wanted(ArgsOf(s.sh, f.k))
      && Abs(s').ops == Abs(s).ops[f.k.pid := Settled(ArgsOf(s.sh, f.k), f.pc.verdict == Succeeded)]
  {
    var k := Top(s.threads[t]).k;
    assert ThreadOk(s.sh, t, s.threads[t]);
    assert FrameOk(s.sh, s.threads[t].stack[|s.threads[t].stack| - 1]);
    PendingRuns(s, k);
    assert ThreadOk(s.sh, k.pid, s.threads[k.pid]);
  }

  lemma DecisionRefines(s: State, t: nat, req: Request)
    requires Inv(s) && DecidesNow(s, t)
    ensures var u, s' := Top(s.threads[t]).k.pid, Step(s, t, req);
      Shape(s') && AtomicStep(Abs(s), u, Abs(s')) && Abs(s').ops[u].Settled?
  {
    DecisionSettles(s, t, req);
    VerdictTruthful(s, t);
    DecisionWrites(s, t, req);
  }

  lemma OtherRefines(s: State, t: nat, req: Request)
    requires Inv(s) && t < |s.threads| && !DecidesNow(s, t) && Allowed(s.sh.first, req) && Inv(Step(s, t, req))
    requires |Step(s, t, req).threads| == |s.threads|
    ensures var s' := Step(s, t, req);
      && Abs(s').words == Abs(s).words
      && (Abs(s') == Abs(s) || (AtomicStep(Abs(s), t, Abs(s')) && !Abs(s').ops[t].Settled?))
  {
    var s' := Step(s, t, req);
    OwnOp(s, t, req);
    assert |s'.sh.mem| == |s.sh.mem| by { StepInv(s, t, req); }
    forall a | 0 <= a < |s.sh.mem| ensures Logical(s'.sh, a) == Logical(s.sh, a) {
      WordUnchanged(s, t, req, a);
    }
    forall v | 0 <= v < |s.threads| && v != t ensures Abs(s').ops[v] == Abs(s).ops[v] {
      OpUnchanged(s, t, req, v);
    }
    assert Abs(s').words == Abs(s).words;
    assert Abs(s').ops == Abs(s).ops[t := Abs(s').ops[t]];
  }

  /** The thread whose operation a step of t moves: t itself, or the owner of the decided operation. */
  function Mover(s: State, t: nat): nat
    requires t < |s.threads|
  {
    var th := s.threads[t];
    if th.help.NoHelp? && th.stack != [] && Top(th).pc.DecideSwap? && Pending(s.sh, Top(th).k) then Top(th).k.pid
    else t
  }

  /** Every step is a step of the atomic memory or changes nothing there, and logical memory
      changes only at a deciding step. */
  lemma StepRefines(s: State, t: nat, req: Request)
    requires Inv(s) && t < |s.threads| && Allowed(s.sh.first, req)
    ensures Inv(Step(s, t, req))
    ensures Abs(Step(s, t, req)) == Abs(s) || AtomicStep(Abs(s), Mover(s, t), Abs(Step(s, t, req)))
    ensures Words(Step(s, t, req).sh) != Words(s.sh) ==>
      DecidesNow(s, t) && Top(s.threads[t]).pc.verdict == Succeeded
  {
    StepInv(s, t, req);
    if DecidesNow(s, t) {
      DecisionRefines(s, t, req);
      DecisionWrites(s, t, req);
      VerdictTruthful(s, t);
    } else {
      OtherRefines(s, t, req);
    }
  }

  // ---------- runs ----------

  datatype Choice = Choice(t: nat, req: Request)

  predicate Schedule(first: seq<int>, n: nat, sched: seq<Choice>) {
    forall i :: 0 <= i < |sched| ==> sched[i].t < n && Allowed(first, sched[i].req)
  }

  /** The state after the schedule; threads are interleaved in any way the schedule says. */
  ghost function Run(first: seq<int>, n: nat, sched: seq<Choice>): (s: State)
    requires Schedule(first, n, sched)
    ensures Inv(s) && s.sh.first == first && |s.threads| == n
  {
    if sched == [] then
      InitInv(first, n);
      Init(first, n)
    else
      var c := sched[|sched| - 1];
      var s := Run(first, n, sched[..|sched| - 1]);
      StepInv(s, c.t, c.req);
      Step(s, c.t, c.req)
  }

  /** The call that a request begins. */
  function Begun(req: Request): Op {
    match req
    case AskKcas(args) => Wanted(args)
    case AskRead(a) => Looking(a)
  }

  /** Whoever is at rest begins exactly what it is asked when it is its turn, and nothing else. */
  ghost predicate AsAsked(x: Atomic, c: Choice, y: Atomic) {
    forall u :: 0 <= u < |x.ops| && x.ops[u].Rest? ==>
      u < |y.ops| && y.ops[u] == if u == c.t then Begun(c.req) else x.ops[u]
  }

  /** A run of the atomic memory from the initial values, with repetitions allowed, in which the
      calls are the ones that the schedule asks for. */
  ghost predicate AtomicRun(first: seq<int>, n: nat, xs: seq<Atomic>, movers: seq<nat>, sched: seq<Choice>) {
    && |xs| == |movers| + 1 == |sched| + 1
    && xs[0] == Atomic(first, seq(n, _ => Rest(NoRet)))
    && (forall i :: 0 <= i < |movers| ==> xs[i + 1] == xs[i] || AtomicStep(xs[i], movers[i], xs[i + 1]))
    && (forall i :: 0 <= i < |sched| ==> AsAsked(xs[i], sched[i], xs[i + 1]))
  }

  /** An idle thread does what it is asked, with the very operands or address. */
  lemma StepAsked(s: State, t: nat, req: Request)
    requires Inv(s) && t < |s.threads| && Allowed(s.sh.first, req)
    ensures Shape(Step(s, t, req)) && AsAsked(Abs(s), Choice(t, req), Abs(Step(s, t, req)))
  {
    StepInv(s, t, req);
    assert ThreadOk(s.sh, t, s.threads[t]);
  }

  lemma AtomicRunExtends(
      first: seq<int>, n: nat, xs: seq<Atomic>, movers: seq<nat>, sched: seq<Choice>, y: Atomic, m: nat, c: Choice)
    requires AtomicRun(first, n, xs, movers, sched) && AsAsked(xs[|xs| - 1], c, y)
    requires y == xs[|xs| - 1] || AtomicStep(xs[|xs| - 1], m, y)
    ensures AtomicRun(first, n, xs + [y], movers + [m], sched + [c])
  {
    var ys, ms, cs := xs + [y], movers + [m], sched + [c];
    forall i | 0 <= i < |ms| ensures ys[i + 1] == ys[i] || AtomicStep(ys[i], ms[i], ys[i + 1]) {
      if i < |movers| { assert ys[i] == xs[i] && ys[i + 1] == xs[i + 1] && ms[i] == movers[i]; }
    }
    forall i | 0 <= i < |cs| ensures AsAsked(ys[i], cs[i], ys[i + 1]) {
      if i < |sched| { assert ys[i] == xs[i] && ys[i + 1] == xs[i + 1] && cs[i] == sched[i]; }
    }
  }

  lemma RunStarts(first: seq<int>, n: nat)
    ensures Shape(Init(first, n)) && Abs(Init(first, n)) == Atomic(first, seq(n, _ => Rest(NoRet)))
  {
    assert Abs(Init(first, n)).words == first;
    assert Abs(Init(first, n)).ops == seq(n, _ => Rest(NoRet));
  }

  /** The abstract states a schedule goes through. */
  ghost function Seen(first: seq<int>, n: nat, sched: seq<Choice>): (xs: seq<Atomic>)
    requires Schedule(first, n, sched)
    ensures |xs| == |sched| + 1 && xs[|sched|] == Abs(Run(first, n, sched))
  {
    if sched == [] then [Abs(Run(first, n, []))]
    else Seen(first, n, sched[..|sched| - 1]) + [Abs(Run(first, n, sched))]
  }

  /** One more turn. */
  lemma TurnRefines(first: seq<int>, n: nat, before: seq<Choice>, c: Choice, s: State, xs: seq<Atomic>, movers: seq<nat>)
    requires Inv(s) && s.sh.first == first && c.t < |s.threads| && Allowed(first, c.req)
    requires AtomicRun(first, n, xs, movers, before) && xs[|xs| - 1] == Abs(s)
    ensures Inv(Step(s, c.t, c.req))
    ensures AtomicRun(first, n, xs + [Abs(Step(s, c.t, c.req))], movers + [Mover(s, c.t)], before + [c])
  {
    StepRefines(s, c.t, c.req);
    StepAsked(s, c.t, c.req);
    AtomicRunExtends(first, n, xs, movers, before, Abs(Step(s, c.t, c.req)), Mover(s, c.t), c);
  }

  /** Main theorem: whatever the schedule, what the callers see (which call each thread is in and
      what it answered) and logical memory follow a run of the atomic memory in which each thread
      calls what it is asked to call. */
  lemma {:induction false} RunRefines(first: seq<int>, n: nat, sched: seq<Choice>) returns (movers: seq<nat>)
    requires Schedule(first, n, sched)
    ensures AtomicRun(first, n, Seen(first, n, sched), movers, sched)
  {
    if sched == [] {
      movers := [];
      RunStarts(first, n);
    } else {
      var before, c := sched[..|sched| - 1], sched[|sched| - 1];
      movers := RunRefines(first, n, before);
      var s := Run(first, n, before);
      TurnRefines(first, n, before, c, s, Seen(first, n, before), movers);
      movers := movers + [Mover(s, c.t)];
      assert before + [c] == sched;
    }
  }

  // ---------- what the library relies on ----------

  /** A pointer in word a names a live descriptor: a kcas pointer one whose owner is still inside
      that kcas, a dcss pointer one whose owner is still inside that dcss, at this very word. */
  ghost predicate PointerOk(s: State, a: nat)
    requires Shape(s) && a < |s.sh.mem|
  {
    match s.sh.mem[a]
    case Plain(_) => true
    case Kcas(k) => KLive(s.sh, k) && s.threads[k.pid].call.Running?
    case Dcss(d) => DLive(s.sh, d) && Resolving(s.threads[d.pid], d, a)
  }

  /** Reuse is safe: once kcas or dcss has returned its pointer is in no word, and a pointer found
      in a word names a descriptor that is still live. */
  lemma ReuseSafe(first: seq<int>, n: nat, sched: seq<Choice>, a: nat)
    requires Schedule(first, n, sched) && a < |first|
    ensures PointerOk(Run(first, n, sched), a)
  {
    assert WordOk(Run(first, n, sched), a);
  }

  lemma StepNeverBottom(s: State, t: nat, req: Request, u: nat)
    requires Inv(s) && t < |s.threads| && u < |s.threads| && s.threads[u].ret != Bottom
    ensures u < |Step(s, t, req).threads| && Step(s, t, req).threads[u].ret != Bottom
  {
    var th := s.threads[t];
    assert ThreadOk(s.sh, t, th);
    if th.help.NoHelp? && th.stack != [] {
      assert FrameOk(s.sh, th.stack[|th.stack| - 1]);
    }
  }

  /** kcas never answers bottom. */
  lemma {:induction false} NeverBottom(first: seq<int>, n: nat, sched: seq<Choice>, u: nat)
    requires Schedule(first, n, sched) && u < n
    ensures Run(first, n, sched).threads[u].ret != Bottom
  {
    if sched != [] {
      var before, c := sched[..|sched| - 1], sched[|sched| - 1];
      NeverBottom(first, n, before, u);
      StepNeverBottom(Run(first, n, before), c.t, c.req, u);
    }
  }

  /** Helpers agree: once decided, a verdict stays for as long as the slot keeps its sequence number. */
  lemma VerdictFixed(s: State, t: nat, req: Request, k: Id)
    requires Inv(s) && t < |s.threads| && Allowed(s.sh.first, req) && KLive(s.sh, k) && !Pending(s.sh, k)
    requires KLive(Step(s, t, req).sh, k)
    ensures Step(s, t, req).sh.kd[k.pid] == s.sh.kd[k.pid]
  {
    StepInv(s, t, req);
    var placed :| Rely(s.sh, Step(s, t, req).sh, t, placed);
    assert KSlotMove(s.sh.kd[k.pid], Step(s, t, req).sh.kd[k.pid]);
  }

  /** A helper with a stale pointer changes no logical word and no KCAS slot. */
  lemma StaleHarmless(s: State, t: nat, req: Request)
    requires Runs(s, t) && !KLive(s.sh, Top(s.threads[t]).k) && Allowed(s.sh.first, req)
    ensures Words(Step(s, t, req).sh) == Words(s.sh) && Step(s, t, req).sh.kd == s.sh.kd
  {
    StepRefines(s, t, req);
  }

  /** Two helpers about to take the same operation's pointer out of the same word write the same value there. */
  lemma HelpersAgree(s: State, t: nat, u: nat)
    requires Runs(s, t) && Runs(s, u)
    requires var f, g := Top(s.threads[t]), Top(s.threads[u]);
      f.pc.UninstallSwap? && g.pc.UninstallSwap? && f.k == g.k && f.pc.a == g.pc.a && KLive(s.sh, f.k)
    ensures Top(s.threads[t]).pc == Top(s.threads[u]).pc
  {
    assert ThreadOk(s.sh, t, s.threads[t]) && ThreadOk(s.sh, u, s.threads[u]);
    assert FrameOk(s.sh, s.threads[t].stack[|s.threads[t].stack| - 1]);
    assert FrameOk(s.sh, s.threads[u].stack[|s.threads[u].stack| - 1]);
    assert OneShot(s.sh.first, ArgsOf(s.sh, Top(s.threads[t]).k));
  }

  // ---------- flags: words that operations only ever flip ----------

  /** One-shot operands that change every word they name, such as 0 -> 1 on done_ flags. */
  predicate FlagOp(first: seq<int>, args: Args) {
    OneShot(first, args) && forall i :: 0 <= i < |args.addrs| ==> args.news[i] != args.olds[i]
  }

  ghost predicate FlagOps(first: seq<int>, x: Atomic) {
    && |x.words| == |first|
    && forall u :: 0 <= u < |x.ops| ==> (x.ops[u].Wanted? ==> FlagOp(first, x.ops[u].args))
  }

  /** Step k of the run decides an operation on word a in its favour. */
  ghost predicate Wins(xs: seq<Atomic>, movers: seq<nat>, k: nat, a: nat)
    requires k < |movers| < |xs|
  {
    var u := movers[k];
    && u < |xs[k].ops| && u < |xs[k + 1].ops|
    && xs[k].ops[u].Wanted? && xs[k + 1].ops[u] == Settled(xs[k].ops[u].args, true)
    && a in xs[k].ops[u].args.addrs
  }

  lemma FlagSticks(first: seq<int>, x: Atomic, u: nat, y: Atomic, a: nat)
    requires FlagOps(first, x) && AtomicStep(x, u, y) && a < |first| && x.words[a] != first[a]
    ensures |y.words| == |first| && y.words[a] != first[a]
  {
    if x.ops[u].Wanted? && a in x.ops[u].args.addrs {
      var i := IndexOf(x.ops[u].args.addrs, a);
      assert x.words[x.ops[u].args.addrs[i]] != x.ops[u].args.olds[i];
    }
  }

  lemma {:induction false} FlagStaysTaken(first: seq<int>, n: nat, xs: seq<Atomic>, movers: seq<nat>, sched: seq<Choice>, i: nat, j: nat, a: nat)
    requires AtomicRun(first, n, xs, movers, sched) && i <= j <= |movers| && a < |first|
    requires forall k :: 0 <= k < |xs| ==> FlagOps(first, xs[k])
    requires |xs[i].words| == |first| && xs[i].words[a] != first[a]
    ensures |xs[j].words| == |first| && xs[j].words[a] != first[a]
  {
    if i < j {
      FlagStaysTaken(first, n, xs, movers, sched, i, j - 1, a);
      assert xs[j - 1 + 1] == xs[j - 1] || AtomicStep(xs[j - 1], movers[j - 1], xs[j - 1 + 1]);
      if xs[j] != xs[j - 1] { FlagSticks(first, xs[j - 1], movers[j - 1], xs[j], a); }
    }
  }

  /** A win finds the flag at its initial value and leaves it at another. */
  lemma WinFlips(first: seq<int>, n: nat, xs: seq<Atomic>, movers: seq<nat>, sched: seq<Choice>, k: nat, a: nat)
    requires AtomicRun(first, n, xs, movers, sched) && k < |movers|
    requires FlagOps(first, xs[k]) && FlagOps(first, xs[k + 1]) && Wins(xs, movers, k, a)
    ensures a < |first| && xs[k].words[a] == first[a] && xs[k + 1].words[a] != first[a]
  {
    var args := xs[k].ops[movers[k]].args;
    var i := IndexOf(args.addrs, a);
    assert xs[k + 1] == xs[k] || AtomicStep(xs[k], movers[k], xs[k + 1]);
    assert FlagOp(first, args) && args.news[i] != args.olds[i];
    assert xs[k].words[args.addrs[i]] == args.olds[i];
  }

  /** A flag goes from its initial value to another once: at most one operation naming it succeeds. */
  lemma FlagWonOnce(first: seq<int>, n: nat, xs: seq<Atomic>, movers: seq<nat>, sched: seq<Choice>, i: nat, j: nat, a: nat)
    requires AtomicRun(first, n, xs, movers, sched) && i <= j < |movers|
    requires forall k :: 0 <= k < |xs| ==> FlagOps(first, xs[k])
    requires Wins(xs, movers, i, a) && Wins(xs, movers, j, a)
    ensures i == j
  {
    WinFlips(first, n, xs, movers, sched, i, a);
    WinFlips(first, n, xs, movers, sched, j, a);
    if i < j { FlagStaysTaken(first, n, xs, movers, sched, i + 1, j, a); }
  }

  predicate FlagSchedule(first: seq<int>, n: nat, sched: seq<Choice>) {
    && Schedule(first, n, sched)
    && forall i :: 0 <= i < |sched| ==> (sched[i].req.AskKcas? ==> FlagOp(first, sched[i].req.args))
  }

  lemma StepFlagOps(s: State, t: nat, req: Request)
    requires Inv(s) && t < |s.threads| && Allowed(s.sh.first, req)
    requires req.AskKcas? ==> FlagOp(s.sh.first, req.args)
    requires FlagOps(s.sh.first, Abs(s))
    ensures Inv(Step(s, t, req)) && FlagOps(s.sh.first, Abs(Step(s, t, req)))
  {
    StepRefines(s, t, req);
    StepInv(s, t, req);
    var x, y := Abs(s), Abs(Step(s, t, req));
    if y != x {
      var u := Mover(s, t);
      assert ThreadOk(s.sh, t, s.threads[t]);
      if x.ops[u].Rest? && y.ops[u].Wanted? { assert y.ops[u].args == req.args; }
    }
  }

  /** In every run of flag operations, all of them are flag operations at every moment. */
  lemma {:induction false} SeenFlagOps(first: seq<int>, n: nat, sched: seq<Choice>)
    requires FlagSchedule(first, n, sched)
    ensures forall k :: 0 <= k < |Seen(first, n, sched)| ==> FlagOps(first, Seen(first, n, sched)[k])
  {
    if sched != [] {
      var before, c := sched[..|sched| - 1], sched[|sched| - 1];
      SeenFlagOps(first, n, before);
      assert FlagOps(first, Seen(first, n, before)[|before|]);
      StepFlagOps(Run(first, n, before), c.t, c.req);
    } else {
      RunStarts(first, n);
    }
  }

  /** For the done_ flags of selects: however many threads race and help each other, at most one
      kcas that names a given flag is ever decided successful. */
  lemma DoneFlagWonOnce(first: seq<int>, n: nat, sched: seq<Choice>, movers: seq<nat>, i: nat, j: nat, a: nat)
    requires FlagSchedule(first, n, sched)
    requires AtomicRun(first, n, Seen(first, n, sched), movers, sched) && i <= j < |movers|
    requires Wins(Seen(first, n, sched), movers, i, a) && Wins(Seen(first, n, sched), movers, j, a)
    ensures i == j
  {
    SeenFlagOps(first, n, sched);
    FlagWonOnce(first, n, Seen(first, n, sched), movers, sched, i, j, a);
  }
}
