/** What threads do when they are left alone, in turns: kcas, kcas_help and dcss piece by piece. */
module KcasSolo {
  import opened KcasModel
  import opened KcasInvariant
  import KcasProof

  /** Some states, closed under the steps of the threads that have a wish, which is what they do
      when they are idle. */
  datatype Play = Play(states: iset<State>, wish: map<nat, Request>)

  /** What n threads can do in len steps, when they ask for no other things than these. */
  ghost predicate After(first: seq<int>, n: nat, may: iset<Request>, s: State, len: nat)
    decreases len
  {
    if len == 0 then s == Init(first, n)
    else exists p: State, t: nat, req ::
      After(first, n, may, p, len - 1) && Shape(p) && t < |p.threads| && req in may && s == Step(p, t, req)
  }

  ghost predicate Reachable(first: seq<int>, n: nat, may: iset<Request>, s: State) {
    exists len: nat :: After(first, n, may, s, len)
  }

  lemma ReachesNext(first: seq<int>, n: nat, may: iset<Request>, s: State, t: nat, req: Request)
    requires Reachable(first, n, may, s) && Shape(s) && t < |s.threads| && req in may
    ensures Reachable(first, n, may, Step(s, t, req))
  {
    var len: nat :| After(first, n, may, s, len);
    assert After(first, n, may, Step(s, t, req), len + 1);
  }

  /** One-shot operations keep the invariant. */
  lemma {:induction false} ReachableInv(first: seq<int>, n: nat, may: iset<Request>, s: State, len: nat)
    requires After(first, n, may, s, len) && forall req :: req in may ==> Allowed(first, req)
    ensures Inv(s) && s.sh.first == first && |s.threads| == n
    decreases len
  {
    if len == 0 {
      KcasProof.InitInv(first, n);
    } else {
      var p: State, t: nat, req :|
        After(first, n, may, p, len - 1) && Shape(p) && t < |p.threads| && req in may && s == Step(p, t, req);
      ReachableInv(first, n, may, p, len - 1);
      KcasProof.StepInv(p, t, req);
      ShapeKept(p, t, req);
    }
  }

  ghost predicate Closed(p: Play) {
    forall q: State, t: nat {:trigger Step(q, t, p.wish[t])} ::
      q in p.states && Shape(q) && t < |q.threads| && t in p.wish ==> Step(q, t, p.wish[t]) in p.states
  }

  ghost predicate Ready(p: Play, s: State) {
    Closed(p) && s in p.states && Shape(s)
  }

  /** The outer calls of kcas_help, which wait for the inner one. */
  function Outer(th: Thread): seq<Frame> {
    if th.stack == [] then [] else th.stack[..|th.stack| - 1]
  }

  /** Nothing of the other threads changes, nor of the outer calls. */
  ghost predicate Only(s: State, s': State, t: nat) {
    && Shape(s) && Shape(s') && |s.threads| == |s'.threads| && s'.sh.first == s.sh.first
    && t < |s.threads| && Outer(s'.threads[t]) == Outer(s.threads[t])
    && forall o :: 0 <= o < |s.threads| && o != t ==>
         s'.threads[o] == s.threads[o] && s'.sh.kd[o] == s.sh.kd[o] && s'.sh.dd[o] == s.sh.dd[o]
  }

  /** A helper may also decide another thread's operation. */
  ghost predicate Threads(s: State, s': State, t: nat) {
    && |s.threads| == |s'.threads| && s'.sh.first == s.sh.first
    && t < |s.threads| && Outer(s'.threads[t]) == Outer(s.threads[t])
    && forall o :: 0 <= o < |s.threads| && o != t ==> s'.threads[o] == s.threads[o]
  }

  ghost predicate Moves(p: Play, s: State, s': State, t: nat) {
    Ready(p, s) && Ready(p, s') && Only(s, s', t)
  }

  /** Thread t is inside kcas_help for k. */
  predicate At(s: State, t: nat, k: Id, pc: Pc, help: Help := NoHelp) {
    t < |s.threads| && s.threads[t].stack != [] && Top(s.threads[t]) == Frame(k, pc) && s.threads[t].help == help
  }

  predicate Calls(s: State, t: nat, call: Call) {
    t < |s.threads| && s.threads[t].call == call
  }

  /** k is an undecided operation with these operands. */
  predicate Open(s: State, k: Id, args: Args) {
    Pending(s.sh, k) && ArgsOf(s.sh, k) == args
  }

  lemma ShapeKept(s: State, t: nat, req: Request)
    requires Shape(s) && t < |s.threads|
    ensures var s' := Step(s, t, req); Shape(s') && |s'.threads| == |s.threads| && s'.sh.first == s.sh.first
  {
  }

  lemma StepReady(p: Play, s: State, t: nat) returns (s': State)
    requires Ready(p, s) && t < |s.threads| && t in p.wish
    ensures s' == Step(s, t, p.wish[t]) && Ready(p, s') && |s'.threads| == |s.threads| && s'.sh.first == s.sh.first
  {
    s' := Step(s, t, p.wish[t]);
    ShapeKept(s, t, p.wish[t]);
  }

  /** kcas is called: create_new in two steps, then kcas_help begins. */
  lemma Begins(p: Play, s: State, t: nat, args: Args) returns (s': State)
    requires Ready(p, s) && t < |s.threads| && t in p.wish && p.wish[t] == AskKcas(args)
    requires s.threads[t].stack == [] && s.threads[t].help == NoHelp && Calls(s, t, Idle)
    ensures Moves(p, s, s', t) && s'.sh.mem == s.sh.mem && s'.sh.dd == s.sh.dd
    ensures var k := Id(t, s.sh.kd[t].ver + 2); At(s', t, k, Start) && Open(s', k, args) && Calls(s', t, Running(args))
  {
    s' := StepReady(p, s, t);
    s' := StepReady(p, s', t);
    s' := StepReady(p, s', t);
  }

  lemma Enters(p: Play, s: State, t: nat, k: Id) returns (s': State)
    requires Ready(p, s) && t < |s.threads| && t in p.wish && At(s, t, k, Start) && Pending(s.sh, k)
    ensures Moves(p, s, s', t) && s'.sh == s.sh && At(s', t, k, Install(0)) && s'.threads[t].call == s.threads[t].call
  {
    s' := StepReady(p, s, t);
  }

  // ---------- one word of the install loop ----------

  /** dcss is called for word j: its descriptor is written, its CAS comes next. */
  lemma Tries(p: Play, s: State, t: nat, k: Id, args: Args, j: nat) returns (s': State)
    requires Ready(p, s) && t < |s.threads| && t in p.wish && At(s, t, k, Install(j)) && Open(s, k, args) && j < |args.addrs|
    ensures Moves(p, s, s', t) && s'.sh.mem == s.sh.mem && s'.sh.kd == s.sh.kd && s'.threads[t].call == s.threads[t].call
    ensures At(s', t, k, DcssSwap(j, args.addrs[j], args.olds[j]))
    ensures s'.sh.dd[t] == DcssSlot(s.sh.dd[t].ver + 2, k, args.addrs[j], args.olds[j])
  {
    s' := StepReady(p, s, t);
    s' := StepReady(p, s', t);
    s' := StepReady(p, s', t);
  }

  /** The CAS finds the expected value: the dcss pointer is in, and k was read as undecided. */
  lemma Places(p: Play, s: State, t: nat, k: Id, j: nat, w: nat, e: int) returns (s': State)
    requires Ready(p, s) && t < |s.threads| && t in p.wish && At(s, t, k, DcssSwap(j, w, e)) && Pending(s.sh, k)
    requires w < |s.sh.mem| && s.sh.mem[w] == Plain(e) && s.sh.dd[t] == DcssSlot(s.sh.dd[t].ver, k, w, e)
    ensures Moves(p, s, s', t) && s'.sh == s.sh.(mem := s.sh.mem[w := Dcss(Id(t, s.sh.dd[t].ver))])
    ensures At(s', t, k, DcssDone(j, w, e), Swap(Id(t, s.sh.dd[t].ver), k, w, e, true)) && s'.threads[t].call == s.threads[t].call
  {
    s' := StepReady(p, s, t);
    s' := StepReady(p, s', t);
    s' := StepReady(p, s', t);
  }

  /** The delayed CAS of dcss_help: it stores the pointer of k. */
  lemma Stores(p: Play, s: State, t: nat, k: Id, j: nat, w: nat, e: int, d: Id) returns (s': State)
    requires Ready(p, s) && t < |s.threads| && t in p.wish && At(s, t, k, DcssDone(j, w, e), Swap(d, k, w, e, true))
    requires w < |s.sh.mem| && s.sh.mem[w] == Dcss(d)
    ensures Moves(p, s, s', t) && s'.sh == s.sh.(mem := s.sh.mem[w := Kcas(k)])
    ensures At(s', t, k, DcssDone(j, w, e)) && s'.threads[t].call == s.threads[t].call
  {
    s' := StepReady(p, s, t);
  }

  /** The CAS finds the pointer already there. */
  lemma Passes(p: Play, s: State, t: nat, k: Id, j: nat, w: nat, e: int) returns (s': State)
    requires Ready(p, s) && t < |s.threads| && t in p.wish && At(s, t, k, DcssSwap(j, w, e)) && w < |s.sh.mem| && s.sh.mem[w] == Kcas(k)
    ensures Moves(p, s, s', t) && s'.sh == s.sh && At(s', t, k, Install(j + 1)) && s'.threads[t].call == s.threads[t].call
  {
    s' := StepReady(p, s, t);
  }

  /** The CAS finds another value: failure will be proposed. */
  lemma Misses(p: Play, s: State, t: nat, k: Id, j: nat, w: nat, e: int, v: int) returns (s': State)
    requires Ready(p, s) && t < |s.threads| && t in p.wish && At(s, t, k, DcssSwap(j, w, e)) && w < |s.sh.mem|
    requires s.sh.mem[w] == Plain(v) && v != e
    ensures Moves(p, s, s', t) && s'.sh == s.sh && At(s', t, k, DecideLoad(j, Failed)) && s'.threads[t].call == s.threads[t].call
  {
    s' := StepReady(p, s, t);
  }

  lemma Goes(p: Play, s: State, t: nat, k: Id, j: nat, w: nat, e: int) returns (s': State)
    requires Ready(p, s) && t < |s.threads| && t in p.wish && At(s, t, k, DcssDone(j, w, e))
    ensures Moves(p, s, s', t) && s'.sh == s.sh && At(s', t, k, Install(j + 1)) && s'.threads[t].call == s.threads[t].call
  {
    s' := StepReady(p, s, t);
  }

  /** A whole word: from its expected value to the pointer of k. */
  lemma Installs(p: Play, s: State, t: nat, k: Id, args: Args, j: nat) returns (s': State)
    requires Ready(p, s) && t < |s.threads| && t in p.wish && At(s, t, k, Install(j)) && Open(s, k, args) && j < |args.addrs|
    requires args.addrs[j] < |s.sh.mem| && s.sh.mem[args.addrs[j]] == Plain(args.olds[j])
    ensures Moves(p, s, s', t) && s'.sh.mem == s.sh.mem[args.addrs[j] := Kcas(k)] && s'.sh.kd == s.sh.kd
    ensures At(s', t, k, Install(j + 1)) && s'.threads[t].call == s.threads[t].call
  {
    var w, e := args.addrs[j], args.olds[j];
    s' := Tries(p, s, t, k, args, j);
    var d := Id(t, s'.sh.dd[t].ver);
    s' := Places(p, s', t, k, j, w, e);
    s' := Stores(p, s', t, k, j, w, e, d);
    s' := Goes(p, s', t, k, j, w, e);
  }

  // ---------- deciding, and taking the pointers out ----------

  /** All words hold the pointer: success will be proposed. */
  lemma Agrees(p: Play, s: State, t: nat, k: Id, args: Args) returns (s': State)
    requires Ready(p, s) && t < |s.threads| && t in p.wish && At(s, t, k, Install(|args.addrs|)) && Open(s, k, args)
    ensures Moves(p, s, s', t) && s'.sh == s.sh && s'.threads[t].call == s.threads[t].call
    ensures At(s', t, k, DecideLoad(|args.addrs|, Succeeded))
  {
    s' := StepReady(p, s, t);
  }

  /** The proposal is accepted. */
  lemma Settles(p: Play, s: State, t: nat, k: Id, args: Args, j: nat, verdict: Verdict) returns (s': State)
    requires Ready(p, s) && t < |s.threads| && t in p.wish && verdict != Undecided
    requires At(s, t, k, DecideLoad(j, verdict)) && Open(s, k, args)
    ensures Ready(p, s') && s'.sh == s.sh.(kd := s.sh.kd[k.pid := s.sh.kd[k.pid].(verdict := verdict)])
    ensures Threads(s, s', t) && (k.pid == t ==> Only(s, s', t))
    ensures At(s', t, k, Uninstall(0, verdict == Succeeded)) && s'.threads[t].call == s.threads[t].call
  {
    s' := StepReady(p, s, t);
    s' := StepReady(p, s', t);
    s' := StepReady(p, s', t);
  }

  lemma Reaches(p: Play, s: State, t: nat, k: Id, args: Args, j: nat, ok: bool) returns (s': State)
    requires Ready(p, s) && t < |s.threads| && t in p.wish && At(s, t, k, Uninstall(j, ok)) && KLive(s.sh, k) && ArgsOf(s.sh, k) == args
    requires j < |args.addrs|
    ensures Moves(p, s, s', t) && s'.sh == s.sh && s'.threads[t].call == s.threads[t].call
    ensures At(s', t, k, UninstallSwap(j, ok, args.addrs[j], if ok then args.news[j] else args.olds[j]))
  {
    s' := StepReady(p, s, t);
  }

  lemma Uninstalls(p: Play, s: State, t: nat, k: Id, args: Args, j: nat, ok: bool) returns (s': State)
    requires Ready(p, s) && t < |s.threads| && t in p.wish && At(s, t, k, Uninstall(j, ok)) && KLive(s.sh, k) && ArgsOf(s.sh, k) == args
    requires j < |args.addrs|
    ensures Moves(p, s, s', t) && s'.sh == Cas(s.sh, args.addrs[j], Kcas(k), Plain(if ok then args.news[j] else args.olds[j]))
    ensures At(s', t, k, Uninstall(j + 1, ok)) && s'.threads[t].call == s.threads[t].call
  {
    s' := Reaches(p, s, t, k, args, j, ok);
    s' := StepReady(p, s', t);
  }

  /** kcas answers. */
  lemma Answers(p: Play, s: State, t: nat, k: Id, args: Args, ok: bool) returns (s': State)
    requires Ready(p, s) && t < |s.threads| && t in p.wish && At(s, t, k, Uninstall(|args.addrs|, ok)) && KLive(s.sh, k)
    requires ArgsOf(s.sh, k) == args && Calls(s, t, Running(args)) && Outer(s.threads[t]) == []
    ensures Moves(p, s, s', t) && s'.sh == s.sh && s'.threads[t] == Thread(Idle, Bool(ok), [], NoHelp)
  {
    s' := StepReady(p, s, t);
  }

  /** The next call begins to rewrite the descriptor. */
  lemma Rewrites(p: Play, s: State, t: nat, args: Args, ret: Ret) returns (s': State)
    requires Ready(p, s) && t < |s.threads| && t in p.wish && p.wish[t] == AskKcas(args) && s.threads[t] == Thread(Idle, ret, [], NoHelp)
    ensures Moves(p, s, s', t) && s'.sh.mem == s.sh.mem && s'.sh.kd[t].ver == s.sh.kd[t].ver + 1
    ensures s'.threads[t] == Thread(Publish(args), ret, [], NoHelp)
  {
    s' := StepReady(p, s, t);
    s' := StepReady(p, s', t);
  }

  /** A reader comes across the pointer of k. */
  lemma Finds(p: Play, s: State, t: nat, w: nat, k: Id) returns (s': State)
    requires Ready(p, s) && t < |s.threads| && t in p.wish && p.wish[t] == AskRead(w)
    requires s.threads[t].stack == [] && s.threads[t].help == NoHelp && Calls(s, t, Idle)
    requires w < |s.sh.mem| && s.sh.mem[w] == Kcas(k)
    ensures Moves(p, s, s', t) && s'.sh == s.sh && At(s', t, k, Start) && Calls(s', t, Reading(w))
  {
    s' := StepReady(p, s, t);
    s' := StepReady(p, s', t);
  }
}
