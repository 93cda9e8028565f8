/** Two-word operations that name their words in a circle: each holds its first word, and a thread that
    meets them helps one after the other for ever. */
module KcasCircles {
  import opened Counting
  import opened KcasModel
  import opened KcasInvariant
  import opened KcasSolo
  import opened KcasProgress

  // ---------- words named in a circle ----------

  function Succ(m: nat, i: nat): nat
    requires i < m
  {
    if i == m - 1 then 0 else i + 1
  }

  /** Two-word operations that name the words of c in a circle. */
  ghost predicate Ring(may: iset<Request>, c: seq<nat>, ops: seq<Args>) {
    && |c| == |ops| > 1 && NoRepeats(c)
    && forall i :: 0 <= i < |c| ==> AskKcas(ops[i]) in may && ops[i].addrs == [c[i], c[Succ(|c|, i)]]
  }

  /** The i-th of the two words of operation j. */
  function Aim(c: seq<nat>, j: nat, i: nat): nat
    requires j < |c|
  {
    if i == 0 then c[j] else c[Succ(|c|, j)]
  }

  function Nth(i: nat): Id {
    Id(i, 2)
  }

  /** Operation i is undecided and has its pointer in its first word. */
  ghost predicate Holds(sh: Shared, c: seq<nat>, ops: seq<Args>, i: nat)
    requires i < |c| == |ops|
  {
    && c[i] < |sh.mem| && sh.mem[c[i]] == Kcas(Nth(i))
    && Pending(sh, Nth(i)) && ArgsOf(sh, Nth(i)) == ops[i] && ops[i].addrs == [c[i], c[Succ(|c|, i)]]
  }

  ghost predicate Holding(sh: Shared, c: seq<nat>, ops: seq<Args>, m: nat)
    requires |c| == |ops|
  {
    m <= |c| && forall i :: 0 <= i < m ==> Holds(sh, c, ops, i)
  }

  /** A thread that helps one of them, up to its second word. */
  ghost predicate Helping(c: seq<nat>, th: Thread) {
    && th.call.Running? && th.help.NoHelp? && th.stack != []
    && var Frame(k, pc) := Top(th);
    && k.pid < |c| && k == Nth(k.pid)
    && match pc
       case Start => true
       case Install(i) => i < 2
       case DcssBegin(i, a, _) => i < 2 && a == Aim(c, k.pid, i)
       case DcssPublish(i, a, _) => i < 2 && a == Aim(c, k.pid, i)
       case DcssSwap(i, a, _) => i < 2 && a == Aim(c, k.pid, i)
       case _ => false
  }

  lemma HelpsNext(sh: Shared, c: seq<nat>, ops: seq<Args>, th: Thread)
    requires |c| == |ops| > 1 && Holding(sh, c, ops, |c|) && Helping(c, th) && 0 < |sh.kd| == |sh.dd|
    ensures var (sh', th') := FrameStep(sh, 0, th); sh'.mem == sh.mem && sh'.kd == sh.kd && Helping(c, th')
  {
    var j := Top(th).k.pid;
    assert Holds(sh, c, ops, j) && Holds(sh, c, ops, Succ(|c|, j));
  }

  ghost predicate Spins(s: State, c: seq<nat>, ops: seq<Args>) {
    Shape(s) && 1 < |c| == |ops| && Holding(s.sh, c, ops, |c|) && s.threads != [] && Helping(c, s.threads[0])
  }

  lemma SpinsOn(s: State, c: seq<nat>, ops: seq<Args>, req: Request)
    requires Spins(s, c, ops)
    ensures Spins(Step(s, 0, req), c, ops)
  {
    HelpsNext(s.sh, c, ops, s.threads[0]);
    var s' := Step(s, 0, req);
    ShapeKept(s, 0, req);
    forall i | 0 <= i < |c| ensures Holds(s'.sh, c, ops, i) { assert Holds(s.sh, c, ops, i); }
  }

  lemma {:induction false} SpinsForever(s: State, c: seq<nat>, ops: seq<Args>, req: Request, k: nat)
    requires Spins(s, c, ops)
    ensures Spins(Turns(s, 0, req, k), c, ops)
  {
    if k > 0 {
      SpinsForever(s, c, ops, req, k - 1);
      SpinsOn(Turns(s, 0, req, k - 1), c, ops, req);
    }
  }

  // ---------- the run that leads there ----------

  ghost function PlayOf(first: seq<int>, n: nat, may: iset<Request>, ops: seq<Args>): Play {
    Play(iset q | Reachable(first, n, may, q), map i: nat | 0 <= i < |ops| :: AskKcas(ops[i]))
  }

  lemma PlayClosed(first: seq<int>, n: nat, may: iset<Request>, c: seq<nat>, ops: seq<Args>)
    requires Ring(may, c, ops)
    ensures Closed(PlayOf(first, n, may, ops))
  {
    var p := PlayOf(first, n, may, ops);
    forall q: State, t: nat | q in p.states && Shape(q) && t < |q.threads| && t in p.wish
      ensures Step(q, t, p.wish[t]) in p.states
    {
      assert ops[t].addrs == [c[t], c[Succ(|c|, t)]];
      ReachesNext(first, n, may, q, t, p.wish[t]);
    }
  }

  /** Thread i has not begun, and the word that it will take is as it was. */
  ghost predicate Waits(first: seq<int>, s: State, c: seq<nat>, i: nat)
    requires Shape(s) && i < |s.threads| && i < |c|
  {
    && s.threads[i] == Thread(Idle, NoRet, [], NoHelp) && s.sh.kd[i].ver == 0
    && c[i] < |s.sh.mem| == |first| && s.sh.mem[c[i]] == Plain(first[c[i]])
  }

  /** The first m threads have their first words, and the others have not begun. */
  ghost predicate Begun(first: seq<int>, n: nat, s: State, c: seq<nat>, ops: seq<Args>, m: nat)
    requires |c| == |ops|
  {
    && Shape(s) && |c| <= |s.threads| == n && Holding(s.sh, c, ops, m)
    && (m > 0 ==> At(s, 0, Nth(0), Install(1)) && s.threads[0].call.Running?)
    && forall i :: m <= i < |c| ==> Waits(first, s, c, i)
  }

  /** Thread t calls kcas and takes its first word. */
  lemma TakesFirst(p: Play, s: State, t: nat, args: Args, v: int) returns (s': State)
    requires Ready(p, s) && t < |s.threads| && t in p.wish && p.wish[t] == AskKcas(args) && s.sh.kd[t].ver == 0
    requires s.threads[t] == Thread(Idle, NoRet, [], NoHelp)
    requires |args.addrs| > 0 && args.addrs[0] < |s.sh.mem| && s.sh.mem[args.addrs[0]] == Plain(v) && v == args.olds[0]
    ensures KcasSolo.Moves(p, s, s', t) && s'.sh.mem == s.sh.mem[args.addrs[0] := Kcas(Nth(t))]
    ensures Pending(s'.sh, Nth(t)) && ArgsOf(s'.sh, Nth(t)) == args
    ensures At(s', t, Nth(t), Install(1)) && s'.threads[t].call.Running?
  {
    s' := Begins(p, s, t, args);
    s' := Enters(p, s', t, Nth(t));
    s' := Installs(p, s', t, Nth(t), args, 0);
  }

  lemma OneMore(first: seq<int>, n: nat, s: State, s': State, c: seq<nat>, ops: seq<Args>, t: nat)
    requires |c| == |ops| && t < |c| && Begun(first, n, s, c, ops, t) && Only(s, s', t) && NoRepeats(c)
    requires ops[t].addrs == [c[t], c[Succ(|c|, t)]] && c[t] < |s.sh.mem| && s'.sh.mem == s.sh.mem[c[t] := Kcas(Nth(t))]
    requires Pending(s'.sh, Nth(t)) && ArgsOf(s'.sh, Nth(t)) == ops[t]
    requires At(s', t, Nth(t), Install(1)) && s'.threads[t].call.Running?
    ensures Begun(first, n, s', c, ops, t + 1)
  {
    forall i | 0 <= i < t ensures Holds(s'.sh, c, ops, i) { assert Holds(s.sh, c, ops, i); }
    forall i | t < i < |c| ensures Waits(first, s', c, i) { assert Waits(first, s, c, i); }
  }

  lemma {:induction false} Begin(first: seq<int>, n: nat, may: iset<Request>, c: seq<nat>, ops: seq<Args>, m: nat) returns (s: State)
    requires Ring(may, c, ops) && m <= |c| <= n && forall r :: r in may ==> Allowed(first, r)
    ensures Ready(PlayOf(first, n, may, ops), s) && Begun(first, n, s, c, ops, m)
  {
    if m == 0 {
      PlayClosed(first, n, may, c, ops);
      s := Init(first, n);
      assert After(first, n, may, s, 0);
      forall i | 0 <= i < |c| ensures Waits(first, s, c, i) {
        assert Allowed(first, AskKcas(ops[i])) && ops[i].addrs[0] == c[i];
      }
    } else {
      var t := m - 1;
      var q := Begin(first, n, may, c, ops, t);
      assert Allowed(first, AskKcas(ops[t])) && ops[t].addrs == [c[t], c[Succ(|c|, t)]] && Waits(first, q, c, t);
      s := TakesFirst(PlayOf(first, n, may, ops), q, t, ops[t], first[c[t]]);
      OneMore(first, n, q, s, c, ops, t);
    }
  }

  /** A ring of two-word operations, and as many threads: some thread's call never ends, though it is
      left alone. */
  lemma RingSpins(first: seq<int>, n: nat, may: iset<Request>, c: seq<nat>, ops: seq<Args>) returns (s: State)
    requires Ring(may, c, ops) && |c| <= n && forall r :: r in may ==> Allowed(first, r)
    ensures Reachable(first, n, may, s) && |s.threads| == n && s.threads[0].call.Running?
    ensures forall k: nat, req :: !IdleAfter(s, 0, req, k)
  {
    s := Begin(first, n, may, c, ops, |c|);
    forall k: nat, req ensures !IdleAfter(s, 0, req, k) { SpinsForever(s, c, ops, req, k); }
  }

  // ---------- exactly then ----------

  ghost predicate AtMostTwoWords(may: iset<Request>) {
    forall args: Args :: AskKcas(args) in may ==> |args.addrs| <= 2
  }

  lemma PairOf(first: seq<int>, may: iset<Request>, u: nat, v: nat) returns (args: Args)
    requires AtMostTwoWords(may) && Edge(may, u, v)
    ensures AskKcas(args) in may && args.addrs == [u, v]
  {
    var a: Args, i: nat, j: nat :| AskKcas(a) in may && i < j < |a.addrs| && a.addrs[i] == u && a.addrs[j] == v;
    args := a;
  }

  lemma RingOf(first: seq<int>, may: iset<Request>, c: seq<nat>) returns (ops: seq<Args>)
    requires AtMostTwoWords(may) && Circle(may, c) && forall r :: r in may ==> Allowed(first, r)
    ensures Ring(may, c, ops)
  {
    ops := [];
    while |ops| < |c|
      invariant |ops| <= |c|
      invariant forall i :: 0 <= i < |ops| ==> AskKcas(ops[i]) in may && ops[i].addrs == [c[i], c[Succ(|c|, i)]]
    {
      var i := |ops|;
      var a := PairOf(first, may, c[i], c[Succ(|c|, i)]);
      ops := ops + [a];
    }
    assert Allowed(first, AskKcas(ops[0])) && ops[0].addrs[0] != ops[0].addrs[1];
  }

  /** In all runs of n threads, every call ends when its thread is left alone. */
  ghost predicate CallsEnd(first: seq<int>, n: nat, may: iset<Request>) {
    forall s, t: nat, req :: Reachable(first, n, may, s) && t < n && req in may ==> Finishes(s, t, req)
  }

  /** One-shot operations on one or two words, and reads: with any number of threads, every call ends
      when its thread is left alone, exactly when no words are named in a circle. */
  lemma EndExactlyWhenNoCircle(first: seq<int>, may: iset<Request>)
    requires AtMostTwoWords(may) && forall r :: r in may ==> Allowed(first, r)
    ensures (forall n: nat :: CallsEnd(first, n, may)) <==> NoCircle(may)
  {
    if NoCircle(may) {
      forall n: nat ensures CallsEnd(first, n, may) {
        forall s, t: nat, req | Reachable(first, n, may, s) && t < n && req in may ensures Finishes(s, t, req) {
          LoneCallEnds(first, n, may, s, t, req);
        }
      }
    } else {
      var c :| Circle(may, c);
      var ops := RingOf(first, may, c);
      var s := RingSpins(first, |c|, may, c, ops);
      assert !Finishes(s, 0, AskKcas(ops[0]));
      assert !CallsEnd(first, |c|, may);
    }
  }
}
