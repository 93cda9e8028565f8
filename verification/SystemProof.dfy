/** What every run of a system of channels and selects keeps true. */
module SystemProof {
  import opened Options
  import opened ChannelSpec
  import opened ChannelProof
  import opened ChannelMatch
  import opened ChannelSteps
  import opened System
  import ChannelRuns
  import Join

  // ---------- one select ----------

  /** The case that an arrival or a claim is about. */
  function AtCase(m: Join.Move): Option<nat> {
    match m
    case Begin(i) => Some(i)
    case Arrive(i, _) => Some(i)
    case Claim(i) => Some(i)
    case ArriveClaimed(i) => Some(i)
    case _ => None
  }

  /** Moves at another case leave this case, and who won it, alone. */
  lemma OtherCase<V>(j: Join.State, m: Join.Move, k: nat, node: Node<V>)
    requires Join.WinnerOk(j) && Join.Enabled(j, m) && Linked(j, k, node)
    requires AtCase(m).Some? && AtCase(m) != Some(k)
    ensures Linked(Join.Step(j, m), k, node)
  {
    match m
    case Begin(_) =>
    case Arrive(_, _) =>
    case Claim(_) =>
    case ArriveClaimed(_) =>
  }

  lemma OwnMove<V>(j: Join.State, m: Join.Move, k: nat, node: Node<V>)
    requires Join.WinnerOk(j) && Join.Enabled(j, m) && Linked(j, k, node) && AtCase(m) == None
    ensures Linked(Join.Step(j, m), k, node)
  {
    match m
    case CaseStep(i) => CaseStepLinked(j, i, k, node);
    case RunTask =>
    case EndEmit =>
  }

  lemma CaseStepStarted(j: Join.State, i: nat)
    requires i < |j.cases|
    ensures Join.CaseStepOf(j, i).started == j.started
  {
  }

  lemma CaseStepLinked<V>(j: Join.State, i: nat, k: nat, node: Node<V>)
    requires Join.WinnerOk(j) && Join.Enabled(j, Join.CaseStep(i)) && Linked(j, k, node)
    ensures Linked(Join.CaseStepOf(j, i), k, node)
  {
    CaseStepStarted(j, i);
    Join.CaseOutsKept(j, i);
    if j.done { Join.CaseStepWinner(j, i); }
  }

  /** The arrival of a node: its case has begun. */
  lemma BeginLinked<V>(j: Join.State, i: nat, a: Node<V>, b: Node<V>)
    requires Join.Enabled(j, Join.Begin(i)) && Linked(j, i, a) && a.out == [] && b.stamp.Some?
    requires b.out == [] || Answer(b) == Some(Join.Error) || Answer(b) == Some(Join.Null)
    ensures Linked(Join.Step(j, Join.Begin(i)), i, b)
  {
  }

  /** A channel's kcas takes an open flag: the case of an unanswered node can always be claimed. */
  lemma ClaimLinked<V>(j: Join.State, i: nat, a: Node<V>, b: Node<V>)
    requires Join.Inv(j) && j.kind == Join.Select && !j.done && Linked(j, i, a) && a.out == [] && a.stamp.Some?
    requires b.stamp.Some? && Answer(b) == Some(Join.Value)
    ensures Join.Enabled(j, Join.Claim(i)) && Linked(Join.Step(j, Join.Claim(i)), i, b)
  {
  }

  /** The callback tells the select what the channel has told the node. */
  lemma CallbackLinked<V>(j: Join.State, i: nat, node: Node<V>)
    requires j.kind == Join.Select && Linked(j, i, node) && Answer(node).Some? && Join.Enabled(j, Callback(node, i))
    ensures Linked(Join.Step(j, Callback(node, i)), i, node)
  {
  }

  // ---------- one channel ----------

  /** Between a and b the node was told nothing, or that it failed or was cancelled. */
  ghost predicate Quiet<V>(a: Node<V>, b: Node<V>) {
    && (a.stamp.Some? <==> b.stamp.Some?)
    && (b.out == a.out || (a.out == [] && (Answer(b) == Some(Join.Error) || Answer(b) == Some(Join.Null))))
  }

  lemma QuietLinked<V>(j: Join.State, i: nat, a: Node<V>, b: Node<V>)
    requires Linked(j, i, a) && Quiet(a, b)
    ensures Linked(j, i, b)
  {
  }

  ghost predicate QuietBut<V>(c: Chan<V>, d: Chan<V>, but: set<nat>) {
    d.info == c.info && d.nodes.Keys == c.nodes.Keys && forall k :: k in c.nodes && k !in but ==> Quiet(c.nodes[k], d.nodes[k])
  }

  /** Only node n has arrived, and it is unanswered or was refused. */
  ghost predicate Arrived<V>(c: Chan<V>, d: Chan<V>, n: nat) {
    && n in c.nodes && n in d.nodes && QuietBut(c, d, {n}) && c.nodes[n].out == [] && d.nodes[n].stamp.Some?
    && (d.nodes[n].out == [] || Answer(d.nodes[n]) == Some(Join.Error) || Answer(d.nodes[n]) == Some(Join.Null))
  }

  lemma RefusedArrives<V>(c: Chan<V>, n: nat, env: Env)
    requires Typed(c) && n in c.info && c.nodes[n].out == [] && (Refused(c, n) || !Meets(c, n))
    ensures Arrived(c, Emit(c, n, env), n)
  {
  }

  lemma EnteredQuiet<V>(c: Chan<V>, n: nat)
    requires Inv(c, {}) && n in c.info && c.nodes[n].stamp == None
    ensures Arrived(c, Entered(c, n).c, n)
  {
    assert AtRest(c.nodes[n]);
    if Refused(c, n) || !Meets(c, n) { RefusedArrives(c, n, _ => {}); }
  }

  lemma CancelledNode<V>(c: Chan<V>, n: nat)
    requires n in c.nodes && n in c.info && AtRest(c.nodes[n]) && !c.nodes[n].tried
    ensures Quiet(c.nodes[n], Cancel(c, n).nodes[n])
  {
  }

  lemma CancelQuiet<V>(c: Chan<V>, n: nat)
    requires NodesOk(c, {}) && n in c.info && !c.nodes[n].tried
    ensures QuietBut(c, Cancel(c, n), {})
  {
    CancelledNode(c, n);
    assert forall k :: k in c.nodes && k != n ==> Cancel(c, n).nodes[k] == c.nodes[k];
  }

  lemma CloseQuiet<V>(c: Chan<V>)
    requires Inv(c, {})
    ensures QuietBut(c, Close(c), {})
  {
    forall k | k in c.recvq ensures c.nodes[k].out == [] { assert c.nodes[k].queued; }
  }

  /** A successful kcas: s and r were open and unanswered, and are told of the exchange. */
  ghost predicate Exchanges<V>(c: Chan<V>, d: Chan<V>, done: set<nat>, s: nat, r: nat) {
    && QuietBut(c, d, {s, r}) && s in c.info && r in c.info && s in c.nodes && r in c.nodes
    && !SameSelect(c, s, r)
    && forall k :: k in {s, r} ==> TakesPart(c, d, done, k)
  }

  ghost predicate TakesPart<V>(c: Chan<V>, d: Chan<V>, done: set<nat>, k: nat)
    requires k in c.info && k in c.nodes && k in d.nodes
  {
    && c.nodes[k].out == [] && c.nodes[k].stamp.Some? && d.nodes[k].stamp.Some? && Answer(d.nodes[k]) == Some(Join.Value)
    && (c.info[k].select.Some? ==> c.info[k].select.value !in done)
  }

  /** Marking a node, or also putting another back, tells nobody anything. */
  lemma MarkQuiet<V>(c: Chan<V>, q: Chan<V>, m: nat)
    requires m in c.info && c.info.Keys == c.nodes.Keys && q.info == c.info && q.nodes == c.nodes
    ensures QuietBut(c, Mark(q, m), {})
  {
  }

  lemma BackQuiet<V>(c: Chan<V>, q: Chan<V>, n: nat, m: nat)
    requires n in c.info && m in c.info && c.info.Keys == c.nodes.Keys && q.info == c.info && q.nodes == c.nodes
    ensures QuietBut(c, Mark(PushFront(q, m), n), {})
  {
  }

  lemma LookQuiet<V>(l: Local<V>, done: set<nat>)
    requires Ready(l) && l.phase.Looking?
    ensures Partners(l, done) == None && QuietBut(l.c, Accessed(l, done).c, {})
  {
    MarkQuiet(l.c, Flip(l.c, done), l.phase.m);
    BackQuiet(l.c, Flip(l.c, done), l.phase.n, l.phase.m);
  }

  lemma EmptyQuiet<V>(l: Local<V>, done: set<nat>)
    requires LocalOk(l) && Ready(l) && l.phase.Matching? && Theirs(l.c, l.phase.n) == []
    ensures Partners(l, done) == None && QuietBut(l.c, Accessed(l, done).c, {})
  {
    assert l.phase.n in {l.phase.n};
  }

  /** From c, over the pop to p, to the exchange. */
  lemma PairExchanges<V>(c: Chan<V>, p: Chan<V>, done: set<nat>, s: nat, r: nat)
    requires Typed(p) && s in p.info && r in p.info && p.info[s].value.Some? && s != r && CanPair(p, s, r)
    requires QuietBut(c, p, {}) && s in c.nodes && r in c.nodes && s in c.info && r in c.info
    requires forall x :: x in done ==> x in p.claims
    requires forall k :: k in {s, r} ==> c.nodes[k].out == [] == p.nodes[k].out && c.nodes[k].stamp.Some?
    ensures Exchanges(c, Pair(p, s, r), done, s, r)
  {
    assert s in {s, r} && r in {s, r};
    var d := Pair(p, s, r);
    assert QuietBut(c, d, {s, r});
    assert TakesPart(c, d, done, s) && TakesPart(c, d, done, r);
  }

  lemma PoppedQuiet<V>(c: Chan<V>, n: nat, done: set<nat>)
    requires NodesOk(c, {n}) && QueuesOk(c) && n in c.info && Theirs(c, n) != []
    ensures var p, m := Flip(PopFront(c, Other(c.info[n].side)), done), Theirs(c, n)[0];
      && Typed(p) && QuietBut(c, p, {}) && m in c.nodes && m in c.info && n in c.nodes && m != n
      && c.info[m].side == Other(c.info[n].side) && |p.pairs| == |c.pairs|
      && (forall k :: k in {n, m} ==> c.nodes[k].out == [] == p.nodes[k].out && c.nodes[k].stamp.Some?)
      && (forall x :: x in done ==> x in p.claims)
  {
    var p, m := Flip(PopFront(c, Other(c.info[n].side)), done), Theirs(c, n)[0];
    FirstPopped(c, n, done);
    assert n in {n} && InHand(c.nodes[n]) && AtRest(c.nodes[m]);
    FlagsFound(PopFront(c, Other(c.info[n].side)), done);
  }

  lemma FlagsFound<V>(c: Chan<V>, done: set<nat>)
    ensures forall x :: x in done ==> x in Flip(c, done).claims
  {
  }

  lemma PopQuiet<V>(l: Local<V>, done: set<nat>)
    requires LocalOk(l) && Ready(l) && l.phase.Matching? && Theirs(l.c, l.phase.n) != []
    ensures match Partners(l, done)
      case None => QuietBut(l.c, Accessed(l, done).c, {})
      case Some(p) => Exchanges(l.c, Accessed(l, done).c, done, p.0, p.1)
  {
    var n := l.phase.n;
    var m, p := Theirs(l.c, n)[0], Flip(PopFront(l.c, Other(l.c.info[n].side)), done);
    PoppedQuiet(l.c, n, done);
    if CanPair(p, n, m) {
      assert {n, m} == {m, n};
      if p.info[n].side == Sender { PairExchanges(l.c, p, done, n, m); } else { PairExchanges(l.c, p, done, m, n); }
    }
  }

  lemma AccessQuiet<V>(l: Local<V>, done: set<nat>)
    requires LocalOk(l) && Ready(l) && !l.phase.Idle?
    ensures match Partners(l, done)
      case None => QuietBut(l.c, Accessed(l, done).c, {})
      case Some(p) => Exchanges(l.c, Accessed(l, done).c, done, p.0, p.1)
  {
    if l.phase.Looking? {
      LookQuiet(l, done);
    } else if Theirs(l.c, l.phase.n) == [] {
      EmptyQuiet(l, done);
    } else {
      PopQuiet(l, done);
    }
  }

  // ---------- the whole system ----------

  /** Channel ch is now l'; the others and the wiring are as before. */
  ghost predicate OneChannel<V>(s: Sys<V>, s': Sys<V>, ch: nat) {
    && |s'.chans| == |s.chans| == |s'.traces| == |s.traces| && ch < |s.chans| && s'.wire == s.wire
    && s'.chans == s.chans[ch := s'.chans[ch]]
    && s'.chans[ch].c.info == s.chans[ch].c.info && s'.chans[ch].c.nodes.Keys == s.chans[ch].c.nodes.Keys
  }

  lemma SameCases<V>(s: Sys<V>, s': Sys<V>, ch: nat, k: nat, n: nat, x: nat)
    requires OneChannel(s, s', ch)
    ensures InCase(s', k, n, x) <==> InCase(s, k, n, x)
    ensures CaseOf(s', k, n) == CaseOf(s, k, n)
  {
  }

  lemma WiredKept<V>(s: Sys<V>, s': Sys<V>, ch: nat)
    requires Wired(s) && OneChannel(s, s', ch) && s'.joins.Keys == s.joins.Keys
    ensures Wired(s')
  {
    forall k: nat, n: nat, x: nat | InCase(s', k, n, x) ensures x in s'.joins { SameCases(s, s', ch, k, n, x); }
    forall k: nat, n: nat, k': nat, n': nat, x: nat
      | InCase(s', k, n, x) && InCase(s', k', n', x) && CaseOf(s', k, n) == CaseOf(s', k', n')
      ensures k == k' && n == n'
    {
      SameCases(s, s', ch, k, n, x);
      SameCases(s, s', ch, k', n', x);
    }
  }

  lemma MovedOk(joins: map<nat, Join.State>, x: nat, m: Join.Move)
    requires JoinsOk(joins)
    ensures JoinsOk(Moved(joins, x, m)) && Moved(joins, x, m).Keys == joins.Keys
  {
    if x in joins && Join.Enabled(joins[x], m) { Join.StepInv(joins[x], m); }
  }

  /** A step of channel ch in which no select moves. */
  lemma QuietStep<V>(s: Sys<V>, s': Sys<V>, ch: nat)
    requires Ok(s) && OneChannel(s, s', ch) && s'.joins == s.joins && LocalOk(s'.chans[ch])
    requires QuietBut(s.chans[ch].c, s'.chans[ch].c, {})
    ensures Ok(s')
  {
    WiredKept(s, s', ch);
    forall k: nat, n: nat, x: nat | InCase(s', k, n, x)
      ensures x in s'.joins && Linked(s'.joins[x], CaseOf(s', k, n), s'.chans[k].c.nodes[n])
    {
      SameCases(s, s', ch, k, n, x);
      if k == ch { QuietLinked(s.joins[x], CaseOf(s, k, n), s.chans[k].c.nodes[n], s'.chans[k].c.nodes[n]); }
    }
  }

  /** A move of select x at the case of node (k, n) leaves all other nodes linked. */
  lemma ElsewhereLinked<V>(s: Sys<V>, x: nat, m: Join.Move, k: nat, n: nat, k': nat, n': nat)
    requires Links(s) && InCase(s, k', n', x) && Join.Enabled(s.joins[x], m) && AtCase(m) == Some(CaseOf(s, k, n))
    requires InCase(s, k, n, x) && (k, n) != (k', n')
    ensures Linked(Join.Step(s.joins[x], m), CaseOf(s, k', n'), s.chans[k'].c.nodes[n'])
  {
    OtherCase(s.joins[x], m, CaseOf(s, k', n'), s.chans[k'].c.nodes[n']);
  }

  /** A step of channel ch at node n, whose select, if any, moves at n's case. */
  lemma NodeStep<V>(s: Sys<V>, s': Sys<V>, ch: nat, n: nat, m: Join.Move)
    requires Ok(s) && OneChannel(s, s', ch) && Has(s, ch, n) && LocalOk(s'.chans[ch])
    requires QuietBut(s.chans[ch].c, s'.chans[ch].c, {n}) && AtCase(m) == Some(CaseOf(s, ch, n))
    requires s'.joins == NodeMoved(s, s.joins, ch, n, m)
    requires forall x: nat :: InCase(s, ch, n, x) ==>
      Join.Enabled(s.joins[x], m) && Linked(Join.Step(s.joins[x], m), CaseOf(s, ch, n), s'.chans[ch].c.nodes[n])
    ensures Ok(s')
  {
    if s.chans[ch].c.info[n].select.Some? {
      MovedOk(s.joins, s.chans[ch].c.info[n].select.value, m);
    }
    WiredKept(s, s', ch);
    forall k: nat, n': nat, x: nat | InCase(s', k, n', x)
      ensures x in s'.joins && Linked(s'.joins[x], CaseOf(s', k, n'), s'.chans[k].c.nodes[n'])
    {
      SameCases(s, s', ch, k, n', x);
      NodeStepAt(s, s', ch, n, m, k, n', x);
    }
  }

  lemma NodeStepAt<V>(s: Sys<V>, s': Sys<V>, ch: nat, n: nat, m: Join.Move, k: nat, n': nat, x: nat)
    requires Links(s) && OneChannel(s, s', ch) && Has(s, ch, n) && InCase(s, k, n', x)
    requires QuietBut(s.chans[ch].c, s'.chans[ch].c, {n}) && AtCase(m) == Some(CaseOf(s, ch, n))
    requires s'.joins == NodeMoved(s, s.joins, ch, n, m)
    requires forall x: nat :: InCase(s, ch, n, x) ==>
      Join.Enabled(s.joins[x], m) && Linked(Join.Step(s.joins[x], m), CaseOf(s, ch, n), s'.chans[ch].c.nodes[n])
    ensures x in s'.joins && Linked(s'.joins[x], CaseOf(s, k, n'), s'.chans[k].c.nodes[n'])
  {
    if (k, n') != (ch, n) {
      if InCase(s, ch, n, x) { ElsewhereLinked(s, x, m, ch, n, k, n'); }
      if k == ch { QuietLinked(s'.joins[x], CaseOf(s, k, n'), s.chans[k].c.nodes[n'], s'.chans[k].c.nodes[n']); }
    }
  }

  lemma EmitsOk<V>(s: Sys<V>, ch: nat, n: nat)
    requires Ok(s) && Enabled(s, Emits(ch, n))
    ensures Ok(Step(s, Emits(ch, n)))
  {
    var c, s', m := s.chans[ch].c, Step(s, Emits(ch, n)), Join.Begin(CaseOf(s, ch, n));
    EnteredOk(c, n);
    EnteredQuiet(c, n);
    forall x: nat | InCase(s, ch, n, x)
      ensures Join.Enabled(s.joins[x], m) && Linked(Join.Step(s.joins[x], m), CaseOf(s, ch, n), s'.chans[ch].c.nodes[n])
    {
      BeginLinked(s.joins[x], CaseOf(s, ch, n), c.nodes[n], s'.chans[ch].c.nodes[n]);
    }
    NodeStep(s, s', ch, n, m);
  }

  // ---------- a successful kcas ----------

  lemma BothClaimedOk<V>(s: Sys<V>, ch: nat, a: nat, b: nat)
    requires JoinsOk(s.joins) && Has(s, ch, a) && Has(s, ch, b)
    ensures JoinsOk(BothClaimed(s, ch, a, b)) && BothClaimed(s, ch, a, b).Keys == s.joins.Keys
  {
    var first := NodeMoved(s, s.joins, ch, a, Join.Claim(CaseOf(s, ch, a)));
    if s.chans[ch].c.info[a].select.Some? {
      MovedOk(s.joins, s.chans[ch].c.info[a].select.value, Join.Claim(CaseOf(s, ch, a)));
    }
    if s.chans[ch].c.info[b].select.Some? {
      MovedOk(first, s.chans[ch].c.info[b].select.value, Join.Claim(CaseOf(s, ch, b)));
    }
  }

  /** The two selects, being different, each make the claim of their own case. */
  lemma BothClaimedAt<V>(s: Sys<V>, ch: nat, a: nat, b: nat, x: nat)
    requires Has(s, ch, a) && Has(s, ch, b) && !SameSelect(s.chans[ch].c, a, b) && x in s.joins
    requires InCase(s, ch, a, x) ==> Join.Enabled(s.joins[x], Join.Claim(CaseOf(s, ch, a)))
    requires InCase(s, ch, b, x) ==> Join.Enabled(s.joins[x], Join.Claim(CaseOf(s, ch, b)))
    ensures x in BothClaimed(s, ch, a, b) && BothClaimed(s, ch, a, b)[x] == (
      if InCase(s, ch, a, x) then Join.Step(s.joins[x], Join.Claim(CaseOf(s, ch, a)))
      else if InCase(s, ch, b, x) then Join.Step(s.joins[x], Join.Claim(CaseOf(s, ch, b)))
      else s.joins[x])
  {
  }

  /** A node that takes part can claim its case, and is linked to it afterwards. */
  lemma TakesPartLinked<V>(s: Sys<V>, d: Chan<V>, ch: nat, k: nat, x: nat)
    requires Links(s) && InCase(s, ch, k, x) && k in d.nodes && TakesPart(s.chans[ch].c, d, Flags(s), k)
    ensures var m := Join.Claim(CaseOf(s, ch, k));
      Join.Enabled(s.joins[x], m) && Linked(Join.Step(s.joins[x], m), CaseOf(s, ch, k), d.nodes[k])
  {
    ClaimLinked(s.joins[x], CaseOf(s, ch, k), s.chans[ch].c.nodes[k], d.nodes[k]);
  }

  lemma ExchangeAt<V>(s: Sys<V>, s': Sys<V>, ch: nat, a: nat, b: nat, k: nat, n: nat, x: nat)
    requires Links(s) && OneChannel(s, s', ch) && Has(s, ch, a) && Has(s, ch, b) && InCase(s, k, n, x)
    requires Exchanges(s.chans[ch].c, s'.chans[ch].c, Flags(s), a, b) && s'.joins == BothClaimed(s, ch, a, b)
    ensures x in s'.joins && Linked(s'.joins[x], CaseOf(s, k, n), s'.chans[k].c.nodes[n])
  {
    var c, d := s.chans[ch].c, s'.chans[ch].c;
    assert a in {a, b} && b in {a, b};
    if InCase(s, ch, a, x) { TakesPartLinked(s, d, ch, a, x); }
    if InCase(s, ch, b, x) { TakesPartLinked(s, d, ch, b, x); }
    BothClaimedAt(s, ch, a, b, x);
    if k == ch && (n == a || n == b) {
      TakesPartLinked(s, d, ch, n, x);
    } else {
      if InCase(s, ch, a, x) { ElsewhereLinked(s, x, Join.Claim(CaseOf(s, ch, a)), ch, a, k, n); }
      if InCase(s, ch, b, x) { ElsewhereLinked(s, x, Join.Claim(CaseOf(s, ch, b)), ch, b, k, n); }
      if k == ch { QuietLinked(s'.joins[x], CaseOf(s, k, n), c.nodes[n], d.nodes[n]); }
    }
  }

  lemma ExchangeStep<V>(s: Sys<V>, s': Sys<V>, ch: nat, a: nat, b: nat)
    requires Ok(s) && OneChannel(s, s', ch) && Has(s, ch, a) && Has(s, ch, b) && LocalOk(s'.chans[ch])
    requires Exchanges(s.chans[ch].c, s'.chans[ch].c, Flags(s), a, b) && s'.joins == BothClaimed(s, ch, a, b)
    ensures Ok(s')
  {
    BothClaimedOk(s, ch, a, b);
    WiredKept(s, s', ch);
    forall k: nat, n: nat, x: nat | InCase(s', k, n, x)
      ensures x in s'.joins && Linked(s'.joins[x], CaseOf(s', k, n), s'.chans[k].c.nodes[n])
    {
      SameCases(s, s', ch, k, n, x);
      ExchangeAt(s, s', ch, a, b, k, n, x);
    }
  }

  // ---------- all steps ----------

  lemma AccessesOk<V>(s: Sys<V>, ch: nat)
    requires Ok(s) && Enabled(s, Accesses(ch))
    ensures Ok(Step(s, Accesses(ch)))
  {
    var l, done, s' := s.chans[ch], Flags(s), Step(s, Accesses(ch));
    AccessedOk(l, done);
    AccessQuiet(l, done);
    match Partners(l, done)
    case None => QuietStep(s, s', ch);
    case Some(p) => ExchangeStep(s, s', ch, p.0, p.1);
  }

  lemma CancelsOk<V>(s: Sys<V>, ch: nat, n: nat)
    requires Ok(s) && Enabled(s, Cancels(ch, n))
    ensures Ok(Step(s, Cancels(ch, n)))
  {
    CancelInv(s.chans[ch].c, n);
    CancelQuiet(s.chans[ch].c, n);
    QuietStep(s, Step(s, Cancels(ch, n)), ch);
  }

  lemma ShutsOk<V>(s: Sys<V>, ch: nat)
    requires Ok(s) && Enabled(s, Shuts(ch))
    ensures Ok(Step(s, Shuts(ch)))
  {
    CloseInv(s.chans[ch].c);
    CloseQuiet(s.chans[ch].c);
    QuietStep(s, Step(s, Shuts(ch)), ch);
  }

  lemma SelectsAt<V>(s: Sys<V>, x: nat, m: Join.Move, k: nat, n: nat)
    requires Links(s) && InCase(s, k, n, x) && Join.Enabled(s.joins[x], m) && Foreign(s, x, m)
    ensures Linked(Join.Step(s.joins[x], m), CaseOf(s, k, n), s.chans[k].c.nodes[n])
  {
    if AtCase(m) == None {
      OwnMove(s.joins[x], m, CaseOf(s, k, n), s.chans[k].c.nodes[n]);
    } else {
      OtherCase(s.joins[x], m, CaseOf(s, k, n), s.chans[k].c.nodes[n]);
    }
  }

  lemma SameWiring<V>(s: Sys<V>, joins: map<nat, Join.State>)
    requires Wired(s) && joins.Keys == s.joins.Keys
    ensures Wired(s.(joins := joins))
    ensures forall k: nat, n: nat, y: nat :: InCase(s.(joins := joins), k, n, y) ==>
      InCase(s, k, n, y) && CaseOf(s.(joins := joins), k, n) == CaseOf(s, k, n)
  {
    var s' := s.(joins := joins);
    assert forall k: nat, n: nat, y: nat :: InCase(s', k, n, y) <==> InCase(s, k, n, y);
    assert forall k: nat, n: nat :: CaseOf(s', k, n) == CaseOf(s, k, n);
  }

  /** Selects move and no channel does. */
  lemma JoinsStep<V>(s: Sys<V>, joins: map<nat, Join.State>)
    requires Ok(s) && JoinsOk(joins) && joins.Keys == s.joins.Keys
    requires forall k: nat, n: nat, y: nat :: InCase(s, k, n, y) ==> Linked(joins[y], CaseOf(s, k, n), s.chans[k].c.nodes[n])
    ensures Ok(s.(joins := joins))
  {
    SameWiring(s, joins);
  }

  lemma CallsBackAt<V>(s: Sys<V>, ch: nat, n: nat, k: nat, n': nat, x: nat)
    requires Links(s) && InCase(s, ch, n, x) && InCase(s, k, n', x) && Answer(s.chans[ch].c.nodes[n]).Some?
    requires Join.Enabled(s.joins[x], Callback(s.chans[ch].c.nodes[n], CaseOf(s, ch, n)))
    ensures var m := Callback(s.chans[ch].c.nodes[n], CaseOf(s, ch, n));
      Linked(Join.Step(s.joins[x], m), CaseOf(s, k, n'), s.chans[k].c.nodes[n'])
  {
    var m := Callback(s.chans[ch].c.nodes[n], CaseOf(s, ch, n));
    if (k, n') == (ch, n) {
      CallbackLinked(s.joins[x], CaseOf(s, ch, n), s.chans[ch].c.nodes[n]);
    } else {
      ElsewhereLinked(s, x, m, ch, n, k, n');
    }
  }

  lemma CallsBackLinked<V>(s: Sys<V>, ch: nat, n: nat, x: nat, k: nat, n': nat, y: nat)
    requires Links(s) && InCase(s, ch, n, x) && InCase(s, k, n', y) && Answer(s.chans[ch].c.nodes[n]).Some?
    requires Join.Enabled(s.joins[x], Callback(s.chans[ch].c.nodes[n], CaseOf(s, ch, n)))
    ensures var joins := Moved(s.joins, x, Callback(s.chans[ch].c.nodes[n], CaseOf(s, ch, n)));
      y in joins && Linked(joins[y], CaseOf(s, k, n'), s.chans[k].c.nodes[n'])
  {
    if y == x { CallsBackAt(s, ch, n, k, n', x); }
  }

  lemma CallsBackOk<V>(s: Sys<V>, ch: nat, n: nat)
    requires Ok(s) && Enabled(s, CallsBack(ch, n))
    ensures Ok(Step(s, CallsBack(ch, n)))
  {
    var x: nat :| InCase(s, ch, n, x) && x in s.joins
      && Join.Enabled(s.joins[x], Callback(s.chans[ch].c.nodes[n], CaseOf(s, ch, n)));
    var joins := Moved(s.joins, x, Callback(s.chans[ch].c.nodes[n], CaseOf(s, ch, n)));
    MovedOk(s.joins, x, Callback(s.chans[ch].c.nodes[n], CaseOf(s, ch, n)));
    forall k: nat, n': nat, y: nat | InCase(s, k, n', y) ensures y in joins && Linked(joins[y], CaseOf(s, k, n'), s.chans[k].c.nodes[n']) {
      CallsBackLinked(s, ch, n, x, k, n', y);
    }
    JoinsStep(s, joins);
  }

  lemma SelectsLinked<V>(s: Sys<V>, x: nat, m: Join.Move, k: nat, n: nat, y: nat)
    requires Links(s) && x in s.joins && Join.Enabled(s.joins[x], m) && Foreign(s, x, m) && InCase(s, k, n, y)
    ensures var joins := Moved(s.joins, x, m); y in joins && Linked(joins[y], CaseOf(s, k, n), s.chans[k].c.nodes[n])
  {
    if y == x { SelectsAt(s, x, m, k, n); }
  }

  lemma SelectsOk<V>(s: Sys<V>, x: nat, m: Join.Move)
    requires Ok(s) && Enabled(s, Selects(x, m))
    ensures Ok(Step(s, Selects(x, m)))
  {
    var joins := Moved(s.joins, x, m);
    MovedOk(s.joins, x, m);
    forall k: nat, n: nat, y: nat | InCase(s, k, n, y) ensures y in joins && Linked(joins[y], CaseOf(s, k, n), s.chans[k].c.nodes[n]) {
      SelectsLinked(s, x, m, k, n, y);
    }
    JoinsStep(s, joins);
  }

  /** Every access of every channel and select keeps the whole system consistent. */
  lemma StepOk<V>(s: Sys<V>, a: Act)
    requires Ok(s) && Enabled(s, a)
    ensures Ok(Step(s, a))
  {
    match a
    case Emits(ch, n) => EmitsOk(s, ch, n);
    case Accesses(ch) => AccessesOk(s, ch);
    case Cancels(ch, n) => CancelsOk(s, ch, n);
    case Shuts(ch) => ShutsOk(s, ch);
    case CallsBack(ch, n) => CallsBackOk(s, ch, n);
    case Selects(x, m) => SelectsOk(s, x, m);
  }
}
