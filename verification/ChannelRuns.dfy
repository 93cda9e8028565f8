/** The promises of a channel, over every run of sends, receives, cancellations and closes, with
    the flags of selects being set from outside at any time. */
module ChannelRuns {
  import opened Options
  import opened ChannelSpec
  import opened ChannelProof
  import opened ChannelMatch

  /** emit of a send or receive, try_cancel, close, and other channels setting flags. */
  datatype Op = Arrives(n: nat, env: Env) | TryCancel(n: nat) | Closes | Decided(sels: set<nat>)

  /** A node is emitted once and cancelled at most once. */
  predicate Allowed<V>(c: Chan<V>, op: Op) {
    match op
    case Arrives(n, _) => n in c.info && n in c.nodes && c.nodes[n].stamp == None
    case TryCancel(n) => n in c.info && n in c.nodes && !c.nodes[n].tried
    case Closes => true
    case Decided(_) => true
  }

  function Apply<V>(c: Chan<V>, op: Op): Chan<V>
    requires Typed(c) && Allowed(c, op)
  {
    match op
    case Arrives(n, env) => Emit(c, n, env)
    case TryCancel(n) => Cancel(c, n)
    case Closes => Close(c)
    case Decided(sels) => Flip(c, sels)
  }

  ghost predicate Step<V>(c: Chan<V>, op: Op, d: Chan<V>) {
    Typed(c) && Allowed(c, op) && d == Apply(c, op)
  }

  ghost predicate IsRun<V>(info: map<nat, Info<V>>, ops: seq<Op>, cs: seq<Chan<V>>) {
    && (forall n :: n in info && info[n].side == Sender ==> info[n].value.Some?)
    && |cs| == |ops| + 1 && cs[0] == Opened(info)
    && forall i :: 0 <= i < |ops| ==> Step(cs[i], ops[i], cs[i + 1])
  }

  // ---------- every run keeps the invariant ----------

  lemma OpenedInv<V>(info: map<nat, Info<V>>)
    requires forall n :: n in info && info[n].side == Sender ==> info[n].value.Some?
    ensures Inv(Opened(info), {})
  {
  }

  lemma StepInv<V>(c: Chan<V>, op: Op, d: Chan<V>)
    requires Inv(c, {}) && Step(c, op, d)
    ensures Inv(d, {}) && Grows(c, d)
  {
    ApplyInv(c, op);
    ApplyGrows(c, op);
  }

  lemma ApplyInv<V>(c: Chan<V>, op: Op)
    requires Inv(c, {}) && Allowed(c, op)
    ensures Inv(Apply(c, op), {})
  {
    match op
    case Arrives(n, env) => EmitInv(c, n, env);
    case TryCancel(n) => CancelInv(c, n);
    case Closes => CloseInv(c);
    case Decided(sels) => FlipInv(c, {}, sels);
  }

  lemma ApplyGrows<V>(c: Chan<V>, op: Op)
    requires Inv(c, {}) && Allowed(c, op)
    ensures Grows(c, Apply(c, op))
  {
    match op
    case Arrives(n, env) => EmitGrows(c, n, env);
    case TryCancel(n) => CancelGrows(c, n);
    case Closes => CloseGrows(c);
    case Decided(_) =>
  }

  lemma {:induction false} RunInv<V>(info: map<nat, Info<V>>, ops: seq<Op>, cs: seq<Chan<V>>, i: nat)
    requires IsRun(info, ops, cs) && i < |cs|
    ensures Inv(cs[i], {}) && cs[i].info == info
  {
    if i == 0 {
      OpenedInv(info);
    } else {
      RunInv(info, ops, cs, i - 1);
      StepInv(cs[i - 1], ops[i - 1], cs[i]);
    }
  }

  lemma StepGrows<V>(info: map<nat, Info<V>>, ops: seq<Op>, cs: seq<Chan<V>>, i: nat)
    requires IsRun(info, ops, cs) && i < |ops|
    ensures Grows(cs[i], cs[i + 1])
  {
    RunInv(info, ops, cs, i);
    StepInv(cs[i], ops[i], cs[i + 1]);
  }

  /** Answers, pairings, claims and the closing are final. */
  lemma {:induction false} RunGrows<V>(info: map<nat, Info<V>>, ops: seq<Op>, cs: seq<Chan<V>>, i: nat, j: nat)
    requires IsRun(info, ops, cs) && i <= j < |cs|
    ensures Grows(cs[i], cs[j])
    decreases j
  {
    if i < j {
      RunGrows(info, ops, cs, i, j - 1);
      StepGrows(info, ops, cs, j - 1);
      GrowsTrans(cs[i], cs[j - 1], cs[j]);
    }
  }

  // ---------- exactly one answer ----------

  /** A node is answered at most once, for good, and once it has been both emitted and cancelled
      it has its answer. */
  lemma AnsweredOnce<V>(info: map<nat, Info<V>>, ops: seq<Op>, cs: seq<Chan<V>>, i: nat, j: nat, n: nat)
    requires IsRun(info, ops, cs) && i <= j < |cs| && n in info
    ensures n in cs[i].nodes && n in cs[j].nodes
    ensures var a, b := cs[i].nodes[n], cs[j].nodes[n];
      && |a.out| <= 1 && (a.out != [] ==> b.out == a.out)
      && (a.stamp.Some? && a.tried ==> |a.out| == 1)
      && (a.stamp == None ==> a.out == [])
  {
    RunInv(info, ops, cs, i);
    RunGrows(info, ops, cs, i, j);
    assert AtRest(cs[i].nodes[n]);
  }

  // ---------- values change hands in pairs ----------

  /** s handed its value to r: both were told, and both selects were claimed for this. */
  ghost predicate Exchange<V>(c: Chan<V>, s: nat, r: nat) {
    && Typed(c) && s in c.info && r in c.info && c.info[s].side == Sender && c.info[r].side == Receiver
    && (s, r) in c.pairs
    && c.nodes[s].out == [Sent] && c.nodes[r].out == [Received(c.info[s].value.value)]
    && !SameSelect(c, s, r)
    && forall n :: n in {s, r} && c.info[n].select.Some? ==>
         c.info[n].select.value in c.claims && c.claims[c.info[n].select.value] == Pairing(s, r)
  }

  lemma Recorded<V>(c: Chan<V>, s: nat, r: nat)
    requires Typed(c) && PairsOk(c)
    ensures (s, r) in c.pairs <==> Exchange(c, s, r)
  {
    if (s, r) in c.pairs {
      var i :| 0 <= i < |c.pairs| && c.pairs[i] == (s, r);
      assert PairOk(c, c.pairs[i]);
    }
  }

  /** Every told sender has a receiver and every told receiver a sender. */
  lemma HasPartner<V>(c: Chan<V>, n: nat)
    requires Typed(c) && PairsOk(c) && n in c.nodes && Handed(c.nodes[n])
    ensures exists s, r :: Exchange(c, s, r) && (n == s || n == r)
  {
    assert InPair(c.pairs, n);
    var i :| 0 <= i < |c.pairs| && (n == c.pairs[i].0 || n == c.pairs[i].1);
    assert PairOk(c, c.pairs[i]) && (c.pairs[i].0, c.pairs[i].1) in c.pairs;
    Recorded(c, c.pairs[i].0, c.pairs[i].1);
  }

  lemma OnePartner<V>(c: Chan<V>, s: nat, r: nat, s': nat, r': nat)
    requires Exchange(c, s, r) && Exchange(c, s', r') && PairsOk(c)
    ensures s == s' <==> r == r'
  {
    var i :| 0 <= i < |c.pairs| && c.pairs[i] == (s, r);
    var j :| 0 <= j < |c.pairs| && c.pairs[j] == (s', r');
    assert i < j ==> c.pairs[i].0 != c.pairs[j].0 && c.pairs[i].1 != c.pairs[j].1;
    assert j < i ==> c.pairs[j].0 != c.pairs[i].0 && c.pairs[j].1 != c.pairs[i].1;
  }

  /** Conservation: a send succeeds exactly when one receive got its value, a receive gets a value
      exactly when it is that of one send that succeeded. */
  lemma Conservation<V>(info: map<nat, Info<V>>, ops: seq<Op>, cs: seq<Chan<V>>, i: nat, n: nat)
    requires IsRun(info, ops, cs) && i < |cs| && n in info
    ensures var c := cs[i];
      && n in c.nodes
      && (c.nodes[n].out == [Sent] <==> exists r :: Exchange(c, n, r))
      && ((exists v :: c.nodes[n].out == [Received(v)]) <==> exists s :: Exchange(c, s, n))
      && (forall r, r' :: Exchange(c, n, r) && Exchange(c, n, r') ==> r == r')
      && (forall s, s' :: Exchange(c, s, n) && Exchange(c, s', n) ==> s == s')
  {
    var c := cs[i];
    RunInv(info, ops, cs, i);
    if Handed(c.nodes[n]) {
      HasPartner(c, n);
      var s, r :| Exchange(c, s, r) && (n == s || n == r);
      assert Exchange(c, s, r);
      assert AtRest(c.nodes[n]);
    }
    forall r, r' | Exchange(c, n, r) && Exchange(c, n, r') ensures r == r' { OnePartner(c, n, r, n, r'); }
    forall s, s' | Exchange(c, s, n) && Exchange(c, s', n) ensures s == s' { OnePartner(c, s, n, s', n); }
  }

  // ---------- selects ----------

  /** Over a whole run the claim on a select never changes; a claim by a pairing means that the
      value was handed over, and that it is on the select of one of the two. */
  lemma ClaimFixed<V>(info: map<nat, Info<V>>, ops: seq<Op>, cs: seq<Chan<V>>, i: nat, j: nat, x: nat)
    requires IsRun(info, ops, cs) && i <= j < |cs| && x in cs[i].claims
    ensures x in cs[j].claims && cs[j].claims[x] == cs[i].claims[x]
    ensures match cs[i].claims[x]
      case Pairing(s, r) => Exchange(cs[i], s, r) && (cs[i].info[s].select == Some(x) || cs[i].info[r].select == Some(x))
      case Elsewhere => true
  {
    RunGrows(info, ops, cs, i, j);
    RunInv(info, ops, cs, i);
    if cs[i].claims[x].Pairing? {
      assert ClaimOk(cs[i], x);
      Recorded(cs[i], cs[i].claims[x].s, cs[i].claims[x].r);
    }
  }

  /** A case of a select that was decided by anything else hands nothing over, and gets nothing:
      the two cases of one select can never both take part. */
  lemma OneCaseTakesPart<V>(info: map<nat, Info<V>>, ops: seq<Op>, cs: seq<Chan<V>>, i: nat, n: nat, x: nat)
    requires IsRun(info, ops, cs) && i < |cs| && n in info && info[n].select == Some(x)
    requires n in cs[i].nodes && Handed(cs[i].nodes[n])
    ensures x in cs[i].claims && cs[i].claims[x].Pairing? && (n == cs[i].claims[x].s || n == cs[i].claims[x].r)
    ensures forall m :: m in info && m != n && info[m].select == Some(x) ==> m in cs[i].nodes && !Handed(cs[i].nodes[m])
  {
    var c := cs[i];
    RunInv(info, ops, cs, i);
    HasPartner(c, n);
    var s, r :| Exchange(c, s, r) && (n == s || n == r);
    forall m | m in info && info[m].select == Some(x) && Handed(c.nodes[m]) ensures m == n {
      HasPartner(c, m);
      var s', r' :| Exchange(c, s', r') && (m == s' || m == r');
      assert Exchange(c, s', r');
    }
  }

  // ---------- queues ----------

  predicate Waiting<V>(node: Node<V>) {
    node.queued && node.stamp.Some? && node.out == [] && !node.requestedCancel && !node.tried
  }

  /** In every reachable state a node is in the queue of its side exactly when it says so, queued
      nodes are unanswered and not cancelled, both queues are in the order of arrival, and a free
      sender and a free receiver never both wait. After close no receiver waits. */
  lemma QueueTruth<V>(info: map<nat, Info<V>>, ops: seq<Op>, cs: seq<Chan<V>>, i: nat)
    requires IsRun(info, ops, cs) && i < |cs|
    ensures var c := cs[i];
      && (forall n :: n in info ==> n in c.nodes && (c.nodes[n].queued <==> n in Queue(c, info[n].side)))
      && (forall n :: n in c.sendq + c.recvq ==> n in c.nodes && Waiting(c.nodes[n]))
      && Sorted(c.nodes, c.sendq) && Sorted(c.nodes, c.recvq)
      && (forall s, r :: s in c.sendq && r in c.recvq ==> s in info && r in info && (info[s].select.Some? || info[r].select.Some?))
      && (c.closed ==> c.recvq == [])
  {
    var c := cs[i];
    RunInv(info, ops, cs, i);
    forall n | n in c.sendq + c.recvq ensures n in c.nodes && c.nodes[n].queued {
      assert n in c.sendq || n in c.recvq;
    }
  }
}
