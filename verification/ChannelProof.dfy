/** What every run of sends, receives, cancellations and closes keeps true of a channel. */
module ChannelProof {
  import opened Options
  import opened ChannelSpec

  // ---------- nodes ----------

  /** A node that send or receive is working on: not queued, not told anything yet. */
  predicate InHand<V>(node: Node<V>) {
    node.stamp.Some? && !node.queued && !node.requestedCancel && !node.tried && node.out == []
  }

  /** The states a node can rest in between operations. */
  predicate AtRest<V>(node: Node<V>) {
    && |node.out| <= 1
    && (node.stamp == None ==> node.out == [] && !node.queued && (node.requestedCancel <==> node.tried))
    && (node.queued ==> node.stamp.Some? && node.out == [] && !node.requestedCancel && !node.tried)
    && (node.stamp.Some? && !node.queued && node.out == [] ==> node.requestedCancel && !node.tried)
    && (node.out != [] && node.requestedCancel ==> node.tried)
    && (node.tried ==> node.requestedCancel)
  }

  ghost predicate NodesOk<V>(c: Chan<V>, hand: set<nat>) {
    && Typed(c)
    && (forall n :: n in hand ==> n in c.nodes)
    && (forall n :: n in c.nodes ==> if n in hand then InHand(c.nodes[n]) else AtRest(c.nodes[n]))
    && (forall n :: n in c.nodes && c.nodes[n].stamp.Some? ==> c.nodes[n].stamp.value < c.clock)
  }

  // ---------- queues ----------

  /** In arrival order, so also without repetitions. */
  predicate Sorted<V>(nodes: map<nat, Node<V>>, q: seq<nat>) {
    && (forall i :: 0 <= i < |q| ==> q[i] in nodes && nodes[q[i]].stamp.Some?)
    && (forall i, j :: 0 <= i < j < |q| ==> nodes[q[i]].stamp.value < nodes[q[j]].stamp.value)
  }

  /** The queue of one side holds exactly the nodes of that side that say they are queued. */
  ghost predicate SideOk<V>(c: Chan<V>, side: Side)
    requires Typed(c)
  {
    && Sorted(c.nodes, Queue(c, side))
    && (forall n :: n in c.nodes && c.info[n].side == side ==> (c.nodes[n].queued <==> n in Queue(c, side)))
  }

  ghost predicate QueuesOk<V>(c: Chan<V>)
    requires Typed(c)
  {
    SideOk(c, Sender) && SideOk(c, Receiver) && (c.closed ==> c.recvq == [])
  }

  /** Never both a sender and a receiver waiting that are free of any select. */
  ghost predicate NoFreePair<V>(c: Chan<V>)
    requires Typed(c)
  {
    forall s, r :: s in c.sendq && r in c.recvq ==> c.info[s].select.Some? || c.info[r].select.Some?
  }

  // ---------- pairings ----------

  ghost predicate PairOk<V>(c: Chan<V>, p: (nat, nat))
    requires Typed(c)
  {
    && p.0 in c.info && p.1 in c.info
    && c.info[p.0].side == Sender && c.info[p.1].side == Receiver
    && c.nodes[p.0].out == [Sent]
    && c.nodes[p.1].out == [Received(c.info[p.0].value.value)]
    && !SameSelect(c, p.0, p.1)
    && (forall n :: n in {p.0, p.1} && c.info[n].select.Some? ==>
          c.info[n].select.value in c.claims && c.claims[c.info[n].select.value] == Pairing(p.0, p.1))
  }

  /** The node was told that a value has changed hands. */
  predicate Handed<V>(node: Node<V>) {
    node.out != [] && (node.out[0].Sent? || node.out[0].Received?)
  }

  predicate InPair(pairs: seq<(nat, nat)>, n: nat) {
    exists i :: 0 <= i < |pairs| && (n == pairs[i].0 || n == pairs[i].1)
  }

  /** A claim by a pairing is on the select of one of its two nodes. */
  ghost predicate ClaimOk<V>(c: Chan<V>, x: nat)
    requires x in c.claims && c.claims[x].Pairing?
  {
    var s, r := c.claims[x].s, c.claims[x].r;
    && (s, r) in c.pairs && s in c.info && r in c.info
    && (c.info[s].select == Some(x) || c.info[r].select == Some(x))
  }

  ghost predicate PairsOk<V>(c: Chan<V>)
    requires Typed(c)
  {
    && (forall i :: 0 <= i < |c.pairs| ==> PairOk(c, c.pairs[i]))
    && (forall i, j :: 0 <= i < j < |c.pairs| ==> c.pairs[i].0 != c.pairs[j].0 && c.pairs[i].1 != c.pairs[j].1)
    && (forall n :: n in c.nodes && Handed(c.nodes[n]) ==> InPair(c.pairs, n))
    && (forall x :: x in c.claims && c.claims[x].Pairing? ==> ClaimOk(c, x))
  }

  ghost predicate Inv<V>(c: Chan<V>, hand: set<nat>) {
    NodesOk(c, hand) && QueuesOk(c) && NoFreePair(c) && PairsOk(c)
  }

  // ---------- small steps ----------

  /** Only node n changes, and maybe the queues. */
  ghost predicate OneNode<V>(c: Chan<V>, d: Chan<V>, n: nat) {
    && n in c.nodes && n in d.nodes
    && d.info == c.info && d.nodes == c.nodes[n := d.nodes[n]]
    && d.closed == c.closed && d.claims == c.claims && d.pairs == c.pairs
  }

  lemma NodesKept<V>(c: Chan<V>, d: Chan<V>, n: nat, hand: set<nat>, hand': set<nat>)
    requires NodesOk(c, hand) && OneNode(c, d, n) && Typed(d) && d.clock >= c.clock
    requires hand' - {n} == hand - {n}
    requires if n in hand' then InHand(d.nodes[n]) else AtRest(d.nodes[n])
    requires d.nodes[n].stamp.Some? ==> d.nodes[n].stamp.value < d.clock
    ensures NodesOk(d, hand')
  {
    forall m | m in hand' ensures m in d.nodes { assert m != n ==> m in hand - {n}; }
    forall m | m in d.nodes ensures if m in hand' then InHand(d.nodes[m]) else AtRest(d.nodes[m]) {
      assert m != n ==> (m in hand' <==> m in hand' - {n}) && (m in hand <==> m in hand - {n});
    }
  }

  /** Telling nodes other things, or setting flags from outside, leaves the pairings alone. */
  lemma PairsStay<V>(c: Chan<V>, d: Chan<V>)
    requires Typed(c) && Typed(d) && PairsOk(c) && d.info == c.info && d.pairs == c.pairs
    requires forall n :: n in c.nodes ==> d.nodes[n].out == c.nodes[n].out || (c.nodes[n].out == [] && !Handed(d.nodes[n]))
    requires forall x :: x in c.claims ==> x in d.claims && d.claims[x] == c.claims[x]
    requires forall x :: x in d.claims && x !in c.claims ==> d.claims[x] == Elsewhere
    ensures PairsOk(d)
  {
    forall i | 0 <= i < |d.pairs| ensures PairOk(d, d.pairs[i]) { assert PairOk(c, c.pairs[i]); }
    forall n | n in d.nodes && Handed(d.nodes[n]) ensures InPair(d.pairs, n) { assert Handed(c.nodes[n]); }
    forall x | x in d.claims && d.claims[x].Pairing? ensures ClaimOk(d, x) { assert ClaimOk(c, x); }
  }

  /** A queue stays in order when node n keeps its stamp and its place. */
  lemma SideKept<V>(c: Chan<V>, d: Chan<V>, n: nat, side: Side)
    requires Typed(c) && Typed(d) && SideOk(c, side) && OneNode(c, d, n)
    requires Queue(d, side) == Queue(c, side)
    requires c.info[n].side != side || d.nodes[n].queued == c.nodes[n].queued
    requires c.nodes[n].stamp == None || d.nodes[n].stamp == c.nodes[n].stamp
    ensures SideOk(d, side)
  {
    var q := Queue(c, side);
    forall i | 0 <= i < |q| ensures q[i] in d.nodes && d.nodes[q[i]].stamp == c.nodes[q[i]].stamp {
    }
  }

  /** The queues stay and so does what they depend on in node n. */
  lemma QueuesKept<V>(c: Chan<V>, d: Chan<V>, n: nat)
    requires Typed(c) && Typed(d) && QueuesOk(c) && NoFreePair(c) && OneNode(c, d, n)
    requires d.sendq == c.sendq && d.recvq == c.recvq
    requires d.nodes[n].queued == c.nodes[n].queued && (c.nodes[n].stamp == None || d.nodes[n].stamp == c.nodes[n].stamp)
    ensures QueuesOk(d) && NoFreePair(d)
  {
    SideKept(c, d, n, Sender);
    SideKept(c, d, n, Receiver);
  }

  /** What does not concern the queues, when node n changes and is not paired by it. */
  lemma RestKept<V>(c: Chan<V>, d: Chan<V>, n: nat, hand: set<nat>, hand': set<nat>)
    requires NodesOk(c, hand) && PairsOk(c) && OneNode(c, d, n) && Typed(d) && d.clock >= c.clock
    requires hand' - {n} == hand - {n}
    requires if n in hand' then InHand(d.nodes[n]) else AtRest(d.nodes[n])
    requires d.nodes[n].stamp.Some? ==> d.nodes[n].stamp.value < d.clock
    requires d.nodes[n].out == c.nodes[n].out
      || (c.nodes[n].out == [] && (d.nodes[n].out == [Failed] || d.nodes[n].out == [Nulled]))
    ensures NodesOk(d, hand') && PairsOk(d)
  {
    NodesKept(c, d, n, hand, hand');
    PairsStay(c, d);
  }

  /** Node n, in hand before, is put down without being queued; or it just arrives in hand. */
  lemma PutDown<V>(c: Chan<V>, d: Chan<V>, n: nat, hand: set<nat>, hand': set<nat>)
    requires Inv(c, hand) && OneNode(c, d, n) && d.sendq == c.sendq && d.recvq == c.recvq && d.clock >= c.clock
    requires hand' - {n} == hand - {n}
    requires if n in hand' then InHand(d.nodes[n]) else AtRest(d.nodes[n])
    requires d.nodes[n].stamp.Some? ==> d.nodes[n].stamp.value < d.clock
    requires d.nodes[n].queued == c.nodes[n].queued && (c.nodes[n].stamp == None || d.nodes[n].stamp == c.nodes[n].stamp)
    requires d.nodes[n].out == c.nodes[n].out
      || (c.nodes[n].out == [] && (d.nodes[n].out == [Failed] || d.nodes[n].out == [Nulled]))
    ensures Inv(d, hand')
  {
    RestKept(c, d, n, hand, hand');
    QueuesKept(c, d, n);
  }

  lemma ArriveInv<V>(c: Chan<V>, n: nat)
    requires Inv(c, {}) && n in c.info && c.nodes[n].stamp == None && !c.nodes[n].requestedCancel
    ensures Inv(Arrive(c, n), {n})
  {
    PutDown(c, Arrive(c, n), n, {}, {n});
  }

  lemma FlipInv<V>(c: Chan<V>, hand: set<nat>, sels: set<nat>)
    requires Inv(c, hand)
    ensures Inv(Flip(c, sels), hand)
  {
    PairsStay(c, Flip(c, sels));
  }

  lemma CompleteInv<V>(c: Chan<V>, hand: set<nat>, n: nat, out: Completion<V>)
    requires Inv(c, hand) && n in hand && (out == Failed || out == Nulled)
    ensures Inv(Complete(c, n, out), hand - {n})
  {
    PutDown(c, Complete(c, n, out), n, hand, hand - {n});
  }

  lemma MarkInv<V>(c: Chan<V>, hand: set<nat>, n: nat)
    requires Inv(c, hand) && n in hand
    ensures Inv(Mark(c, n), hand - {n})
  {
    PutDown(c, Mark(c, n), n, hand, hand - {n});
  }

  lemma JoinedQueues<V>(c: Chan<V>, d: Chan<V>, n: nat)
    requires Typed(c) && Typed(d) && QueuesOk(c) && NoFreePair(c) && OneNode(c, d, n)
    requires d.nodes[n].queued && d.nodes[n].stamp == c.nodes[n].stamp
    requires var side := c.info[n].side;
      && (Queue(d, side) == Queue(c, side) + [n] || Queue(d, side) == [n] + Queue(c, side))
      && Queue(d, Other(side)) == Queue(c, Other(side))
      && Sorted(d.nodes, Queue(d, side))
    requires c.closed ==> c.info[n].side == Sender
    requires c.info[n].select.Some? || forall m :: m in Theirs(c, n) ==> c.info[m].select.Some?
    ensures QueuesOk(d) && NoFreePair(d)
  {
    var side := c.info[n].side;
    assert forall m :: m in Queue(d, side) <==> m == n || m in Queue(c, side);
    SideKept(c, d, n, Other(side));
    assert SideOk(d, side);
  }

  /** Node n joins its queue at the back or at the front, whichever keeps the order of arrival. */
  lemma JoinQueue<V>(c: Chan<V>, d: Chan<V>, hand: set<nat>, n: nat)
    requires Inv(c, hand) && n in hand && OneNode(c, d, n) && d.clock == c.clock && Typed(d)
    requires d.nodes[n] == c.nodes[n].(queued := true)
    requires var side := c.info[n].side;
      && (Queue(d, side) == Queue(c, side) + [n] || Queue(d, side) == [n] + Queue(c, side))
      && Queue(d, Other(side)) == Queue(c, Other(side))
      && Sorted(d.nodes, Queue(d, side))
    requires c.closed ==> c.info[n].side == Sender
    requires c.info[n].select.Some? || forall m :: m in Theirs(c, n) ==> c.info[m].select.Some?
    ensures Inv(d, hand - {n})
  {
    RestKept(c, d, n, hand, hand - {n});
    JoinedQueues(c, d, n);
  }

  lemma SortedJoin<V>(nodes: map<nat, Node<V>>, q: seq<nat>, n: nat, node: Node<V>)
    requires Sorted(nodes, q) && n in nodes && nodes[n].stamp.Some? && n !in q && node.stamp == nodes[n].stamp
    ensures (forall k :: k in q ==> nodes[k].stamp.value < nodes[n].stamp.value) ==> Sorted(nodes[n := node], q + [n])
    ensures (forall k :: k in q ==> nodes[n].stamp.value < nodes[k].stamp.value) ==> Sorted(nodes[n := node], [n] + q)
  {
    assert forall i :: 0 <= i < |q| ==> q[i] in q;
  }

  /** Putting a node in its queue changes that node and that queue. */
  ghost predicate OneQueued<V>(c: Chan<V>, d: Chan<V>, n: nat) {
    && Typed(d) && n in c.info && OneNode(c, d, n) && d.clock == c.clock && d.nodes[n] == c.nodes[n].(queued := true)
    && Queue(d, Other(c.info[n].side)) == Queue(c, Other(c.info[n].side))
  }

  lemma PushedBack<V>(c: Chan<V>, n: nat)
    requires Typed(c) && n in c.info
    ensures OneQueued(c, PushBack(c, n), n)
  {
  }

  lemma PushedFront<V>(c: Chan<V>, n: nat)
    requires Typed(c) && n in c.info
    ensures OneQueued(c, PushFront(c, n), n)
  {
  }

  /** The newest arrival goes to the back of its queue. */
  lemma PushBackInv<V>(c: Chan<V>, hand: set<nat>, n: nat)
    requires Inv(c, hand) && n in hand && !c.closed
    requires forall m :: m in Queue(c, c.info[n].side) ==> c.nodes[m].stamp.value < c.nodes[n].stamp.value
    requires c.info[n].select.Some? || forall m :: m in Theirs(c, n) ==> c.info[m].select.Some?
    ensures Inv(PushBack(c, n), hand - {n})
  {
    SortedJoin(c.nodes, Queue(c, c.info[n].side), n, c.nodes[n].(queued := true));
    PushedBack(c, n);
    JoinQueue(c, PushBack(c, n), hand, n);
  }

  /** What was popped can go back to where it was. */
  lemma PushFrontInv<V>(c: Chan<V>, hand: set<nat>, m: nat)
    requires Inv(c, hand) && m in hand && (c.closed ==> c.info[m].side == Sender)
    requires forall k :: k in Queue(c, c.info[m].side) ==> c.nodes[m].stamp.value < c.nodes[k].stamp.value
    requires c.info[m].select.Some? || forall k :: k in Theirs(c, m) ==> c.info[k].select.Some?
    ensures Inv(PushFront(c, m), hand - {m})
  {
    SortedJoin(c.nodes, Queue(c, c.info[m].side), m, c.nodes[m].(queued := true));
    PushedFront(c, m);
    JoinQueue(c, PushFront(c, m), hand, m);
  }

  lemma SortedTail<V>(nodes: map<nat, Node<V>>, q: seq<nat>)
    requires Sorted(nodes, q) && q != []
    ensures Sorted(nodes, q[1..]) && q[0] !in q[1..]
    ensures forall k :: k in q <==> k == q[0] || k in q[1..]
    ensures forall k :: k in q[1..] ==> nodes[q[0]].stamp.value < nodes[k].stamp.value
  {
    var tail := q[1..];
    assert q == [q[0]] + tail;
    assert forall i :: 0 <= i < |tail| ==> tail[i] == q[i + 1];
  }

  lemma SortedSame<V>(nodes: map<nat, Node<V>>, nodes': map<nat, Node<V>>, q: seq<nat>)
    requires Sorted(nodes, q) && forall k :: k in q ==> k in nodes' && nodes'[k].stamp == nodes[k].stamp
    ensures Sorted(nodes', q)
  {
    forall i | 0 <= i < |q| ensures q[i] in nodes' && nodes'[q[i]].stamp == nodes[q[i]].stamp {
      assert q[i] in q;
    }
  }

  lemma PopFrontSide<V>(c: Chan<V>, side: Side)
    requires Typed(c) && SideOk(c, side) && Queue(c, side) != []
    ensures Typed(PopFront(c, side)) && SideOk(PopFront(c, side), side)
  {
    var q, d := Queue(c, side), PopFront(c, side);
    SortedTail(c.nodes, q);
    SortedSame(c.nodes, d.nodes, q[1..]);
  }

  lemma LeftQueues<V>(c: Chan<V>, d: Chan<V>, n: nat)
    requires Typed(c) && Typed(d) && QueuesOk(c) && NoFreePair(c) && OneNode(c, d, n) && d.nodes[n].stamp == c.nodes[n].stamp
    requires SideOk(d, c.info[n].side) && Queue(d, Other(c.info[n].side)) == Queue(c, Other(c.info[n].side))
    requires forall k :: k in Queue(d, c.info[n].side) ==> k in Queue(c, c.info[n].side)
    ensures QueuesOk(d) && NoFreePair(d)
  {
    SideKept(c, d, n, Other(c.info[n].side));
    if c.closed && d.recvq != [] { assert d.recvq[0] in d.recvq; }
  }

  /** Node n leaves its queue. */
  lemma LeaveQueue<V>(c: Chan<V>, d: Chan<V>, n: nat, hand: set<nat>, hand': set<nat>)
    requires Inv(c, hand) && n in c.info && OneNode(c, d, n) && d.clock == c.clock && Typed(d)
    requires hand' - {n} == hand - {n}
    requires if n in hand' then InHand(d.nodes[n]) else AtRest(d.nodes[n])
    requires d.nodes[n].stamp == c.nodes[n].stamp
    requires d.nodes[n].out == c.nodes[n].out || (c.nodes[n].out == [] && d.nodes[n].out == [Nulled])
    requires SideOk(d, c.info[n].side) && Queue(d, Other(c.info[n].side)) == Queue(c, Other(c.info[n].side))
    requires forall k :: k in Queue(d, c.info[n].side) ==> k in Queue(c, c.info[n].side)
    ensures Inv(d, hand')
  {
    RestKept(c, d, n, hand, hand');
    LeftQueues(c, d, n);
  }

  /** The first in a queue leaves it and is in hand; the other nodes and queue stay. */
  lemma PopFrontNode<V>(c: Chan<V>, hand: set<nat>, side: Side)
    requires NodesOk(c, hand) && SideOk(c, side) && Queue(c, side) != []
    ensures var m, d := Queue(c, side)[0], PopFront(c, side);
      && m in c.info && c.info[m].side == side && OneNode(c, d, m) && d.clock == c.clock
      && InHand(d.nodes[m]) && d.nodes[m].stamp == c.nodes[m].stamp && d.nodes[m].out == c.nodes[m].out
      && Queue(d, side) == Queue(c, side)[1..] && Queue(d, Other(side)) == Queue(c, Other(side))
  {
    var m := Queue(c, side)[0];
    assert m in Queue(c, side);
    assert c.nodes[m].queued;
  }

  lemma PopFrontInv<V>(c: Chan<V>, hand: set<nat>, side: Side)
    requires Inv(c, hand) && Queue(c, side) != []
    ensures Inv(PopFront(c, side), hand + {Queue(c, side)[0]})
  {
    var m, d := Queue(c, side)[0], PopFront(c, side);
    PopFrontSide(c, side);
    PopFrontNode(c, hand, side);
    LeaveQueue(c, d, m, hand, hand + {m});
  }

  lemma OutKept<V>(c: Chan<V>, n: nat, out: Completion<V>, hand: set<nat>)
    requires NodesOk(c, hand) && QueuesOk(c) && NoFreePair(c) && n in hand
    ensures var d := Complete(c, n, out);
      NodesOk(d, hand - {n}) && QueuesOk(d) && NoFreePair(d)
  {
    NodesKept(c, Complete(c, n, out), n, hand, hand - {n});
    QueuesKept(c, Complete(c, n, out), n);
  }

  lemma PairRest<V>(c: Chan<V>, s: nat, r: nat)
    requires NodesOk(c, {s, r}) && QueuesOk(c) && NoFreePair(c)
    requires s in c.info && r in c.info && c.info[s].side == Sender && c.info[r].side == Receiver
    ensures var d := Pair(c, s, r);
      NodesOk(d, {}) && QueuesOk(d) && NoFreePair(d)
  {
    var e := Complete(c, r, Received(c.info[s].value.value));
    OutKept(c, r, Received(c.info[s].value.value), {s, r});
    assert {s, r} - {r} == {s};
    OutKept(e, s, Sent, {s});
    RecordsAside(Complete(e, s, Sent), Pair(c, s, r), {});
  }

  /** Nodes and queues do not depend on the claims and the pairings. */
  lemma RecordsAside<V>(c: Chan<V>, d: Chan<V>, hand: set<nat>)
    requires NodesOk(c, hand) && QueuesOk(c) && NoFreePair(c) && d == c.(claims := d.claims, pairs := d.pairs)
    ensures NodesOk(d, hand) && QueuesOk(d) && NoFreePair(d)
  {
  }

  lemma PairPairOk<V>(c: Chan<V>, s: nat, r: nat, p: (nat, nat))
    requires Typed(c) && s in c.info && r in c.info
    requires c.info[s].side == Sender && c.info[r].side == Receiver
    requires c.nodes[s].out == [] && c.nodes[r].out == [] && CanPair(c, s, r)
    requires p == (s, r) || PairOk(c, p)
    ensures PairOk(Pair(c, s, r), p)
  {
  }

  /** Neither node had been paired before, and both are recorded now. */
  lemma PairMembers<V>(c: Chan<V>, s: nat, r: nat)
    requires Typed(c) && PairsOk(c) && s in c.info && r in c.info
    requires c.nodes[s].out == [] && c.nodes[r].out == [] && c.info[s].value.Some?
    ensures forall i :: 0 <= i < |c.pairs| ==> c.pairs[i].0 != s && c.pairs[i].1 != r
    ensures var d := Pair(c, s, r);
      forall n :: n in d.nodes && Handed(d.nodes[n]) ==> InPair(d.pairs, n)
  {
    var d := Pair(c, s, r);
    forall i | 0 <= i < |c.pairs| ensures c.pairs[i].0 != s && c.pairs[i].1 != r { assert PairOk(c, c.pairs[i]); }
    assert d.pairs[|c.pairs|] == (s, r);
    forall n | n in d.nodes && Handed(d.nodes[n]) ensures InPair(d.pairs, n) {
      if n != s && n != r { InPairKept(c.pairs, (s, r), n); }
    }
  }

  /** The claims of the new pairing are its own, and every other one keeps its record. */
  lemma PairClaims<V>(c: Chan<V>, s: nat, r: nat, x: nat)
    requires Typed(c) && PairsOk(c) && s in c.info && r in c.info && c.info[s].value.Some?
    requires x in Pair(c, s, r).claims && Pair(c, s, r).claims[x].Pairing?
    ensures ClaimOk(Pair(c, s, r), x)
  {
    var d := Pair(c, s, r);
    assert d.pairs == c.pairs + [(s, r)] && d.pairs[|c.pairs|] == (s, r);
    if x in c.claims && c.claims[x].Pairing? { assert ClaimOk(c, x); }
  }

  lemma PairEachOk<V>(c: Chan<V>, s: nat, r: nat, i: nat)
    requires Typed(c) && PairsOk(c) && s in c.info && r in c.info
    requires c.info[s].side == Sender && c.info[r].side == Receiver
    requires c.nodes[s].out == [] && c.nodes[r].out == [] && CanPair(c, s, r) && i < |Pair(c, s, r).pairs|
    ensures PairOk(Pair(c, s, r), Pair(c, s, r).pairs[i])
  {
    if i < |c.pairs| { assert PairOk(c, c.pairs[i]); }
    PairPairOk(c, s, r, Pair(c, s, r).pairs[i]);
  }

  lemma PairApart<V>(c: Chan<V>, s: nat, r: nat)
    requires Typed(c) && PairsOk(c) && s in c.info && r in c.info && c.info[s].value.Some?
    requires c.nodes[s].out == [] && c.nodes[r].out == []
    ensures var ps := Pair(c, s, r).pairs;
      forall i, j :: 0 <= i < j < |ps| ==> ps[i].0 != ps[j].0 && ps[i].1 != ps[j].1
  {
    PairMembers(c, s, r);
  }

  lemma PairPairs<V>(c: Chan<V>, s: nat, r: nat)
    requires Typed(c) && PairsOk(c) && s in c.info && r in c.info
    requires c.info[s].side == Sender && c.info[r].side == Receiver
    requires c.nodes[s].out == [] && c.nodes[r].out == [] && CanPair(c, s, r)
    ensures PairsOk(Pair(c, s, r))
  {
    var d := Pair(c, s, r);
    PairMembers(c, s, r);
    PairApart(c, s, r);
    forall i | 0 <= i < |d.pairs| ensures PairOk(d, d.pairs[i]) { PairEachOk(c, s, r, i); }
    forall x | x in d.claims && d.claims[x].Pairing? ensures ClaimOk(d, x) { PairClaims(c, s, r, x); }
  }

  lemma InPairKept(pairs: seq<(nat, nat)>, p: (nat, nat), n: nat)
    requires InPair(pairs, n)
    ensures InPair(pairs + [p], n)
  {
    var i :| 0 <= i < |pairs| && (n == pairs[i].0 || n == pairs[i].1);
    assert (pairs + [p])[i] == pairs[i];
  }

  lemma PairInv<V>(c: Chan<V>, s: nat, r: nat)
    requires Inv(c, {s, r}) && s in c.info && r in c.info && c.info[s].side == Sender && c.info[r].side == Receiver
    requires CanPair(c, s, r)
    ensures Inv(Pair(c, s, r), {})
  {
    assert s in {s, r} && r in {s, r};
    PairRest(c, s, r);
    PairPairs(c, s, r);
  }

  // ---------- send and receive ----------

  /** Node n arrived after everything that waits on its own side. */
  ghost predicate Newest<V>(c: Chan<V>, n: nat)
    requires Typed(c) && n in c.info
  {
    c.nodes[n].stamp.Some? && forall k :: k in Queue(c, c.info[n].side) ==>
      c.nodes[k].stamp.Some? && c.nodes[k].stamp.value < c.nodes[n].stamp.value
  }

  lemma EnqueueInv<V>(c: Chan<V>, n: nat)
    requires Inv(c, {n}) && Newest(c, n)
    requires c.info[n].select.Some? || Theirs(c, n) == []
    ensures Inv(Enqueue(c, n), {})
  {
    assert {n} - {n} == {} && n in {n};
    if c.closed { CompleteInv(c, {n}, n, Failed); } else { PushBackInv(c, {n}, n); }
  }

  /** The part of a round after the pop. */
  lemma SettleInv<V>(c: Chan<V>, n: nat, m: nat, y: set<nat>)
    requires Inv(c, {n, m}) && n in c.info && m in c.info && n != m
    requires c.info[m].side == Other(c.info[n].side) && (c.closed ==> c.info[m].side == Sender)
    requires forall k :: k in Queue(c, c.info[m].side) ==> c.nodes[m].stamp.value < c.nodes[k].stamp.value
    requires c.info[m].select.Some? || forall k :: k in Theirs(c, m) ==> c.info[k].select.Some?
    ensures var (d, round) := Settle(c, n, m, y); Inv(d, if round.Skipped? then {n} else {})
  {
    if CanPair(c, n, m) {
      assert {n, m} == {m, n};
      if c.info[n].side == Sender { PairInv(c, n, m); } else { PairInv(c, m, n); }
    } else {
      var looked := Flip(c, y);
      FlipInv(c, {n, m}, y);
      assert {n, m} - {m} == {n} && {n} - {n} == {};
      if IsDone(looked, m) {
        MarkInv(looked, {n, m}, m);
      } else {
        PushFrontInv(looked, {n, m}, m);
        MarkInv(PushFront(looked, m), {n}, n);
      }
    }
  }

  /** With the first waiting node m popped, both n and m are in hand. */
  lemma PoppedInv<V>(c: Chan<V>, n: nat, x: set<nat>)
    requires Inv(c, {n}) && n in c.info && Theirs(c, n) != []
    ensures Inv(Flip(PopFront(c, Other(c.info[n].side)), x), {n, Theirs(c, n)[0]})
  {
    var theirs, m := Other(c.info[n].side), Theirs(c, n)[0];
    PopFrontInv(c, {n}, theirs);
    assert {n} + {m} == {n, m};
    FlipInv(PopFront(c, theirs), {n, m}, x);
  }

  predicate Before<V>(c: Chan<V>, m: nat, k: nat) {
    && m in c.nodes && k in c.nodes && c.nodes[m].stamp.Some? && c.nodes[k].stamp.Some?
    && c.nodes[m].stamp.value < c.nodes[k].stamp.value
  }

  /** It could go back to the front, and a free one has no free counterpart. */
  lemma PoppedPlace<V>(c: Chan<V>, n: nat, x: set<nat>)
    requires NodesOk(c, {n}) && QueuesOk(c) && NoFreePair(c) && n in c.info && Theirs(c, n) != []
    ensures var p, m := Flip(PopFront(c, Other(c.info[n].side)), x), Theirs(c, n)[0];
      && p.info == c.info && m in p.info && m != n && p.info[m].side == Other(p.info[n].side) && m in p.nodes
      && (p.closed ==> p.info[m].side == Sender)
      && Queue(p, p.info[m].side) == Theirs(c, n)[1..] && Queue(p, p.info[n].side) == Queue(c, c.info[n].side)
      && (forall k :: k in Theirs(c, n)[1..] ==> Before(p, m, k))
      && (p.info[m].select.Some? || forall k :: k in Queue(c, c.info[n].side) ==> k in p.info && p.info[k].select.Some?)
  {
    SortedTail(c.nodes, Theirs(c, n));
    assert Theirs(c, n)[0] in Theirs(c, n);
  }

  lemma TryFirstInv<V>(c: Chan<V>, n: nat, x: set<nat>, y: set<nat>)
    requires Inv(c, {n}) && n in c.info && Theirs(c, n) != []
    ensures var (d, round) := TryFirst(c, n, x, y); Inv(d, if round.Skipped? then {n} else {})
  {
    PoppedInv(c, n, x);
    PoppedPlace(c, n, x);
    SettleInv(Flip(PopFront(c, Other(c.info[n].side)), x), n, Theirs(c, n)[0], y);
  }

  /** A skipped round changes nobody's stamp. */
  lemma SkipsStamps<V>(c: Chan<V>, n: nat, x: set<nat>, y: set<nat>)
    requires Typed(c) && n in c.info && Theirs(c, n) != [] && TryFirst(c, n, x, y).1.Skipped?
    ensures var d := TryFirst(c, n, x, y).0;
      forall k :: k in c.nodes ==> k in d.nodes && d.nodes[k].stamp == c.nodes[k].stamp
  {
  }

  lemma {:induction false} MatchInv<V>(c: Chan<V>, n: nat, env: Env, k: nat)
    requires Inv(c, {n}) && n in c.info && Newest(c, n)
    ensures Inv(Match(c, n, env, k), {})
    decreases |Theirs(c, n)|
  {
    if Theirs(c, n) == [] {
      EnqueueInv(c, n);
    } else {
      var (d, round) := TryFirst(c, n, env(k), env(k + 1));
      TryFirstInv(c, n, env(k), env(k + 1));
      if round.Skipped? {
        Skips(c, n, env(k), env(k + 1));
        SkipsStamps(c, n, env(k), env(k + 1));
        MatchInv(d, n, env, k + 2);
      }
    }
  }

  lemma ArriveNewest<V>(c: Chan<V>, n: nat)
    requires Inv(c, {}) && n in c.info && c.nodes[n].stamp == None
    ensures Newest(Arrive(c, n), n)
  {
    var q := Queue(c, c.info[n].side);
    forall k | k in q ensures k in c.nodes && c.nodes[k].stamp.Some? && k != n {
      assert c.nodes[k].queued;
    }
  }

  /** A send on a closed channel, or an emit after try_cancel, is answered at once. */
  lemma RefuseInv<V>(c: Chan<V>, n: nat, env: Env)
    requires Inv(c, {}) && n in c.info && c.nodes[n].stamp == None && Refused(c, n)
    ensures Inv(Emit(c, n, env), {})
  {
    PutDown(c, Emit(c, n, env), n, {}, {});
  }

  lemma WaitInv<V>(c: Chan<V>, n: nat, env: Env)
    requires Inv(c, {}) && n in c.info && c.nodes[n].stamp == None && !Refused(c, n) && !Meets(c, n)
    ensures Inv(Emit(c, n, env), {})
  {
    ArriveInv(c, n);
    ArriveNewest(c, n);
    EnqueueInv(Arrive(c, n), n);
  }

  lemma MeetInv<V>(c: Chan<V>, n: nat, env: Env)
    requires Inv(c, {}) && n in c.info && c.nodes[n].stamp == None && !Refused(c, n) && Meets(c, n)
    ensures Inv(Emit(c, n, env), {})
  {
    ArriveInv(c, n);
    ArriveNewest(c, n);
    MatchInv(Arrive(c, n), n, env, 0);
  }

  lemma EmitInv<V>(c: Chan<V>, n: nat, env: Env)
    requires Inv(c, {}) && n in c.info && c.nodes[n].stamp == None
    ensures Inv(Emit(c, n, env), {})
  {
    if Refused(c, n) {
      RefuseInv(c, n, env);
    } else if Meets(c, n) {
      MeetInv(c, n, env);
    } else {
      WaitInv(c, n, env);
    }
  }

  // ---------- cancel and close ----------

  lemma {:induction false} WithoutSorted<V>(nodes: map<nat, Node<V>>, q: seq<nat>, n: nat)
    requires Sorted(nodes, q)
    ensures Sorted(nodes, Without(q, n))
    ensures forall k :: k in Without(q, n) <==> k in q && k != n
  {
    if q != [] {
      SortedTail(nodes, q);
      WithoutSorted(nodes, q[1..], n);
      var r := Without(q[1..], n);
      if q[0] != n {
        assert Without(q, n) == [q[0]] + r;
        forall i | 0 <= i < |r| ensures r[i] in nodes && nodes[r[i]].stamp.Some? && nodes[q[0]].stamp.value < nodes[r[i]].stamp.value {
          assert r[i] in r;
        }
      }
    }
  }

  lemma CancelSide<V>(c: Chan<V>, n: nat)
    requires Typed(c) && QueuesOk(c) && n in c.info && c.nodes[n].queued
    ensures Typed(Cancel(c, n)) && SideOk(Cancel(c, n), c.info[n].side)
  {
    var d, side := Cancel(c, n), c.info[n].side;
    WithoutSorted(c.nodes, Queue(c, side), n);
    SortedSame(c.nodes, d.nodes, Queue(d, side));
  }

  lemma CancelNode<V>(c: Chan<V>, n: nat)
    requires NodesOk(c, {}) && n in c.info && c.nodes[n].queued
    ensures var d, side := Cancel(c, n), c.info[n].side;
      && OneNode(c, d, n) && d.clock == c.clock && AtRest(d.nodes[n])
      && d.nodes[n].stamp == c.nodes[n].stamp && c.nodes[n].out == [] && d.nodes[n].out == [Nulled]
      && Queue(d, side) == Without(Queue(c, side), n) && Queue(d, Other(side)) == Queue(c, Other(side))
  {
    assert AtRest(c.nodes[n]);
  }

  lemma CancelQueued<V>(c: Chan<V>, n: nat)
    requires Inv(c, {}) && n in c.info && c.nodes[n].queued
    ensures Inv(Cancel(c, n), {})
  {
    CancelSide(c, n);
    CancelNode(c, n);
    WithoutSorted(c.nodes, Queue(c, c.info[n].side), n);
    LeaveQueue(c, Cancel(c, n), n, {}, {});
  }

  lemma CancelInv<V>(c: Chan<V>, n: nat)
    requires Inv(c, {}) && n in c.info && !c.nodes[n].tried
    ensures Inv(Cancel(c, n), {})
  {
    if c.nodes[n].queued { CancelQueued(c, n); } else { PutDown(c, Cancel(c, n), n, {}, {}); }
  }

  lemma ClosePairs<V>(c: Chan<V>)
    requires Inv(c, {}) && !c.closed
    ensures Typed(Close(c)) && PairsOk(Close(c))
  {
    forall n | n in c.recvq ensures c.nodes[n].out == [] { assert c.nodes[n].queued; }
    PairsStay(c, Close(c));
  }

  lemma CloseInv<V>(c: Chan<V>)
    requires Inv(c, {})
    ensures Inv(Close(c), {})
  {
    if !c.closed {
      var d := Close(c);
      SortedSame(c.nodes, d.nodes, c.sendq);
      forall n | n in c.recvq ensures c.nodes[n].queued { }
      ClosePairs(c);
      assert SideOk(d, Sender) && SideOk(d, Receiver);
    }
  }
}
