/** What the operations of channel_impl do, as functions on the channel's state.

  Each operation is one critical section. The done_ flags of selects are shared with other
  channels and other cases, so they may be set from outside before any access to them: "env"
  says which, access by access. A kcas is one atomic step (module KcasRefinement). */
module ChannelSpec {
  import opened Options

  datatype Side = Sender | Receiver

  function Other(side: Side): Side {
    if side == Sender then Receiver else Sender
  }

  /** What a node's callback is told. */
  datatype Completion<V> = Sent | Received(v: V) | Failed | Nulled

  /** What a send_node or recv_node is constructed with. */
  datatype Info<V> = Info(side: Side, value: Option<V>, select: Option<nat>)

  /** What changes about a node. "stamp" and "tried" record when its emit arrived and whether
      try_cancel was called; "out" records its callback's calls. */
  datatype Node<V> = Node(queued: bool, requestedCancel: bool, stamp: Option<nat>, tried: bool, out: seq<Completion<V>>)

  /** Who set a select's done_ flag: a pairing of this channel, or somebody else. */
  datatype Claim = Pairing(s: nat, r: nat) | Elsewhere

  /** A select is done when it has a claim. "pairs" records the values handed over. */
  datatype Chan<V> = Chan(
    info: map<nat, Info<V>>, nodes: map<nat, Node<V>>, sendq: seq<nat>, recvq: seq<nat>, closed: bool,
    clock: nat, claims: map<nat, Claim>, pairs: seq<(nat, nat)>)

  function Fresh<V>(): Node<V> {
    Node(false, false, None, false, [])
  }

  function Opened<V>(info: map<nat, Info<V>>): Chan<V> {
    Chan(info, map n | n in info :: Fresh(), [], [], false, 0, map[], [])
  }

  /** Sets of selects that become done from outside, one set before each access to a flag. */
  type Env = nat -> set<nat>

  // ---------- small steps ----------

  function Queue<V>(c: Chan<V>, side: Side): seq<nat> {
    if side == Sender then c.sendq else c.recvq
  }

  function SetQueue<V>(c: Chan<V>, side: Side, q: seq<nat>): Chan<V> {
    if side == Sender then c.(sendq := q) else c.(recvq := q)
  }

  function SetNode<V>(c: Chan<V>, n: nat, node: Node<V>): Chan<V> {
    c.(nodes := c.nodes[n := node])
  }

  function Flip<V>(c: Chan<V>, sels: set<nat>): Chan<V> {
    c.(claims := map x | x in c.claims.Keys + sels :: if x in c.claims then c.claims[x] else Elsewhere)
  }

  predicate IsDone<V>(c: Chan<V>, n: nat)
    requires n in c.info
  {
    c.info[n].select.Some? && c.info[n].select.value in c.claims
  }

  predicate SameSelect<V>(c: Chan<V>, m: nat, n: nat)
    requires m in c.info && n in c.info
  {
    c.info[m].select.Some? && c.info[m].select == c.info[n].select
  }

  function Complete<V>(c: Chan<V>, n: nat, out: Completion<V>): Chan<V>
    requires n in c.nodes
  {
    SetNode(c, n, c.nodes[n].(out := c.nodes[n].out + [out]))
  }

  function PushBack<V>(c: Chan<V>, n: nat): Chan<V>
    requires n in c.nodes && n in c.info
  {
    var side := c.info[n].side;
    SetNode(SetQueue(c, side, Queue(c, side) + [n]), n, c.nodes[n].(queued := true))
  }

  function PushFront<V>(c: Chan<V>, n: nat): Chan<V>
    requires n in c.nodes && n in c.info
  {
    var side := c.info[n].side;
    SetNode(SetQueue(c, side, [n] + Queue(c, side)), n, c.nodes[n].(queued := true))
  }

  function PopFront<V>(c: Chan<V>, side: Side): Chan<V>
    requires Queue(c, side) != [] && Queue(c, side)[0] in c.nodes
  {
    var n := Queue(c, side)[0];
    SetNode(SetQueue(c, side, Queue(c, side)[1..]), n, c.nodes[n].(queued := false))
  }

  function Mark<V>(c: Chan<V>, n: nat): Chan<V>
    requires n in c.nodes
  {
    SetNode(c, n, c.nodes[n].(requestedCancel := true))
  }

  /** emit is called: the node's place in the order of arrivals. */
  function Arrive<V>(c: Chan<V>, n: nat): Chan<V>
    requires n in c.nodes
  {
    SetNode(c, n, c.nodes[n].(stamp := Some(c.clock))).(clock := c.clock + 1)
  }

  // ---------- try_fulfill_impl ----------

  /** The kcas on the selects involved succeeds; a select is not paired with itself. */
  predicate CanPair<V>(c: Chan<V>, s: nat, r: nat)
    requires s in c.info && r in c.info
  {
    !SameSelect(c, s, r) && !IsDone(c, s) && !IsDone(c, r)
  }

  function Claimed(claims: map<nat, Claim>, select: Option<nat>, claim: Claim): map<nat, Claim> {
    if select.Some? then claims[select.value := claim] else claims
  }

  /** Both selects are claimed, the receiver gets the sender's value, the sender is told. */
  function Pair<V>(c: Chan<V>, s: nat, r: nat): Chan<V>
    requires s in c.nodes && r in c.nodes && s in c.info && r in c.info && c.info[s].value.Some?
  {
    var claims := Claimed(Claimed(c.claims, c.info[s].select, Pairing(s, r)), c.info[r].select, Pairing(s, r));
    Complete(Complete(c, r, Received(c.info[s].value.value)), s, Sent).(claims := claims, pairs := c.pairs + [(s, r)])
  }

  // ---------- operations ----------

  /** Nodes are described, queued ids are nodes of that side, and senders carry a value. */
  predicate Typed<V>(c: Chan<V>) {
    && c.info.Keys == c.nodes.Keys
    && (forall n :: n in c.sendq ==> n in c.info && c.info[n].side == Sender)
    && (forall n :: n in c.recvq ==> n in c.info && c.info[n].side == Receiver)
    && (forall n :: n in c.info && c.info[n].side == Sender ==> c.info[n].value.Some?)
  }

  /** enqueue_impl: after close a receive that finds no partner fails instead of waiting. */
  function Enqueue<V>(c: Chan<V>, n: nat): Chan<V>
    requires n in c.nodes && n in c.info
  {
    if c.closed then Complete(c, n, Failed) else PushBack(c, n)
  }

  /** How one round of the pop loop ends. */
  datatype Round = Paired | PutBack | Skipped

  function Theirs<V>(c: Chan<V>, n: nat): seq<nat>
    requires n in c.info
  {
    Queue(c, Other(c.info[n].side))
  }

  /** A round that has popped m: pair, or leave m marked, or put m back and leave n marked. */
  function Settle<V>(c: Chan<V>, n: nat, m: nat, y: set<nat>): (Chan<V>, Round)
    requires c.info.Keys == c.nodes.Keys && n in c.info && m in c.info
    requires forall k :: k in c.info && c.info[k].side == Sender ==> c.info[k].value.Some?
    requires c.info[m].side == Other(c.info[n].side)
  {
    if CanPair(c, n, m) then
      ((if c.info[n].side == Sender then Pair(c, n, m) else Pair(c, m, n)), Paired)
    else
      var looked := Flip(c, y);
      if IsDone(looked, m) then (Mark(looked, m), Skipped) else (Mark(PushFront(looked, m), n), PutBack)
  }

  /** One round of the pop loop for incoming node n: pop the other side's first node m and try to
      pair. If that fails and m's select is done, m is left marked for cancellation and the loop
      goes on; otherwise m goes back to the front and n is left marked. Other flags may be set
      before the kcas (x) and before the flag is read again (y). */
  function TryFirst<V>(c: Chan<V>, n: nat, x: set<nat>, y: set<nat>): (Chan<V>, Round)
    requires Typed(c) && n in c.info && Theirs(c, n) != []
  {
    Settle(Flip(PopFront(c, Other(c.info[n].side)), x), n, Theirs(c, n)[0], y)
  }

  lemma Skips<V>(c: Chan<V>, n: nat, x: set<nat>, y: set<nat>)
    requires Typed(c) && n in c.info && Theirs(c, n) != []
    ensures TryFirst(c, n, x, y).1.Skipped? ==>
      var d := TryFirst(c, n, x, y).0;
      && Typed(d) && d.info == c.info && d.closed == c.closed
      && Theirs(d, n) == Theirs(c, n)[1..]
      && Queue(d, c.info[n].side) == Queue(c, c.info[n].side)
  {
  }

  /** The pop loop of send and receive, from the k-th access to a flag on. */
  function Match<V>(c: Chan<V>, n: nat, env: Env, k: nat): Chan<V>
    requires Typed(c) && n in c.info
    decreases |Theirs(c, n)|
  {
    if Theirs(c, n) == [] then Enqueue(c, n)
    else
      var (next, round) := TryFirst(c, n, env(k), env(k + 1));
      Skips(c, n, env(k), env(k + 1));
      if round.Skipped? then Match(next, n, env, k + 2) else next
  }

  /** The node is answered without looking for a partner. */
  predicate Refused<V>(c: Chan<V>, n: nat)
    requires n in c.nodes && n in c.info
  {
    (c.closed && c.info[n].side == Sender) || c.nodes[n].requestedCancel
  }

  /** There is somebody to try; the same-select check looks at the back of the queue only. */
  predicate Meets<V>(c: Chan<V>, n: nat)
    requires n in c.info && forall k :: k in Theirs(c, n) ==> k in c.info
  {
    var q := Theirs(c, n);
    q != [] && !SameSelect(c, n, q[|q| - 1])
  }

  /** send and receive. */
  function Emit<V>(c: Chan<V>, n: nat, env: Env): Chan<V>
    requires Typed(c) && n in c.info
  {
    var a := Arrive(c, n);
    if Refused(c, n) then
      Complete(a, n, if c.closed && c.info[n].side == Sender then Failed else Nulled)
    else if Meets(c, n) then Match(a, n, env, 0)
    else Enqueue(a, n)
  }

  function Without(q: seq<nat>, n: nat): (r: seq<nat>)
    ensures n !in q ==> r == q
  {
    if q == [] then [] else if q[0] == n then q[1..] else [q[0]] + Without(q[1..], n)
  }

  /** un_impl: unsend and unreceive. */
  function Cancel<V>(c: Chan<V>, n: nat): Chan<V>
    requires n in c.nodes && n in c.info
  {
    var side, node := c.info[n].side, c.nodes[n];
    var erased := if node.queued then SetQueue(c, side, Without(Queue(c, side), n)) else c;
    var pending := node.queued || node.requestedCancel;
    SetNode(erased, n, node.(queued := false, requestedCancel := true, tried := true,
                             out := if pending then node.out + [Nulled] else node.out))
  }

  function FailAll<V>(nodes: map<nat, Node<V>>, q: seq<nat>): map<nat, Node<V>> {
    map n | n in nodes :: if n in q then nodes[n].(queued := false, out := nodes[n].out + [Failed]) else nodes[n]
  }

  /** close: the first one fails every waiting receiver, later ones are told that it was closed. */
  function Close<V>(c: Chan<V>): Chan<V> {
    if c.closed then c else c.(closed := true, recvq := [], nodes := FailAll(c.nodes, c.recvq))
  }
}
