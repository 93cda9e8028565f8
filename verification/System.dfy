/** Any number of channels and selects together, one access at a time. A node of a channel can be
    a case of a select; the kcas of a channel and the select's own check_done work on the same
    done_ flags, and what a channel tells a case's callback arrives at the select later. */
module System {
  import opened Options
  import opened ChannelSpec
  import opened ChannelProof
  import opened ChannelSteps
  import ChannelRuns
  import Join

  /** What a channel has done so far, as operations of ChannelRuns; the code has no such record. */
  datatype Trace<V> = Trace(ops: seq<ChannelRuns.Op>, cs: seq<Chan<V>>)

  /** "wire" says which case of its select a channel's node is. */
  datatype Sys<V> = Sys(
    chans: seq<Local<V>>, traces: seq<Trace<V>>, joins: map<nat, Join.State>, wire: map<(nat, nat), nat>)

  datatype Act =
    | Emits(ch: nat, n: nat)      // send or receive is called
    | Accesses(ch: nat)           // the next access to a flag inside it
    | Cancels(ch: nat, n: nat)    // try_cancel of one node
    | Shuts(ch: nat)              // close
    | CallsBack(ch: nat, n: nat)  // the callback of a select's case is told what was decided
    | Selects(x: nat, m: Join.Move) // anything else that select x does

  // ---------- steps ----------

  predicate Has<V>(s: Sys<V>, ch: nat, n: nat) {
    ch < |s.chans| && n in s.chans[ch].c.info && n in s.chans[ch].c.nodes
  }

  predicate InCase<V>(s: Sys<V>, ch: nat, n: nat, x: nat) {
    Has(s, ch, n) && s.chans[ch].c.info[n].select == Some(x)
  }

  function CaseOf<V>(s: Sys<V>, ch: nat, n: nat): nat {
    if (ch, n) in s.wire then s.wire[(ch, n)] else 0
  }

  function Flags<V>(s: Sys<V>): set<nat> {
    set x | x in s.joins && s.joins[x].done
  }

  /** What a node's callback was told, as the outcome of its case. */
  function Answer<V>(node: Node<V>): Option<Join.Outcome> {
    if node.out == [] then None
    else match node.out[0]
      case Sent => Some(Join.Value)
      case Received(_) => Some(Join.Value)
      case Failed => Some(Join.Error)
      case Nulled => Some(Join.Null)
  }

  /** set_value_skip_done after a claim, else set_error or set_null. */
  function Callback<V>(node: Node<V>, i: nat): Join.Move {
    match Answer(node)
    case Some(o) => if o == Join.Value then Join.ArriveClaimed(i) else Join.Arrive(i, o)
    case None => Join.ArriveClaimed(i)
  }

  function Moved(joins: map<nat, Join.State>, x: nat, m: Join.Move): map<nat, Join.State> {
    if x in joins && Join.Enabled(joins[x], m) then joins[x := Join.Step(joins[x], m)] else joins
  }

  /** The select of a node, if it has one, makes move m. */
  function NodeMoved<V>(s: Sys<V>, joins: map<nat, Join.State>, ch: nat, n: nat, m: Join.Move): map<nat, Join.State>
    requires Has(s, ch, n)
  {
    match s.chans[ch].c.info[n].select
    case Some(x) => Moved(joins, x, m)
    case None => joins
  }

  /** A successful kcas of channel ch has claimed the selects of both nodes. */
  function BothClaimed<V>(s: Sys<V>, ch: nat, sender: nat, receiver: nat): map<nat, Join.State>
    requires Has(s, ch, sender) && Has(s, ch, receiver)
  {
    NodeMoved(s, NodeMoved(s, s.joins, ch, sender, Join.Claim(CaseOf(s, ch, sender))),
              ch, receiver, Join.Claim(CaseOf(s, ch, receiver)))
  }

  /** The next access is a kcas that succeeds, for these two. */
  function Partners<V>(l: Local<V>, done: set<nat>): Option<(nat, nat)>
    requires Ready(l)
  {
    var d := Accessed(l, done).c;
    if |d.pairs| > |l.c.pairs| then Some(d.pairs[|l.c.pairs|]) else None
  }

  function Extended<V>(t: Trace<V>, op: ChannelRuns.Op, c: Chan<V>): Trace<V> {
    Trace(t.ops + [op], t.cs + [c])
  }

  function Turned<V>(s: Sys<V>, ch: nat, l: Local<V>, t: Trace<V>): Sys<V>
    requires ch < |s.chans| == |s.traces|
  {
    s.(chans := s.chans[ch := l], traces := s.traces[ch := t])
  }

  /** A select of a system only makes moves of its own, or for cases that no channel serves. */
  ghost predicate Foreign<V>(s: Sys<V>, x: nat, m: Join.Move) {
    match m
    case EndEmit => true
    case CaseStep(_) => true
    case RunTask => true
    case Begin(i) => forall ch: nat, n: nat :: InCase(s, ch, n, x) ==> CaseOf(s, ch, n) != i
    case Arrive(i, _) => forall ch: nat, n: nat :: InCase(s, ch, n, x) ==> CaseOf(s, ch, n) != i
    case Claim(_) => false
    case ArriveClaimed(_) => false
  }

  ghost predicate Enabled<V>(s: Sys<V>, a: Act) {
    |s.traces| == |s.chans| && match a
    case Emits(ch, n) =>
      Has(s, ch, n) && var l := s.chans[ch];
      && l.phase.Idle? && Typed(l.c) && l.c.nodes[n].stamp == None
      && (forall x: nat :: InCase(s, ch, n, x) ==> x in s.joins && Join.Enabled(s.joins[x], Join.Begin(CaseOf(s, ch, n))))
    case Accesses(ch) => ch < |s.chans| && Ready(s.chans[ch]) && !s.chans[ch].phase.Idle?
    case Cancels(ch, n) =>
      Has(s, ch, n) && var l := s.chans[ch];
      && l.phase.Idle? && Typed(l.c) && !l.c.nodes[n].tried
      && (forall x: nat :: InCase(s, ch, n, x) ==> x in s.joins && CaseOf(s, ch, n) in s.joins[x].cancelled)
    case Shuts(ch) => ch < |s.chans| && s.chans[ch].phase.Idle? && Typed(s.chans[ch].c)
    case CallsBack(ch, n) =>
      && Has(s, ch, n) && Answer(s.chans[ch].c.nodes[n]).Some?
      && exists x: nat :: InCase(s, ch, n, x) && x in s.joins
           && Join.Enabled(s.joins[x], Callback(s.chans[ch].c.nodes[n], CaseOf(s, ch, n)))
    case Selects(x, m) => x in s.joins && Join.Enabled(s.joins[x], m) && Foreign(s, x, m)
  }

  ghost function Step<V>(s: Sys<V>, a: Act): Sys<V>
    requires Enabled(s, a)
  {
    match a
    case Emits(ch, n) =>
      var l := Entered(s.chans[ch].c, n);
      var t := if l.phase.Idle? then Extended(s.traces[ch], ChannelRuns.Arrives(n, EnvOf([])), l.c) else s.traces[ch];
      Turned(s, ch, l, t).(joins := NodeMoved(s, s.joins, ch, n, Join.Begin(CaseOf(s, ch, n))))
    case Accesses(ch) =>
      var l, l' := s.chans[ch], Accessed(s.chans[ch], Flags(s));
      var t := if l'.phase.Idle? then Extended(s.traces[ch], ChannelRuns.Arrives(l.phase.n, EnvOf(l'.seen)), l'.c)
               else s.traces[ch];
      var p := Partners(l, Flags(s));
      Turned(s, ch, l', t).(joins :=
        if p.Some? && Has(s, ch, p.value.0) && Has(s, ch, p.value.1) then BothClaimed(s, ch, p.value.0, p.value.1) else s.joins)
    case Cancels(ch, n) =>
      var c := Cancel(s.chans[ch].c, n);
      Turned(s, ch, s.chans[ch].(c := c), Extended(s.traces[ch], ChannelRuns.TryCancel(n), c))
    case Shuts(ch) =>
      var c := Close(s.chans[ch].c);
      Turned(s, ch, s.chans[ch].(c := c), Extended(s.traces[ch], ChannelRuns.Closes, c))
    case CallsBack(ch, n) =>
      s.(joins := NodeMoved(s, s.joins, ch, n, Callback(s.chans[ch].c.nodes[n], CaseOf(s, ch, n))))
    case Selects(x, m) => s.(joins := Moved(s.joins, x, m))
  }

  // ---------- the invariant ----------

  /** What case i of select j is, seen from its node. */
  ghost predicate Linked<V>(j: Join.State, i: nat, node: Node<V>) {
    && i < |j.cases| && (i in j.started <==> node.stamp.Some?)
    && (j.cases[i].Waiting? || Join.Out(j.cases[i]) == Answer(node))
    && (Answer(node) == Some(Join.Value) ==> j.winner == Some(i) && !j.cases[i].Waiting?)
  }

  /** Different nodes of one select are different cases of it. */
  ghost predicate Wired<V>(s: Sys<V>) {
    && (forall ch: nat, n: nat, x: nat :: InCase(s, ch, n, x) ==> x in s.joins)
    && (forall ch: nat, n: nat, ch': nat, n': nat, x: nat :: InCase(s, ch, n, x) && InCase(s, ch', n', x) && CaseOf(s, ch, n) == CaseOf(s, ch', n') ==>
          ch == ch' && n == n')
  }

  ghost predicate AllLinked<V>(s: Sys<V>) {
    forall ch: nat, n: nat, x: nat :: InCase(s, ch, n, x) ==>
      x in s.joins && Linked(s.joins[x], CaseOf(s, ch, n), s.chans[ch].c.nodes[n])
  }

  ghost predicate JoinsOk(joins: map<nat, Join.State>) {
    forall x :: x in joins ==> Join.Inv(joins[x]) && joins[x].kind == Join.Select
  }

  /** A channel follows the operations recorded for it, the last of which may be underway. */
  ghost predicate TraceOk<V>(l: Local<V>, t: Trace<V>) {
    && ChannelRuns.IsRun(l.c.info, t.ops, t.cs)
    && var last := t.cs[|t.ops|];
       if l.phase.Idle? then l.c == last
       else last.info == l.c.info && Inv(last, {}) && l.phase.n in last.info && last.nodes[l.phase.n].stamp == None
            && Underway(last, l.phase.n, l)
  }

  ghost predicate Links<V>(s: Sys<V>) {
    Wired(s) && JoinsOk(s.joins) && AllLinked(s)
  }

  ghost predicate Ok<V>(s: Sys<V>) {
    && |s.traces| == |s.chans| && Links(s)
    && (forall ch :: 0 <= ch < |s.chans| ==> LocalOk(s.chans[ch]))
  }
}
