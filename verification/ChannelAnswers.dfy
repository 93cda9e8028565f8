/** What each answer of a channel means: an error that it is closed, null that the node was
    cancelled. */
module ChannelAnswers {
  import opened Options
  import opened ChannelSpec
  import opened ChannelProof
  import opened ChannelMatch
  import opened ChannelRuns
  import opened ChannelOrder

  /** A node that was told of an error or given null, and why. */
  predicate Justified<V>(node: Node<V>, closed: bool) {
    node.out != [] ==> (node.out[0].Failed? ==> closed) && (node.out[0].Nulled? ==> node.tried)
  }

  ghost predicate Explained<V>(c: Chan<V>) {
    forall n :: n in c.nodes ==> Justified(c.nodes[n], c.closed)
  }

  lemma MeetExplained<V>(c: Chan<V>, d: Chan<V>, n: nat, i: nat)
    requires Typed(c) && n in c.info && c.nodes[n].out == [] && Met(c, d, n, i) && Explained(c)
    ensures Explained(d)
  {
    var q := Theirs(c, n);
    forall m | m in d.nodes ensures Justified(d.nodes[m], d.closed) {
      assert Justified(c.nodes[m], c.closed);
      if m in q[..i] { assert PassedOver(c, d, m); }
    }
  }

  /** Refused or not, without a partner to try only node n changes. */
  lemma AnswerExplained<V>(c: Chan<V>, n: nat, env: Env)
    requires Typed(c) && n in c.info && AtRest(c.nodes[n]) && c.nodes[n].stamp == None && Explained(c)
    requires Refused(c, n) || !Meets(c, n)
    ensures Explained(Emit(c, n, env))
  {
    var d := Emit(c, n, env);
    forall m | m in d.nodes && m != n ensures d.nodes[m] == c.nodes[m] { }
    assert Justified(d.nodes[n], d.closed);
  }

  lemma ArrivalExplained<V>(c: Chan<V>, n: nat, env: Env)
    requires Inv(c, {}) && n in c.info && c.nodes[n].stamp == None && Explained(c)
    ensures Explained(Emit(c, n, env))
  {
    assert AtRest(c.nodes[n]);
    if Refused(c, n) || !Meets(c, n) {
      AnswerExplained(c, n, env);
    } else {
      var i := MeetOutcome(c, n, env);
      MeetExplained(c, Emit(c, n, env), n, i);
    }
  }

  /** close answers every waiting receiver with an error, and nobody else. */
  lemma CloseAnswers<V>(c: Chan<V>, n: nat)
    requires Inv(c, {}) && n in c.info && !c.closed
    ensures n in Close(c).nodes
    ensures Close(c).nodes[n].out == if n in c.recvq then [Failed] else c.nodes[n].out
  {
    if n in c.recvq { assert c.nodes[n].queued; }
  }

  /** try_cancel answers null exactly when the node was emitted and is still unanswered. */
  lemma CancelAnswers<V>(c: Chan<V>, n: nat, m: nat)
    requires Inv(c, {}) && n in c.info && m in c.info && !c.nodes[n].tried
    ensures m in Cancel(c, n).nodes
    ensures Cancel(c, n).nodes[m].out ==
      if m == n && c.nodes[n].stamp.Some? && c.nodes[n].out == [] then [Nulled] else c.nodes[m].out
  {
    assert AtRest(c.nodes[n]);
  }

  lemma StepExplained<V>(c: Chan<V>, op: Op, d: Chan<V>)
    requires Inv(c, {}) && Step(c, op, d) && Explained(c)
    ensures Explained(d)
  {
    match op
    case Arrives(n, env) => ArrivalExplained(c, n, env);
    case TryCancel(n) =>
      forall m | m in d.nodes ensures Justified(d.nodes[m], d.closed) { assert Justified(c.nodes[m], c.closed); }
    case Closes =>
      forall m | m in d.nodes ensures Justified(d.nodes[m], d.closed) {
        assert Justified(c.nodes[m], c.closed);
        if m in c.recvq { assert c.nodes[m].queued; }
      }
    case Decided(_) =>
  }

  /** In every run an error means that the channel is closed, and null that the node was cancelled. */
  lemma {:induction false} AnswersExplained<V>(info: map<nat, Info<V>>, ops: seq<Op>, cs: seq<Chan<V>>, i: nat)
    requires IsRun(info, ops, cs) && i < |cs|
    ensures Explained(cs[i])
  {
    if i > 0 {
      AnswersExplained(info, ops, cs, i - 1);
      RunInv(info, ops, cs, i - 1);
      StepExplained(cs[i - 1], ops[i - 1], cs[i]);
    }
  }

  lemma SendAnswers<V>(c: Chan<V>, n: nat, env: Env)
    requires Inv(c, {}) && n in c.info && c.nodes[n].stamp == None && c.info[n].side == Sender
    ensures n in Emit(c, n, env).nodes && (Emit(c, n, env).nodes[n].out == [Failed] <==> c.closed)
  {
    assert AtRest(c.nodes[n]);
    EmitGrows(c, n, env);
    var out := Emit(c, n, env).nodes[n].out;
    if c.closed {
      assert out == [Failed];
    } else {
      if !Refused(c, n) && Meets(c, n) {
        var i := MeetOutcome(c, n, env);
      }
      assert out != [] ==> !out[0].Failed?;
    }
  }

  /** An arriving send fails exactly when the channel is closed. */
  lemma SendFails<V>(info: map<nat, Info<V>>, ops: seq<Op>, cs: seq<Chan<V>>, i: nat, n: nat, env: Env)
    requires IsRun(info, ops, cs) && i < |ops| && ops[i] == Arrives(n, env) && n in info && info[n].side == Sender
    ensures n in cs[i + 1].nodes
    ensures cs[i + 1].nodes[n].out == [Failed] <==> cs[i].closed
  {
    RunInv(info, ops, cs, i);
    assert Step(cs[i], ops[i], cs[i + 1]);
    SendAnswers(cs[i], n, env);
  }
}
