/** channel_impl as an object: its methods change the queues, the nodes and the flags in place,
    and each is proved against the operation of ChannelSpec. */
module ChannelImpl {
  import opened Options
  import opened Counting
  import opened ChannelSpec

  class Channel<V> {
    const info: map<nat, Info<V>>
    var nodes: map<nat, Node<V>>
    var sendq: seq<nat>
    var recvq: seq<nat>
    var isClosed: bool
    // records of arrivals, of who set which done_ flag, and of the values handed over
    var clock: nat
    var claims: map<nat, Claim>
    var pairs: seq<(nat, nat)>

    function State(): Chan<V>
      reads this
    {
      Chan(info, nodes, sendq, recvq, isClosed, clock, claims, pairs)
    }

    constructor (info: map<nat, Info<V>>)
      ensures State() == Opened(info)
    {
      this.info := info;
      nodes := map n | n in info :: Fresh();
      sendq, recvq, isClosed := [], [], false;
      clock, claims, pairs := 0, map[], [];
    }

    /** Other cases and other channels set done_ flags. */
    method Interfere(sels: set<nat>)
      modifies this`claims
      ensures State() == Flip(old(State()), sels)
    {
      claims := map x | x in claims.Keys + sels :: if x in claims then claims[x] else Elsewhere;
    }

    method Tell(n: nat, out: Completion<V>)
      requires n in nodes
      modifies this`nodes
      ensures State() == Complete(old(State()), n, out)
    {
      nodes := nodes[n := nodes[n].(out := nodes[n].out + [out])];
    }

    method Stamp(n: nat)
      requires n in nodes
      modifies this`nodes, this`clock
      ensures State() == Arrive(old(State()), n)
    {
      nodes, clock := nodes[n := nodes[n].(stamp := Some(clock))], clock + 1;
    }

    method Claim(n: nat, claim: ChannelSpec.Claim)
      requires n in info && info[n].select.Some?
      modifies this`claims
      ensures claims == old(claims)[info[n].select.value := claim]
    {
      claims := claims[info[n].select.value := claim];
    }

    /** Hands the value over if the selects involved, two, one or none, can be claimed. */
    method TryFulfill(s: nat, r: nat, sels: set<nat>) returns (success: bool)
      requires info.Keys == nodes.Keys && s in info && r in info && info[s].value.Some?
      modifies this
      ensures var c := Flip(old(State()), sels);
        && success == CanPair(c, s, r)
        && State() == if success then Pair(c, s, r) else c
    {
      Interfere(sels);
      var sendSelect, recvSelect := info[s].select, info[r].select;
      if sendSelect.Some? && recvSelect.Some? {
        success := sendSelect != recvSelect && sendSelect.value !in claims && recvSelect.value !in claims;
        if success {
          Claim(s, Pairing(s, r));
          Claim(r, Pairing(s, r));
        }
      } else if sendSelect.Some? {
        success := sendSelect.value !in claims;
        if success { Claim(s, Pairing(s, r)); }
      } else if recvSelect.Some? {
        success := recvSelect.value !in claims;
        if success { Claim(r, Pairing(s, r)); }
      } else {
        success := true;
      }
      if success {
        Tell(r, Received(info[s].value.value));
        Tell(s, Sent);
        pairs := pairs + [(s, r)];
      }
    }

    method EnqueueSender(n: nat)
      requires n in nodes && n in info && info[n].side == Sender
      modifies this
      ensures State() == PushBack(old(State()), n)
    {
      nodes, sendq := nodes[n := nodes[n].(queued := true)], sendq + [n];
    }

    /** One round of the pop loop for an incoming sender. */
    method TryFirstReceiver(n: nat, x: set<nat>, y: set<nat>) returns (round: Round)
      requires Typed(State()) && n in info && info[n].side == Other(Receiver) && recvq != []
      modifies this
      ensures (State(), round) == TryFirst(old(State()), n, x, y)
    {
      var m := recvq[0];
      nodes, recvq := nodes[m := nodes[m].(queued := false)], recvq[1..];
      var success := TryFulfill(n, m, x);
      if success {
        return Paired;
      }
      Interfere(y);
      if info[m].select.Some? && info[m].select.value in claims {
        nodes := nodes[m := nodes[m].(requestedCancel := true)];
        return Skipped;
      } else {
        nodes, recvq := nodes[m := nodes[m].(queued := true)], [m] + recvq;
        nodes := nodes[n := nodes[n].(requestedCancel := true)];
        return PutBack;
      }
    }

    /** The pop loop of send. */
    method MatchReceivers(n: nat, env: Env)
      requires Typed(State()) && n in info && info[n].side == Sender && !isClosed
      modifies this
      ensures State() == Match(old(State()), n, env, 0)
    {
      var k := 0;
      ghost var result := Match(State(), n, env, k);
      while recvq != []
        invariant Typed(State()) && n in info && info[n].side == Sender && !isClosed
        invariant result == Match(State(), n, env, k)
        decreases |recvq|
      {
        ghost var before := State();
        var round := TryFirstReceiver(n, env(k), env(k + 1));
        Skips(before, n, env(k), env(k + 1));
        if !round.Skipped? {
          return;
        }
        k := k + 2;
      }
      EnqueueSender(n);
    }

    method Send(n: nat, env: Env)
      requires Typed(State()) && n in info && info[n].side == Sender
      modifies this
      ensures State() == Emit(old(State()), n, env)
    {
      Stamp(n);
      if isClosed {
        Tell(n, Failed);
        return;
      }
      if nodes[n].requestedCancel {
        Tell(n, Nulled);
        return;
      }
      if recvq == [] || SameSelect(State(), n, recvq[|recvq| - 1]) {
        EnqueueSender(n);
        return;
      }
      MatchReceivers(n, env);
    }

    method EnqueueReceiver(n: nat)
      requires n in nodes && n in info && info[n].side == Receiver
      modifies this
      ensures State() == Enqueue(old(State()), n)
    {
      if isClosed {
        Tell(n, Failed);
      } else {
        nodes, recvq := nodes[n := nodes[n].(queued := true)], recvq + [n];
      }
    }

    /** One round of the pop loop for an incoming receiver. */
    method TryFirstSender(n: nat, x: set<nat>, y: set<nat>) returns (round: Round)
      requires Typed(State()) && n in info && info[n].side == Other(Sender) && sendq != []
      modifies this
      ensures (State(), round) == TryFirst(old(State()), n, x, y)
    {
      var m := sendq[0];
      nodes, sendq := nodes[m := nodes[m].(queued := false)], sendq[1..];
      var success := TryFulfill(m, n, x);
      if success {
        return Paired;
      }
      Interfere(y);
      if info[m].select.Some? && info[m].select.value in claims {
        nodes := nodes[m := nodes[m].(requestedCancel := true)];
        return Skipped;
      } else {
        nodes, sendq := nodes[m := nodes[m].(queued := true)], [m] + sendq;
        nodes := nodes[n := nodes[n].(requestedCancel := true)];
        return PutBack;
      }
    }

    /** The pop loop of receive. */
    method MatchSenders(n: nat, env: Env)
      requires Typed(State()) && n in info && info[n].side == Receiver
      modifies this
      ensures State() == Match(old(State()), n, env, 0)
    {
      var k := 0;
      ghost var result := Match(State(), n, env, k);
      while sendq != []
        invariant Typed(State()) && n in info && info[n].side == Receiver
        invariant result == Match(State(), n, env, k)
        decreases |sendq|
      {
        ghost var before := State();
        var round := TryFirstSender(n, env(k), env(k + 1));
        Skips(before, n, env(k), env(k + 1));
        if !round.Skipped? {
          return;
        }
        k := k + 2;
      }
      EnqueueReceiver(n);
    }

    method Receive(n: nat, env: Env)
      requires Typed(State()) && n in info && info[n].side == Receiver
      modifies this
      ensures State() == Emit(old(State()), n, env)
    {
      Stamp(n);
      ghost var arrived := State();
      assert arrived == Arrive(old(State()), n);
      if nodes[n].requestedCancel {
        Tell(n, Nulled);
        return;
      }
      if sendq == [] || SameSelect(State(), n, sendq[|sendq| - 1]) {
        EnqueueReceiver(n);
        return;
      }
      MatchSenders(n, env);
      assert State() == Match(arrived, n, env, 0);
    }

    /** unsend and unreceive. */
    method Un(n: nat)
      requires n in nodes && n in info
      modifies this
      ensures State() == Cancel(old(State()), n)
    {
      if nodes[n].queued {
        if info[n].side == Sender {
          sendq := Without(sendq, n);
        } else {
          recvq := Without(recvq, n);
        }
        nodes := nodes[n := nodes[n].(queued := false, requestedCancel := true)];
      }
      var pending := nodes[n].requestedCancel;
      nodes := nodes[n := nodes[n].(requestedCancel := true, tried := true)];
      if pending {
        Tell(n, Nulled);
      }
    }

    /** Answers whether this call is the one that closed the channel. */
    method CloseChannel() returns (closedNow: bool)
      requires Typed(State())
      requires NoRepeats(recvq)
      modifies this
      ensures isClosed && closedNow == !old(isClosed)
      ensures State() == Close(old(State()))
    {
      if isClosed {
        return false;
      }
      isClosed := true;
      var pending := recvq;
      recvq := [];
      ghost var before := nodes;
      var i := 0;
      while i < |pending|
        invariant i <= |pending|
        invariant nodes == FailAll(before, pending[..i])
        modifies this`nodes
      {
        var n := pending[i];
        assert n !in pending[..i];
        assert pending[..i + 1] == pending[..i] + [n];
        assert n in pending;
        nodes := nodes[n := nodes[n].(queued := false, out := nodes[n].out + [Failed])];
        i := i + 1;
      }
      assert pending[..i] == pending;
      assert nodes == FailAll(before, pending);
      return true;
    }
  }
}
