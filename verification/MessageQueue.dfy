/** Heap packets, the locked queue between two threads, the receive loop that fills it and
    the loop that drains and frees it. */
module MessageQueue {
  import opened Packets

  /** A packet on the heap. Deleting one twice, or a deleted one's use, is a verification error. */
  class Packet {
    const info: PacketInfo
    var freed: bool

    constructor (info: PacketInfo)
      ensures this.info == info && !freed
    {
      this.info := info;
      freed := false;
    }
  }

  method FreePacketInfo(pckt: Packet)
    requires !pckt.freed
    modifies pckt
    ensures pckt.freed
  {
    pckt.freed := true;
  }

  ghost predicate AllDistinct(ps: seq<Packet>) {
    forall i, j :: 0 <= i < j < |ps| ==> ps[i] != ps[j]
  }

  ghost predicate NoneFreed(ps: seq<Packet>)
    reads ps
  {
    forall i :: 0 <= i < |ps| ==> !ps[i].freed
  }

  function Infos(ps: seq<Packet>): (r: seq<PacketInfo>)
    ensures |r| == |ps| && forall i :: 0 <= i < |ps| ==> r[i] == ps[i].info
  {
    if ps == [] then [] else Infos(ps[..|ps| - 1]) + [ps[|ps| - 1].info]
  }

  class MessageQueue {
    var queue: seq<Packet>

    constructor ()
      ensures queue == []
    {
      queue := [];
    }

    method Push(pckt: Packet)
      modifies this
      ensures queue == old(queue) + [pckt]
    {
      queue := queue + [pckt];
    }

    method Pop() returns (pckt: Packet?)
      modifies this
      ensures old(queue) == [] ==> pckt == null && queue == []
      ensures old(queue) != [] ==> pckt != null && old(queue) == [pckt] + queue
    {
      if |queue| == 0 {
        return null;
      }
      pckt := queue[0];
      queue := queue[1..];
    }

    method Empty() returns (empty: bool)
      ensures empty <==> queue == []
    {
      empty := |queue| == 0;
    }
  }

  /** How many messages precede the first terminate message. */
  function BeforeStop(messages: seq<PacketInfo>): (n: nat)
    ensures n <= |messages|
    ensures forall i :: 0 <= i < n ==> !IsStop(messages[i])
    ensures n < |messages| ==> IsStop(messages[n])
  {
    if messages == [] || IsStop(messages[0]) then 0 else 1 + BeforeStop(messages[1..])
  }

  /** One turn of the receive loop: what the test of `running` sees, and what the receive after it
      returns; nothing when it fails. */
  datatype Turn = Turn(running: bool, received: Option<PacketInfo>)

  /** The messages received before `running` is seen false. */
  function Received(turns: seq<Turn>): seq<PacketInfo> {
    if turns == [] || !turns[0].running then []
    else (if turns[0].received.Some? then [turns[0].received.value] else []) + Received(turns[1..])
  }

  /** Turns while `running` is true contribute what their receives return, in order, a failed receive
      nothing; and the first turn to see it false ends it. */
  lemma {:induction false} ReceivedIs(before: seq<Turn>, turn: Turn, after: seq<Turn>)
    requires forall i :: 0 <= i < |before| ==> before[i].running
    ensures !turn.running ==> Received(before + [turn] + after) == Received(before)
    ensures turn.running && turn.received.None? ==>
      Received(before + [turn] + after) == Received(before) + Received(after)
    ensures turn.running && turn.received.Some? ==>
      Received(before + [turn] + after) == Received(before) + [turn.received.value] + Received(after)
    ensures Received([]) == []
    decreases |before|
  {
    hide Received;
    if before == [] {
      assert before + [turn] + after == [turn] + after;
      ReceivedFirst(turn, after);
    } else {
      var rest := before[1..] + [turn] + after;
      assert before == [before[0]] + before[1..] && before + [turn] + after == [before[0]] + rest;
      ReceivedIs(before[1..], turn, after);
      ReceivedFirst(before[0], rest);
      ReceivedFirst(before[0], before[1..]);
    }
    NothingReceived();
  }

  lemma NothingReceived()
    ensures Received([]) == []
  {}

  lemma ReceivedFirst(turn: Turn, rest: seq<Turn>)
    ensures Received([turn] + rest) ==
      if !turn.running then []
      else if turn.received.None? then Received(rest) else [turn.received.value] + Received(rest)
  {
    assert ([turn] + rest)[1..] == rest;
  }

  lemma ReceivedStep(turns: seq<Turn>, k: nat)
    requires k < |turns| && turns[k].running
    ensures turns[k].received.None? ==> Received(turns[k..]) == Received(turns[k + 1..])
    ensures turns[k].received.Some? ==> Received(turns[k..]) == [turns[k].received.value] + Received(turns[k + 1..])
  {
    assert turns[k..][1..] == turns[k + 1..];
  }

  lemma NothingMore(turns: seq<Turn>, k: nat)
    requires k <= |turns| && (k == |turns| || !turns[k].running)
    ensures Received(turns[k..]) == []
  {}

  lemma NoneDistinct()
    ensures AllDistinct([])
  {}

  lemma {:induction false} DistinctWith(ps: seq<Packet>, p: Packet)
    requires AllDistinct(ps) && p !in ps
    ensures AllDistinct(ps + [p])
  {}

  lemma Drop(messages: seq<PacketInfo>, n: nat, first: PacketInfo, rest: seq<PacketInfo>)
    requires n <= |messages| && messages[n..] == [first] + rest
    ensures n < |messages| && messages[n] == first && messages[n + 1..] == rest
  {
    assert messages[n..][1..] == rest && messages[n..][0] == first;
  }

  /** The receive loop: exactly the messages received before the first terminate message reach the
      queue, in order, each in an object of its own; the terminate message's object is left behind. */
  method RecvPacketInfoThread(turns: seq<Turn>, messageQueue: MessageQueue)
    returns (leaked: Packet?)
    modifies messageQueue
    ensures |messageQueue.queue| == |old(messageQueue.queue)| + BeforeStop(Received(turns))
    ensures old(messageQueue.queue) <= messageQueue.queue
    ensures forall i :: 0 <= i < BeforeStop(Received(turns)) ==>
      var p := messageQueue.queue[|old(messageQueue.queue)| + i];
      fresh(p) && !p.freed && p.info == Received(turns)[i] && p != leaked
    ensures AllDistinct(messageQueue.queue[|old(messageQueue.queue)|..])
    ensures leaked == null <==> BeforeStop(Received(turns)) == |Received(turns)|
    ensures leaked != null ==> fresh(leaked) && !leaked.freed
    ensures leaked != null ==>
      leaked.info.srcIp == leaked.info.dstIp == leaked.info.srcPort == leaked.info.dstPort == 0
    ensures forall i :: |old(messageQueue.queue)| <= i < |messageQueue.queue| ==>
      var m := messageQueue.queue[i].info;
      m.srcIp != 0 || m.dstIp != 0 || m.srcPort != 0 || m.dstPort != 0
  {
    hide Received, AllDistinct;
    assert AllDistinct([]) by { NoneDistinct(); }
    leaked := null;
    ghost var before, added: seq<Packet> := messageQueue.queue, [];
    ghost var messages := Received(turns);
    var k := 0;
    while k < |turns| && turns[k].running
      invariant 0 <= k <= |turns| && |added| <= BeforeStop(messages)
      invariant messages[|added|..] == Received(turns[k..])
      invariant messageQueue.queue == before + added && AllDistinct(added)
      invariant forall i :: 0 <= i < |added| ==> fresh(added[i]) && !added[i].freed && added[i].info == messages[i]
    {
      ReceivedStep(turns, k);
      k := k + 1;
      if turns[k - 1].received.None? {
        continue;
      }
      Drop(messages, |added|, turns[k - 1].received.value, Received(turns[k..]));
      var pckt := new Packet(turns[k - 1].received.value);
      if pckt.info.dstIp == 0 && pckt.info.srcIp == 0 && pckt.info.srcPort == 0 && pckt.info.dstPort == 0 {
        leaked := pckt;
        assert messageQueue.queue[|before|..] == added;
        return;
      }
      DistinctWith(added, pckt);
      messageQueue.Push(pckt);
      added := added + [pckt];
    }
    NothingMore(turns, k);
    assert messageQueue.queue[|before|..] == added;
  }

  /** The drain loop frees every queued packet, once, and nothing else. */
  method CleanMessageQueue(messageQueue: MessageQueue)
    requires AllDistinct(messageQueue.queue) && NoneFreed(messageQueue.queue)
    modifies messageQueue, messageQueue.queue
    ensures messageQueue.queue == []
    ensures forall i :: 0 <= i < |old(messageQueue.queue)| ==> old(messageQueue.queue)[i].freed
  {
    ghost var all := messageQueue.queue;
    ghost var k := 0;
    var empty := messageQueue.Empty();
    while !empty
      invariant 0 <= k <= |all| && messageQueue.queue == all[k..]
      invariant forall i :: 0 <= i < |all| ==> (all[i].freed <==> i < k)
      invariant empty <==> messageQueue.queue == []
      decreases |messageQueue.queue|
    {
      var pckt := messageQueue.Pop();
      if pckt != null {
        assert all[k..][0] == pckt && all[k..][1..] == messageQueue.queue;
        assert all[k] == pckt && all[k + 1..] == messageQueue.queue;
        FreePacketInfo(pckt);
        k := k + 1;
      }
      empty := messageQueue.Empty();
    }
  }
}
