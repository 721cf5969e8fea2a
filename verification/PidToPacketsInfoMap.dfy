/** The hunter's index of heap packets, and the main loop over it. */
module PidToPacketsInfoMap {
  import opened Packets
  import opened MessageQueue
  import opened AnswerFold

  method ComparePacketInfo(a: Packet, b: Packet) returns (same: bool)
    requires !a.freed && !b.freed
    ensures same <==> FlowOf(a.info) == FlowOf(b.info)
    ensures same <==> b.info == a.info.(payloadSize := b.info.payloadSize)
  {
    same := a.info.srcIp == b.info.srcIp && a.info.dstIp == b.info.dstIp &&
      a.info.srcPort == b.info.srcPort && a.info.dstPort == b.info.dstPort &&
      a.info.proto == b.info.proto;
  }

  type PacketMap = map<int, seq<Packet>>

  /** The stored values. */
  ghost function ViewOf(m: PacketMap): (ix: Index)
    ensures ix.Keys == m.Keys
    ensures forall pid :: pid in m ==> ix[pid] == Infos(m[pid])
  {
    map pid | pid in m :: Infos(m[pid])
  }

  /** The heap packets pointed to. */
  ghost function ObjectsOf(m: PacketMap): set<Packet> {
    set pid, i | pid in m && 0 <= i < |m[pid]| :: m[pid][i]
  }

  /** No packet is pointed to from two places. */
  ghost predicate Unshared(m: PacketMap) {
    forall p, i, q, j ::
      p in m && 0 <= i < |m[p]| && q in m && 0 <= j < |m[q]| && m[p][i] == m[q][j]
      ==> p == q && i == j
  }

  function Appended(m: PacketMap, pid: int, p: Packet): PacketMap {
    if pid == UNKNOWN_PID then m else m[pid := (if pid in m then m[pid] else []) + [p]]
  }

  lemma InfosAppend(ps: seq<Packet>, p: Packet)
    ensures Infos(ps + [p]) == Infos(ps) + [p.info]
  {
    assert (ps + [p])[..|ps|] == ps;
  }

  lemma AppendedView(m: PacketMap, pid: int, p: Packet)
    ensures ViewOf(Appended(m, pid, p)) == Insert(ViewOf(m), pid, p.info)
  {
    if pid != UNKNOWN_PID {
      var before := if pid in m then m[pid] else [];
      InfosAppend(before, p);
      UpdatedView(m, pid, before + [p]);
      assert pid !in m ==> Infos(before) + [p.info] == [p.info];
    }
  }

  lemma UpdatedView(m: PacketMap, pid: int, ps: seq<Packet>)
    ensures ViewOf(m[pid := ps]) == ViewOf(m)[pid := Infos(ps)]
  {
    var a, b := ViewOf(m[pid := ps]), ViewOf(m)[pid := Infos(ps)];
    assert a.Keys == b.Keys;
    assert forall q :: q in a ==> a[q] == b[q];
  }

  lemma AppendedObjects(m: PacketMap, pid: int, p: Packet)
    requires pid != UNKNOWN_PID
    ensures ObjectsOf(Appended(m, pid, p)) == ObjectsOf(m) + {p}
  {
    var m' := Appended(m, pid, p);
    assert m'[pid][|m'[pid]| - 1] == p;
    forall x | x in ObjectsOf(m) ensures x in ObjectsOf(m') {
      var q, i :| q in m && 0 <= i < |m[q]| && m[q][i] == x;
      assert q in m' && m'[q][i] == x;
    }
    forall x | x in ObjectsOf(m') ensures x in ObjectsOf(m) + {p} {
      var q, i :| q in m' && 0 <= i < |m'[q]| && m'[q][i] == x;
      if x != p { assert q in m && m[q][i] == x; }
    }
  }

  lemma AppendedUnshared(m: PacketMap, pid: int, p: Packet)
    requires Unshared(m) && p !in ObjectsOf(m)
    ensures Unshared(Appended(m, pid, p))
  {
    var m' := Appended(m, pid, p);
    if pid != UNKNOWN_PID {
      var n := |m'[pid]| - 1;
      assert forall q, j :: q in m' && 0 <= j < |m'[q]| && !(q == pid && j == n) ==>
        q in m && j < |m[q]| && m[q][j] == m'[q][j] && m[q][j] in ObjectsOf(m);
    }
  }

  lemma StoredFlow(m: PacketMap, pid: int, i: int)
    requires pid in m && 0 <= i < |m[pid]|
    ensures ContainsFlow(ViewOf(m), FlowOf(m[pid][i].info)) && m[pid][i] in ObjectsOf(m)
  {
    assert FlowOf(ViewOf(m)[pid][i]) == FlowOf(m[pid][i].info);
  }

  /** Where the iteration over the unordered map goes next is not specified. */
  method AnyKey<T>(keys: set<T>) returns (key: T)
    requires keys != {}
    ensures key in keys
  {
    key :| key in keys;
  }

  class PidToPacketsInfoMap {
    var packets: PacketMap

    ghost predicate Live()
      reads this, ObjectsOf(packets)
    {
      forall p :: p in ObjectsOf(packets) ==> !p.freed
    }

    constructor ()
      ensures packets == map[]
    {
      packets := map[];
    }

    /** The nested linear search over all vectors. */
    method ContainsPacket(newPacket: Packet) returns (found: bool)
      requires Live() && !newPacket.freed
      ensures found <==> ContainsFlow(ViewOf(packets), FlowOf(newPacket.info))
    {
      var keys := packets.Keys;
      while keys != {}
        invariant keys <= packets.Keys
        invariant forall pid, i :: pid in packets && pid !in keys && 0 <= i < |packets[pid]| ==>
          FlowOf(packets[pid][i].info) != FlowOf(newPacket.info)
        decreases |keys|
      {
        var pid := AnyKey(keys);
        for i := 0 to |packets[pid]|
          invariant forall k :: 0 <= k < i ==> FlowOf(packets[pid][k].info) != FlowOf(newPacket.info)
        {
          StoredFlow(packets, pid, i);
          var same := ComparePacketInfo(packets[pid][i], newPacket);
          if same {
            return true;
          }
        }
        keys := keys - {pid};
      }
      return false;
    }

    method InsertPacketInfo(pid: int, newPacket: Packet)
      modifies this
      ensures packets == Appended(old(packets), pid, newPacket)
    {
      if pid == -1 {
        return;
      }
      if pid !in packets {
        packets := packets[pid := []];
      }
      packets := packets[pid := packets[pid] + [newPacket]];
    }
  }

  /** The stream the first `n` packets make with their replies. A packet that is skipped, or
      whose question fails, contributes no known reply. */
  function Stream(queue: seq<Packet>, replies: seq<Option<int>>, n: nat): (s: seq<Answer>)
    requires n <= |queue| && n <= |replies|
    ensures |s| == n
  {
    if n == 0 then []
    else
      Stream(queue, replies, n - 1) +
      [Answer(queue[n - 1].info, if replies[n - 1].Some? then replies[n - 1].value else UNKNOWN_PID)]
  }

  /** The packets among the first `n`. */
  ghost function Taken(queue: seq<Packet>, n: nat): set<Packet>
    requires n <= |queue|
  {
    set k | 0 <= k < n :: queue[k]
  }

  /** The index and the dropped packets share out what was taken. */
  ghost predicate SharedOut(m: PacketMap, dropped: set<Packet>, taken: set<Packet>) {
    Unshared(m) && ObjectsOf(m) !! dropped && ObjectsOf(m) + dropped == taken
  }

  lemma TakeOne(queue: seq<Packet>, n: nat)
    requires n < |queue| && AllDistinct(queue)
    ensures Taken(queue, n + 1) == Taken(queue, n) + {queue[n]} && queue[n] !in Taken(queue, n)
  {}

  lemma NextAnswer(queue: seq<Packet>, replies: seq<Option<int>>, n: nat)
    requires n < |queue| && n < |replies|
    ensures IndexOf(Stream(queue, replies, n + 1)) ==
      Handle(IndexOf(Stream(queue, replies, n)),
        Answer(queue[n].info, if replies[n].Some? then replies[n].value else UNKNOWN_PID))
  {
    var s := Stream(queue, replies, n + 1);
    assert s[..|s| - 1] == Stream(queue, replies, n);
  }

  /** Where the main loop stands after `n` packets. */
  ghost predicate Handled(m: PacketMap, queue: seq<Packet>, replies: seq<Option<int>>, n: nat, dropped: set<Packet>) {
    && n <= |queue| && n <= |replies|
    && ViewOf(m) == IndexOf(Stream(queue, replies, n))
    && SharedOut(m, dropped, Taken(queue, n))
  }

  lemma NothingHandled(queue: seq<Packet>, replies: seq<Option<int>>)
    ensures Handled(map[], queue, replies, 0, {})
  {
    assert ViewOf(map[]) == map[];
  }

  lemma SkipOne(m: PacketMap, queue: seq<Packet>, replies: seq<Option<int>>, n: nat, dropped: set<Packet>)
    requires Handled(m, queue, replies, n, dropped) && AllDistinct(queue)
    requires n < |queue| && n < |replies|
    requires ContainsFlow(ViewOf(m), FlowOf(queue[n].info)) || replies[n] == Some(UNKNOWN_PID)
    ensures Handled(m, queue, replies, n + 1, dropped + {queue[n]})
  {
    TakeOne(queue, n);
    NextAnswer(queue, replies, n);
  }

  lemma StoreOne(m: PacketMap, queue: seq<Packet>, replies: seq<Option<int>>, n: nat, dropped: set<Packet>)
    requires Handled(m, queue, replies, n, dropped) && AllDistinct(queue)
    requires n < |queue| && n < |replies|
    requires !ContainsFlow(ViewOf(m), FlowOf(queue[n].info))
    requires replies[n].Some? && replies[n].value != UNKNOWN_PID
    ensures Handled(Appended(m, replies[n].value, queue[n]), queue, replies, n + 1, dropped)
  {
    hide ViewOf, IndexOf, Stream, Taken, Appended, ObjectsOf, Unshared, ContainsFlow, Insert;
    TakeOne(queue, n);
    NextAnswer(queue, replies, n);
    AppendedView(m, replies[n].value, queue[n]);
    AppendedUnshared(m, replies[n].value, queue[n]);
    AppendedObjects(m, replies[n].value, queue[n]);
  }

  lemma StoredAreLive(
    index: PidToPacketsInfoMap, queue: seq<Packet>, replies: seq<Option<int>>, n: nat, dropped: set<Packet>)
    requires Handled(index.packets, queue, replies, n, dropped) && NoneFreed(queue)
    ensures index.Live()
  {
    assert ObjectsOf(index.packets) <= Taken(queue, n);
  }

  /** One turn of the main loop: what the test of `running` sees, the packet popped or null, whether
      the server is found alive if it is asked for want of a packet, and the reply if the daemon is
      asked about the packet; none when sending or receiving fails. */
  datatype Turn = Turn(running: bool, popped: Packet?, alive: bool, reply: Option<int>)

  /** The turns that pop a packet, up to where `running` is false or the server found dead. */
  function Pops(turns: seq<Turn>): (r: seq<Turn>)
    ensures forall i :: 0 <= i < |r| ==> r[i].popped != null
  {
    if turns == [] || !turns[0].running then []
    else if turns[0].popped != null then [turns[0]] + Pops(turns[1..])
    else if turns[0].alive then Pops(turns[1..])
    else []
  }

  /** A turn that pops counts; one that does not, with the server alive, does not matter; one that finds
      `running` false, or the server dead for want of a packet, is the end. */
  lemma {:induction false} PopsIs(before: seq<Turn>, turn: Turn, after: seq<Turn>)
    requires forall i :: 0 <= i < |before| ==> before[i].running && (before[i].popped != null || before[i].alive)
    ensures !turn.running || (turn.popped == null && !turn.alive) ==>
      Pops(before + [turn] + after) == Pops(before)
    ensures turn.running && turn.popped == null && turn.alive ==>
      Pops(before + [turn] + after) == Pops(before) + Pops(after)
    ensures turn.running && turn.popped != null ==>
      Pops(before + [turn] + after) == Pops(before) + [turn] + Pops(after)
    ensures Pops([]) == []
    decreases |before|
  {
    hide Pops;
    if before == [] {
      assert before + [turn] + after == [turn] + after;
      PopsFirst(turn, after);
    } else {
      var rest := before[1..] + [turn] + after;
      assert before == [before[0]] + before[1..] && before + [turn] + after == [before[0]] + rest;
      PopsIs(before[1..], turn, after);
      PopsFirst(before[0], rest);
      PopsFirst(before[0], before[1..]);
    }
    NothingPopped();
  }

  lemma NothingPopped()
    ensures Pops([]) == []
  {}

  lemma PopsFirst(turn: Turn, rest: seq<Turn>)
    ensures Pops([turn] + rest) ==
      if !turn.running || (turn.popped == null && !turn.alive) then []
      else if turn.popped == null then Pops(rest) else [turn] + Pops(rest)
  {
    assert ([turn] + rest)[1..] == rest;
  }

  lemma PopsStep(turns: seq<Turn>, k: nat)
    requires k < |turns| && turns[k].running
    ensures turns[k].popped != null ==> Pops(turns[k..]) == [turns[k]] + Pops(turns[k + 1..])
    ensures turns[k].popped == null ==> Pops(turns[k..]) == if turns[k].alive then Pops(turns[k + 1..]) else []
  {
    assert turns[k..][1..] == turns[k + 1..];
  }

  lemma NoMoreTurns(turns: seq<Turn>, k: nat)
    requires k <= |turns| && (k == |turns| || !turns[k].running)
    ensures Pops(turns[k..]) == []
  {}

  function PacketsOf(pops: seq<Turn>): (r: seq<Packet>)
    requires forall i :: 0 <= i < |pops| ==> pops[i].popped != null
    ensures |r| == |pops|
  {
    if pops == [] then [] else PacketsOf(pops[..|pops| - 1]) + [pops[|pops| - 1].popped]
  }

  function RepliesOf(pops: seq<Turn>): (r: seq<Option<int>>)
    ensures |r| == |pops|
  {
    if pops == [] then [] else RepliesOf(pops[..|pops| - 1]) + [pops[|pops| - 1].reply]
  }

  lemma {:induction false} PopAt(pops: seq<Turn>, before: seq<Turn>, turn: Turn, rest: seq<Turn>)
    requires forall i :: 0 <= i < |pops| ==> pops[i].popped != null
    requires pops == before + ([turn] + rest)
    ensures |before| < |pops| && PacketsOf(pops)[|before|] == turn.popped && RepliesOf(pops)[|before|] == turn.reply
    ensures pops == (before + [turn]) + rest
    decreases |rest|
  {
    assert pops[|before|] == turn;
    if rest != [] {
      var n := |pops| - 1;
      assert pops[..n] == before + ([turn] + rest[..|rest| - 1]);
      PopAt(pops[..n], before, turn, rest[..|rest| - 1]);
    }
  }

  /** What the main loop does with a packet: skip it if its 5-tuple is stored, otherwise ask, and store it
      under the pid or drop it. Nothing happens when there is no answer. */
  method HandlePacket(
    index: PidToPacketsInfoMap, pckt: Packet, reply: Option<int>,
    ghost queue: seq<Packet>, ghost replies: seq<Option<int>>, ghost n: nat, ghost dropped: set<Packet>)
    returns (done: bool, ghost nowDropped: set<Packet>)
    requires Handled(index.packets, queue, replies, n, dropped) && AllDistinct(queue) && NoneFreed(queue)
    requires n < |queue| && n < |replies| && queue[n] == pckt && replies[n] == reply
    modifies index
    ensures done ==> Handled(index.packets, queue, replies, n + 1, nowDropped)
    ensures !done ==> index.packets == old(index.packets) && nowDropped == dropped
    ensures !done ==> reply == None && !ContainsFlow(ViewOf(index.packets), FlowOf(pckt.info))
  {
    StoredAreLive(index, queue, replies, n, dropped);
    hide Handled, ViewOf, ContainsFlow, ObjectsOf, AllDistinct;
    var contained := index.ContainsPacket(pckt);
    if contained {
      SkipOne(index.packets, queue, replies, n, dropped);
      return true, dropped + {pckt};
    }
    if reply.None? {
      return false, dropped;
    }
    var pid := reply.value;
    nowDropped := dropped;
    if pid == UNKNOWN_PID {
      SkipOne(index.packets, queue, replies, n, dropped);
      nowDropped := dropped + {pckt};
    } else {
      StoreOne(index.packets, queue, replies, n, dropped);
    }
    index.InsertPacketInfo(pid, pckt);
    done := true;
  }

  /** The main loop. The index is the fold over the packets handled; every one of them is either in
      it, once, or dropped; none is freed. The loop ends before the last packet popped only at one
      that had to be asked about and got no answer, and that packet is in neither. */
  method Hunt(turns: seq<Turn>, ghost queue: seq<Packet>, ghost replies: seq<Option<int>>)
    returns (index: PidToPacketsInfoMap, handled: nat, ghost dropped: set<Packet>)
    requires queue == PacketsOf(Pops(turns)) && replies == RepliesOf(Pops(turns))
    requires AllDistinct(queue) && NoneFreed(queue)
    ensures fresh(index) && index.Live()
    ensures Handled(index.packets, queue, replies, handled, dropped)
    ensures handled < |queue| ==>
      replies[handled] == None && !ContainsFlow(ViewOf(index.packets), FlowOf(queue[handled].info))
  {
    ghost var pops, before, rest: seq<Turn> := Pops(turns), [], Pops(turns);
    hide Pops, PacketsOf, RepliesOf, Handled, ViewOf, ContainsFlow, ObjectsOf, AllDistinct;
    NothingHandled(queue, replies);
    index := new PidToPacketsInfoMap();
    handled := 0;
    dropped := {};
    var running := true;
    var k := 0;
    while k < |turns| && running && turns[k].running
      invariant fresh(index) && NoneFreed(queue) && 0 <= k <= |turns|
      invariant pops == before + rest && |before| == handled
      invariant rest == if running then Pops(turns[k..]) else []
      invariant Handled(index.packets, queue, replies, handled, dropped)
    {
      PopsStep(turns, k);
      var turn := turns[k];
      k := k + 1;
      if turn.popped == null {
        running := turn.alive;
        rest := if turn.alive then rest else [];
        continue;
      }
      PopAt(pops, before, turn, Pops(turns[k..]));
      var done: bool;
      done, dropped := HandlePacket(index, turn.popped, turn.reply, queue, replies, handled, dropped);
      if !done {
        break;
      }
      handled := handled + 1;
      before, rest := before + [turn], Pops(turns[k..]);
    }
    StoredAreLive(index, queue, replies, handled, dropped);
    if k == |turns| || !turns[k].running { NoMoreTurns(turns, k); }
  }
}
