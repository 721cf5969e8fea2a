/** The kernel module: the subscribe/unsubscribe handler and the packet hook. */
module Sniffer {
  import opened Packets

  datatype Client = Hunter | Daemon

  /** What the module knows about one kind of client. */
  datatype Slot = Slot(subscribed: bool, pid: nat)

  datatype Slots = Slots(hunter: Slot, daemon: Slot) {
    function Of(c: Client): Slot { if c.Hunter? then hunter else daemon }
  }

  const EMPTY_SLOTS := Slots(Slot(false, 0), Slot(false, 0))

  /** A message handed to `netlink_unicast`. */
  datatype Sent = Sent(pid: nat, msg: PacketInfo)

  datatype Command = Command(text: string, sender: nat)

  function Subscribe(c: Client): string {
    if c.Hunter? then "packet_hunter_subscribe" else "daemon_subscribe"
  }

  function Unsubscribe(c: Client): string {
    if c.Hunter? then "packet_hunter_unsubscribe" else "daemon_unsubscribe"
  }

  lemma CommandsDiffer()
    ensures forall c, d :: Subscribe(c) != Unsubscribe(d)
    ensures forall c, d :: Subscribe(c) == Subscribe(d) || Unsubscribe(c) == Unsubscribe(d) ==> c == d
  {
    assert |"packet_hunter_subscribe"| == 23 && |"packet_hunter_unsubscribe"| == 25;
    assert |"daemon_subscribe"| == 16 && |"daemon_unsubscribe"| == 18;
  }

  /** The effect of one command on the slot of one client. */
  function SlotAfter(s: Slot, c: Client, cmd: Command): Slot {
    if cmd.text == Subscribe(c) && !s.subscribed then Slot(true, cmd.sender)
    else if cmd.text == Unsubscribe(c) then Slot(false, 0)
    else s
  }

  function SlotsAfter(k: Slots, cmd: Command): Slots {
    Slots(SlotAfter(k.hunter, Hunter, cmd), SlotAfter(k.daemon, Daemon, cmd))
  }

  /** The terminate message an unsubscribe sends, to whoever holds the slot then. */
  function StopSent(k: Slots, cmd: Command): seq<Sent> {
    if cmd.text == Unsubscribe(Hunter) then [Sent(k.hunter.pid, STOP_MESSAGE)]
    else if cmd.text == Unsubscribe(Daemon) then [Sent(k.daemon.pid, STOP_MESSAGE)]
    else []
  }

  /** The packet the hook reports: TCP and UDP only. */
  function Captured(
    protocol: nat, srcIp: UInt32, dstIp: UInt32, srcPort: Port, dstPort: Port, junk: UInt32): Option<PacketInfo>
  {
    if protocol == 6 then Some(PacketInfo(srcIp, dstIp, srcPort, dstPort, junk, 'T'))
    else if protocol == 17 then Some(PacketInfo(srcIp, dstIp, srcPort, dstPort, junk, 'U'))
    else None
  }

  /** One uninterrupted run of the hook: the daemon first, then the hunter. */
  function Offers(k: Slots, p: PacketInfo): seq<Sent> {
    (if k.daemon.subscribed && k.daemon.pid != 0 then [Sent(k.daemon.pid, p)] else []) +
    (if k.hunter.subscribed && k.hunter.pid != 0 then [Sent(k.hunter.pid, p)] else [])
  }

  class Sniffer {
    var packetHunterSubscribed: bool
    var daemonSubscribed: bool
    var packetHunterPid: nat
    var daemonPid: nat
    var sent: seq<Sent>

    function State(): Slots
      reads this
    {
      Slots(Slot(packetHunterSubscribed, packetHunterPid), Slot(daemonSubscribed, daemonPid))
    }

    constructor ()
      ensures State() == EMPTY_SLOTS && sent == []
    {
      packetHunterSubscribed, daemonSubscribed := false, false;
      packetHunterPid, daemonPid := 0, 0;
      sent := [];
    }

    method SendPacketInfoToUser(pid: nat, msg: PacketInfo)
      modifies this`sent
      ensures sent == old(sent) + [Sent(pid, msg)]
    {
      sent := sent + [Sent(pid, msg)];
    }

    method SendStopMsg(pid: nat)
      modifies this`sent
      ensures sent == old(sent) + [Sent(pid, STOP_MESSAGE)]
    {
      SendPacketInfoToUser(pid, STOP_MESSAGE);
    }

    method NlRecvMsg(userMsg: string, nlmsgPid: nat)
      modifies this
      ensures State() == SlotsAfter(old(State()), Command(userMsg, nlmsgPid))
      ensures sent == old(sent) + StopSent(old(State()), Command(userMsg, nlmsgPid))
      ensures userMsg == "packet_hunter_subscribe" && !old(packetHunterSubscribed) ==>
        packetHunterSubscribed && packetHunterPid == nlmsgPid && sent == old(sent)
      ensures userMsg == "daemon_subscribe" && !old(daemonSubscribed) ==>
        daemonSubscribed && daemonPid == nlmsgPid && sent == old(sent)
      ensures userMsg == "packet_hunter_unsubscribe" ==>
        && !packetHunterSubscribed && packetHunterPid == 0
        && sent == old(sent) + [Sent(old(packetHunterPid), STOP_MESSAGE)]
      ensures userMsg == "daemon_unsubscribe" ==>
        !daemonSubscribed && daemonPid == 0 && sent == old(sent) + [Sent(old(daemonPid), STOP_MESSAGE)]
      ensures userMsg != "packet_hunter_subscribe" && userMsg != "packet_hunter_unsubscribe" ==>
        packetHunterSubscribed == old(packetHunterSubscribed) && packetHunterPid == old(packetHunterPid)
      ensures userMsg != "daemon_subscribe" && userMsg != "daemon_unsubscribe" ==>
        daemonSubscribed == old(daemonSubscribed) && daemonPid == old(daemonPid)
      ensures userMsg != "packet_hunter_unsubscribe" && userMsg != "daemon_unsubscribe" ==> sent == old(sent)
    {
      CommandsDiffer();
      assert sent + [] == sent;
      if userMsg == "packet_hunter_subscribe" && !packetHunterSubscribed {
        packetHunterSubscribed := true;
        packetHunterPid := nlmsgPid;
        return;
      }
      if userMsg == "packet_hunter_unsubscribe" {
        SendStopMsg(packetHunterPid);
        packetHunterSubscribed := false;
        packetHunterPid := 0;
        return;
      }
      if userMsg == "daemon_subscribe" && !daemonSubscribed {
        daemonSubscribed := true;
        daemonPid := nlmsgPid;
        return;
      }
      if userMsg == "daemon_unsubscribe" {
        SendStopMsg(daemonPid);
        daemonSubscribed := false;
        daemonPid := 0;
        return;
      }
    }

    method PacketSnifferHook(protocol: nat, srcIp: UInt32, dstIp: UInt32, srcPort: Port, dstPort: Port, junk: UInt32)
      modifies this`sent
      ensures Captured(protocol, srcIp, dstIp, srcPort, dstPort, junk) == None ==> sent == old(sent)
      ensures Captured(protocol, srcIp, dstIp, srcPort, dstPort, junk).Some? ==>
        sent == old(sent) + Offers(State(), Captured(protocol, srcIp, dstIp, srcPort, dstPort, junk).value)
      ensures protocol == 6 ==>
        sent == old(sent)
          + (if daemonSubscribed && daemonPid != 0
             then [Sent(daemonPid, PacketInfo(srcIp, dstIp, srcPort, dstPort, junk, 'T'))] else [])
          + (if packetHunterSubscribed && packetHunterPid != 0
             then [Sent(packetHunterPid, PacketInfo(srcIp, dstIp, srcPort, dstPort, junk, 'T'))] else [])
      ensures protocol == 17 ==>
        sent == old(sent)
          + (if daemonSubscribed && daemonPid != 0
             then [Sent(daemonPid, PacketInfo(srcIp, dstIp, srcPort, dstPort, junk, 'U'))] else [])
          + (if packetHunterSubscribed && packetHunterPid != 0
             then [Sent(packetHunterPid, PacketInfo(srcIp, dstIp, srcPort, dstPort, junk, 'U'))] else [])
      ensures protocol != 6 && protocol != 17 ==> sent == old(sent)
    {
      var proto: char;
      if protocol == 6 {
        proto := 'T';
      } else if protocol == 17 {
        proto := 'U';
      } else {
        return;
      }
      if daemonSubscribed && daemonPid != 0 {
        SendPacketInfoToUser(daemonPid, PacketInfo(srcIp, dstIp, srcPort, dstPort, junk, proto));
      }
      if packetHunterSubscribed && packetHunterPid != 0 {
        SendPacketInfoToUser(packetHunterPid, PacketInfo(srcIp, dstIp, srcPort, dstPort, junk, proto));
      }
    }
  }

  /** What is reported is a TCP packet marked 'T' or a UDP packet marked 'U', with the headers' addresses
      and ports; and every such report comes from a packet. */
  lemma ReportsAreTcpOrUdp(protocol: nat, srcIp: UInt32, dstIp: UInt32, srcPort: Port, dstPort: Port, junk: UInt32)
    ensures
      var report := Captured(protocol, srcIp, dstIp, srcPort, dstPort, junk);
      && (report.Some? <==> protocol == 6 || protocol == 17)
      && (report.Some? ==>
           report.value == PacketInfo(srcIp, dstIp, srcPort, dstPort, junk, if protocol == 6 then 'T' else 'U'))
  {}

  lemma SupportedAreReports(p: PacketInfo)
    ensures Supported(p) <==>
      exists protocol: nat :: Captured(protocol, p.srcIp, p.dstIp, p.srcPort, p.dstPort, p.payloadSize) == Some(p)
  {
    assert p.proto == 'T' ==> Captured(6, p.srcIp, p.dstIp, p.srcPort, p.dstPort, p.payloadSize) == Some(p);
    assert p.proto == 'U' ==> Captured(17, p.srcIp, p.dstIp, p.srcPort, p.dstPort, p.payloadSize) == Some(p);
  }

  // ----- any sequence of commands -----

  function AfterCommands(cmds: seq<Command>): Slots {
    if cmds == [] then EMPTY_SLOTS else SlotsAfter(AfterCommands(cmds[..|cmds| - 1]), cmds[|cmds| - 1])
  }

  function AllStops(cmds: seq<Command>): seq<Sent> {
    if cmds == [] then []
    else AllStops(cmds[..|cmds| - 1]) + StopSent(AfterCommands(cmds[..|cmds| - 1]), cmds[|cmds| - 1])
  }

  /** The four texts, one after the other. */
  lemma TheCommands(d: nat, h: nat)
    ensures AfterCommands([Command("daemon_subscribe", d)]) == Slots(Slot(false, 0), Slot(true, d))
    ensures AfterCommands([Command("packet_hunter_subscribe", h)]) == Slots(Slot(true, h), Slot(false, 0))
    ensures AfterCommands([Command("daemon_subscribe", d), Command("daemon_unsubscribe", h)]) == EMPTY_SLOTS
    ensures EMPTY_SLOTS ==
      AfterCommands([Command("packet_hunter_subscribe", h), Command("packet_hunter_unsubscribe", d)])
    ensures AfterCommands([Command("subscribe", d)]) == EMPTY_SLOTS
  {
    CommandsDiffer();
    OneCommand(Command("daemon_subscribe", d));
    OneCommand(Command("packet_hunter_subscribe", h));
    OneCommand(Command("subscribe", d));
    TwoCommands(Command("daemon_subscribe", d), Command("daemon_unsubscribe", h));
    TwoCommands(Command("packet_hunter_subscribe", h), Command("packet_hunter_unsubscribe", d));
    assert |"subscribe"| == 9 && |"daemon_subscribe"| == 16 && |"daemon_unsubscribe"| == 18;
    assert |"packet_hunter_subscribe"| == 23 && |"packet_hunter_unsubscribe"| == 25;
    hide AfterCommands;
  }

  lemma OneCommand(cmd: Command)
    ensures AfterCommands([cmd]) == SlotsAfter(EMPTY_SLOTS, cmd)
  {
    assert [cmd][..0] == [];
  }

  lemma TwoCommands(a: Command, b: Command)
    ensures AfterCommands([a, b]) == SlotsAfter(SlotsAfter(EMPTY_SLOTS, a), b)
  {
    assert [a, b][..1] == [a];
    OneCommand(a);
    hide SlotsAfter;
  }

  predicate Subscribes(cmds: seq<Command>, c: Client, i: int) {
    0 <= i < |cmds| && cmds[i].text == Subscribe(c)
  }

  predicate Unsubscribes(cmds: seq<Command>, c: Client, i: int) {
    0 <= i < |cmds| && cmds[i].text == Unsubscribe(c)
  }

  /** Command `i` is the first subscribe since the last unsubscribe. */
  ghost predicate Holds(cmds: seq<Command>, c: Client, i: int) {
    && Subscribes(cmds, c, i)
    && (forall j :: Unsubscribes(cmds, c, j) ==> j < i)
    && (forall j :: Subscribes(cmds, c, j) && j < i ==> exists u :: j < u < i && Unsubscribes(cmds, c, u))
  }

  lemma {:induction false} PrefixCommands(cmds: seq<Command>, before: seq<Command>, c: Client)
    requires cmds != [] && before == cmds[..|cmds| - 1]
    ensures forall j {:trigger Subscribes(cmds, c, j)} {:trigger Subscribes(before, c, j)} ::
      Subscribes(before, c, j) <==> j < |cmds| - 1 && Subscribes(cmds, c, j)
    ensures forall j {:trigger Unsubscribes(cmds, c, j)} {:trigger Unsubscribes(before, c, j)} ::
      Unsubscribes(before, c, j) <==> j < |cmds| - 1 && Unsubscribes(cmds, c, j)
  {}

  /** The slot after any commands, read off the commands: held by the sender of the first
      subscribe since the last unsubscribe, and empty when there is none. Later subscribes
      never take over, and commands naming the other client do not matter. */
  lemma {:induction false} SlotHolder(cmds: seq<Command>, c: Client)
    ensures forall i :: Holds(cmds, c, i) ==> AfterCommands(cmds).Of(c) == Slot(true, cmds[i].sender)
    ensures (forall i :: !Holds(cmds, c, i)) ==> AfterCommands(cmds).Of(c) == Slot(false, 0)
  {
    if cmds != [] {
      var n := |cmds| - 1;
      var before := cmds[..n];
      SlotHolder(before, c);
      CommandsDiffer();
      assert AfterCommands(cmds).Of(c) == SlotAfter(AfterCommands(before).Of(c), c, cmds[n]);
      HoldersNow(cmds, before, c);
      hide Holds, AfterCommands, Subscribe, Unsubscribe, SlotsAfter;
      assert forall i :: Holds(before, c, i) ==> cmds[i] == before[i] by { HoldersInside(before, c); }
      if cmds[n].text == Unsubscribe(c) {
        assert SlotAfter(AfterCommands(before).Of(c), c, cmds[n]) == Slot(false, 0);
      } else if h :| Holds(before, c, h) {
        assert AfterCommands(cmds).Of(c) == Slot(true, cmds[h].sender) && !Holds(cmds, c, n) && Holds(cmds, c, h);
      } else {
        assert forall i :: Holds(cmds, c, i) ==> i == n;
      }
    }
  }

  lemma HoldersInside(cmds: seq<Command>, c: Client)
    ensures forall i :: Holds(cmds, c, i) ==> 0 <= i < |cmds|
  {}

  /** How the last command changes who holds the slot. */
  lemma {:induction false} HoldersNow(cmds: seq<Command>, before: seq<Command>, c: Client)
    requires cmds != [] && before == cmds[..|cmds| - 1]
    ensures forall i :: Holds(cmds, c, i) ==> 0 <= i < |cmds|
    ensures cmds[|cmds| - 1].text == Unsubscribe(c) ==> forall i :: !Holds(cmds, c, i)
    ensures cmds[|cmds| - 1].text != Unsubscribe(c) ==>
      forall i {:trigger Holds(cmds, c, i)} {:trigger Holds(before, c, i)} :: i < |cmds| - 1 ==>
        (Holds(cmds, c, i) <==> Holds(before, c, i))
    ensures cmds[|cmds| - 1].text == Subscribe(c) ==>
      (Holds(cmds, c, |cmds| - 1) <==> forall i :: !Holds(before, c, i))
    ensures cmds[|cmds| - 1].text != Subscribe(c) ==> !Holds(cmds, c, |cmds| - 1)
  {
    var n := |cmds| - 1;
    PrefixCommands(cmds, before, c);
    if cmds[n].text == Unsubscribe(c) {
      assert Unsubscribes(cmds, c, n);
    } else {
      forall i | i < n ensures Holds(cmds, c, i) <==> Holds(before, c, i) {
        if Holds(before, c, i) { HoldsOn(cmds, before, c, i); }
        if Holds(cmds, c, i) { HeldBefore(cmds, before, c, i); }
      }
    }
    if cmds[n].text == Subscribe(c) { LastSubscribe(cmds, before, c); }
  }

  lemma {:induction false} HoldsOn(cmds: seq<Command>, before: seq<Command>, c: Client, i: int)
    requires cmds != [] && before == cmds[..|cmds| - 1] && Holds(before, c, i)
    requires cmds[|cmds| - 1].text != Unsubscribe(c)
    ensures Holds(cmds, c, i)
  {
    PrefixCommands(cmds, before, c);
    forall j | Subscribes(cmds, c, j) && j < i ensures exists u :: j < u < i && Unsubscribes(cmds, c, u) {
      var u :| j < u < i && Unsubscribes(before, c, u);
      assert Unsubscribes(cmds, c, u);
    }
  }

  lemma {:induction false} HeldBefore(cmds: seq<Command>, before: seq<Command>, c: Client, i: int)
    requires cmds != [] && before == cmds[..|cmds| - 1] && i < |cmds| - 1 && Holds(cmds, c, i)
    ensures Holds(before, c, i)
  {
    PrefixCommands(cmds, before, c);
    forall j | Subscribes(before, c, j) && j < i ensures exists u :: j < u < i && Unsubscribes(before, c, u) {
      var u :| j < u < i && Unsubscribes(cmds, c, u);
      assert Unsubscribes(before, c, u);
    }
  }

  /** A last subscribe takes the slot exactly when nobody held it. */
  lemma {:induction false} LastSubscribe(cmds: seq<Command>, before: seq<Command>, c: Client)
    requires cmds != [] && before == cmds[..|cmds| - 1] && cmds[|cmds| - 1].text == Subscribe(c)
    ensures Holds(cmds, c, |cmds| - 1) <==> forall i :: !Holds(before, c, i)
  {
    var n := |cmds| - 1;
    PrefixCommands(cmds, before, c);
    CommandsDiffer();
    if forall i :: !Holds(before, c, i) {
      forall j | Subscribes(cmds, c, j) && j < n ensures exists u :: j < u < n && Unsubscribes(cmds, c, u) {
        if !(exists u :: j < u < n && Unsubscribes(cmds, c, u)) {
          var i := EarliestSince(before, c, j);
          assert false;
        }
      }
    }
  }

  /** A subscribe that no unsubscribe follows makes someone hold the slot. */
  lemma {:induction false} EarliestSince(cmds: seq<Command>, c: Client, j: int) returns (i: int)
    requires Subscribes(cmds, c, j) && forall u :: Unsubscribes(cmds, c, u) ==> u <= j
    ensures Holds(cmds, c, i)
    decreases j
  {
    CommandsDiffer();
    if k :| Subscribes(cmds, c, k) && k < j && !exists u :: k < u < j && Unsubscribes(cmds, c, u) {
      i := EarliestSince(cmds, c, k);
    } else {
      i := j;
    }
  }

  /** With nonzero senders a client is subscribed exactly when its pid is nonzero. */
  lemma {:induction false} FlagIffPid(cmds: seq<Command>, c: Client)
    requires forall i :: 0 <= i < |cmds| ==> cmds[i].sender != 0
    ensures AfterCommands(cmds).Of(c).subscribed <==> AfterCommands(cmds).Of(c).pid != 0
  {
    if cmds != [] {
      FlagIffPid(cmds[..|cmds| - 1], c);
    }
  }

  /** The commands of one client, in order. */
  function OfClient(cmds: seq<Command>, c: Client): seq<Command> {
    if cmds == [] then []
    else
      var last := cmds[|cmds| - 1];
      OfClient(cmds[..|cmds| - 1], c) +
      if last.text == Subscribe(c) || last.text == Unsubscribe(c) then [last] else []
  }

  /** A client's slot is what its own commands alone would make it. */
  lemma {:induction false} ClientsAreIndependent(cmds: seq<Command>, c: Client)
    ensures AfterCommands(cmds).Of(c) == AfterCommands(OfClient(cmds, c)).Of(c)
  {
    if cmds != [] {
      var n := |cmds| - 1;
      ClientsAreIndependent(cmds[..n], c);
      var own := OfClient(cmds[..n], c);
      assert (own + [cmds[n]])[..|own|] == own && own + [] == own;
      CommandsDiffer();
    }
  }

  predicate IsUnsubscribe(text: string) { text == Unsubscribe(Hunter) || text == Unsubscribe(Daemon) }

  /** Where the unsubscribes are, in order. */
  function UnsubscribesAt(cmds: seq<Command>): seq<nat> {
    if cmds == [] then []
    else UnsubscribesAt(cmds[..|cmds| - 1]) + if IsUnsubscribe(cmds[|cmds| - 1].text) then [|cmds| - 1] else []
  }

  lemma {:induction false} EveryUnsubscribeOnce(cmds: seq<Command>)
    ensures forall i :: i in UnsubscribesAt(cmds) <==> 0 <= i < |cmds| && IsUnsubscribe(cmds[i].text)
    ensures forall j, k :: 0 <= j < k < |UnsubscribesAt(cmds)| ==> UnsubscribesAt(cmds)[j] < UnsubscribesAt(cmds)[k]
  {
    hide IsUnsubscribe;
    if cmds != [] {
      var n := |cmds| - 1;
      EveryUnsubscribeOnce(cmds[..n]);
      var before := UnsubscribesAt(cmds[..n]);
      assert forall k :: 0 <= k < |before| ==> before[k] in before;
      assert forall i :: i in UnsubscribesAt(cmds) <==> i in before || (i == n && IsUnsubscribe(cmds[n].text));
    }
  }

  lemma StopPerCommand(k: Slots, cmd: Command)
    ensures |StopSent(k, cmd)| == if IsUnsubscribe(cmd.text) then 1 else 0
    ensures forall c :: cmd.text == Unsubscribe(c) ==> StopSent(k, cmd) == [Sent(k.Of(c).pid, STOP_MESSAGE)]
  {
    CommandsDiffer();
  }

  lemma StopsAppend(stops: seq<Sent>, more: seq<Sent>, ats: seq<nat>, at: seq<nat>, k: nat)
    requires |stops| == |ats| && |more| == |at| <= 1
    ensures |stops + more| == |ats + at|
    ensures k < |ats| ==> (ats + at)[k] == ats[k] && (stops + more)[k..k + 1] == stops[k..k + 1]
    ensures k == |ats| && |at| == 1 ==> (ats + at)[k] == at[0] && (stops + more)[k..k + 1] == more
  {}

  lemma {:induction false} StopsInOrder(cmds: seq<Command>, k: nat)
    ensures |AllStops(cmds)| == |UnsubscribesAt(cmds)|
    ensures k < |UnsubscribesAt(cmds)| ==>
      var i := UnsubscribesAt(cmds)[k];
      i < |cmds| && IsUnsubscribe(cmds[i].text) &&
      AllStops(cmds)[k..k + 1] == StopSent(AfterCommands(cmds[..i]), cmds[i])
  {
    if cmds != [] {
      hide StopSent, IsUnsubscribe, AfterCommands;
      var n := |cmds| - 1;
      var before := cmds[..n];
      StopsInOrder(before, k);
      var more := StopSent(AfterCommands(before), cmds[n]);
      var at: seq<nat> := if IsUnsubscribe(cmds[n].text) then [n] else [];
      StopPerCommand(AfterCommands(before), cmds[n]);
      assert AllStops(cmds) == AllStops(before) + more && UnsubscribesAt(cmds) == UnsubscribesAt(before) + at;
      hide AllStops, UnsubscribesAt;
      StopsAppend(AllStops(before), more, UnsubscribesAt(before), at, k);
      if k < |UnsubscribesAt(before)| {
        assert before[..UnsubscribesAt(before)[k]] == cmds[..UnsubscribesAt(before)[k]];
      }
    }
  }

  /** One terminate message per unsubscribe and no others. The k-th answers the k-th unsubscribe: it
      goes to whoever held the client's slot just before, the sender of the first subscribe since the
      unsubscribe before that, and to 0 when nobody did. */
  lemma {:induction false} OneStopPerUnsubscribe(cmds: seq<Command>, c: Client, k: nat)
    requires k < |UnsubscribesAt(cmds)|
    ensures |AllStops(cmds)| == |UnsubscribesAt(cmds)| && AllStops(cmds)[k].msg == STOP_MESSAGE
    ensures UnsubscribesAt(cmds)[k] < |cmds|
    ensures
      var i := UnsubscribesAt(cmds)[k];
      cmds[i].text == Unsubscribe(c) ==>
        && (forall j :: Holds(cmds[..i], c, j) ==> AllStops(cmds)[k].pid == cmds[j].sender)
        && ((forall j :: !Holds(cmds[..i], c, j)) ==> AllStops(cmds)[k].pid == 0)
  {
    StopsInOrder(cmds, k);
    var i := UnsubscribesAt(cmds)[k];
    StopPerCommand(AfterCommands(cmds[..i]), cmds[i]);
    SlotHolder(cmds[..i], c);
    assert AllStops(cmds)[k] == AllStops(cmds)[k..k + 1][0];
    hide AfterCommands, AllStops, StopSent, Holds;
  }
}
