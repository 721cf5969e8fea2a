/** What every step of the system keeps: the two packet pipelines, where the threads can be
    relative to each other, and the kernel's slots. */
module Invariants {
  import opened Packets
  import opened SocketTable
  import opened SocketOwner
  import opened ScanFiles
  import PortToPidMap
  import opened Sniffer
  import opened Pipeline
  import opened HutKarish

  /** The packet in the daemon main thread's hand. */
  function LoopHand(pc: LoopPc): Option<nat> {
    if pc.LoopTest? || pc.PopNext? then None else Some(pc.id)
  }

  function DaemonHand(pc: MainPc): Option<nat> { if pc.Loop? then LoopHand(pc.l) else None }

  function HuntHand(pc: HuntPc): Option<nat> {
    if pc.HuntTest? || pc.HPop? || pc.HAlive? then None else Some(pc.id)
  }

  function HunterHand(pc: HunterPc): Option<nat> { if pc.Hunting? then HuntHand(pc.u) else None }

  // ----- how far each main thread has got -----

  /** The receiver has been started. */
  predicate Spawned(pc: MainPc) { pc.Loop? || pc.Stop? || pc.Release? || pc.Done? }

  /** The loop has been left. */
  predicate Left(pc: MainPc) { pc.Stop? || pc.Release? || pc.Done? }

  /** The terminate message has been offered. */
  predicate StopOffered(pc: MainPc) { Left(pc) && pc != Stop(UnsubStop) }

  /** The receiver has been joined. */
  predicate Joined(pc: MainPc) { pc == Stop(CleanTest) || pc == Stop(CleanPop) || pc.Release? || pc.Done? }

  /** The client's connection, if any, can no longer keep a read waiting. */
  predicate ReadReleased(pc: MainPc) {
    (pc.Release? && !pc.r.FdTest? && !pc.r.FdShutdown?) || pc.Done?
  }

  predicate HSpawned(pc: HunterPc) { !pc.Joining? }

  predicate HStopOffered(pc: HunterPc) { (pc.Leaving? && !pc.v.HUnsubStop?) || pc.HDone? }

  predicate HJoined(pc: HunterPc) {
    pc == Leaving(HCleanTest) || pc == Leaving(HCleanPop) || pc == Leaving(HChoice) || pc.HDone?
  }

  /** The daemon's slot in the kernel follows its main thread. */
  function DaemonSlot(pc: MainPc, pid: nat): Slot {
    if pc.Build? || pc == Start(SpawnServer) || pc == Start(SubFlag) then Slot(false, 0)
    else if pc == Start(SubPid) then Slot(true, 0)
    else if pc == Stop(UnsubPid) then Slot(false, pid)
    else if pc.Start? || pc.Loop? || pc == Stop(UnsubStop) || pc == Stop(UnsubFlag) then Slot(true, pid)
    else Slot(false, 0)
  }

  function HunterSlot(pc: HunterPc, pid: nat): Slot {
    if pc == Joining(Connect) || pc == Joining(HSubFlag) then Slot(false, 0)
    else if pc == Joining(HSubPid) then Slot(true, 0)
    else if pc == Leaving(HUnsubPid) then Slot(false, pid)
    else if pc.Joining? || pc.Hunting? || pc == Leaving(HUnsubStop) || pc == Leaving(HUnsubFlag) then Slot(true, pid)
    else Slot(false, 0)
  }

  // ----- the invariant -----

  /** What keeps the server thread from blocking for ever once shutdown has got far enough. */
  predicate SocketInv(d: DaemonState) {
    && (ReadReleased(d.main) && d.server == Serving(Read) ==> d.clientFd.None? || !d.fdOpen || d.rdShut)
    && (d.main == Release(JoinServer) && d.server == Accepting(Accept) ==> d.pending != [])
    && (d.main.Done? ==> d.server.ServerExit?)
    && (d.main.Build? || d.main == Start(SpawnServer) <==> d.server.Unborn?)
  }

  predicate DaemonPackets(pc: MainPc, p: Pipe) {
    && (DaemonHand(pc).Some? ==> |p.popped| > 0 && DaemonHand(pc).value == |p.popped| - 1)
    && (pc == Stop(CleanPop) ==> p.queue != [])
  }

  predicate DaemonReceiver(pc: MainPc, p: Pipe) {
    && (Spawned(pc) <==> !p.receiver.NotStarted?)
    && (StopOffered(pc) && p.receiver.Recv? ==> p.chan != [])
    && (Joined(pc) ==> ReceiverDone(p))
  }

  predicate MapLocked(pc: MainPc) { pc.Loop? && (pc.l.ReadTable? || pc.l.FindOwner? || pc.l.Store?) }

  /** The daemon's threads, its pipeline and its slot in the kernel. */
  predicate DaemonInv(d: DaemonState, p: Pipe, slot: Slot, pid: nat) {
    && p.cap > 0 && slot == DaemonSlot(d.main, pid)
    && (Left(d.main) ==> !d.running)
    && (d.locked <==> MapLocked(d.main))
    && DaemonReceiver(d.main, p) && DaemonPackets(d.main, p) && SocketInv(d)
  }

  predicate NoStopIn(msgs: seq<PacketInfo>) {
    forall i :: 0 <= i < |msgs| ==> !IsStop(msgs[i])
  }

  predicate HunterPackets(pc: HunterPc, p: Pipe) {
    && (HunterHand(pc).Some? ==> |p.popped| > 0 && HunterHand(pc).value == |p.popped| - 1)
    && (pc == Leaving(HCleanPop) ==> p.queue != [])
  }

  predicate HunterInv(h: HunterState, p: Pipe, slot: Slot, pid: nat) {
    && p.cap > 0 && slot == HunterSlot(h.main, pid)
    && (HSpawned(h.main) <==> !p.receiver.NotStarted?)
    && (p.receiver.Exited? ==> !h.running)
    && (HStopOffered(h.main) || NoStopIn(p.accepted))
    && (HJoined(h.main) ==> ReceiverDone(p))
    && HunterPackets(h.main, p)
  }

  predicate KernelInv(s: Sys) {
    && s.daemonPid != 0 && s.hunterPid != 0 && s.daemonPid != s.hunterPid
    && |s.k.hooks| == |s.k.arrivals|
    && NoStopIn(s.k.arrivals) && Scannable(s.proc)
  }

  predicate DInv(s: Sys) { DaemonInv(s.d, s.dpipe, s.k.slots.daemon, s.daemonPid) }

  predicate HInv(s: Sys) { HunterInv(s.h, s.hpipe, s.k.slots.hunter, s.hunterPid) }

  predicate Inv(s: Sys) {
    PipeInv(s.dpipe) && PipeInv(s.hpipe) && KernelInv(s) && DInv(s) && HInv(s)
  }

  lemma InvInit(s: Sys)
    requires Init(s)
    ensures Inv(s)
  {}

  // ----- steps of the kernel and of the environment -----

  lemma DeliverKeeps(s: Sys, pid: nat, msg: PacketInfo, s': Sys)
    requires Inv(s) && !IsStop(msg) && s' == Deliver(s, pid, msg)
    ensures Inv(s')
  {
    OfferKeeps(s.dpipe, msg);
    OfferKeeps(s.hpipe, msg);
    hide PipeInv;
  }

  /** A step of the hook counts in the kernel and offers to at most one channel. */
  lemma HookFrame(s: Sys, r: nat, s': Sys)
    requires r < |s.k.hooks| && r < |s.k.arrivals| && s' == NextHook(s, r)
    ensures s' == s.(k := s'.k, dpipe := s'.dpipe, hpipe := s'.hpipe)
    ensures s'.k.slots == s.k.slots && s'.k.arrivals == s.k.arrivals && |s'.k.hooks| == |s.k.hooks|
    ensures s'.dpipe == s.dpipe || s'.dpipe == Offer(s.dpipe, s.k.arrivals[r])
    ensures s'.hpipe == s.hpipe || s'.hpipe == Offer(s.hpipe, s.k.arrivals[r])
  {
    hide Offer;
  }

  lemma OfferOnlyQueues(p: Pipe, msg: PacketInfo)
    ensures Offer(p, msg) == p.(chan := Offer(p, msg).chan, accepted := Offer(p, msg).accepted)
  {}

  lemma HookKeeps(s: Sys, r: nat, s': Sys)
    requires Inv(s) && Enabled(s, HookStep(r)) && s' == NextHook(s, r)
    ensures Inv(s')
  {
    var k := s.k;
    var msg := k.arrivals[r];
    if k.hooks[r].SendDaemon? { DeliverKeeps(s, k.slots.daemon.pid, msg, Deliver(s, k.slots.daemon.pid, msg)); }
    if k.hooks[r].SendHunter? { DeliverKeeps(s, k.slots.hunter.pid, msg, Deliver(s, k.slots.hunter.pid, msg)); }
    hide PipeInv, DaemonInv, HunterInv, Deliver;
  }

  predicate Environment(a: Action) {
    a.Arrive? || a.ProcChanges? || a.SignalDaemon? || a.SignalHunter? || a.OtherConnects?
    || a.OtherSends? || a.OtherCloses?
  }

  lemma EnvironmentKeeps(s: Sys, a: Action, s': Sys)
    requires Inv(s) && Enabled(s, a) && Environment(a) && s' == Next(s, a)
    ensures Inv(s')
  {
    hide PipeInv, DaemonPackets, DaemonReceiver, DaemonSlot, HunterPackets, HunterSlot, Scannable;
  }

  // ----- steps of the daemon -----

  lemma DReceiverKeeps(s: Sys, s': Sys)
    requires Inv(s) && Enabled(s, DReceiver) && s' == Next(s, DReceiver)
    ensures Inv(s')
  {
    ReceiveKeeps(s.dpipe, s.d.running);
    hide PipeInv, HunterInv, SocketInv, NoStopIn, Scannable;
  }

  /** The main thread leaves the hunter, the hooks and /proc alone. */
  predicate HunterSideSame(s: Sys, s': Sys) {
    && s'.h == s.h && s'.hpipe == s.hpipe && s'.proc == s.proc
    && s'.daemonPid == s.daemonPid && s'.hunterPid == s.hunterPid
    && s'.k == s.k.(slots := s.k.slots.(daemon := s'.k.slots.daemon))
  }

  // What a step of the construction does, point by point.

  lemma TcpShape(s: Sys, es: seq<SockEntry>, later: seq<SockEntry>, s': Sys)
    requires Scannable(s.proc) && s' == NextBuild(s, MapTcp(es, later))
    ensures s'.d.main == Build(if es == [] then MapUdp(later) else MapTcp(es[1..], later))
    ensures s'.d.portMap == if es == [] then s.d.portMap else RecordTcp(s.d.portMap, es[0], s.proc.dirs)
  {
    hide RecordTcp, ParseTable;
  }

  lemma UdpShape(s: Sys, es: seq<SockEntry>, s': Sys)
    requires Scannable(s.proc) && s' == NextBuild(s, MapUdp(es))
    ensures s'.d.main == if es == [] then Start(SpawnServer) else Build(MapUdp(es[1..]))
    ensures s'.d.portMap == if es == [] then s.d.portMap else RecordUdp(s.d.portMap, es[0], s.proc.dirs)
  {
    hide RecordUdp, ParseTable;
  }

  lemma ReadTcpShape(s: Sys, s': Sys)
    requires Scannable(s.proc) && s' == NextBuild(s, ReadTcp)
    ensures s'.d.main == Build(ReadUdp(ParseTable(s.proc.tcp, 0).value)) && s'.d.portMap == s.d.portMap
  {
    hide ParseTable;
  }

  lemma ReadUdpShape(s: Sys, tcp: seq<SockEntry>, s': Sys)
    requires Scannable(s.proc) && s' == NextBuild(s, ReadUdp(tcp))
    ensures s'.d.main == Build(MapTcp(tcp, ParseTable(s.proc.udp, 0).value)) && s'.d.portMap == s.d.portMap
  {
    hide ParseTable;
  }

  /** Constructing the map touches nothing but the map. */
  lemma BuildFrame(s: Sys, pc: BuildPc, s': Sys)
    requires Scannable(s.proc) && s' == NextBuild(s, pc)
    ensures s' == s.(d := s.d.(main := s'.d.main, portMap := s'.d.portMap))
    ensures s'.d.main.Build? || s'.d.main == Start(SpawnServer)
  {
    hide ParseTable, RecordTcp, RecordUdp, Readable;
  }

  lemma BuildKeeps(s: Sys, pc: BuildPc, s': Sys)
    requires Inv(s) && s.d.main == Build(pc) && s' == NextBuild(s, pc)
    ensures Inv(s')
  {
    BuildFrame(s, pc, s');
    hide PipeInv, HunterInv, NoStopIn, Scannable, NextBuild;
  }

  /** Starting up touches the daemon's slot in the kernel, `running`, and the threads it starts. */
  lemma StartFrame(s: Sys, pc: StartPc, s': Sys)
    requires s' == NextStart(s, pc)
    ensures s' == s.(d := s'.d, dpipe := s.dpipe.(receiver := s'.dpipe.receiver),
      k := s.k.(slots := s.k.slots.(daemon := s'.k.slots.daemon)))
    ensures s'.d == s.d.(main := s'.d.main, server := s'.d.server, running := s'.d.running)
    ensures s'.d.server == if pc.SpawnServer? then Accepting(CheckRunning) else s.d.server
    ensures s.d.running ==> s'.d.running
    ensures s'.d.main.Start? || s'.d.main == Loop(LoopTest)
  {}

  lemma StartKeeps(s: Sys, pc: StartPc, s': Sys)
    requires Inv(s) && s.d.main == Start(pc) && s' == NextStart(s, pc)
    ensures Inv(s')
  {
    hide HunterInv, NoStopIn, Scannable;
    if pc.SpawnReceiver? {
      Pipeline.StartKeeps(s.dpipe);
      hide PipeInv;
    } else {
      hide PipeInv, DaemonPackets, DaemonReceiver;
      assert s'.dpipe == s.dpipe;
      assert !Spawned(s'.d.main);
    }
  }

  lemma LoopFrame(s: Sys, pc: LoopPc, s': Sys)
    requires s.d.main == Loop(pc) && LoopEnabled(s, pc) && s' == NextLoop(s, pc)
    ensures HunterSideSame(s, s') && s'.k == s.k && s'.w == s.w
    ensures s'.dpipe == if pc.PopNext? && s.dpipe.queue != [] then Pop(s.dpipe) else s.dpipe
    ensures s'.d == s.d.(main := s'.d.main, portMap := s'.d.portMap, locked := s'.d.locked, freed := s'.d.freed)
  {
    hide PortToPidMap.AfterScan, TableFor, ParseTable, Pop;
  }

  lemma LoopGoes(s: Sys, pc: LoopPc, s': Sys)
    requires s.d.main == Loop(pc) && LoopEnabled(s, pc) && s' == NextLoop(s, pc)
    ensures s'.d.main.Loop? || (s'.d.main == Stop(UnsubStop) && !s.d.running && pc.LoopTest?)
  {
    hide PortToPidMap.AfterScan, TableFor, ParseTable, Pop;
  }

  lemma LoopLocks(s: Sys, pc: LoopPc, s': Sys)
    requires s.d.main == Loop(pc) && LoopEnabled(s, pc) && s' == NextLoop(s, pc)
    ensures (s.d.locked <==> MapLocked(s.d.main)) ==> (s'.d.locked <==> MapLocked(s'.d.main))
  {
    hide PortToPidMap.AfterScan, TableFor, ParseTable, Pop;
  }

  lemma LoopHands(s: Sys, pc: LoopPc, s': Sys)
    requires s.d.main == Loop(pc) && LoopEnabled(s, pc) && s' == NextLoop(s, pc)
    ensures DaemonHand(s'.d.main) ==
      if pc.PopNext? && s.dpipe.queue != [] then Some(s.dpipe.queue[0]) else if pc.Free? then None else LoopHand(pc)
  {
    hide PortToPidMap.AfterScan, TableFor, ParseTable, Pop;
  }

  lemma LoopMoves(s: Sys, pc: LoopPc, s': Sys)
    requires s.d.main == Loop(pc) && LoopEnabled(s, pc) && s' == NextLoop(s, pc)
    ensures s'.d.main.Loop? || (s'.d.main == Stop(UnsubStop) && !s.d.running && pc.LoopTest?)
    ensures (s.d.locked <==> MapLocked(s.d.main)) ==> (s'.d.locked <==> MapLocked(s'.d.main))
    ensures DaemonHand(s'.d.main) ==
      if pc.PopNext? && s.dpipe.queue != [] then Some(s.dpipe.queue[0]) else if pc.Free? then None else LoopHand(pc)
  {
    LoopGoes(s, pc, s');
    LoopLocks(s, pc, s');
    LoopHands(s, pc, s');
    hide NextLoop, LoopEnabled, MapLocked, DaemonHand, LoopHand;
  }

  lemma LoopKeeps(s: Sys, pc: LoopPc, s': Sys)
    requires Inv(s) && s.d.main == Loop(pc) && LoopEnabled(s, pc) && s' == NextLoop(s, pc)
    ensures Inv(s')
  {
    hide HunterInv, NoStopIn, Scannable;
    if s.dpipe.queue != [] {
      PopKeeps(s.dpipe);
      assert s.dpipe.queue[0] == |s.dpipe.popped|;
    }
    hide PipeInv, NextLoop, LoopEnabled;
    LoopFrame(s, pc, s');
    LoopMoves(s, pc, s');
  }

  lemma StopFrame(s: Sys, pc: StopPc, s': Sys)
    requires s.daemonPid != s.hunterPid && s.k.slots.daemon == DaemonSlot(s.d.main, s.daemonPid)
    requires s.d.main == Stop(pc) && StopEnabled(s, pc) && s' == NextStop(s, pc)
    ensures HunterSideSame(s, s') && s'.k.slots.daemon == DaemonSlot(s'.d.main, s.daemonPid)
    ensures s'.dpipe ==
      if pc.UnsubStop? then Offer(s.dpipe, STOP_MESSAGE) else if pc.CleanPop? then Pop(s.dpipe) else s.dpipe
    ensures s'.d == s.d.(main := s'.d.main, freed := s'.d.freed)
  {
    hide Offer, Pop;
  }

  /** Unsubscribing and draining touch the kernel, the channels and the queue; nothing else but what
      has been freed. */
  lemma StopLeaves(s: Sys, pc: StopPc, s': Sys)
    requires StopEnabled(s, pc) && s' == NextStop(s, pc)
    ensures s' == s.(d := s.d.(main := s'.d.main, freed := s'.d.freed), k := s'.k, dpipe := s'.dpipe, hpipe := s'.hpipe)
    ensures s'.dpipe.heap == s.dpipe.heap && s'.hpipe.heap == s.hpipe.heap && s'.hpipe.popped == s.hpipe.popped
  {}

  lemma StopMoves(s: Sys, pc: StopPc, s': Sys)
    requires s.d.main == Stop(pc) && StopEnabled(s, pc) && s' == NextStop(s, pc)
    ensures StopOffered(s'.d.main) && (StopOffered(s.d.main) || pc.UnsubStop?)
    ensures s'.d.main.Stop? || s'.d.main == Release(FdTest)
    ensures Joined(s'.d.main) ==> Joined(s.d.main) || ReceiverDone(s.dpipe)
    ensures s'.d.main == Stop(CleanPop) ==> pc.CleanTest? && s.dpipe.queue != []
  {
    hide Offer, Pop;
  }

  /** Once the terminate message has been offered the receiver cannot block: it was accepted, or the
      channel was full. */
  lemma OfferUnblocks(p: Pipe, msg: PacketInfo)
    requires p.cap > 0
    ensures Offer(p, msg).chan != [] && Offer(p, msg).cap == p.cap
    ensures Offer(p, msg).receiver == p.receiver && Offer(p, msg).queue == p.queue && Offer(p, msg).popped == p.popped
  {}

  lemma StopKeeps(s: Sys, pc: StopPc, s': Sys)
    requires Inv(s) && s.d.main == Stop(pc) && StopEnabled(s, pc) && s' == NextStop(s, pc)
    ensures Inv(s')
  {
    hide HunterInv, NoStopIn, Scannable;
    OfferUnblocks(s.dpipe, STOP_MESSAGE);
    if s.dpipe.queue != [] { PopKeeps(s.dpipe); }
    OfferKeeps(s.dpipe, STOP_MESSAGE);
    hide PipeInv, DaemonSlot, Offer;
    StopFrame(s, pc, s');
    StopMoves(s, pc, s');
    StopKeepsSocket(s.d, s'.d);
    hide NextStop, SocketInv;
  }

  lemma StopKeepsSocket(d: DaemonState, d': DaemonState)
    requires SocketInv(d) && d.main.Stop? && (d'.main.Stop? || d'.main == Release(FdTest))
    requires d' == d.(main := d'.main, freed := d'.freed)
    ensures SocketInv(d')
  {}

  lemma CloseFrame(s: Sys, pc: ReleasePc, s': Sys)
    requires (pc.CloseFd? || pc.ClearFd? || pc.JoinServer?) && s' == NextRelease(s, pc)
    ensures s' == s.(d := s'.d, w := s.w.(open := s'.w.open))
    ensures s'.d == s.d.(main := s'.d.main, clientFd := s'.d.clientFd, fdOpen := s'.d.fdOpen)
    ensures s'.d.main.Release? || s'.d.main.Done?
  {}

  lemma ReleaseStaysOpen(s: Sys, pc: ReleasePc, s': Sys)
    requires !pc.CloseFd? && !pc.ClearFd? && !pc.JoinServer? && s' == NextRelease(s, pc)
    ensures s' == s.(d := s'.d) && s'.d.main.Release?
    ensures s'.d == s.d.(main := s'.d.main, shutting := s'.d.shutting, rdShut := s'.d.rdShut, pending := s'.d.pending)
    ensures s'.d.pending == s.d.pending || s'.d.pending == s.d.pending + [DummyPeer]
  {}

  /** Releasing the server thread touches the connection and what is pending, and the wire when it
      closes the hunter's connection. */
  lemma ReleaseFrame(s: Sys, pc: ReleasePc, s': Sys)
    requires s' == NextRelease(s, pc)
    ensures s' == s.(d := s'.d, w := s.w.(open := s'.w.open))
    ensures s'.d == s.d.(main := s'.d.main, shutting := s'.d.shutting, clientFd := s'.d.clientFd,
      fdOpen := s'.d.fdOpen, rdShut := s'.d.rdShut, pending := s'.d.pending)
    ensures s'.d.pending == s.d.pending || s'.d.pending == s.d.pending + [DummyPeer]
    ensures s'.d.main.Release? || s'.d.main.Done?
  {
    if pc.CloseFd? || pc.ClearFd? || pc.JoinServer? { CloseFrame(s, pc, s'); } else { ReleaseStaysOpen(s, pc, s'); }
    hide NextRelease;
  }

  lemma ReleaseKeeps(s: Sys, pc: ReleasePc, s': Sys)
    requires Inv(s) && s.d.main == Release(pc) && ReleaseEnabled(s, pc) && s' == NextRelease(s, pc)
    ensures Inv(s')
  {
    hide PipeInv, HunterInv, NoStopIn, Scannable;
  }

  /** The server thread changes only where it is, the connection, and the wire; what the hunter has
      asked and received it leaves alone. */
  predicate OnlyServer(s: Sys, s': Sys) {
    && s' == s.(d := s'.d, w := s'.w)
    && s'.d == s.d.(server := s'.d.server, clientFd := s'.d.clientFd, fdOpen := s'.d.fdOpen,
      rdShut := s'.d.rdShut, pending := s'.d.pending)
    && s'.w.requests == s.w.requests && s'.w.replies == s.w.replies
  }

  lemma AssignFrame(s: Sys, peer: Peer, s': Sys)
    requires s' == NextAccept(s, Assign(peer), false)
    ensures OnlyServer(s, s') && s'.w == s.w.(otherIn := s'.w.otherIn, otherGone := s'.w.otherGone)
    ensures s'.d.server == Accepting(TestAccepted)
  {}

  lemma AcceptWaits(s: Sys, pc: AcceptPc, fails: bool, s': Sys)
    requires !pc.Assign? && AcceptEnabled(s, pc, fails) && s' == NextAccept(s, pc, fails)
    ensures s' == s.(d := s'.d)
    ensures s'.d == s.d.(server := s'.d.server, clientFd := s'.d.clientFd, pending := s'.d.pending)
    ensures s'.d.server != Serving(Read) && !s'.d.server.Unborn?
    ensures s'.d.server == Accepting(Accept) ==> s.d.running
  {}

  lemma AcceptFrame(s: Sys, pc: AcceptPc, fails: bool, s': Sys)
    requires s.d.server == Accepting(pc) && AcceptEnabled(s, pc, fails) && s' == NextAccept(s, pc, fails)
    ensures OnlyServer(s, s') && s'.w == s.w.(otherIn := s'.w.otherIn, otherGone := s'.w.otherGone)
    ensures s'.d.server != Serving(Read) && !s'.d.server.Unborn?
    ensures s'.d.server == Accepting(Accept) ==> s.d.running
  {
    if pc.Assign? {
      assert s' == NextAccept(s, pc, false);
      AssignFrame(s, pc.peer, s');
    } else {
      AcceptWaits(s, pc, fails, s');
    }
    hide NextAccept;
  }

  lemma ReadFrame(s: Sys, s': Sys)
    requires s' == NextRead(s)
    ensures s' == s.(d := s.d.(server := s'.d.server), w := s'.w)
    ensures s'.w == s.w.(toServer := s'.w.toServer, taken := s'.w.taken, otherIn := s'.w.otherIn)
    ensures s'.d.server == HangingUp(HangUpTest) || (s'.d.server.Serving? && s'.d.server.v.LookUp?)
  {}

  /** Serving touches the wire and where the server thread is, not the connection. */
  lemma ServeFrame(s: Sys, pc: ServePc, s': Sys)
    requires s.d.server == Serving(pc) && ServeEnabled(s, pc) && s' == NextServe(s, pc)
    ensures OnlyServer(s, s') && s'.d == s.d.(server := s'.d.server) && s'.w.open == s.w.open
    ensures s'.d.server == Serving(Read) ==> s.d.running
    ensures s'.d.server.Serving? || s'.d.server == HangingUp(HangUpTest)
  {
    if pc.Read? { ReadFrame(s, s'); }
    hide ReadReturns, NextRead, PortToPidMap.Reply;
  }

  lemma HangUpFrame(s: Sys, pc: HangUpPc, s': Sys)
    requires s.d.server == HangingUp(pc) && s' == NextHangUp(s, pc)
    ensures OnlyServer(s, s') && s'.w == s.w.(open := s'.w.open)
    ensures s'.d.server.HangingUp? || s'.d.server == Accepting(CheckRunning)
  {}

  lemma ServerFrame(s: Sys, fails: bool, s': Sys)
    requires DServerEnabled(s, fails) && s' == NextDServer(s, fails)
    ensures OnlyServer(s, s')
    ensures s'.d.server == Serving(Read) || s'.d.server == Accepting(Accept) ==> s.d.running
    ensures !s'.d.server.Unborn? && !s.d.server.Unborn? && !s.d.server.ServerExit?
  {
    match s.d.server
    case Accepting(pc) => AcceptFrame(s, pc, fails, s');
    case Serving(pc) => ServeFrame(s, pc, s');
    case HangingUp(pc) => HangUpFrame(s, pc, s');
    case _ =>
    hide NextAccept, NextServe, NextHangUp, ServeEnabled;
  }

  lemma DServerKeeps(s: Sys, fails: bool, s': Sys)
    requires Inv(s) && DServerEnabled(s, fails) && s' == NextDServer(s, fails)
    ensures Inv(s')
  {
    ServerFrame(s, fails, s');
    hide PipeInv, NextDServer, HunterInv, DaemonPackets, DaemonReceiver, DaemonSlot, NoStopIn, Scannable;
  }

  // ----- steps of the hunter -----

  lemma HReceiverKeeps(s: Sys, s': Sys)
    requires Inv(s) && Enabled(s, HReceiver) && s' == Next(s, HReceiver)
    ensures Inv(s')
  {
    ReceiveKeeps(s.hpipe, s.h.running);
    hide PipeInv, DaemonInv, NoStopIn, Scannable;
  }

  /** The hunter's main thread leaves the daemon alone, but for what is pending at the server. */
  predicate DaemonSideSame(s: Sys, s': Sys) {
    && s'.d == s.d.(pending := s'.d.pending) && s'.dpipe == s.dpipe
    && (s.d.pending != [] ==> s'.d.pending != [])
    && s'.proc == s.proc && s'.daemonPid == s.daemonPid && s'.hunterPid == s.hunterPid
    && s'.k == s.k.(slots := s.k.slots.(hunter := s'.k.slots.hunter))
  }

  lemma DaemonSideKept(s: Sys, s': Sys)
    requires DInv(s) && KernelInv(s) && DaemonSideSame(s, s')
    ensures DInv(s') && KernelInv(s')
  {
    hide DaemonReceiver, DaemonPackets, DaemonSlot, NoStopIn, Scannable;
  }

  lemma JoinKeeps(s: Sys, pc: JoinPc, s': Sys)
    requires Inv(s) && s.h.main == Joining(pc) && s' == NextJoin(s, pc)
    ensures Inv(s')
  {
    hide DaemonInv, NoStopIn, Scannable;
    if pc.HSpawn? { Pipeline.StartKeeps(s.hpipe); }
    hide PipeInv;
    DaemonSideKept(s, s');
  }

  lemma HuntFrame(s: Sys, pc: HuntPc, s': Sys)
    requires s.h.main == Hunting(pc) && HuntEnabled(s, pc) && s' == NextHunt(s, pc)
    ensures DaemonSideSame(s, s') && s'.k == s.k && s'.d == s.d
    ensures s'.hpipe == if pc.HPop? && s.hpipe.queue != [] then Pop(s.hpipe) else s.hpipe
  {
    hide Stored, CanSend, Pop;
  }

  lemma HuntMoves(s: Sys, pc: HuntPc, s': Sys)
    requires s.h.main == Hunting(pc) && HuntEnabled(s, pc) && s' == NextHunt(s, pc)
    ensures s'.h.main.Hunting? || s'.h.main == Leaving(HUnsubStop)
    ensures s'.h.running ==> s.h.running
    ensures HunterHand(s'.h.main).Some? ==>
      HunterHand(s'.h.main) == if pc.HPop? && s.hpipe.queue != [] then Some(s.hpipe.queue[0]) else HuntHand(pc)
    ensures HunterHand(s'.h.main).Some? && pc.HPop? ==> s.hpipe.queue != []
  {
    hide Stored, CanSend, Pop;
  }

  lemma HuntKeeps(s: Sys, pc: HuntPc, s': Sys)
    requires Inv(s) && s.h.main == Hunting(pc) && HuntEnabled(s, pc) && s' == NextHunt(s, pc)
    ensures Inv(s')
  {
    hide DaemonInv, NoStopIn, Scannable;
    if s.hpipe.queue != [] {
      PopKeeps(s.hpipe);
      assert s.hpipe.queue[0] == |s.hpipe.popped|;
    }
    hide PipeInv, NextHunt, HuntEnabled;
    HuntFrame(s, pc, s');
    HuntMoves(s, pc, s');
    DaemonSideKept(s, s');
  }

  lemma LeaveFrame(s: Sys, pc: LeavePc, save: bool, fileOpens: bool, s': Sys)
    requires s.daemonPid != s.hunterPid && s.k.slots.hunter == HunterSlot(s.h.main, s.hunterPid)
    requires s.h.main == Leaving(pc) && LeaveEnabled(s, pc) && s' == NextLeave(s, pc, save, fileOpens)
    ensures DaemonSideSame(s, s') && s'.k.slots.hunter == HunterSlot(s'.h.main, s.hunterPid)
    ensures s'.hpipe ==
      if pc.HUnsubStop? then Offer(s.hpipe, STOP_MESSAGE) else if pc.HCleanPop? then Pop(s.hpipe) else s.hpipe
  {
    hide Offer, Pop, StoredIds;
  }

  lemma LeaveMoves(s: Sys, pc: LeavePc, save: bool, fileOpens: bool, s': Sys)
    requires s.h.main == Leaving(pc) && LeaveEnabled(s, pc) && s' == NextLeave(s, pc, save, fileOpens)
    ensures s'.h.running == s.h.running && HStopOffered(s'.h.main)
    ensures HJoined(s'.h.main) ==> HJoined(s.h.main) || ReceiverDone(s.hpipe)
    ensures s'.h.main == Leaving(HCleanPop) ==> pc.HCleanTest? && s.hpipe.queue != []
  {
    hide Offer, Pop, StoredIds;
  }

  lemma LeaveKeeps(s: Sys, pc: LeavePc, save: bool, fileOpens: bool, s': Sys)
    requires Inv(s) && s.h.main == Leaving(pc) && LeaveEnabled(s, pc) && s' == NextLeave(s, pc, save, fileOpens)
    ensures Inv(s')
  {
    LeaveFrame(s, pc, save, fileOpens, s');
    LeaveMoves(s, pc, save, fileOpens, s');
    DaemonSideKept(s, s');
    if s.hpipe.queue != [] { PopKeeps(s.hpipe); }
    OfferKeeps(s.hpipe, STOP_MESSAGE);
    hide NextLeave, PipeInv, DaemonInv, NoStopIn, Scannable, HunterSlot;
  }

  // ----- every step, every run -----

  lemma DMainKeeps(s: Sys, s': Sys)
    requires Inv(s) && DMainEnabled(s) && s' == NextDMain(s)
    ensures Inv(s')
  {
    hide Inv, NextBuild, NextStart, NextLoop, NextStop, NextRelease;
    match s.d.main
    case Build(pc) => BuildKeeps(s, pc, s');
    case Start(pc) => StartKeeps(s, pc, s');
    case Loop(pc) => LoopKeeps(s, pc, s');
    case Stop(pc) => StopKeeps(s, pc, s');
    case Release(pc) => ReleaseKeeps(s, pc, s');
  }

  lemma HMainKeeps(s: Sys, save: bool, fileOpens: bool, s': Sys)
    requires Inv(s) && HMainEnabled(s) && s' == NextHMain(s, save, fileOpens)
    ensures Inv(s')
  {
    hide Inv, NextJoin, NextHunt, NextLeave;
    match s.h.main
    case Joining(pc) => JoinKeeps(s, pc, s');
    case Hunting(pc) => HuntKeeps(s, pc, s');
    case Leaving(pc) => LeaveKeeps(s, pc, save, fileOpens, s');
  }

  /** Every step keeps the invariant. */
  lemma InvNext(s: Sys, a: Action)
    requires Inv(s) && Enabled(s, a)
    ensures Inv(Next(s, a))
  {
    hide Inv, NextHook, NextDMain, NextDServer, NextHMain;
    match a
    case HookStep(r) => HookKeeps(s, r, Next(s, a));
    case DMain => DMainKeeps(s, Next(s, a));
    case DReceiver => DReceiverKeeps(s, Next(s, a));
    case DServer(acceptFails) => DServerKeeps(s, acceptFails, Next(s, a));
    case HMain(save, fileOpens) => HMainKeeps(s, save, fileOpens, Next(s, a));
    case HReceiver => HReceiverKeeps(s, Next(s, a));
    case _ => EnvironmentKeeps(s, a, Next(s, a));
  }

  /** The invariant holds in every state of every run. */
  lemma {:induction false} InvAlways(t: seq<Sys>, acts: seq<Action>, n: nat)
    requires Run(t, acts) && n < |t|
    ensures Inv(t[n])
  {
    hide Inv, Next, Enabled;
    if n == 0 {
      InvInit(t[0]);
    } else {
      InvAlways(t, acts, n - 1);
      InvNext(t[n - 1], acts[n - 1]);
    }
  }

  /** In every state of every run both processes' packets are first in, first out, and what reached
      a queue was accepted before the first terminate message. */
  lemma PacketsStayInOrder(t: seq<Sys>, acts: seq<Action>, n: nat, p: Pipe, k: nat)
    requires Run(t, acts) && n < |t| && (p == t[n].dpipe || p == t[n].hpipe)
    ensures p.popped + p.queue + InHand(p.receiver) + StopPacket(p.receiver) == Ids(|p.heap|)
    ensures p.heap + p.chan == p.accepted
    ensures forall id :: id in p.popped + p.queue ==> id < |p.heap| && !IsStop(p.heap[id])
    ensures k < |p.accepted| && IsStop(p.accepted[k]) ==> |p.popped| + |p.queue| <= k
  {
    InvAlways(t, acts, n);
    hide Run, KernelInv, DInv, HInv;
    assert PipeInv(p);
    Fifo(p);
    if k < |p.accepted| && IsStop(p.accepted[k]) { PushedBeforeFirstStop(p, k); }
  }
}
