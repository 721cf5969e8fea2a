/** The whole system as one interleaved machine: the kernel module, the daemon's main, receiver and
    server threads, the hunter's main and receiver threads, the netlink channels and the stream
    socket between hunter and daemon. An action names the thread that moves; `Enabled` says when it
    is not blocked and `Next` what one of its steps does. */
module HutKarish {
  import opened Packets
  import opened SocketTable
  import opened SocketOwner
  import opened ScanFiles
  import opened PortToPidMap
  import opened AnswerFold
  import opened Sniffer
  import opened Pipeline

  // ----- the kernel module -----

  /** Where one run of the packet hook stands. */
  datatype HookPc = TestDaemon | SendDaemon | TestHunter | SendHunter | Returned

  /** Hook runs are numbered by arrival and may all be in progress at once. The two sets record
      which runs offered their packet to which client. */
  datatype Kernel = Kernel(
    slots: Slots, arrivals: seq<PacketInfo>, hooks: seq<HookPc>,
    toDaemon: set<nat>, toHunter: set<nat>)

  // ----- the daemon -----

  /** Constructing the port map: each table is read once, each entry's owner looked up in turn. */
  datatype BuildPc =
    | ReadTcp | ReadUdp(tcp: seq<SockEntry>)
    | MapTcp(tcp: seq<SockEntry>, udp: seq<SockEntry>) | MapUdp(udp: seq<SockEntry>)

  /** Starting up; subscribing is two stores in the kernel's handler. */
  datatype StartPc = SpawnServer | SubFlag | SubPid | SetRunning | SpawnReceiver

  /** The main loop; a scan holds the writer lock from Lock to Store. */
  datatype LoopPc =
    | LoopTest | PopNext | Lock(id: nat) | ReadTable(id: nat)
    | FindOwner(id: nat, es: seq<SockEntry>) | Store(id: nat, pid: int) | Free(id: nat)

  /** Unsubscribing, which is three steps of the kernel's handler, and draining the queue. */
  datatype StopPc = UnsubStop | UnsubFlag | UnsubPid | JoinReceiver | CleanTest | CleanPop

  /** Releasing the server thread. */
  datatype ReleasePc =
    FdTest | FdShutdown | CloseTest | CloseFd | ClearFd | SetShutting | DummyConnect | JoinServer

  datatype MainPc =
    Build(b: BuildPc) | Start(u: StartPc) | Loop(l: LoopPc) | Stop(t: StopPc) | Release(r: ReleasePc) | Done

  datatype Peer = HunterPeer | OtherPeer | DummyPeer

  datatype AcceptPc = CheckRunning | Accept | Assign(peer: Peer) | TestAccepted

  /** Answering one client; `hunter` says whose request is in hand. */
  datatype ServePc = TestFd | ServeTest | Read | LookUp(port: Port, hunter: bool) | Send(pid: int, hunter: bool)

  datatype HangUpPc = HangUpTest | HangUp | HangUpClear

  datatype ServerPc = Unborn | Accepting(a: AcceptPc) | Serving(v: ServePc) | HangingUp(g: HangUpPc) | ServerExit

  datatype DaemonState = DaemonState(
    running: bool, main: MainPc, server: ServerPc,
    portMap: PortMap, locked: bool, freed: set<nat>,
    shutting: bool, clientFd: Option<Peer>, fdOpen: bool, rdShut: bool, pending: seq<Peer>)

  // ----- the stream socket -----

  /** The hunter's connection, and the input of some other client's. `requests`, `taken`, `served`
      and `replies` record what the hunter asked, the server read, the server looked up, and the
      hunter received. */
  datatype Wire = Wire(
    connected: bool, open: bool, hunterGone: bool,
    toServer: seq<Port>, toClient: seq<int>,
    requests: seq<Port>, taken: seq<Port>, served: seq<int>, replies: seq<int>,
    otherIn: seq<Port>, otherGone: bool)

  // ----- the hunter -----

  datatype JoinPc = Connect | HSubFlag | HSubPid | HSpawn

  datatype HuntPc =
    | HuntTest | HPop | HAlive | HContains(id: nat) | HSend(id: nat) | HWait(id: nat)
    | HInsert(id: nat, pid: int)

  datatype LeavePc = HUnsubStop | HUnsubFlag | HUnsubPid | HJoin | HCleanTest | HCleanPop | HChoice

  datatype HunterPc = Joining(j: JoinPc) | Hunting(u: HuntPc) | Leaving(v: LeavePc) | HDone

  /** `stopOk` records, at the terminate message, whether `running` was false or it was accepted. */
  datatype HunterState = HunterState(
    running: bool, main: HunterPc,
    index: map<int, seq<nat>>, released: bool, freed: set<nat>, dropped: set<nat>,
    stream: seq<Answer>, stopOk: bool)

  datatype Sys = Sys(
    daemonPid: nat, hunterPid: nat, proc: ProcFs, k: Kernel,
    dpipe: Pipe, hpipe: Pipe, d: DaemonState, h: HunterState, w: Wire)

  datatype Action =
    | Arrive(packet: PacketInfo) | HookStep(run: nat)
    | ProcChanges(fs: ProcFs) | SignalDaemon | SignalHunter
    | OtherConnects | OtherSends(port: Port) | OtherCloses
    | DMain | DReceiver | DServer(acceptFails: bool)
    | HMain(save: bool, fileOpens: bool) | HReceiver

  // ----- initial states -----

  /** No scan throws: the kernel prints its tables with hexadecimal ports, and the process
      directories can be read. */
  predicate Scannable(fs: ProcFs) {
    && ParseTable(fs.tcp, 0).Returns? && ParseTable(fs.udp, 0).Returns?
    && forall i :: 0 <= i < |fs.dirs| ==> Readable(fs.dirs[i])
  }

  predicate Init(s: Sys) {
    && s.daemonPid != 0 && s.hunterPid != 0 && s.daemonPid != s.hunterPid
    && Scannable(s.proc)
    && s.k == Kernel(EMPTY_SLOTS, [], [], {}, {})
    && s.dpipe == EmptyPipe(s.dpipe.cap) && s.dpipe.cap > 0
    && s.hpipe == EmptyPipe(s.hpipe.cap) && s.hpipe.cap > 0
    && s.d == DaemonState(true, Build(ReadTcp), Unborn, map[], false, {}, false, None, false, false, [])
    && s.h == HunterState(true, Joining(Connect), map[], false, {}, {}, [], false)
    && s.w == Wire(false, false, false, [], [], [], [], [], [], [], false)
  }

  // ----- kernel steps -----

  /** A unicast reaches the process whose pid it names. */
  function Deliver(s: Sys, pid: nat, msg: PacketInfo): Sys {
    if pid == s.daemonPid then s.(dpipe := Offer(s.dpipe, msg))
    else if pid == s.hunterPid then s.(hpipe := Offer(s.hpipe, msg))
    else s
  }

  predicate Subscribed(slot: Slot) { slot.subscribed && slot.pid != 0 }

  function NextHook(s: Sys, r: nat): Sys
    requires r < |s.k.hooks| && r < |s.k.arrivals|
  {
    var k := s.k;
    match k.hooks[r]
    case TestDaemon =>
      s.(k := k.(hooks := k.hooks[r := if Subscribed(k.slots.daemon) then SendDaemon else TestHunter]))
    case SendDaemon =>
      var s' := Deliver(s, k.slots.daemon.pid, k.arrivals[r]);
      s'.(k := k.(hooks := k.hooks[r := TestHunter],
        toDaemon := if k.slots.daemon.pid != 0 then k.toDaemon + {r} else k.toDaemon))
    case TestHunter =>
      s.(k := k.(hooks := k.hooks[r := if Subscribed(k.slots.hunter) then SendHunter else Returned]))
    case SendHunter =>
      var s' := Deliver(s, k.slots.hunter.pid, k.arrivals[r]);
      s'.(k := k.(hooks := k.hooks[r := Returned],
        toHunter := if k.slots.hunter.pid != 0 then k.toHunter + {r} else k.toHunter))
    case Returned => s
  }

  // ----- the daemon's main thread -----

  function Goto(s: Sys, pc: MainPc): Sys { s.(d := s.d.(main := pc)) }

  function SetDaemonSlot(s: Sys, slot: Slot): Sys { s.(k := s.k.(slots := s.k.slots.(daemon := slot))) }

  predicate LoopEnabled(s: Sys, pc: LoopPc) {
    match pc
    case ReadTable(id) => id < |s.dpipe.heap| &&
      ParseTable(TableFor(s.proc, s.dpipe.heap[id].proto), s.dpipe.heap[id].dstPort).Returns?
    case Store(id, _) => id < |s.dpipe.heap|
    case _ => true
  }

  predicate StopEnabled(s: Sys, pc: StopPc) {
    (pc.CleanPop? ==> s.dpipe.queue != []) && (pc.JoinReceiver? ==> ReceiverDone(s.dpipe))
  }

  predicate ReleaseEnabled(s: Sys, pc: ReleasePc) { pc.JoinServer? ==> s.d.server.ServerExit? }

  predicate DMainEnabled(s: Sys) {
    match s.d.main
    case Build(_) => Scannable(s.proc)
    case Start(_) => true
    case Loop(pc) => LoopEnabled(s, pc)
    case Stop(pc) => StopEnabled(s, pc)
    case Release(pc) => ReleaseEnabled(s, pc)
    case Done => false
  }

  function NextBuild(s: Sys, pc: BuildPc): Sys
    requires Scannable(s.proc)
  {
    match pc
    case ReadTcp => Goto(s, Build(ReadUdp(ParseTable(s.proc.tcp, 0).value)))
    case ReadUdp(tcp) => Goto(s, Build(MapTcp(tcp, ParseTable(s.proc.udp, 0).value)))
    case MapTcp(tcp, udp) =>
      if tcp == [] then Goto(s, Build(MapUdp(udp)))
      else
        var m := RecordTcp(s.d.portMap, tcp[0], s.proc.dirs);
        s.(d := s.d.(main := Build(MapTcp(tcp[1..], udp)), portMap := m))
    case MapUdp(udp) =>
      if udp == [] then Goto(s, Start(SpawnServer))
      else
        var m := RecordUdp(s.d.portMap, udp[0], s.proc.dirs);
        s.(d := s.d.(main := Build(MapUdp(udp[1..])), portMap := m))
  }

  function NextStart(s: Sys, pc: StartPc): Sys {
    match pc
    case SpawnServer => s.(d := s.d.(main := Start(SubFlag), server := Accepting(CheckRunning)))
    case SubFlag =>
      if s.k.slots.daemon.subscribed then Goto(s, Start(SetRunning))
      else Goto(SetDaemonSlot(s, s.k.slots.daemon.(subscribed := true)), Start(SubPid))
    case SubPid => Goto(SetDaemonSlot(s, s.k.slots.daemon.(pid := s.daemonPid)), Start(SetRunning))
    case SetRunning => s.(d := s.d.(main := Start(SpawnReceiver), running := true))
    case SpawnReceiver => Goto(s.(dpipe := s.dpipe.(receiver := Check)), Loop(LoopTest))
  }

  function NextLoop(s: Sys, pc: LoopPc): Sys
    requires LoopEnabled(s, pc)
  {
    match pc
    case LoopTest => Goto(s, if s.d.running then Loop(PopNext) else Stop(UnsubStop))
    case PopNext =>
      if s.dpipe.queue == [] then Goto(s, Loop(LoopTest))
      else Goto(s.(dpipe := Pop(s.dpipe)), Loop(Lock(s.dpipe.queue[0])))
    case Lock(id) => s.(d := s.d.(main := Loop(ReadTable(id)), locked := true))
    case ReadTable(id) =>
      var pckt := s.dpipe.heap[id];
      Goto(s, Loop(FindOwner(id, ParseTable(TableFor(s.proc, pckt.proto), pckt.dstPort).value)))
    case FindOwner(id, es) =>
      Goto(s, Loop(Store(id, if es == [] then UNKNOWN_PID else FindPid(s.proc.dirs, es[0].inode))))
    case Store(id, pid) =>
      s.(d := s.d.(main := Loop(Free(id)), locked := false,
        portMap := AfterScan(s.d.portMap, s.dpipe.heap[id].dstPort, Returns(pid))))
    case Free(id) => s.(d := s.d.(main := Loop(LoopTest), freed := s.d.freed + {id}))
  }

  function NextStop(s: Sys, pc: StopPc): Sys
    requires StopEnabled(s, pc)
  {
    match pc
    case UnsubStop => Goto(Deliver(s, s.k.slots.daemon.pid, STOP_MESSAGE), Stop(UnsubFlag))
    case UnsubFlag => Goto(SetDaemonSlot(s, s.k.slots.daemon.(subscribed := false)), Stop(UnsubPid))
    case UnsubPid => Goto(SetDaemonSlot(s, s.k.slots.daemon.(pid := 0)), Stop(JoinReceiver))
    case JoinReceiver => Goto(s, Stop(CleanTest))
    case CleanTest => Goto(s, if s.dpipe.queue == [] then Release(FdTest) else Stop(CleanPop))
    case CleanPop =>
      s.(dpipe := Pop(s.dpipe), d := s.d.(main := Stop(CleanTest), freed := s.d.freed + {s.dpipe.queue[0]}))
  }

  function NextRelease(s: Sys, pc: ReleasePc): Sys {
    match pc
    case FdTest => Goto(s, if s.d.clientFd.Some? then Release(FdShutdown) else Release(SetShutting))
    case FdShutdown => s.(d := s.d.(main := Release(CloseTest), rdShut := s.d.rdShut || s.d.clientFd.Some?))
    case CloseTest => Goto(s, if s.d.clientFd.Some? then Release(CloseFd) else Release(SetShutting))
    case CloseFd => Goto(CloseConnection(s), Release(ClearFd))
    case ClearFd => s.(d := s.d.(main := Release(SetShutting), clientFd := None))
    case SetShutting => s.(d := s.d.(main := Release(DummyConnect), shutting := true))
    case DummyConnect => s.(d := s.d.(main := Release(JoinServer), pending := s.d.pending + [DummyPeer]))
    case JoinServer => s.(d := s.d.(main := Done), w := s.w.(open := false))
  }

  /** `close(clientFd)`, whatever it names now. */
  function CloseConnection(s: Sys): Sys {
    s.(d := s.d.(fdOpen := false),
       w := if s.d.clientFd == Some(HunterPeer) then s.w.(open := false) else s.w)
  }

  function NextDMain(s: Sys): Sys
    requires DMainEnabled(s)
  {
    match s.d.main
    case Build(pc) => NextBuild(s, pc)
    case Start(pc) => NextStart(s, pc)
    case Loop(pc) => NextLoop(s, pc)
    case Stop(pc) => NextStop(s, pc)
    case Release(pc) => NextRelease(s, pc)
  }

  // ----- the daemon's server thread -----

  /** Nothing more can be read from the current connection. */
  predicate EndOfInput(s: Sys) {
    s.d.rdShut || s.d.clientFd == Some(DummyPeer)
    || (s.d.clientFd == Some(HunterPeer) && s.w.hunterGone)
    || (s.d.clientFd == Some(OtherPeer) && s.w.otherGone)
  }

  /** What has arrived on the current connection. */
  function Inbox(s: Sys): seq<Port> {
    if s.d.clientFd == Some(HunterPeer) then s.w.toServer
    else if s.d.clientFd == Some(OtherPeer) then s.w.otherIn
    else []
  }

  /** `read` returns at once: the descriptor is gone, or there is input, or there never will be. */
  predicate ReadReturns(s: Sys) {
    s.d.clientFd.None? || !s.d.fdOpen || Inbox(s) != [] || EndOfInput(s)
  }

  predicate AcceptEnabled(s: Sys, pc: AcceptPc, fails: bool) { pc.Accept? ==> fails || s.d.pending != [] }

  /** A read waits for input; a lookup waits for the writer to release the map. */
  predicate ServeEnabled(s: Sys, pc: ServePc) {
    (pc.Read? ==> ReadReturns(s)) && (pc.LookUp? ==> !s.d.locked)
  }

  predicate DServerEnabled(s: Sys, acceptFails: bool) {
    match s.d.server
    case Unborn => false
    case Accepting(pc) => AcceptEnabled(s, pc, acceptFails)
    case Serving(pc) => ServeEnabled(s, pc)
    case HangingUp(_) => true
    case ServerExit => false
  }

  function ServerGoto(s: Sys, pc: ServerPc): Sys { s.(d := s.d.(server := pc)) }

  function NextAccept(s: Sys, pc: AcceptPc, fails: bool): Sys
    requires AcceptEnabled(s, pc, fails)
  {
    match pc
    case CheckRunning => ServerGoto(s, if s.d.running then Accepting(Accept) else ServerExit)
    case Accept =>
      if fails then s.(d := s.d.(server := Accepting(TestAccepted), clientFd := None))
      else s.(d := s.d.(server := Accepting(Assign(s.d.pending[0])), pending := s.d.pending[1..]))
    case Assign(peer) =>
      s.(d := s.d.(server := Accepting(TestAccepted), clientFd := Some(peer), fdOpen := true, rdShut := false),
         w := if peer.OtherPeer? then s.w.(otherIn := [], otherGone := false) else s.w)
    case TestAccepted =>
      ServerGoto(s, if s.d.clientFd.None? || s.d.shutting then HangingUp(HangUpTest) else Serving(TestFd))
  }

  function NextRead(s: Sys): Sys {
    if s.d.clientFd.None? || !s.d.fdOpen || Inbox(s) == [] then ServerGoto(s, HangingUp(HangUpTest))
    else if s.d.clientFd == Some(HunterPeer) then
      var port := s.w.toServer[0];
      ServerGoto(s.(w := s.w.(toServer := s.w.toServer[1..], taken := s.w.taken + [port])), Serving(LookUp(port, true)))
    else
      ServerGoto(s.(w := s.w.(otherIn := s.w.otherIn[1..])), Serving(LookUp(Inbox(s)[0], false)))
  }

  function NextServe(s: Sys, pc: ServePc): Sys
    requires ServeEnabled(s, pc)
  {
    match pc
    case TestFd => ServerGoto(s, if s.d.clientFd.None? then HangingUp(HangUpTest) else Serving(ServeTest))
    case ServeTest => ServerGoto(s, if s.d.running then Serving(Read) else HangingUp(HangUpTest))
    case Read => NextRead(s)
    case LookUp(port, hunter) =>
      var pid := Reply(s.d.portMap, port);
      ServerGoto(if hunter then s.(w := s.w.(served := s.w.served + [pid])) else s, Serving(Send(pid, hunter)))
    case Send(pid, hunter) =>
      if s.d.clientFd == Some(HunterPeer) && s.d.fdOpen
      then ServerGoto(s.(w := s.w.(toClient := s.w.toClient + [pid])), Serving(ServeTest))
      else ServerGoto(s, Serving(ServeTest))
  }

  function NextHangUp(s: Sys, pc: HangUpPc): Sys {
    match pc
    case HangUpTest =>
      ServerGoto(s, if s.d.clientFd.Some? then HangingUp(HangUp) else Accepting(CheckRunning))
    case HangUp => ServerGoto(CloseConnection(s), HangingUp(HangUpClear))
    case HangUpClear => s.(d := s.d.(server := Accepting(CheckRunning), clientFd := None))
  }

  function NextDServer(s: Sys, acceptFails: bool): Sys
    requires DServerEnabled(s, acceptFails)
  {
    match s.d.server
    case Accepting(pc) => NextAccept(s, pc, acceptFails)
    case Serving(pc) => NextServe(s, pc)
    case HangingUp(pc) => NextHangUp(s, pc)
  }

  // ----- the hunter's main thread -----

  function HGoto(s: Sys, pc: HunterPc): Sys { s.(h := s.h.(main := pc)) }

  function SetHunterSlot(s: Sys, slot: Slot): Sys { s.(k := s.k.(slots := s.k.slots.(hunter := slot))) }

  /** The server's socket exists from the end of the map's construction to the daemon's exit. */
  predicate Listening(pc: MainPc) { !pc.Build? && !pc.Done? }

  /** A send on the hunter's connection succeeds. */
  predicate CanSend(s: Sys) {
    s.w.connected && s.w.open && !(s.d.clientFd == Some(HunterPeer) && s.d.rdShut)
  }

  /** The stored 5-tuples. */
  predicate Stored(index: map<int, seq<nat>>, heap: seq<PacketInfo>, f: Flow) {
    exists pid | pid in index.Keys :: exists i | 0 <= i < |index[pid]| ::
      index[pid][i] < |heap| && FlowOf(heap[index[pid][i]]) == f
  }

  /** Everything the index points to. */
  function StoredIds(index: map<int, seq<nat>>): set<nat> {
    set pid, i | pid in index && 0 <= i < |index[pid]| :: index[pid][i]
  }

  predicate HuntEnabled(s: Sys, pc: HuntPc) {
    match pc
    case HContains(id) => id < |s.hpipe.heap|
    case HSend(id) => id < |s.hpipe.heap|
    case HWait(_) => s.w.toClient != [] || !s.w.open
    case HInsert(id, _) => id < |s.hpipe.heap|
    case _ => true
  }

  predicate LeaveEnabled(s: Sys, pc: LeavePc) {
    (pc.HJoin? ==> ReceiverDone(s.hpipe)) && (pc.HCleanPop? ==> s.hpipe.queue != [])
  }

  predicate HMainEnabled(s: Sys) {
    match s.h.main
    case Joining(_) => true
    case Hunting(pc) => HuntEnabled(s, pc)
    case Leaving(pc) => LeaveEnabled(s, pc)
    case HDone => false
  }

  function NextJoin(s: Sys, pc: JoinPc): Sys {
    match pc
    case Connect =>
      var s' := HGoto(s, Joining(HSubFlag));
      if Listening(s.d.main)
      then s'.(d := s.d.(pending := s.d.pending + [HunterPeer]), w := s.w.(connected := true, open := true))
      else s'
    case HSubFlag =>
      if s.k.slots.hunter.subscribed then HGoto(s, Joining(HSpawn))
      else HGoto(SetHunterSlot(s, s.k.slots.hunter.(subscribed := true)), Joining(HSubPid))
    case HSubPid => HGoto(SetHunterSlot(s, s.k.slots.hunter.(pid := s.hunterPid)), Joining(HSpawn))
    case HSpawn => HGoto(s.(hpipe := s.hpipe.(receiver := Check)), Hunting(HuntTest))
  }

  function NextHunt(s: Sys, pc: HuntPc): Sys
    requires HuntEnabled(s, pc)
  {
    match pc
    case HuntTest => HGoto(s, if s.h.running then Hunting(HPop) else Leaving(HUnsubStop))
    case HPop =>
      if s.hpipe.queue == [] then HGoto(s, Hunting(HAlive))
      else HGoto(s.(hpipe := Pop(s.hpipe)), Hunting(HContains(s.hpipe.queue[0])))
    case HAlive => s.(h := s.h.(main := Hunting(HuntTest), running := s.h.running && CanSend(s)))
    case HContains(id) =>
      if Stored(s.h.index, s.hpipe.heap, FlowOf(s.hpipe.heap[id]))
      then s.(h := s.h.(main := Hunting(HuntTest), dropped := s.h.dropped + {id},
        stream := s.h.stream + [Answer(s.hpipe.heap[id], UNKNOWN_PID)]))
      else HGoto(s, Hunting(HSend(id)))
    case HSend(id) =>
      var port := s.hpipe.heap[id].dstPort;
      if CanSend(s)
      then HGoto(s.(w := s.w.(toServer := s.w.toServer + [port], requests := s.w.requests + [port])),
        Hunting(HWait(id)))
      else s.(h := s.h.(main := Leaving(HUnsubStop), dropped := s.h.dropped + {id}))
    case HWait(id) =>
      if s.w.toClient != []
      then HGoto(s.(w := s.w.(toClient := s.w.toClient[1..], replies := s.w.replies + [s.w.toClient[0]])),
        Hunting(HInsert(id, s.w.toClient[0])))
      else s.(h := s.h.(main := Leaving(HUnsubStop), dropped := s.h.dropped + {id}))
    case HInsert(id, pid) =>
      var h := s.h.(main := Hunting(HuntTest), stream := s.h.stream + [Answer(s.hpipe.heap[id], pid)]);
      if pid == UNKNOWN_PID then s.(h := h.(dropped := h.dropped + {id}))
      else s.(h := h.(index := h.index[pid := (if pid in h.index then h.index[pid] else []) + [id]]))
  }

  function NextLeave(s: Sys, pc: LeavePc, save: bool, fileOpens: bool): Sys
    requires LeaveEnabled(s, pc)
  {
    match pc
    case HUnsubStop =>
      var s' := Deliver(s, s.k.slots.hunter.pid, STOP_MESSAGE);
      s'.(h := s.h.(main := Leaving(HUnsubFlag), stopOk := !s.h.running || |s.hpipe.chan| < s.hpipe.cap))
    case HUnsubFlag => HGoto(SetHunterSlot(s, s.k.slots.hunter.(subscribed := false)), Leaving(HUnsubPid))
    case HUnsubPid => HGoto(SetHunterSlot(s, s.k.slots.hunter.(pid := 0)), Leaving(HJoin))
    case HJoin => HGoto(s, Leaving(HCleanTest))
    case HCleanTest => HGoto(s, if s.hpipe.queue == [] then Leaving(HChoice) else Leaving(HCleanPop))
    case HCleanPop =>
      s.(hpipe := Pop(s.hpipe), h := s.h.(main := Leaving(HCleanTest), freed := s.h.freed + {s.hpipe.queue[0]}))
    case HChoice =>
      var ids := StoredIds(s.h.index);
      var h := s.h.(main := HDone, released := true);
      s.(w := s.w.(hunterGone := true),
         h := if save && !fileOpens then h.(dropped := h.dropped + ids) else h.(freed := h.freed + ids))
  }

  function NextHMain(s: Sys, save: bool, fileOpens: bool): Sys
    requires HMainEnabled(s)
  {
    match s.h.main
    case Joining(pc) => NextJoin(s, pc)
    case Hunting(pc) => NextHunt(s, pc)
    case Leaving(pc) => NextLeave(s, pc, save, fileOpens)
  }

  // ----- one step of the whole system -----

  predicate Enabled(s: Sys, a: Action) {
    match a
    case Arrive(p) => Supported(p) && !IsStop(p)
    case HookStep(r) => r < |s.k.hooks| && r < |s.k.arrivals| && s.k.hooks[r] != Returned
    case ProcChanges(fs) => Scannable(fs)
    case OtherConnects => Listening(s.d.main)
    case DMain => DMainEnabled(s)
    case DReceiver => CanReceive(s.dpipe)
    case DServer(acceptFails) => DServerEnabled(s, acceptFails)
    case HMain(_, _) => HMainEnabled(s)
    case HReceiver => CanReceive(s.hpipe)
    case _ => true
  }

  function Next(s: Sys, a: Action): Sys
    requires Enabled(s, a)
  {
    match a
    case Arrive(p) => s.(k := s.k.(arrivals := s.k.arrivals + [p], hooks := s.k.hooks + [TestDaemon]))
    case HookStep(r) => NextHook(s, r)
    case ProcChanges(fs) => s.(proc := fs)
    case SignalDaemon => s.(d := s.d.(running := false))
    case SignalHunter => s.(h := s.h.(running := false))
    case OtherConnects => s.(d := s.d.(pending := s.d.pending + [OtherPeer]))
    case OtherSends(port) => s.(w := s.w.(otherIn := s.w.otherIn + [port]))
    case OtherCloses => s.(w := s.w.(otherGone := true))
    case DMain => NextDMain(s)
    case DReceiver => s.(dpipe := Receive(s.dpipe, s.d.running))
    case DServer(acceptFails) => NextDServer(s, acceptFails)
    case HMain(save, fileOpens) => NextHMain(s, save, fileOpens)
    case HReceiver => s.(hpipe := Receive(s.hpipe, s.h.running))
  }

  // ----- runs -----

  /** States `t[0]`, `t[1]`, ... linked by the actions. */
  ghost predicate Linked(t: seq<Sys>, acts: seq<Action>) {
    && |t| == |acts| + 1
    && forall i :: 0 <= i < |acts| ==> Enabled(t[i], acts[i]) && t[i + 1] == Next(t[i], acts[i])
  }

  ghost predicate Run(t: seq<Sys>, acts: seq<Action>) {
    Linked(t, acts) && Init(t[0])
  }
}
