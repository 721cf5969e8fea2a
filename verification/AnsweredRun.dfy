/** Hunters are answered: whatever reportable packet a process answers for, a run from every initial
    state leaves the hunter with that packet stored under the process's pid. */
module AnsweredRun {
  import opened Packets
  import opened Text
  import opened SocketTable
  import opened SocketOwner
  import opened ScanFiles
  import opened PortToPidMap
  import opened AnswerFold
  import opened Pipeline
  import opened HutKarish
  import opened Reach
  import opened SampleProc
  import opened TwoScans
  import opened ScansOverRuns
  import HangRun
  import WaitRun

  // ----- the process to be found -----

  /** One socket, on the packet's destination port and in the table of its protocol, and its holder. */
  function ProcFor(p: PacketInfo, pid: nat, inode: nat): ProcFs {
    var table := TableOf([(inode, p.dstPort)]);
    if p.proto == 'T' then ProcFs(table, [], [Process(pid, inode)])
    else ProcFs([], table, [Process(pid, inode)])
  }

  lemma ScanFinds(p: PacketInfo, pid: nat, inode: nat)
    requires Supported(p) && 0 < pid <= INT_MAX && inode != 0
    ensures Scannable(ProcFor(p, pid, inode))
    ensures ScanForPid(ProcFor(p, pid, inode), p.dstPort, p.proto) == Returns(pid)
  {
    hide ParseTable, TableOf, Process, Decimal, Readable, ScanForPid;
    NoLines(0);
    OneEntry(inode, p.dstPort);
    HolderIsFound(pid, inode);
    var udpOnly, tcpOnly := EachProtocolHasItsTable(p.dstPort, pid, inode);
  }

  // ----- the daemon -----

  /** Its receiver moves the one message to the queue. */
  lemma ReceiveOne(s: Sys, p: PacketInfo) returns (s': Sys)
    requires Reachable(s) && s.d.running && !IsStop(p) && s.dpipe.chan == [p] && s.dpipe.heap == []
    requires s.dpipe.receiver.Check? && s.dpipe.queue == []
    ensures Reachable(s') && s' == s.(dpipe := s.dpipe.(chan := [], heap := [p], queue := [0]))
  {
    hide Reachable, IsStop;
    ReachNext(s, DReceiver);
    var s1 := Next(s, DReceiver);
    ReachNext(s1, DReceiver);
    var s2 := Next(s1, DReceiver);
    ReachNext(s2, DReceiver);
    var s3 := Next(s2, DReceiver);
    ReachNext(s3, DReceiver);
    s' := Next(s3, DReceiver);
  }

  /** Its main loop takes the packet, */
  lemma TakePacket(s: Sys) returns (s': Sys)
    requires Reachable(s) && s.d.running && s.d.main == Loop(LoopTest) && s.dpipe.queue == [0]
    ensures Reachable(s') && s' == s.(d := s.d.(main := Loop(Lock(0))), dpipe := Pop(s.dpipe))
  {
    hide Reachable, Pop;
    ReachNext(s, DMain);
    var s1 := Next(s, DMain);
    ReachNext(s1, DMain);
    s' := Next(s1, DMain);
  }

  /** One step of a scan. */
  lemma ScanStep(s: Sys, pc: LoopPc, s': Sys)
    requires Reachable(s) && s.d.main == Loop(pc) && LoopEnabled(s, pc) && s' == NextLoop(s, pc)
    ensures Reachable(s')
  {
    hide Reachable, NextLoop, LoopEnabled;
    ReachNext(s, DMain);
  }

  /** scans for its port, */
  lemma ScanForIt(s: Sys, id: nat) returns (s': Sys)
    requires Reachable(s) && Scannable(s.proc) && s.d.main == Loop(Lock(id)) && id < |s.dpipe.heap|
    ensures Reachable(s')
    ensures
      var p := s.dpipe.heap[id];
      s' == s.(d := s.d.(main := Loop(Free(id)), locked := false,
        portMap := AfterScan(s.d.portMap, p.dstPort, ScanForPid(s.proc, p.dstPort, p.proto))))
  {
    ScanSteps(s, id);
    var p := s.dpipe.heap[id];
    var es := ParseTable(TableFor(s.proc, p.proto), p.dstPort).value;
    var s1 := NextLoop(s, Lock(id));
    assert s1 == s.(d := s.d.(main := Loop(ReadTable(id)), locked := true));
    assert LoopEnabled(s, Lock(id)) && LoopEnabled(s1, ReadTable(id));
    hide Reachable, NextLoop, AfterScan, ScanForPid, Scannable, ParseTable, Walk, TableFor;
    ScanStep(s, Lock(id), s1);
    ReadTableShape(s1, id);
    var s2 := NextLoop(s1, ReadTable(id));
    ScanStep(s1, ReadTable(id), s2);
    FindOwnerShape(s2, id, es);
    var s3 := NextLoop(s2, FindOwner(id, es));
    ScanStep(s2, FindOwner(id, es), s3);
    StoreShape(s3, id, s3.d.main.l.pid);
    s' := NextLoop(s3, s3.d.main.l);
    ScanStep(s3, s3.d.main.l, s');
  }

  /** and maps it. */
  lemma LearnPort(s: Sys, p: PacketInfo, pid: nat, inode: nat) returns (s': Sys)
    requires Reachable(s) && s.proc == ProcFor(p, pid, inode) && Supported(p) && 0 < pid <= INT_MAX && inode != 0
    requires s.d.running && s.d.main == Loop(LoopTest) && s.dpipe.heap == [p] && s.dpipe.queue == [0] && !s.d.locked
    ensures Reachable(s') && s' == s.(dpipe := s'.dpipe,
      d := s.d.(main := Loop(Free(0)), portMap := s.d.portMap[p.dstPort := pid]))
  {
    hide Reachable, ProcFor, ScanForPid, Scannable, Pop, Supported;
    ScanFinds(p, pid, inode);
    var s1 := TakePacket(s);
    HangRun.PopHeap(s.dpipe);
    s' := ScanForIt(s1, 0);
  }

  /** Its server thread takes the hunter's connection up, */
  lemma TakeUp(s: Sys) returns (s': Sys)
    requires Reachable(s) && s.d.running && s.d.server == Accepting(CheckRunning) && s.d.pending == [HunterPeer]
    requires !s.d.shutting
    ensures Reachable(s')
    ensures s' == s.(d := s.d.(server := Serving(Read), pending := [], clientFd := Some(HunterPeer),
      fdOpen := true, rdShut := false))
  {
    hide Reachable;
    ReachNext(s, DServer(false));
    var s1 := Next(s, DServer(false));
    ReachNext(s1, DServer(false));
    var s2 := Next(s1, DServer(false));
    ReachNext(s2, DServer(false));
    var s3 := Next(s2, DServer(false));
    ReachNext(s3, DServer(false));
    var s4 := Next(s3, DServer(false));
    ReachNext(s4, DServer(false));
    var s5 := Next(s4, DServer(false));
    ReachNext(s5, DServer(false));
    s' := Next(s5, DServer(false));
  }

  /** and answers. */
  lemma AnswerIt(s: Sys, port: Port, pid: nat) returns (s': Sys)
    requires Reachable(s) && s.d.server == Serving(Read) && s.d.clientFd == Some(HunterPeer) && s.d.fdOpen
    requires s.w.toServer == [port] && s.w.toClient == [] && !s.d.locked && Lookup(s.d.portMap, port) == pid != 0
    ensures Reachable(s') && s'.w.toClient == [pid] && s'.w.replies == s.w.replies && s'.w.requests == s.w.requests
    ensures s' == s.(d := s.d.(server := s'.d.server), w := s'.w)
  {
    hide Reachable;
    ReachNext(s, DServer(false));
    var s1 := Next(s, DServer(false));
    ReachNext(s1, DServer(false));
    var s2 := Next(s1, DServer(false));
    ReachNext(s2, DServer(false));
    s' := Next(s2, DServer(false));
  }

  // ----- the hunter -----

  /** It receives the reply and stores the packet. */
  lemma StoreIt(s: Sys, pid: nat) returns (s': Sys)
    requires Reachable(s) && s.h.main == Hunting(HWait(0)) && s.w.toClient == [pid] && |s.hpipe.heap| == 1
    requires s.h.index == map[]
    ensures Reachable(s') && s'.h.main == Hunting(HuntTest) && s'.h.running == s.h.running
    ensures s'.h.index == map[pid := [0]] && s'.h.stream == s.h.stream + [Answer(s.hpipe.heap[0], pid)]
    ensures s' == s.(h := s'.h, w := s.w.(toClient := [], replies := s.w.replies + [pid]))
  {
    hide Reachable;
    ReachNext(s, HMain(false, false));
    var s1 := Next(s, HMain(false, false));
    ReachNext(s1, HMain(false, false));
    var none: seq<nat> := [];
    assert none + [0] == [0];
    s' := Next(s1, HMain(false, false));
  }

  // ----- the run -----

  /** Daemon and hunter start, the process appears, and a packet to it arrives. */
  lemma BothCapture(s: Sys, p: PacketInfo, fs: ProcFs) returns (s': Sys)
    requires Init(s) && Supported(p) && !IsStop(p) && Scannable(fs)
    ensures Reachable(s') && s'.proc == fs
    ensures s'.d == s.d.(main := Loop(LoopTest), server := Accepting(CheckRunning), portMap := s'.d.portMap,
      pending := [HunterPeer])
    ensures s'.dpipe == s.dpipe.(receiver := Check, chan := [p], accepted := [p])
    ensures s'.hpipe == s.hpipe.(receiver := Check, chan := [p], accepted := [p])
    ensures s'.h == s.h.(main := Hunting(HuntTest)) && s'.w == s.w.(connected := true, open := true)
  {
    hide Reachable, Scannable, Supported, IsStop, Offer;
    var s1 := WaitRun.DaemonUp(s);
    ReachNext(s1, ProcChanges(fs));
    var s2 := Next(s1, ProcChanges(fs));
    var s3 := WaitRun.JoinUp(s2);
    s' := WaitRun.Capture(s3, p);
    FirstOffer(s3.dpipe, p);
    FirstOffer(s3.hpipe, p);
  }

  lemma FirstOffer(q: Pipe, p: PacketInfo)
    requires q.chan == [] && q.accepted == [] && q.cap > 0
    ensures Offer(q, p) == q.(chan := [p], accepted := [p])
  {
    var none: seq<PacketInfo> := [];
    assert none + [p] == [p];
  }

  /** The daemon scans for the packet's port, and the hunter asks about it. */
  lemma BothHandle(s: Sys, p: PacketInfo, pid: nat, inode: nat) returns (s': Sys)
    requires Init(s) && Supported(p) && !IsStop(p) && 0 < pid <= INT_MAX && inode != 0
    ensures Reachable(s') && s'.proc == ProcFor(p, pid, inode)
    ensures s'.d == s.d.(main := Loop(Free(0)), server := Accepting(CheckRunning), portMap := s'.d.portMap,
      pending := [HunterPeer])
    ensures Lookup(s'.d.portMap, p.dstPort) == pid
    ensures s'.h == s.h.(main := Hunting(HWait(0))) && s'.hpipe.heap == [p]
    ensures s'.w == s.w.(connected := true, open := true, toServer := [p.dstPort], requests := [p.dstPort])
  {
    hide Reachable, Scannable, Supported, IsStop, ProcFor;
    ScanFinds(p, pid, inode);
    var s1 := BothCapture(s, p, ProcFor(p, pid, inode));
    hide Init;
    var s2 := ReceiveOne(s1, p);
    var s3 := LearnPort(s2, p, pid, inode);
    var s4 := HangRun.ReceiveOne(s3, p);
    s' := WaitRun.AskOut(s4);
  }

  /** From every initial state, for every packet the hook reports and every pid and inode: the daemon
      finds the process by the packet, the hunter asks, is answered, and stores the packet. */
  lemma AnAnswerIsReachable(s: Sys, p: PacketInfo, pid: nat, inode: nat) returns (s': Sys)
    requires Init(s) && Supported(p) && !IsStop(p) && 0 < pid <= INT_MAX && inode != 0
    ensures Reachable(s') && s'.h.running && s'.d.running && s'.h.main == Hunting(HuntTest)
    ensures s'.w.requests == [p.dstPort] && s'.w.replies == [pid]
    ensures s'.h.index == map[pid := [0]] && s'.hpipe.heap == [p] && s'.h.stream == [Answer(p, pid)]
    ensures Lookup(s'.d.portMap, p.dstPort) == pid
  {
    hide Reachable, Scannable, Supported, IsStop, ProcFor;
    var s1 := BothHandle(s, p, pid, inode);
    var s2 := TakeUp(s1);
    var s3 := AnswerIt(s2, p.dstPort, pid);
    s' := StoreIt(s3, pid);
  }
}
