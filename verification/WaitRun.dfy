/** Signalled hunters that wait for ever do occur: one whose daemon has lost its server thread to an
    early signal, and one whose daemon is serving a silent client. */
module WaitRun {
  import opened Packets
  import opened Sniffer
  import opened Pipeline
  import opened HutKarish
  import opened Reach
  import HangRun
  import opened EarlySignal
  import opened HunterSignal
  import opened ReplyWait

  /** The hunter has yet to start; the daemon is subscribed. */
  predicate HunterToCome(s: Sys) {
    && s.h == HunterState(true, Joining(Connect), map[], false, {}, {}, [], false)
    && s.hpipe == EmptyPipe(s.hpipe.cap) && s.hpipe.cap > 0
    && s.w == Wire(false, false, false, [], [], [], [], [], [], [], false)
    && s.k.slots == Slots(Slot(false, 0), Slot(true, s.daemonPid)) && |s.k.hooks| == |s.k.arrivals|
    && s.daemonPid != 0 && s.hunterPid != 0 && s.daemonPid != s.hunterPid
    && Listening(s.d.main) && s.d.clientFd != Some(HunterPeer)
  }

  /** The hunter connects, subscribes and starts its receiver. */
  lemma JoinUp(s: Sys) returns (s': Sys)
    requires Reachable(s) && HunterToCome(s)
    ensures Reachable(s') && s'.k == s.k.(slots := s.k.slots.(hunter := Slot(true, s.hunterPid)))
    ensures s'.h == s.h.(main := Hunting(HuntTest)) && s'.hpipe == s.hpipe.(receiver := Check)
    ensures s'.w == s.w.(connected := true, open := true) && s'.d == s.d.(pending := s.d.pending + [HunterPeer])
    ensures s' == s.(k := s'.k, h := s'.h, hpipe := s'.hpipe, w := s'.w, d := s'.d)
  {
    hide Reachable, Scannable;
    ReachNext(s, HMain(false, false));
    var s1 := Next(s, HMain(false, false));
    ReachNext(s1, HMain(false, false));
    var s2 := Next(s1, HMain(false, false));
    ReachNext(s2, HMain(false, false));
    var s3 := Next(s2, HMain(false, false));
    ReachNext(s3, HMain(false, false));
    s' := Next(s3, HMain(false, false));
  }

  /** A packet arrives and one run of the hook offers it to both. */
  lemma Capture(s: Sys, p: PacketInfo) returns (s': Sys)
    requires Reachable(s) && Supported(p) && !IsStop(p) && |s.k.hooks| == |s.k.arrivals|
    requires s.k.slots == Slots(Slot(true, s.hunterPid), Slot(true, s.daemonPid))
    requires s.daemonPid != 0 && s.hunterPid != 0 && s.daemonPid != s.hunterPid
    ensures Reachable(s') && s' == s.(k := s'.k, dpipe := Offer(s.dpipe, p), hpipe := Offer(s.hpipe, p))
  {
    hide Reachable, Offer, Supported, IsStop;
    var r := |s.k.hooks|;
    ReachNext(s, Arrive(p));
    var s1 := Next(s, Arrive(p));
    ReachNext(s1, HookStep(r));
    var s2 := Next(s1, HookStep(r));
    ReachNext(s2, HookStep(r));
    var s3 := Next(s2, HookStep(r));
    ReachNext(s3, HookStep(r));
    var s4 := Next(s3, HookStep(r));
    ReachNext(s4, HookStep(r));
    s' := Next(s4, HookStep(r));
  }

  /** The main loop takes the packet and asks about it. */
  lemma AskOut(s: Sys) returns (s': Sys)
    requires Reachable(s) && s.h.running && s.h.main == Hunting(HuntTest) && s.h.index == map[]
    requires s.hpipe.queue == [0] && |s.hpipe.heap| == 1 && s.hpipe.receiver.Check?
    requires s.w.connected && s.w.open && s.w.toClient == [] && s.d.clientFd != Some(HunterPeer)
    ensures Reachable(s') && s'.h == s.h.(main := Hunting(HWait(0))) && s'.hpipe == Pop(s.hpipe) && s'.d == s.d
    ensures
      var port := s.hpipe.heap[0].dstPort;
      s'.w == s.w.(toServer := s.w.toServer + [port], requests := s.w.requests + [port])
    ensures s' == s.(h := s'.h, hpipe := s'.hpipe, w := s'.w)
  {
    hide Reachable, Pop;
    ReachNext(s, HMain(false, false));
    var s1 := Next(s, HMain(false, false));
    ReachNext(s1, HMain(false, false));
    var s2 := Next(s1, HMain(false, false));
    HangRun.PopHeap(s.hpipe);
    ReachNext(s2, HMain(false, false));
    var s3 := Next(s2, HMain(false, false));
    ReachNext(s3, HMain(false, false));
    s' := Next(s3, HMain(false, false));
  }

  /** A signal comes, and the receiver ends. */
  lemma SignalWaiting(s: Sys) returns (s': Sys)
    requires Reachable(s) && AwaitsReply(s) && s.hpipe.receiver.Check?
    ensures Reachable(s') && AwaitsReply(s') && !s'.h.running && AtRest(s') && s'.d == s.d && s'.w == s.w
  {
    hide Reachable;
    ReachNext(s, SignalHunter);
    var s1 := Next(s, SignalHunter);
    ReachNext(s1, HReceiver);
    s' := Next(s1, HReceiver);
  }

  lemma AskAndWait(s: Sys, p: PacketInfo) returns (s': Sys)
    requires Reachable(s) && HunterToCome(s) && Supported(p) && !IsStop(p)
    ensures Reachable(s') && AwaitsReply(s') && !s'.h.running && AtRest(s')
    ensures s'.d == s.d.(pending := s.d.pending + [HunterPeer])
    ensures s'.w.otherIn == s.w.otherIn && s'.w.otherGone == s.w.otherGone
  {
    hide Reachable, Next, Enabled, IsStop, Supported, AtRest;
    var s1 := JoinUp(s);
    var s2 := Capture(s1, p);
    var s3 := HangRun.ReceiveOne(s2, p);
    var s4 := AskOut(s3);
    s' := SignalWaiting(s4);
  }

  /** From any initial state: a hunter is signalled and waits, at rest, for a daemon that runs on without
      its server thread. By NobodyAnswers it waits until the daemon is told to stop. */
  lemma ServerlessWaitIsReachable(s: Sys, p: PacketInfo) returns (s': Sys)
    requires Init(s) && Supported(p) && !IsStop(p)
    ensures Reachable(s') && AwaitsReply(s') && !s'.h.running && AtRest(s') && Serverless(s')
  {
    hide Reachable, Next, Enabled, AwaitsReply, IsStop, Supported, AtRest;
    var s1 := ServerlessIsReachable(s);
    assert HunterToCome(s1);
    s' := AskAndWait(s1, p);
  }

  /** The daemon starts. */
  lemma DaemonUp(s: Sys) returns (s': Sys)
    requires Init(s)
    ensures Reachable(s') && HunterToCome(s')
    ensures s'.dpipe == s.dpipe.(receiver := Check) && s'.hpipe == s.hpipe && s'.h == s.h && s'.w == s.w
    ensures s'.d == s.d.(main := Loop(LoopTest), server := Accepting(CheckRunning), portMap := s'.d.portMap)
  {
    hide Reachable, Scannable;
    ReachInit(s);
    var s1 := BuildUp(s);
    ReachNext(s1, DMain);
    var s2 := Next(s1, DMain);
    ReachNext(s2, DMain);
    var s3 := Next(s2, DMain);
    ReachNext(s3, DMain);
    var s4 := Next(s3, DMain);
    ReachNext(s4, DMain);
    var s5 := Next(s4, DMain);
    ReachNext(s5, DMain);
    s' := Next(s5, DMain);
  }

  /** The daemon starts, and its server thread takes up another client, which says nothing. */
  lemma ServeOther(s: Sys) returns (s': Sys)
    requires Init(s)
    ensures Reachable(s') && HunterToCome(s') && s'.d.running && s'.d.main == Loop(LoopTest) && !s'.d.locked
    ensures s'.d.server == Serving(Read) && s'.d.clientFd == Some(OtherPeer) && s'.d.fdOpen && !s'.d.rdShut
    ensures s'.w.otherIn == [] && !s'.w.otherGone
  {
    hide Reachable, Scannable;
    var s1 := DaemonUp(s);
    s' := TakeUpOther(s1);
  }

  lemma TakeUpOther(s: Sys) returns (s': Sys)
    requires Reachable(s) && s.d.running && s.d.server == Accepting(CheckRunning) && s.d.pending == []
    requires Listening(s.d.main) && !s.d.shutting && s.w.otherIn == [] && !s.w.otherGone
    ensures Reachable(s')
    ensures s' == s.(d := s.d.(server := Serving(Read), clientFd := Some(OtherPeer), fdOpen := true, rdShut := false))
  {
    hide Reachable;
    ReachNext(s, OtherConnects);
    var s1 := Next(s, OtherConnects);
    ReachNext(s1, DServer(false));
    var s2 := Next(s1, DServer(false));
    ReachNext(s2, DServer(false));
    var s3 := Next(s2, DServer(false));
    ReachNext(s3, DServer(false));
    var s4 := Next(s3, DServer(false));
    ReachNext(s4, DServer(false));
    var s5 := Next(s4, DServer(false));
    ReachNext(s5, DServer(false));
    var s6 := Next(s5, DServer(false));
    ReachNext(s6, DServer(false));
    s' := Next(s6, DServer(false));
  }

  /** From any initial state: a hunter is signalled and waits, at rest, while the server thread waits for
      another client to say something. By IdleForEver it waits until that speaks or hangs up. */
  lemma BusyWaitIsReachable(s: Sys, p: PacketInfo) returns (s': Sys)
    requires Init(s) && Supported(p) && !IsStop(p)
    ensures Reachable(s') && AwaitsReply(s') && !s'.h.running && AtRest(s')
    ensures s'.d.running && SilentClient(s') && s'.d.clientFd == Some(OtherPeer)
  {
    hide Reachable, Next, Enabled, AwaitsReply, IsStop, Supported, AtRest, HunterToCome;
    var s1 := ServeOther(s);
    s' := AskAndWait(s1, p);
  }
}
