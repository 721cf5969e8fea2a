/** The hunter's join really can hang: a run from an initial state, with no daemon to answer yet, in
    which the main loop is left by `break` while the channel is full. */
module HangRun {
  import opened Packets
  import opened Sniffer
  import opened Pipeline
  import opened HutKarish
  import opened Invariants
  import opened HunterShutdown
  import opened Reach

  /** The hunter starts while the daemon is still building its map. */
  lemma JoinUp(s: Sys) returns (s': Sys)
    requires Init(s)
    ensures Reachable(s') && s'.k == s.k.(slots := Slots(Slot(true, s.hunterPid), Slot(false, 0)))
    ensures s'.h == s.h.(main := Hunting(HuntTest)) && s'.hpipe == s.hpipe.(receiver := Check) && s'.w == s.w
    ensures s'.d == s.d && s'.daemonPid == s.daemonPid && s'.hunterPid == s.hunterPid
  {
    hide Reachable, Scannable;
    ReachInit(s);
    ReachNext(s, HMain(false, false));
    var s1 := Next(s, HMain(false, false));
    ReachNext(s1, HMain(false, false));
    var s2 := Next(s1, HMain(false, false));
    ReachNext(s2, HMain(false, false));
    var s3 := Next(s2, HMain(false, false));
    ReachNext(s3, HMain(false, false));
    s' := Next(s3, HMain(false, false));
  }

  /** A packet arrives and one uninterrupted run of the hook offers it to the hunter. */
  lemma Capture(s: Sys, p: PacketInfo) returns (s': Sys)
    requires Reachable(s) && Supported(p) && !IsStop(p) && |s.k.hooks| == |s.k.arrivals|
    requires s.k.slots == Slots(Slot(true, s.hunterPid), Slot(false, 0))
    requires s.hunterPid != 0 && s.hunterPid != s.daemonPid
    ensures Reachable(s') && s' == s.(k := s'.k, hpipe := Offer(s.hpipe, p))
    ensures s'.k.slots == s.k.slots && |s'.k.hooks| == |s'.k.arrivals|
  {
    hide Reachable, Offer, Supported, IsStop;
    var r := |s.k.hooks|;
    ReachNext(s, Arrive(p));
    var s1 := Next(s, Arrive(p));
    ReachNext(s1, HookStep(r));
    var s2 := Next(s1, HookStep(r));
    ReachNext(s2, HookStep(r));
    var s3 := Next(s2, HookStep(r));
    ReachNext(s3, HookStep(r));
    s' := Next(s3, HookStep(r));
  }

  /** The receiver moves the one message to the queue. */
  lemma ReceiveOne(s: Sys, p: PacketInfo) returns (s': Sys)
    requires Reachable(s) && s.h.running && !IsStop(p) && s.hpipe.chan == [p] && s.hpipe.heap == []
    requires s.hpipe.receiver.Check? && s.hpipe.queue == []
    ensures Reachable(s') && s' == s.(hpipe := s.hpipe.(chan := [], heap := [p], queue := [0]))
  {
    hide Reachable, IsStop;
    ReachNext(s, HReceiver);
    var s1 := Next(s, HReceiver);
    ReachNext(s1, HReceiver);
    var s2 := Next(s1, HReceiver);
    ReachNext(s2, HReceiver);
    var s3 := Next(s2, HReceiver);
    ReachNext(s3, HReceiver);
    s' := Next(s3, HReceiver);
  }

  /** The main loop takes the packet, fails to send its port and breaks. */
  lemma BreakOut(s: Sys) returns (s': Sys)
    requires Reachable(s) && s.h.running && s.h.main == Hunting(HuntTest) && s.h.index == map[]
    requires s.hpipe.queue == [0] && |s.hpipe.heap| == 1 && !s.w.connected
    ensures Reachable(s') && s'.h.main == Leaving(HUnsubStop) && s'.h.running
    ensures s'.hpipe == Pop(s.hpipe) && s'.k == s.k
  {
    hide Reachable, Pop;
    ReachNext(s, HMain(false, false));
    var s1 := Next(s, HMain(false, false));
    ReachNext(s1, HMain(false, false));
    var s2 := Next(s1, HMain(false, false));
    assert Pop(s.hpipe).heap == s.hpipe.heap by { PopHeap(s.hpipe); }
    ReachNext(s2, HMain(false, false));
    var s3 := Next(s2, HMain(false, false));
    ReachNext(s3, HMain(false, false));
    s' := Next(s3, HMain(false, false));
  }

  lemma PopHeap(p: Pipe)
    requires p.queue != []
    ensures Pop(p).heap == p.heap && Pop(p).chan == p.chan && Pop(p).cap == p.cap
  {}

  /** Captures until the hunter's channel is full. */
  lemma {:induction false} Fill(s: Sys, p: PacketInfo) returns (s': Sys)
    requires Reachable(s) && Supported(p) && !IsStop(p) && |s.k.hooks| == |s.k.arrivals|
    requires s.k.slots == Slots(Slot(true, s.hunterPid), Slot(false, 0))
    requires s.hunterPid != 0 && s.hunterPid != s.daemonPid && |s.hpipe.chan| <= s.hpipe.cap
    ensures Reachable(s') && s' == s.(k := s'.k, hpipe := s'.hpipe)
    ensures s'.hpipe == s.hpipe.(chan := s'.hpipe.chan, accepted := s'.hpipe.accepted)
    ensures |s'.hpipe.chan| == s'.hpipe.cap
    decreases s.hpipe.cap - |s.hpipe.chan|
  {
    hide Reachable, Supported, IsStop;
    if |s.hpipe.chan| == s.hpipe.cap {
      s' := s;
    } else {
      var s1 := Capture(s, p);
      s' := Fill(s1, p);
    }
  }

  /** From any initial state, whatever the channel's capacity, a run leaves the hunter's main thread
      in join and its receiver in recv; by StuckForEver that is the end of it. */
  lemma StuckIsReachable(s: Sys, p: PacketInfo) returns (stuck: Sys)
    requires Init(s) && Supported(p) && !IsStop(p)
    ensures Reachable(stuck) && Stuck(stuck)
  {
    hide Reachable, IsStop, Supported, Stuck, Next, Enabled, Inv;
    var s1 := JoinUp(s);
    var s2 := Capture(s1, p);
    var s3 := ReceiveOne(s2, p);
    var s4 := Fill(s3, p);
    var s5 := BreakOut(s4);
    PopHeap(s4.hpipe);
    ReachableInv(s5);
    var t, acts := FullChannelCanHang(s5);
    MainMayLeave(s5);
    ReachNext(s5, HMain(false, false));
    ReachAlong(t, acts);
    stuck := t[|acts|];
  }

  lemma MainMayLeave(s: Sys)
    requires s.h.main == Leaving(HUnsubStop)
    ensures Enabled(s, HMain(false, false))
  {}
}
