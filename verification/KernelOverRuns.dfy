/** The kernel module over whole runs, with any number of hook runs in progress at once and the
    handler's statements as separate steps: what reaches the channels, and in which order the two
    clients are offered a packet. */
module KernelOverRuns {
  import opened Packets
  import opened Sniffer
  import opened Pipeline
  import opened HutKarish
  import opened Invariants
  import HunterShutdown
  import Shutdown

  // ----- the steps add up to the module's functions -----

  /** Hand messages to netlink one after the other. */
  function DeliverAll(s: Sys, sent: seq<Sent>): Sys
    decreases |sent|
  {
    if sent == [] then s else DeliverAll(Deliver(s, sent[0].pid, sent[0].msg), sent[1..])
  }

  /** The main threads' subscribing steps, not interrupted, are the handler's effect. */
  lemma SubscribeSteps(s: Sys)
    ensures s.d.main == Start(SubFlag) && !s.k.slots.daemon.subscribed ==>
      var s' := NextStart(NextStart(s, SubFlag), SubPid);
      s'.k.slots == SlotsAfter(s.k.slots, Command(Subscribe(Daemon), s.daemonPid))
    ensures s.h.main == Joining(HSubFlag) && !s.k.slots.hunter.subscribed ==>
      var s' := NextJoin(NextJoin(s, HSubFlag), HSubPid);
      s'.k.slots == SlotsAfter(s.k.slots, Command(Subscribe(Hunter), s.hunterPid))
  {
    CommandsDiffer();
  }

  /** One terminate message to the pid held then, and the slot emptied. */
  lemma UnsubscribeEffect(s: Sys, c: Client, sender: nat)
    ensures DeliverAll(s, StopSent(s.k.slots, Command(Unsubscribe(c), sender))) ==
      Deliver(s, s.k.slots.Of(c).pid, STOP_MESSAGE)
    ensures SlotsAfter(s.k.slots, Command(Unsubscribe(c), sender)) ==
      if c.Hunter? then s.k.slots.(hunter := Slot(false, 0)) else s.k.slots.(daemon := Slot(false, 0))
  {
    hide Deliver;
    CommandsDiffer();
    assert Unsubscribe(Hunter) == "packet_hunter_unsubscribe" && Unsubscribe(Daemon) == "daemon_unsubscribe";
    assert [Sent(s.k.slots.Of(c).pid, STOP_MESSAGE)][1..] == [];
  }

  /** And so are the three steps of unsubscribing. */
  lemma DaemonUnsubscribeSteps(s: Sys)
    ensures
      var cmd := Command(Unsubscribe(Daemon), s.daemonPid);
      var s' := NextStop(NextStop(NextStop(s, UnsubStop), UnsubFlag), UnsubPid);
      && s'.k.slots == SlotsAfter(s.k.slots, cmd)
      && s'.dpipe == DeliverAll(s, StopSent(s.k.slots, cmd)).dpipe
      && s'.hpipe == DeliverAll(s, StopSent(s.k.slots, cmd)).hpipe
  {
    UnsubscribeEffect(s, Daemon, s.daemonPid);
    hide Offer, StopSent, SlotsAfter, DeliverAll;
  }

  lemma HunterUnsubscribeSteps(s: Sys, save: bool, fileOpens: bool)
    ensures
      var cmd := Command(Unsubscribe(Hunter), s.hunterPid);
      var s1 := NextLeave(s, HUnsubStop, save, fileOpens);
      var s' := NextLeave(NextLeave(s1, HUnsubFlag, save, fileOpens), HUnsubPid, save, fileOpens);
      && s'.k.slots == SlotsAfter(s.k.slots, cmd)
      && s'.dpipe == DeliverAll(s, StopSent(s.k.slots, cmd)).dpipe
      && s'.hpipe == DeliverAll(s, StopSent(s.k.slots, cmd)).hpipe
  {
    UnsubscribeEffect(s, Hunter, s.hunterPid);
    hide Offer, StopSent, SlotsAfter, DeliverAll;
  }

  /** A hook run that nothing interrupts offers its packet as the hook does: daemon first. */
  lemma HookSteps(s: Sys, r: nat)
    requires r < |s.k.hooks| && r < |s.k.arrivals| && s.k.hooks[r] == TestDaemon
    ensures
      var s1 := NextHook(s, r);
      var s2 := if s1.k.hooks[r].SendDaemon? then NextHook(s1, r) else s1;
      var s3 := NextHook(s2, r);
      var s4 := if s3.k.hooks[r].SendHunter? then NextHook(s3, r) else s3;
      && s4.k.hooks[r] == Returned
      && s4.dpipe == DeliverAll(s, Offers(s.k.slots, s.k.arrivals[r])).dpipe
      && s4.hpipe == DeliverAll(s, Offers(s.k.slots, s.k.arrivals[r])).hpipe
  {
    var k, p := s.k.slots, s.k.arrivals[r];
    var first := if Subscribed(k.daemon) then Deliver(s, k.daemon.pid, p) else s;
    assert DeliverAll(s, Offers(k, p)) == (if Subscribed(k.hunter) then Deliver(first, k.hunter.pid, p) else first) by {
      DeliverTwo(s, Sent(k.daemon.pid, p), Sent(k.hunter.pid, p));
      hide Deliver;
    }
    hide Offer, DeliverAll, Offers;
  }

  lemma DeliverOne(s: Sys, a: Sent)
    ensures DeliverAll(s, [a]) == Deliver(s, a.pid, a.msg)
  {
    hide Deliver;
    assert [a][1..] == [];
  }

  lemma DeliverTwo(s: Sys, a: Sent, b: Sent)
    ensures DeliverAll(s, [a] + []) == Deliver(s, a.pid, a.msg)
    ensures DeliverAll(s, [] + [b]) == Deliver(s, b.pid, b.msg)
    ensures DeliverAll(s, [a] + [b]) == Deliver(Deliver(s, a.pid, a.msg), b.pid, b.msg)
    ensures DeliverAll(s, [] + []) == s
  {
    hide Deliver;
    DeliverOne(s, a);
    DeliverOne(s, b);
    DeliverOne(Deliver(s, a.pid, a.msg), b);
    assert ([a] + [b])[1..] == [b] && [a] + [] == [a] && [] + [b] == [b];
  }

  // ----- nothing is invented -----

  /** Every message a channel accepted is a terminate message or a packet the hook was run on. */
  predicate Sourced(msgs: seq<PacketInfo>, arrivals: seq<PacketInfo>) {
    forall i :: 0 <= i < |msgs| ==> IsStop(msgs[i]) || msgs[i] in arrivals
  }

  predicate ArrivalsSupported(ps: seq<PacketInfo>) { forall i :: 0 <= i < |ps| ==> Supported(ps[i]) }

  predicate SourceInv(s: Sys) {
    && Sourced(s.dpipe.accepted, s.k.arrivals) && Sourced(s.hpipe.accepted, s.k.arrivals)
    && ArrivalsSupported(s.k.arrivals)
  }

  // ----- the order of the offers -----

  /** How far a hook run has got is what it has offered; no run offers to a client twice. */
  predicate OffersInv(k: Kernel) {
    && (forall r :: r in k.toDaemon ==> r < |k.hooks| && !k.hooks[r].TestDaemon? && !k.hooks[r].SendDaemon?)
    && (forall r :: r in k.toHunter ==> r < |k.hooks| && k.hooks[r].Returned?)
  }

  /** Run `r` and later ones have offered to the daemon what they have offered or may be about to
      offer to the hunter. */
  predicate DaemonFirst(k: Kernel, first: nat) {
    forall r :: first <= r < |k.hooks| && !k.hooks[r].TestDaemon? && !k.hooks[r].SendDaemon? ==> r in k.toDaemon
  }

  lemma HookKeepsOffers(s: Sys, r: nat, s': Sys)
    requires Enabled(s, HookStep(r)) && OffersInv(s.k) && s' == NextHook(s, r)
    ensures OffersInv(s'.k) && s'.k.slots == s.k.slots && s'.k.arrivals == s.k.arrivals && |s'.k.hooks| == |s.k.hooks|
    ensures s.k.hooks[r].SendDaemon? ==> r !in s.k.toDaemon
    ensures s.k.hooks[r].SendHunter? ==> r !in s.k.toHunter
  {
    hide Offer;
  }

  lemma HookKeepsDaemonFirst(s: Sys, r: nat, first: nat, s': Sys)
    requires Enabled(s, HookStep(r)) && DaemonFirst(s.k, first) && Subscribed(s.k.slots.daemon)
    requires s' == NextHook(s, r)
    ensures DaemonFirst(s'.k, first)
  {
    hide Offer;
  }

  lemma HookKeepsSources(s: Sys, r: nat, s': Sys)
    requires Enabled(s, HookStep(r)) && SourceInv(s) && s' == NextHook(s, r)
    ensures SourceInv(s')
  {
    assert s.k.arrivals[r] in s.k.arrivals;
    hide Supported;
  }

  /** Only the hook and arriving packets change the kernel's record of hook runs; only the hook and
      the two unsubscribes put anything into a channel. */
  predicate KernelQuiet(s: Sys, s': Sys) {
    && s'.k == s.k.(slots := s'.k.slots)
    && (s'.dpipe.accepted == s.dpipe.accepted || s'.dpipe.accepted == s.dpipe.accepted + [STOP_MESSAGE])
    && (s'.hpipe.accepted == s.hpipe.accepted || s'.hpipe.accepted == s.hpipe.accepted + [STOP_MESSAGE])
  }

  lemma QuietKeepsKernel(s: Sys, s': Sys, first: nat)
    requires SourceInv(s) && OffersInv(s.k) && KernelQuiet(s, s')
    ensures SourceInv(s') && OffersInv(s'.k)
    ensures DaemonFirst(s.k, first) ==> DaemonFirst(s'.k, first)
  {
    hide Supported;
  }

  lemma DMainQuiet(s: Sys, s': Sys)
    requires Inv(s) && DMainEnabled(s) && s' == NextDMain(s)
    ensures KernelQuiet(s, s')
  {
    HunterShutdown.DMainLeavesHunter(s, s');
    match s.d.main
    case Build(pc) => BuildFrame(s, pc, s');
    case Start(pc) => StartFrame(s, pc, s');
    case Loop(pc) => LoopFrame(s, pc, s');
    case Stop(pc) => StopFrame(s, pc, s');
    case Release(pc) => ReleaseFrame(s, pc, s');
    hide NextBuild, NextStart, NextLoop, NextStop, NextRelease, Inv, LoopEnabled;
  }

  lemma HMainQuiet(s: Sys, save: bool, fileOpens: bool, s': Sys)
    requires Inv(s) && HMainEnabled(s) && s' == NextHMain(s, save, fileOpens)
    ensures KernelQuiet(s, s')
  {
    Shutdown.HMainLeavesDaemon(s, save, fileOpens, s');
    match s.h.main
    case Joining(pc) => JoinQuiet(s, pc, s');
    case Hunting(pc) => HuntFrame(s, pc, s');
    case Leaving(pc) => LeaveFrame(s, pc, save, fileOpens, s');
    hide NextJoin, NextHunt, NextLeave, Inv, HuntEnabled;
  }

  lemma JoinQuiet(s: Sys, pc: JoinPc, s': Sys)
    requires s' == NextJoin(s, pc)
    ensures s'.k == s.k.(slots := s'.k.slots) && s'.hpipe.accepted == s.hpipe.accepted
  {}

  /** Everything but the hook and a packet's arrival. */
  lemma OthersQuiet(s: Sys, a: Action)
    requires Inv(s) && Enabled(s, a) && !a.HookStep? && !a.Arrive?
    ensures KernelQuiet(s, Next(s, a))
  {
    match a {
      case DMain => DMainQuiet(s, Next(s, a));
      case DServer(fails) => ServerFrame(s, fails, Next(s, a));
      case HMain(save, fileOpens) => HMainQuiet(s, save, fileOpens, Next(s, a));
      case _ =>
    }
    hide Inv, NextDMain, NextDServer, NextHMain, DMainEnabled, DServerEnabled, HMainEnabled;
  }

  ghost predicate KernelRunInv(s: Sys) { SourceInv(s) && OffersInv(s.k) }

  lemma ArriveKeepsKernel(s: Sys, p: PacketInfo, s': Sys, first: nat)
    requires KernelRunInv(s) && Supported(p)
    requires s'.k == s.k.(arrivals := s.k.arrivals + [p], hooks := s.k.hooks + [TestDaemon])
    requires s'.dpipe == s.dpipe && s'.hpipe == s.hpipe
    ensures KernelRunInv(s') && (DaemonFirst(s.k, first) ==> DaemonFirst(s'.k, first))
  {
    assert forall q :: q in s.k.arrivals ==> q in s'.k.arrivals;
  }

  lemma KernelNext(s: Sys, a: Action, first: nat)
    requires Inv(s) && KernelRunInv(s) && Enabled(s, a)
    ensures KernelRunInv(Next(s, a))
    ensures DaemonFirst(s.k, first) && Subscribed(s.k.slots.daemon) ==> DaemonFirst(Next(s, a).k, first)
  {
    hide Inv, SourceInv, OffersInv, DaemonFirst, NextHook;
    if a.HookStep? {
      HookKeepsOffers(s, a.run, Next(s, a));
      HookKeepsSources(s, a.run, Next(s, a));
      if DaemonFirst(s.k, first) && Subscribed(s.k.slots.daemon) {
        HookKeepsDaemonFirst(s, a.run, first, Next(s, a));
      }
    } else if a.Arrive? {
      ArriveKeepsKernel(s, a.packet, Next(s, a), first);
    } else {
      OthersQuiet(s, a);
      hide Next, Enabled;
      QuietKeepsKernel(s, Next(s, a), first);
    }
  }

  lemma {:induction false} KernelAlways(t: seq<Sys>, acts: seq<Action>, n: nat)
    requires Run(t, acts) && n < |t|
    ensures Inv(t[n]) && KernelRunInv(t[n])
  {
    hide Inv, KernelRunInv, Next, Enabled;
    InvAlways(t, acts, n);
    if n == 0 {
      KernelInit(t[0]);
    } else {
      KernelAlways(t, acts, n - 1);
      KernelNext(t[n - 1], acts[n - 1], 0);
    }
  }

  lemma KernelInit(s: Sys)
    requires Init(s)
    ensures KernelRunInv(s)
  {}

  lemma {:induction false} DaemonFirstAlways(t: seq<Sys>, acts: seq<Action>, a: nat, n: nat)
    requires Run(t, acts) && a <= n < |t|
    requires forall i :: a <= i < n ==> Subscribed(t[i].k.slots.daemon)
    ensures DaemonFirst(t[n].k, |t[a].k.arrivals|)
    decreases n
  {
    hide Inv, KernelRunInv, Next, Enabled, DaemonFirst, Subscribed;
    if n == a {
      KernelAlways(t, acts, a);
      NoRunYet(t[a]);
    } else {
      DaemonFirstAlways(t, acts, a, n - 1);
      KernelAlways(t, acts, n - 1);
      KernelNext(t[n - 1], acts[n - 1], |t[a].k.arrivals|);
    }
  }

  lemma NoRunYet(s: Sys)
    requires Inv(s)
    ensures DaemonFirst(s.k, |s.k.arrivals|)
  {
    hide PipeInv, DInv, HInv;
  }

  /** The runs of the hook on a given packet, from run `first` on. */
  ghost function RunsOn(k: Kernel, offered: set<nat>, first: nat, p: PacketInfo): set<nat> {
    set r | r in offered && first <= r < |k.arrivals| && k.arrivals[r] == p
  }

  /** Daemon first: as long as the daemon stays subscribed, whatever hook runs interleave, a packet
      arriving from then on has been offered to the hunter at most as often as to the daemon, and
      each offer to the hunter comes from a run that has offered to the daemon before. */
  lemma OfferedToDaemonFirst(t: seq<Sys>, acts: seq<Action>, a: nat, n: nat, p: PacketInfo)
    requires Run(t, acts) && a <= n < |t|
    requires forall i :: a <= i < n ==> Subscribed(t[i].k.slots.daemon)
    ensures
      var first, k := |t[a].k.arrivals|, t[n].k;
      && RunsOn(k, k.toHunter, first, p) <= RunsOn(k, k.toDaemon, first, p)
      && |RunsOn(k, k.toHunter, first, p)| <= |RunsOn(k, k.toDaemon, first, p)|
  {
    DaemonFirstAlways(t, acts, a, n);
    KernelAlways(t, acts, n);
    hide Run, Inv, Subscribed, SourceInv;
    var first, k := |t[a].k.arrivals|, t[n].k;
    SubsetCounts(RunsOn(k, k.toHunter, first, p), RunsOn(k, k.toDaemon, first, p));
  }

  lemma {:induction false} SubsetCounts(a: set<nat>, b: set<nat>)
    requires a <= b
    ensures |a| <= |b|
  {
    assert b == a + (b - a);
  }
}
