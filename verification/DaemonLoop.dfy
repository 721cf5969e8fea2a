/** The daemon's main loop over runs: it is left only once a signal has cleared `running`, until then it
    takes every packet queued in its turn, and it scans for the port of every packet it takes. */
module DaemonLoop {
  import opened SocketTable
  import opened ScanFiles
  import opened PortToPidMap
  import opened Pipeline
  import opened HutKarish
  import opened Invariants
  import Shutdown
  import EarlySignal
  import opened ScansOverRuns

  // ----- when it is left -----

  /** The loop's test sees `running` false. */
  predicate SeesStop(s: Sys, a: Action) { a.DMain? && s.d.main == Loop(LoopTest) && !s.d.running }

  lemma DMainLeaves(s: Sys, s': Sys)
    requires DMainEnabled(s) && s' == NextDMain(s)
    ensures Left(s'.d.main) <==> Left(s.d.main) || SeesStop(s, DMain)
  {
    match s.d.main
    case Build(pc) => BuildFrame(s, pc, s');
    case Start(pc) => StartFrame(s, pc, s');
    case Loop(pc) => LoopLeaves(s, pc, s');
    case Stop(pc) => StopMoves(s, pc, s');
    case Release(pc) => ReleaseFrame(s, pc, s');
    hide NextBuild, NextStart, NextLoop, NextStop, NextRelease, LoopEnabled, Scannable;
  }

  lemma LoopLeaves(s: Sys, pc: LoopPc, s': Sys)
    requires s.d.main == Loop(pc) && LoopEnabled(s, pc) && s' == NextLoop(s, pc)
    ensures if pc.LoopTest? && !s.d.running then s'.d.main == Stop(UnsubStop) else s'.d.main.Loop?
  {
    hide AfterScan, TableFor, ParseTable, Pop;
  }

  lemma LeftStep(s: Sys, a: Action)
    requires Enabled(s, a)
    ensures Left(Next(s, a).d.main) <==> Left(s.d.main) || SeesStop(s, a)
  {
    if a.DMain? { DMainLeaves(s, Next(s, a)); hide NextDMain, DMainEnabled; }
    else { OthersKeepMap(s, a); hide Next, Enabled; }
  }

  /** The loop has been left exactly when its test has seen `running` false, which takes a signal. */
  lemma {:induction false} LoopLeftIff(t: seq<Sys>, acts: seq<Action>, n: nat)
    requires Run(t, acts) && n <= |acts|
    ensures Left(t[n].d.main) <==> exists i :: 0 <= i < n && SeesStop(t[i], acts[i])
    ensures Left(t[n].d.main) ==> exists i :: 0 <= i < n && acts[i].SignalDaemon?
  {
    hide Next, Enabled, SeesStop;
    if n == 0 {
      assert t[0].d.main.Build?;
    } else {
      hide Init;
      LoopLeftIff(t, acts, n - 1);
      LeftStep(t[n - 1], acts[n - 1]);
      if SeesStop(t[n - 1], acts[n - 1]) {
        StopSeen(t[n - 1], acts[n - 1]);
        EarlySignal.ServerEndedIff(t, acts, n - 1);
      }
    }
  }

  lemma StopSeen(s: Sys, a: Action)
    requires SeesStop(s, a)
    ensures !s.d.running
  {}

  // ----- it takes every packet -----

  /** A step of the main loop that takes the oldest packet. */
  predicate Pops(s: Sys, a: Action) { a.DMain? && s.d.main == Loop(PopNext) && s.dpipe.queue != [] }

  /** Steps of the main loop before it next looks in the queue. */
  function PopRank(pc: LoopPc): nat {
    match pc
    case PopNext => 0 case LoopTest => 1 case Free(_) => 2 case Store(_, _) => 3
    case FindOwner(_, _) => 4 case ReadTable(_) => 5 case Lock(_) => 6
  }

  lemma NearsPop(s: Sys, pc: LoopPc, s': Sys)
    requires s.d.main == Loop(pc) && LoopEnabled(s, pc) && s' == NextLoop(s, pc) && s.d.running && !pc.PopNext?
    ensures s'.d.main.Loop? && PopRank(s'.d.main.l) < PopRank(pc)
  {
    hide AfterScan, TableFor, ParseTable;
  }

  lemma PopTakes(s: Sys, a: Action)
    requires Pops(s, a)
    ensures Enabled(s, a) && Next(s, a).d.main == Loop(Lock(s.dpipe.queue[0]))
    ensures Next(s, a).dpipe == Pop(s.dpipe)
  {}

  function MainSteps(acts: seq<Action>, k: nat, n: nat): nat
    requires k <= n <= |acts|
  {
    if n == k then 0 else MainSteps(acts, k, n - 1) + if acts[n - 1].DMain? then 1 else 0
  }

  predicate InLoop(d: DaemonState) { d.main.Loop? && d.running }

  lemma OthersLeaveLoop(s: Sys, a: Action)
    requires Inv(s) && Enabled(s, a) && !a.DMain?
    ensures Next(s, a).d.main == s.d.main && (!a.SignalDaemon? ==> Next(s, a).d.running == s.d.running)
    ensures s.dpipe.queue <= Next(s, a).dpipe.queue && Next(s, a).dpipe.popped == s.dpipe.popped
  {
    if a.DServer? { ServerFrame(s, a.acceptFails, Next(s, a)); }
    if a.HMain? { Shutdown.HMainLeavesDaemon(s, a.save, a.fileOpens, Next(s, a)); }
    if a.HookStep? {
      HookFrame(s, a.run, Next(s, a));
      OfferOnlyQueues(s.dpipe, s.k.arrivals[a.run]);
    }
    hide Inv, NextDServer, NextHMain, NextHook, DServerEnabled, HMainEnabled, Offer;
  }

  lemma DaemonStep(s: Sys, a: Action)
    requires Inv(s) && Enabled(s, a) && InLoop(s.d) && s.dpipe.queue != [] && !a.SignalDaemon? && !Pops(s, a)
    ensures InLoop(Next(s, a).d) && Next(s, a).dpipe.queue != [] && Next(s, a).dpipe.queue[0] == s.dpipe.queue[0]
    ensures PopRank(Next(s, a).d.main.l) + (if a.DMain? then 1 else 0) <= PopRank(s.d.main.l)
  {
    if a.DMain? {
      NearsPop(s, s.d.main.l, Next(s, a));
      LoopFrame(s, s.d.main.l, Next(s, a));
      hide NextLoop, LoopEnabled;
    } else {
      OthersLeaveLoop(s, a);
      hide Inv, Next, Enabled;
    }
  }

  /** As long as no signal comes the loop goes on, and takes the oldest packet in the queue within its
      next seven steps, each of which it can take at once. */
  lemma {:induction false} PopComes(t: seq<Sys>, acts: seq<Action>, k: nat, n: nat)
    requires Run(t, acts) && k <= n <= |acts| && InLoop(t[k].d) && t[k].dpipe.queue != []
    requires forall i :: k <= i < n ==> !acts[i].SignalDaemon? && !Pops(t[i], acts[i])
    ensures InLoop(t[n].d) && t[n].dpipe.queue != [] && t[n].dpipe.queue[0] == t[k].dpipe.queue[0]
    ensures MainSteps(acts, k, n) + PopRank(t[n].d.main.l) <= PopRank(t[k].d.main.l) <= 6
    ensures Enabled(t[n], DMain)
    decreases n
  {
    hide Init, Inv, Next, Enabled, Pops;
    InvAlways(t, acts, n);
    if k < n {
      PopComes(t, acts, k, n - 1);
      InvAlways(t, acts, n - 1);
      DaemonStep(t[n - 1], acts[n - 1]);
    }
    LoopMovesOn(t[n]);
  }

  lemma LoopMovesOn(s: Sys)
    requires Inv(s)
    ensures s.d.main.Loop? ==> Enabled(s, DMain)
  {
    if s.d.main.Loop? { Shutdown.MainMovesUnlessJoining(s); }
    hide Inv, DMainEnabled;
  }

  // ----- it scans for every packet -----

  /** The packet is in hand and its scan not yet stored. */
  predicate InScan(pc: MainPc, id: nat) {
    pc.Loop? && (pc.l.Lock? || pc.l.ReadTable? || pc.l.FindOwner? || pc.l.Store?) && pc.l.id == id
  }

  /** A step before `n` stores the scan for packet `id`. */
  ghost predicate Scanned(t: seq<Sys>, acts: seq<Action>, n: nat, id: nat)
    requires n <= |acts| < |t|
  {
    exists k :: 0 <= k < n && Stores(t[k], acts[k]) && t[k].d.main.l.id == id
  }

  lemma LoopScans(s: Sys, pc: LoopPc, s': Sys, id: nat)
    requires s.d.main == Loop(pc) && LoopEnabled(s, pc) && s' == NextLoop(s, pc)
    ensures InScan(s.d.main, id) ==> InScan(s'.d.main, id) || pc.Store?
    ensures InScan(s.d.main, id) ==> s.d.main.l.id == id
    ensures id in s'.dpipe.popped ==> id in s.dpipe.popped || InScan(s'.d.main, id)
  {
    hide AfterScan, TableFor, ParseTable;
  }

  lemma ScanNext(s: Sys, a: Action, id: nat)
    requires Inv(s) && Enabled(s, a) && Next(s, a).d.main.Loop?
    ensures !s.d.main.Loop? ==> Next(s, a).dpipe.popped == []
    ensures InScan(s.d.main, id) ==> InScan(Next(s, a).d.main, id) || (Stores(s, a) && s.d.main.l.id == id)
    ensures id in Next(s, a).dpipe.popped ==> id in s.dpipe.popped || InScan(Next(s, a).d.main, id)
  {
    if a.DMain? {
      DMainScans(s, Next(s, a), id);
      hide Inv, NextDMain, DMainEnabled, InScan;
    } else {
      OthersLeaveLoop(s, a);
      hide Inv, Next, Enabled, InScan;
    }
  }

  lemma NothingPoppedYet(s: Sys)
    requires Inv(s) && s.d.main.Start?
    ensures s.dpipe.popped == []
  {
    hide KernelInv, HInv, SocketInv, DaemonPackets, DaemonSlot;
  }

  lemma DMainScans(s: Sys, s': Sys, id: nat)
    requires Inv(s) && DMainEnabled(s) && s' == NextDMain(s) && s'.d.main.Loop?
    ensures !s.d.main.Loop? ==> s'.dpipe.popped == []
    ensures InScan(s.d.main, id) ==> InScan(s'.d.main, id) || (Stores(s, DMain) && s.d.main.l.id == id)
    ensures id in s'.dpipe.popped ==> id in s.dpipe.popped || InScan(s'.d.main, id)
  {
    match s.d.main
    case Build(pc) => BuildFrame(s, pc, s');
    case Start(pc) => StartFrame(s, pc, s'); NothingPoppedYet(s);
    case Loop(pc) => LoopScans(s, pc, s', id);
    case Stop(pc) => StopMoves(s, pc, s');
    case Release(pc) => ReleaseFrame(s, pc, s');
    hide Inv, NextBuild, NextStart, NextLoop, NextStop, NextRelease, LoopEnabled, Scannable;
  }

  /** Every packet the loop has taken has been scanned for, or is being. */
  lemma {:induction false} EveryPoppedIsScanned(t: seq<Sys>, acts: seq<Action>, n: nat, id: nat)
    requires Run(t, acts) && n <= |acts| && t[n].d.main.Loop? && id in t[n].dpipe.popped
    ensures InScan(t[n].d.main, id) || Scanned(t, acts, n, id)
  {
    hide Inv, Next, Enabled, InScan, Stores;
    assert n > 0;
    hide Init;
    InvAlways(t, acts, n - 1);
    assert Enabled(t[n - 1], acts[n - 1]) && t[n] == Next(t[n - 1], acts[n - 1]);
    ScanNext(t[n - 1], acts[n - 1], id);
    if t[n - 1].d.main.Loop? && id in t[n - 1].dpipe.popped {
      EveryPoppedIsScanned(t, acts, n - 1, id);
    }
  }
}
