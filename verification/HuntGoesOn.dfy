/** When the hunter's main loop goes on and when it ends: `running` is cleared and the loop is left for
    the reasons named here and no others; until then every packet queued is popped in its turn, and its
    port asked about exactly when its 5-tuple has had no known answer. */
module HuntGoesOn {
  import opened Packets
  import opened AnswerFold
  import opened Pipeline
  import opened HutKarish
  import opened Invariants
  import opened HunterSignal
  import opened Connection
  import HuntOverRuns

  // ----- when `running` is cleared -----

  /** The loop finds the connection down when it looks whether the daemon is alive. */
  predicate FindsDaemonGone(s: Sys, a: Action) {
    a.HMain? && s.h.main == Hunting(HAlive) && ConnectionDown(s)
  }

  lemma HuntRunning(s: Sys, pc: HuntPc, s': Sys)
    requires s.h.main == Hunting(pc) && HuntEnabled(s, pc) && s' == NextHunt(s, pc)
    ensures s'.h.running == (s.h.running && !(pc.HAlive? && ConnectionDown(s)))
  {
    hide Stored;
  }

  lemma LeaveRunning(s: Sys, pc: LeavePc, save: bool, fileOpens: bool, s': Sys)
    requires LeaveEnabled(s, pc) && s' == NextLeave(s, pc, save, fileOpens)
    ensures s'.h.running == s.h.running
  {
    hide StoredIds;
  }

  lemma JoinRunning(s: Sys, pc: JoinPc, s': Sys)
    requires s' == NextJoin(s, pc)
    ensures s'.h.running == s.h.running
  {}

  /** Exactly these steps clear it, and none sets it again. */
  lemma RunningStep(s: Sys, a: Action)
    requires Enabled(s, a)
    ensures Next(s, a).h.running <==> s.h.running && !a.SignalHunter? && !FindsDaemonGone(s, a)
  {
    hide ConnectionDown, NextJoin, NextHunt, NextLeave, HuntEnabled, LeaveEnabled;
    if a.HMain? {
      match s.h.main
      case Joining(pc) => JoinRunning(s, pc, Next(s, a));
      case Hunting(pc) => HuntRunning(s, pc, Next(s, a));
      case Leaving(pc) => LeaveRunning(s, pc, a.save, a.fileOpens, Next(s, a));
    } else {
      OthersLeaveHunter(s, a);
      hide Next, Enabled;
    }
  }

  /** Nobody else moves the main loop, takes from its queue, or makes its connection. */
  lemma OthersLeaveHunter(s: Sys, a: Action)
    requires Enabled(s, a) && !a.HMain?
    ensures Next(s, a).h == if a.SignalHunter? then s.h.(running := false) else s.h
    ensures Next(s, a).w.connected == s.w.connected && s.hpipe.queue <= Next(s, a).hpipe.queue
  {
    if a.DMain? { DMainLeavesHunter(s, Next(s, a)); }
    if a.DServer? { DServerLeavesHunter(s, a.acceptFails, Next(s, a)); }
    if a.HookStep? {
      HookFrame(s, a.run, Next(s, a));
      OfferOnlyQueues(s.hpipe, s.k.arrivals[a.run]);
    }
    hide NextDMain, NextDServer, NextHook, DMainEnabled, DServerEnabled, Offer, Scannable;
  }

  lemma DMainLeavesHunter(s: Sys, s': Sys)
    requires DMainEnabled(s) && s' == NextDMain(s)
    ensures s'.h == s.h && s'.hpipe.queue == s.hpipe.queue && s'.w.connected == s.w.connected
  {
    match s.d.main
    case Build(pc) => BuildFrame(s, pc, s');
    case Start(pc) => StartFrame(s, pc, s');
    case Loop(pc) => LoopFrame(s, pc, s');
    case Stop(pc) => StopLeaves(s, pc, s'); StopLeavesQueue(s, pc, s');
    case Release(pc) => ReleaseFrame(s, pc, s');
    hide NextBuild, NextStart, NextLoop, NextStop, NextRelease, LoopEnabled, Scannable;
  }

  lemma StopLeavesQueue(s: Sys, pc: StopPc, s': Sys)
    requires StopEnabled(s, pc) && s' == NextStop(s, pc)
    ensures s'.hpipe.queue == s.hpipe.queue
  {}

  lemma ServeLeavesHunter(s: Sys, pc: ServePc, s': Sys)
    requires ServeEnabled(s, pc) && s' == NextServe(s, pc)
    ensures s'.w.connected == s.w.connected
  {
    if pc.Read? { ReadFrame(s, s'); }
    hide NextRead, ReadReturns;
  }

  lemma DServerLeavesHunter(s: Sys, fails: bool, s': Sys)
    requires DServerEnabled(s, fails) && s' == NextDServer(s, fails)
    ensures s'.h == s.h && s'.hpipe == s.hpipe && s'.w.connected == s.w.connected
  {
    ServerFrame(s, fails, s');
    match s.d.server
    case Accepting(pc) => AcceptFrame(s, pc, fails, s');
    case Serving(pc) => ServeLeavesHunter(s, pc, s');
    case HangingUp(pc) => HangUpFrame(s, pc, s');
    hide NextAccept, NextServe, NextHangUp, ServeEnabled;
  }

  /** Over runs: `running` is false exactly when a signal has come, or the loop has looked and found that
      the connection was never made, had been closed, or had been shut for reading. */
  lemma {:induction false} RunningIff(t: seq<Sys>, acts: seq<Action>, n: nat)
    requires Run(t, acts) && n <= |acts|
    ensures !t[n].h.running <==>
      exists i :: 0 <= i < n && (acts[i].SignalHunter? || FindsDaemonGone(t[i], acts[i]))
  {
    hide Next, Enabled, FindsDaemonGone;
    if n == 0 {
      assert t[0].h.running;
    } else {
      hide Init;
      RunningIff(t, acts, n - 1);
      RunningStep(t[n - 1], acts[n - 1]);
    }
  }

  // ----- when the loop is left -----

  /** The loop's test sees `running` false, a send fails, or the wait for a reply ends without one. */
  predicate LeavesLoop(s: Sys, a: Action) {
    && a.HMain? && s.h.main.Hunting?
    && match s.h.main.u
       case HuntTest => !s.h.running
       case HSend(_) => ConnectionDown(s)
       case HWait(_) => s.w.toClient == [] && !s.w.open
       case _ => false
  }

  lemma HuntLeaves(s: Sys, pc: HuntPc, s': Sys)
    requires s.h.main == Hunting(pc) && HuntEnabled(s, pc) && s' == NextHunt(s, pc)
    ensures s'.h.main.Hunting? <==> !LeavesLoop(s, HMain(false, false))
    ensures !s'.h.main.Joining?
  {
    hide Stored;
  }

  /** The hunter's main thread has gone past its loop. */
  predicate PastLoop(pc: HunterPc) { pc.Leaving? || pc.HDone? }

  lemma LeavingStays(s: Sys, pc: LeavePc, save: bool, fileOpens: bool, s': Sys)
    requires s.h.main == Leaving(pc) && LeaveEnabled(s, pc) && s' == NextLeave(s, pc, save, fileOpens)
    ensures PastLoop(s'.h.main)
  {
    hide StoredIds;
  }

  lemma JoiningStays(s: Sys, pc: JoinPc, s': Sys)
    requires s' == NextJoin(s, pc)
    ensures !PastLoop(s'.h.main)
  {}

  lemma LoopStep(s: Sys, a: Action)
    requires Enabled(s, a)
    ensures PastLoop(Next(s, a).h.main) <==> PastLoop(s.h.main) || LeavesLoop(s, a)
  {
    hide LeavesLoop, NextJoin, NextHunt, NextLeave, HuntEnabled, LeaveEnabled;
    if a.HMain? {
      match s.h.main
      case Joining(pc) => JoiningStays(s, pc, Next(s, a)); LeavesWhat(s, a);
      case Hunting(pc) => HuntLeaves(s, pc, Next(s, a)); LeavesWhat(s, a);
      case Leaving(pc) => LeavingStays(s, pc, a.save, a.fileOpens, Next(s, a));
    } else {
      OthersLeaveHunter(s, a);
      LeavesWhat(s, a);
      hide Next, Enabled;
    }
  }

  lemma LeavesWhat(s: Sys, a: Action)
    ensures LeavesLoop(s, a) ==> a.HMain? && s.h.main.Hunting?
    ensures a.HMain? ==> LeavesLoop(s, a) == LeavesLoop(s, HMain(false, false))
  {}

  /** Over runs: the loop has been left exactly when one of these three things has happened. */
  lemma {:induction false} LoopLeftIff(t: seq<Sys>, acts: seq<Action>, n: nat)
    requires Run(t, acts) && n <= |acts|
    ensures PastLoop(t[n].h.main) <==> exists i :: 0 <= i < n && LeavesLoop(t[i], acts[i])
  {
    hide Next, Enabled, LeavesLoop;
    if n == 0 {
      assert t[0].h.main.Joining?;
    } else {
      hide Init;
      LoopLeftIff(t, acts, n - 1);
      LoopStep(t[n - 1], acts[n - 1]);
    }
  }

  // ----- it goes on -----

  /** The loop runs. */
  predicate InLoop(h: HunterState) { h.main.Hunting? && h.running }

  lemma StaysInLoop(s: Sys, a: Action)
    requires Enabled(s, a) && InLoop(s.h) && !ConnectionDown(s) && !a.SignalHunter?
    ensures InLoop(Next(s, a).h)
  {
    LoopStep(s, a);
    RunningStep(s, a);
    if a.HMain? { NotJoiningAgain(s, s.h.main.u, Next(s, a)); } else { OthersLeaveHunter(s, a); }
    hide Next, Enabled;
  }

  lemma NotJoiningAgain(s: Sys, pc: HuntPc, s': Sys)
    requires HuntEnabled(s, pc) && s' == NextHunt(s, pc)
    ensures !s'.h.main.Joining? && s'.w.connected == s.w.connected
  {
    hide Stored, CanSend;
  }

  /** A step of the main loop that takes the oldest packet. */
  predicate Pops(s: Sys, a: Action) { a.HMain? && s.h.main == Hunting(HPop) && s.hpipe.queue != [] }

  /** Steps of the main loop before it next looks in the queue. */
  function PopRank(pc: HuntPc): nat {
    match pc
    case HPop => 0 case HuntTest => 1 case HAlive => 2 case HInsert(_, _) => 2 case HWait(_) => 3
    case HSend(_) => 4 case HContains(_) => 5
  }

  /** Each of its steps brings it nearer. */
  lemma NearsPop(s: Sys, pc: HuntPc, s': Sys)
    requires s.h.main == Hunting(pc) && HuntEnabled(s, pc) && s' == NextHunt(s, pc) && !pc.HPop?
    requires s.h.running && !ConnectionDown(s)
    ensures s'.h.main.Hunting? && PopRank(s'.h.main.u) < PopRank(pc) && s'.hpipe == s.hpipe
  {
    hide Stored;
  }

  /** And there it takes the packet, to look for it in the index. */
  lemma PopTakes(s: Sys, a: Action)
    requires Pops(s, a)
    ensures Enabled(s, a) && Next(s, a).h.main == Hunting(HContains(s.hpipe.queue[0]))
    ensures Next(s, a).hpipe.popped == s.hpipe.popped + [s.hpipe.queue[0]]
    ensures Next(s, a).hpipe.queue == s.hpipe.queue[1..]
  {}

  /** The queue keeps its front. */
  predicate FrontKept(p: Pipe, p': Pipe) { p.queue != [] && p'.queue != [] && p'.queue[0] == p.queue[0] }

  function MainSteps(acts: seq<Action>, k: nat, n: nat): nat
    requires k <= n <= |acts|
  {
    if n == k then 0 else MainSteps(acts, k, n - 1) + if acts[n - 1].HMain? then 1 else 0
  }

  lemma HuntStep(s: Sys, a: Action)
    requires Enabled(s, a) && InLoop(s.h) && s.hpipe.queue != [] && !ConnectionDown(s)
    requires !a.SignalHunter? && !Pops(s, a)
    ensures InLoop(Next(s, a).h) && FrontKept(s.hpipe, Next(s, a).hpipe)
    ensures PopRank(Next(s, a).h.main.u) + (if a.HMain? then 1 else 0) <= PopRank(s.h.main.u)
  {
    StaysInLoop(s, a);
    if a.HMain? {
      NearsPop(s, s.h.main.u, Next(s, a));
    } else {
      OthersLeaveHunter(s, a);
      hide Next, Enabled;
    }
  }

  /** As long as no signal comes and the connection is up, the loop goes on, and takes the oldest packet
      in the queue within its next six steps. */
  lemma {:induction false} PopComes(t: seq<Sys>, acts: seq<Action>, k: nat, n: nat)
    requires Run(t, acts) && k <= n <= |acts| && InLoop(t[k].h) && t[k].hpipe.queue != []
    requires forall i :: k <= i < n ==> !acts[i].SignalHunter? && !ConnectionDown(t[i]) && !Pops(t[i], acts[i])
    ensures InLoop(t[n].h) && FrontKept(t[k].hpipe, t[n].hpipe)
    ensures MainSteps(acts, k, n) + PopRank(t[n].h.main.u) <= PopRank(t[k].h.main.u) <= 5
    decreases n
  {
    hide Init, Next, Enabled, ConnectionDown, Pops;
    if k < n {
      PopComes(t, acts, k, n - 1);
      HuntStep(t[n - 1], acts[n - 1]);
    }
  }

  /** A hunter that has found the daemon is still to leave its loop. */
  predicate Goes(s: Sys) {
    && (s.h.main.Joining? ==> s.h.running)
    && (s.w.connected ==> s.h.running && !PastLoop(s.h.main))
  }

  lemma JoiningBefore(s: Sys, a: Action)
    requires Enabled(s, a)
    ensures Next(s, a).h.main.Joining? ==> s.h.main.Joining?
    ensures Next(s, a).w.connected && !s.w.connected ==> s.h.main.Joining?
  {
    hide NextHunt, NextLeave, NextDMain, NextDServer, NextHook, HuntEnabled, LeaveEnabled, DMainEnabled, DServerEnabled;
    if a.HMain? {
      match s.h.main
      case Joining(pc) =>
      case Hunting(pc) => NotJoiningAgain(s, pc, Next(s, a));
      case Leaving(pc) => NotJoiningEither(s, pc, a.save, a.fileOpens, Next(s, a));
    } else {
      OthersLeaveHunter(s, a);
      hide Next, Enabled;
    }
  }

  /** The connection is made exactly when the daemon has finished constructing its map, and not ended. */
  lemma ConnectsIff(s: Sys, save: bool, fileOpens: bool)
    requires s.h.main == Joining(Connect) && !s.w.connected
    ensures Next(s, HMain(save, fileOpens)).w.connected <==> !s.d.main.Build? && !s.d.main.Done?
    ensures Next(s, HMain(save, fileOpens)).h == s.h.(main := Joining(HSubFlag))
  {}

  lemma NotJoiningEither(s: Sys, pc: LeavePc, save: bool, fileOpens: bool, s': Sys)
    requires s.h.main == Leaving(pc) && LeaveEnabled(s, pc) && s' == NextLeave(s, pc, save, fileOpens)
    ensures !s'.h.main.Joining? && s'.w.connected == s.w.connected
  {
    hide StoredIds;
  }

  lemma GoesOn(s: Sys, a: Action)
    requires Enabled(s, a) && Goes(s) && !a.SignalHunter?
    requires s.w.connected && !s.h.main.HDone? ==> !ConnectionDown(s)
    ensures Goes(Next(s, a))
  {
    JoiningBefore(s, a);
    LoopStep(s, a);
    RunningStep(s, a);
    if Next(s, a).w.connected && !s.w.connected { HuntingConnects(s, a); }
    hide Next, Enabled;
  }

  lemma HuntingConnects(s: Sys, a: Action)
    requires Enabled(s, a) && Next(s, a).w.connected && !s.w.connected
    ensures s.h.main.Joining? && !LeavesLoop(s, a) && !FindsDaemonGone(s, a)
  {
    JoiningBefore(s, a);
    hide Next, Enabled, ConnectionDown;
  }

  /** In a run in which nobody signals either process, a hunter that has found the daemon runs on, and
      never leaves its loop. */
  lemma {:induction false} HuntsOn(t: seq<Sys>, acts: seq<Action>, n: nat)
    requires Run(t, acts) && n <= |acts|
    requires forall i :: 0 <= i < n ==> !acts[i].SignalHunter? && !acts[i].SignalDaemon?
    ensures t[n].w.connected ==> t[n].h.running && !PastLoop(t[n].h.main)
    ensures Goes(t[n])
  {
    hide Next, Enabled, ConnectionDown;
    if n == 0 {
      assert Goes(t[0]);
    } else {
      hide Init;
      HuntsOn(t, acts, n - 1);
      if t[n - 1].w.connected && !t[n - 1].h.main.HDone? { ConnectionStaysUp(t, acts, n - 1); }
      GoesOn(t[n - 1], acts[n - 1]);
    }
  }

  /** And otherwise than for a reply the loop never waits. */
  lemma LoopMovesOn(s: Sys)
    requires Inv(s) && s.h.main.Hunting?
    ensures Enabled(s, HMain(false, false)) || AwaitsReply(s)
  {
    hide DInv, KernelInv;
  }

  // ----- what it asks -----

  /** It asks about a packet exactly when no answer yet for the 5-tuple has been a pid. */
  lemma AsksIff(t: seq<Sys>, acts: seq<Action>, n: nat)
    requires Run(t, acts) && n < |acts| && acts[n].HMain? && t[n].h.main.Hunting? && t[n].h.main.u.HContains?
    ensures t[n].h.main.u.id < |t[n].hpipe.heap|
    ensures
      var id := t[n].h.main.u.id;
      if Known(t[n].h.stream, FlowOf(t[n].hpipe.heap[id])) then t[n + 1].h.main == Hunting(HuntTest)
      else t[n + 1].h.main == Hunting(HSend(id))
  {
    var s, id := t[n], t[n].h.main.u.id;
    assert Enabled(s, acts[n]) && t[n + 1] == Next(s, acts[n]) by { hide Next, Enabled; }
    HuntOverRuns.HuntAlways(t, acts, n);
    ContainsMoves(s, id, t[n + 1]);
    FoldOf(s);
    hide Init, Inv, Next, Enabled, HuntOverRuns.HuntInv;
    HuntOverRuns.StoredIsContained(s.h.index, s.hpipe.heap, FlowOf(s.hpipe.heap[id]));
    HoldsTheKnown(s.h.stream, FlowOf(s.hpipe.heap[id]));
  }

  lemma ContainsMoves(s: Sys, id: nat, s': Sys)
    requires id < |s.hpipe.heap| && s' == NextHunt(s, HContains(id))
    ensures s'.h.main ==
      Hunting(if Stored(s.h.index, s.hpipe.heap, FlowOf(s.hpipe.heap[id])) then HuntTest else HSend(id))
  {
    hide Stored;
  }

  lemma FoldOf(s: Sys)
    requires HuntOverRuns.HuntInv(s)
    ensures HuntOverRuns.PointsInto(s.h.index, |s.hpipe.heap|)
    ensures HuntOverRuns.View(s.h.index, s.hpipe.heap) == IndexOf(s.h.stream)
  {
    hide HuntOverRuns.View, IndexOf, HuntOverRuns.PointsInto;
  }
}
