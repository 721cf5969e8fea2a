/** The daemon's shutdown always completes: from any reachable state in which `running` is false,
    past the line that sets it again, some daemon thread can move until all have ended, and the
    daemon's threads together can take only a bounded number of steps, whatever the environment,
    the hunter and the kernel hook do in between. */
module Shutdown {
  import opened Packets
  import opened SocketTable
  import opened ScanFiles
  import PortToPidMap
  import opened Pipeline
  import opened HutKarish
  import opened Invariants

  predicate DaemonStep(a: Action) { a.DMain? || a.DReceiver? || a.DServer? }

  predicate ShuttingDown(s: Sys) {
    Inv(s) && !s.d.running && (s.d.main == Start(SpawnReceiver) || Spawned(s.d.main))
  }

  function LoopRank(pc: LoopPc): nat {
    match pc
    case PopNext => 32 case Lock(_) => 31 case ReadTable(_) => 30 case FindOwner(_, _) => 29
    case Store(_, _) => 28 case Free(_) => 27 case LoopTest => 26
  }

  function StopRank(pc: StopPc): nat {
    match pc
    case UnsubStop => 25 case UnsubFlag => 24 case UnsubPid => 23 case JoinReceiver => 22
    case CleanTest => 21 case CleanPop => 20
  }

  function ReleaseRank(pc: ReleasePc): nat {
    match pc
    case FdTest => 19 case FdShutdown => 18 case CloseTest => 17 case CloseFd => 16
    case ClearFd => 15 case SetShutting => 14 case DummyConnect => 13 case JoinServer => 12
  }

  function MainRank(pc: MainPc): nat {
    match pc
    case Build(_) => 50 case Start(_) => 40 case Loop(l) => LoopRank(l) case Stop(t) => StopRank(t)
    case Release(r) => ReleaseRank(r) case Done => 0
  }

  function ReceiverRank(pc: ReceiverPc): nat {
    match pc
    case NotStarted => 5 case Recv => 4 case Test(_) => 3 case Push(_) => 2 case Check => 1
    case Exited => 0 case Stopped(_) => 0
  }

  function ServerRank(pc: ServerPc): nat {
    match pc
    case Unborn => 20
    case Accepting(a) =>
      (match a case Accept => 13 case Assign(_) => 12 case TestAccepted => 11 case CheckRunning => 1)
    case Serving(v) =>
      (match v case TestFd => 10 case Read => 9 case LookUp(_, _) => 8 case Send(_, _) => 7 case ServeTest => 6)
    case HangingUp(g) => (match g case HangUpTest => 4 case HangUp => 3 case HangUpClear => 2)
    case ServerExit => 0
  }

  /** Control points and queue length. A push makes the queue longer by one, but the receiver's
      rank smaller, and counts threefold. */
  function Rank(s: Sys): nat {
    MainRank(s.d.main) + 3 * ReceiverRank(s.dpipe.receiver) + ServerRank(s.d.server) + 2 * |s.dpipe.queue|
  }

  // ----- every daemon step lowers the rank -----

  lemma LoopLowers(s: Sys, pc: LoopPc, s': Sys)
    requires !s.d.running && s.d.main == Loop(pc) && LoopEnabled(s, pc) && s' == NextLoop(s, pc)
    ensures MainRank(s'.d.main) + 2 * |s'.dpipe.queue| < MainRank(s.d.main) + 2 * |s.dpipe.queue|
    ensures s'.d.server == s.d.server && s'.dpipe.receiver == s.dpipe.receiver && !s'.d.running
  {
    LoopFrame(s, pc, s');
    LoopRanks(s, pc, s');
    hide NextLoop, LoopEnabled, LoopRank;
  }

  lemma LoopRanks(s: Sys, pc: LoopPc, s': Sys)
    requires !s.d.running && s.d.main == Loop(pc) && LoopEnabled(s, pc) && s' == NextLoop(s, pc)
    ensures MainRank(s'.d.main) < LoopRank(pc)
  {
    hide PortToPidMap.AfterScan, TableFor, ParseTable, Pop;
  }

  lemma StopLowers(s: Sys, pc: StopPc, s': Sys)
    requires !s.d.running && s.d.main == Stop(pc) && StopEnabled(s, pc) && s' == NextStop(s, pc)
    ensures MainRank(s'.d.main) + 2 * |s'.dpipe.queue| < MainRank(s.d.main) + 2 * |s.dpipe.queue|
    ensures s'.d.server == s.d.server && s'.dpipe.receiver == s.dpipe.receiver && !s'.d.running
  {
    hide Offer;
    assert Offer(s.dpipe, STOP_MESSAGE).queue == s.dpipe.queue
      && Offer(s.dpipe, STOP_MESSAGE).receiver == s.dpipe.receiver by { OfferOnlyQueues(s.dpipe, STOP_MESSAGE); }
  }

  lemma ReleaseLowers(s: Sys, pc: ReleasePc, s': Sys)
    requires !s.d.running && s.d.main == Release(pc) && s' == NextRelease(s, pc)
    ensures MainRank(s'.d.main) < MainRank(s.d.main) && s'.dpipe == s.dpipe
    ensures s'.d.server == s.d.server && !s'.d.running
  {
    ReleaseFrame(s, pc, s');
    ReleaseRanks(s, pc, s');
    hide NextRelease, ReleaseRank;
  }

  lemma ReleaseRanks(s: Sys, pc: ReleasePc, s': Sys)
    requires s' == NextRelease(s, pc)
    ensures MainRank(s'.d.main) < ReleaseRank(pc)
  {}

  lemma DMainLowers(s: Sys, s': Sys)
    requires ShuttingDown(s) && DMainEnabled(s) && s' == NextDMain(s)
    ensures ShuttingDown(s') && Rank(s') < Rank(s)
  {
    InvNext(s, DMain);
    hide Inv, NextLoop, NextStop, NextRelease, LoopEnabled, StopEnabled, ReleaseEnabled, Scannable;
    match s.d.main
    case Start(pc) =>
    case Loop(pc) => LoopLowers(s, pc, s'); LoopMovesOn(s, pc, s');
    case Stop(pc) => StopLowers(s, pc, s'); StopMoves(s, pc, s');
    case Release(pc) => ReleaseLowers(s, pc, s'); ReleaseFrame(s, pc, s');
  }

  lemma LoopMovesOn(s: Sys, pc: LoopPc, s': Sys)
    requires s.d.main == Loop(pc) && LoopEnabled(s, pc) && s' == NextLoop(s, pc)
    ensures Spawned(s'.d.main)
  {
    LoopMoves(s, pc, s');
  }

  lemma DReceiverLowers(s: Sys, s': Sys)
    requires ShuttingDown(s) && CanReceive(s.dpipe) && s' == Next(s, DReceiver)
    ensures ShuttingDown(s') && Rank(s') < Rank(s)
  {
    InvNext(s, DReceiver);
    hide Inv, MainRank, ServerRank;
  }

  lemma AcceptLowers(s: Sys, pc: AcceptPc, fails: bool, s': Sys)
    requires !s.d.running && s.d.server == Accepting(pc) && AcceptEnabled(s, pc, fails)
    requires s' == NextAccept(s, pc, fails)
    ensures ServerRank(s'.d.server) < ServerRank(s.d.server)
  {}

  lemma ServeLowers(s: Sys, pc: ServePc, s': Sys)
    requires !s.d.running && s.d.server == Serving(pc) && ServeEnabled(s, pc) && s' == NextServe(s, pc)
    ensures ServerRank(s'.d.server) < ServerRank(s.d.server)
  {
    if pc.Read? { ReadFrame(s, s'); }
    hide ReadReturns, NextRead, PortToPidMap.Reply;
  }

  lemma HangUpLowers(s: Sys, pc: HangUpPc, s': Sys)
    requires s.d.server == HangingUp(pc) && s' == NextHangUp(s, pc)
    ensures ServerRank(s'.d.server) < ServerRank(s.d.server)
  {}

  lemma DServerLowers(s: Sys, fails: bool, s': Sys)
    requires ShuttingDown(s) && DServerEnabled(s, fails) && s' == NextDServer(s, fails)
    ensures ShuttingDown(s') && Rank(s') < Rank(s)
  {
    InvNext(s, DServer(fails));
    ServerFrame(s, fails, s');
    hide Inv, NextAccept, NextServe, NextHangUp, MainRank, ServerRank, ReceiverRank;
    match s.d.server
    case Accepting(pc) => AcceptLowers(s, pc, fails, s');
    case Serving(pc) => ServeLowers(s, pc, s');
    case HangingUp(pc) => HangUpLowers(s, pc, s');
  }

  // ----- no other step raises it -----

  lemma HMainLeavesState(s: Sys, save: bool, fileOpens: bool, s': Sys)
    requires HMainEnabled(s) && s' == NextHMain(s, save, fileOpens)
    ensures s'.d == s.d.(pending := s'.d.pending)
  {
    match s.h.main
    case Joining(pc) => JoinLeavesDaemon(s, pc, s');
    case Hunting(pc) => HuntFrame(s, pc, s');
    case Leaving(pc) => LeaveLeavesState(s, pc, save, fileOpens, s');
    hide NextJoin, NextHunt, NextLeave, HuntEnabled;
  }

  lemma LeaveLeavesState(s: Sys, pc: LeavePc, save: bool, fileOpens: bool, s': Sys)
    requires LeaveEnabled(s, pc) && s' == NextLeave(s, pc, save, fileOpens)
    ensures s'.d == s.d
  {
    hide StoredIds;
  }

  /** Its terminate message goes to the hunter, so the daemon's channel is left alone too. */
  lemma HMainLeavesDaemon(s: Sys, save: bool, fileOpens: bool, s': Sys)
    requires Inv(s) && HMainEnabled(s) && s' == NextHMain(s, save, fileOpens)
    ensures s'.d == s.d.(pending := s'.d.pending) && s'.dpipe == s.dpipe
  {
    HMainLeavesState(s, save, fileOpens, s');
    match s.h.main
    case Joining(pc) => JoinLeavesDaemon(s, pc, s');
    case Hunting(pc) => HuntFrame(s, pc, s');
    case Leaving(pc) => LeaveFrame(s, pc, save, fileOpens, s');
    hide NextJoin, NextHunt, NextLeave;
  }

  lemma JoinLeavesDaemon(s: Sys, pc: JoinPc, s': Sys)
    requires s' == NextJoin(s, pc)
    ensures s'.d == s.d.(pending := s'.d.pending) && s'.dpipe == s.dpipe
  {}

  lemma OthersKeepRank(s: Sys, a: Action)
    requires ShuttingDown(s) && Enabled(s, a) && !DaemonStep(a)
    ensures ShuttingDown(Next(s, a)) && Rank(Next(s, a)) == Rank(s)
  {
    InvNext(s, a);
    if a.HMain? { HMainLeavesDaemon(s, a.save, a.fileOpens, Next(s, a)); }
    if a.HookStep? {
      HookFrame(s, a.run, Next(s, a));
      OfferOnlyQueues(s.dpipe, s.k.arrivals[a.run]);
    }
    hide Inv, NextHMain, NextHook, MainRank, ServerRank, ReceiverRank, HMainEnabled, Offer;
  }

  lemma DaemonStepsLower(s: Sys, a: Action)
    requires ShuttingDown(s) && Enabled(s, a) && DaemonStep(a)
    ensures ShuttingDown(Next(s, a)) && Rank(Next(s, a)) < Rank(s)
  {
    hide ShuttingDown, Rank, NextDMain, NextDServer, Receive;
    match a
    case DMain => DMainLowers(s, Next(s, a));
    case DReceiver => DReceiverLowers(s, Next(s, a));
    case DServer(fails) => DServerLowers(s, fails, Next(s, a));
  }

  // ----- some unfinished daemon thread can always move -----

  lemma ScanNeverThrows(s: Sys, id: nat)
    requires Scannable(s.proc) && id < |s.dpipe.heap|
    ensures ParseTable(TableFor(s.proc, s.dpipe.heap[id].proto), s.dpipe.heap[id].dstPort).Returns?
  {
    ThrowsWhateverThePort(TableFor(s.proc, s.dpipe.heap[id].proto), 0, s.dpipe.heap[id].dstPort);
  }

  lemma MainMovesUnlessJoining(s: Sys)
    requires Inv(s) && !s.d.main.Done?
    requires s.d.main != Stop(JoinReceiver) && s.d.main != Release(JoinServer)
    ensures DMainEnabled(s)
  {
    if s.d.main.Loop? && (s.d.main.l.ReadTable? || s.d.main.l.Store?) {
      ScanNeverThrows(s, s.d.main.l.id);
    }
    hide ParseTable, HunterInv;
  }

  lemma ReceiverMovesWhileJoined(s: Sys)
    requires Inv(s) && s.d.main == Stop(JoinReceiver)
    ensures ReceiverDone(s.dpipe) || CanReceive(s.dpipe)
  {
    hide HunterInv, Scannable;
  }

  lemma ServerMovesWhileJoined(s: Sys)
    requires Inv(s) && s.d.main == Release(JoinServer)
    ensures s.d.server.ServerExit? || DServerEnabled(s, false)
  {
    hide HunterInv, Scannable, PipeInv;
  }

  lemma NeverStuck(s: Sys)
    requires ShuttingDown(s) && !s.d.main.Done?
    ensures Enabled(s, DMain) || Enabled(s, DReceiver) || Enabled(s, DServer(false))
  {
    if s.d.main == Stop(JoinReceiver) { ReceiverMovesWhileJoined(s); }
    else if s.d.main == Release(JoinServer) { ServerMovesWhileJoined(s); }
    else { MainMovesUnlessJoining(s); }
    hide Inv, Scannable;
  }

  /** All three threads have ended. */
  predicate AllEnded(s: Sys) { s.d.main.Done? && s.d.server.ServerExit? && ReceiverDone(s.dpipe) }

  function DaemonSteps(acts: seq<Action>): nat {
    if acts == [] then 0 else DaemonSteps(acts[..|acts| - 1]) + if DaemonStep(acts[|acts| - 1]) then 1 else 0
  }

  lemma {:induction false} StepsAreBounded(t: seq<Sys>, acts: seq<Action>)
    requires Linked(t, acts) && ShuttingDown(t[0])
    ensures ShuttingDown(t[|acts|]) && DaemonSteps(acts) + Rank(t[|acts|]) <= Rank(t[0])
    decreases |acts|
  {
    hide ShuttingDown, Rank, Next, Enabled;
    if acts != [] {
      var n := |acts| - 1;
      StepsAreBounded(t[..n + 1], acts[..n]);
      assert Enabled(t[n], acts[n]) && t[n + 1] == Next(t[n], acts[n]);
      if DaemonStep(acts[n]) { DaemonStepsLower(t[n], acts[n]); } else { OthersKeepRank(t[n], acts[n]); }
    }
  }

  /** Shutdown completes. Take any run, and any point of it at which `running` is false after the
      line that sets it. From there the daemon's threads take at most as many steps as the rank
      says, and where none of them can move, all three have ended. */
  lemma {:induction false} ShutdownCompletes(t: seq<Sys>, acts: seq<Action>, k: nat)
    requires Run(t, acts) && k <= |acts| && !t[k].d.running
    requires t[k].d.main == Start(SpawnReceiver) || Spawned(t[k].d.main)
    ensures DaemonSteps(acts[k..]) <= Rank(t[k])
    ensures AllEnded(t[|acts|]) ||
      Enabled(t[|acts|], DMain) || Enabled(t[|acts|], DReceiver) || Enabled(t[|acts|], DServer(false))
  {
    InvAlways(t, acts, k);
    hide Next, Enabled, Inv, Rank;
    var rest, more := t[k..], acts[k..];
    forall i | 0 <= i < |more| ensures Enabled(rest[i], more[i]) && rest[i + 1] == Next(rest[i], more[i]) {
      assert rest[i] == t[k + i] && rest[i + 1] == t[k + i + 1] && more[i] == acts[k + i];
    }
    StepsAreBounded(rest, more);
    var last := t[|acts|];
    assert ShuttingDown(last) by { assert last == rest[|more|]; }
    if last.d.main.Done? { EndedWhenDone(last); } else { NeverStuck(last); }
  }

  lemma EndedWhenDone(s: Sys)
    requires Inv(s) && s.d.main.Done?
    ensures AllEnded(s)
  {
    hide HunterInv, PipeInv;
  }

  // ----- releasing the server thread -----

  /** With a client connected, uninterrupted: its connection is shut for reading, closed and forgotten, */
  lemma ReleaseCloses(s: Sys)
    requires s.d.main == Release(FdTest) && s.d.clientFd.Some?
    ensures
      var s2 := NextRelease(NextRelease(s, FdTest), FdShutdown);
      var s4 := NextRelease(NextRelease(s2, CloseTest), CloseFd);
      && s2 == s.(d := s.d.(main := Release(CloseTest), rdShut := true))
      && s4 == s.(d := s.d.(main := Release(ClearFd), rdShut := true, fdOpen := false),
           w := if s.d.clientFd == Some(HunterPeer) then s.w.(open := false) else s.w)
      && NextRelease(s4, ClearFd) == s4.(d := s4.d.(main := Release(SetShutting), clientFd := None))
  {}

  /** and with or without one the flag is set and a connection of its own made, before the join. */
  lemma ReleaseConnects(s: Sys)
    ensures s.d.clientFd.None? ==> NextRelease(s, FdTest) == s.(d := s.d.(main := Release(SetShutting)))
    ensures NextRelease(NextRelease(s, SetShutting), DummyConnect) ==
      s.(d := s.d.(main := Release(JoinServer), shutting := true, pending := s.d.pending + [DummyPeer]))
  {}
}
