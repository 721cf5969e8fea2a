/** A signal that reaches the daemon before its main thread sets `running`. Setting it undoes the
    signal exactly as far as no test of the server thread has seen it: if none has, the signal leaves
    no trace; if the accept loop's has, the server thread has ended, and the daemon runs on without it. */
module EarlySignal {
  import opened Packets
  import opened PortToPidMap
  import opened Sniffer
  import opened Pipeline
  import opened HutKarish
  import opened Invariants
  import Shutdown
  import opened Reach

  /** The main thread has yet to set `running`. */
  predicate Before(pc: MainPc) { pc.Build? || (pc.Start? && !pc.u.SpawnReceiver?) }

  /** The server thread tests `running`. */
  predicate Tests(s: Sys, a: Action) {
    a.DServer? && (s.d.server == Accepting(CheckRunning) || s.d.server == Serving(ServeTest))
  }

  /** The state had the signal not come. */
  function Erased(s: Sys): Sys { s.(d := s.d.(running := true)) }

  // ----- which steps a signal changes -----

  lemma BuildUnaffected(s: Sys, pc: BuildPc)
    requires Scannable(s.proc)
    ensures NextBuild(Erased(s), pc) == Erased(NextBuild(s, pc))
  {
    BuildFrame(s, pc, NextBuild(s, pc));
    BuildFrame(Erased(s), pc, NextBuild(Erased(s), pc));
    BuildIgnoresRunning(s, pc);
    hide NextBuild, Scannable;
  }

  lemma BuildIgnoresRunning(s: Sys, pc: BuildPc)
    requires Scannable(s.proc)
    ensures NextBuild(Erased(s), pc).d.main == NextBuild(s, pc).d.main
    ensures NextBuild(Erased(s), pc).d.portMap == NextBuild(s, pc).d.portMap
  {
    hide NextBuild, Scannable;
    var r := Erased(s);
    match pc
    case ReadTcp => ReadTcpShape(s, NextBuild(s, pc)); ReadTcpShape(r, NextBuild(r, pc));
    case ReadUdp(tcp) => ReadUdpShape(s, tcp, NextBuild(s, pc)); ReadUdpShape(r, tcp, NextBuild(r, pc));
    case MapTcp(tcp, udp) => TcpShape(s, tcp, udp, NextBuild(s, pc)); TcpShape(r, tcp, udp, NextBuild(r, pc));
    case MapUdp(udp) => UdpShape(s, udp, NextBuild(s, pc)); UdpShape(r, udp, NextBuild(r, pc));
  }

  lemma StartUnaffected(s: Sys, pc: StartPc)
    ensures NextStart(Erased(s), pc) == Erased(NextStart(s, pc))
  {}

  lemma DMainUnaffected(s: Sys)
    requires Before(s.d.main) && DMainEnabled(s)
    ensures DMainEnabled(Erased(s)) && NextDMain(Erased(s)) == Erased(NextDMain(s))
  {
    hide Scannable, NextBuild, NextStart;
    match s.d.main
    case Build(pc) => BuildUnaffected(s, pc);
    case Start(pc) => StartUnaffected(s, pc);
  }

  lemma AcceptUnaffected(s: Sys, pc: AcceptPc, fails: bool)
    requires s.d.server == Accepting(pc) && AcceptEnabled(s, pc, fails)
    ensures NextAccept(Erased(s), pc, fails) == Erased(NextAccept(s, pc, fails)) <==> s.d.running || !pc.CheckRunning?
  {}

  lemma ReadUnaffected(s: Sys)
    requires s.d.server == Serving(Read)
    ensures ServeEnabled(Erased(s), Read) == ServeEnabled(s, Read) && NextRead(Erased(s)) == Erased(NextRead(s))
  {}

  lemma ServeUnaffected(s: Sys, pc: ServePc)
    requires s.d.server == Serving(pc) && ServeEnabled(s, pc)
    ensures ServeEnabled(Erased(s), pc)
    ensures NextServe(Erased(s), pc) == Erased(NextServe(s, pc)) <==> s.d.running || !pc.ServeTest?
  {
    if pc.Read? { ReadUnaffected(s); }
    hide NextRead, ReadReturns, Reply;
  }

  lemma HangUpUnaffected(s: Sys, pc: HangUpPc)
    ensures NextHangUp(Erased(s), pc) == Erased(NextHangUp(s, pc))
  {}

  lemma DServerUnaffected(s: Sys, fails: bool)
    requires DServerEnabled(s, fails)
    ensures DServerEnabled(Erased(s), fails)
    ensures NextDServer(Erased(s), fails) == Erased(NextDServer(s, fails)) <==>
      s.d.running || !Tests(s, DServer(fails))
  {
    hide NextAccept, NextServe, NextHangUp, ServeEnabled, Reply, ReadReturns;
    match s.d.server
    case Accepting(pc) => AcceptUnaffected(s, pc, fails);
    case Serving(pc) => ServeUnaffected(s, pc);
    case HangingUp(pc) => HangUpUnaffected(s, pc);
    case _ =>
  }

  lemma JoinUnaffected(s: Sys, pc: JoinPc)
    ensures NextJoin(Erased(s), pc) == Erased(NextJoin(s, pc))
  {}

  lemma HuntUnaffected(s: Sys, pc: HuntPc)
    requires HuntEnabled(s, pc)
    ensures HuntEnabled(Erased(s), pc) && NextHunt(Erased(s), pc) == Erased(NextHunt(s, pc))
  {
    hide Stored;
  }

  lemma LeaveUnaffected(s: Sys, pc: LeavePc, save: bool, fileOpens: bool)
    requires LeaveEnabled(s, pc)
    ensures LeaveEnabled(Erased(s), pc)
    ensures NextLeave(Erased(s), pc, save, fileOpens) == Erased(NextLeave(s, pc, save, fileOpens))
  {
    hide StoredIds;
  }

  lemma HMainUnaffected(s: Sys, save: bool, fileOpens: bool)
    requires HMainEnabled(s)
    ensures HMainEnabled(Erased(s)) && NextHMain(Erased(s), save, fileOpens) == Erased(NextHMain(s, save, fileOpens))
  {
    hide NextJoin, NextHunt, NextLeave, HuntEnabled;
    match s.h.main
    case Joining(pc) => JoinUnaffected(s, pc);
    case Hunting(pc) => HuntUnaffected(s, pc);
    case Leaving(pc) => LeaveUnaffected(s, pc, save, fileOpens);
  }

  lemma HookUnaffected(s: Sys, r: nat)
    requires Enabled(s, HookStep(r))
    ensures NextHook(Erased(s), r) == Erased(NextHook(s, r))
  {}

  /** Until `running` is set, a step comes out otherwise because of a signal exactly when it is a test
      of the server thread that sees it. */
  lemma StepIsAffectedIff(s: Sys, a: Action)
    requires Inv(s) && Before(s.d.main) && Enabled(s, a) && !a.SignalDaemon?
    ensures Enabled(Erased(s), a)
    ensures Next(Erased(s), a) == Erased(Next(s, a)) <==> s.d.running || !Tests(s, a)
  {
    assert a.DReceiver? ==> s.dpipe.receiver.NotStarted? by { hide PipeInv, HInv, KernelInv, SocketInv, DaemonPackets; }
    hide Inv, NextDMain, NextDServer, NextHMain, NextHook, DMainEnabled, DServerEnabled, HMainEnabled, Scannable;
    match a
    case DMain => DMainUnaffected(s);
    case DServer(fails) => DServerUnaffected(s, fails);
    case HMain(save, fileOpens) => HMainUnaffected(s, save, fileOpens);
    case HookStep(r) => HookUnaffected(s, r);
    case _ =>
  }

  // ----- a signal that no test sees -----

  function WithoutSignals(acts: seq<Action>): seq<Action> {
    if acts == [] then []
    else
      var n := |acts| - 1;
      WithoutSignals(acts[..n]) + if acts[n].SignalDaemon? then [] else [acts[n]]
  }

  /** Every test the server thread makes along the way sees `running` true. */
  ghost predicate NoTestSees(t: seq<Sys>, acts: seq<Action>)
    requires |acts| <= |t|
  {
    forall i :: 0 <= i < |acts| && Tests(t[i], acts[i]) ==> t[i].d.running
  }

  lemma LinkLast(t: seq<Sys>, acts: seq<Action>, a: Action)
    requires Linked(t, acts) && Enabled(t[|acts|], a)
    ensures Linked(t + [Next(t[|acts|], a)], acts + [a])
  {
    hide Next, Enabled;
    var t', acts' := t + [Next(t[|acts|], a)], acts + [a];
    forall i | 0 <= i < |acts'| ensures Enabled(t'[i], acts'[i]) && t'[i + 1] == Next(t'[i], acts'[i]) {
      if i < |acts| { assert t'[i] == t[i] && t'[i + 1] == t[i + 1] && acts'[i] == acts[i]; }
    }
  }

  /** The same actions without the signals go through the same states with `running` true. */
  lemma {:induction false} SignalsAreErased(t: seq<Sys>, acts: seq<Action>) returns (t': seq<Sys>)
    requires Linked(t, acts) && Inv(t[0]) && NoTestSees(t, acts)
    requires forall i :: 0 <= i < |acts| ==> Before(t[i].d.main)
    ensures Linked(t', WithoutSignals(acts)) && Inv(t[|acts|])
    ensures t'[0] == Erased(t[0]) && t'[|WithoutSignals(acts)|] == Erased(t[|acts|])
    decreases |acts|
  {
    hide Inv, Next, Enabled, Before, Tests;
    if acts == [] {
      t' := [Erased(t[0])];
    } else {
      var n := |acts| - 1;
      var s, a := t[n], acts[n];
      t' := SignalsAreErased(t[..n + 1], acts[..n]);
      assert Enabled(s, a) && t[n + 1] == Next(s, a);
      InvNext(s, a);
      if a.SignalDaemon? {
        SignalOnly(s);
        assert WithoutSignals(acts) == WithoutSignals(acts[..n]);
      } else {
        StepIsAffectedIff(s, a);
        LinkLast(t', WithoutSignals(acts[..n]), a);
        t' := t' + [Next(Erased(s), a)];
      }
    }
  }

  lemma SignalOnly(s: Sys)
    ensures Erased(Next(s, SignalDaemon)) == Erased(s)
  {}

  lemma BeforeStaysBehind(s: Sys, a: Action)
    requires Enabled(s, a) && !Before(s.d.main)
    ensures !Before(Next(s, a).d.main)
    ensures !s.d.running ==> !Next(s, a).d.running
  {
    if a.DMain? { DMainStaysBehind(s, Next(s, a)); }
    if a.DServer? { ServerFrame(s, a.acceptFails, Next(s, a)); }
    if a.HMain? { Shutdown.HMainLeavesState(s, a.save, a.fileOpens, Next(s, a)); }
    hide NextDMain, NextDServer, NextHMain, DMainEnabled, DServerEnabled, HMainEnabled;
  }

  lemma DMainStaysBehind(s: Sys, s': Sys)
    requires DMainEnabled(s) && !Before(s.d.main) && s' == NextDMain(s)
    ensures !Before(s'.d.main) && (!s.d.running ==> !s'.d.running)
  {
    match s.d.main
    case Start(pc) =>
    case Loop(pc) => LoopMoves(s, pc, s'); LoopFrame(s, pc, s');
    case Stop(pc) => StopMoves(s, pc, s'); StopLeaves(s, pc, s');
    case Release(pc) => ReleaseFrame(s, pc, s');
    hide NextLoop, NextStop, NextRelease, LoopEnabled;
  }

  lemma {:induction false} BeforeAllAlong(t: seq<Sys>, acts: seq<Action>, i: nat, n: nat)
    requires Linked(t, acts) && i <= n < |t|
    ensures !Before(t[i].d.main) ==> !Before(t[n].d.main) && (!t[i].d.running ==> !t[n].d.running)
    decreases n
  {
    hide Next, Enabled, Before;
    if i < n {
      BeforeAllAlong(t, acts, i, n - 1);
      if !Before(t[i].d.main) { BeforeStaysBehind(t[n - 1], acts[n - 1]); }
    }
  }

  /** A signal before the line that sets `running`, unseen by the server thread, is as if it had never
      been: the run without it comes to the same state. */
  lemma EarlySignalIsErased(t: seq<Sys>, acts: seq<Action>, n: nat) returns (t': seq<Sys>)
    requires Run(t, acts) && n < |acts| && t[n].d.main == Start(SetRunning) && acts[n] == DMain
    requires NoTestSees(t[..n + 1], acts[..n])
    ensures Run(t', WithoutSignals(acts[..n + 1])) && t'[|WithoutSignals(acts[..n + 1])|] == t[n + 1]
  {
    hide Inv, Next, Enabled, Before;
    InvAlways(t, acts, 0);
    forall i | 0 <= i <= n ensures Before(t[i].d.main) {
      BeforeAllAlong(t, acts, i, n);
      assert Before(t[n].d.main) by { SettingIsBefore(t[n]); }
    }
    var u, steps := t[..n + 2], acts[..n + 1];
    assert NoTestSees(u, steps) by {
      assert !Tests(t[n], acts[n]);
      assert forall i :: 0 <= i < n ==> t[..n + 1][i] == u[i] && acts[..n][i] == steps[i];
    }
    t' := SignalsAreErased(u, steps);
    SettingSets(t[n]);
    ErasedInit(t[0]);
  }

  lemma SettingIsBefore(s: Sys)
    requires s.d.main == Start(SetRunning)
    ensures Before(s.d.main)
  {}

  lemma SettingSets(s: Sys)
    requires s.d.main == Start(SetRunning)
    ensures Enabled(s, DMain) && Erased(Next(s, DMain)) == Next(s, DMain)
  {}

  lemma ErasedInit(s: Sys)
    requires Init(s)
    ensures Erased(s) == s
  {}

  // ----- a signal that the accept loop sees -----

  /** The test of the accept loop sees `running` false. */
  predicate EndsServer(s: Sys, a: Action) {
    a.DServer? && s.d.server == Accepting(CheckRunning) && !s.d.running
  }

  lemma AcceptEnds(s: Sys, pc: AcceptPc, fails: bool, s': Sys)
    requires s.d.server == Accepting(pc) && AcceptEnabled(s, pc, fails) && s' == NextAccept(s, pc, fails)
    ensures s'.d.server.ServerExit? <==> pc.CheckRunning? && !s.d.running
  {}

  lemma DServerEnds(s: Sys, fails: bool, s': Sys)
    requires DServerEnabled(s, fails) && s' == NextDServer(s, fails)
    ensures s'.d.server.ServerExit? <==> EndsServer(s, DServer(fails))
  {
    hide NextAccept, NextServe, NextHangUp, ServeEnabled;
    match s.d.server
    case Accepting(pc) => AcceptEnds(s, pc, fails, s');
    case Serving(pc) => ServeFrame(s, pc, s');
    case HangingUp(pc) => HangUpFrame(s, pc, s');
    case _ =>
  }

  lemma DMainKeepsServer(s: Sys, s': Sys)
    requires DMainEnabled(s) && s' == NextDMain(s) && SocketInv(s.d)
    ensures s'.d.server.ServerExit? <==> s.d.server.ServerExit?
    ensures s.d.running ==> s'.d.running
  {
    match s.d.main
    case Build(pc) => BuildFrame(s, pc, s');
    case Start(pc) => StartFrame(s, pc, s');
    case Loop(pc) => LoopFrame(s, pc, s');
    case Stop(pc) => StopLeaves(s, pc, s');
    case Release(pc) => ReleaseFrame(s, pc, s');
    hide NextBuild, NextStart, NextLoop, NextStop, NextRelease, LoopEnabled, Scannable;
  }

  lemma ServerEndsStep(s: Sys, a: Action)
    requires Inv(s) && Enabled(s, a)
    ensures Next(s, a).d.server.ServerExit? <==> s.d.server.ServerExit? || EndsServer(s, a)
    ensures s.d.running && !a.SignalDaemon? ==> Next(s, a).d.running
  {
    if a.DMain? { DMainKeepsServer(s, Next(s, a)); }
    if a.DServer? { DServerEnds(s, a.acceptFails, Next(s, a)); ServerFrame(s, a.acceptFails, Next(s, a)); }
    if a.HMain? { Shutdown.HMainLeavesState(s, a.save, a.fileOpens, Next(s, a)); }
    hide PipeInv, HInv, KernelInv, DaemonSlot, DaemonReceiver, DaemonPackets;
    hide NextDMain, NextDServer, NextHMain, DMainEnabled, DServerEnabled, HMainEnabled;
  }

  lemma {:induction false} ServerEndedIff(t: seq<Sys>, acts: seq<Action>, n: nat)
    requires Run(t, acts) && n <= |acts|
    ensures t[n].d.server.ServerExit? <==> exists i :: 0 <= i < n && EndsServer(t[i], acts[i])
    ensures !t[n].d.running ==> exists i :: 0 <= i < n && acts[i].SignalDaemon?
  {
    hide Inv, Next, Enabled, EndsServer;
    if n > 0 {
      ServerEndedIff(t, acts, n - 1);
      InvAlways(t, acts, n - 1);
      ServerEndsStep(t[n - 1], acts[n - 1]);
    }
  }

  /** Exactly when the daemon runs on without its server thread: when, before the main thread set
      `running`, the accept loop tested it after a signal. */
  lemma RunsOnWithoutServerIff(t: seq<Sys>, acts: seq<Action>, n: nat)
    requires Run(t, acts) && n <= |acts| && t[n].d.running && !Before(t[n].d.main)
    ensures t[n].d.server.ServerExit? <==>
      exists i :: 0 <= i < n && EndsServer(t[i], acts[i]) && Before(t[i].d.main)
        && exists j :: 0 <= j < i && acts[j].SignalDaemon?
  {
    hide Inv, Next, Enabled, Before, Init;
    ServerEndedIff(t, acts, n);
    if i :| 0 <= i < n && EndsServer(t[i], acts[i]) {
      BeforeAllAlong(t, acts, i, n);
      ServerEndedIff(t, acts, i);
      assert Before(t[i].d.main);
    }
  }

  // ----- and it does happen -----

  /** The map's construction runs to its end. */
  lemma {:induction false} BuildUp(s: Sys) returns (s': Sys)
    requires Reachable(s) && Scannable(s.proc) && (s.d.main.Build? || s.d.main == Start(SpawnServer))
    ensures Reachable(s') && s' == s.(d := s.d.(main := Start(SpawnServer), portMap := s'.d.portMap))
    decreases BuildRank(s.d.main), BuildLeft(s.d.main)
  {
    hide Reachable, Scannable;
    if s.d.main.Build? {
      BuildAdvances(s);
      ReachNext(s, DMain);
      s' := BuildUp(Next(s, DMain));
    } else {
      s' := s;
    }
  }

  function BuildRank(pc: MainPc): nat {
    if !pc.Build? then 0
    else match pc.b case ReadTcp => 4 case ReadUdp(_) => 3 case MapTcp(_, _) => 2 case MapUdp(_) => 1
  }

  function BuildLeft(pc: MainPc): nat {
    if !pc.Build? then 0
    else match pc.b case MapTcp(es, _) => |es| case MapUdp(es) => |es| case _ => 0
  }

  lemma BuildShrinks(s: Sys, pc: BuildPc, s': Sys)
    requires Scannable(s.proc) && s.d.main == Build(pc) && s' == NextBuild(s, pc)
    ensures BuildRank(s'.d.main) < BuildRank(s.d.main) ||
      (BuildRank(s'.d.main) == BuildRank(s.d.main) && BuildLeft(s'.d.main) < BuildLeft(s.d.main))
  {
    hide NextBuild, Scannable;
    match pc
    case ReadTcp => ReadTcpShape(s, s');
    case ReadUdp(tcp) => ReadUdpShape(s, tcp, s');
    case MapTcp(tcp, udp) => TcpShape(s, tcp, udp, s');
    case MapUdp(udp) => UdpShape(s, udp, s');
  }

  lemma BuildAdvances(s: Sys)
    requires Scannable(s.proc) && s.d.main.Build?
    ensures Enabled(s, DMain)
    ensures
      var s' := Next(s, DMain);
      && s' == s.(d := s.d.(main := s'.d.main, portMap := s'.d.portMap))
      && (s'.d.main.Build? || s'.d.main == Start(SpawnServer))
      && (BuildRank(s'.d.main) < BuildRank(s.d.main) ||
           (BuildRank(s'.d.main) == BuildRank(s.d.main) && BuildLeft(s'.d.main) < BuildLeft(s.d.main)))
  {
    hide NextBuild, Scannable, BuildRank, BuildLeft;
    BuildFrame(s, s.d.main.b, Next(s, DMain));
    BuildShrinks(s, s.d.main.b, Next(s, DMain));
  }

  /** From any initial state: the server thread is started, a signal comes, the server thread tests
      `running` and ends, the main thread sets `running` and enters its loop. */
  lemma ServerlessIsReachable(s: Sys) returns (s': Sys)
    requires Init(s)
    ensures Reachable(s') && s'.d.running && s'.d.main == Loop(LoopTest) && s'.d.server.ServerExit?
    ensures s'.h == s.h && s'.hpipe == s.hpipe && s'.w == s.w && s'.k.hooks == [] && s'.k.arrivals == []
    ensures s'.k.slots == s.k.slots.(daemon := Slot(true, s.daemonPid))
    ensures s'.daemonPid == s.daemonPid && s'.hunterPid == s.hunterPid && s'.d.clientFd == None
  {
    hide Reachable, Scannable;
    ReachInit(s);
    var s1 := BuildUp(s);
    ReachNext(s1, DMain);
    var s2 := Next(s1, DMain);
    ReachNext(s2, SignalDaemon);
    var s3 := Next(s2, SignalDaemon);
    ReachNext(s3, DServer(false));
    var s4 := Next(s3, DServer(false));
    ReachNext(s4, DMain);
    var s5 := Next(s4, DMain);
    ReachNext(s5, DMain);
    var s6 := Next(s5, DMain);
    ReachNext(s6, DMain);
    var s7 := Next(s6, DMain);
    ReachNext(s7, DMain);
    s' := Next(s7, DMain);
  }
}
