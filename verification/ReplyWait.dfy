/** The hunter's wait for a reply: when the daemon is bound to answer it, when the wait can last, and
    what ends it. */
module ReplyWait {
  import opened Packets
  import opened SocketTable
  import opened ScanFiles
  import opened PortToPidMap
  import opened Pipeline
  import opened HutKarish
  import opened Invariants
  import Shutdown
  import HunterShutdown
  import opened HunterSignal
  import opened Lookups = Lookup

  // ----- where an open connection is -----

  /** The main thread is about to close whatever connection there is. */
  predicate Closing(pc: MainPc) {
    pc.Release? && (pc.r.FdShutdown? || pc.r.CloseTest? || pc.r.CloseFd? || pc.r.ClearFd?)
  }

  predicate TakingUp(pc: ServerPc) { pc.Accepting? && (pc.a.Accept? || pc.a.Assign?) }

  /** The hunter's connection, while open, is served or still to be taken up. */
  predicate OpenInv(d: DaemonState, w: Wire) {
    && (w.open ==> Live(d) || Upcoming(d))
    && (Closing(d.main) ==> !TakingUp(d.server))
    && (d.main == Release(ClearFd) || d.server == HangingUp(HangUpClear) ==> !d.fdOpen)
    && (w.open ==> Listening(d.main))
    && (d.shutting || d.rdShut ==> d.main.Release? || d.main.Done?)
    && (d.server.ServerExit? ==> d.clientFd.None?)
  }

  lemma AcceptOpen(s: Sys, pc: AcceptPc, fails: bool, s': Sys)
    requires OpenInv(s.d, s.w) && ConnectionInv(s.d, s.w, true) && (Left(s.d.main) ==> !s.d.running)
    requires s.d.server == Accepting(pc) && AcceptEnabled(s, pc, fails) && s' == NextAccept(s, pc, fails)
    ensures OpenInv(s'.d, s'.w)
  {
    if pc.Accept? && !fails {
      assert s.d.pending == [s.d.pending[0]] + s.d.pending[1..];
    }
  }

  lemma ServeOpen(s: Sys, pc: ServePc, s': Sys)
    requires OpenInv(s.d, s.w) && s.d.server == Serving(pc) && ServeEnabled(s, pc) && s' == NextServe(s, pc)
    ensures OpenInv(s'.d, s'.w)
  {
    ServeFrame(s, pc, s');
    hide NextServe, ServeEnabled;
  }

  lemma HangUpOpen(s: Sys, pc: HangUpPc, s': Sys)
    requires OpenInv(s.d, s.w) && s.d.server == HangingUp(pc) && s' == NextHangUp(s, pc)
    ensures OpenInv(s'.d, s'.w)
  {}

  lemma DServerOpen(s: Sys, fails: bool, s': Sys)
    requires OpenInv(s.d, s.w) && ConnectionInv(s.d, s.w, true) && (Left(s.d.main) ==> !s.d.running)
    requires DServerEnabled(s, fails) && s' == NextDServer(s, fails)
    ensures OpenInv(s'.d, s'.w)
  {
    hide NextAccept, NextServe, NextHangUp, OpenInv, ServeEnabled, ConnectionInv;
    match s.d.server
    case Accepting(pc) => AcceptOpen(s, pc, fails, s');
    case Serving(pc) => ServeOpen(s, pc, s');
    case HangingUp(pc) => HangUpOpen(s, pc, s');
    case _ =>
  }

  /** Closing the connection, then forgetting it. */
  lemma CloseOpen(s: Sys, pc: ReleasePc, s': Sys)
    requires OpenInv(s.d, s.w) && s.d.main == Release(pc) && (pc.CloseFd? || pc.ClearFd?) && s' == NextRelease(s, pc)
    ensures OpenInv(s'.d, s'.w)
  {}

  lemma ReleaseOpen(s: Sys, pc: ReleasePc, s': Sys)
    requires OpenInv(s.d, s.w) && ConnectionInv(s.d, s.w, true) && s.d.main == Release(pc) && s' == NextRelease(s, pc)
    ensures OpenInv(s'.d, s'.w)
  {
    if pc.CloseFd? || pc.ClearFd? {
      CloseOpen(s, pc, s');
      hide NextRelease;
    }
  }

  lemma SameOpen(s: Sys, s': Sys)
    requires OpenInv(s.d, s.w) && WireSame(s, s') && s'.d.shutting == s.d.shutting && s'.d.rdShut == s.d.rdShut
    requires s.d.main.Release? || s.d.main.Done? ==> s'.d.main == s.d.main
    requires s'.d.main == s.d.main || (!s'.d.main.Done? && !s'.d.main.Release?) || s'.d.main == Release(FdTest)
    requires s'.d.main.Build? ==> s.d.main.Build?
    ensures OpenInv(s'.d, s'.w)
  {}

  lemma SpawnOpen(s: Sys, s': Sys)
    requires OpenInv(s.d, s.w) && s.d.server.Unborn? && s.d.main == Start(SpawnServer)
    requires s' == NextStart(s, SpawnServer)
    ensures OpenInv(s'.d, s'.w)
  {}

  lemma DMainOpen(s: Sys, s': Sys)
    requires OpenInv(s.d, s.w) && SocketInv(s.d) && ConnectionInv(s.d, s.w, true)
    requires DMainEnabled(s) && s' == NextDMain(s)
    ensures OpenInv(s'.d, s'.w)
  {
    hide NextBuild, NextStart, NextLoop, NextStop, NextRelease, OpenInv, WireSame, ConnectionInv;
    hide LoopEnabled, Scannable;
    match s.d.main
    case Build(pc) => BuildFrame(s, pc, s'); DMainSame(s, s'); SameOpen(s, s');
    case Start(pc) =>
      if pc.SpawnServer? {
        SpawnOpen(s, s');
      } else {
        StartFrame(s, pc, s');
        DMainSame(s, s');
        SameOpen(s, s');
      }
    case Loop(pc) => LoopMoves(s, pc, s'); LoopFrame(s, pc, s'); DMainSame(s, s'); SameOpen(s, s');
    case Stop(pc) => StopMoves(s, pc, s'); StopLeaves(s, pc, s'); DMainSame(s, s'); SameOpen(s, s');
    case Release(pc) => ReleaseOpen(s, pc, s');
  }

  lemma HMainOpen(s: Sys, save: bool, fileOpens: bool, s': Sys)
    requires OpenInv(s.d, s.w) && HMainEnabled(s) && s' == NextHMain(s, save, fileOpens)
    ensures OpenInv(s'.d, s'.w)
  {
    match s.h.main
    case Joining(pc) => JoinOpen(s, pc, s');
    case Hunting(pc) => HuntOpen(s, pc, s');
    case Leaving(pc) => LeaveOpen(s, pc, save, fileOpens, s');
    hide NextJoin, NextHunt, NextLeave, HuntEnabled;
  }

  lemma JoinOpen(s: Sys, pc: JoinPc, s': Sys)
    requires OpenInv(s.d, s.w) && s' == NextJoin(s, pc)
    ensures OpenInv(s'.d, s'.w)
  {}

  lemma HuntOpen(s: Sys, pc: HuntPc, s': Sys)
    requires HuntEnabled(s, pc) && s' == NextHunt(s, pc)
    ensures s'.d == s.d && s'.w.open == s.w.open
  {
    hide Stored, CanSend;
  }

  lemma LeaveOpen(s: Sys, pc: LeavePc, save: bool, fileOpens: bool, s': Sys)
    requires LeaveEnabled(s, pc) && s' == NextLeave(s, pc, save, fileOpens)
    ensures s'.d == s.d && s'.w.open == s.w.open
  {
    hide StoredIds;
  }

  lemma OthersOpen(s: Sys, a: Action, s': Sys)
    requires OpenInv(s.d, s.w) && Enabled(s, a) && !a.DMain? && !a.DServer? && !a.HMain? && s' == Next(s, a)
    ensures OpenInv(s'.d, s'.w)
  {
    if a.HookStep? { HookFrame(s, a.run, s'); }
    hide NextHook, Receive;
  }

  lemma OpenNext(s: Sys, a: Action)
    requires Inv(s) && LookupInv(s) && OpenInv(s.d, s.w) && Enabled(s, a)
    ensures OpenInv(Next(s, a).d, Next(s, a).w)
  {
    assert SocketInv(s.d) && (Left(s.d.main) ==> !s.d.running) by { hide PipeInv, HInv, KernelInv; }
    assert ConnectionInv(s.d, s.w, true) by { hide RequestsInv, RepliesInv, AskInv; }
    hide Inv, LookupInv, OpenInv, ConnectionInv, SocketInv, NextDMain, NextDServer, NextHMain;
    hide DMainEnabled, DServerEnabled, HMainEnabled;
    match a
    case DMain => DMainOpen(s, Next(s, a));
    case DServer(fails) => DServerOpen(s, fails, Next(s, a));
    case HMain(save, fileOpens) => HMainOpen(s, save, fileOpens, Next(s, a));
    case _ => OthersOpen(s, a, Next(s, a));
  }

  /** All that is known of every state of every run. */
  predicate WaitInv(s: Sys) { Inv(s) && LookupInv(s) && OpenInv(s.d, s.w) }

  lemma WaitNext(s: Sys, a: Action)
    requires WaitInv(s) && Enabled(s, a)
    ensures WaitInv(Next(s, a))
  {
    hide Inv, LookupInv, OpenInv, Next, Enabled;
    InvNext(s, a);
    LookupNext(s, a);
    OpenNext(s, a);
  }

  lemma {:induction false} WaitAlways(t: seq<Sys>, acts: seq<Action>, n: nat)
    requires Run(t, acts) && n < |t|
    ensures WaitInv(t[n])
  {
    hide WaitInv, Next, Enabled;
    if n == 0 {
      WaitInit(t[0]);
    } else {
      WaitAlways(t, acts, n - 1);
      WaitNext(t[n - 1], acts[n - 1]);
    }
  }

  lemma WaitInit(s: Sys)
    requires Init(s)
    ensures WaitInv(s)
  {
    InvInit(s);
    LookupInit(s);
  }

  // ----- a wait the server attends to -----

  /** The server thread has taken the hunter's connection up. */
  predicate Attended(d: DaemonState) { Live(d) || d.server == Accepting(Assign(HunterPeer)) }

  /** Steps of the server thread until it has answered or hung up. */
  function AnswerRank(pc: ServerPc): nat {
    match pc
    case Accepting(a) => if a.Assign? then 9 else 8
    case Serving(v) =>
      (match v case TestFd => 7 case ServeTest => 6 case Read => 5 case LookUp(_, _) => 4 case Send(_, _) => 3)
    case HangingUp(g) => if g.HangUpTest? then 2 else 1
    case Unborn => 0
    case ServerExit => 0
  }

  /** Where the server thread can be while it attends to the waiting hunter, and what it has then. */
  lemma WhileAttended(s: Sys)
    requires WaitInv(s) && AwaitsReply(s) && Attended(s.d)
    ensures s.d.server.Accepting? ==> s.d.server.a.TestAccepted? || s.d.server == Accepting(Assign(HunterPeer))
    ensures !s.d.server.Unborn? && !s.d.server.ServerExit? && s.d.server != HangingUp(HangUpClear)
    ensures s.d.server != Accepting(Assign(HunterPeer)) ==> Live(s.d)
    ensures s.d.server == Serving(Read) ==> s.w.toServer != []
  {
    assert AskInv(s.h.main, s.hpipe.heap, s.w) && ServerInv(s.d, s.w, true) && OpenInv(s.d, s.w) by {
      hide Inv, ServerInv, AskInv, OpenInv;
    }
    hide Inv, LookupInv;
    assert Live(s.d) ==> |s.w.toServer| == |s.w.requests| - |s.w.taken|;
  }

  lemma AttendedServe(s: Sys, pc: ServePc, s': Sys)
    requires Live(s.d) && s.d.server == Serving(pc) && ServeEnabled(s, pc) && s' == NextServe(s, pc)
    requires s.w.toClient == [] && (pc.Read? ==> s.w.toServer != [])
    ensures s'.w.toClient != [] || AnswerRank(s'.d.server) < AnswerRank(s.d.server)
  {
    hide EndOfInput, Reply;
  }

  lemma AttendedAccept(s: Sys, pc: AcceptPc, fails: bool, s': Sys)
    requires pc == Assign(HunterPeer) || (pc.TestAccepted? && Live(s.d))
    requires s.d.server == Accepting(pc) && s' == NextAccept(s, pc, fails)
    ensures Live(s'.d) && AnswerRank(s'.d.server) < AnswerRank(s.d.server)
  {}

  lemma AttendedHangUp(s: Sys, pc: HangUpPc, s': Sys)
    requires Live(s.d) && s.d.server == HangingUp(pc) && pc != HangUpClear && s' == NextHangUp(s, pc)
    ensures !s'.w.open || (Live(s'.d) && AnswerRank(s'.d.server) < AnswerRank(s.d.server))
  {}

  /** Each step of the server thread brings the answer nearer, or ends the wait. */
  lemma AttendingStep(s: Sys, fails: bool, s': Sys)
    requires WaitInv(s) && AwaitsReply(s) && Attended(s.d) && DServerEnabled(s, fails) && s' == NextDServer(s, fails)
    ensures AwaitsReply(s') ==> Attended(s'.d) && AnswerRank(s'.d.server) < AnswerRank(s.d.server)
  {
    WhileAttended(s);
    ServerFrame(s, fails, s');
    hide WaitInv, NextAccept, NextServe, NextHangUp, ServeEnabled, AnswerRank;
    match s.d.server
    case Accepting(pc) => AttendedAccept(s, pc, fails, s');
    case Serving(pc) => AttendedServe(s, pc, s'); ServeFrame(s, pc, s');
    case HangingUp(pc) => AttendedHangUp(s, pc, s');
  }

  lemma OpenMeans(s: Sys)
    requires WaitInv(s) && s.w.open
    ensures Live(s.d) || Upcoming(s.d)
    ensures Live(s.d) ==> !Upcoming(s.d)
    ensures s.d.clientFd == Some(HunterPeer) ==> s.d.fdOpen
  {
    assert ConnectionInv(s.d, s.w, true) && OpenInv(s.d, s.w) by { hide Inv, RequestsInv, RepliesInv, AskInv, OpenInv; }
    hide Inv, LookupInv;
  }

  lemma DMainPending(s: Sys, s': Sys)
    requires SocketInv(s.d) && DMainEnabled(s) && s' == NextDMain(s)
    ensures s'.d.server == s.d.server || s.d.server.Unborn?
    ensures multiset(s'.d.pending)[HunterPeer] == multiset(s.d.pending)[HunterPeer]
  {
    match s.d.main
    case Build(pc) => BuildFrame(s, pc, s');
    case Start(pc) => StartFrame(s, pc, s');
    case Loop(pc) => LoopFrame(s, pc, s');
    case Stop(pc) => StopLeaves(s, pc, s');
    case Release(pc) => ReleaseFrame(s, pc, s');
    hide NextBuild, NextStart, NextLoop, NextStop, NextRelease, LoopEnabled, Scannable;
  }

  lemma WaitingDoesNotMove(s: Sys, save: bool, fileOpens: bool)
    requires AwaitsReply(s)
    ensures !Enabled(s, HMain(save, fileOpens))
  {}

  /** While the hunter waits, nobody but the server thread moves it or its connection along. */
  lemma OthersLeaveServer(s: Sys, a: Action)
    requires SocketInv(s.d) && AwaitsReply(s) && Enabled(s, a) && !a.DServer?
    ensures Next(s, a).d.server == s.d.server || s.d.server.Unborn?
    ensures multiset(Next(s, a).d.pending)[HunterPeer] == multiset(s.d.pending)[HunterPeer]
  {
    if a.DMain? { DMainPending(s, Next(s, a)); }
    if a.HMain? { WaitingDoesNotMove(s, a.save, a.fileOpens); }
    if a.HookStep? { HookFrame(s, a.run, Next(s, a)); }
    hide NextDMain, NextHMain, NextHook, DMainEnabled, HMainEnabled, AwaitsReply;
  }

  lemma SocketOf(s: Sys)
    requires Inv(s)
    ensures SocketInv(s.d) && (s.d.locked <==> MapLocked(s.d.main)) && (Left(s.d.main) ==> !s.d.running)
  {
    hide PipeInv, HInv, KernelInv, SocketInv, DaemonReceiver, DaemonPackets, DaemonSlot;
  }

  /** Other steps leave it attended to, or end the wait. */
  lemma OtherSteps(s: Sys, a: Action)
    requires WaitInv(s) && AwaitsReply(s) && Attended(s.d) && Enabled(s, a) && !a.DServer?
    ensures AwaitsReply(Next(s, a)) ==> Attended(Next(s, a).d) && Next(s, a).d.server == s.d.server
  {
    hide Inv, LookupInv, OpenInv, SocketInv, Next, Enabled;
    WaitNext(s, a);
    SocketOf(s);
    OthersLeaveServer(s, a);
    WhileAttended(s);
    OpenMeans(s);
    if AwaitsReply(Next(s, a)) { OpenMeans(Next(s, a)); }
  }

  // ----- a run of it -----

  function ServerSteps(acts: seq<Action>): nat {
    if acts == [] then 0 else ServerSteps(acts[..|acts| - 1]) + if acts[|acts| - 1].DServer? then 1 else 0
  }

  /** The hunter waits all along. */
  ghost predicate WaitsAlong(t: seq<Sys>) { forall i :: 0 <= i < |t| ==> AwaitsReply(t[i]) }

  /** The server thread cannot move, and it is not for the lock. */
  predicate ServerIdle(s: Sys) { !DServerEnabled(s, true) && !s.d.locked }

  /** How long the main thread holds the lock. */
  function LockRank(pc: MainPc): nat {
    if !pc.Loop? then 0
    else if pc.l.ReadTable? then 3 else if pc.l.FindOwner? then 2 else if pc.l.Store? then 1 else 0
  }

  /** A lock is let go of after at most three steps of the main thread, which nothing holds up. */
  lemma LockIsReleased(s: Sys)
    requires Inv(s) && s.d.locked
    ensures Enabled(s, DMain) && LockRank(Next(s, DMain).d.main) < LockRank(s.d.main)
    ensures Next(s, DMain).d.locked <==> LockRank(Next(s, DMain).d.main) > 0
  {
    SocketOf(s);
    Shutdown.MainMovesUnlessJoining(s);
    InvNext(s, DMain);
    hide Inv, Enabled, Next;
    SocketOf(Next(s, DMain));
    assert Next(s, DMain) == NextLoop(s, s.d.main.l) && LoopEnabled(s, s.d.main.l) by { OneLoopStep(s); }
    LockSteps(s, s.d.main.l, Next(s, DMain));
  }

  lemma OneLoopStep(s: Sys)
    requires s.d.main.Loop? && Enabled(s, DMain)
    ensures LoopEnabled(s, s.d.main.l) && Next(s, DMain) == NextLoop(s, s.d.main.l)
  {
    hide NextLoop, LoopEnabled;
  }

  lemma LockSteps(s: Sys, pc: LoopPc, s': Sys)
    requires s.d.main == Loop(pc) && LoopEnabled(s, pc) && s' == NextLoop(s, pc) && MapLocked(s.d.main)
    ensures LockRank(s'.d.main) < LockRank(s.d.main)
  {
    hide AfterScan, TableFor, ParseTable;
  }

  lemma AttendedCanMove(s: Sys)
    requires WaitInv(s) && AwaitsReply(s) && Attended(s.d)
    ensures !ServerIdle(s)
  {
    WhileAttended(s);
    hide WaitInv;
  }

  /** The daemon answers a hunter it attends to, or hangs up: while the hunter waits the server thread
      takes at most nine steps, and can take the next one at once or when the lock is let go of. */
  lemma {:induction false} AttendedIsAnswered(t: seq<Sys>, acts: seq<Action>)
    requires Linked(t, acts) && WaitInv(t[0]) && WaitsAlong(t) && Attended(t[0].d)
    ensures WaitInv(t[|acts|]) && Attended(t[|acts|].d)
    ensures ServerSteps(acts) + AnswerRank(t[|acts|].d.server) <= AnswerRank(t[0].d.server) <= 9
    ensures !ServerIdle(t[|acts|])
    decreases |acts|
  {
    hide WaitInv, Attended, AwaitsReply, ServerIdle, Next, Enabled;
    if acts == [] {
      AttendedCanMove(t[0]);
    } else {
      var n := |acts| - 1;
      var s, a := t[n], acts[n];
      AttendedIsAnswered(t[..n + 1], acts[..n]);
      assert Enabled(s, a) && t[n + 1] == Next(s, a) && AwaitsReply(s) && AwaitsReply(t[n + 1]);
      WaitNext(s, a);
      if a.DServer? { AttendingAction(s, a); } else { OtherSteps(s, a); }
      AttendedCanMove(t[n + 1]);
    }
  }

  lemma AttendingAction(s: Sys, a: Action)
    requires WaitInv(s) && AwaitsReply(s) && Attended(s.d) && Enabled(s, a) && a.DServer? && AwaitsReply(Next(s, a))
    ensures Attended(Next(s, a).d) && AnswerRank(Next(s, a).d.server) < AnswerRank(s.d.server)
  {
    hide WaitInv, Attended, AwaitsReply, NextDServer, DServerEnabled;
    AttendingStep(s, a.acceptFails, Next(s, a));
  }

  // ----- a wait it does not attend to -----

  lemma UnattendedServe(s: Sys, pc: ServePc, s': Sys)
    requires s.d.clientFd != Some(HunterPeer) && s.d.server == Serving(pc)
    requires ServeEnabled(s, pc) && s' == NextServe(s, pc)
    ensures s'.w.toClient == s.w.toClient
  {
    hide EndOfInput, Reply;
  }

  lemma UnattendedAccept(s: Sys, pc: AcceptPc, s': Sys)
    requires s.d.server == Accepting(pc) && pc != Assign(HunterPeer) && s' == NextAccept(s, pc, true)
    requires s.d.clientFd != Some(HunterPeer)
    ensures s'.d.clientFd != Some(HunterPeer) && s'.d.server != Accepting(Assign(HunterPeer))
    ensures s'.w.toClient == s.w.toClient && s'.w.open == s.w.open
  {
    AcceptFrame(s, pc, true, s');
    if pc.Assign? {
      assert s'.d.clientFd == Some(pc.peer) && s'.d.server == Accepting(TestAccepted);
    } else {
      assert s'.d.clientFd == s.d.clientFd || s'.d.clientFd == None;
    }
  }

  lemma UnattendedHangUp(s: Sys, pc: HangUpPc, s': Sys)
    requires s.d.clientFd != Some(HunterPeer) && s.d.server == HangingUp(pc) && s' == NextHangUp(s, pc)
    ensures s'.d.clientFd != Some(HunterPeer) && s'.d.server != Accepting(Assign(HunterPeer))
    ensures s'.w.toClient == s.w.toClient && s'.w.open == s.w.open
  {}

  /** If accept fails whenever it is called, the hunter goes on waiting. */
  lemma UnattendedStep(s: Sys, s': Sys)
    requires WaitInv(s) && AwaitsReply(s) && !Attended(s.d) && DServerEnabled(s, true) && s' == NextDServer(s, true)
    ensures AwaitsReply(s') && !Attended(s'.d) && s'.d.running == s.d.running
  {
    OpenMeans(s);
    ServerFrame(s, true, s');
    hide WaitInv, NextAccept, NextServe, NextHangUp, ServeEnabled;
    match s.d.server
    case Accepting(pc) => UnattendedAccept(s, pc, s');
    case Serving(pc) => UnattendedServe(s, pc, s'); ServeFrame(s, pc, s');
    case HangingUp(pc) => UnattendedHangUp(s, pc, s');
  }

  lemma ScanningStep(s: Sys)
    requires WaitInv(s) && AwaitsReply(s) && !Attended(s.d) && s.d.locked
    ensures Enabled(s, DMain) && AwaitsReply(Next(s, DMain)) && !Attended(Next(s, DMain).d)
    ensures LockRank(Next(s, DMain).d.main) < LockRank(s.d.main)
    ensures Next(s, DMain).d.running == s.d.running && Next(s, DMain).d.main.Loop?
  {
    hide Inv, LookupInv, OpenInv, Enabled, Next;
    LockIsReleased(s);
    SocketOf(s);
    OneLoopStep(s);
    LoopFrame(s, s.d.main.l, Next(s, DMain));
    LoopMoves(s, s.d.main.l, Next(s, DMain));
  }

  lemma PrependStep(s: Sys, a: Action, t: seq<Sys>, acts: seq<Action>)
    requires Linked(t, acts) && Enabled(s, a) && t[0] == Next(s, a) && AwaitsReply(s) && WaitsAlong(t)
    ensures Linked([s] + t, [a] + acts) && WaitsAlong([s] + t)
    ensures ([s] + t)[0] == s && ([s] + t)[|[a] + acts|] == t[|acts|]
    ensures ServerSteps([a] + acts) == ServerSteps(acts) + if a.DServer? then 1 else 0
  {
    hide AwaitsReply, Next, Enabled;
    HunterShutdown.LinkOne(s, a, t, acts);
    CountFirst(a, acts);
  }

  lemma {:induction false} CountFirst(a: Action, acts: seq<Action>)
    ensures ServerSteps([a] + acts) == ServerSteps(acts) + if a.DServer? then 1 else 0
  {
    if acts == [] {
      assert [a] + acts == [a];
      assert ServerSteps([a][..0]) == 0;
    } else {
      var n := |acts| - 1;
      CountFirst(a, acts[..n]);
      assert ([a] + acts)[..n + 1] == [a] + acts[..n];
    }
  }

  // ----- idleness that lasts -----

  /** The server thread waits for a client that says nothing and does not hang up. */
  predicate SilentClient(s: Sys) { s.d.server == Serving(Read) && !ReadReturns(s) }

  /** It has ended, or waits for such a client. */
  predicate LastingIdle(s: Sys) { s.d.server.ServerExit? || SilentClient(s) }

  lemma AttendedNotIdle(s: Sys)
    requires WaitInv(s) && AwaitsReply(s) && Attended(s.d)
    ensures !LastingIdle(s)
  {
    WhileAttended(s);
    hide WaitInv;
  }

  /** What can end it: the client speaks or hangs up, or the daemon is told to stop. */
  predicate Disturbs(a: Action) { a.SignalDaemon? || a.OtherSends? || a.OtherCloses? }

  lemma DMainIdles(s: Sys, s': Sys)
    requires s.d.running && !Left(s.d.main) && s.d.main != Start(SpawnServer) && DMainEnabled(s) && s' == NextDMain(s)
    ensures WireSame(s, s') && s'.w == s.w && s'.d.running && s'.d.rdShut == s.d.rdShut
  {
    DMainSame(s, s');
    match s.d.main
    case Build(pc) => BuildFrame(s, pc, s');
    case Start(pc) => StartFrame(s, pc, s');
    case Loop(pc) => LoopFrame(s, pc, s');
    hide NextBuild, NextStart, NextLoop, LoopEnabled, Scannable;
  }

  lemma IdleSame(s: Sys, s': Sys)
    requires AwaitsReply(s) && LastingIdle(s) && s.d.clientFd != Some(HunterPeer)
    requires s'.d.server == s.d.server && s'.d.clientFd == s.d.clientFd && s'.d.fdOpen == s.d.fdOpen
    requires s'.d.rdShut == s.d.rdShut && s'.h.main == s.h.main && s'.w == s.w
    ensures AwaitsReply(s') && LastingIdle(s')
  {}

  /** Any step but the server thread's, the hunter's and those that disturb. */
  lemma IdleStep(s: Sys, a: Action)
    requires SocketInv(s.d) && (Left(s.d.main) ==> !s.d.running) && LastingIdle(s) && s.d.running
    requires Enabled(s, a) && !Disturbs(a) && !a.DServer? && !a.HMain?
    ensures
      var s' := Next(s, a);
      && s'.d.server == s.d.server && s'.d.clientFd == s.d.clientFd && s'.d.fdOpen == s.d.fdOpen
      && s'.d.rdShut == s.d.rdShut && s'.h.main == s.h.main && s'.w == s.w && s'.d.running
  {
    assert s.d.main != Start(SpawnServer);
    if a.DMain? { DMainIdles(s, Next(s, a)); }
    if a.HookStep? { HookFrame(s, a.run, Next(s, a)); }
    hide LastingIdle, SocketInv, NextDMain, NextHook, DMainEnabled, Receive, Scannable;
  }

  lemma IdleCannotMove(s: Sys, fails: bool)
    requires LastingIdle(s)
    ensures !Enabled(s, DServer(fails))
  {
    hide ReadReturns;
  }

  /** Idleness lasts, and the wait with it: no other step of anybody ends it. */
  lemma IdleLasts(s: Sys, a: Action)
    requires WaitInv(s) && AwaitsReply(s) && LastingIdle(s) && s.d.running && Enabled(s, a) && !Disturbs(a)
    ensures WaitInv(Next(s, a)) && AwaitsReply(Next(s, a)) && LastingIdle(Next(s, a)) && Next(s, a).d.running
    ensures !a.HMain? && !a.DServer?
  {
    WaitNext(s, a);
    SocketOf(s);
    IdleIsUnattended(s);
    hide WaitInv, AwaitsReply, LastingIdle, SocketInv, Next, Enabled;
    if a.HMain? { WaitingDoesNotMove(s, a.save, a.fileOpens); }
    if a.DServer? { IdleCannotMove(s, a.acceptFails); }
    IdleStep(s, a);
    IdleSame(s, Next(s, a));
  }

  lemma IdleIsUnattended(s: Sys)
    requires WaitInv(s) && AwaitsReply(s) && LastingIdle(s)
    ensures !Attended(s.d) && s.d.clientFd != Some(HunterPeer)
  {
    if Attended(s.d) { AttendedNotIdle(s); }
    OpenMeans(s);
    hide WaitInv, LastingIdle;
  }

  /** So an idle wait goes on for ever: through any run in which nobody disturbs it. */
  lemma {:induction false} IdleForEver(t: seq<Sys>, acts: seq<Action>)
    requires Linked(t, acts) && forall i :: 0 <= i < |acts| ==> !Disturbs(acts[i])
    requires WaitInv(t[0]) && AwaitsReply(t[0]) && LastingIdle(t[0]) && t[0].d.running
    ensures WaitsAlong(t)
    ensures WaitInv(t[|acts|]) && AwaitsReply(t[|acts|]) && LastingIdle(t[|acts|]) && t[|acts|].d.running
    decreases |acts|
  {
    hide WaitInv, AwaitsReply, LastingIdle, Next, Enabled;
    if acts != [] {
      var n := |acts| - 1;
      IdleForEver(t[..n + 1], acts[..n]);
      assert Enabled(t[n], acts[n]) && t[n + 1] == Next(t[n], acts[n]);
      IdleLasts(t[n], acts[n]);
      forall i | 0 <= i <= n ensures AwaitsReply(t[i]) {
        assert t[..n + 1][i] == t[i];
      }
    }
  }

  // ----- keeping the hunter waiting -----

  /** A server thread that is neither able to move nor idle for good has yet to be started, or waits for
      the map's lock. */
  lemma NotIdleFor(s: Sys)
    requires WaitInv(s) && AwaitsReply(s) && !LastingIdle(s) && !DServerEnabled(s, true)
    ensures s.d.locked || s.d.main == Start(SpawnServer)
    ensures s.d.main == Start(SpawnServer) ==> s.d.server.Unborn?
  {
    SocketOf(s);
    assert OpenInv(s.d, s.w) by { hide Inv, LookupInv, OpenInv; }
    hide WaitInv, ReadReturns;
  }

  lemma SpawningStep(s: Sys)
    requires WaitInv(s) && AwaitsReply(s) && !Attended(s.d) && s.d.main == Start(SpawnServer)
    ensures Enabled(s, DMain) && AwaitsReply(Next(s, DMain)) && !Attended(Next(s, DMain).d)
    ensures Next(s, DMain).d.running == s.d.running && Next(s, DMain).d.main == Start(SubFlag)
  {
    hide WaitInv;
  }

  function SpawnRank(pc: MainPc): nat { if pc == Start(SpawnServer) then 1 else 0 }

  /** The wait can go on for `n` more steps of the server thread, or until that is idle for good. */
  lemma {:induction false} KeepWaiting(s: Sys, n: nat) returns (t: seq<Sys>, acts: seq<Action>)
    requires WaitInv(s) && AwaitsReply(s) && !Attended(s.d)
    ensures Linked(t, acts) && t[0] == s && WaitsAlong(t)
    ensures ServerSteps(acts) >= n || LastingIdle(t[|acts|])
    ensures t[|acts|].d.running == s.d.running
    decreases n, SpawnRank(s.d.main) + LockRank(s.d.main)
  {
    hide WaitInv, AwaitsReply, Attended, Next, Enabled, DServerEnabled, LastingIdle;
    if n == 0 || LastingIdle(s) {
      t, acts := [s], [];
    } else if DServerEnabled(s, true) {
      var a := DServer(true);
      UnattendedAction(s);
      WaitNext(s, a);
      t, acts := KeepWaiting(Next(s, a), n - 1);
      PrependStep(s, a, t, acts);
      t, acts := [s] + t, [a] + acts;
    } else {
      NotIdleFor(s);
      if s.d.main == Start(SpawnServer) { SpawningStep(s); } else { ScanningStep(s); }
      WaitNext(s, DMain);
      t, acts := KeepWaiting(Next(s, DMain), n);
      PrependStep(s, DMain, t, acts);
      t, acts := [s] + t, [DMain] + acts;
    }
  }

  lemma UnattendedAction(s: Sys)
    requires WaitInv(s) && AwaitsReply(s) && !Attended(s.d) && DServerEnabled(s, true)
    ensures Enabled(s, DServer(true)) && AwaitsReply(Next(s, DServer(true))) && !Attended(Next(s, DServer(true)).d)
    ensures Next(s, DServer(true)).d.running == s.d.running
  {
    hide WaitInv, AwaitsReply, Attended, NextDServer, DServerEnabled;
    UnattendedStep(s, Next(s, DServer(true)));
  }

  /** Some way to go on, without the daemon being told to stop, keeps the hunter waiting for `n` steps of
      the server thread, or until that is idle for good. */
  ghost predicate CanWait(s: Sys, n: nat) {
    exists t: seq<Sys>, acts: seq<Action> :: Linked(t, acts) && t[0] == s && WaitsAlong(t)
      && (ServerSteps(acts) >= n || LastingIdle(t[|acts|])) && t[|acts|].d.running
  }

  /** Exactly when a hunter can be kept waiting for ever by a daemon that runs: when the server thread has
      not taken its connection up, because it serves another client or has ended, or accept keeps
      failing. If it has, the hunter is answered, or its connection closed. */
  lemma WaitCanLastIff(s: Sys)
    requires WaitInv(s) && AwaitsReply(s) && s.d.running
    ensures (forall n: nat :: CanWait(s, n)) <==> !Attended(s.d)
  {
    hide WaitInv, AwaitsReply, Attended, Next, Enabled, LastingIdle;
    if Attended(s.d) {
      forall t, acts | Linked(t, acts) && t[0] == s && WaitsAlong(t)
        ensures ServerSteps(acts) < 10 && !LastingIdle(t[|acts|])
      {
        AttendedIsAnswered(t, acts);
        AttendedNotIdle(t[|acts|]);
      }
      assert !CanWait(s, 10);
    } else {
      forall n: nat ensures CanWait(s, n) {
        var t, acts := KeepWaiting(s, n);
      }
    }
  }

  // ----- a daemon without its server thread -----

  /** The server thread has ended, and the main thread runs on. */
  predicate Serverless(s: Sys) { s.d.running && s.d.main.Loop? && s.d.server.ServerExit? }

  lemma ServerlessLoop(s: Sys, pc: LoopPc, s': Sys)
    requires Serverless(s) && AwaitsReply(s) && s.d.main == Loop(pc) && LoopEnabled(s, pc) && s' == NextLoop(s, pc)
    ensures Serverless(s') && AwaitsReply(s')
  {
    LoopFrame(s, pc, s');
    LoopFrame(s, pc, s');
    LoopMoves(s, pc, s');
    hide NextLoop, LoopEnabled;
  }

  /** Then the hunter waits until somebody tells the daemon to stop: no other step helps. */
  lemma NobodyAnswers(s: Sys, a: Action)
    requires Serverless(s) && AwaitsReply(s) && Enabled(s, a) && !a.SignalDaemon?
    ensures Serverless(Next(s, a)) && AwaitsReply(Next(s, a)) && !a.HMain?
  {
    if a.DMain? {
      OneLoopStep(s);
      ServerlessLoop(s, s.d.main.l, Next(s, a));
      hide Next, Enabled, NextLoop, LoopEnabled;
    } else if a.HookStep? {
      HookFrame(s, a.run, Next(s, a));
      hide NextHook;
    } else {
      if a.HMain? { WaitingDoesNotMove(s, a.save, a.fileOpens); }
      hide NextDMain, NextHMain, NextHook, Receive, HMainEnabled;
    }
  }

  /** In any case the wait is over when the daemon has ended, as it does once told to stop. */
  lemma DaemonsEndEndsTheWait(t: seq<Sys>, acts: seq<Action>, n: nat)
    requires Run(t, acts) && n < |t| && AwaitsReply(t[n])
    ensures !t[n].d.main.Done?
  {
    WaitAlways(t, acts, n);
    hide Run, Inv, LookupInv;
  }
}
