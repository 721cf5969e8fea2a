/** The hunter's connection. While the daemon runs and nobody tells it to stop, a connection once made
    stays up until the hunter itself has ended, and the server thread does not turn to hanging it up. */
module Connection {
  import opened Packets
  import opened PortToPidMap
  import opened Pipeline
  import opened HutKarish
  import opened Invariants
  import opened HunterSignal
  import opened Lookups = Lookup
  import opened ReplyWait
  import opened Answered

  /** The connection was never made, has been closed, or has been shut for reading. */
  predicate ConnectionDown(s: Sys) {
    !s.w.connected || !s.w.open || (s.d.clientFd == Some(HunterPeer) && s.d.rdShut)
  }

  /** The server thread is about to close it. */
  predicate HangsUpOnIt(d: DaemonState) { d.server.HangingUp? && Live(d) }

  /** The daemon runs, and the connection, once made, stands until the hunter has ended. */
  predicate Up(s: Sys) {
    && s.d.running
    && (s.w.hunterGone ==> s.h.main.HDone?)
    && (s.h.main == Joining(Connect) ==> !s.w.connected)
    && (s.w.connected && !s.h.main.HDone? ==> s.w.open && !HangsUpOnIt(s.d))
  }

  // ----- steps of the server thread -----

  /** It closes nothing; */
  lemma AcceptStays(s: Sys, pc: AcceptPc, fails: bool, s': Sys)
    requires Up(s) && !s.d.shutting && s.d.server == Accepting(pc) && AcceptEnabled(s, pc, fails)
    requires s' == NextAccept(s, pc, fails)
    ensures Up(s')
  {}

  lemma ReadStays(s: Sys, s': Sys)
    requires Up(s) && !s.d.rdShut && ReadReturns(s) && s' == NextRead(s)
    ensures Up(s')
  {}

  lemma ServeStays(s: Sys, pc: ServePc, s': Sys)
    requires Up(s) && !s.d.rdShut && s.d.server == Serving(pc) && ServeEnabled(s, pc) && s' == NextServe(s, pc)
    ensures Up(s')
  {
    if pc.Read? { ReadStays(s, s'); }
    hide NextRead, ReadReturns, Reply;
  }

  /** what it hangs up is another's. */
  lemma HangUpStays(s: Sys, pc: HangUpPc, s': Sys)
    requires Up(s) && s.d.server == HangingUp(pc) && s' == NextHangUp(s, pc)
    requires s.w.open && s.d.clientFd == Some(HunterPeer) ==> s.d.fdOpen
    ensures Up(s')
  {}

  lemma ServerStays(s: Sys, fails: bool, s': Sys)
    requires WaitInv(s) && Up(s) && DServerEnabled(s, fails) && s' == NextDServer(s, fails)
    ensures Up(s')
  {
    NotReleasing(s);
    if s.w.open { OpenMeans(s); }
    hide WaitInv, Up, NextAccept, NextServe, NextHangUp, ServeEnabled;
    match s.d.server
    case Accepting(pc) => AcceptStays(s, pc, fails, s');
    case Serving(pc) => ServeStays(s, pc, s');
    case HangingUp(pc) => HangUpStays(s, pc, s');
  }

  lemma NotReleasing(s: Sys)
    requires WaitInv(s) && s.d.running
    ensures !s.d.shutting && !s.d.rdShut && !Left(s.d.main)
  {
    SocketOf(s);
    hide Inv, LookupInv;
  }

  // ----- the other steps -----

  lemma JoinStays(s: Sys, pc: JoinPc, s': Sys)
    requires Up(s) && s.h.main == Joining(pc) && s' == NextJoin(s, pc)
    requires pc.Connect? ==> s.d.clientFd != Some(HunterPeer)
    ensures Up(s')
  {}

  lemma HuntStays(s: Sys, pc: HuntPc, s': Sys)
    requires Up(s) && s.h.main == Hunting(pc) && HuntEnabled(s, pc) && s' == NextHunt(s, pc)
    ensures Up(s')
  {
    hide Stored, CanSend;
  }

  lemma LeaveStays(s: Sys, pc: LeavePc, save: bool, fileOpens: bool, s': Sys)
    requires Up(s) && s.h.main == Leaving(pc) && LeaveEnabled(s, pc) && s' == NextLeave(s, pc, save, fileOpens)
    ensures Up(s')
  {
    hide StoredIds;
  }

  lemma Unconnected(s: Sys)
    requires LookupInv(s) && s.h.main == Joining(Connect)
    ensures s.d.clientFd != Some(HunterPeer)
  {}

  lemma HMainStays(s: Sys, save: bool, fileOpens: bool, s': Sys)
    requires WaitInv(s) && Up(s) && HMainEnabled(s) && s' == NextHMain(s, save, fileOpens)
    ensures Up(s')
  {
    if s.h.main == Joining(Connect) { Unconnected(s); }
    hide WaitInv, Up, NextJoin, NextHunt, NextLeave, HuntEnabled, LeaveEnabled;
    match s.h.main
    case Joining(pc) => JoinStays(s, pc, s');
    case Hunting(pc) => HuntStays(s, pc, s');
    case Leaving(pc) => LeaveStays(s, pc, save, fileOpens, s');
  }

  lemma DMainStays(s: Sys, s': Sys)
    requires WaitInv(s) && Up(s) && DMainEnabled(s) && s' == NextDMain(s)
    ensures Up(s')
  {
    NotReleasing(s);
    if s.d.main == Start(SpawnServer) {
      StartFrame(s, SpawnServer, s');
    } else {
      DMainIdles(s, s');
    }
    hide WaitInv, NextDMain, DMainEnabled;
  }

  lemma UpNext(s: Sys, a: Action)
    requires WaitInv(s) && Up(s) && Enabled(s, a) && !a.SignalDaemon?
    ensures Up(Next(s, a))
  {
    if a.HookStep? { HookFrame(s, a.run, Next(s, a)); }
    hide WaitInv, NextHook, NextDMain, NextDServer, NextHMain, DMainEnabled, DServerEnabled, HMainEnabled;
    hide Receive;
    match a
    case DMain => DMainStays(s, Next(s, a));
    case DServer(fails) => ServerStays(s, fails, Next(s, a));
    case HMain(save, fileOpens) => HMainStays(s, save, fileOpens, Next(s, a));
    case _ =>
  }

  // ----- over runs -----

  lemma {:induction false} StaysUp(t: seq<Sys>, acts: seq<Action>, k: nat, n: nat)
    requires Run(t, acts) && k <= n <= |acts| && Up(t[k])
    requires forall i :: k <= i < n ==> !acts[i].SignalDaemon?
    ensures Up(t[n])
    decreases n
  {
    hide Init, Next, Enabled, Up, WaitInv;
    if k < n {
      StaysUp(t, acts, k, n - 1);
      WaitAlways(t, acts, n - 1);
      UpNext(t[n - 1], acts[n - 1]);
    }
  }

  lemma UpInit(s: Sys)
    requires Init(s)
    ensures Up(s)
  {}

  lemma UpMeans(s: Sys)
    requires WaitInv(s) && Up(s)
    ensures s.w.connected && !s.h.main.HDone? ==> !ConnectionDown(s)
    ensures s.w.connected && AwaitsReply(s) && Attended(s.d) ==> Answering(s)
  {
    NotReleasing(s);
    if AwaitsReply(s) && Attended(s.d) { WhileAttended(s); }
    hide WaitInv;
  }

  /** In a run in which nobody signals the daemon, a connection once made is up until the hunter has
      ended, and a hunter whose connection the server thread has taken up is being answered. */
  lemma ConnectionStaysUp(t: seq<Sys>, acts: seq<Action>, n: nat)
    requires Run(t, acts) && n <= |acts| && t[n].w.connected && !t[n].h.main.HDone?
    requires forall i :: 0 <= i < n ==> !acts[i].SignalDaemon?
    ensures !ConnectionDown(t[n]) && t[n].d.running
    ensures AwaitsReply(t[n]) && Attended(t[n].d) ==> Answering(t[n])
  {
    UpInit(t[0]);
    hide Init, Next, Enabled, WaitInv, ConnectionDown;
    StaysUp(t, acts, 0, n);
    WaitAlways(t, acts, n);
    UpMeans(t[n]);
  }

  // ----- a hunter that has ended -----

  /** The server thread holds the connection of a hunter that has gone. */
  predicate HoldsGone(s: Sys) {
    s.w.hunterGone && s.h.main.HDone? && Live(s.d) && s.d.server != HangingUp(HangUpClear)
    && (s.d.server.Accepting? ==> s.d.server.a.TestAccepted?)
    && !s.d.server.Unborn? && !s.d.server.ServerExit?
  }

  /** Steps of the server thread until it has closed it: four for each request still unread. */
  function GoneRank(s: Sys): nat {
    4 * |s.w.toServer| +
    match s.d.server
    case Accepting(_) => 6
    case Serving(v) =>
      (match v case TestFd => 5 case ServeTest => 4 case Read => 3 case LookUp(_, _) => 6 case Send(_, _) => 5)
    case HangingUp(g) => if g.HangUpTest? then 2 else 1
    case _ => 0
  }

  lemma GoneAccept(s: Sys, pc: AcceptPc, fails: bool, s': Sys)
    requires HoldsGone(s) && s.d.server == Accepting(pc) && s' == NextAccept(s, pc, fails)
    ensures HoldsGone(s') && GoneRank(s') < GoneRank(s)
  {}

  lemma GoneServe(s: Sys, pc: ServePc, s': Sys)
    requires HoldsGone(s) && s.d.server == Serving(pc) && ServeEnabled(s, pc) && s' == NextServe(s, pc)
    ensures HoldsGone(s') && GoneRank(s') < GoneRank(s)
  {
    hide EndOfInput, Reply;
  }

  lemma GoneHangUp(s: Sys, pc: HangUpPc, s': Sys)
    requires HoldsGone(s) && s.d.server == HangingUp(pc) && s' == NextHangUp(s, pc)
    ensures if pc.HangUp? then !s'.w.open && !Live(s'.d) else HoldsGone(s') && GoneRank(s') < GoneRank(s)
  {}

  /** The server thread answers what the hunter had asked, reads the end of its input and hangs up: each
      of its steps brings that nearer, and it never waits but for the map's lock. */
  lemma GoneIsHungUpOn(s: Sys, fails: bool, s': Sys)
    requires HoldsGone(s)
    ensures DServerEnabled(s, fails) || s.d.locked
    ensures DServerEnabled(s, fails) && s' == NextDServer(s, fails) ==>
      (!s'.w.open && !Live(s'.d)) || (HoldsGone(s') && GoneRank(s') < GoneRank(s))
  {
    assert s.d.server.Serving? ==> ServeEnabled(s, s.d.server.v) || s.d.locked;
    hide NextAccept, NextServe, NextHangUp, ServeEnabled, GoneRank;
    if DServerEnabled(s, fails) && s' == NextDServer(s, fails) {
      match s.d.server
      case Accepting(pc) => GoneAccept(s, pc, fails, s');
      case Serving(pc) => GoneServe(s, pc, s');
      case HangingUp(pc) => GoneHangUp(s, pc, s');
    }
  }

  lemma DMainKeepsGone(s: Sys, s': Sys)
    requires !s.d.main.Build? && s.d.main != Start(SpawnServer) && DMainEnabled(s) && s' == NextDMain(s)
    ensures s'.d.server == s.d.server && s'.w == s.w.(open := s'.w.open) && s'.h == s.h
  {
    match s.d.main
    case Start(pc) => StartFrame(s, pc, s');
    case Loop(pc) => LoopFrame(s, pc, s');
    case Stop(pc) => StopLeaves(s, pc, s');
    case Release(pc) => ReleaseFrame(s, pc, s');
    hide NextStart, NextLoop, NextStop, NextRelease, LoopEnabled, Scannable;
  }

  lemma NotBuilding(s: Sys)
    requires Inv(s) && !s.d.server.Unborn?
    ensures !s.d.main.Build? && s.d.main != Start(SpawnServer)
  {
    SocketOf(s);
    hide Inv;
  }

  lemma KeepsGone(s: Sys, s': Sys)
    requires HoldsGone(s) && Live(s'.d) && s'.d.server == s.d.server && s'.h.main == s.h.main
    requires s'.w.hunterGone == s.w.hunterGone && s'.w.toServer == s.w.toServer
    ensures HoldsGone(s') && GoneRank(s') == GoneRank(s)
  {}

  lemma OthersKeepGone(s: Sys, a: Action)
    requires Inv(s) && HoldsGone(s) && Enabled(s, a) && !a.DServer? && Live(Next(s, a).d)
    ensures HoldsGone(Next(s, a)) && GoneRank(Next(s, a)) == GoneRank(s)
  {
    NotBuilding(s);
    assert !a.HMain?;
    if a.DMain? { DMainKeepsGone(s, Next(s, a)); }
    if a.HookStep? { HookFrame(s, a.run, Next(s, a)); }
    KeepsGone(s, Next(s, a));
    hide Inv, HoldsGone, GoneRank, NextDMain, NextHook, DMainEnabled, Receive, Scannable, Live;
  }

  /** Over runs: while the connection of a hunter that has gone is held, the server thread takes at most
      as many steps as the rank says, and can always take the next once the map's lock is released. */
  lemma {:induction false} GoneIsLetGo(t: seq<Sys>, acts: seq<Action>, k: nat, n: nat)
    requires Run(t, acts) && k <= n <= |acts| && HoldsGone(t[k]) && forall i :: k <= i <= n ==> Live(t[i].d)
    ensures HoldsGone(t[n]) && ServerStepsIn(acts, k, n) + GoneRank(t[n]) <= GoneRank(t[k])
    ensures DServerEnabled(t[n], false) || (t[n].d.locked && Enabled(t[n], DMain))
    decreases n
  {
    hide Init, Inv, Next, Enabled, HoldsGone, GoneRank, DServerEnabled, Live;
    InvAlways(t, acts, n);
    if k < n {
      GoneIsLetGo(t, acts, k, n - 1);
      InvAlways(t, acts, n - 1);
      var s, a := t[n - 1], acts[n - 1];
      if a.DServer? { GoneStep(s, a); } else { OthersKeepGone(s, a); }
    }
    GoneIsHungUpOn(t[n], false, t[n]);
    if t[n].d.locked { LockIsReleased(t[n]); }
  }

  lemma GoneStep(s: Sys, a: Action)
    requires HoldsGone(s) && Enabled(s, a) && a.DServer? && Live(Next(s, a).d)
    ensures HoldsGone(Next(s, a)) && GoneRank(Next(s, a)) < GoneRank(s)
  {
    hide HoldsGone, GoneRank, NextDServer, DServerEnabled, Live;
    GoneIsHungUpOn(s, a.acceptFails, Next(s, a));
  }
}
