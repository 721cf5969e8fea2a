/** The hunter after a signal. Its threads take boundedly many steps and then have ended, or wait in
    one of two places: main in `recv` for the daemon's reply, or, when it had left by `break` before
    the signal with the channel full, main in join and the receiver in `recv`. */
module HunterSignal {
  import opened Pipeline
  import opened HutKarish
  import opened Invariants
  import opened HunterShutdown
  import Shutdown

  /** Main waits for a reply that has not come, on a connection nobody has closed. */
  predicate AwaitsReply(s: Sys) {
    s.h.main.Hunting? && s.h.main.u.HWait? && s.w.toClient == [] && s.w.open
  }

  // ----- a bound on the steps left -----

  function JoinRank(pc: JoinPc): nat {
    match pc case Connect => 33 case HSubFlag => 32 case HSubPid => 31 case HSpawn => 30
  }

  function HuntRank(pc: HuntPc): nat {
    match pc
    case HPop => 26 case HAlive => 25 case HContains(_) => 24 case HSend(_) => 23 case HWait(_) => 22
    case HInsert(_, _) => 21 case HuntTest => 20
  }

  function MainRank(pc: HunterPc): nat {
    match pc
    case Joining(j) => JoinRank(j)
    case Hunting(u) => HuntRank(u)
    case Leaving(_) => LeaveRank(pc)
    case HDone => 0
  }

  function SignalRank(s: Sys): nat {
    MainRank(s.h.main) + 3 * Shutdown.ReceiverRank(s.hpipe.receiver) + 2 * |s.hpipe.queue|
  }

  lemma JoinLowers(s: Sys, pc: JoinPc, s': Sys)
    requires s.h.main == Joining(pc) && s' == NextJoin(s, pc)
    requires pc.HSpawn? ==> s.hpipe.receiver.NotStarted?
    ensures SignalRank(s') < SignalRank(s) && s'.h.running == s.h.running
  {}

  lemma HuntLowers(s: Sys, pc: HuntPc, s': Sys)
    requires !s.h.running && s.h.main == Hunting(pc) && HuntEnabled(s, pc) && s' == NextHunt(s, pc)
    ensures SignalRank(s') < SignalRank(s) && !s'.h.running
  {
    hide Stored, CanSend;
  }

  lemma LeaveLowersToo(s: Sys, pc: LeavePc, save: bool, fileOpens: bool, s': Sys)
    requires s.h.main == Leaving(pc) && LeaveEnabled(s, pc) && s' == NextLeave(s, pc, save, fileOpens)
    ensures SignalRank(s') < SignalRank(s) && s'.h.running == s.h.running
  {
    hide StoredIds;
  }

  lemma ReceiverLowers(s: Sys, s': Sys)
    requires !s.h.running && CanReceive(s.hpipe) && s' == s.(hpipe := Receive(s.hpipe, s.h.running))
    ensures SignalRank(s') < SignalRank(s)
  {}

  lemma HunterStepLowers(s: Sys, a: Action)
    requires Inv(s) && !s.h.running && Enabled(s, a) && HunterStep(a)
    ensures SignalRank(Next(s, a)) < SignalRank(s) && !Next(s, a).h.running
  {
    assert s.h.main.Joining? ==> s.hpipe.receiver.NotStarted? by { hide PipeInv, DInv, KernelInv, HunterPackets; }
    hide Inv, NextJoin, NextHunt, NextLeave, Receive, SignalRank, HuntEnabled, LeaveEnabled;
    if a.HReceiver? {
      ReceiverLowers(s, Next(s, a));
    } else {
      match s.h.main
      case Joining(pc) => JoinLowers(s, pc, Next(s, a));
      case Hunting(pc) => HuntLowers(s, pc, Next(s, a));
      case Leaving(pc) => LeaveLowersToo(s, pc, a.save, a.fileOpens, Next(s, a));
    }
  }

  lemma OthersKeepSignalRank(s: Sys, a: Action)
    requires Inv(s) && !s.h.running && Enabled(s, a) && !HunterStep(a)
    ensures SignalRank(Next(s, a)) == SignalRank(s) && !Next(s, a).h.running
    ensures Next(s, a).h == s.h
  {
    if a.HookStep? {
      HookFrame(s, a.run, Next(s, a));
      hide NextHook, MainRank, Inv;
    } else {
      OthersLeaveHunter(s, a);
      hide Next, Enabled, MainRank, Inv;
    }
  }

  // ----- where the hunter can come to rest -----

  /** Neither thread can move. */
  predicate AtRest(s: Sys) { !Enabled(s, HMain(false, false)) && !Enabled(s, HReceiver) }

  predicate BothEnded(s: Sys) { s.h.main.HDone? && ReceiverDone(s.hpipe) }

  /** Exactly where it can: both threads have ended; or main waits for a reply, the receiver having
      ended or waiting too; or main waits in join for a receiver in recv. */
  lemma AtRestIff(s: Sys)
    requires Inv(s)
    ensures AtRest(s) <==>
      BothEnded(s) || (AwaitsReply(s) && !Enabled(s, HReceiver)) || Stuck(s)
  {
    assert HunterInv(s.h, s.hpipe, s.k.slots.hunter, s.hunterPid) && PipeInv(s.hpipe) by {
      hide PipeInv, HunterInv, DInv, KernelInv;
    }
    hide Inv, Stored, NoStopIn, HunterSlot;
  }

  /** A terminate message sent after the signal leaves nobody stuck. */
  predicate StopWillDo(s: Sys) { HStopOffered(s.h.main) ==> s.h.stopOk }

  lemma StopStaysOk(s: Sys, a: Action)
    requires Inv(s) && !s.h.running && StopWillDo(s) && Enabled(s, a) && HunterStep(a)
    ensures StopWillDo(Next(s, a))
  {
    if a.HMain? {
      match s.h.main {
        case Joining(pc) => JoinDoesNotLeave(s, pc, Next(s, a));
        case Hunting(pc) => HuntMoves(s, pc, Next(s, a));
        case Leaving(pc) =>
          if pc.HUnsubStop? {
            SendingReleases(s, pc, a.save, a.fileOpens, Next(s, a));
          } else {
            LeaveMoves(s, pc, a.save, a.fileOpens, Next(s, a));
            LeaveKeepsFlag(s, pc, a.save, a.fileOpens, Next(s, a));
          }
      }
    }
    hide Inv, NextJoin, NextHunt, NextLeave;
  }

  lemma {:induction false} SignalledStepsAreBounded(t: seq<Sys>, acts: seq<Action>)
    requires Linked(t, acts) && Inv(t[0]) && !t[0].h.running
    ensures Inv(t[|acts|]) && !t[|acts|].h.running
    ensures HunterSteps(acts) + SignalRank(t[|acts|]) <= SignalRank(t[0])
    ensures StopWillDo(t[0]) ==> StopWillDo(t[|acts|])
    decreases |acts|
  {
    hide Inv, SignalRank, StopWillDo, Next, Enabled;
    if acts != [] {
      var n := |acts| - 1;
      SignalledStepsAreBounded(t[..n + 1], acts[..n]);
      assert Enabled(t[n], acts[n]) && t[n + 1] == Next(t[n], acts[n]);
      InvNext(t[n], acts[n]);
      if HunterStep(acts[n]) {
        HunterStepLowers(t[n], acts[n]);
        if StopWillDo(t[n]) { StopStaysOk(t[n], acts[n]); }
      } else {
        OthersKeepSignalRank(t[n], acts[n]);
        SameStop(t[n], t[n + 1]);
      }
    }
  }

  lemma SameStop(s: Sys, s': Sys)
    requires s'.h == s.h
    ensures StopWillDo(s) <==> StopWillDo(s')
  {}

  lemma NotStuckWhenReleased(s: Sys)
    requires ReleaseInv(s) && StopWillDo(s) && !s.h.running
    ensures !Stuck(s)
  {}

  /** After a signal the hunter ends, or comes to wait for the daemon's reply. From any point of any run
      with `running` false its threads take boundedly many steps; when neither can move any more, both
      have ended, or main waits for a reply; or it is stuck in join, but then it had sent its terminate
      message, unreleased, before. */
  lemma SignalledHunterStops(t: seq<Sys>, acts: seq<Action>, k: nat)
    requires Run(t, acts) && k <= |acts| && !t[k].h.running
    ensures HunterSteps(acts[k..]) <= SignalRank(t[k])
    ensures
      var s := t[|acts|];
      && (BothEnded(s) || Enabled(s, HMain(false, false)) || Enabled(s, HReceiver) || AwaitsReply(s) || Stuck(s))
      && (Stuck(s) ==> HStopOffered(t[k].h.main) && !t[k].h.stopOk)
  {
    hide Next, Enabled, Inv, SignalRank, ReleaseInv, Init;
    ReleaseAlways(t, acts, k);
    ReleaseAlways(t, acts, |acts|);
    var rest, more := t[k..], acts[k..];
    forall i | 0 <= i < |more| ensures Enabled(rest[i], more[i]) && rest[i + 1] == Next(rest[i], more[i]) {
      assert rest[i] == t[k + i] && rest[i + 1] == t[k + i + 1] && more[i] == acts[k + i];
    }
    SignalledStepsAreBounded(rest, more);
    assert t[|acts|] == rest[|more|];
    AtRestIff(t[|acts|]);
    if StopWillDo(t[k]) { NotStuckWhenReleased(t[|acts|]); }
  }
}
