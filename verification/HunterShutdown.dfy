/** The hunter's shutdown. Its receiver is released when, at the moment the terminate message is
    sent, `running` is false or the message is accepted; in exactly the other case, a loop left by
    `break` with the channel full, the join can wait for ever. */
module HunterShutdown {
  import opened Packets
  import opened Pipeline
  import opened HutKarish
  import opened Invariants
  import MessageQueue

  predicate HunterStep(a: Action) { a.HMain? || a.HReceiver? }

  predicate HasStop(msgs: seq<PacketInfo>) { MessageQueue.BeforeStop(msgs) < |msgs| }

  predicate HoldsStop(p: Pipe) { p.receiver.Test? && p.receiver.id < |p.heap| && IsStop(p.heap[p.receiver.id]) }

  /** The receiver will not wait for ever. */
  predicate Released(p: Pipe, running: bool) {
    || ReceiverDone(p) || HasStop(p.chan) || HoldsStop(p)
    || (!running && (p.receiver.Recv? ==> p.chan != []))
  }

  predicate ReleaseInv(s: Sys) {
    HStopOffered(s.h.main) && s.h.stopOk ==> Released(s.hpipe, s.h.running)
  }

  // ----- what keeps the receiver released -----

  lemma {:induction false} StopStaysFirst(msgs: seq<PacketInfo>, msg: PacketInfo)
    ensures HasStop(msgs) ==> MessageQueue.BeforeStop(msgs + [msg]) == MessageQueue.BeforeStop(msgs)
    ensures !HasStop(msgs) && !IsStop(msg) ==> !HasStop(msgs + [msg])
    ensures IsStop(msg) ==> HasStop(msgs + [msg])
  {
    if msgs != [] && !IsStop(msgs[0]) {
      StopStaysFirst(msgs[1..], msg);
      assert (msgs + [msg])[1..] == msgs[1..] + [msg];
    } else if msgs == [] {
      assert msgs + [msg] == [msg];
    }
  }

  lemma OfferKeepsReleased(p: Pipe, running: bool, msg: PacketInfo)
    requires Released(p, running)
    ensures Released(Offer(p, msg), running)
  {
    StopStaysFirst(p.chan, msg);
  }

  lemma ReceiveKeepsReleased(p: Pipe, running: bool)
    requires PipeInv(p) && Released(p, running) && CanReceive(p)
    ensures Released(Receive(p, running), running)
  {}

  lemma HookKeepsRelease(s: Sys, r: nat, s': Sys)
    requires ReleaseInv(s) && Enabled(s, HookStep(r)) && s' == NextHook(s, r)
    ensures ReleaseInv(s')
  {
    if ReleaseInv(s) && HStopOffered(s.h.main) && s.h.stopOk {
      OfferKeepsReleased(s.hpipe, s.h.running, s.k.arrivals[r]);
    }
    hide Released, Offer;
  }

  lemma SendingReleases(s: Sys, pc: LeavePc, save: bool, fileOpens: bool, s': Sys)
    requires Inv(s) && s.h.main == Leaving(HUnsubStop) && s' == NextLeave(s, HUnsubStop, save, fileOpens)
    ensures s'.h.stopOk <==> !s.h.running || |s.hpipe.chan| < s.hpipe.cap
    ensures s'.h.main == Leaving(HUnsubFlag) && s'.h.running == s.h.running
    ensures s'.hpipe == Offer(s.hpipe, STOP_MESSAGE)
    ensures ReleaseInv(s')
  {
    LeaveFrame(s, HUnsubStop, save, fileOpens, s');
    StopStaysFirst(s.hpipe.chan, STOP_MESSAGE);
    hide DaemonInv;
  }

  lemma LeaveKeepsRelease(s: Sys, pc: LeavePc, save: bool, fileOpens: bool, s': Sys)
    requires Inv(s) && ReleaseInv(s) && s.h.main == Leaving(pc) && LeaveEnabled(s, pc)
    requires s' == NextLeave(s, pc, save, fileOpens)
    ensures ReleaseInv(s')
    ensures !pc.HUnsubStop? ==> s'.h.stopOk == s.h.stopOk && s'.h.running == s.h.running && HStopOffered(s'.h.main)
  {
    if pc.HUnsubStop? {
      SendingReleases(s, pc, save, fileOpens, s');
    } else {
      LeaveFrame(s, pc, save, fileOpens, s');
      LeaveMoves(s, pc, save, fileOpens, s');
      LeaveKeepsFlag(s, pc, save, fileOpens, s');
    }
    hide NextLeave, DaemonInv, HunterInv, KernelInv;
  }

  lemma LeaveKeepsFlag(s: Sys, pc: LeavePc, save: bool, fileOpens: bool, s': Sys)
    requires !pc.HUnsubStop? && LeaveEnabled(s, pc) && s' == NextLeave(s, pc, save, fileOpens)
    ensures s'.h.stopOk == s.h.stopOk
  {}

  lemma HMainKeepsRelease(s: Sys, save: bool, fileOpens: bool, s': Sys)
    requires Inv(s) && ReleaseInv(s) && HMainEnabled(s) && s' == NextHMain(s, save, fileOpens)
    ensures ReleaseInv(s')
  {
    match s.h.main
    case Joining(pc) => JoinDoesNotLeave(s, pc, s');
    case Hunting(pc) => HuntMoves(s, pc, s');
    case Leaving(pc) => LeaveKeepsRelease(s, pc, save, fileOpens, s');
    hide NextJoin, NextHunt, NextLeave, Inv, Released;
  }

  lemma JoinDoesNotLeave(s: Sys, pc: JoinPc, s': Sys)
    requires s' == NextJoin(s, pc)
    ensures !HStopOffered(s'.h.main)
  {}

  /** What the daemon's threads and the environment leave alone. */
  lemma OthersLeaveHunter(s: Sys, a: Action)
    requires Inv(s) && Enabled(s, a) && !HunterStep(a) && !a.HookStep?
    ensures Next(s, a).hpipe == s.hpipe
    ensures Next(s, a).h == if a.SignalHunter? then s.h.(running := false) else s.h
  {
    if a.DMain? { DMainLeavesHunter(s, Next(s, a)); }
    if a.DServer? { ServerFrame(s, a.acceptFails, Next(s, a)); }
    hide Inv, NextDMain, NextDServer, DMainEnabled, DServerEnabled;
  }

  lemma DMainLeavesHunter(s: Sys, s': Sys)
    requires Inv(s) && DMainEnabled(s) && s' == NextDMain(s)
    ensures s'.h == s.h && s'.hpipe == s.hpipe
  {
    match s.d.main
    case Build(pc) => BuildFrame(s, pc, s');
    case Start(pc) => StartFrame(s, pc, s');
    case Loop(pc) => LoopFrame(s, pc, s');
    case Stop(pc) => StopFrame(s, pc, s');
    case Release(pc) => ReleaseFrame(s, pc, s');
    hide NextBuild, NextStart, NextLoop, NextStop, NextRelease;
  }

  lemma ReleaseNext(s: Sys, a: Action)
    requires Inv(s) && ReleaseInv(s) && Enabled(s, a)
    ensures ReleaseInv(Next(s, a))
  {
    match a {
      case HookStep(r) => HookKeepsRelease(s, r, Next(s, a));
      case HMain(save, fileOpens) => HMainKeepsRelease(s, save, fileOpens, Next(s, a));
      case HReceiver => if Released(s.hpipe, s.h.running) { ReceiveKeepsReleased(s.hpipe, s.h.running); }
      case _ => OthersLeaveHunter(s, a);
    }
    hide Inv, NextHook, NextHMain, NextDMain, NextDServer, Receive, HMainEnabled, DMainEnabled;
  }

  lemma ReleaseInit(s: Sys)
    requires Init(s)
    ensures ReleaseInv(s)
  {}

  lemma {:induction false} ReleaseAlways(t: seq<Sys>, acts: seq<Action>, n: nat)
    requires Run(t, acts) && n < |t|
    ensures Inv(t[n]) && ReleaseInv(t[n])
  {
    hide Inv, ReleaseInv, Next, Enabled;
    InvAlways(t, acts, n);
    if n == 0 {
      ReleaseInit(t[0]);
    } else {
      ReleaseAlways(t, acts, n - 1);
      ReleaseNext(t[n - 1], acts[n - 1]);
    }
  }

  // ----- released: the hunter's threads end -----

  function LeaveRank(pc: HunterPc): nat {
    match pc
    case Joining(_) => 20
    case Hunting(_) => 20
    case Leaving(v) =>
      (match v case HUnsubStop => 10 case HUnsubFlag => 9 case HUnsubPid => 8 case HJoin => 7
       case HCleanTest => 6 case HCleanPop => 5 case HChoice => 4)
    case HDone => 0
  }

  /** Steps from here to the next recv. */
  function SinceRecv(pc: ReceiverPc): nat {
    if pc.Recv? then 0 else if pc.Check? then 1 else if pc.Push? then 2 else if pc.Test? then 3 else 4
  }

  /** How much the receiver still has to do: up to the terminate message if one is waiting. */
  function WorkRank(p: Pipe): nat {
    if ReceiverDone(p) then 0
    else if HoldsStop(p) then 1
    else if HasStop(p.chan) then 4 * (MessageQueue.BeforeStop(p.chan) + 1) + SinceRecv(p.receiver)
    else if p.receiver.Recv? then 6
    else 1 + SinceRecv(p.receiver)
  }

  function HRank(s: Sys): nat { LeaveRank(s.h.main) + 3 * WorkRank(s.hpipe) + 2 * |s.hpipe.queue| }

  predicate HunterLeaving(s: Sys) { Inv(s) && HStopOffered(s.h.main) && s.h.stopOk && ReleaseInv(s) }

  lemma WorkLowers(p: Pipe, running: bool)
    requires PipeInv(p) && Released(p, running) && CanReceive(p)
    ensures 3 * WorkRank(Receive(p, running)) + 2 * |Receive(p, running).queue| < 3 * WorkRank(p) + 2 * |p.queue|
  {}

  lemma OfferKeepsWork(p: Pipe, msg: PacketInfo)
    requires !IsStop(msg)
    ensures WorkRank(Offer(p, msg)) == WorkRank(p) && Offer(p, msg).queue == p.queue
  {
    StopStaysFirst(p.chan, msg);
  }

  lemma LeaveLowers(s: Sys, pc: LeavePc, save: bool, fileOpens: bool, s': Sys)
    requires s.h.main == Leaving(pc) && LeaveEnabled(s, pc) && !pc.HUnsubStop?
    requires s' == NextLeave(s, pc, save, fileOpens)
    ensures LeaveRank(s'.h.main) + 2 * |s'.hpipe.queue| < LeaveRank(s.h.main) + 2 * |s.hpipe.queue|
    ensures WorkRank(s'.hpipe) == WorkRank(s.hpipe)
  {
    hide StoredIds;
  }

  lemma HunterStepsLower(s: Sys, a: Action)
    requires HunterLeaving(s) && Enabled(s, a) && HunterStep(a)
    ensures HunterLeaving(Next(s, a)) && HRank(Next(s, a)) < HRank(s)
  {
    InvNext(s, a);
    ReleaseNext(s, a);
    if a.HMain? {
      LeaveLowers(s, s.h.main.v, a.save, a.fileOpens, Next(s, a));
      LeaveKeepsRelease(s, s.h.main.v, a.save, a.fileOpens, Next(s, a));
    } else {
      WorkLowers(s.hpipe, s.h.running);
    }
    hide Inv, NextLeave, Receive, WorkRank, LeaveRank, Released, ReleaseInv;
  }

  lemma HookKeepsHRank(s: Sys, r: nat, s': Sys)
    requires HunterLeaving(s) && Enabled(s, HookStep(r)) && s' == NextHook(s, r)
    ensures HunterLeaving(s') && HRank(s') == HRank(s)
  {
    InvNext(s, HookStep(r));
    ReleaseNext(s, HookStep(r));
    OfferKeepsWork(s.hpipe, s.k.arrivals[r]);
    HookFrame(s, r, s');
    hide DaemonInv, HunterInv, PipeInv, ReleaseInv, WorkRank, LeaveRank, NextHook, Offer;
  }

  lemma OthersKeepHRank(s: Sys, a: Action)
    requires HunterLeaving(s) && Enabled(s, a) && !HunterStep(a)
    ensures HunterLeaving(Next(s, a)) && HRank(Next(s, a)) == HRank(s)
  {
    if a.HookStep? {
      HookKeepsHRank(s, a.run, Next(s, a));
    } else {
      InvNext(s, a);
      ReleaseNext(s, a);
      OthersLeaveHunter(s, a);
    }
    hide Inv, ReleaseInv, WorkRank, LeaveRank, Next, Enabled;
  }

  lemma HunterNeverStuck(s: Sys)
    requires HunterLeaving(s) && !s.h.main.HDone?
    ensures Enabled(s, HMain(false, false)) || Enabled(s, HReceiver)
  {
    hide DaemonInv, KernelInv;
  }

  function HunterSteps(acts: seq<Action>): nat {
    if acts == [] then 0 else HunterSteps(acts[..|acts| - 1]) + if HunterStep(acts[|acts| - 1]) then 1 else 0
  }

  lemma {:induction false} HunterStepsAreBounded(t: seq<Sys>, acts: seq<Action>)
    requires Linked(t, acts) && HunterLeaving(t[0])
    ensures HunterLeaving(t[|acts|]) && HunterSteps(acts) + HRank(t[|acts|]) <= HRank(t[0])
    decreases |acts|
  {
    hide HunterLeaving, HRank, Next, Enabled;
    if acts != [] {
      var n := |acts| - 1;
      HunterStepsAreBounded(t[..n + 1], acts[..n]);
      assert Enabled(t[n], acts[n]) && t[n + 1] == Next(t[n], acts[n]);
      if HunterStep(acts[n]) { HunterStepsLower(t[n], acts[n]); } else { OthersKeepHRank(t[n], acts[n]); }
    }
  }

  /** The hunter ends: from any point of any run after a terminate message sent with `running` false
      or accepted, its threads take boundedly many steps, and can move until both are over. */
  lemma {:induction false} HunterShutdownCompletes(t: seq<Sys>, acts: seq<Action>, k: nat)
    requires Run(t, acts) && k <= |acts| && HStopOffered(t[k].h.main) && t[k].h.stopOk
    ensures HunterSteps(acts[k..]) <= HRank(t[k])
    ensures (t[|acts|].h.main.HDone? && ReceiverDone(t[|acts|].hpipe)) ||
      Enabled(t[|acts|], HMain(false, false)) || Enabled(t[|acts|], HReceiver)
  {
    ReleaseAlways(t, acts, k);
    var rest, more := t[k..], acts[k..];
    var last := t[|acts|];
    hide Next, Enabled, Inv, HRank, ReleaseInv;
    forall i | 0 <= i < |more| ensures Enabled(rest[i], more[i]) && rest[i + 1] == Next(rest[i], more[i]) {
      assert rest[i] == t[k + i] && rest[i + 1] == t[k + i + 1] && more[i] == acts[k + i];
    }
    HunterStepsAreBounded(rest, more);
    assert HunterLeaving(last) by { assert last == rest[|more|]; }
    if last.h.main.HDone? { HunterEndedWhenDone(last); } else { HunterNeverStuck(last); }
  }

  lemma HunterEndedWhenDone(s: Sys)
    requires Inv(s) && s.h.main.HDone?
    ensures ReceiverDone(s.hpipe)
  {}

  // ----- not released: the join can hang -----

  /** Main waits in join, the receiver waits in recv, and nobody will send to it again. */
  predicate Stuck(s: Sys) { s.h.main == Leaving(HJoin) && s.hpipe.receiver.Recv? && s.hpipe.chan == [] }

  lemma HookPassesBy(s: Sys, r: nat, s': Sys)
    requires Inv(s) && Stuck(s) && Enabled(s, HookStep(r)) && s' == NextHook(s, r)
    ensures Stuck(s')
  {
    hide PipeInv, DaemonReceiver, DaemonPackets, SocketInv, Scannable;
  }

  /** Being stuck is for ever, whatever anyone does; a signal does not help either. */
  lemma StuckForEver(s: Sys, a: Action)
    requires Inv(s) && Stuck(s) && Enabled(s, a)
    ensures Stuck(Next(s, a)) && !a.HMain? && !a.HReceiver?
  {
    if a.HookStep? { HookPassesBy(s, a.run, Next(s, a)); }
    else if !HunterStep(a) { OthersLeaveHunter(s, a); }
    hide Inv, NextHook, NextDMain, NextDServer;
  }

  /** After the join began unreleased: still running, and nothing to stop the receiver. */
  predicate Draining(s: Sys) {
    && Inv(s) && s.h.main == Leaving(HJoin) && s.h.running
    && NoStopIn(s.hpipe.accepted) && !ReceiverDone(s.hpipe)
  }

  /** Steps left until the receiver has read all there is. */
  function DrainRank(p: Pipe): nat {
    4 * |p.chan| + SinceRecv(p.receiver)
  }

  lemma DrainStep(s: Sys)
    requires Draining(s) && !Stuck(s)
    ensures Enabled(s, HReceiver) && Draining(Next(s, HReceiver))
    ensures DrainRank(Next(s, HReceiver).hpipe) < DrainRank(s.hpipe)
  {
    assert Enabled(s, HReceiver) by {
      assert !s.hpipe.receiver.NotStarted?;
      hide DaemonInv, KernelInv;
    }
    InvNext(s, HReceiver);
    ReceiveAgain(s.hpipe);
    hide Inv, Receive, DrainRank;
  }

  lemma ReceiveAgain(p: Pipe)
    requires PipeInv(p) && NoStopIn(p.accepted) && CanReceive(p)
    ensures Receive(p, true).accepted == p.accepted && !ReceiverDone(Receive(p, true))
    ensures DrainRank(Receive(p, true)) < DrainRank(p)
  {
    if p.receiver.Test? { assert p.heap[p.receiver.id] == p.accepted[p.receiver.id]; }
  }

  lemma {:induction false} DrainToStuck(s: Sys) returns (t: seq<Sys>, acts: seq<Action>)
    requires Draining(s)
    ensures Linked(t, acts) && t[0] == s && Stuck(t[|acts|])
    decreases DrainRank(s.hpipe)
  {
    if Stuck(s) {
      t, acts := [s], [];
    } else {
      DrainStep(s);
      hide Draining, Next, Enabled, Stuck, DrainRank;
      t, acts := DrainToStuck(Next(s, HReceiver));
      LinkOne(s, HReceiver, t, acts);
      t, acts := [s] + t, [HReceiver] + acts;
    }
  }

  lemma LinkOne(s: Sys, a: Action, t: seq<Sys>, acts: seq<Action>)
    requires Linked(t, acts) && Enabled(s, a) && t[0] == Next(s, a)
    ensures Linked([s] + t, [a] + acts)
    ensures ([s] + t)[0] == s && ([s] + t)[|[a] + acts|] == t[|acts|]
  {
    hide Next, Enabled;
    var t', acts' := [s] + t, [a] + acts;
    forall i | 0 <= i < |acts'| ensures Enabled(t'[i], acts'[i]) && t'[i + 1] == Next(t'[i], acts'[i]) {
      if i > 0 { assert t'[i] == t[i - 1] && acts'[i] == acts[i - 1] && t'[i + 1] == t[i]; }
    }
  }

  lemma ToJoin(s: Sys, s1: Sys, s2: Sys, s3: Sys)
    requires Inv(s) && s.h.main == Leaving(HUnsubStop) && s.h.running && |s.hpipe.chan| == s.hpipe.cap
    requires s1 == NextLeave(s, HUnsubStop, false, false)
    requires s2 == NextLeave(s1, HUnsubFlag, false, false)
    requires s3 == NextLeave(s2, HUnsubPid, false, false)
    ensures s1.h.main == Leaving(HUnsubFlag) && s2.h.main == Leaving(HUnsubPid) && Draining(s3)
  {
    assert s1.hpipe == s.hpipe && s1.h.running by { LeaveFrame(s, HUnsubStop, false, false, s1); }
    NotDoneYet(s);
    InvNext(s, HMain(false, false));
    hide Inv, Deliver;
    InvNext(s1, HMain(false, false));
    InvNext(s2, HMain(false, false));
  }

  lemma NotDoneYet(s: Sys)
    requires Inv(s) && s.h.main == Leaving(HUnsubStop) && s.h.running
    ensures !ReceiverDone(s.hpipe) && NoStopIn(s.hpipe.accepted)
  {
    assert forall i :: 0 <= i < |s.hpipe.heap| ==> s.hpipe.heap[i] == s.hpipe.accepted[i];
    hide DaemonInv, KernelInv;
  }

  /** With `running` true and the channel full when the terminate message is sent, there is a way to
      go on that leaves the hunter stuck. */
  lemma FullChannelCanHang(s: Sys) returns (t: seq<Sys>, acts: seq<Action>)
    requires Inv(s) && s.h.main == Leaving(HUnsubStop) && s.h.running && |s.hpipe.chan| == s.hpipe.cap
    ensures Linked(t, acts) && Stuck(t[|acts|]) && t[0] == Next(s, HMain(false, false))
  {
    hide Inv, Deliver, SetHunterSlot;
    var s1 := NextLeave(s, HUnsubStop, false, false);
    var s2 := NextLeave(s1, HUnsubFlag, false, false);
    var s3 := NextLeave(s2, HUnsubPid, false, false);
    ToJoin(s, s1, s2, s3);
    assert s1 == Next(s, HMain(false, false));
    hide Draining, Stuck, Inv, NextLeave, Next, Linked;
    t, acts := DrainToStuck(s3);
    t, acts := LeaveOnce(s2, HUnsubPid, t, acts);
    t, acts := LeaveOnce(s1, HUnsubFlag, t, acts);
  }

  lemma LeaveOnce(s: Sys, pc: LeavePc, t: seq<Sys>, acts: seq<Action>) returns (t': seq<Sys>, acts': seq<Action>)
    requires s.h.main == Leaving(pc) && LeaveEnabled(s, pc)
    requires Linked(t, acts) && Stuck(t[|acts|]) && t[0] == NextLeave(s, pc, false, false)
    ensures Linked(t', acts') && Stuck(t'[|acts'|]) && t'[0] == s
  {
    assert Enabled(s, HMain(false, false)) && Next(s, HMain(false, false)) == t[0];
    LinkOne(s, HMain(false, false), t, acts);
    t', acts' := [s] + t, [HMain(false, false)] + acts;
  }

  lemma ReleasedIsNotStuck(t: seq<Sys>, acts: seq<Action>)
    requires Linked(t, acts) && HunterLeaving(t[0])
    ensures !Stuck(t[|acts|])
  {
    HunterStepsAreBounded(t, acts);
    hide Next, Enabled, Inv, HRank;
  }

  /** Exactly when the hunter's join can hang: after the step that sends the terminate message a
      stuck state is reachable if and only if, at that step, the main loop had been left by `break`
      (`running` is true) and the channel was full. */
  lemma JoinCanHangIff(s: Sys, save: bool, fileOpens: bool)
    requires Inv(s) && s.h.main == Leaving(HUnsubStop)
    ensures
      (exists t, acts :: Linked(t, acts) && t[0] == Next(s, HMain(save, fileOpens)) && Stuck(t[|acts|]))
      <==> s.h.running && |s.hpipe.chan| == s.hpipe.cap
  {
    var s' := Next(s, HMain(save, fileOpens));
    AfterSending(s, save, fileOpens);
    SameSend(s, save, fileOpens);
    hide Inv, Next, Enabled, ReleaseInv, Stuck, HunterLeaving;
    if s.h.running && |s.hpipe.chan| == s.hpipe.cap {
      var t, acts := FullChannelCanHang(s);
    } else {
      forall t, acts | Linked(t, acts) && t[0] == s' ensures !Stuck(t[|acts|]) {
        ReleasedIsNotStuck(t, acts);
      }
    }
  }

  /** Sent with `running` false or into a channel with room, the terminate message releases. */
  lemma AfterSending(s: Sys, save: bool, fileOpens: bool)
    requires Inv(s) && s.h.main == Leaving(HUnsubStop)
    ensures |s.hpipe.chan| <= s.hpipe.cap && Enabled(s, HMain(save, fileOpens))
    ensures !s.h.running || |s.hpipe.chan| < s.hpipe.cap ==> HunterLeaving(Next(s, HMain(save, fileOpens)))
  {
    InvNext(s, HMain(save, fileOpens));
    SendingReleases(s, HUnsubStop, save, fileOpens, Next(s, HMain(save, fileOpens)));
    assert |s.hpipe.chan| <= s.hpipe.cap by { hide DInv, HInv, KernelInv; }
    hide Inv, ReleaseInv, NextLeave;
  }

  lemma SameSend(s: Sys, save: bool, fileOpens: bool)
    requires s.h.main == Leaving(HUnsubStop)
    ensures Next(s, HMain(save, fileOpens)) == Next(s, HMain(false, false))
  {}
}
