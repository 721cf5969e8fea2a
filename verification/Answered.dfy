/** The daemon answers. While it runs and is not told to stop, a hunter whose connection the server
    thread has taken up is not hung up on: within nine steps of that thread it has its reply, which is
    what the map said of its port. */
module Answered {
  import opened Packets
  import opened PortToPidMap
  import opened Pipeline
  import opened HutKarish
  import opened Invariants
  import opened HunterSignal
  import opened Lookups = Lookup
  import opened ReplyWait
  import EarlySignal

  /** The server thread attends to the hunter and is not about to hang up. */
  predicate Answering(s: Sys) { Attended(s.d) && !s.d.server.HangingUp? }

  /** What it looked up is about to go out. */
  predicate AboutToSend(pc: ServerPc) { pc.Serving? && pc.v.Send? }

  predicate Sends(s: Sys, a: Action) { a.DServer? && AboutToSend(s.d.server) }

  // ----- one step of the server thread -----

  lemma AcceptAnswers(s: Sys, pc: AcceptPc, fails: bool, s': Sys)
    requires pc == Assign(HunterPeer) || (pc.TestAccepted? && Live(s.d) && !s.d.shutting)
    requires s.d.server == Accepting(pc) && s' == NextAccept(s, pc, fails)
    ensures Answering(s') && s'.w == s.w
    ensures AnswerRank(s'.d.server) < AnswerRank(s.d.server)
  {}

  /** It tests, reads the port and looks it up; */
  lemma ServeAnswers(s: Sys, pc: ServePc, s': Sys)
    requires s.d.running && Live(s.d) && s.d.server == Serving(pc) && !pc.Send? && ServeEnabled(s, pc)
    requires (pc.Read? ==> s.w.toServer != []) && s' == NextServe(s, pc)
    ensures Answering(s') && s'.w.open == s.w.open && s'.w.toClient == s.w.toClient
    ensures AnswerRank(s'.d.server) < AnswerRank(s.d.server)
  {
    hide EndOfInput, Reply;
  }

  /** and sends what it found. */
  lemma SendAnswers(s: Sys, pid: int, hunter: bool, s': Sys)
    requires Live(s.d) && s.d.server == Serving(Send(pid, hunter)) && s.w.toClient == []
    requires s' == NextServe(s, Send(pid, hunter))
    ensures s'.w == s.w.(toClient := [pid])
  {
    assert [] + [pid] == [pid];
  }

  /** The reply in hand is the one the server looked up for the hunter's one open request. */
  lemma SendingTheReply(s: Sys)
    requires WaitInv(s) && AwaitsReply(s) && Live(s.d) && AboutToSend(s.d.server)
    ensures |s.w.served| == |s.w.replies| + 1 == |s.w.requests| && s.d.server.v.pid == s.w.served[|s.w.replies|]
  {
    assert AskInv(s.h.main, s.hpipe.heap, s.w) && ServerInv(s.d, s.w, true) by { hide Inv, ServerInv, AskInv, OpenInv; }
    hide Inv, LookupInv, OpenInv;
  }

  lemma NotShutting(s: Sys)
    requires WaitInv(s) && s.d.running
    ensures !s.d.shutting && !Left(s.d.main)
  {
    SocketOf(s);
    hide Inv, LookupInv;
  }

  lemma AnsweringStep(s: Sys, fails: bool, s': Sys)
    requires WaitInv(s) && AwaitsReply(s) && Answering(s) && s.d.running
    requires DServerEnabled(s, fails) && s' == NextDServer(s, fails)
    ensures s'.w.open && s'.h == s.h && s'.w.requests == s.w.requests && s'.w.replies == s.w.replies
    ensures AboutToSend(s.d.server) ==> s'.w.toClient == [s.d.server.v.pid]
    ensures !AboutToSend(s.d.server) ==>
      AwaitsReply(s') && Answering(s') && AnswerRank(s'.d.server) < AnswerRank(s.d.server)
  {
    WhileAttended(s);
    NotShutting(s);
    ServerFrame(s, fails, s');
    hide WaitInv, NextAccept, NextServe, NextHangUp, ServeEnabled, AnswerRank;
    match s.d.server
    case Accepting(pc) => AcceptAnswers(s, pc, fails, s');
    case Serving(pc) =>
      if pc.Send? { SendAnswers(s, pc.pid, pc.hunter, s'); } else { ServeAnswers(s, pc, s'); }
  }

  // ----- the other steps -----

  /** Nobody else ends the wait, or takes the server thread away from it, while the daemon runs. */
  lemma OthersLetItAnswer(s: Sys, a: Action)
    requires WaitInv(s) && AwaitsReply(s) && Answering(s) && s.d.running
    requires Enabled(s, a) && !a.DServer? && !a.SignalDaemon?
    ensures AwaitsReply(Next(s, a)) && Answering(Next(s, a)) && Next(s, a).d.server == s.d.server
    ensures Next(s, a).w.requests == s.w.requests && Next(s, a).w.replies == s.w.replies
  {
    OtherSteps(s, a);
    NotShutting(s);
    WhileAttended(s);
    SocketOf(s);
    OthersKeepWire(s, a);
    hide WaitInv, Next, Enabled;
  }

  lemma OthersKeepWire(s: Sys, a: Action)
    requires SocketInv(s.d) && AwaitsReply(s) && s.d.running && !Left(s.d.main) && !s.d.server.Unborn?
    requires Enabled(s, a) && !a.DServer? && !a.SignalDaemon?
    ensures Next(s, a).h.main == s.h.main
    ensures Next(s, a).w == s.w.(otherIn := Next(s, a).w.otherIn, otherGone := Next(s, a).w.otherGone)
  {
    if a.DMain? { DMainIdles(s, Next(s, a)); }
    if a.HMain? { WaitingDoesNotMove(s, a.save, a.fileOpens); }
    if a.HookStep? { HookFrame(s, a.run, Next(s, a)); }
    hide NextDMain, NextHMain, NextHook, DMainEnabled, HMainEnabled, Receive, AwaitsReply;
  }

  // ----- runs -----

  ghost function ServerStepsIn(acts: seq<Action>, k: nat, n: nat): nat
    requires k <= n <= |acts|
  {
    if n == k then 0 else ServerStepsIn(acts, k, n - 1) + if acts[n - 1].DServer? then 1 else 0
  }

  /** The hunter waits, and is being answered, all along. */
  ghost predicate AnsweringFrom(t: seq<Sys>, k: nat, n: nat)
    requires k <= n < |t|
  {
    forall i :: k <= i <= n ==>
      AwaitsReply(t[i]) && Answering(t[i]) && t[i].d.running
      && t[i].w.requests == t[k].w.requests && t[i].w.replies == t[k].w.replies
  }

  /** In a run in which nobody tells the daemon to stop, a hunter that is being answered goes on being so,
      for at most nine steps of the server thread, up to the step that sends. */
  lemma {:induction false} AnsweringGoesOn(t: seq<Sys>, acts: seq<Action>, k: nat, n: nat)
    requires Run(t, acts) && k <= n <= |acts|
    requires AwaitsReply(t[k]) && Answering(t[k]) && t[k].d.running
    requires forall i :: k <= i < n ==> !acts[i].SignalDaemon? && !Sends(t[i], acts[i])
    ensures AnsweringFrom(t, k, n)
    ensures ServerStepsIn(acts, k, n) + AnswerRank(t[n].d.server) <= AnswerRank(t[k].d.server) <= 9
    decreases n
  {
    hide Init, Next, Enabled, WaitInv, AwaitsReply, Answering;
    if k < n {
      AnsweringGoesOn(t, acts, k, n - 1);
      var s, a := t[n - 1], acts[n - 1];
      WaitAlways(t, acts, n - 1);
      RunningStays(s, a);
      if a.DServer? { AnsweringAction(s, a); } else { OthersLetItAnswer(s, a); }
    }
  }

  lemma RunningStays(s: Sys, a: Action)
    requires WaitInv(s) && Enabled(s, a) && s.d.running && !a.SignalDaemon?
    ensures Next(s, a).d.running
  {
    EarlySignal.ServerEndsStep(s, a);
    hide Next, Enabled, Inv;
  }

  lemma AnsweringAction(s: Sys, a: Action)
    requires WaitInv(s) && AwaitsReply(s) && Answering(s) && s.d.running && Enabled(s, a) && a.DServer?
    ensures
      var s' := Next(s, a);
      && s'.w.open && s'.h == s.h && s'.w.requests == s.w.requests && s'.w.replies == s.w.replies
      && (AboutToSend(s.d.server) ==> s'.w.toClient == [s.d.server.v.pid])
      && (!AboutToSend(s.d.server) ==>
           AwaitsReply(s') && Answering(s') && AnswerRank(s'.d.server) < AnswerRank(s.d.server))
  {
    hide WaitInv, AwaitsReply, Answering, NextDServer, DServerEnabled;
    AnsweringStep(s, a.acceptFails, Next(s, a));
  }

  /** And it can go on: the server thread can take its next step, at once or when the lock is let go of. */
  lemma AnswererCanMove(t: seq<Sys>, acts: seq<Action>, n: nat)
    requires Run(t, acts) && n < |t| && AwaitsReply(t[n]) && Answering(t[n])
    ensures DServerEnabled(t[n], false) || (t[n].d.locked && Enabled(t[n], DMain))
  {
    hide Init, Next, Enabled, WaitInv, AwaitsReply, DServerEnabled;
    WaitAlways(t, acts, n);
    AnswererNotIdle(t[n]);
    if t[n].d.locked { LockHolderMoves(t[n]); }
  }

  lemma LockHolderMoves(s: Sys)
    requires WaitInv(s) && s.d.locked
    ensures Enabled(s, DMain)
  {
    LockIsReleased(s);
  }

  lemma AnswererNotIdle(s: Sys)
    requires WaitInv(s) && AwaitsReply(s) && Answering(s)
    ensures DServerEnabled(s, false) || s.d.locked
  {
    WhileAttended(s);
    hide WaitInv;
  }

  /** The step that sends: the hunter has its reply, on an open connection, and it is what the map said
      of the port it had asked about, at an instant at which no scan held the lock. */
  lemma ReplyComes(t: seq<Sys>, acts: seq<Action>, m: nat) returns (l: nat)
    requires Run(t, acts) && m < |acts| && AwaitsReply(t[m]) && Answering(t[m]) && t[m].d.running
    requires Sends(t[m], acts[m])
    ensures |t[m].w.requests| == |t[m].w.replies| + 1
    ensures l < m && AnsweredAt(t[l], |t[m].w.replies|, t[m].w.requests[|t[m].w.replies|], t[m].d.server.v.pid)
    ensures t[m + 1].w.toClient == [t[m].d.server.v.pid] && t[m + 1].w.open && t[m + 1].h == t[m].h
    ensures t[m + 1].w.requests == t[m].w.requests && t[m + 1].w.replies == t[m].w.replies
    ensures
      var s := t[m + 1];
      Enabled(s, HMain(false, false)) &&
      Next(s, HMain(false, false)).h.main == Hunting(HInsert(t[m].h.main.u.id, t[m].d.server.v.pid))
  {
    WaitAlways(t, acts, m);
    var s := t[m];
    hide Init, WaitInv;
    NotAccepting(s);
    SendingTheReply(s);
    l := ServedFromTheMap(t, acts, m, |s.w.replies|);
    assert Enabled(s, acts[m]) && t[m + 1] == Next(s, acts[m]) by { hide Next, Enabled; }
    AnsweringAction(s, acts[m]);
    TakesReply(t[m + 1], t[m].h.main.u.id, t[m].d.server.v.pid);
    hide Next, Enabled, AnsweredAt;
  }

  lemma NotAccepting(s: Sys)
    requires Answering(s) && s.d.server.Serving?
    ensures Live(s.d)
  {}

  lemma TakesReply(s: Sys, id: nat, pid: int)
    requires s.h.main == Hunting(HWait(id)) && s.w.toClient == [pid]
    ensures Enabled(s, HMain(false, false))
    ensures Next(s, HMain(false, false)).h.main == Hunting(HInsert(id, pid))
  {}

  // ----- another client -----

  /** Another client's request is taken, looked up once the map is free, and answered; then it is asked
      for its next one. */
  lemma OtherIsServed(s: Sys)
    requires s.d.server == Serving(Read) && s.d.clientFd == Some(OtherPeer) && s.d.fdOpen && s.w.otherIn != []
    requires !s.d.locked
    ensures
      var s1 := NextServe(s, Read);
      var pid := if s.w.otherIn[0] in s.d.portMap && s.d.portMap[s.w.otherIn[0]] != 0
        then s.d.portMap[s.w.otherIn[0]] else -1;
      && s1 == s.(d := s.d.(server := Serving(LookUp(s.w.otherIn[0], false))),
           w := s.w.(otherIn := s.w.otherIn[1..]))
      && NextServe(s1, LookUp(s.w.otherIn[0], false)) == s1.(d := s.d.(server := Serving(Send(pid, false))))
      && NextServe(s1, Send(pid, false)) == s1.(d := s.d.(server := Serving(ServeTest)))
  {}
}
