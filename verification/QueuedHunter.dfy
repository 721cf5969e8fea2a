/** A hunter whose connection the server thread has yet to take up gets its turn, if accept does not
    fail and the clients before it say no more and hang up. */
module QueuedHunter {
  import opened Packets
  import opened PortToPidMap
  import opened Pipeline
  import opened HutKarish
  import opened Invariants
  import opened HunterSignal
  import opened Lookups = Lookup
  import opened ReplyWait

  /** How many connections are queued before the hunter's. */
  function Ahead(pending: seq<Peer>): nat {
    if pending == [] || pending[0] == HunterPeer then 0 else 1 + Ahead(pending[1..])
  }

  lemma {:induction false} AheadAppend(pending: seq<Peer>, peer: Peer)
    requires multiset(pending)[HunterPeer] > 0
    ensures Ahead(pending + [peer]) == Ahead(pending)
  {
    assert pending == [pending[0]] + pending[1..];
    assert (pending + [peer])[0] == pending[0] && (pending + [peer])[1..] == pending[1..] + [peer];
    if pending[0] != HunterPeer { AheadAppend(pending[1..], peer); }
  }

  /** Twice two steps for every request of the client being served. */
  function Unread(s: Sys): nat { if s.d.clientFd == Some(OtherPeer) then 4 * |s.w.otherIn| else 0 }

  /** Steps of the server thread until it next takes a connection up. */
  function TurnRank(pc: ServerPc, unread: nat): nat {
    match pc
    case Unborn => 8
    case Accepting(a) =>
      (match a case Assign(_) => 30 case TestAccepted => 29 + unread case CheckRunning => 7 case Accept => 6)
    case Serving(v) =>
      (match v case TestFd => 28 + unread case LookUp(_, _) => 26 + unread case Send(_, _) => 25 + unread
       case ServeTest => 24 + unread case Read => 23 + unread)
    case HangingUp(g) => (match g case HangUpTest => 10 case HangUp => 9 case HangUpClear => 8)
    case ServerExit => 0
  }

  function QueueRank(s: Sys): nat { 40 * Ahead(s.d.pending) + TurnRank(s.d.server, Unread(s)) }

  /** A waiting hunter whose turn is to come, with a daemon that runs. */
  predicate Queued(s: Sys) {
    WaitInv(s) && AwaitsReply(s) && !Attended(s.d) && s.d.running && !s.d.server.ServerExit?
  }

  lemma QueuedIsPending(s: Sys)
    requires Queued(s)
    ensures multiset(s.d.pending)[HunterPeer] > 0 && s.d.clientFd != Some(HunterPeer)
    ensures s.d.server != Accepting(Assign(HunterPeer))
  {
    OpenMeans(s);
    hide WaitInv;
  }

  // ----- steps of the server thread -----

  lemma AcceptTurn(s: Sys, pc: AcceptPc, s': Sys)
    requires s.d.running && s.d.server == Accepting(pc) && pc != Assign(HunterPeer)
    requires multiset(s.d.pending)[HunterPeer] > 0 && s.d.clientFd != Some(HunterPeer)
    requires AcceptEnabled(s, pc, false) && s' == NextAccept(s, pc, false)
    ensures s'.w.toClient == s.w.toClient && s'.w.open == s.w.open && s'.d.running && !s'.d.server.ServerExit?
    ensures Attended(s'.d) || QueueRank(s') < QueueRank(s)
  {
    if pc.Accept? { assert s.d.pending == [s.d.pending[0]] + s.d.pending[1..]; }
  }

  lemma ServeTurn(s: Sys, pc: ServePc, s': Sys)
    requires s.d.running && s.d.server == Serving(pc) && s.d.clientFd != Some(HunterPeer)
    requires ServeEnabled(s, pc) && s' == NextServe(s, pc)
    ensures TurnRank(s'.d.server, Unread(s')) < TurnRank(s.d.server, Unread(s))
  {
    ServeFrame(s, pc, s');
    if pc.Read? { ReadTurn(s, s'); } else { OtherTurn(s, pc, s'); }
    hide NextServe, ServeEnabled;
  }

  lemma ReadTurn(s: Sys, s': Sys)
    requires s.d.server == Serving(Read) && s.d.clientFd != Some(HunterPeer) && s' == NextRead(s)
    ensures TurnRank(s'.d.server, Unread(s')) < TurnRank(s.d.server, Unread(s))
  {}

  lemma OtherTurn(s: Sys, pc: ServePc, s': Sys)
    requires s.d.running && s.d.server == Serving(pc) && !pc.Read? && s.d.clientFd != Some(HunterPeer)
    requires ServeEnabled(s, pc) && s' == NextServe(s, pc)
    ensures TurnRank(s'.d.server, Unread(s')) < TurnRank(s.d.server, Unread(s))
  {
    hide Reply;
  }

  lemma HangUpTurn(s: Sys, pc: HangUpPc, s': Sys)
    requires s.d.server == HangingUp(pc) && s' == NextHangUp(s, pc)
    ensures TurnRank(s'.d.server, Unread(s')) < TurnRank(s.d.server, Unread(s)) && s'.d.pending == s.d.pending
  {}

  /** Each step of the server thread brings the hunter's turn nearer, or is it. */
  lemma ServerTurn(s: Sys, s': Sys)
    requires Queued(s) && DServerEnabled(s, false) && s' == NextDServer(s, false)
    ensures AwaitsReply(s') && s'.d.running && !s'.d.server.ServerExit?
    ensures Attended(s'.d) || QueueRank(s') < QueueRank(s)
  {
    QueuedIsPending(s);
    ServerFrame(s, false, s');
    hide WaitInv, NextAccept, NextServe, NextHangUp, ServeEnabled, AcceptEnabled, TurnRank;
    match s.d.server
    case Accepting(pc) => AcceptTurn(s, pc, s');
    case Serving(pc) => ServeTurn(s, pc, s'); UnattendedServe(s, pc, s'); ServeFrame(s, pc, s');
    case HangingUp(pc) => HangUpTurn(s, pc, s'); UnattendedHangUp(s, pc, s');
  }

  // ----- other steps -----

  /** No more from the clients ahead, no failing accept, no signal to the daemon. */
  predicate Cooperates(a: Action) { !a.OtherSends? && !a.SignalDaemon? && a != DServer(true) }

  lemma DMainTurn(s: Sys, s': Sys)
    requires Queued(s) && DMainEnabled(s) && s' == NextDMain(s)
    ensures s'.w == s.w && s'.d.running && s'.d.pending == s.d.pending && s'.d.clientFd == s.d.clientFd
    ensures s'.d.server == s.d.server || (s.d.server.Unborn? && s'.d.server == Accepting(CheckRunning))
  {
    SocketOf(s);
    hide WaitInv, Attended, AwaitsReply;
    if s.d.main != Start(SpawnServer) { DMainIdles(s, s'); hide NextDMain, DMainEnabled; }
  }

  lemma OtherTurns(s: Sys, a: Action)
    requires Queued(s) && Enabled(s, a) && Cooperates(a) && !a.DServer?
    ensures AwaitsReply(Next(s, a)) && Next(s, a).d.running && !Next(s, a).d.server.ServerExit?
    ensures QueueRank(Next(s, a)) <= QueueRank(s)
  {
    QueuedIsPending(s);
    if a.OtherConnects? { AheadAppend(s.d.pending, OtherPeer); }
    if a.DMain? { DMainTurn(s, Next(s, a)); }
    if a.HMain? { WaitingDoesNotMove(s, a.save, a.fileOpens); }
    if a.HookStep? { HookFrame(s, a.run, Next(s, a)); }
    hide WaitInv, NextDMain, NextHMain, NextHook, DMainEnabled, HMainEnabled, Receive, Ahead;
  }

  // ----- a run of it -----

  /** Where the server thread can be held up: by the lock, for at most three steps of the main thread; by
      the main thread yet to start it; or by a silent client, until that hangs up. */
  predicate HeldUp(s: Sys) {
    || (s.d.locked && Enabled(s, DMain))
    || (s.d.main == Start(SpawnServer) && Enabled(s, DMain))
    || (SilentClient(s) && s.d.clientFd == Some(OtherPeer) && DServerEnabled(Next(s, OtherCloses), false))
  }

  lemma SilentEnds(s: Sys)
    requires SilentClient(s) && s.d.clientFd != Some(HunterPeer)
    ensures s.d.clientFd == Some(OtherPeer) && DServerEnabled(Next(s, OtherCloses), false)
  {
    assert s.d.clientFd.value.OtherPeer?;
    assert EndOfInput(Next(s, OtherCloses));
  }

  lemma MovesOrHeldUp(s: Sys)
    requires Queued(s)
    ensures DServerEnabled(s, false) || HeldUp(s)
  {
    QueuedIsPending(s);
    assert s.d.pending != [];
    if s.d.locked {
      LockIsReleased(s);
    } else if s.d.server.Unborn? {
      StartsServer(s);
    } else if SilentClient(s) {
      SilentEnds(s);
    }
    hide WaitInv, Next, ReadReturns;
  }

  lemma StartsServer(s: Sys)
    requires WaitInv(s) && AwaitsReply(s) && s.d.server.Unborn?
    ensures s.d.main == Start(SpawnServer) && Enabled(s, DMain)
  {
    SocketOf(s);
    assert OpenInv(s.d, s.w) by { hide Inv, LookupInv, OpenInv; }
    hide WaitInv;
  }

  /** The hunter's connection is taken up. In any run in which the clients ahead say no more, accept does
      not fail and the daemon is not told to stop, the server thread takes at most as many steps before as
      the rank says: its place in the queue, and what the client being served has sent. And it can always
      take the next, once a client it waits for hangs up. */
  lemma {:induction false} TurnComes(t: seq<Sys>, acts: seq<Action>)
    requires Linked(t, acts) && Queued(t[0]) && forall i :: 0 <= i < |acts| ==> Cooperates(acts[i])
    requires forall i :: 0 <= i < |t| ==> !Attended(t[i].d)
    ensures Queued(t[|acts|]) && ServerSteps(acts) + QueueRank(t[|acts|]) <= QueueRank(t[0])
    ensures DServerEnabled(t[|acts|], false) || HeldUp(t[|acts|])
    decreases |acts|
  {
    hide WaitInv, AwaitsReply, Attended, HeldUp, QueueRank, Next, Enabled;
    if acts != [] {
      var n := |acts| - 1;
      var s, a := t[n], acts[n];
      TurnComes(t[..n + 1], acts[..n]);
      assert Enabled(s, a) && t[n + 1] == Next(s, a);
      WaitNext(s, a);
      if a.DServer? { ServerAction(s, a); } else { OtherTurns(s, a); }
    }
    MovesOrHeldUp(t[|acts|]);
  }

  lemma ServerAction(s: Sys, a: Action)
    requires Queued(s) && Enabled(s, a) && a.DServer? && Cooperates(a)
    ensures AwaitsReply(Next(s, a)) && Next(s, a).d.running && !Next(s, a).d.server.ServerExit?
    ensures Attended(Next(s, a).d) || QueueRank(Next(s, a)) < QueueRank(s)
  {
    hide Queued, AwaitsReply, Attended, QueueRank, NextDServer, DServerEnabled;
    ServerTurn(s, Next(s, a));
  }
}
