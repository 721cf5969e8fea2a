/** The lookup protocol between hunter and daemon. At most one request is unanswered, the k-th reply
    answers the k-th request, and its value is what the daemon's map said about that port at some
    instant between the two at which no scan held the lock. */
module Lookup {
  import opened Packets
  import opened PortToPidMap
  import opened Pipeline
  import opened HutKarish
  import opened Invariants

  // ----- the server's end -----

  /** The hunter's connection is still to be taken up by the server thread. */
  predicate Upcoming(d: DaemonState) {
    multiset(d.pending)[HunterPeer] > 0 || d.server == Accepting(Assign(HunterPeer))
  }

  /** In how many places the hunter's connection is. */
  function Places(d: DaemonState): nat {
    multiset(d.pending)[HunterPeer]
    + (if d.server == Accepting(Assign(HunterPeer)) then 1 else 0)
    + (if d.clientFd == Some(HunterPeer) then 1 else 0)
  }

  /** What the server sends reaches the hunter. */
  predicate Live(d: DaemonState) { d.clientFd == Some(HunterPeer) && d.fdOpen }

  predicate LookingUp(pc: ServerPc) { pc.Serving? && pc.v.LookUp? && pc.v.hunter }

  predicate Sending(pc: ServerPc) { pc.Serving? && pc.v.Send? && pc.v.hunter }

  /** Another client's request is in hand. */
  predicate ForOther(pc: ServerPc) {
    pc.Serving? && ((pc.v.LookUp? && !pc.v.hunter) || (pc.v.Send? && !pc.v.hunter))
  }

  /** Before a connection has been taken up. */
  predicate Idle(pc: ServerPc) { pc.Unborn? || (pc.Accepting? && !pc.a.TestAccepted?) }

  predicate ConnectionInv(d: DaemonState, w: Wire, asked: bool) {
    && Places(d) <= (if asked then 1 else 0)
    && (Upcoming(d) ==> w.taken == [])
    && (Idle(d.server) ==> d.clientFd.None?)
    && (ForOther(d.server) ==> d.clientFd != Some(HunterPeer))
  }

  predicate RequestsInv(d: DaemonState, w: Wire) {
    && w.taken + w.toServer == w.requests
    && |w.served| + (if LookingUp(d.server) then 1 else 0) == |w.taken|
    && (LookingUp(d.server) ==> d.server.v.port == w.taken[|w.taken| - 1])
  }

  predicate RepliesInv(d: DaemonState, w: Wire) {
    && w.replies + w.toClient <= w.served
    && (Live(d) ==> |w.replies| + |w.toClient| + (if Sending(d.server) then 1 else 0) == |w.served|)
    && (Sending(d.server) ==> w.served != [] && d.server.v.pid == w.served[|w.served| - 1])
  }

  predicate ServerInv(d: DaemonState, w: Wire, asked: bool) {
    ConnectionInv(d, w, asked) && RequestsInv(d, w) && RepliesInv(d, w)
  }

  // ----- the hunter's end -----

  predicate AskInv(pc: HunterPc, heap: seq<PacketInfo>, w: Wire) {
    && |w.replies| <= |w.requests| <= |w.replies| + 1
    && (pc.Joining? ==> w.requests == [])
    && (pc.Hunting? ==> |w.requests| == |w.replies| + if pc.u.HWait? then 1 else 0)
    && (pc.Hunting? && (pc.u.HWait? || pc.u.HInsert?) ==>
          pc.u.id < |heap| && w.requests != [] && w.requests[|w.requests| - 1] == heap[pc.u.id].dstPort)
    && (pc.Hunting? && pc.u.HInsert? ==> w.replies[|w.replies| - 1] == pc.u.pid)
  }

  predicate LookupInv(s: Sys) {
    && ServerInv(s.d, s.w, s.h.main != Joining(Connect))
    && AskInv(s.h.main, s.hpipe.heap, s.w)
  }

  // ----- steps of the server thread -----

  lemma AssignWire(s: Sys, peer: Peer, s': Sys)
    requires ServerInv(s.d, s.w, true) && s.d.server == Accepting(Assign(peer))
    requires s' == NextAccept(s, Assign(peer), false)
    ensures ServerInv(s'.d, s'.w, true) && Places(s'.d) <= Places(s.d)
  {}

  lemma QueueWire(s: Sys, pc: AcceptPc, fails: bool, s': Sys)
    requires ServerInv(s.d, s.w, true) && s.d.server == Accepting(pc) && AcceptEnabled(s, pc, fails)
    requires !pc.Assign? && s' == NextAccept(s, pc, fails)
    ensures ServerInv(s'.d, s'.w, true) && Places(s'.d) <= Places(s.d)
  {
    if pc.Accept? && !fails {
      assert s.d.pending == [s.d.pending[0]] + s.d.pending[1..];
    }
  }

  lemma AcceptWire(s: Sys, pc: AcceptPc, fails: bool, s': Sys)
    requires ServerInv(s.d, s.w, true) && s.d.server == Accepting(pc) && AcceptEnabled(s, pc, fails)
    requires s' == NextAccept(s, pc, fails)
    ensures ServerInv(s'.d, s'.w, true) && (Places(s'.d) <= Places(s.d))
    ensures s'.w == s.w.(otherIn := s'.w.otherIn, otherGone := s'.w.otherGone)
  {
    AcceptFrame(s, pc, fails, s');
    if pc.Assign? {
      assert s' == NextAccept(s, pc, false);
      AssignWire(s, pc.peer, s');
    } else {
      QueueWire(s, pc, fails, s');
    }
    hide NextAccept, ServerInv, Places;
  }

  lemma ReadWire(s: Sys, s': Sys)
    requires ServerInv(s.d, s.w, true) && s.d.server == Serving(Read) && s' == NextRead(s)
    ensures ServerInv(s'.d, s'.w, true) && Places(s'.d) == Places(s.d)
    ensures s'.w.requests == s.w.requests && s'.w.served == s.w.served && s'.w.replies == s.w.replies
  {
    if s.d.clientFd == Some(HunterPeer) && s.d.fdOpen && s.w.toServer != [] {
      assert s.w.taken + [s.w.toServer[0]] + s.w.toServer[1..] == s.w.taken + s.w.toServer;
    }
  }

  lemma LookUpWire(s: Sys, port: Port, hunter: bool, s': Sys)
    requires ServerInv(s.d, s.w, true) && s.d.server == Serving(LookUp(port, hunter)) && !s.d.locked
    requires s' == NextServe(s, LookUp(port, hunter))
    ensures ServerInv(s'.d, s'.w, true) && Places(s'.d) == Places(s.d)
    ensures s'.w == s.w.(served := if hunter then s.w.served + [Reply(s.d.portMap, port)] else s.w.served)
  {}

  lemma SendWire(s: Sys, pid: int, hunter: bool, s': Sys)
    requires ServerInv(s.d, s.w, true) && s.d.server == Serving(Send(pid, hunter))
    requires s' == NextServe(s, Send(pid, hunter))
    ensures ServerInv(s'.d, s'.w, true) && Places(s'.d) == Places(s.d)
    ensures s'.w.requests == s.w.requests && s'.w.served == s.w.served && s'.w.replies == s.w.replies
  {
    assert s.w.replies + (s.w.toClient + [pid]) == (s.w.replies + s.w.toClient) + [pid];
  }

  lemma ServeWire(s: Sys, pc: ServePc, s': Sys)
    requires ServerInv(s.d, s.w, true) && s.d.server == Serving(pc) && ServeEnabled(s, pc) && s' == NextServe(s, pc)
    ensures ServerInv(s'.d, s'.w, true) && Places(s'.d) == Places(s.d)
    ensures s'.w.requests == s.w.requests && s'.w.replies == s.w.replies
    ensures s'.w.served == if LookingUp(s.d.server) then s.w.served + [Reply(s.d.portMap, pc.port)] else s.w.served
  {
    match pc
    case Read => ReadWire(s, s');
    case LookUp(port, hunter) => LookUpWire(s, port, hunter, s');
    case Send(pid, hunter) => SendWire(s, pid, hunter, s');
    case _ =>
    hide NextRead;
  }

  /** Closing the connection, or forgetting it, between clients. */
  lemma LetGo(d: DaemonState, w: Wire, d': DaemonState, w': Wire)
    requires ServerInv(d, w, true) && d.server.HangingUp? && w' == w.(open := w'.open)
    requires d' == d.(server := d'.server, clientFd := d'.clientFd, fdOpen := d'.fdOpen)
    requires (d'.clientFd == d.clientFd || d'.clientFd.None?) && (d'.fdOpen ==> d.fdOpen)
    requires d'.server.HangingUp? || (d'.server == Accepting(CheckRunning) && d'.clientFd.None?)
    ensures ServerInv(d', w', true) && Places(d') <= Places(d)
  {}

  lemma HangUpWire(s: Sys, pc: HangUpPc, s': Sys)
    requires ServerInv(s.d, s.w, true) && s.d.server == HangingUp(pc) && s' == NextHangUp(s, pc)
    ensures ServerInv(s'.d, s'.w, true) && Places(s'.d) <= Places(s.d)
    ensures s'.w == s.w.(open := s'.w.open)
  {
    hide ServerInv, Places;
    LetGo(s.d, s.w, s'.d, s'.w);
  }

  /** What any step adds to the log of requests, lookups and replies. */
  ghost predicate Grows(s: Sys, s': Sys) {
    && s.w.requests <= s'.w.requests && s.w.replies <= s'.w.replies
    && (s'.w.served == s.w.served || LookedUp(s, s'))
  }

  /** The server answers the hunter's latest request from the unlocked map. */
  predicate LookedUp(s: Sys, s': Sys) {
    && LookingUp(s.d.server) && !s.d.locked
    && s'.w.served == s.w.served + [Reply(s.d.portMap, s.d.server.v.port)]
    && s'.w.requests == s.w.requests
  }

  lemma AskSame(pc: HunterPc, heap: seq<PacketInfo>, w: Wire, w': Wire)
    requires AskInv(pc, heap, w) && w'.requests == w.requests && w'.replies == w.replies
    ensures AskInv(pc, heap, w')
  {}

  /** That the hunter has asked matters only for how many places its connection can be in. */
  lemma WhetherAsked(d: DaemonState, w: Wire, d': DaemonState, w': Wire, asked: bool)
    requires ServerInv(d, w, asked) && ServerInv(d', w', true) && Places(d') <= Places(d)
    ensures ServerInv(d', w', asked)
  {}

  lemma HadAsked(d: DaemonState, w: Wire, asked: bool)
    requires ServerInv(d, w, asked)
    ensures ServerInv(d, w, true)
  {}

  lemma DServerWire(s: Sys, fails: bool, s': Sys)
    requires LookupInv(s) && DServerEnabled(s, fails) && s' == NextDServer(s, fails)
    ensures LookupInv(s') && Grows(s, s')
    ensures s'.w.requests == s.w.requests && s'.w.replies == s.w.replies
  {
    var asked := s.h.main != Joining(Connect);
    hide ServerInv, AskInv, Places, NextAccept, NextServe, NextHangUp;
    HadAsked(s.d, s.w, asked);
    ServerFrame(s, fails, s');
    match s.d.server {
      case Accepting(pc) => AcceptWire(s, pc, fails, s');
      case Serving(pc) => ServeWire(s, pc, s');
      case HangingUp(pc) => HangUpWire(s, pc, s');
      case _ =>
    }
    WhetherAsked(s.d, s.w, s'.d, s'.w, asked);
    AskSame(s.h.main, s.hpipe.heap, s.w, s'.w);
  }

  // ----- steps of the daemon's main thread -----

  /** Nothing the protocol looks at has changed. */
  predicate WireSame(s: Sys, s': Sys) {
    && s'.d.server == s.d.server && s'.d.clientFd == s.d.clientFd && s'.d.fdOpen == s.d.fdOpen
    && s'.d.pending == s.d.pending
    && s'.w == s.w.(hunterGone := s'.w.hunterGone, otherIn := s'.w.otherIn, otherGone := s'.w.otherGone)
    && s'.h.main == s.h.main && s'.hpipe.heap == s.hpipe.heap
  }

  lemma SameKeepsLookup(s: Sys, s': Sys)
    requires LookupInv(s) && WireSame(s, s')
    ensures LookupInv(s')
  {}

  lemma SpawnWire(s: Sys, s': Sys)
    requires LookupInv(s) && s.d.server.Unborn? && s' == NextStart(s, SpawnServer)
    ensures LookupInv(s') && s'.w == s.w
  {}

  lemma ReleaseWire(s: Sys, pc: ReleasePc, s': Sys)
    requires ServerInv(s.d, s.w, s.h.main != Joining(Connect)) && s' == NextRelease(s, pc)
    ensures ServerInv(s'.d, s'.w, s.h.main != Joining(Connect)) && s'.w == s.w.(open := s'.w.open)
    ensures s'.h == s.h && s'.hpipe == s.hpipe
  {
    var asked := s.h.main != Joining(Connect);
    assert ConnectionInv(s'.d, s'.w, asked) by { hide RequestsInv, RepliesInv; }
    assert RequestsInv(s'.d, s'.w) by { hide ConnectionInv, RepliesInv; }
    assert RepliesInv(s'.d, s'.w) by { hide ConnectionInv, RequestsInv; }
    hide ConnectionInv, RequestsInv, RepliesInv;
  }

  lemma DMainWire(s: Sys, s': Sys)
    requires SocketInv(s.d) && LookupInv(s) && DMainEnabled(s) && s' == NextDMain(s)
    ensures LookupInv(s') && Grows(s, s')
    ensures s'.w.requests == s.w.requests && s'.w.replies == s.w.replies
  {
    hide NextBuild, NextStart, NextLoop, NextStop, NextRelease, ServerInv, LoopEnabled, Scannable;
    if s.d.main.Release? {
      ReleaseWire(s, s.d.main.r, s');
    } else if s.d.main == Start(SpawnServer) {
      SpawnWire(s, s');
    } else {
      DMainSame(s, s');
      hide NextDMain, DMainEnabled;
      SameKeepsLookup(s, s');
    }
  }

  /** But for starting the server thread and releasing it, the main thread leaves the protocol alone. */
  lemma DMainSame(s: Sys, s': Sys)
    requires DMainEnabled(s) && s' == NextDMain(s) && !s.d.main.Release? && s.d.main != Start(SpawnServer)
    ensures WireSame(s, s') && s'.w == s.w
  {
    match s.d.main
    case Build(pc) => BuildFrame(s, pc, s');
    case Start(pc) => StartFrame(s, pc, s');
    case Loop(pc) => LoopFrame(s, pc, s');
    case Stop(pc) => StopLeaves(s, pc, s');
    hide NextBuild, NextStart, NextLoop, NextStop, LoopEnabled, Scannable;
  }

  lemma SameGrows(s: Sys, s': Sys)
    requires WireSame(s, s')
    ensures Grows(s, s') && s'.w.requests == s.w.requests && s'.w.replies == s.w.replies
  {}

  // ----- steps of the hunter -----

  lemma HuntWire(s: Sys, pc: HuntPc, s': Sys)
    requires LookupInv(s) && s.h.main == Hunting(pc) && HuntEnabled(s, pc) && s' == NextHunt(s, pc)
    ensures LookupInv(s') && Grows(s, s')
  {
    HuntFrame(s, pc, s');
    if pc.HSend? { SendPort(s, pc.id, s'); }
    else if pc.HWait? { TakePid(s, pc.id, s'); }
    else { HuntQuiet(s, pc, s'); }
    hide NextHunt, Inv, HuntEnabled;
  }

  lemma HuntQuiet(s: Sys, pc: HuntPc, s': Sys)
    requires LookupInv(s) && s.h.main == Hunting(pc) && HuntEnabled(s, pc) && s' == NextHunt(s, pc)
    requires !pc.HSend? && !pc.HWait?
    ensures LookupInv(s') && s'.w == s.w
  {
    hide Stored, CanSend, Pop, ServerInv;
  }

  lemma SendPort(s: Sys, id: nat, s': Sys)
    requires LookupInv(s) && s.h.main == Hunting(HSend(id)) && id < |s.hpipe.heap|
    requires s' == NextHunt(s, HSend(id))
    ensures LookupInv(s')
    ensures s'.w.served == s.w.served && s'.w.replies == s.w.replies && s.w.requests <= s'.w.requests
  {
    var port := s.hpipe.heap[id].dstPort;
    assert s.w.taken + (s.w.toServer + [port]) == (s.w.taken + s.w.toServer) + [port];
    hide CanSend;
  }

  lemma TakePid(s: Sys, id: nat, s': Sys)
    requires LookupInv(s) && s.h.main == Hunting(HWait(id)) && HuntEnabled(s, HWait(id))
    requires s' == NextHunt(s, HWait(id))
    ensures LookupInv(s')
    ensures s'.w.served == s.w.served && s'.w.requests == s.w.requests && s.w.replies <= s'.w.replies
  {
    if s.w.toClient != [] {
      assert s.w.replies + [s.w.toClient[0]] + s.w.toClient[1..] == s.w.replies + s.w.toClient;
    }
  }

  lemma JoinWire(s: Sys, pc: JoinPc, s': Sys)
    requires LookupInv(s) && s.h.main == Joining(pc) && s' == NextJoin(s, pc)
    ensures LookupInv(s') && Grows(s, s')
  {}

  lemma LeaveWire(s: Sys, pc: LeavePc, save: bool, fileOpens: bool, s': Sys)
    requires LookupInv(s) && s.h.main == Leaving(pc) && LeaveEnabled(s, pc)
    requires s' == NextLeave(s, pc, save, fileOpens)
    ensures LookupInv(s') && s'.w == s.w.(hunterGone := s'.w.hunterGone)
  {
    hide StoredIds;
  }

  lemma HMainWire(s: Sys, save: bool, fileOpens: bool, s': Sys)
    requires Inv(s) && LookupInv(s) && HMainEnabled(s) && s' == NextHMain(s, save, fileOpens)
    ensures LookupInv(s') && Grows(s, s')
  {
    hide NextJoin, NextHunt, NextLeave, Inv, LookupInv, HuntEnabled;
    match s.h.main
    case Joining(pc) => JoinWire(s, pc, s');
    case Hunting(pc) => HuntWire(s, pc, s');
    case Leaving(pc) => LeaveWire(s, pc, save, fileOpens, s');
  }

  // ----- every step, every run -----

  /** Hooks, receivers and the environment. */
  lemma OthersWire(s: Sys, a: Action, s': Sys)
    requires LookupInv(s) && Enabled(s, a) && !a.DMain? && !a.DServer? && !a.HMain? && s' == Next(s, a)
    ensures LookupInv(s') && Grows(s, s')
  {
    match a
    case OtherConnects => ConnectWire(s, s');
    case HReceiver => HReceiverWire(s, s');
    case HookStep(r) => HookWire(s, r, s'); SameKeepsLookup(s, s'); SameGrows(s, s');
    case _ => QuietWire(s, a, s'); SameKeepsLookup(s, s'); SameGrows(s, s');
    hide NextHook, LookupInv, Receive;
  }

  lemma ConnectWire(s: Sys, s': Sys)
    requires LookupInv(s) && s' == s.(d := s.d.(pending := s.d.pending + [OtherPeer]))
    ensures LookupInv(s')
  {}

  lemma HReceiverWire(s: Sys, s': Sys)
    requires LookupInv(s) && CanReceive(s.hpipe) && s' == s.(hpipe := Receive(s.hpipe, s.h.running))
    ensures LookupInv(s')
  {
    assert s.hpipe.heap <= s'.hpipe.heap;
  }

  lemma HookWire(s: Sys, r: nat, s': Sys)
    requires r < |s.k.hooks| && r < |s.k.arrivals| && s' == NextHook(s, r)
    ensures WireSame(s, s')
  {
    HookFrame(s, r, s');
    OfferOnlyQueues(s.hpipe, s.k.arrivals[r]);
    hide NextHook, Offer;
  }

  lemma QuietWire(s: Sys, a: Action, s': Sys)
    requires Enabled(s, a) && s' == Next(s, a)
    requires a.Arrive? || a.ProcChanges? || a.SignalDaemon? || a.SignalHunter?
      || a.OtherSends? || a.OtherCloses? || a.DReceiver?
    ensures WireSame(s, s')
  {
    hide Scannable;
  }

  lemma LookupNext(s: Sys, a: Action)
    requires Inv(s) && LookupInv(s) && Enabled(s, a)
    ensures LookupInv(Next(s, a)) && Grows(s, Next(s, a))
  {
    assert SocketInv(s.d);
    hide Inv, LookupInv, NextHook, NextDMain, NextDServer, NextHMain, DMainEnabled, DServerEnabled, HMainEnabled;
    hide DInv, KernelInv, HInv, PipeInv;
    match a
    case DMain => DMainWire(s, Next(s, a));
    case DServer(fails) => DServerWire(s, fails, Next(s, a));
    case HMain(save, fileOpens) => HMainWire(s, save, fileOpens, Next(s, a));
    case _ => OthersWire(s, a, Next(s, a));
  }

  lemma LookupInit(s: Sys)
    requires Init(s)
    ensures LookupInv(s)
  {}

  lemma {:induction false} LookupAlways(t: seq<Sys>, acts: seq<Action>, n: nat)
    requires Run(t, acts) && n < |t|
    ensures Inv(t[n]) && LookupInv(t[n])
  {
    InvAlways(t, acts, n);
    if n == 0 {
      LookupInit(t[0]);
    } else {
      LookupAlways(t, acts, n - 1);
      hide Inv, LookupInv, Next, Enabled;
      LookupNext(t[n - 1], acts[n - 1]);
    }
  }

  // ----- linearizability -----

  /** Request `k` is being answered, no scan holds the lock, and the map gives `pid` for the port. */
  predicate AnsweredAt(s: Sys, k: nat, port: Port, pid: int) {
    && |s.w.replies| <= k < |s.w.requests| && |s.w.served| == k && s.w.requests[k] == port
    && LookingUp(s.d.server) && !s.d.locked && pid == Reply(s.d.portMap, port)
  }

  lemma LookedUpIsAnswer(s: Sys, s': Sys)
    requires LookupInv(s) && LookedUp(s, s')
    ensures AnsweredAt(s, |s.w.served|, s'.w.requests[|s.w.served|], s'.w.served[|s.w.served|])
    ensures |s.w.served| < |s'.w.requests|
  {
    assert s.w.requests[|s.w.taken| - 1] == s.w.taken[|s.w.taken| - 1];
    hide ConnectionInv, AskInv;
  }

  /** Every value the server computed for the hunter was the map's at an earlier instant. */
  lemma {:induction false} ServedFromTheMap(t: seq<Sys>, acts: seq<Action>, n: nat, k: nat) returns (m: nat)
    requires Run(t, acts) && n < |t| && k < |t[n].w.served|
    ensures m < n && k < |t[n].w.requests|
    ensures AnsweredAt(t[m], k, t[n].w.requests[k], t[n].w.served[k])
  {
    hide Inv, LookupInv, Next, Enabled, AnsweredAt, LookedUp, Reply;
    assert n > 0;
    LookupAlways(t, acts, n - 1);
    LookupNext(t[n - 1], acts[n - 1]);
    ServedGrows(t[n - 1], t[n]);
    if k < |t[n - 1].w.served| {
      m := ServedFromTheMap(t, acts, n - 1, k);
    } else {
      m := n - 1;
      LookedUpIsAnswer(t[n - 1], t[n]);
    }
  }

  lemma ServedGrows(s: Sys, s': Sys)
    requires Grows(s, s')
    ensures s.w.served <= s'.w.served && |s'.w.served| <= |s.w.served| + 1
    ensures s'.w.served != s.w.served ==> LookedUp(s, s')
  {}

  /** The lookups are linearizable: the k-th reply answers the k-th request with what the map, not
      being written, held for it at an instant after the request and before the reply. */
  lemma Linearizable(t: seq<Sys>, acts: seq<Action>, n: nat, k: nat) returns (m: nat)
    requires Run(t, acts) && n < |t| && k < |t[n].w.replies|
    ensures m < n && |t[m].w.replies| <= k < |t[m].w.requests| && !t[m].d.locked
    ensures k < |t[n].w.requests| && t[m].w.requests[k] == t[n].w.requests[k]
    ensures t[n].w.replies[k] == Reply(t[m].d.portMap, t[n].w.requests[k])
  {
    LookupAlways(t, acts, n);
    RepliesAreServed(t[n]);
    hide Inv, LookupInv, Next, Enabled;
    m := ServedFromTheMap(t, acts, n, k);
  }

  lemma RepliesAreServed(s: Sys)
    requires LookupInv(s)
    ensures s.w.replies <= s.w.served
  {
    assert s.w.replies == (s.w.replies + s.w.toClient)[..|s.w.replies|];
  }

  /** At most one request is unanswered; while the hunter waits it is the port of the packet in
      its hand. */
  lemma OneOutstanding(t: seq<Sys>, acts: seq<Action>, n: nat)
    requires Run(t, acts) && n < |t|
    ensures
      var w, pc := t[n].w, t[n].h.main;
      && |w.replies| <= |w.requests| <= |w.replies| + 1
      && (pc.Hunting? ==> (|w.requests| > |w.replies| <==> pc.u.HWait?))
      && (pc.Hunting? && pc.u.HWait? ==>
            |w.replies| < |w.requests| && pc.u.id < |t[n].hpipe.heap|
            && w.requests[|w.replies|] == t[n].hpipe.heap[pc.u.id].dstPort)
  {
    LookupAlways(t, acts, n);
    hide Inv, ServerInv;
  }
}
