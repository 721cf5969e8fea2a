/** Who owns a heap packet. In both processes every packet ever allocated is in exactly one place:
    in the receiver's hand, in the queue, in the main thread's hand, in the hunter's index, freed,
    or dropped and never freed. Nothing is freed twice and nothing freed is looked at again. */
module Ownership {
  import opened Packets
  import opened SocketTable
  import opened ScanFiles
  import PortToPidMap
  import opened Pipeline
  import opened HutKarish
  import opened Invariants
  import HunterShutdown
  import Shutdown

  function Below(n: nat): (r: set<nat>)
    ensures forall i: nat :: i in r <==> i < n
  {
    if n == 0 then {} else Below(n - 1) + {n - 1}
  }

  ghost function HandSet(hand: Option<nat>): set<nat> { if hand.Some? then {hand.value} else {} }

  // ----- the daemon: everything popped is freed at once -----

  predicate DaemonDrained(pc: MainPc, p: Pipe) { (pc.Release? || pc.Done?) ==> p.queue == [] }

  ghost predicate DaemonOwns(d: DaemonState, p: Pipe) {
    && d.freed !! HandSet(DaemonHand(d.main))
    && d.freed + HandSet(DaemonHand(d.main)) == Below(|p.popped|)
    && DaemonDrained(d.main, p)
  }

  lemma BelowNext(n: nat)
    ensures Below(n + 1) == Below(n) + {n} && n !in Below(n)
  {}

  lemma LoopOwns(s: Sys, pc: LoopPc, s': Sys)
    requires DaemonOwns(s.d, s.dpipe) && DaemonPackets(s.d.main, s.dpipe) && PipeInv(s.dpipe)
    requires s.d.main == Loop(pc) && LoopEnabled(s, pc) && s' == NextLoop(s, pc)
    ensures DaemonOwns(s'.d, s'.dpipe)
  {
    LoopFrame(s, pc, s');
    LoopMoves(s, pc, s');
    LoopFrees(s, pc, s');
    BelowNext(|s.dpipe.popped|);
    assert s.dpipe.queue != [] ==> s.dpipe.queue[0] == |s.dpipe.popped|;
    hide NextLoop, PipeInv, LoopEnabled, Below;
  }

  lemma LoopFrees(s: Sys, pc: LoopPc, s': Sys)
    requires LoopEnabled(s, pc) && s' == NextLoop(s, pc)
    ensures s'.d.freed == if pc.Free? then s.d.freed + {pc.id} else s.d.freed
  {
    hide PortToPidMap.AfterScan, TableFor, ParseTable, Pop;
  }

  lemma StopOwns(s: Sys, pc: StopPc, s': Sys)
    requires DaemonOwns(s.d, s.dpipe) && PipeInv(s.dpipe) && s.daemonPid != s.hunterPid
    requires s.k.slots.daemon == DaemonSlot(s.d.main, s.daemonPid)
    requires s.d.main == Stop(pc) && StopEnabled(s, pc) && s' == NextStop(s, pc)
    ensures DaemonOwns(s'.d, s'.dpipe)
  {
    StopFrame(s, pc, s');
    StopMoves(s, pc, s');
    StopFrees(s, pc, s');
    BelowNext(|s.dpipe.popped|);
    assert s.dpipe.queue != [] ==> s.dpipe.queue[0] == |s.dpipe.popped|;
    hide NextStop, PipeInv, Below;
  }

  lemma StopFrees(s: Sys, pc: StopPc, s': Sys)
    requires StopEnabled(s, pc) && s' == NextStop(s, pc)
    ensures s'.d.freed == if pc.CleanPop? then s.d.freed + {s.dpipe.queue[0]} else s.d.freed
    ensures s'.d.main.Release? ==> pc.CleanTest? && s.dpipe.queue == []
  {
    hide Offer, Pop;
  }

  lemma BuildOwns(s: Sys, pc: BuildPc, s': Sys)
    requires DaemonOwns(s.d, s.dpipe) && s.d.main == Build(pc) && Scannable(s.proc) && s' == NextBuild(s, pc)
    ensures DaemonOwns(s'.d, s'.dpipe)
  {
    BuildFrame(s, pc, s');
    hide NextBuild;
  }

  lemma StartOwns(s: Sys, pc: StartPc, s': Sys)
    requires DaemonOwns(s.d, s.dpipe) && s.d.main == Start(pc) && s' == NextStart(s, pc)
    ensures DaemonOwns(s'.d, s'.dpipe)
  {}

  lemma ReleaseOwns(s: Sys, pc: ReleasePc, s': Sys)
    requires DaemonOwns(s.d, s.dpipe) && s.d.main == Release(pc) && s' == NextRelease(s, pc)
    ensures DaemonOwns(s'.d, s'.dpipe)
  {}

  lemma DMainOwns(s: Sys, s': Sys)
    requires Inv(s) && DaemonOwns(s.d, s.dpipe) && DMainEnabled(s) && s' == NextDMain(s)
    ensures DaemonOwns(s'.d, s'.dpipe)
  {
    hide NextBuild, NextStart, NextLoop, NextStop, NextRelease, DaemonOwns, LoopEnabled, PipeInv, HunterInv;
    match s.d.main
    case Build(pc) => BuildOwns(s, pc, s');
    case Start(pc) => StartOwns(s, pc, s');
    case Loop(pc) => LoopOwns(s, pc, s');
    case Stop(pc) => StopOwns(s, pc, s');
    case Release(pc) => ReleaseOwns(s, pc, s');
  }

  lemma DReceiverOwns(s: Sys, s': Sys)
    requires Inv(s) && DaemonOwns(s.d, s.dpipe) && CanReceive(s.dpipe) && s' == Next(s, DReceiver)
    ensures DaemonOwns(s'.d, s'.dpipe)
  {
    hide Below, HunterInv, PipeInv;
  }

  // ----- the hunter: popped packets go to the index or are dropped -----

  ghost function Held(h: HunterState): set<nat> { if h.released then {} else StoredIds(h.index) }

  /** No packet is in the index twice. */
  ghost predicate UnsharedIds(index: map<int, seq<nat>>) {
    forall p, i, q, j ::
      p in index && 0 <= i < |index[p]| && q in index && 0 <= j < |index[q]| && index[p][i] == index[q][j]
      ==> p == q && i == j
  }

  ghost predicate Partition(held: set<nat>, freed: set<nat>, dropped: set<nat>, hand: set<nat>, all: set<nat>) {
    && held !! freed !! dropped !! hand
    && held + freed + dropped + hand == all
  }

  ghost predicate HunterOwns(h: HunterState, p: Pipe) {
    && Partition(Held(h), h.freed, h.dropped, HandSet(HunterHand(h.main)), Below(|p.popped|))
    && UnsharedIds(h.index)
    && (h.released <==> h.main.HDone?)
    && (h.main == Leaving(HChoice) || h.main.HDone? ==> p.queue == [])
  }

  lemma StoreId(index: map<int, seq<nat>>, pid: int, id: nat, index': map<int, seq<nat>>)
    requires UnsharedIds(index) && id !in StoredIds(index)
    requires index' == index[pid := (if pid in index then index[pid] else []) + [id]]
    ensures UnsharedIds(index') && StoredIds(index') == StoredIds(index) + {id}
  {
    var n := |index'[pid]| - 1;
    assert index'[pid][n] == id;
    assert forall q, j :: q in index' && 0 <= j < |index'[q]| && !(q == pid && j == n) ==>
      q in index && j < |index[q]| && index[q][j] == index'[q][j] && index[q][j] in StoredIds(index);
    forall x | x in StoredIds(index) ensures x in StoredIds(index') {
      var q, j :| q in index && 0 <= j < |index[q]| && index[q][j] == x;
      assert q in index' && index'[q][j] == x;
    }
  }

  lemma HuntKeeps(s: Sys, pc: HuntPc, s': Sys)
    requires s.h.main == Hunting(pc) && HuntEnabled(s, pc) && s' == NextHunt(s, pc)
    ensures s'.h.freed == s.h.freed && s'.h.released == s.h.released
    ensures !(pc.HInsert? && pc.pid != UNKNOWN_PID) ==> s'.h.index == s.h.index
  {
    hide Stored, CanSend, Pop;
  }

  lemma HuntDrops(s: Sys, pc: HuntPc, s': Sys)
    requires s.h.main == Hunting(pc) && HuntEnabled(s, pc) && s' == NextHunt(s, pc)
    ensures HunterHand(s'.h.main) == None && HuntHand(pc).Some? && !(pc.HInsert? && pc.pid != UNKNOWN_PID)
      ==> s'.h.dropped == s.h.dropped + {HuntHand(pc).value}
    ensures HunterHand(s'.h.main).Some? || HuntHand(pc).None? || (pc.HInsert? && pc.pid != UNKNOWN_PID)
      ==> s'.h.dropped == s.h.dropped
  {
    hide Stored, CanSend, Pop;
  }

  lemma HuntStores(s: Sys, id: nat, pid: int, s': Sys)
    requires s.h.main == Hunting(HInsert(id, pid)) && pid != UNKNOWN_PID
    requires HuntEnabled(s, HInsert(id, pid)) && s' == NextHunt(s, HInsert(id, pid))
    ensures s'.h.index == s.h.index[pid := (if pid in s.h.index then s.h.index[pid] else []) + [id]]
    ensures s'.h.main == Hunting(HuntTest)
  {}

  lemma HuntOwns(s: Sys, pc: HuntPc, s': Sys)
    requires HunterOwns(s.h, s.hpipe) && HunterPackets(s.h.main, s.hpipe) && PipeInv(s.hpipe)
    requires s.h.main == Hunting(pc) && HuntEnabled(s, pc) && s' == NextHunt(s, pc)
    ensures HunterOwns(s'.h, s'.hpipe)
  {
    HuntFrame(s, pc, s');
    HuntMoves(s, pc, s');
    HuntKeeps(s, pc, s');
    HuntDrops(s, pc, s');
    BelowNext(|s.hpipe.popped|);
    assert s.hpipe.queue != [] ==> s.hpipe.queue[0] == |s.hpipe.popped|;
    if pc.HInsert? && pc.pid != UNKNOWN_PID {
      HuntStores(s, pc.id, pc.pid, s');
      assert pc.id in HandSet(HunterHand(s.h.main));
      StoreId(s.h.index, pc.pid, pc.id, s'.h.index);
    }
    HuntKeepsHand(s, pc, s');
    hide NextHunt, PipeInv, HuntEnabled, Below, UnsharedIds, StoredIds;
  }

  lemma HuntKeepsHand(s: Sys, pc: HuntPc, s': Sys)
    requires s.h.main == Hunting(pc) && HuntEnabled(s, pc) && s' == NextHunt(s, pc)
    ensures HuntHand(pc).None? && HunterHand(s'.h.main).Some? ==> pc.HPop? && s.hpipe.queue != []
    ensures pc.HPop? && s.hpipe.queue != [] ==> HunterHand(s'.h.main).Some?
  {
    hide Stored, CanSend, Pop;
  }

  lemma LeavePuts(s: Sys, pc: LeavePc, save: bool, fileOpens: bool, s': Sys)
    requires s.h.main == Leaving(pc) && LeaveEnabled(s, pc) && s' == NextLeave(s, pc, save, fileOpens)
    ensures s'.h.index == s.h.index && (s'.h.released <==> s.h.released || pc.HChoice?)
    ensures s'.h.freed ==
      if pc.HCleanPop? then s.h.freed + {s.hpipe.queue[0]}
      else if pc.HChoice? && !(save && !fileOpens) then s.h.freed + StoredIds(s.h.index) else s.h.freed
    ensures s'.h.dropped ==
      if pc.HChoice? && save && !fileOpens then s.h.dropped + StoredIds(s.h.index) else s.h.dropped
    ensures HunterHand(s'.h.main).None? && (s'.h.main.HDone? <==> pc.HChoice?)
    ensures s'.h.main == Leaving(HChoice) ==> pc.HCleanTest? && s.hpipe.queue == []
  {
    hide Offer, Pop, StoredIds;
  }

  lemma LeaveOwns(s: Sys, pc: LeavePc, save: bool, fileOpens: bool, s': Sys)
    requires HunterOwns(s.h, s.hpipe) && PipeInv(s.hpipe) && s.daemonPid != s.hunterPid
    requires s.k.slots.hunter == HunterSlot(s.h.main, s.hunterPid)
    requires s.h.main == Leaving(pc) && LeaveEnabled(s, pc) && s' == NextLeave(s, pc, save, fileOpens)
    ensures HunterOwns(s'.h, s'.hpipe)
  {
    LeaveFrame(s, pc, save, fileOpens, s');
    LeavePuts(s, pc, save, fileOpens, s');
    BelowNext(|s.hpipe.popped|);
    assert s.hpipe.queue != [] ==> s.hpipe.queue[0] == |s.hpipe.popped|;
    hide NextLeave, PipeInv, Below, UnsharedIds, StoredIds;
  }

  lemma JoinOwns(s: Sys, pc: JoinPc, s': Sys)
    requires HunterOwns(s.h, s.hpipe) && s.h.main == Joining(pc) && s' == NextJoin(s, pc)
    ensures HunterOwns(s'.h, s'.hpipe)
  {
    hide Below, UnsharedIds, StoredIds;
  }

  lemma HMainOwns(s: Sys, save: bool, fileOpens: bool, s': Sys)
    requires Inv(s) && HunterOwns(s.h, s.hpipe) && HMainEnabled(s) && s' == NextHMain(s, save, fileOpens)
    ensures HunterOwns(s'.h, s'.hpipe)
  {
    hide NextJoin, NextHunt, NextLeave, HunterOwns, HuntEnabled, PipeInv, DaemonInv;
    match s.h.main
    case Joining(pc) => JoinOwns(s, pc, s');
    case Hunting(pc) => HuntOwns(s, pc, s');
    case Leaving(pc) => LeaveOwns(s, pc, save, fileOpens, s');
  }

  lemma HReceiverOwns(s: Sys, s': Sys)
    requires Inv(s) && HunterOwns(s.h, s.hpipe) && CanReceive(s.hpipe) && s' == Next(s, HReceiver)
    ensures HunterOwns(s'.h, s'.hpipe)
  {
    hide Below, DaemonInv, PipeInv, UnsharedIds, Partition;
  }

  // ----- all runs -----

  ghost predicate Owns(s: Sys) { DaemonOwns(s.d, s.dpipe) && HunterOwns(s.h, s.hpipe) }

  /** What ownership does not look at. */
  predicate SameOwners(s: Sys, s': Sys) {
    && s'.d.main == s.d.main && s'.d.freed == s.d.freed
    && s'.dpipe.popped == s.dpipe.popped && s'.dpipe.queue == s.dpipe.queue
    && s'.h == s.h.(running := s'.h.running)
    && s'.hpipe.popped == s.hpipe.popped && s'.hpipe.queue == s.hpipe.queue
  }

  lemma HookOwners(s: Sys, r: nat, s': Sys)
    requires Enabled(s, HookStep(r)) && s' == NextHook(s, r)
    ensures SameOwners(s, s')
  {
    HookFrame(s, r, s');
    OfferOnlyQueues(s.dpipe, s.k.arrivals[r]);
    OfferOnlyQueues(s.hpipe, s.k.arrivals[r]);
    hide NextHook, Offer;
  }

  lemma OwnsNext(s: Sys, a: Action)
    requires Inv(s) && Owns(s) && Enabled(s, a)
    ensures Owns(Next(s, a))
  {
    var s' := Next(s, a);
    match a {
      case HookStep(r) => HookOwners(s, r, s');
      case DMain => DMainOwns(s, s'); HunterShutdown.DMainLeavesHunter(s, s');
      case DReceiver => DReceiverOwns(s, s');
      case DServer(fails) => ServerFrame(s, fails, s');
      case HMain(save, fileOpens) =>
        HMainOwns(s, save, fileOpens, s');
        Shutdown.HMainLeavesDaemon(s, save, fileOpens, s');
      case HReceiver => HReceiverOwns(s, s');
      case _ =>
    }
    hide Inv, NextHook, NextDMain, NextDServer, NextHMain, Receive, Partition, UnsharedIds, Below, StoredIds,
      DMainEnabled, HMainEnabled, DServerEnabled;
  }

  lemma OwnsInit(s: Sys)
    requires Init(s)
    ensures Owns(s)
  {}

  /** Exactly one owner, in every state of every run. */
  lemma {:induction false} OwnsAlways(t: seq<Sys>, acts: seq<Action>, n: nat)
    requires Run(t, acts) && n < |t|
    ensures Inv(t[n]) && Owns(t[n])
  {
    hide Inv, Owns, Next, Enabled;
    InvAlways(t, acts, n);
    if n == 0 {
      OwnsInit(t[0]);
    } else {
      OwnsAlways(t, acts, n - 1);
      OwnsNext(t[n - 1], acts[n - 1]);
    }
  }

  // ----- what it means -----

  ghost function IdsIn(ids: seq<nat>): set<nat> { set id | id in ids }

  /** The packets still on the receiver's side: in its hand, or the terminate packet it kept. */
  function AtReceiver(p: Pipe): seq<nat> { InHand(p.receiver) + StopPacket(p.receiver) }

  lemma PipeSides(p: Pipe)
    requires PipeInv(p)
    ensures IdsIn(p.queue) !! IdsIn(AtReceiver(p)) !! Below(|p.popped|)
    ensures IdsIn(p.queue) + IdsIn(AtReceiver(p)) + Below(|p.popped|) == Below(|p.heap|)
  {
    forall id | |p.popped| <= id < Pushed(p) ensures id in p.queue {
      assert p.queue[id - |p.popped|] == id;
    }
    assert forall id :: id in p.queue <==> |p.popped| <= id < Pushed(p);
    assert forall id :: id in AtReceiver(p) <==> Pushed(p) <= id < |p.heap|;
  }

  /** Every packet allocated has exactly one owner: five places in the daemon, six in the hunter. */
  lemma {:induction false} EveryPacketHasOneOwner(t: seq<Sys>, acts: seq<Action>, n: nat)
    requires Run(t, acts) && n < |t|
    ensures
      var p, d := t[n].dpipe, t[n].d;
      && IdsIn(AtReceiver(p)) !! IdsIn(p.queue) !! HandSet(DaemonHand(d.main)) !! d.freed
      && IdsIn(AtReceiver(p)) + IdsIn(p.queue) + HandSet(DaemonHand(d.main)) + d.freed == Below(|p.heap|)
    ensures
      var p, h := t[n].hpipe, t[n].h;
      && IdsIn(AtReceiver(p)) !! IdsIn(p.queue) !! HandSet(HunterHand(h.main)) !! Held(h) !! h.freed !! h.dropped
      && IdsIn(AtReceiver(p)) + IdsIn(p.queue) + HandSet(HunterHand(h.main)) + Held(h) + h.freed + h.dropped
         == Below(|p.heap|)
  {
    OwnsAlways(t, acts, n);
    PipeSides(t[n].dpipe);
    PipeSides(t[n].hpipe);
    hide Run, PipeInv, KernelInv, DaemonInv, HunterInv, IdsIn, AtReceiver, HandSet, Held, UnsharedIds;
  }

  /** The packets a daemon step frees. */
  function DaemonFrees(s: Sys): set<nat> {
    match s.d.main
    case Loop(l) => if l.Free? then {l.id} else {}
    case Stop(t) => if t.CleanPop? && s.dpipe.queue != [] then {s.dpipe.queue[0]} else {}
    case _ => {}
  }

  /** The packets a daemon step looks at. */
  function DaemonLooks(s: Sys): set<nat> {
    if s.d.main.Loop? && !s.d.main.l.LoopTest? && !s.d.main.l.PopNext? then {s.d.main.l.id} else {}
  }

  function HunterFrees(s: Sys, save: bool, fileOpens: bool): set<nat> {
    if s.h.main == Leaving(HCleanPop) && s.hpipe.queue != [] then {s.hpipe.queue[0]}
    else if s.h.main == Leaving(HChoice) && !(save && !fileOpens) then StoredIds(s.h.index)
    else {}
  }

  /** The packet in hand, and while hunting the whole index, are looked at. */
  ghost function HunterLooks(s: Sys): set<nat> {
    if s.h.main.Hunting? || s.h.main == Leaving(HChoice)
    then HandSet(HunterHand(s.h.main)) + StoredIds(s.h.index) else {}
  }

  /** Nothing is freed twice and nothing freed is looked at, in either process. */
  lemma NoDoubleFree(t: seq<Sys>, acts: seq<Action>, n: nat, save: bool, fileOpens: bool)
    requires Run(t, acts) && n < |t|
    ensures DaemonFrees(t[n]) !! t[n].d.freed && DaemonLooks(t[n]) !! t[n].d.freed
    ensures HunterFrees(t[n], save, fileOpens) !! t[n].h.freed && HunterLooks(t[n]) !! t[n].h.freed
    ensures HunterLooks(t[n]) !! t[n].h.dropped
  {
    OwnsAlways(t, acts, n);
    var s := t[n];
    assert s.dpipe.queue != [] ==> s.dpipe.queue[0] == |s.dpipe.popped|;
    assert s.hpipe.queue != [] ==> s.hpipe.queue[0] == |s.hpipe.popped|;
    hide Run, PipeInv, KernelInv, DaemonReceiver, SocketInv, StoredIds, UnsharedIds, DaemonSlot, HunterSlot;
  }

  /** After a clean daemon exit every packet received has been freed, exactly once, save a consumed
      terminate packet. */
  lemma CleanDaemonExit(t: seq<Sys>, acts: seq<Action>, n: nat)
    requires Run(t, acts) && n < |t| && t[n].d.main.Done?
    ensures t[n].d.freed == Below(|t[n].dpipe.heap|) - (set id | id in StopPacket(t[n].dpipe.receiver))
    ensures forall id :: id in StopPacket(t[n].dpipe.receiver) ==>
      id < |t[n].dpipe.heap| && IsStop(t[n].dpipe.heap[id])
  {
    OwnsAlways(t, acts, n);
    var p := t[n].dpipe;
    hide Run, KernelInv, HunterInv, HunterOwns;
    assert ReceiverDone(p) && p.queue == [];
  }

  /** When the hunter has ended, every packet it received is freed or dropped and never both; only
      the consumed terminate packet is neither. */
  lemma HunterExit(t: seq<Sys>, acts: seq<Action>, n: nat)
    requires Run(t, acts) && n < |t| && t[n].h.main.HDone?
    ensures t[n].h.freed !! t[n].h.dropped
    ensures t[n].h.freed + t[n].h.dropped ==
      Below(|t[n].hpipe.heap|) - (set id | id in StopPacket(t[n].hpipe.receiver))
  {
    OwnsAlways(t, acts, n);
    var p := t[n].hpipe;
    hide Run, KernelInv, DaemonInv, DaemonOwns;
    assert ReceiverDone(p) && p.queue == [];
  }
}
