/** A scan of the main loop is three steps, between which everybody else may move and /proc may
    change: reading a table, walking the process directories, storing. What is stored is nonetheless
    what the scan for the packet's port returns, for the table of the one instant and the
    directories of the other. */
module ScansOverRuns {
  import opened Packets
  import opened SocketTable
  import opened SocketOwner
  import opened ScanFiles
  import opened PortToPidMap
  import opened Pipeline
  import opened HutKarish
  import opened Invariants
  import Shutdown

  // ----- the steps -----

  lemma ReadTableShape(s: Sys, id: nat)
    requires LoopEnabled(s, ReadTable(id))
    ensures
      var packet := s.dpipe.heap[id];
      var es := ParseTable(TableFor(s.proc, packet.proto), packet.dstPort).value;
      NextLoop(s, ReadTable(id)) == s.(d := s.d.(main := Loop(FindOwner(id, es))))
  {
    hide ParseTable, TableFor;
  }

  /** What a walk for the first entry finds. */
  function Walk(dirs: seq<ProcDir>, es: seq<SockEntry>): int {
    if es == [] then UNKNOWN_PID else FindPid(dirs, es[0].inode)
  }

  lemma FindOwnerShape(s: Sys, id: nat, es: seq<SockEntry>)
    ensures NextLoop(s, FindOwner(id, es)) == s.(d := s.d.(main := Loop(Store(id, Walk(s.proc.dirs, es)))))
  {
    hide FindPid;
  }

  lemma StoreShape(s: Sys, id: nat, pid: int)
    requires id < |s.dpipe.heap|
    ensures NextLoop(s, Store(id, pid)) == s.(d := s.d.(main := Loop(Free(id)), locked := false,
      portMap := AfterScan(s.d.portMap, s.dpipe.heap[id].dstPort, Returns(pid))))
  {
    hide AfterScan;
  }

  /** The tables of one instant and the directories of another. */
  function Snapshot(tables: ProcFs, dirs: ProcFs): ProcFs { ProcFs(tables.tcp, tables.udp, dirs.dirs) }

  /** Reading at one instant and walking at another is the scan of the two together. */
  lemma WalkIsScan(tables: ProcFs, dirs: ProcFs, port: Port, protocol: char, es: seq<SockEntry>)
    requires Scannable(dirs) && ParseTable(TableFor(tables, protocol), port) == Returns(es)
    ensures ScanForPid(Snapshot(tables, dirs), port, protocol) == Returns(Walk(dirs.dirs, es))
  {
    hide ParseTable, FindPid, Readable, WalkThrows;
    if es != [] { ReadableWalks(dirs.dirs, es[0].inode); }
  }

  /** A scan that nothing interrupts stores what the scan for the packet's port and protocol
      returns, and lets go of the lock. */
  lemma ScanSteps(s: Sys, id: nat)
    requires Scannable(s.proc) && s.d.main == Loop(Lock(id)) && id < |s.dpipe.heap|
    ensures ParseTable(TableFor(s.proc, s.dpipe.heap[id].proto), s.dpipe.heap[id].dstPort).Returns?
    ensures
      var packet := s.dpipe.heap[id];
      var s2 := NextLoop(NextLoop(s, Lock(id)), ReadTable(id));
      var s3 := NextLoop(s2, s2.d.main.l);
      var s4 := NextLoop(s3, s3.d.main.l);
      && s4.d.portMap == AfterScan(s.d.portMap, packet.dstPort, ScanForPid(s.proc, packet.dstPort, packet.proto))
      && s2.d.locked && s3.d.locked && !s4.d.locked && s4.d.main == Loop(Free(id))
  {
    Shutdown.ScanNeverThrows(s, id);
    var packet := s.dpipe.heap[id];
    var es := ParseTable(TableFor(s.proc, packet.proto), packet.dstPort).value;
    var s1 := NextLoop(s, Lock(id));
    assert s1 == s.(d := s.d.(main := Loop(ReadTable(id)), locked := true));
    WalkIsScan(s.proc, s.proc, packet.dstPort, packet.proto, es);
    assert Snapshot(s.proc, s.proc) == s.proc;
    hide NextLoop, ParseTable, Walk, AfterScan, ScanForPid, Scannable;
    ReadTableShape(s1, id);
    var s2 := NextLoop(s1, ReadTable(id));
    FindOwnerShape(s2, id, es);
    var s3 := NextLoop(s2, s2.d.main.l);
    StoreShape(s3, id, s3.d.main.l.pid);
  }

  // ----- where the counter's table and pid come from -----

  predicate AtReadTable(pc: MainPc, id: nat) { pc == Loop(ReadTable(id)) }

  predicate AtFindOwner(pc: MainPc, id: nat) { pc.Loop? && pc.l.FindOwner? && pc.l.id == id }

  predicate AtStore(pc: MainPc, id: nat) { pc.Loop? && pc.l.Store? && pc.l.id == id }

  /** Step `i` reads the table for packet `id`, and up to state `n` the main thread has not moved on. */
  ghost predicate ReadAt(t: seq<Sys>, acts: seq<Action>, i: int, n: nat, id: nat)
    requires n <= |acts| < |t|
  {
    && 0 <= i < n && acts[i].DMain? && AtReadTable(t[i].d.main, id) && id < |t[i].dpipe.heap|
    && forall k :: i < k <= n ==> AtFindOwner(t[k].d.main, id)
  }

  /** What it reads. */
  function TableRead(s: Sys, id: nat): Outcome<seq<SockEntry>>
    requires id < |s.dpipe.heap|
  {
    ParseTable(TableFor(s.proc, s.dpipe.heap[id].proto), s.dpipe.heap[id].dstPort)
  }

  /** Step `j` walks the directories for packet `id`, and up to state `n` the main thread has not
      moved on. */
  ghost predicate WalkAt(t: seq<Sys>, acts: seq<Action>, j: int, n: nat, id: nat)
    requires n <= |acts| < |t|
  {
    && 0 <= j < n && acts[j].DMain? && AtFindOwner(t[j].d.main, id)
    && forall k :: j < k <= n ==> AtStore(t[k].d.main, id)
  }

  lemma PollShape(s: Sys, pc: LoopPc, s': Sys)
    requires pc.LoopTest? || pc.PopNext?
    requires s' == NextLoop(s, pc)
    ensures s'.d.main.Loop? ==> s'.d.main.l.PopNext? || s'.d.main.l.LoopTest? || s'.d.main.l.Lock?
  {
    hide Pop;
  }

  lemma EndShape(s: Sys, pc: LoopPc, s': Sys)
    requires (pc.Lock? || pc.Store? || pc.Free?) && LoopEnabled(s, pc) && s' == NextLoop(s, pc)
    ensures s'.d.main.Loop? ==> s'.d.main.l.ReadTable? || s'.d.main.l.Free? || s'.d.main.l.LoopTest?
  {
    hide AfterScan;
  }

  lemma LoopCounter(s: Sys, pc: LoopPc, s': Sys)
    requires s.d.main == Loop(pc) && LoopEnabled(s, pc) && s' == NextLoop(s, pc)
    ensures s'.d.main.Loop? && s'.d.main.l.FindOwner? ==>
      && pc == ReadTable(s'.d.main.l.id) && pc.id < |s.dpipe.heap|
      && TableRead(s, pc.id) == Returns(s'.d.main.l.es)
    ensures s'.d.main.Loop? && s'.d.main.l.Store? ==>
      AtFindOwner(s.d.main, s'.d.main.l.id) && s'.d.main.l.pid == Walk(s.proc.dirs, pc.es)
  {
    hide NextLoop, TableFor, ParseTable, Walk;
    match pc
    case ReadTable(id) => ReadTableShape(s, id);
    case FindOwner(id, es) => FindOwnerShape(s, id, es);
    case LoopTest => PollShape(s, pc, s');
    case PopNext => PollShape(s, pc, s');
    case _ => EndShape(s, pc, s');
  }

  /** A step that leaves the main thread about to walk or store is its reading or walking, or
      somebody else's. */
  lemma CounterStep(s: Sys, a: Action, s': Sys)
    requires Enabled(s, a) && s' == Next(s, a)
    ensures s'.d.main.Loop? && s'.d.main.l.FindOwner? ==>
      || (!a.DMain? && s'.d.main == s.d.main)
      || (a.DMain? && AtReadTable(s.d.main, s'.d.main.l.id) && s.d.main.l.id < |s.dpipe.heap|
           && TableRead(s, s.d.main.l.id) == Returns(s'.d.main.l.es))
    ensures s'.d.main.Loop? && s'.d.main.l.Store? ==>
      || (!a.DMain? && s'.d.main == s.d.main)
      || (a.DMain? && AtFindOwner(s.d.main, s'.d.main.l.id)
           && s'.d.main.l.pid == Walk(s.proc.dirs, s.d.main.l.es))
  {
    if a.DMain? {
      hide NextBuild, NextStart, NextLoop, NextStop, NextRelease, LoopEnabled, Scannable, TableRead, Walk;
      match s.d.main
      case Build(pc) => BuildFrame(s, pc, s');
      case Start(pc) => StartFrame(s, pc, s');
      case Loop(pc) => LoopCounter(s, pc, s');
      case Stop(pc) => StopMoves(s, pc, s');
      case Release(pc) => ReleaseFrame(s, pc, s');
    } else {
      OthersKeepMap(s, a);
      hide Next, Enabled;
    }
  }

  /** Only the main thread changes the map or moves along. */
  lemma OthersKeepMap(s: Sys, a: Action)
    requires Enabled(s, a) && !a.DMain?
    ensures Next(s, a).d.portMap == s.d.portMap && Next(s, a).d.main == s.d.main
  {
    if a.DServer? { ServerFrame(s, a.acceptFails, Next(s, a)); }
    if a.HMain? { Shutdown.HMainLeavesState(s, a.save, a.fileOpens, Next(s, a)); }
    if a.HookStep? { HookFrame(s, a.run, Next(s, a)); }
    hide NextDServer, NextHMain, NextHook, DServerEnabled, HMainEnabled, Receive;
  }

  lemma HeapGrows(s: Sys, a: Action)
    requires Inv(s) && Enabled(s, a) && !a.DMain?
    ensures s.dpipe.heap <= Next(s, a).dpipe.heap
  {
    if a.DServer? { ServerFrame(s, a.acceptFails, Next(s, a)); }
    if a.HMain? { Shutdown.HMainLeavesDaemon(s, a.save, a.fileOpens, Next(s, a)); }
    if a.HookStep? {
      HookFrame(s, a.run, Next(s, a));
      OfferOnlyQueues(s.dpipe, s.k.arrivals[a.run]);
    }
    hide Inv, NextDServer, NextHMain, NextHook, DServerEnabled, HMainEnabled, Offer;
  }

  // ----- over runs -----

  /** The counter `FindOwner(id, es)` holds what an earlier step, the main thread's last, read for
      packet `id`; the counter `Store(id, pid)` holds what its last step found, walking for the first
      entry of what the one before had read. */
  ghost predicate CounterIsScan(t: seq<Sys>, acts: seq<Action>, n: nat)
    requires n <= |acts| < |t|
  {
    var pc := t[n].d.main;
    && (pc.Loop? && pc.l.FindOwner? ==>
          exists i :: ReadAt(t, acts, i, n, pc.l.id) && TableRead(t[i], pc.l.id) == Returns(pc.l.es))
    && (pc.Loop? && pc.l.Store? ==>
          exists i, j ::
            && WalkAt(t, acts, j, n, pc.l.id) && ReadAt(t, acts, i, j, pc.l.id)
            && TableRead(t[i], pc.l.id) == Returns(t[j].d.main.l.es)
            && pc.l.pid == Walk(t[j].proc.dirs, t[j].d.main.l.es))
  }

  lemma {:induction false} CounterAlways(t: seq<Sys>, acts: seq<Action>, n: nat)
    requires Run(t, acts) && n <= |acts|
    ensures CounterIsScan(t, acts, n)
  {
    hide Next, Enabled, TableRead, Walk;
    if n == 0 {
      assert t[0].d.main.Build?;
    } else {
      hide Init;
      CounterAlways(t, acts, n - 1);
      var s, pc := t[n - 1], t[n].d.main;
      CounterStep(s, acts[n - 1], t[n]);
      if pc.Loop? && pc.l.FindOwner? {
        if acts[n - 1].DMain? {
          assert ReadAt(t, acts, n - 1, n, pc.l.id);
        } else {
          var i :| ReadAt(t, acts, i, n - 1, pc.l.id) && TableRead(t[i], pc.l.id) == Returns(pc.l.es);
          assert ReadAt(t, acts, i, n, pc.l.id);
        }
      }
      if pc.Loop? && pc.l.Store? {
        if acts[n - 1].DMain? {
          assert WalkAt(t, acts, n - 1, n, pc.l.id);
        } else {
          var i, j :| WalkAt(t, acts, j, n - 1, pc.l.id) && ReadAt(t, acts, i, j, pc.l.id)
            && TableRead(t[i], pc.l.id) == Returns(t[j].d.main.l.es)
            && pc.l.pid == Walk(t[j].proc.dirs, t[j].d.main.l.es);
          assert WalkAt(t, acts, j, n, pc.l.id);
        }
      }
    }
  }

  lemma {:induction false} HeapGrowsAlong(t: seq<Sys>, acts: seq<Action>, i: nat, n: nat)
    requires Run(t, acts) && i <= n < |t|
    ensures t[i].dpipe.heap <= t[n].dpipe.heap
    decreases n
  {
    hide Init, Inv, Next, Enabled;
    if i < n {
      HeapGrowsAlong(t, acts, i, n - 1);
      InvAlways(t, acts, n - 1);
      HeapStep(t[n - 1], acts[n - 1]);
    }
  }

  lemma HeapStep(s: Sys, a: Action)
    requires Inv(s) && Enabled(s, a)
    ensures s.dpipe.heap <= Next(s, a).dpipe.heap
  {
    if a.DMain? { DMainKeepsHeap(s, Next(s, a)); } else { HeapGrows(s, a); }
    hide NextDMain, DMainEnabled, Inv;
  }

  lemma DMainKeepsHeap(s: Sys, s': Sys)
    requires DMainEnabled(s) && s' == NextDMain(s)
    ensures s'.dpipe.heap == s.dpipe.heap
  {
    match s.d.main
    case Build(pc) => BuildFrame(s, pc, s');
    case Start(pc) => StartFrame(s, pc, s');
    case Loop(pc) => LoopFrame(s, pc, s');
    case Stop(pc) => StopLeaves(s, pc, s');
    case Release(pc) => ReleaseFrame(s, pc, s');
    hide NextBuild, NextStart, NextLoop, NextStop, NextRelease, LoopEnabled, Scannable;
  }

  // ----- the map's history -----

  predicate Stores(s: Sys, a: Action) { a.DMain? && s.d.main.Loop? && s.d.main.l.Store? }

  /** Step `i` reads, step `j` walks and step `k` stores, for one packet and with no other step of the
      main thread in between; and `call` is the scan for the packet's port and protocol of what /proc
      then was: the tables at `i`, the directories at `j`. */
  ghost predicate ScanMade(t: seq<Sys>, acts: seq<Action>, i: int, j: int, k: int, call: ScanCall) {
    && 0 <= i < j < k < |acts| < |t| && Stores(t[k], acts[k])
    && var id := t[k].d.main.l.id;
    && ReadAt(t, acts, i, j, id) && WalkAt(t, acts, j, k, id)
    && var packet := t[i].dpipe.heap[id];
    call == ScanCall(packet.dstPort, ScanForPid(Snapshot(t[i].proc, t[j].proc), packet.dstPort, packet.proto))
  }

  /** What is stored was scanned. */
  lemma StoreIsScan(t: seq<Sys>, acts: seq<Action>, k: nat) returns (i: nat, j: nat, call: ScanCall)
    requires Run(t, acts) && k < |acts| && Stores(t[k], acts[k])
    ensures ScanMade(t, acts, i, j, k, call)
    ensures t[k].d.main.l.id < |t[k].dpipe.heap|
    ensures call == ScanCall(t[k].dpipe.heap[t[k].d.main.l.id].dstPort, Returns(t[k].d.main.l.pid))
  {
    hide Init, Inv, Next, Enabled, Walk;
    CounterAlways(t, acts, k);
    var id := t[k].d.main.l.id;
    var i', j' :| WalkAt(t, acts, j', k, id) && ReadAt(t, acts, i', j', id)
      && TableRead(t[i'], id) == Returns(t[j'].d.main.l.es)
      && t[k].d.main.l.pid == Walk(t[j'].proc.dirs, t[j'].d.main.l.es);
    i, j := i', j';
    InvAlways(t, acts, j);
    ProcIsScannable(t[j]);
    HeapGrowsAlong(t, acts, i, k);
    var packet := t[i].dpipe.heap[id];
    hide Scannable, ScanForPid, Run;
    WalkIsScan(t[i].proc, t[j].proc, packet.dstPort, packet.proto, t[j].d.main.l.es);
    call := ScanCall(packet.dstPort, Returns(t[k].d.main.l.pid));
  }

  lemma ProcIsScannable(s: Sys)
    requires Inv(s)
    ensures Scannable(s.proc)
  {
    hide PipeInv, DInv, HInv, Scannable;
  }

  /** The map over a run: from any state after the construction to any later one it is overwritten by
      the scans made in between, in order, a scan being what the scan for a port returns for the tables
      and directories its own steps saw. */
  lemma {:induction false} MapIsItsHistory(t: seq<Sys>, acts: seq<Action>, a: nat, b: nat)
    returns (calls: seq<ScanCall>, stores: seq<nat>)
    requires Run(t, acts) && a <= b <= |acts| && !t[a].d.main.Build?
    ensures !t[b].d.main.Build? && t[b].d.portMap == AfterScans(t[a].d.portMap, calls)
    ensures |calls| == |stores| && forall q :: 0 <= q < |stores| ==>
      a <= stores[q] < b && StoresScan(t, acts, stores[q], calls[q])
    ensures forall q, r :: 0 <= q < r < |stores| ==> stores[q] < stores[r]
    ensures forall k :: a <= k < b && Stores(t[k], acts[k]) ==> k in stores
    decreases b
  {
    hide Init, Inv, Next, Enabled, ScanMade, StoresScan, AfterScans;
    if a == b {
      calls, stores := [], [];
      assert AfterScans(t[a].d.portMap, calls) == t[a].d.portMap by { NoScans(t[a].d.portMap); }
    } else {
      var k := b - 1;
      calls, stores := MapIsItsHistory(t, acts, a, k);
      InvAlways(t, acts, k);
      MapStep(t[k], acts[k]);
      if Stores(t[k], acts[k]) {
        var i, j, call := StoreIsScan(t, acts, k);
        assert StoresScan(t, acts, k, call) by { SomeScan(t, acts, i, j, k, call); }
        AfterOneMore(t[a].d.portMap, calls, call);
        calls, stores := calls + [call], stores + [k];
      }
    }
  }

  ghost predicate StoresScan(t: seq<Sys>, acts: seq<Action>, k: int, call: ScanCall) {
    exists i, j :: ScanMade(t, acts, i, j, k, call)
  }

  lemma SomeScan(t: seq<Sys>, acts: seq<Action>, i: int, j: int, k: int, call: ScanCall)
    requires ScanMade(t, acts, i, j, k, call)
    ensures StoresScan(t, acts, k, call)
  {}

  lemma NoScans(m: PortMap)
    ensures AfterScans(m, []) == m
  {}

  lemma AfterOneMore(m: PortMap, calls: seq<ScanCall>, call: ScanCall)
    ensures AfterScans(m, calls + [call]) == AfterScan(AfterScans(m, calls), call.port, call.scan)
  {
    assert (calls + [call])[..|calls|] == calls;
  }

  /** After the construction only a step that stores changes the map, and it holds the lock. */
  lemma MapStep(s: Sys, a: Action)
    requires Inv(s) && Enabled(s, a) && !s.d.main.Build?
    ensures !Next(s, a).d.main.Build?
    ensures Stores(s, a) ==> s.d.locked && s.d.main.l.id < |s.dpipe.heap|
    ensures Stores(s, a) ==>
      Next(s, a).d.portMap ==
        AfterScan(s.d.portMap, s.dpipe.heap[s.d.main.l.id].dstPort, Returns(s.d.main.l.pid))
    ensures !Stores(s, a) ==> Next(s, a).d.portMap == s.d.portMap
  {
    assert s.d.locked <==> MapLocked(s.d.main) by {
      hide PipeInv, HInv, KernelInv, SocketInv, DaemonReceiver, DaemonPackets, DaemonSlot;
    }
    hide Inv, AfterScan, NextDMain, DMainEnabled;
    if a.DMain? { DMainMaps(s, Next(s, a)); } else { OthersKeepMap(s, a); }
  }

  lemma DMainMaps(s: Sys, s': Sys)
    requires !s.d.main.Build? && DMainEnabled(s) && s' == NextDMain(s)
    ensures !s'.d.main.Build? && (s'.d.main.Start? ==> s.d.main.Start?)
    ensures Stores(s, DMain) ==> s.d.main.l.id < |s.dpipe.heap|
    ensures Stores(s, DMain) ==>
      s'.d.portMap == AfterScan(s.d.portMap, s.dpipe.heap[s.d.main.l.id].dstPort, Returns(s.d.main.l.pid))
    ensures !Stores(s, DMain) ==> s'.d.portMap == s.d.portMap
  {
    match s.d.main
    case Start(pc) => StartFrame(s, pc, s');
    case Loop(pc) => LoopMaps(s, pc, s'); LoopMoves(s, pc, s');
    case Stop(pc) => StopLeaves(s, pc, s'); StopMoves(s, pc, s');
    case Release(pc) => ReleaseFrame(s, pc, s');
    hide NextStart, NextLoop, NextStop, NextRelease, AfterScan;
  }

  lemma LoopMaps(s: Sys, pc: LoopPc, s': Sys)
    requires LoopEnabled(s, pc) && s' == NextLoop(s, pc)
    ensures pc.Store? ==> pc.id < |s.dpipe.heap|
    ensures pc.Store? ==>
      s'.d.portMap == AfterScan(s.d.portMap, s.dpipe.heap[pc.id].dstPort, Returns(pc.pid))
    ensures !pc.Store? ==> s'.d.portMap == s.d.portMap
  {
    hide AfterScan, TableFor, ParseTable, Pop;
  }

  // ----- what a scan finds -----

  /** Step `j` walks the directories for a packet to the port and finds `pid`: the table read by the
      step before it lists the port, and `pid` is the first process to hold the first socket listed. */
  ghost predicate FindsAt(t: seq<Sys>, acts: seq<Action>, j: nat, port: Port, pid: int)
    requires j < |acts| < |t|
  {
    && acts[j].DMain? && t[j].d.main.Loop? && t[j].d.main.l.FindOwner?
    && exists i :: ReadAt(t, acts, i, j, t[j].d.main.l.id) && FindsIn(t[i], t[j], t[j].d.main.l.id, port, pid)
  }

  predicate FindsIn(reading: Sys, walking: Sys, id: nat, port: Port, pid: int)
    requires id < |reading.dpipe.heap|
  {
    var packet := reading.dpipe.heap[id];
    packet.dstPort == port && Finds(Visit(Snapshot(reading.proc, walking.proc), port, packet.proto), pid)
  }

  /** As the counter has it. */
  predicate CounterFinds(s: Sys, a: Action, port: Port, pid: int) {
    && a.DMain? && s.d.main.Loop? && s.d.main.l.FindOwner?
    && s.d.main.l.id < |s.dpipe.heap| && s.dpipe.heap[s.d.main.l.id].dstPort == port
    && s.d.main.l.es != [] && FirstHolder(s.proc.dirs, s.d.main.l.es[0].inode, pid)
  }

  lemma SnapshotFinds(reading: Sys, walking: Sys, id: nat, es: seq<SockEntry>, port: Port, pid: int)
    requires id < |reading.dpipe.heap| && Scannable(walking.proc) && TableRead(reading, id) == Returns(es)
    ensures FindsIn(reading, walking, id, port, pid) <==>
      reading.dpipe.heap[id].dstPort == port && es != [] && FirstHolder(walking.proc.dirs, es[0].inode, pid)
  {
    hide ParseTable, FirstHolder, WalkThrows, Readable, FindPid;
    if es != [] { ReadableWalks(walking.proc.dirs, es[0].inode); }
  }

  lemma OneReading(t: seq<Sys>, acts: seq<Action>, i: int, k: int, n: nat, id: nat)
    requires n <= |acts| < |t| && ReadAt(t, acts, i, n, id) && ReadAt(t, acts, k, n, id)
    ensures i == k
  {}

  lemma CounterFindsIff(t: seq<Sys>, acts: seq<Action>, j: nat, port: Port, pid: int)
    requires Run(t, acts) && j < |acts|
    ensures FindsAt(t, acts, j, port, pid) <==> CounterFinds(t[j], acts[j], port, pid)
  {
    hide Init, Inv, Next, Enabled, FirstHolder, FindsIn;
    if acts[j].DMain? && t[j].d.main.Loop? && t[j].d.main.l.FindOwner? {
      var id, es := t[j].d.main.l.id, t[j].d.main.l.es;
      CounterAlways(t, acts, j);
      var i :| ReadAt(t, acts, i, j, id) && TableRead(t[i], id) == Returns(es);
      HeapGrowsAlong(t, acts, i, j);
      InvAlways(t, acts, j);
      ProcIsScannable(t[j]);
      SnapshotFinds(t[i], t[j], id, es, port, pid);
      forall k | ReadAt(t, acts, k, j, id) ensures k == i { OneReading(t, acts, i, k, j, id); }
    }
  }
}
