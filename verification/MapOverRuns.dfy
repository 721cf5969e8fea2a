/** The daemon's port map over whole runs: what its construction leaves in it, what the main loop
    does to it afterwards, and what that means for the answers the hunter gets. */
module MapOverRuns {
  import opened Packets
  import opened SocketTable
  import opened SocketOwner
  import opened ScanFiles
  import opened PortToPidMap
  import opened Pipeline
  import opened HutKarish
  import opened Invariants
  import Lookups = Lookup
  import opened ScansOverRuns

  // ----- construction -----

  /** How much of the tables has gone into the map, when /proc is `fs` throughout. */
  predicate BuildInv(pc: MainPc, m: PortMap, fs: ProcFs)
    requires Scannable(fs)
  {
    var tcp, udp := ParseTable(fs.tcp, 0).value, ParseTable(fs.udp, 0).value;
    match pc
    case Build(ReadTcp) => m == map[]
    case Build(ReadUdp(es)) => m == map[] && es == tcp
    case Build(MapTcp(es, later)) =>
      later == udp && |es| <= |tcp| && es == tcp[|tcp| - |es|..]
      && m == ScanTcp(map[], tcp[..|tcp| - |es|], fs.dirs)
    case Build(MapUdp(es)) =>
      |es| <= |udp| && es == udp[|udp| - |es|..]
      && m == ScanUdp(ScanTcp(map[], tcp, fs.dirs), udp[..|udp| - |es|], fs.dirs)
    case Start(_) => InitialScan(fs) == Returns(m)
    case _ => true
  }

  lemma TcpDone(tcp: seq<SockEntry>, udp: seq<SockEntry>, dirs: seq<ProcDir>)
    ensures ScanUdp(ScanTcp(map[], tcp, dirs), udp[..0], dirs) == ScanTcp(map[], tcp, dirs)
  {
    var none: seq<SockEntry> := [];
    assert udp[..0] == none;
  }

  lemma MapTcpStep(s: Sys, es: seq<SockEntry>, later: seq<SockEntry>, s': Sys)
    requires Scannable(s.proc) && s.d.main == Build(MapTcp(es, later))
    requires BuildInv(s.d.main, s.d.portMap, s.proc) && s' == NextBuild(s, MapTcp(es, later))
    ensures BuildInv(s'.d.main, s'.d.portMap, s.proc)
  {
    hide ParseTable, RecordTcp, InitialScan, ScanTcp, ScanUdp, NextBuild, FindPid;
    TcpShape(s, es, later, s');
    var tcp, udp, dirs := ParseTable(s.proc.tcp, 0).value, ParseTable(s.proc.udp, 0).value, s.proc.dirs;
    var k := |tcp| - |es|;
    if es == [] {
      TcpDone(tcp, udp, dirs);
      assert tcp[..k] == tcp;
    } else {
      TcpOnce(map[], tcp, k, dirs);
      assert tcp[k] == es[0] && es[1..] == tcp[k + 1..];
    }
  }

  lemma MapUdpStep(s: Sys, es: seq<SockEntry>, s': Sys)
    requires Scannable(s.proc) && s.d.main == Build(MapUdp(es))
    requires BuildInv(s.d.main, s.d.portMap, s.proc) && s' == NextBuild(s, MapUdp(es))
    ensures BuildInv(s'.d.main, s'.d.portMap, s.proc)
  {
    hide ParseTable, RecordUdp, ScanTcp, ScanUdp, NextBuild, InitialScan, Scannable;
    UdpShape(s, es, s');
    UdpAdvances(s.d.portMap, es, s.proc);
  }

  /** One turn of the UDP loop, or its end. */
  lemma UdpAdvances(m: PortMap, es: seq<SockEntry>, fs: ProcFs)
    requires Scannable(fs) && BuildInv(Build(MapUdp(es)), m, fs)
    ensures es != [] ==> BuildInv(Build(MapUdp(es[1..])), RecordUdp(m, es[0], fs.dirs), fs)
    ensures es == [] ==> InitialScan(fs) == Returns(m)
  {
    hide ParseTable, RecordUdp, ScanTcp, ScanUdp, InitialScan, Readable;
    var m0, udp := ScanTcp(map[], ParseTable(fs.tcp, 0).value, fs.dirs), ParseTable(fs.udp, 0).value;
    var k := |udp| - |es|;
    if es == [] {
      assert udp[..k] == udp;
      ScannableScan(fs);
    } else {
      UdpOnce(m0, udp, k, fs.dirs);
      assert udp[k] == es[0] && es[1..] == udp[k + 1..];
    }
  }

  lemma ScannableScan(fs: ProcFs)
    requires Scannable(fs)
    ensures
      var tcp, udp := ParseTable(fs.tcp, 0).value, ParseTable(fs.udp, 0).value;
      InitialScan(fs) == Returns(ScanUdp(ScanTcp(map[], tcp, fs.dirs), udp, fs.dirs))
  {
    hide ParseTable, ScanTcp, ScanUdp, Readable, WalkThrows;
    forall inode: string ensures !WalkThrows(fs.dirs, inode) { ReadableWalks(fs.dirs, inode); }
  }

  lemma ReadStep(s: Sys, pc: BuildPc, s': Sys)
    requires Scannable(s.proc) && s.d.main == Build(pc) && (pc.ReadTcp? || pc.ReadUdp?)
    requires BuildInv(s.d.main, s.d.portMap, s.proc)
    requires s' == NextBuild(s, pc)
    ensures BuildInv(s'.d.main, s'.d.portMap, s.proc)
  {
    var none: seq<SockEntry> := [];
    assert ParseTable(s.proc.tcp, 0).value[..0] == none && ScanTcp(map[], none, s.proc.dirs) == map[];
    hide ParseTable;
  }

  lemma BuildStep(s: Sys, pc: BuildPc, s': Sys)
    requires Scannable(s.proc) && s.d.main == Build(pc) && BuildInv(s.d.main, s.d.portMap, s.proc)
    requires s' == NextBuild(s, pc)
    ensures BuildInv(s'.d.main, s'.d.portMap, s.proc)
  {
    match pc
    case MapTcp(es, later) => MapTcpStep(s, es, later, s');
    case MapUdp(es) => MapUdpStep(s, es, s');
    case _ => ReadStep(s, pc, s');
    hide BuildInv, NextBuild;
  }

  lemma BuildNext(s: Sys, a: Action)
    requires Scannable(s.proc) && Enabled(s, a) && BuildInv(s.d.main, s.d.portMap, s.proc)
    ensures BuildInv(Next(s, a).d.main, Next(s, a).d.portMap, s.proc)
  {
    if !a.DMain? {
      OthersKeepMap(s, a);
      hide Next, Enabled;
    } else if s.d.main.Build? {
      hide BuildInv, NextBuild;
      BuildStep(s, s.d.main.b, Next(s, a));
    } else {
      DMainMaps(s, Next(s, a));
      hide NextDMain, DMainEnabled;
    }
  }

  /** Constructed while /proc stands still, the map is the start-up scan. */
  lemma {:induction false} BuiltIsInitialScan(t: seq<Sys>, acts: seq<Action>, n: nat)
    requires Run(t, acts) && n < |t| && forall i :: 0 <= i <= n ==> t[i].proc == t[0].proc
    ensures Scannable(t[n].proc) && BuildInv(t[n].d.main, t[n].d.portMap, t[n].proc)
    ensures t[n].d.main.Start? ==> InitialScan(t[0].proc) == Returns(t[n].d.portMap)
  {
    InvAlways(t, acts, n);
    assert Scannable(t[n].proc) by { hide PipeInv, DInv, HInv; }
    if n > 0 {
      BuiltIsInitialScan(t, acts, n - 1);
      hide Inv, BuildInv, Next, Enabled;
      BuildNext(t[n - 1], acts[n - 1]);
    }
  }

  // ----- what the hunter sees of it -----

  lemma {:induction false} LookupsAreOrdered(t: seq<Sys>, acts: seq<Action>, a: nat, b: nat)
    requires Run(t, acts) && a <= b < |t|
    ensures |t[a].w.served| <= |t[b].w.served|
    decreases b
  {
    hide Init, Inv, Lookups.LookupInv, Lookups.LookedUp, Next, Enabled;
    if a < b {
      LookupsAreOrdered(t, acts, a, b - 1);
      Lookups.LookupAlways(t, acts, b - 1);
      Lookups.LookupNext(t[b - 1], acts[b - 1]);
      Lookups.ServedGrows(t[b - 1], t[b]);
    }
  }

  lemma ServedOnceBuilt(s: Sys)
    requires Inv(s) && Lookups.LookingUp(s.d.server)
    ensures !s.d.main.Build?
  {}

  /** Step `i` is the last from `a` and before `b` to find a process for the port, and finds `pid`. */
  ghost predicate FindsLast(t: seq<Sys>, acts: seq<Action>, a: nat, b: nat, port: Port, i: nat, pid: int)
    requires b <= |acts| < |t|
  {
    && a <= i < b && FindsAt(t, acts, i, port, pid)
    && forall k, q :: i < k < b ==> !FindsAt(t, acts, k, port, q)
  }

  /** What the map says of the port once the scan in progress, if its process is found, has stored it. */
  function Settled(s: Sys, port: Port): int {
    if s.d.main.Loop? && s.d.main.l.Store? && s.d.main.l.id < |s.dpipe.heap|
      && s.dpipe.heap[s.d.main.l.id].dstPort == port && s.d.main.l.pid != UNKNOWN_PID
    then s.d.main.l.pid else Lookup(s.d.portMap, port)
  }

  lemma LoopSettles(s: Sys, pc: LoopPc, s': Sys, port: Port)
    requires s.d.main == Loop(pc) && LoopEnabled(s, pc) && s' == NextLoop(s, pc)
    requires pc.FindOwner? ==> pc.id < |s.dpipe.heap|
    ensures forall pid :: CounterFinds(s, DMain, port, pid) ==> Settled(s', port) == pid
    ensures (forall pid :: !CounterFinds(s, DMain, port, pid)) ==> Settled(s', port) == Settled(s, port)
  {
    hide FirstHolder, FindPid, TableFor, ParseTable, Pop;
    LoopHeap(s, pc, s');
    if pc.FindOwner? && pc.es != [] {
      var found := FindPid(s.proc.dirs, pc.es[0].inode);
      forall pid ensures FirstHolder(s.proc.dirs, pc.es[0].inode, pid) <==> pid != UNKNOWN_PID && found == pid {
        FindPidIsFirstHolder(s.proc.dirs, pc.es[0].inode, pid);
      }
      assert found != UNKNOWN_PID ==> FirstHolder(s.proc.dirs, pc.es[0].inode, found);
      assert found != UNKNOWN_PID && s.dpipe.heap[pc.id].dstPort == port ==> CounterFinds(s, DMain, port, found);
    }
  }

  lemma LoopHeap(s: Sys, pc: LoopPc, s': Sys)
    requires s.d.main == Loop(pc) && LoopEnabled(s, pc) && s' == NextLoop(s, pc)
    ensures s'.dpipe.heap == s.dpipe.heap
  {
    LoopFrame(s, pc, s');
    hide NextLoop;
  }

  lemma QuietSettles(s: Sys, s': Sys, port: Port)
    requires s'.d.portMap == s.d.portMap && s.dpipe.heap <= s'.dpipe.heap
    requires s'.d.main == s.d.main || (!s.d.main.Loop? && (s'.d.main.Loop? ==> s'.d.main == Loop(LoopTest)))
    requires s.d.main.Loop? && s.d.main.l.Store? ==> s.d.main.l.id < |s.dpipe.heap|
    ensures Settled(s', port) == Settled(s, port)
  {}

  lemma DMainSettles(s: Sys, s': Sys, port: Port)
    requires !s.d.main.Build? && DMainEnabled(s) && s' == NextDMain(s)
    requires DaemonHand(s.d.main).Some? ==> DaemonHand(s.d.main).value < |s.dpipe.heap|
    ensures forall pid :: CounterFinds(s, DMain, port, pid) ==> Settled(s', port) == pid
    ensures (forall pid :: !CounterFinds(s, DMain, port, pid)) ==> Settled(s', port) == Settled(s, port)
  {
    match s.d.main
    case Start(pc) => StartFrame(s, pc, s'); QuietSettles(s, s', port);
    case Loop(pc) => LoopSettles(s, pc, s', port);
    case Stop(pc) => StopLeaves(s, pc, s'); StopMoves(s, pc, s'); QuietSettles(s, s', port);
    case Release(pc) => ReleaseFrame(s, pc, s'); QuietSettles(s, s', port);
    hide NextStart, NextLoop, NextStop, NextRelease, Settled, FirstHolder, LoopEnabled;
  }

  lemma HandInHeap(s: Sys)
    requires Inv(s)
    ensures DaemonHand(s.d.main).Some? ==> DaemonHand(s.d.main).value < |s.dpipe.heap|
  {
    hide KernelInv, HInv, SocketInv, DaemonReceiver, DaemonSlot;
  }

  lemma SettledNext(s: Sys, a: Action, port: Port)
    requires Inv(s) && Enabled(s, a) && !s.d.main.Build?
    ensures forall pid :: CounterFinds(s, a, port, pid) ==> Settled(Next(s, a), port) == pid
    ensures (forall pid :: !CounterFinds(s, a, port, pid)) ==> Settled(Next(s, a), port) == Settled(s, port)
  {
    HandInHeap(s);
    if a.DMain? {
      hide NextDMain, DMainEnabled, Settled, Inv, FirstHolder;
      DMainSettles(s, Next(s, a), port);
    } else {
      OthersKeepMap(s, a);
      HeapGrows(s, a);
      hide Next, Enabled, Settled, Inv, FirstHolder;
      QuietSettles(s, Next(s, a), port);
    }
  }

  /** Since state `a` the map, scan in progress included, says what the last step to find a process
      for the port found, or else what it said then. */
  lemma {:induction false} MapFollowsFinds(t: seq<Sys>, acts: seq<Action>, a: nat, b: nat, port: Port)
    requires Run(t, acts) && a <= b <= |acts| && !t[a].d.main.Build?
    ensures !t[b].d.main.Build? && Inv(t[b])
    ensures forall i, pid :: FindsLast(t, acts, a, b, port, i, pid) ==> Settled(t[b], port) == pid
    ensures Settled(t[b], port) == Settled(t[a], port) ||
      exists i :: FindsLast(t, acts, a, b, port, i, Settled(t[b], port))
    decreases b
  {
    hide Inv, Next, Enabled, Init, Settled, FindsAt, CounterFinds;
    InvAlways(t, acts, b);
    if a < b {
      var last: nat := b - 1;
      var s, act := t[last], acts[last];
      MapFollowsFinds(t, acts, a, last, port);
      SettledNext(s, act, port);
      MapStep(s, act);
      forall pid ensures FindsAt(t, acts, last, port, pid) <==> CounterFinds(s, act, port, pid) {
        CounterFindsIff(t, acts, last, port, pid);
      }
      if pid :| FindsAt(t, acts, last, port, pid) {
        assert FindsLast(t, acts, a, b, port, last, pid);
        assert forall i, q :: FindsLast(t, acts, a, b, port, i, q) ==> i == last;
      } else {
        forall i, pid ensures FindsLast(t, acts, a, b, port, i, pid) <==> FindsLast(t, acts, a, last, port, i, pid) {}
        if Settled(s, port) != Settled(t[a], port) {
          var i :| FindsLast(t, acts, a, last, port, i, Settled(s, port));
          assert FindsLast(t, acts, a, b, port, i, Settled(t[b], port));
        }
      }
    }
  }

  lemma SettledUnlessScanning(s: Sys, port: Port)
    requires Inv(s) && !s.d.locked
    ensures Settled(s, port) == Lookup(s.d.portMap, port)
  {
    hide PipeInv, HInv, KernelInv, SocketInv, DaemonReceiver, DaemonSlot;
  }

  /** The two lookups behind two answers, in their order. */
  lemma TwoLookups(t: seq<Sys>, acts: seq<Action>, n: nat, j: nat, k: nat) returns (a: nat, b: nat)
    requires Run(t, acts) && n < |t| && j < k < |t[n].w.replies| <= |t[n].w.requests|
    ensures a < b < n && Inv(t[a]) && Inv(t[b]) && !t[a].d.main.Build?
    ensures Lookups.AnsweredAt(t[a], j, t[n].w.requests[j], t[n].w.replies[j])
    ensures Lookups.AnsweredAt(t[b], k, t[n].w.requests[k], t[n].w.replies[k])
  {
    hide Inv, Lookups.LookupInv, Next, Enabled, Reply, Init;
    Lookups.LookupAlways(t, acts, n);
    Lookups.RepliesAreServed(t[n]);
    a := Lookups.ServedFromTheMap(t, acts, n, j);
    b := Lookups.ServedFromTheMap(t, acts, n, k);
    if b <= a { LookupsAreOrdered(t, acts, b, a); }
    Lookups.LookupAlways(t, acts, a);
    Lookups.LookupAlways(t, acts, b);
    ServedOnceBuilt(t[a]);
  }

  /** Two answers about one port, the first a pid: the second is unknown exactly when, between the two
      lookups, the last step to find a process for the port found the directory numbered 0. */
  lemma AnswersLost(t: seq<Sys>, acts: seq<Action>, n: nat, j: nat, k: nat) returns (a: nat, b: nat)
    requires Run(t, acts) && n < |t| && j < k < |t[n].w.replies| <= |t[n].w.requests|
    requires t[n].w.requests[j] == t[n].w.requests[k] && t[n].w.replies[j] != UNKNOWN_PID
    ensures a < b < n <= |acts| && Lookups.AnsweredAt(t[a], j, t[n].w.requests[j], t[n].w.replies[j])
    ensures Lookups.AnsweredAt(t[b], k, t[n].w.requests[k], t[n].w.replies[k])
    ensures t[n].w.replies[k] == UNKNOWN_PID <==>
      exists i :: FindsLast(t, acts, a, b, t[n].w.requests[k], i, 0)
  {
    hide Inv, Next, Enabled, Init, FindsAt;
    a, b := TwoLookups(t, acts, n, j, k);
    var port := t[n].w.requests[k];
    SettledUnlessScanning(t[a], port);
    SettledUnlessScanning(t[b], port);
    MapFollowsFinds(t, acts, a, b, port);
    assert forall i, q :: FindsLast(t, acts, a, b, port, i, q) ==> q == Lookup(t[b].d.portMap, port);
    if i :| FindsLast(t, acts, a, b, port, i, Settled(t[b], port)) {
      FoundIsAPid(t, acts, i, port, Settled(t[b], port));
    }
  }

  lemma FoundIsAPid(t: seq<Sys>, acts: seq<Action>, j: nat, port: Port, pid: int)
    requires j < |acts| < |t| && FindsAt(t, acts, j, port, pid)
    ensures pid != UNKNOWN_PID
  {
    hide ParseTable, WalkThrows;
  }

  /** When no directory is numbered 0 while the system runs, as on Linux, a port once answered with a
      pid is never answered unknown again. */
  lemma AnsweredForGood(t: seq<Sys>, acts: seq<Action>, n: nat, j: nat, k: nat)
    requires Run(t, acts) && n < |t| && j < k < |t[n].w.replies| <= |t[n].w.requests|
    requires t[n].w.requests[j] == t[n].w.requests[k] && t[n].w.replies[j] != UNKNOWN_PID
    requires forall i :: 0 <= i < n ==> NoPidZero(t[i].proc)
    ensures t[n].w.replies[k] != UNKNOWN_PID
  {
    hide Init, Next, Enabled, FindsAt, NoPidZero;
    var a, b := AnswersLost(t, acts, n, j, k);
    if i :| FindsLast(t, acts, a, b, t[n].w.requests[k], i, 0) {
      NothingFoundAtZero(t, acts, i, t[n].w.requests[k]);
    }
  }

  lemma NothingFoundAtZero(t: seq<Sys>, acts: seq<Action>, j: nat, port: Port)
    requires j < |acts| < |t| && NoPidZero(t[j].proc)
    ensures !FindsAt(t, acts, j, port, 0)
  {
    hide ParseTable, WalkThrows;
  }
}
