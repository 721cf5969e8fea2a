/** Where a recorded pid comes from. A packet in the hunter's index stands under a pid that the
    daemon found holding a socket which an earlier read of the socket tables listed under the
    packet's destination port. */
module Provenance {
  import opened Packets
  import opened SocketTable
  import opened SocketOwner
  import opened ScanFiles
  import opened PortToPidMap
  import opened AnswerFold
  import opened HutKarish
  import opened Invariants
  import ScansOverRuns
  import Lookup
  import opened HuntOverRuns

  // ----- what one step reads and finds -----

  /** The step reads the TCP table: at start-up, or for a TCP packet. */
  predicate ReadsTcp(s: Sys, a: Action) {
    && a.DMain?
    && (s.d.main == Build(ReadTcp)
        || (s.d.main.Loop? && s.d.main.l.ReadTable? && s.d.main.l.id < |s.dpipe.heap|
            && s.dpipe.heap[s.d.main.l.id].proto == 'T'))
  }

  /** It reads the UDP table: at start-up, or for a packet that is not TCP. */
  predicate ReadsUdp(s: Sys, a: Action) {
    && a.DMain?
    && ((s.d.main.Build? && s.d.main.b.ReadUdp?)
        || (s.d.main.Loop? && s.d.main.l.ReadTable? && s.d.main.l.id < |s.dpipe.heap|
            && s.dpipe.heap[s.d.main.l.id].proto != 'T'))
  }

  /** It reads a table that lists this socket; in the main loop, under the packet's port. */
  predicate Lists(s: Sys, a: Action, e: SockEntry) {
    && Scannable(s.proc)
    && (|| (ReadsTcp(s, a) && e in ParseTable(s.proc.tcp, 0).value)
        || (ReadsUdp(s, a) && e in ParseTable(s.proc.udp, 0).value))
    && (s.d.main.Loop? && s.dpipe.heap[s.d.main.l.id].dstPort != 0 ==>
          e.port == s.dpipe.heap[s.d.main.l.id].dstPort)
  }

  /** The process found to hold a socket. */
  datatype Finding = Finding(entry: SockEntry, pid: int)

  function EntriesIn(es: seq<SockEntry>): set<SockEntry> { set e | e in es }

  /** The entries a step of the daemon's main thread reads. */
  function ReadBy(s: Sys, a: Action): set<SockEntry> {
    if !a.DMain? || !DMainEnabled(s) then {}
    else
      match s.d.main
      case Build(b) =>
        if b.ReadTcp? then EntriesIn(ParseTable(s.proc.tcp, 0).value)
        else if b.ReadUdp? then EntriesIn(ParseTable(s.proc.udp, 0).value) else {}
      case Loop(l) =>
        if l.ReadTable? then
          var pckt := s.dpipe.heap[l.id];
          EntriesIn(ParseTable(TableFor(s.proc, pckt.proto), pckt.dstPort).value)
        else {}
      case _ => {}
  }

  /** The entry whose owner a step is about to look up. */
  function SoughtBy(s: Sys, a: Action): seq<SockEntry> {
    if !a.DMain? then []
    else
      match s.d.main
      case Build(b) => if b.MapTcp? then b.tcp else if b.MapUdp? then b.udp else []
      case Loop(l) => if l.FindOwner? then l.es else []
      case _ => []
  }

  /** What a step finds out. */
  function FoundBy(s: Sys, a: Action): set<Finding> {
    var es := SoughtBy(s, a);
    if es == [] then {} else {Finding(es[0], FindPid(s.proc.dirs, es[0].inode))}
  }

  lemma ReadIsListed(s: Sys, a: Action, e: SockEntry)
    requires Scannable(s.proc) && e in ReadBy(s, a)
    ensures Lists(s, a, e) && a.DMain?
  {
    hide ParseTable;
    if s.d.main.Loop? {
      var pckt := s.dpipe.heap[s.d.main.l.id];
      var lines := TableFor(s.proc, pckt.proto);
      if pckt.dstPort != 0 {
        FilteredParse(lines, pckt.dstPort);
        OnPortIsThere(ParseTable(lines, 0).value, pckt.dstPort);
      }
    }
  }

  // ----- the invariant, for what has been read and found so far -----

  /** A scan for port 0 is not filtered, so that its finding may be for a socket on any port. */
  ghost predicate FoundFor(found: set<Finding>, port: Port, pid: int) {
    exists e :: Finding(e, pid) in found && (port != 0 ==> e.port == port)
  }

  ghost predicate AllIn(es: seq<SockEntry>, read: set<SockEntry>) { forall e :: e in es ==> e in read }

  ghost predicate InHand(pc: MainPc, heap: seq<PacketInfo>, read: set<SockEntry>, found: set<Finding>) {
    match pc
    case Build(b) =>
      (match b
       case ReadTcp => true
       case ReadUdp(tcp) => AllIn(tcp, read)
       case MapTcp(tcp, udp) => AllIn(tcp, read) && AllIn(udp, read)
       case MapUdp(udp) => AllIn(udp, read))
    case Loop(l) =>
      (match l
       case FindOwner(id, es) =>
         id < |heap| && AllIn(es, read) &&
         (heap[id].dstPort != 0 ==> forall e :: e in es ==> e.port == heap[id].dstPort)
       case Store(id, pid) =>
         id < |heap| && (pid != UNKNOWN_PID ==> FoundFor(found, heap[id].dstPort, pid))
       case _ => true)
    case _ => true
  }

  ghost predicate MapFound(m: PortMap, found: set<Finding>) {
    forall port :: port in m ==> FoundFor(found, port, m[port])
  }

  ghost predicate ProvInv(s: Sys, read: set<SockEntry>, found: set<Finding>) {
    InHand(s.d.main, s.dpipe.heap, read, found) && MapFound(s.d.portMap, found)
  }

  lemma MoreFound(m: PortMap, found: set<Finding>, found': set<Finding>)
    requires MapFound(m, found) && found <= found'
    ensures MapFound(m, found')
  {
    forall port | port in m ensures FoundFor(found', port, m[port]) {
      var e :| Finding(e, m[port]) in found && (port != 0 ==> e.port == port);
      assert Finding(e, m[port]) in found';
    }
  }

  lemma RecordFound(m: PortMap, found: set<Finding>, e: SockEntry, dirs: seq<ProcDir>)
    requires MapFound(m, found)
    ensures MapFound(RecordTcp(m, e, dirs), found + {Finding(e, FindPid(dirs, e.inode))})
    ensures MapFound(RecordUdp(m, e, dirs), found + {Finding(e, FindPid(dirs, e.inode))})
  {
    var f := Finding(e, FindPid(dirs, e.inode));
    assert f in found + {f};
    MoreFound(m, found, found + {f});
  }

  lemma BuildProv(s: Sys, b: BuildPc, s': Sys, read: set<SockEntry>, found: set<Finding>)
    requires ProvInv(s, read, found) && s.d.main == Build(b) && Scannable(s.proc) && s' == NextBuild(s, b)
    ensures ProvInv(s', read + ReadBy(s, DMain), found + FoundBy(s, DMain))
  {
    hide ParseTable, FindPid, RecordTcp, RecordUdp, MapFound;
    MoreFound(s.d.portMap, found, found + FoundBy(s, DMain));
    match b
    case MapTcp(tcp, _) => if tcp != [] { RecordFound(s.d.portMap, found, tcp[0], s.proc.dirs); }
    case MapUdp(udp) => if udp != [] { RecordFound(s.d.portMap, found, udp[0], s.proc.dirs); }
    case _ =>
  }

  lemma ReadTableProv(s: Sys, id: nat, s': Sys, read: set<SockEntry>, found: set<Finding>)
    requires ProvInv(s, read, found) && s.d.main == Loop(ReadTable(id)) && Scannable(s.proc)
    requires LoopEnabled(s, ReadTable(id)) && s' == NextLoop(s, ReadTable(id))
    ensures ProvInv(s', read + ReadBy(s, DMain), found)
  {
    hide ParseTable, MapFound;
    var port := s.dpipe.heap[id].dstPort;
    var lines := TableFor(s.proc, s.dpipe.heap[id].proto);
    if port != 0 {
      FilteredParse(lines, port);
      OnPortIsThere(ParseTable(lines, 0).value, port);
    }
  }

  lemma FindOwnerProv(s: Sys, id: nat, es: seq<SockEntry>, s': Sys, read: set<SockEntry>, found: set<Finding>)
    requires ProvInv(s, read, found) && s.d.main == Loop(FindOwner(id, es)) && s' == NextLoop(s, FindOwner(id, es))
    ensures ProvInv(s', read, found + FoundBy(s, DMain))
  {
    hide FindPid, MapFound;
    MoreFound(s.d.portMap, found, found + FoundBy(s, DMain));
    if es != [] {
      assert es[0] in es && Finding(es[0], FindPid(s.proc.dirs, es[0].inode)) in found + FoundBy(s, DMain);
    }
  }

  lemma StoreProv(s: Sys, id: nat, pid: int, s': Sys, read: set<SockEntry>, found: set<Finding>)
    requires ProvInv(s, read, found) && s.d.main == Loop(Store(id, pid))
    requires LoopEnabled(s, Store(id, pid)) && s' == NextLoop(s, Store(id, pid))
    ensures ProvInv(s', read, found)
  {}

  lemma LoopProv(s: Sys, l: LoopPc, s': Sys, read: set<SockEntry>, found: set<Finding>)
    requires ProvInv(s, read, found) && s.d.main == Loop(l) && LoopEnabled(s, l) && s' == NextLoop(s, l)
    requires Scannable(s.proc)
    ensures ProvInv(s', read + ReadBy(s, DMain), found + FoundBy(s, DMain))
  {
    hide ParseTable, MapFound, FindPid;
    match l
    case ReadTable(id) =>
      ReadTableProv(s, id, s', read, found);
      assert found + FoundBy(s, DMain) == found;
    case FindOwner(id, es) =>
      FindOwnerProv(s, id, es, s', read, found);
      assert read + ReadBy(s, DMain) == read;
    case Store(id, pid) =>
      StoreProv(s, id, pid, s', read, found);
      assert read + ReadBy(s, DMain) == read && found + FoundBy(s, DMain) == found;
    case _ =>
      assert read + ReadBy(s, DMain) == read && found + FoundBy(s, DMain) == found;
  }

  // ----- every step -----

  /** Nothing in hand, and the map as it was. */
  lemma QuietProv(s: Sys, s': Sys, read: set<SockEntry>, found: set<Finding>)
    requires ProvInv(s, read, found) && s'.d.portMap == s.d.portMap
    requires (s'.d.main == s.d.main && s.dpipe.heap <= s'.dpipe.heap)
      || s'.d.main.Start? || s'.d.main == Loop(LoopTest) || s'.d.main.Stop? || s'.d.main.Release? || s'.d.main.Done?
    ensures ProvInv(s', read, found)
  {
    hide MapFound;
  }

  lemma DMainProv(s: Sys, s': Sys, read: set<SockEntry>, found: set<Finding>)
    requires ProvInv(s, read, found) && Scannable(s.proc) && DMainEnabled(s) && s' == NextDMain(s)
    ensures ProvInv(s', read + ReadBy(s, DMain), found + FoundBy(s, DMain))
  {
    hide NextBuild, NextStart, NextLoop, NextStop, NextRelease, ProvInv, LoopEnabled, Scannable;
    assert read + {} == read && found + {} == found;
    match s.d.main
    case Build(b) => BuildProv(s, b, s', read, found);
    case Loop(l) => LoopProv(s, l, s', read, found);
    case Start(pc) =>
      StartFrame(s, pc, s');
      Elsewhere(s);
      QuietProv(s, s', read, found);
    case Stop(pc) => StopLeaves(s, pc, s'); Elsewhere(s); StopMoves(s, pc, s'); QuietProv(s, s', read, found);
    case Release(pc) => ReleaseFrame(s, pc, s'); Elsewhere(s); QuietProv(s, s', read, found);
  }

  lemma Elsewhere(s: Sys)
    requires !s.d.main.Build? && !s.d.main.Loop?
    ensures ReadBy(s, DMain) == {} && FoundBy(s, DMain) == {}
  {}

  lemma OthersProv(s: Sys, a: Action, read: set<SockEntry>, found: set<Finding>)
    requires Inv(s) && ProvInv(s, read, found) && Enabled(s, a) && !a.DMain?
    ensures ProvInv(Next(s, a), read, found)
  {
    ScansOverRuns.OthersKeepMap(s, a);
    ScansOverRuns.HeapGrows(s, a);
    hide Next, Enabled, ProvInv, Inv;
    QuietProv(s, Next(s, a), read, found);
  }

  lemma SoughtWasRead(s: Sys, a: Action, read: set<SockEntry>, found: set<Finding>, f: Finding)
    requires ProvInv(s, read, found) && f in FoundBy(s, a)
    ensures f.entry in read && f.pid == FindPid(s.proc.dirs, f.entry.inode) && a.DMain?
  {
    hide FindPid, MapFound;
    var es := SoughtBy(s, a);
    assert es[0] in es;
  }

  // ----- runs -----

  ghost function ReadSoFar(t: seq<Sys>, acts: seq<Action>, n: nat): set<SockEntry>
    requires n <= |acts| <= |t|
  {
    if n == 0 then {} else ReadSoFar(t, acts, n - 1) + ReadBy(t[n - 1], acts[n - 1])
  }

  ghost function FoundSoFar(t: seq<Sys>, acts: seq<Action>, n: nat): set<Finding>
    requires n <= |acts| <= |t|
  {
    if n == 0 then {} else FoundSoFar(t, acts, n - 1) + FoundBy(t[n - 1], acts[n - 1])
  }

  lemma {:induction false} ProvAlways(t: seq<Sys>, acts: seq<Action>, n: nat)
    requires Run(t, acts) && n <= |acts|
    ensures Inv(t[n]) && ProvInv(t[n], ReadSoFar(t, acts, n), FoundSoFar(t, acts, n))
  {
    hide Inv, ProvInv, Next, Enabled;
    InvAlways(t, acts, n);
    if n == 0 {
      ProvInit(t[0]);
    } else {
      ProvAlways(t, acts, n - 1);
      ProvNext(t[n - 1], acts[n - 1], ReadSoFar(t, acts, n - 1), FoundSoFar(t, acts, n - 1));
    }
  }

  lemma ProvInit(s: Sys)
    requires Init(s)
    ensures ProvInv(s, {}, {})
  {}

  lemma ProvNext(s: Sys, a: Action, read: set<SockEntry>, found: set<Finding>)
    requires Inv(s) && ProvInv(s, read, found) && Enabled(s, a)
    ensures ProvInv(Next(s, a), read + ReadBy(s, a), found + FoundBy(s, a))
  {
    ScansOverRuns.ProcIsScannable(s);
    hide Inv, ProvInv;
    if a.DMain? {
      hide NextDMain, DMainEnabled, Scannable;
      DMainProv(s, Next(s, a), read, found);
    } else {
      OthersProv(s, a, read, found);
      assert ReadBy(s, a) == {} && FoundBy(s, a) == {};
      hide Next, Enabled;
      assert read + {} == read && found + {} == found;
    }
  }

  lemma {:induction false} WhenRead(t: seq<Sys>, acts: seq<Action>, n: nat, e: SockEntry) returns (i: nat)
    requires n <= |acts| <= |t| && e in ReadSoFar(t, acts, n)
    ensures i < n && e in ReadBy(t[i], acts[i])
  {
    hide ReadBy;
    if e in ReadSoFar(t, acts, n - 1) { i := WhenRead(t, acts, n - 1, e); } else { i := n - 1; }
  }

  lemma {:induction false} WhenFound(t: seq<Sys>, acts: seq<Action>, n: nat, f: Finding) returns (j: nat)
    requires n <= |acts| <= |t| && f in FoundSoFar(t, acts, n)
    ensures j < n && f in FoundBy(t[j], acts[j])
  {
    hide FoundBy;
    if f in FoundSoFar(t, acts, n - 1) { j := WhenFound(t, acts, n - 1, f); } else { j := n - 1; }
  }

  /** What the map says of a port was first read from the tables and then found in the process
      directories, each by a step of the daemon's main thread. */
  lemma MappedWasFound(t: seq<Sys>, acts: seq<Action>, n: nat, port: Port) returns (i: nat, j: nat, e: SockEntry)
    requires Run(t, acts) && n <= |acts| && port in t[n].d.portMap
    ensures i < j < n && acts[i].DMain? && acts[j].DMain?
    ensures Lists(t[i], acts[i], e) && (port != 0 ==> e.port == port)
    ensures t[n].d.portMap[port] == FindPid(t[j].proc.dirs, e.inode)
  {
    hide Inv, Next, Enabled, InHand, Lists, ReadBy, FoundBy, FindPid, Init;
    ProvAlways(t, acts, n);
    e :| Finding(e, t[n].d.portMap[port]) in FoundSoFar(t, acts, n) && (port != 0 ==> e.port == port);
    var f := Finding(e, t[n].d.portMap[port]);
    j := WhenFound(t, acts, n, f);
    ProvAlways(t, acts, j);
    SoughtWasRead(t[j], acts[j], ReadSoFar(t, acts, j), FoundSoFar(t, acts, j), f);
    i := WhenRead(t, acts, j, e);
    ProvAlways(t, acts, i);
    ScansOverRuns.ProcIsScannable(t[i]);
    ReadIsListed(t[i], acts[i], e);
  }

  // ----- end to end -----

  /** A stored packet was the first of its 5-tuple to get a known answer, over the socket. */
  lemma StoredWasAnswered(t: seq<Sys>, acts: seq<Action>, n: nat, pid: int, v: nat) returns (k: nat)
    requires Run(t, acts) && n < |t| && pid in t[n].h.index && v < |t[n].h.index[pid]|
    ensures t[n].h.index[pid][v] < |t[n].hpipe.heap| && pid != UNKNOWN_PID
    ensures k < |t[n].w.replies| <= |t[n].w.requests| && t[n].w.replies[k] == pid
    ensures t[n].w.requests[k] == t[n].hpipe.heap[t[n].h.index[pid][v]].dstPort
  {
    hide Inv, Lookup.LookupInv, Next, Enabled, Init;
    IndexIsTheFold(t, acts, n, pid);
    StreamIsReal(t, acts, n);
    var h, heap := t[n].h, t[n].hpipe.heap;
    var packet := heap[h.index[pid][v]];
    assert Deref(h.index[pid], heap)[v] == packet;
    hide AnsweredBy, IndexOf, Questions, View;
    AnsweredByMeaning(h.stream, pid);
    assert packet in AnsweredBy(h.stream, pid);
    var q :| FirstAnswer(h.stream, q) && h.stream[q].reply == pid && h.stream[q].packet == packet;
    k := FirstAnswerWasAsked(h.stream, q);
  }

  /** End to end: for every packet in the hunter's index, the daemon read a table listing a socket on its
      destination port (on any port, if that is 0), later found the recorded pid to be the socket's first
      holder, and later still, no scan in progress, its map gave that pid for the port. */
  lemma EndToEnd(t: seq<Sys>, acts: seq<Action>, n: nat, pid: int, v: nat)
    returns (i: nat, j: nat, m: nat, e: SockEntry)
    requires Run(t, acts) && n < |t| && pid in t[n].h.index && v < |t[n].h.index[pid]|
    ensures t[n].h.index[pid][v] < |t[n].hpipe.heap|
    ensures i < j < m < n && acts[i].DMain? && acts[j].DMain?
    ensures
      var port := t[n].hpipe.heap[t[n].h.index[pid][v]].dstPort;
      && Lists(t[i], acts[i], e) && (port != 0 ==> e.port == port)
      && FirstHolder(t[j].proc.dirs, e.inode, pid)
      && !t[m].d.locked && Reply(t[m].d.portMap, port) == pid
  {
    hide Inv, Lookup.LookupInv, Next, Enabled, Init, Lists;
    var k := StoredWasAnswered(t, acts, n, pid, v);
    m := Lookup.Linearizable(t, acts, n, k);
    i, j, e := MappedWasFound(t, acts, m, t[n].w.requests[k]);
    FindPidIsFirstHolder(t[j].proc.dirs, e.inode, pid);
  }
}
