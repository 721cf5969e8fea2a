/** Where the start-up scan and the scan for one port agree about a port, and where they do not. The
    start-up scan keeps the last owned TCP entry or else the first owned UDP entry; the scan for a
    port takes the first entry listed in one table, owned or not. */
module TwoScans {
  import opened Packets
  import opened Text
  import opened SocketTable
  import opened SocketOwner
  import opened ScanFiles
  import opened PortToPidMap
  import opened SampleProc

  /** The entries a scan for the port looks at: for port 0, which disables the filter, all of them. */
  function Wanted(es: seq<SockEntry>, port: Port): seq<SockEntry> { if port == 0 then es else OnPort(es, port) }

  /** The owner of the first entry a scan for the port looks at. */
  function FirstListedOwner(es: seq<SockEntry>, dirs: seq<ProcDir>, port: Port): int {
    if Wanted(es, port) == [] then UNKNOWN_PID else FindPid(dirs, Wanted(es, port)[0].inode)
  }

  lemma ScanTakesTheFirstListed(fs: ProcFs, port: Port, protocol: char)
    requires ScanForPid(fs, port, protocol).Returns?
    requires ParseTable(if protocol == 'T' then fs.tcp else fs.udp, 0).Returns?
    ensures ScanForPid(fs, port, protocol).value ==
      FirstListedOwner(ParseTable(if protocol == 'T' then fs.tcp else fs.udp, 0).value, fs.dirs, port)
  {
    if port != 0 { FilteredParse(if protocol == 'T' then fs.tcp else fs.udp, port); }
  }

  /** The first entry under a port, by its place in the table. */
  lemma {:induction false} FirstOnPort(es: seq<SockEntry>, port: Port) returns (i: nat)
    requires OnPort(es, port) != []
    ensures i < |es| && es[i] == OnPort(es, port)[0] && es[i].port == port
    ensures forall j :: 0 <= j < i ==> es[j].port != port
  {
    var n := |es| - 1;
    if OnPort(es[..n], port) != [] {
      i := FirstOnPort(es[..n], port);
      assert forall j :: 0 <= j < n ==> es[..n][j] == es[j];
    } else {
      i := n;
      OnPortIsThere(es[..n], port);
      forall j | 0 <= j < n ensures es[j].port != port {
        assert es[j] in es[..n];
      }
    }
  }

  /** If the first entry listed has an owner, it is the first owned one; if nothing is owned it has
      none. */
  lemma FirstListedAndFirstOwned(es: seq<SockEntry>, dirs: seq<ProcDir>, port: Port)
    requires port != 0
    ensures FirstListedOwner(es, dirs, port) != UNKNOWN_PID ==>
      !NoneOwned(es, dirs, port) &&
      forall k :: FirstOwned(es, dirs, port, k) ==> FindPid(dirs, es[k].inode) == FirstListedOwner(es, dirs, port)
    ensures NoneOwned(es, dirs, port) ==> FirstListedOwner(es, dirs, port) == UNKNOWN_PID
  {
    if OnPort(es, port) != [] {
      var i := FirstOnPort(es, port);
      if FindPid(dirs, es[i].inode) != UNKNOWN_PID {
        assert OwnedEntry(es, dirs, port, i);
        forall k | FirstOwned(es, dirs, port, k) ensures k == i {
          assert k <= i;
        }
      }
    }
  }

  /** Both scans return, and with the same answer. */
  predicate ScansAgree(fs: ProcFs, port: Port, protocol: char)
    requires InitialScan(fs).Returns?
  {
    ScanForPid(fs, port, protocol) == Returns(Lookup(InitialScan(fs).value, port))
  }

  /** Exactly when the scans agree, for any /proc: when the owner of the first entry the scan for the port
      looks at is that of the last owned TCP entry of the port; if it has none, that of its first owned UDP
      entry; and if it has neither, when there is none. For a port other than 0 this means, without an owned
      TCP entry, that the first UDP entry listed is owned or none is (for UDP), or that no UDP entry is
      owned (for TCP). */
  lemma TieBreaksDiffer(fs: ProcFs, port: Port, protocol: char)
    requires InitialScan(fs).Returns? && ScanForPid(fs, port, protocol).Returns?
    ensures
      var tcp, udp := ParseTable(fs.tcp, 0).value, ParseTable(fs.udp, 0).value;
      var first := FirstListedOwner(if protocol == 'T' then tcp else udp, fs.dirs, port);
      && (forall k :: LastOwned(tcp, fs.dirs, port, k) ==>
           (ScansAgree(fs, port, protocol) <==> first == FindPid(fs.dirs, tcp[k].inode)))
      && (forall k :: NoneOwned(tcp, fs.dirs, port) && FirstOwned(udp, fs.dirs, port, k) ==>
           (ScansAgree(fs, port, protocol) <==> first == FindPid(fs.dirs, udp[k].inode)))
      && (NoneOwned(tcp, fs.dirs, port) && NoneOwned(udp, fs.dirs, port) ==>
           (ScansAgree(fs, port, protocol) <==> first == UNKNOWN_PID))
      && (port != 0 && NoneOwned(tcp, fs.dirs, port) && protocol != 'T' ==>
           (ScansAgree(fs, port, protocol) <==> first != UNKNOWN_PID || NoneOwned(udp, fs.dirs, port)))
      && (port != 0 && NoneOwned(tcp, fs.dirs, port) && protocol == 'T' ==>
           (ScansAgree(fs, port, protocol) <==> NoneOwned(udp, fs.dirs, port)))
  {
    var tcp, udp := ParseTable(fs.tcp, 0).value, ParseTable(fs.udp, 0).value;
    var m := InitialScan(fs).value;
    InitialScanSpecification(fs, port);
    ScanTakesTheFirstListed(fs, port, protocol);
    if port != 0 {
      FirstListedAndFirstOwned(tcp, fs.dirs, port);
      FirstListedAndFirstOwned(udp, fs.dirs, port);
    }
    if NoneOwned(tcp, fs.dirs, port) && !NoneOwned(udp, fs.dirs, port) {
      var k := SomeEntryIsFirst(udp, fs.dirs, port);
      assert Lookup(m, port) == FindPid(fs.dirs, udp[k].inode) != UNKNOWN_PID;
    }
  }

  // ----- a /proc on which they differ -----

  lemma FindInTwo(a: ProcDir, b: ProcDir, inode: string)
    ensures FindPid([a, b], inode) ==
      if Owns(a, inode) then PidOf(a) else if Owns(b, inode) then PidOf(b) else UNKNOWN_PID
    ensures Readable(a) && Readable(b) ==> OwnerOf([a, b], inode) == Returns(FindPid([a, b], inode))
  {
    if Readable(a) && Readable(b) { ReadableWalks([a, b], inode); }
    hide Owns, Readable, WalkThrows;
    assert [a, b][1..] == [b] && [b][1..] == [];
    assert FindPid([], inode) == UNKNOWN_PID;
    assert FindPid([b], inode) == if Owns(b, inode) then PidOf(b) else UNKNOWN_PID;
  }

  lemma Pairs(e: SockEntry, f: SockEntry)
    ensures [e, f][..1] == [e] && [e][..0] == []
    ensures e.port == f.port ==> OnPort([e, f], e.port) == [e, f]
  {
    var none: seq<SockEntry> := [];
    assert OnPort(none, e.port) == none && [e, f][..1] == [e] && [e][..0] == none;
    if e.port == f.port { assert OnPort([e], e.port) == [e]; }
  }

  lemma ScanPairs(dirs: seq<ProcDir>, e: SockEntry, f: SockEntry, m: PortMap)
    ensures ScanTcp(m, [e, f], dirs) == RecordTcp(RecordTcp(m, e, dirs), f, dirs)
    ensures ScanUdp(m, [e, f], dirs) == RecordUdp(RecordUdp(m, e, dirs), f, dirs)
  {
    hide RecordTcp, RecordUdp;
    Pairs(e, f);
    assert ScanTcp(m, [e], dirs) == RecordTcp(m, e, dirs) && ScanUdp(m, [e], dirs) == RecordUdp(m, e, dirs);
  }

  /** Two tables of two entries each: e and f on one TCP port, held by different processes; g and h
      on one UDP port, of which only h is held. */
  predicate Crowded(fs: ProcFs, e: SockEntry, f: SockEntry, g: SockEntry, h: SockEntry) {
    && ParseTable(fs.tcp, 0) == Returns([e, f]) && ParseTable(fs.udp, 0) == Returns([g, h])
    && e.port == f.port != g.port == h.port && e.port != 0 && g.port != 0
    && OwnerOf(fs.dirs, e.inode) == Returns(FindPid(fs.dirs, e.inode))
    && OwnerOf(fs.dirs, f.inode) == Returns(FindPid(fs.dirs, f.inode))
    && OwnerOf(fs.dirs, g.inode) == Returns(FindPid(fs.dirs, g.inode))
    && OwnerOf(fs.dirs, h.inode) == Returns(FindPid(fs.dirs, h.inode))
    && FindPid(fs.dirs, e.inode) != UNKNOWN_PID && FindPid(fs.dirs, f.inode) != UNKNOWN_PID
    && FindPid(fs.dirs, e.inode) != FindPid(fs.dirs, f.inode)
    && FindPid(fs.dirs, g.inode) == UNKNOWN_PID != FindPid(fs.dirs, h.inode)
  }

  lemma CrowdedScans(fs: ProcFs, e: SockEntry, f: SockEntry, g: SockEntry, h: SockEntry)
    requires Crowded(fs, e, f, g, h)
    ensures ScanForPid(fs, e.port, 'T') == Returns(FindPid(fs.dirs, e.inode))
    ensures ScanForPid(fs, g.port, 'U') == Returns(UNKNOWN_PID)
    ensures ScanForPid(fs, 0, 'T') == Returns(FindPid(fs.dirs, e.inode))
  {
    Pairs(e, f);
    Pairs(g, h);
    FilteredParse(fs.tcp, e.port);
    FilteredParse(fs.udp, g.port);
    hide ParseTable, WalkThrows, FindPid, OnPort;
  }

  lemma CrowdedStart(fs: ProcFs, e: SockEntry, f: SockEntry, g: SockEntry, h: SockEntry)
    requires Crowded(fs, e, f, g, h)
    ensures InitialScan(fs) ==
      Returns(map[e.port := FindPid(fs.dirs, f.inode), g.port := FindPid(fs.dirs, h.inode)])
  {
    ScanPairs(fs.dirs, e, f, map[]);
    var m := ScanTcp(map[], [e, f], fs.dirs);
    ScanPairs(fs.dirs, g, h, m);
    hide ParseTable, WalkThrows, FindPid, ScanTcp, ScanUdp, OnPort, ScanForPid;
    assert !TcpThrows([e, f], fs.dirs) && !UdpThrows(m, [g, h], fs.dirs);
    hide TcpThrows, UdpThrows;
    assert m == map[e.port := FindPid(fs.dirs, f.inode)];
    assert ScanUdp(m, [g, h], fs.dirs) ==
      map[e.port := FindPid(fs.dirs, f.inode), g.port := FindPid(fs.dirs, h.inode)];
  }

  /** An input on which the two scans differ: processes 1 and 2 both listen on TCP port 80; UDP port
      53 is listed for a socket nobody holds, and then for one of process 2. Start-up keeps process 2
      for both ports; the scan for a port finds process 1 for the one and nobody for the other. And the
      scan for port 0 finds process 1, though no socket is listed under that port. */
  lemma TheScansDiffer() returns (fs: ProcFs)
    ensures fs.dirs == [Process(1, 11), Process(2, 12)]
    ensures fs.tcp == TableOf([(11, 80), (12, 80)]) && fs.udp == TableOf([(13, 53), (12, 53)])
    ensures InitialScan(fs) == Returns(map[80 := 2, 53 := 2])
    ensures ScanForPid(fs, 80, 'T') == Returns(1) && !ScansAgree(fs, 80, 'T')
    ensures ScanForPid(fs, 53, 'U') == Returns(UNKNOWN_PID) && !ScansAgree(fs, 53, 'U')
    ensures ScanForPid(fs, 0, 'T') == Returns(1) && !ScansAgree(fs, 0, 'T')
  {
    hide ParseTable, WalkThrows, FindPid, TableOf, Process, Decimal;
    fs := ProcFs(TableOf([(11, 80), (12, 80)]), TableOf([(13, 53), (12, 53)]), [Process(1, 11), Process(2, 12)]);
    EntriesOfTwo(11, 12, 80);
    EntriesOfTwo(13, 12, 53);
    Finds(fs.dirs, 11);
    Finds(fs.dirs, 12);
    Finds(fs.dirs, 13);
    var e, f := SockEntry(Decimal(11), 80), SockEntry(Decimal(12), 80);
    var g, h := SockEntry(Decimal(13), 53), SockEntry(Decimal(12), 53);
    CrowdedScans(fs, e, f, g, h);
    CrowdedStart(fs, e, f, g, h);
    hide InitialScan, ScanForPid;
  }

  lemma {:induction false} Finds(dirs: seq<ProcDir>, inode: nat)
    requires dirs == [Process(1, 11), Process(2, 12)] && inode != 0
    ensures FindPid(dirs, Decimal(inode)) == if inode == 11 then 1 else if inode == 12 then 2 else UNKNOWN_PID
    ensures OwnerOf(dirs, Decimal(inode)) == Returns(FindPid(dirs, Decimal(inode)))
  {
    hide Owns, Readable, Process, FindPid, WalkThrows, Decimal;
    ProcessOwns(1, 11, inode);
    ProcessOwns(2, 12, inode);
    FindInTwo(Process(1, 11), Process(2, 12), Decimal(inode));
  }

  lemma EntriesOfTwo(i: nat, j: nat, port: Port)
    requires i != 0 && j != 0
    ensures ParseTable(TableOf([(i, port), (j, port)]), 0) ==
      Returns([SockEntry(Decimal(i), port), SockEntry(Decimal(j), port)])
  {
    hide ParseTable, TableOf, Decimal;
    var es: seq<(nat, Port)> := [(i, port), (j, port)];
    TableParses(es);
    assert es[..1] == [(i, port)] && es[..1][..0] == [];
    var none: seq<SockEntry> := [];
    assert EntriesOf(es[..1][..0]) == none;
    assert EntriesOf(es[..1]) == none + [SockEntry(Decimal(i), port)];
    assert EntriesOf(es) == [SockEntry(Decimal(i), port)] + [SockEntry(Decimal(j), port)];
    assert EntriesOf(es) == [SockEntry(Decimal(i), port), SockEntry(Decimal(j), port)];
  }

  /** A scan for a UDP port finds its process though the TCP table is empty, and one for a TCP port though
      the UDP table is; neither finds anything in the other's table. */
  lemma EachProtocolHasItsTable(port: Port, pid: nat, inode: nat) returns (udpOnly: ProcFs, tcpOnly: ProcFs)
    requires inode != 0 && 0 < pid <= INT_MAX
    ensures udpOnly == ProcFs([], TableOf([(inode, port)]), [Process(pid, inode)])
    ensures tcpOnly == ProcFs(TableOf([(inode, port)]), [], [Process(pid, inode)])
    ensures ScanForPid(udpOnly, port, 'U') == Returns(pid) && ScanForPid(udpOnly, port, 'T') == Returns(UNKNOWN_PID)
    ensures ScanForPid(tcpOnly, port, 'T') == Returns(pid) && ScanForPid(tcpOnly, port, 'U') == Returns(UNKNOWN_PID)
    ensures InitialScan(udpOnly) == Returns(map[port := pid]) && InitialScan(tcpOnly) == Returns(map[port := pid])
  {
    hide ParseTable, WalkThrows, FindPid, TableOf, Process, Decimal, ScanForPid, InitialScan, OwnerOf;
    udpOnly := ProcFs([], TableOf([(inode, port)]), [Process(pid, inode)]);
    tcpOnly := ProcFs(TableOf([(inode, port)]), [], [Process(pid, inode)]);
    var e := SockEntry(Decimal(inode), port);
    OneEntry(inode, port);
    OneIsFiltered(inode, port);
    HolderIsFound(pid, inode);
    OnlyUdp(udpOnly, e, pid);
    OnlyTcp(tcpOnly, e, pid);
  }

  lemma OnlyUdp(fs: ProcFs, e: SockEntry, pid: int)
    requires fs.tcp == [] && ParseTable(fs.udp, 0) == Returns([e]) && ParseTable(fs.udp, e.port) == Returns([e])
    requires OwnerOf(fs.dirs, e.inode) == Returns(pid) && pid != UNKNOWN_PID
    ensures ScanForPid(fs, e.port, 'U') == Returns(pid) && ScanForPid(fs, e.port, 'T') == Returns(UNKNOWN_PID)
    ensures InitialScan(fs) == Returns(map[e.port := pid])
  {
    hide ParseTable, WalkThrows, FindPid, ScanTcp, ScanUdp, TcpThrows, UdpThrows;
    NoLines(0);
    NoLines(e.port);
    SingleScan(e, fs.dirs, pid);
  }

  lemma OnlyTcp(fs: ProcFs, e: SockEntry, pid: int)
    requires fs.udp == [] && ParseTable(fs.tcp, 0) == Returns([e]) && ParseTable(fs.tcp, e.port) == Returns([e])
    requires OwnerOf(fs.dirs, e.inode) == Returns(pid) && pid != UNKNOWN_PID
    ensures ScanForPid(fs, e.port, 'T') == Returns(pid) && ScanForPid(fs, e.port, 'U') == Returns(UNKNOWN_PID)
    ensures InitialScan(fs) == Returns(map[e.port := pid])
  {
    hide ParseTable, WalkThrows, FindPid, ScanTcp, ScanUdp, TcpThrows, UdpThrows;
    NoLines(0);
    NoLines(e.port);
    SingleScan(e, fs.dirs, pid);
  }

  lemma SingleScan(e: SockEntry, dirs: seq<ProcDir>, pid: int)
    requires OwnerOf(dirs, e.inode) == Returns(pid) && pid != UNKNOWN_PID
    ensures ScanTcp(map[], [e], dirs) == map[e.port := pid] && ScanUdp(map[], [e], dirs) == map[e.port := pid]
    ensures ScanTcp(map[], [], dirs) == map[] && ScanUdp(map[e.port := pid], [], dirs) == map[e.port := pid]
    ensures !TcpThrows([e], dirs) && !UdpThrows(map[], [e], dirs)
    ensures !TcpThrows([], dirs) && !UdpThrows(map[e.port := pid], [], dirs)
  {
    assert [e][..0] == [];
    var none: seq<SockEntry> := [];
    assert ScanTcp(map[], none, dirs) == map[] && ScanUdp(map[], none, dirs) == map[];
  }
}
