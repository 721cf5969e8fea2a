/** The reverse lookup: the full scan at start-up, the scan for one port, and how the two
    relate to each other and to a walk over every process. */
module ScanFiles {
  import opened Packets
  import opened SocketTable
  import opened SocketOwner

  /** What the scans can see: the two socket tables and the process directories. */
  datatype ProcFs = ProcFs(tcp: seq<string>, udp: seq<string>, dirs: seq<ProcDir>)

  type PortMap = map<Port, int>

  /** The table a packet's protocol selects. */
  function TableFor(fs: ProcFs, protocol: char): seq<string> {
    if protocol == 'T' then fs.tcp else fs.udp
  }

  // ----- the scan at start-up -----

  /** One TCP entry: a known owner overwrites. */
  function RecordTcp(m: PortMap, e: SockEntry, dirs: seq<ProcDir>): PortMap {
    var pid := FindPid(dirs, e.inode);
    if pid != UNKNOWN_PID then m[e.port := pid] else m
  }

  /** One UDP entry: a mapped port is left alone. */
  function RecordUdp(m: PortMap, e: SockEntry, dirs: seq<ProcDir>): PortMap {
    if e.port in m then m else RecordTcp(m, e, dirs)
  }

  function ScanTcp(m: PortMap, es: seq<SockEntry>, dirs: seq<ProcDir>): PortMap {
    if es == [] then m
    else RecordTcp(ScanTcp(m, es[..|es| - 1], dirs), es[|es| - 1], dirs)
  }

  function ScanUdp(m: PortMap, es: seq<SockEntry>, dirs: seq<ProcDir>): PortMap {
    if es == [] then m
    else RecordUdp(ScanUdp(m, es[..|es| - 1], dirs), es[|es| - 1], dirs)
  }

  lemma TcpOnce(m: PortMap, tcp: seq<SockEntry>, k: nat, dirs: seq<ProcDir>)
    requires k < |tcp|
    ensures ScanTcp(m, tcp[..k + 1], dirs) == RecordTcp(ScanTcp(m, tcp[..k], dirs), tcp[k], dirs)
  {
    assert tcp[..k + 1][..k] == tcp[..k];
  }

  lemma UdpOnce(m: PortMap, udp: seq<SockEntry>, k: nat, dirs: seq<ProcDir>)
    requires k < |udp|
    ensures ScanUdp(m, udp[..k + 1], dirs) == RecordUdp(ScanUdp(m, udp[..k], dirs), udp[k], dirs)
  {
    assert udp[..k + 1][..k] == udp[..k];
  }

  /** Some walk of the TCP loop throws. */
  predicate TcpThrows(es: seq<SockEntry>, dirs: seq<ProcDir>) {
    exists i :: 0 <= i < |es| && WalkThrows(dirs, es[i].inode)
  }

  /** Some walk of the UDP loop throws; there is none for a port mapped by then. */
  predicate UdpThrows(m: PortMap, es: seq<SockEntry>, dirs: seq<ProcDir>) {
    exists i :: 0 <= i < |es| && es[i].port !in ScanUdp(m, es[..i], dirs) && WalkThrows(dirs, es[i].inode)
  }

  function InitialScan(fs: ProcFs): Outcome<PortMap> {
    match ParseTable(fs.tcp, 0)
    case Throws => Throws
    case Returns(tcp) =>
      match ParseTable(fs.udp, 0)
      case Throws => Throws
      case Returns(udp) =>
        var m := ScanTcp(map[], tcp, fs.dirs);
        if TcpThrows(tcp, fs.dirs) || UdpThrows(m, udp, fs.dirs) then Throws else Returns(ScanUdp(m, udp, fs.dirs))
  }

  /** The loop over the TCP sockets. */
  method RecordTcpSockets(tcp: seq<SockEntry>, dirs: seq<ProcDir>) returns (result: Outcome<PortMap>)
    ensures result == if TcpThrows(tcp, dirs) then Throws else Returns(ScanTcp(map[], tcp, dirs))
  {
    var portMap: PortMap := map[];
    var i := 0;
    while i < |tcp|
      invariant 0 <= i <= |tcp| && portMap == ScanTcp(map[], tcp[..i], dirs)
      invariant forall k :: 0 <= k < i ==> !WalkThrows(dirs, tcp[k].inode)
    {
      TcpOnce(map[], tcp, i, dirs);
      var pid := FindPidBySockInode(dirs, tcp[i].inode);
      if pid.Throws? {
        return Throws;
      }
      if pid.value != -1 {
        portMap := portMap[tcp[i].port := pid.value];
      }
      i := i + 1;
    }
    assert tcp[..i] == tcp;
    return Returns(portMap);
  }

  /** What one turn of the UDP loop does. */
  lemma UdpTurn(m: PortMap, e: SockEntry, dirs: seq<ProcDir>, pid: Outcome<int>)
    requires pid == OwnerOf(dirs, e.inode)
    ensures e.port in m ==> RecordUdp(m, e, dirs) == m
    ensures e.port !in m && pid.Returns? ==>
      RecordUdp(m, e, dirs) == if pid.value != UNKNOWN_PID then m[e.port := pid.value] else m
    ensures pid.Throws? <==> WalkThrows(dirs, e.inode)
  {}

  lemma ThrowsAt(m: PortMap, udp: seq<SockEntry>, dirs: seq<ProcDir>, i: nat)
    requires i < |udp| && udp[i].port !in ScanUdp(m, udp[..i], dirs) && WalkThrows(dirs, udp[i].inode)
    ensures UdpThrows(m, udp, dirs)
  {}

  /** No walk for the first `n` entries throws, where there is one. */
  predicate QuietTo(m: PortMap, udp: seq<SockEntry>, dirs: seq<ProcDir>, n: nat)
    requires n <= |udp|
  {
    forall k :: 0 <= k < n ==> udp[k].port in ScanUdp(m, udp[..k], dirs) || !WalkThrows(dirs, udp[k].inode)
  }

  lemma QuietOnce(m: PortMap, udp: seq<SockEntry>, dirs: seq<ProcDir>, n: nat)
    requires n < |udp| && QuietTo(m, udp, dirs, n)
    requires udp[n].port in ScanUdp(m, udp[..n], dirs) || !WalkThrows(dirs, udp[n].inode)
    ensures QuietTo(m, udp, dirs, n + 1)
  {}

  lemma QuietAll(m: PortMap, udp: seq<SockEntry>, dirs: seq<ProcDir>)
    requires QuietTo(m, udp, dirs, |udp|)
    ensures !UdpThrows(m, udp, dirs)
  {}

  /** The loop over the UDP sockets, which skips ports already mapped. */
  method RecordUdpSockets(m: PortMap, udp: seq<SockEntry>, dirs: seq<ProcDir>) returns (result: Outcome<PortMap>)
    ensures result == if UdpThrows(m, udp, dirs) then Throws else Returns(ScanUdp(m, udp, dirs))
  {
    var portMap := m;
    var i := 0;
    assert udp[..0] == [] && ScanUdp(m, udp[..0], dirs) == m;
    assert QuietTo(m, udp, dirs, 0);
    hide WalkThrows, FindPid, ScanUdp, RecordUdp, OwnerOf, QuietTo, UdpThrows;
    while i < |udp|
      invariant 0 <= i <= |udp| && portMap == ScanUdp(m, udp[..i], dirs) && QuietTo(m, udp, dirs, i)
    {
      UdpOnce(m, udp, i, dirs);
      UdpTurn(portMap, udp[i], dirs, OwnerOf(dirs, udp[i].inode));
      i := i + 1;
      if udp[i - 1].port in portMap {
        QuietOnce(m, udp, dirs, i - 1);
        continue;
      }
      var pid := FindPidBySockInode(dirs, udp[i - 1].inode);
      if pid.Throws? {
        ThrowsAt(m, udp, dirs, i - 1);
        return Throws;
      }
      QuietOnce(m, udp, dirs, i - 1);
      if pid.value != -1 {
        portMap := portMap[udp[i - 1].port := pid.value];
      }
    }
    assert udp[..i] == udp;
    QuietAll(m, udp, dirs);
    return Returns(portMap);
  }

  method InitializePortPidMap(fs: ProcFs) returns (result: Outcome<PortMap>)
    ensures result == InitialScan(fs)
  {
    var tcpSockets := ParseListeningSockets(fs.tcp, 0);
    if tcpSockets.Throws? { return Throws; }
    var udpSockets := ParseListeningSockets(fs.udp, 0);
    if udpSockets.Throws? { return Throws; }

    result := RecordTcpSockets(tcpSockets.value, fs.dirs);
    if result.Throws? { return Throws; }
    result := RecordUdpSockets(result.value, udpSockets.value, fs.dirs);
  }

  // ----- what the built map says, port by port -----

  predicate OwnedEntry(es: seq<SockEntry>, dirs: seq<ProcDir>, port: Port, i: int) {
    0 <= i < |es| && es[i].port == port && FindPid(dirs, es[i].inode) != UNKNOWN_PID
  }

  ghost predicate LastOwned(es: seq<SockEntry>, dirs: seq<ProcDir>, port: Port, i: int) {
    OwnedEntry(es, dirs, port, i) && forall j :: OwnedEntry(es, dirs, port, j) ==> j <= i
  }

  ghost predicate FirstOwned(es: seq<SockEntry>, dirs: seq<ProcDir>, port: Port, i: int) {
    OwnedEntry(es, dirs, port, i) && forall j :: OwnedEntry(es, dirs, port, j) ==> i <= j
  }

  ghost predicate NoneOwned(es: seq<SockEntry>, dirs: seq<ProcDir>, port: Port) {
    forall j :: !OwnedEntry(es, dirs, port, j)
  }

  lemma {:induction false} TcpKeepsTheLast(m: PortMap, es: seq<SockEntry>, dirs: seq<ProcDir>, port: Port)
    ensures NoneOwned(es, dirs, port) ==>
      (port in ScanTcp(m, es, dirs) <==> port in m) &&
      (port in m ==> ScanTcp(m, es, dirs)[port] == m[port])
    ensures forall i :: LastOwned(es, dirs, port, i) ==>
      port in ScanTcp(m, es, dirs) && ScanTcp(m, es, dirs)[port] == FindPid(dirs, es[i].inode)
  {
    if es != [] {
      var n := |es| - 1;
      TcpKeepsTheLast(m, es[..n], dirs, port);
      EntriesOfPrefix(es, es[..n], dirs, port);
      if OwnedEntry(es, dirs, port, n) {
        assert forall i :: LastOwned(es, dirs, port, i) ==> i == n;
      } else {
        assert forall i :: LastOwned(es, dirs, port, i) ==> LastOwned(es[..n], dirs, port, i);
      }
    }
  }

  lemma {:induction false} UdpKeepsTheFirst(m: PortMap, es: seq<SockEntry>, dirs: seq<ProcDir>, port: Port)
    ensures port in m ==>
      port in ScanUdp(m, es, dirs) && ScanUdp(m, es, dirs)[port] == m[port]
    ensures port !in m && NoneOwned(es, dirs, port) ==> port !in ScanUdp(m, es, dirs)
    ensures forall i :: port !in m && FirstOwned(es, dirs, port, i) ==>
      port in ScanUdp(m, es, dirs) && ScanUdp(m, es, dirs)[port] == FindPid(dirs, es[i].inode)
  {
    if es != [] {
      var n := |es| - 1;
      UdpKeepsTheFirst(m, es[..n], dirs, port);
      EntriesOfPrefix(es, es[..n], dirs, port);
      forall i | port !in m && FirstOwned(es, dirs, port, i)
        ensures port in ScanUdp(m, es, dirs)
        ensures ScanUdp(m, es, dirs)[port] == FindPid(dirs, es[i].inode)
      {
        if i < n {
          assert FirstOwned(es[..n], dirs, port, i);
        } else {
          assert NoneOwned(es[..n], dirs, port);
        }
      }
      if NoneOwned(es, dirs, port) { assert !OwnedEntry(es, dirs, port, n); }
    }
  }

  lemma EntriesOfPrefix(es: seq<SockEntry>, before: seq<SockEntry>, dirs: seq<ProcDir>, port: Port)
    requires es != [] && before == es[..|es| - 1]
    ensures forall j {:trigger OwnedEntry(before, dirs, port, j)} {:trigger OwnedEntry(es, dirs, port, j)} ::
      OwnedEntry(before, dirs, port, j) <==> j < |es| - 1 && OwnedEntry(es, dirs, port, j)
  {}

  /** The built map sends a port to the owner of its last owned TCP entry, failing that to the
      owner of its first owned UDP entry, and is otherwise undefined there. */
  lemma InitialScanSpecification(fs: ProcFs, port: Port)
    requires InitialScan(fs).Returns?
    ensures ParseTable(fs.tcp, 0).Returns? && ParseTable(fs.udp, 0).Returns?
    ensures
      var m, tcp, udp := InitialScan(fs).value, ParseTable(fs.tcp, 0).value, ParseTable(fs.udp, 0).value;
      && (forall i :: LastOwned(tcp, fs.dirs, port, i) ==>
           port in m && m[port] == FindPid(fs.dirs, tcp[i].inode))
      && (forall i :: NoneOwned(tcp, fs.dirs, port) && FirstOwned(udp, fs.dirs, port, i) ==>
           port in m && m[port] == FindPid(fs.dirs, udp[i].inode))
      && (NoneOwned(tcp, fs.dirs, port) && NoneOwned(udp, fs.dirs, port) ==> port !in m)
  {
    var tcp, udp := ParseTable(fs.tcp, 0).value, ParseTable(fs.udp, 0).value;
    TcpKeepsTheLast(map[], tcp, fs.dirs, port);
    UdpKeepsTheFirst(ScanTcp(map[], tcp, fs.dirs), udp, fs.dirs, port);
  }

  /** The three cases of the specification are exhaustive. */
  lemma {:induction false} SomeEntryIsLast(es: seq<SockEntry>, dirs: seq<ProcDir>, port: Port) returns (i: int)
    requires !NoneOwned(es, dirs, port)
    ensures LastOwned(es, dirs, port, i)
  {
    var n := |es| - 1;
    if OwnedEntry(es, dirs, port, n) {
      i := n;
    } else {
      EntriesOfPrefix(es, es[..n], dirs, port);
      var j :| OwnedEntry(es, dirs, port, j);
      assert OwnedEntry(es[..n], dirs, port, j);
      i := SomeEntryIsLast(es[..n], dirs, port);
    }
  }

  lemma {:induction false} SomeEntryIsFirst(es: seq<SockEntry>, dirs: seq<ProcDir>, port: Port) returns (i: int)
    requires !NoneOwned(es, dirs, port)
    ensures FirstOwned(es, dirs, port, i)
  {
    var n := |es| - 1;
    EntriesOfPrefix(es, es[..n], dirs, port);
    if NoneOwned(es[..n], dirs, port) {
      i := n;
      var j :| OwnedEntry(es, dirs, port, j);
      assert !OwnedEntry(es[..n], dirs, port, j);
    } else {
      i := SomeEntryIsFirst(es[..n], dirs, port);
    }
  }

  // ----- the scan for one port -----

  /** The owner of the first entry listed, owned or not. */
  function ScanForPid(fs: ProcFs, port: Port, protocol: char): Outcome<int> {
    match ParseTable(TableFor(fs, protocol), port)
    case Throws => Throws
    case Returns(es) => if es == [] then Returns(UNKNOWN_PID) else OwnerOf(fs.dirs, es[0].inode)
  }

  method ScanForPidByPort(fs: ProcFs, port: Port, protocol: char) returns (result: Outcome<int>)
    ensures result == ScanForPid(fs, port, protocol)
  {
    if protocol == 'T' {
      var tcpSockets := ParseListeningSockets(fs.tcp, port);
      if tcpSockets.Throws? { return Throws; }
      for i := 0 to |tcpSockets.value|
        invariant i == 0
      {
        var pid := FindPidBySockInode(fs.dirs, tcpSockets.value[i].inode);
        return pid;
      }
    } else {
      var udpSockets := ParseListeningSockets(fs.udp, port);
      if udpSockets.Throws? { return Throws; }
      for i := 0 to |udpSockets.value|
        invariant i == 0
      {
        var pid := FindPidBySockInode(fs.dirs, udpSockets.value[i].inode);
        return pid;
      }
    }
    return Returns(-1);
  }

  // ----- the walk over all processes that the scans replace -----

  /** The process holds a socket listed under the port. */
  predicate Uses(dir: ProcDir, es: seq<SockEntry>, port: Port) {
    exists i :: 0 <= i < |es| && es[i].port == port && Owns(dir, es[i].inode)
  }

  function NaiveWalk(dirs: seq<ProcDir>, es: seq<SockEntry>, port: Port): int {
    if dirs == [] then UNKNOWN_PID
    else if Uses(dirs[0], es, port) then PidOf(dirs[0])
    else NaiveWalk(dirs[1..], es, port)
  }

  /** Every socket listed under the port is held, and by process `p` only. */
  ghost predicate SoleHolder(dirs: seq<ProcDir>, es: seq<SockEntry>, port: Port, p: int) {
    && (exists i :: 0 <= i < |es| && es[i].port == port)
    && forall i :: 0 <= i < |es| && es[i].port == port ==>
         && (exists d :: 0 <= d < |dirs| && Owns(dirs[d], es[i].inode))
         && forall d :: 0 <= d < |dirs| && Owns(dirs[d], es[i].inode) ==> PidOf(dirs[d]) == p
  }

  /** The entries of one port, in order. */
  function OnPort(es: seq<SockEntry>, port: Port): seq<SockEntry> {
    if es == [] then []
    else OnPort(es[..|es| - 1], port) + if es[|es| - 1].port == port then [es[|es| - 1]] else []
  }

  lemma OnPortConcat(es: seq<SockEntry>, more: seq<SockEntry>, port: Port)
    requires |more| <= 1
    ensures OnPort(es + more, port) == OnPort(es, port) + OnPort(more, port)
  {
    if more == [] {
      assert es + more == es && OnPort(more, port) == [];
    } else {
      assert (es + more)[..|es|] == es;
      assert more[..0] == [];
      assert OnPort(more[..0], port) == [];
    }
  }

  lemma LineYieldsOne(line: string, filter: Port)
    requires ParseLine(line, filter).Returns?
    ensures |ParseLine(line, filter).value| <= 1
  {}

  lemma FilteredLine(line: string, port: Port)
    requires port != 0 && ParseLine(line, 0).Returns?
    ensures ParseLine(line, port).Returns?
    ensures ParseLine(line, port).value == OnPort(ParseLine(line, 0).value, port)
  {
    LineYieldsOne(line, 0);
    var es := ParseLine(line, 0).value;
    if es != [] {
      assert es[..0] == [];
      assert OnPort(es[..0], port) == [];
    }
  }

  /** Filtering while parsing is filtering afterwards. */
  lemma {:induction false} FilteredParse(lines: seq<string>, port: Port)
    requires port != 0 && ParseTable(lines, 0).Returns?
    ensures ParseTable(lines, port).Returns?
    ensures ParseTable(lines, port).value == OnPort(ParseTable(lines, 0).value, port)
  {
    if lines != [] {
      var line := lines[|lines| - 1];
      FilteredParse(lines[..|lines| - 1], port);
      FilteredLine(line, port);
      LineYieldsOne(line, 0);
      OnPortConcat(ParseTable(lines[..|lines| - 1], 0).value, ParseLine(line, 0).value, port);
    }
  }

  lemma {:induction false} OnPortIsThere(es: seq<SockEntry>, port: Port)
    ensures forall e :: e in OnPort(es, port) <==> e in es && e.port == port
  {
    if es != [] {
      OnPortIsThere(es[..|es| - 1], port);
      assert es == es[..|es| - 1] + [es[|es| - 1]];
    }
  }

  lemma SoleOwner(dirs: seq<ProcDir>, es: seq<SockEntry>, port: Port, p: int, e: SockEntry)
    requires SoleHolder(dirs, es, port, p) && e in es && e.port == port
    ensures FindPid(dirs, e.inode) == p
  {
    var i :| 0 <= i < |es| && es[i] == e;
    FindPidIsFirstOwner(dirs, e.inode);
    var d :| 0 <= d < |dirs| && Owns(dirs[d], es[i].inode);
  }

  lemma {:induction false} NaiveWalkFinds(dirs: seq<ProcDir>, es: seq<SockEntry>, port: Port, p: int)
    requires exists d :: 0 <= d < |dirs| && Uses(dirs[d], es, port)
    requires forall d :: 0 <= d < |dirs| && Uses(dirs[d], es, port) ==> PidOf(dirs[d]) == p
    ensures NaiveWalk(dirs, es, port) == p
  {
    if !Uses(dirs[0], es, port) {
      var d :| 0 <= d < |dirs| && Uses(dirs[d], es, port);
      assert dirs[1..][d - 1] == dirs[d];
      NaiveWalkFinds(dirs[1..], es, port, p);
    }
  }

  lemma NaiveWalkAgrees(dirs: seq<ProcDir>, es: seq<SockEntry>, port: Port, p: int)
    requires SoleHolder(dirs, es, port, p)
    ensures NaiveWalk(dirs, es, port) == p
  {
    var i :| 0 <= i < |es| && es[i].port == port;
    var d :| 0 <= d < |dirs| && Owns(dirs[d], es[i].inode);
    assert Uses(dirs[d], es, port);
    NaiveWalkFinds(dirs, es, port, p);
  }

  /** With one holder in the TCP table for 'T', in the UDP table for any other protocol, the scan for the
      port returns it unless its walk throws, and so does the naive walk. */
  lemma IncrementalScanAgrees(fs: ProcFs, port: Port, protocol: char, lines: seq<string>, p: int)
    requires lines == if protocol == 'T' then fs.tcp else fs.udp
    requires port != 0 && ParseTable(lines, 0).Returns? && SoleHolder(fs.dirs, ParseTable(lines, 0).value, port, p)
    ensures
      var es := ParseTable(lines, 0).value;
      && OnPort(es, port) != []
      && ScanForPid(fs, port, protocol) ==
           (if WalkThrows(fs.dirs, OnPort(es, port)[0].inode) then Throws else Returns(p))
      && NaiveWalk(fs.dirs, es, port) == p
  {
    var es := ParseTable(lines, 0).value;
    FilteredParse(lines, port);
    OnPortIsThere(es, port);
    var i :| 0 <= i < |es| && es[i].port == port;
    assert es[i] in OnPort(es, port);
    hide ParseTable, SoleHolder;
    assert OnPort(es, port)[0] in OnPort(es, port);
    SoleOwner(fs.dirs, es, port, p, OnPort(es, port)[0]);
    NaiveWalkAgrees(fs.dirs, es, port, p);
  }

  /** And so does the map built at start-up, from the TCP table; */
  lemma TcpStartUpAgrees(fs: ProcFs, port: Port, p: int)
    requires InitialScan(fs).Returns? && SoleHolder(fs.dirs, ParseTable(fs.tcp, 0).value, port, p)
    ensures port in InitialScan(fs).value && InitialScan(fs).value[port] == p
  {
    var es := ParseTable(fs.tcp, 0).value;
    var i :| 0 <= i < |es| && es[i].port == port;
    FindPidIsFirstOwner(fs.dirs, es[i].inode);
    assert OwnedEntry(es, fs.dirs, port, i);
    var k := SomeEntryIsLast(es, fs.dirs, port);
    SoleOwner(fs.dirs, es, port, p, es[k]);
    InitialScanSpecification(fs, port);
  }

  /** and from the UDP table, when no TCP entry mapped the port. */
  lemma UdpStartUpAgrees(fs: ProcFs, port: Port, p: int)
    requires InitialScan(fs).Returns? && SoleHolder(fs.dirs, ParseTable(fs.udp, 0).value, port, p)
    requires NoneOwned(ParseTable(fs.tcp, 0).value, fs.dirs, port)
    ensures port in InitialScan(fs).value && InitialScan(fs).value[port] == p
  {
    var es := ParseTable(fs.udp, 0).value;
    var i :| 0 <= i < |es| && es[i].port == port;
    FindPidIsFirstOwner(fs.dirs, es[i].inode);
    assert OwnedEntry(es, fs.dirs, port, i);
    var k := SomeEntryIsFirst(es, fs.dirs, port);
    SoleOwner(fs.dirs, es, port, p, es[k]);
    InitialScanSpecification(fs, port);
  }

  /** For 'T' the UDP table makes no difference, and for any other protocol the TCP table. */
  lemma OtherTableDoesNotMatter(fs: ProcFs, port: Port, protocol: char, lines: seq<string>)
    ensures protocol == 'T' ==> ScanForPid(fs, port, protocol) == ScanForPid(fs.(udp := lines), port, protocol)
    ensures protocol != 'T' ==> ScanForPid(fs, port, protocol) == ScanForPid(fs.(tcp := lines), port, protocol)
  {
    hide ParseTable, OwnerOf;
  }

  // ----- exceptions of the start-up scan -----

  /** A TCP entry whose walk throws, or a UDP entry whose walk throws and whose port neither an owned TCP
      entry nor an owned earlier UDP entry has. */
  ghost predicate SomeWalkThrows(tcp: seq<SockEntry>, udp: seq<SockEntry>, dirs: seq<ProcDir>) {
    || (exists i :: 0 <= i < |tcp| && WalkThrows(dirs, tcp[i].inode))
    || (exists i :: 0 <= i < |udp| && WalkThrows(dirs, udp[i].inode)
          && NoneOwned(tcp, dirs, udp[i].port) && forall j :: 0 <= j < i ==> !OwnedEntry(udp, dirs, udp[i].port, j))
  }

  lemma {:induction false} MappedByThen(tcp: seq<SockEntry>, udp: seq<SockEntry>, dirs: seq<ProcDir>, i: nat)
    requires i < |udp|
    ensures udp[i].port !in ScanUdp(ScanTcp(map[], tcp, dirs), udp[..i], dirs) <==>
      NoneOwned(tcp, dirs, udp[i].port) && forall j :: 0 <= j < i ==> !OwnedEntry(udp, dirs, udp[i].port, j)
  {
    var port, m := udp[i].port, ScanTcp(map[], tcp, dirs);
    TcpKeepsTheLast(map[], tcp, dirs, port);
    UdpKeepsTheFirst(m, udp[..i], dirs, port);
    if !NoneOwned(tcp, dirs, port) { var k := SomeEntryIsLast(tcp, dirs, port); }
    if !NoneOwned(udp[..i], dirs, port) { var k := SomeEntryIsFirst(udp[..i], dirs, port); }
    hide FindPid, ScanTcp, ScanUdp;
    assert forall j {:trigger OwnedEntry(udp, dirs, port, j)} {:trigger OwnedEntry(udp[..i], dirs, port, j)} ::
      OwnedEntry(udp[..i], dirs, port, j) <==> j < i && OwnedEntry(udp, dirs, port, j);
  }

  /** Exactly when the start-up scan throws: when a table does, or one of the walks it makes. */
  lemma {:induction false} StartUpThrowsIff(fs: ProcFs)
    ensures InitialScan(fs).Throws? <==>
      || ParseTable(fs.tcp, 0).Throws? || ParseTable(fs.udp, 0).Throws?
      || SomeWalkThrows(ParseTable(fs.tcp, 0).value, ParseTable(fs.udp, 0).value, fs.dirs)
  {
    if ParseTable(fs.tcp, 0).Returns? && ParseTable(fs.udp, 0).Returns? {
      var tcp, udp, dirs := ParseTable(fs.tcp, 0).value, ParseTable(fs.udp, 0).value, fs.dirs;
      forall i: nat | i < |udp|
        ensures udp[i].port !in ScanUdp(ScanTcp(map[], tcp, dirs), udp[..i], dirs) <==>
          NoneOwned(tcp, dirs, udp[i].port) && forall j :: 0 <= j < i ==> !OwnedEntry(udp, dirs, udp[i].port, j)
      {
        MappedByThen(tcp, udp, dirs, i);
      }
      hide ParseTable, ScanTcp, ScanUdp, WalkThrows, NoneOwned, OwnedEntry;
    }
  }
}
