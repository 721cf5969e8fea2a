/** `PortToPidMap`: the daemon's map, filled by the start-up scan, overwritten by single-port
    scans, and read by the thread that answers the client. */
module PortToPidMap {
  import opened Packets
  import opened Text
  import opened SocketTable
  import opened SocketOwner
  import opened ScanFiles

  /** The effect of a scan for `port`: only a found owner is recorded. */
  function AfterScan(m: PortMap, port: Port, scan: Outcome<int>): PortMap {
    if scan.Returns? && scan.value != UNKNOWN_PID then m[port := scan.value] else m
  }

  function Lookup(m: PortMap, port: Port): int {
    if port in m then m[port] else UNKNOWN_PID
  }

  /** What the daemon sends back: a pid that tests false is sent as unknown. */
  function Reply(m: PortMap, port: Port): int {
    if Lookup(m, port) != 0 then Lookup(m, port) else UNKNOWN_PID
  }

  /** The mapped pid, and -1 for a port that is not mapped or is mapped to 0. */
  lemma ReplyIsTheMapped(m: PortMap, port: Port, pid: int)
    ensures port in m && m[port] != 0 ==> Reply(m, port) == m[port]
    ensures port !in m || m[port] == 0 ==> Reply(m, port) == -1
    ensures pid != 0 ==> Reply(m[port := pid], port) == pid
  {}

  class PortToPidMap {
    var portMap: PortMap

    constructor (scanned: PortMap)
      ensures portMap == scanned
    {
      portMap := scanned;
    }

    method AddPidMapping(fs: ProcFs, port: Port, protocol: char) returns (added: Outcome<bool>)
      modifies this
      ensures portMap == AfterScan(old(portMap), port, ScanForPid(fs, port, protocol))
      ensures added.Throws? <==> ScanForPid(fs, port, protocol).Throws?
      ensures added.Returns? ==> (added.value <==> ScanForPid(fs, port, protocol).value != UNKNOWN_PID)
    {
      var pid := ScanForPidByPort(fs, port, protocol);
      if pid.Throws? {
        return Throws;
      }
      if pid.value == -1 {
        return Returns(false);
      }
      portMap := portMap[port := pid.value];
      return Returns(true);
    }

    method GetPid(port: Port) returns (pid: int)
      ensures pid == Lookup(portMap, port)
      ensures port in portMap ==> pid == portMap[port]
      ensures port !in portMap ==> pid == -1
    {
      if port in portMap {
        return portMap[port];
      }
      return -1;
    }
  }

  /** The constructor of the map as the daemon calls it; a scan that throws leaves no map. */
  method OpenPortMap(fs: ProcFs) returns (result: Outcome<PortToPidMap>)
    ensures result.Throws? <==> InitialScan(fs).Throws?
    ensures result.Returns? ==> fresh(result.value) && result.value.portMap == InitialScan(fs).value
  {
    var scanned := InitializePortPidMap(fs);
    if scanned.Throws? {
      return Throws;
    }
    var portMap := new PortToPidMap(scanned.value);
    return Returns(portMap);
  }

  // ----- the map over a whole history of scans -----

  datatype ScanCall = ScanCall(port: Port, scan: Outcome<int>)

  function AfterScans(m: PortMap, calls: seq<ScanCall>): PortMap {
    if calls == [] then m
    else AfterScan(AfterScans(m, calls[..|calls| - 1]), calls[|calls| - 1].port, calls[|calls| - 1].scan)
  }

  /** Call `i` recorded an owner for `port`. */
  predicate Recorded(calls: seq<ScanCall>, port: Port, i: int) {
    0 <= i < |calls| && calls[i].port == port && calls[i].scan.Returns?
      && calls[i].scan.value != UNKNOWN_PID
  }

  ghost predicate LastRecorded(calls: seq<ScanCall>, port: Port, i: int) {
    Recorded(calls, port, i) && forall j :: Recorded(calls, port, j) ==> j <= i
  }

  /** The map is the start-up scan overwritten by the successful scans in order: a port has the
      value of its last successful scan, or else its initial one, and no key is ever lost. */
  lemma {:induction false} MapHistory(m: PortMap, calls: seq<ScanCall>, port: Port)
    ensures forall i :: LastRecorded(calls, port, i) ==>
      port in AfterScans(m, calls) && AfterScans(m, calls)[port] == calls[i].scan.value
    ensures (forall i :: !Recorded(calls, port, i)) ==>
      (port in AfterScans(m, calls) <==> port in m) && Lookup(AfterScans(m, calls), port) == Lookup(m, port)
    ensures port in m ==> port in AfterScans(m, calls)
  {
    if calls != [] {
      var n := |calls| - 1;
      var before := calls[..n];
      MapHistory(m, before, port);
      assert forall j {:trigger Recorded(calls, port, j)} {:trigger Recorded(before, port, j)} ::
        Recorded(before, port, j) <==> j < n && Recorded(calls, port, j);
      if Recorded(calls, port, n) {
        assert forall i :: LastRecorded(calls, port, i) ==> i == n;
      } else {
        assert forall i :: LastRecorded(calls, port, i) ==> LastRecorded(before, port, i);
      }
    }
  }

  /** One call of `addPidMapping`, and the /proc it sees. */
  datatype Visit = Visit(fs: ProcFs, port: Port, protocol: char)

  function ScansOf(visits: seq<Visit>): (calls: seq<ScanCall>)
    ensures |calls| == |visits|
    ensures forall i :: 0 <= i < |visits| ==>
      calls[i] == ScanCall(visits[i].port, ScanForPid(visits[i].fs, visits[i].port, visits[i].protocol))
  {
    if visits == [] then []
    else
      var v := visits[|visits| - 1];
      ScansOf(visits[..|visits| - 1]) + [ScanCall(v.port, ScanForPid(v.fs, v.port, v.protocol))]
  }

  /** The table lists the port, and `pid` is the first process to hold the first socket listed. */
  predicate Finds(v: Visit, pid: int) {
    var table := ParseTable(TableFor(v.fs, v.protocol), v.port);
    && table.Returns? && table.value != []
    && !WalkThrows(v.fs.dirs, table.value[0].inode) && FirstHolder(v.fs.dirs, table.value[0].inode, pid)
  }

  lemma FindsIsScan(v: Visit, pid: int)
    ensures Finds(v, pid) <==> pid != UNKNOWN_PID && ScanForPid(v.fs, v.port, v.protocol) == Returns(pid)
  {
    hide ParseTable, WalkThrows, FirstHolder, FindPid;
    var table := ParseTable(TableFor(v.fs, v.protocol), v.port);
    if table.Returns? && table.value != [] { FindPidIsFirstHolder(v.fs.dirs, table.value[0].inode, pid); }
  }

  /** Visit `i` is the last for the port to find a process, and finds `pid`. */
  ghost predicate LastFinds(visits: seq<Visit>, port: Port, i: int, pid: int) {
    && 0 <= i < |visits| && visits[i].port == port && Finds(visits[i], pid)
    && forall j, q :: i < j < |visits| && visits[j].port == port ==> !Finds(visits[j], q)
  }

  lemma FindsIsRecorded(visits: seq<Visit>, port: Port, j: int)
    ensures Recorded(ScansOf(visits), port, j) ==> Finds(visits[j], ScansOf(visits)[j].scan.value)
    ensures forall pid :: 0 <= j < |visits| && visits[j].port == port && Finds(visits[j], pid) ==>
      Recorded(ScansOf(visits), port, j) && ScansOf(visits)[j].scan.value == pid
  {
    hide Finds, ScanForPid;
    if 0 <= j < |visits| {
      var v := visits[j];
      forall pid
        ensures Finds(v, pid) <==> pid != UNKNOWN_PID && ScanForPid(v.fs, v.port, v.protocol) == Returns(pid)
      {
        FindsIsScan(v, pid);
      }
    }
  }

  lemma LastFindsIsRecorded(visits: seq<Visit>, port: Port, i: int)
    ensures LastRecorded(ScansOf(visits), port, i) ==> LastFinds(visits, port, i, ScansOf(visits)[i].scan.value)
    ensures forall pid :: LastFinds(visits, port, i, pid) ==>
      LastRecorded(ScansOf(visits), port, i) && ScansOf(visits)[i].scan.value == pid
  {
    hide Finds, ScanForPid;
    FindsIsRecorded(visits, port, i);
    forall j
      ensures Recorded(ScansOf(visits), port, j) ==> Finds(visits[j], ScansOf(visits)[j].scan.value)
      ensures forall pid :: 0 <= j < |visits| && visits[j].port == port && Finds(visits[j], pid) ==>
        Recorded(ScansOf(visits), port, j)
    {
      FindsIsRecorded(visits, port, j);
    }
  }

  /** A port answered with a pid is later answered as unknown exactly when the last visit in between
      that found a process for it found the directory numbered 0. */
  lemma AnswerIsKept(m: PortMap, visits: seq<Visit>, port: Port)
    requires Reply(m, port) != UNKNOWN_PID
    ensures Reply(AfterScans(m, ScansOf(visits)), port) == UNKNOWN_PID <==> exists i :: LastFinds(visits, port, i, 0)
  {
    var calls := ScansOf(visits);
    MapHistory(m, calls, port);
    hide Finds, AfterScans, LastFinds, LastRecorded, ScansOf;
    if exists i :: LastFinds(visits, port, i, 0) {
      var i :| LastFinds(visits, port, i, 0);
      LastFindsIsRecorded(visits, port, i);
    }
    if j :| Recorded(calls, port, j) {
      var i := LastOne(calls, port);
      LastFindsIsRecorded(visits, port, i);
    } else {
      assert forall i :: !Recorded(calls, port, i);
    }
  }

  /** No process directory is numbered 0, as on Linux. */
  predicate NoPidZero(fs: ProcFs) {
    forall d :: 0 <= d < |fs.dirs| && AllDigits(fs.dirs[d].name) ==> PidOf(fs.dirs[d]) != 0
  }

  /** So on Linux a port once answered with a pid is answered with a pid for good. */
  lemma AnsweredForGood(m: PortMap, visits: seq<Visit>, port: Port)
    requires Reply(m, port) != UNKNOWN_PID && forall i :: 0 <= i < |visits| ==> NoPidZero(visits[i].fs)
    ensures Reply(AfterScans(m, ScansOf(visits)), port) != UNKNOWN_PID
  {
    AnswerIsKept(m, visits, port);
    hide AfterScans, ScansOf, ParseTable, WalkThrows;
    assert forall i :: 0 <= i < |visits| ==> !Finds(visits[i], 0);
  }

  lemma {:induction false} LastOne(calls: seq<ScanCall>, port: Port) returns (i: int)
    requires exists j :: Recorded(calls, port, j)
    ensures LastRecorded(calls, port, i)
  {
    var n := |calls| - 1;
    if Recorded(calls, port, n) {
      i := n;
    } else {
      var before := calls[..n];
      var j :| Recorded(calls, port, j);
      assert forall k {:trigger Recorded(calls, port, k)} {:trigger Recorded(before, port, k)} ::
        Recorded(before, port, k) <==> k < n && Recorded(calls, port, k);
      assert Recorded(before, port, j);
      i := LastOne(before, port);
    }
  }
}
