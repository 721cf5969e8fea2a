/** A /proc of given sockets and processes, for inputs on which a claim fails. */
module SampleProc {
  import opened Packets
  import opened Text
  import opened SocketTable
  import opened SocketOwner
  import opened ScanFiles

  function RowFor(inode: nat, port: Port): Row {
    KernelRow(0, 0, 0, port, 0, 0, 10, 0, 0, 0, 0, 0, 0, 0, inode, "")
  }

  function RowsFor(es: seq<(nat, Port)>): seq<Row> {
    if es == [] then [] else RowsFor(es[..|es| - 1]) + [RowFor(es[|es| - 1].0, es[|es| - 1].1)]
  }

  /** A socket table listing these inodes and ports. */
  function TableOf(es: seq<(nat, Port)>): seq<string> { PrintTable("sl", RowsFor(es)) }

  function EntriesOf(es: seq<(nat, Port)>): seq<SockEntry> {
    if es == [] then []
    else EntriesOf(es[..|es| - 1]) + [SockEntry(Decimal(es[|es| - 1].0), es[|es| - 1].1)]
  }

  lemma {:induction false} RowsAreOk(es: seq<(nat, Port)>)
    requires forall i :: 0 <= i < |es| ==> es[i].0 != 0
    ensures |RowsFor(es)| == |es| && forall i :: 0 <= i < |es| ==> RowOk(RowsFor(es)[i])
    ensures Listed(RowsFor(es), 0) == EntriesOf(es)
  {
    hide KernelRow, RowOk;
    if es != [] {
      var n := |es| - 1;
      RowsAreOk(es[..n]);
      assert RowsFor(es)[..n] == RowsFor(es[..n]);
      KernelRowOk(0, 0, 0, es[n].1, 0, 0, 10, 0, 0, 0, 0, 0, 0, 0, es[n].0, "");
      RowForFields(es[n].0, es[n].1);
    }
  }

  lemma RowForFields(inode: nat, port: Port)
    ensures RowFor(inode, port).inode == inode && RowFor(inode, port).localPort == port
  {}

  lemma {:induction false} TableParses(es: seq<(nat, Port)>)
    requires forall i :: 0 <= i < |es| ==> es[i].0 != 0
    ensures ParseTable(TableOf(es), 0) == Returns(EntriesOf(es))
  {
    RowsAreOk(es);
    assert ':' !in "sl";
    TableRoundTrip("sl", RowsFor(es), 0);
  }

  /** A process with three descriptors: one that cannot be read, a device, and a socket. */
  function Process(pid: nat, inode: nat): ProcDir {
    ProcDir(Decimal(pid), true, Folder([None, Some("/dev/null"), Some(PREFIX + Decimal(inode) + "]")], false))
  }

  lemma ProcessOwns(pid: nat, inode: nat, other: nat)
    requires other != 0
    ensures Owns(Process(pid, inode), Decimal(other)) <==> inode == other
    ensures AllDigits(Process(pid, inode).name) && PidOf(Process(pid, inode)) == pid
    ensures pid <= INT_MAX ==> Readable(Process(pid, inode))
  {
    var links := Process(pid, inode).fds.links;
    var link := PREFIX + Decimal(inode) + "]";
    assert link[..8] == PREFIX && link[8..|link| - 1] == Decimal(inode);
    LinkTestIsExact(link, Decimal(other));
    LinkTestIsExact("/dev/null", Decimal(other));
    assert !SocketLink("/dev/null", Decimal(other)) by { assert "/dev/null"[..8][0] == '/'; }
    DecimalRoundTrip(pid);
    if Decimal(inode) == Decimal(other) { DecimalInjective(inode, other); }
    assert links[0] == None && links[1] == Some("/dev/null") && links[2] == Some(link);
  }

  lemma OneEntry(inode: nat, port: Port)
    requires inode != 0
    ensures ParseTable(TableOf([(inode, port)]), 0) == Returns([SockEntry(Decimal(inode), port)])
  {
    hide ParseTable, TableOf, Decimal;
    var es: seq<(nat, Port)> := [(inode, port)];
    TableParses(es);
    var none: seq<SockEntry> := [];
    assert es[..0] == [] && EntriesOf(es[..0]) == none;
    assert EntriesOf(es) == none + [SockEntry(Decimal(inode), port)];
    assert EntriesOf(es) == [SockEntry(Decimal(inode), port)];
  }

  lemma OneOnPort(e: SockEntry)
    ensures OnPort([e], e.port) == [e]
  {
    assert [e][..0] == [];
    assert OnPort([], e.port) == [];
  }

  lemma NoLines(port: Port)
    ensures ParseTable([], port) == Returns([])
  {}

  lemma OneIsFiltered(inode: nat, port: Port)
    requires inode != 0
    ensures ParseTable(TableOf([(inode, port)]), port) == Returns([SockEntry(Decimal(inode), port)])
  {
    hide ParseTable, TableOf, Decimal;
    OneEntry(inode, port);
    if port != 0 {
      FilteredParse(TableOf([(inode, port)]), port);
      OneOnPort(SockEntry(Decimal(inode), port));
    }
  }

  lemma HolderIsFound(pid: nat, inode: nat)
    requires 0 < pid <= INT_MAX && inode != 0
    ensures Readable(Process(pid, inode)) && OwnerOf([Process(pid, inode)], Decimal(inode)) == Returns(pid)
  {
    ProcessOwns(pid, inode, inode);
    hide Owns, Readable, Process, WalkThrows, Decimal;
    ReadableWalks([Process(pid, inode)], Decimal(inode));
  }
}
