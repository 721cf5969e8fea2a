/** An input on which an answer is lost: a process directory numbered 0 holds the port's socket. */
module PidZero {
  import opened Packets
  import opened Text
  import opened SocketTable
  import opened SocketOwner
  import opened ScanFiles
  import opened PortToPidMap
  import opened SampleProc

  /** Port 80 has been mapped to 5; now its socket is held by a directory numbered 0. The scan stores
      that, and what was answered with 5 is answered as unknown. */
  lemma {:induction false} AnswerIsLost() returns (visit: Visit)
    ensures visit.port == 80 && visit.fs.dirs == [Process(0, 7)] && Finds(visit, 0)
    ensures Reply(map[80 := 5], 80) == 5
    ensures Reply(AfterScans(map[80 := 5], ScansOf([visit])), 80) == UNKNOWN_PID
  {
    hide ParseTable, WalkThrows, TableOf, Process, Decimal, Owns, Readable;
    visit := Visit(ProcFs(TableOf([(7, 80)]), [], [Process(0, 7)]), 80, 'T');
    FindsZero(visit);
    assert LastFinds([visit], 80, 0, 0);
    hide Finds, AfterScans;
    AnswerIsKept(map[80 := 5], [visit], 80);
  }

  lemma FindsZero(visit: Visit)
    requires visit == Visit(ProcFs(TableOf([(7, 80)]), [], [Process(0, 7)]), 80, 'T')
    ensures Finds(visit, 0)
  {
    hide ParseTable, WalkThrows, TableOf, Process, Decimal, Owns, Readable;
    OneEntry(7, 80);
    var e := SockEntry(Decimal(7), 80);
    FilteredParse(visit.fs.tcp, 80);
    OneOnPort(e);
    ProcessOwns(0, 7, 7);
    ReadableWalks(visit.fs.dirs, e.inode);
    FindPidIsFirstHolder(visit.fs.dirs, e.inode, 0);
    assert FindPid([Process(0, 7)], e.inode) == 0;
  }
}
