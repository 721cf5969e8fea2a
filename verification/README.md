# Hut Karish in Dafny

Hut Karish attributes captured packets to processes. A kernel module hooks the network stack and
sends every TCP or UDP packet's addresses and ports over netlink to up to two subscribers. A daemon
keeps a map from ports to pids, built by reading the kernel's socket tables and the file descriptor
links of every process, and answers port queries on a stream socket. A hunter receives the same
packets, asks the daemon about each new 5-tuple, and files the packet under the pid it is told.

This project models the three programs and proves what they keep, alone and together.

**Components.** One module per source component, in the source's own form: classes with fields
where it has objects, methods with loops where it loops, each proved against a specification
function whose meaning is then proved by lemmas.

| module | component |
|---|---|
| `Packets`, `Text` | the message, its 5-tuple; numerals and whitespace-separated tokens |
| `SocketTable` | the parser of `/proc/net/tcp` and `/proc/net/udp`, regular expression included |
| `SocketOwner` | from a socket inode to the process that holds it |
| `ScanFiles`, `PortToPidMap` | the start-up scan, the scan for one port, and the daemon's map |
| `TwoScans`, `PidZero`, `SampleProc` | where the two scans agree and where not; inputs on which claims fail |
| `MessageQueue` | heap packets, the queue between two threads, the receive and drain loops |
| `AnswerFold`, `PidToPacketsInfoMap`, `PacketLog` | the hunter's index, its main loop, the saved log |
| `Sniffer` | the kernel module's handler and hook |

**The system.** `Pipeline` is one process's netlink channel, receiver thread and queue as steps;
`HutKarish` is everything at once as an interleaved machine. The daemon's main, receiver and server
threads, the hunter's two threads, any number of concurrent hook runs, signals, other clients of the
daemon's socket and a changing `/proc` each take one step at a time, in any order. `Enabled` says
when a thread is not blocked and `Next` what one of its steps does; every statement that another
thread could come between is a step of its own, such as the three statements by which the kernel
handles an unsubscribe. A run is any finite sequence of enabled steps from an initial state. The
remaining modules prove properties of every state of every run:

| module | result |
|---|---|
| `Invariants`, `Reach` | the invariant of all runs; first in, first out in both pipelines; reachable states |
| `Shutdown` | the daemon's shutdown completes |
| `EarlySignal` | what a signal during the daemon's start does |
| `HunterSignal`, `ReplyWait`, `QueuedHunter`, `WaitRun` | where a signalled hunter ends or waits, and when the wait can last |
| `Answered`, `Connection`, `AnsweredRun` | a hunter taken up is answered; its connection stays up; a run in which it is answered and stores its packet |
| `HuntGoesOn`, `DaemonLoop` | exactly when either main loop ends; until then it takes every packet queued |
| `HunterShutdown`, `HangRun` | exactly when the hunter's join can hang, and a run in which it does |
| `Ownership`, `Leaks` | every heap packet has exactly one owner; nothing is freed twice; exactly what is never freed |
| `Lookup`, `ScansOverRuns`, `MapOverRuns` | lookups are linearizable; the map's history and what answers follow from it |
| `HuntOverRuns`, `SessionLog` | the hunter's index and saved log are those of a simple reference |
| `Provenance` | where every recorded pid comes from, end to end |
| `KernelOverRuns` | the daemon is offered every packet first |

The main results are in `Provenance.EndToEnd`, `Lookup.Linearizable`, `HuntOverRuns.IndexIsTheFold`,
`Ownership.EveryPacketHasOneOwner`, `Leaks.WhatIsNeverFreed`, `Shutdown.ShutdownCompletes`,
`Answered.AnsweringGoesOn`, `HuntGoesOn.LoopLeftIff`, `DaemonLoop.EveryPoppedIsScanned`,
`ReplyWait.WaitCanLastIff`, `HunterShutdown.JoinCanHangIff`, `EarlySignal.RunsOnWithoutServerIff`,
`SocketTable.TableRoundTrip` and `ScanFiles.InitialScanSpecification`.

**What the proofs show to be false of the code**, with the exact condition in each case and a
concrete input or a run from an initial state that fails:

- The hunter does not always end after a signal. Its threads take boundedly many steps, but may then
  be at rest in one of two places (`HunterSignal.AtRestIff`, `HunterSignal.SignalledHunterStops`).
  - Main may wait in `recv` for the daemon's reply. While the daemon runs, that wait can go on for ever
    if and only if the server thread has not taken the hunter's connection up, being occupied with
    another client, or ended, or failing to accept (`ReplyWait.WaitCanLastIff`,
    `ReplyWait.IdleForEver`). Such waits are reachable (`WaitRun.BusyWaitIsReachable`,
    `WaitRun.ServerlessWaitIsReachable`). The end of the daemon ends them; and the hunter's turn comes
    if the clients before it hang up and accept does not fail (`QueuedHunter.TurnComes`).
  - Main may wait in join for a receiver in `recv`, if the terminate message was sent with `running`
    true, the loop having been left by `break`, into a full channel
    (`HunterShutdown.JoinCanHangIff`, `HangRun.StuckIsReachable`).
- A signal to the daemon before its main thread sets `running` is not simply lost. It leaves no trace
  if no test of the server thread has seen it (`EarlySignal.EarlySignalIsErased`). If the accept loop's
  test has, the server thread has ended and the daemon runs on without it, and that is the only way
  for it to do so (`EarlySignal.RunsOnWithoutServerIff`, `EarlySignal.ServerlessIsReachable`); a
  hunter that asks it then waits until the daemon is told to stop (`ReplyWait.NobodyAnswers`).
  Claims about shutdown start after that line.
- A port answered with a pid can later be answered "unknown", when a scan in between found the port's
  socket held by a process directory numbered 0: the reply logic takes pid 0 for unknown
  (`MapOverRuns.AnswersLost`, `PidZero.AnswerIsLost`). Where no directory has that number, as on Linux,
  it never is (`MapOverRuns.AnsweredForGood`).
- The start-up scan and the scan for one port need not agree. `TwoScans.TieBreaksDiffer` says for any
  `/proc`, port and protocol when they do; `TwoScans.TheScansDiffer` gives an input on which they do
  not, for TCP and for UDP.
- A packet to port 0 makes the daemon record, under port 0, the owner of the first entry of the whole
  table, whatever its port, because 0 disables the filter (`TwoScans.ScanTakesTheFirstListed`, with an
  input in `TwoScans.TheScansDiffer`).
- The hunter does not free every packet: not duplicates and packets of unknown pids, not the packet in
  hand at a `break`, not the index when the log file does not open, not the terminate packet. These and
  no others (`Leaks.WhatIsNeverFreed`).

**Assumptions.** Genuine packets are not all-zero, as the terminate message is. `isShuttingDown`,
which the constructor leaves unset, starts false. Sending a command to the kernel succeeds and the
kernel's allocations do. Process ids of the daemon and hunter are nonzero and different. One hunter
runs, once. In the system model no scan throws: the tables have hexadecimal ports where the regular
expression allows any word character, and the process directories can be read; `SocketOwner` and
`ScanFiles` have the throwing cases. The clock does
not appear: sleeps are steps that do nothing.

Where the documentation and the code disagree the model follows the code: sockets are not filtered
by state, the map is never cleaned, and the kernel module sends unicast messages.

## Model

| member | source | states |
|---|---|---|
| `SocketTable.GreedyIsExact` | daemon/src/ScanFiles.cpp:30 | greedy matching of the expression at an offset finds a match exactly when some split into blanks, digits and tail exists, and every such split has the same captures |
| `SocketTable.SearchIsLeftmost` | daemon/src/ScanFiles.cpp:34 | the search returns the match of the leftmost offset that has one, and fails exactly when none has |
| `SocketTable.TailIsThePattern` | daemon/src/ScanFiles.cpp:30 | the expression's tail, written out: 32 characters, each of the class its place demands |
| `SocketTable.CastKeepsPort` | daemon/src/ScanFiles.cpp:40 | the cast to 16 bits after a four-character capture loses nothing |
| `SocketTable.ParsedEntries` | daemon/src/ScanFiles.cpp:41-53 | every entry parsed has a nonempty all-digit inode other than "0", and the port asked for if one was |
| `SocketTable.ThrowsWhateverThePort` | daemon/src/ScanFiles.cpp:40-43 | whether parsing a table throws does not depend on the filter |
| `SocketTable.LineThrowsIff` | daemon/src/ScanFiles.cpp:34-40 | parsing a line throws exactly when it matches and the captured port does not start with a hexadecimal digit |
| `SocketTable.TableThrowsIff` | daemon/src/ScanFiles.cpp:26-40 | parsing a table throws exactly when one of its lines does |
| `SocketTable.TenthField` | daemon/src/ScanFiles.cpp:46-58 | the token loop yields the tenth token exactly if there is one and it is an inode |
| `SocketTable.ParseListeningSockets` | daemon/src/ScanFiles.cpp:18-63 | the loop over lines computes the table specification, throwing included |
| `SocketTable.EveryOffsetAgrees` | daemon/src/ScanFiles.cpp:30-38 | on a printed row the match at offset 0 succeeds and every other offset that matches captures the same columns |
| `SocketTable.RowRoundTrip` | daemon/src/ScanFiles.cpp:34-57 | a row printed in the kernel's format parses to exactly its inode and local port, subject to the filter |
| `SocketTable.TableRoundTrip` | daemon/src/ScanFiles.cpp:18-63 | a whole printed file parses to the ordered, filtered list of its rows with nonzero inodes |
| `SocketTable.KernelRowOk` | daemon/src/ScanFiles.cpp:29-30 | rows with the kernel's column widths meet the round trip's conditions, whatever the numbers |
| `SocketOwner.LinkTestIsExact` | daemon/src/ScanFiles.cpp:90-97 | for any inode the parser emits the loose test (prefix anywhere, slice at fixed offsets, size below 9 wrapping) accepts a link if and only if it is the prefix, the inode and one more character |
| `SocketOwner.FindPidIsFirstOwner` | daemon/src/ScanFiles.cpp:66-102 | the result is -1 exactly when no process owns the socket and otherwise the first owner in directory order |
| `SocketOwner.FindPidOnStrings` | daemon/src/ScanFiles.cpp:66-102 | in terms of strings alone, for any inode the parser emits: the result is the number of the first directory with an all-digit name and an open fd folder in which some readable link, at whatever descriptor, is `socket:[`, the inode and one more character; and -1 exactly when there is none |
| `SocketOwner.ThrowsBeforeOwner` | daemon/src/ScanFiles.cpp:74-99 | the walk throws exactly when some directory's folder fails or its number is no `int`, where wanted, and no directory before it owns the socket |
| `SocketOwner.ThrowsOnStrings` | daemon/src/ScanFiles.cpp:74-99 | the same in terms of strings, with 2147483647 as the largest number accepted |
| `SocketOwner.FindPidBySockInode` | daemon/src/ScanFiles.cpp:66-102 | the nested directory loops throw exactly then, and otherwise compute the first owner |
| `ScanFiles.RecordTcpSockets` | daemon/src/ScanFiles.cpp:117-127 | the TCP loop builds the fold in which later owned entries overwrite, or throws when one of its walks does |
| `ScanFiles.RecordUdpSockets` | daemon/src/ScanFiles.cpp:129-141 | the UDP loop builds the fold in which mapped ports are skipped, or throws when one of its walks does |
| `ScanFiles.InitializePortPidMap` | daemon/src/ScanFiles.cpp:106-142 | the whole function is the two folds over the two parsed tables, or throws where the parser or a walk does |
| `ScanFiles.TcpKeepsTheLast` | daemon/src/ScanFiles.cpp:117-127 | after the TCP loop a port has the owner of its last owned entry, and is as before if it has none |
| `ScanFiles.UdpKeepsTheFirst` | daemon/src/ScanFiles.cpp:129-141 | after the UDP loop a mapped port is unchanged and another has the owner of its first owned entry, if any |
| `ScanFiles.InitialScanSpecification` | daemon/src/ScanFiles.cpp:106-142 | the built map sends each port to the owner of its last owned TCP entry, else of its first owned UDP entry, else nowhere |
| `ScanFiles.ScanForPidByPort` | daemon/src/ScanFiles.cpp:145-178 | the scan for one port returns the owner of the first entry listed, whether or not it has one |
| `ScanFiles.FilteredParse` | daemon/src/ScanFiles.cpp:41-43 | filtering while parsing gives what filtering the whole parsed table gives |
| `ScanFiles.IncrementalScanAgrees` | daemon/src/ScanFiles.cpp:145-178 | when one process holds every socket of a nonzero port in /proc/net/tcp for protocol 'T', in /proc/net/udp otherwise, the scan for the port returns it unless its walk throws, and so does a walk over all processes |
| `ScanFiles.TcpStartUpAgrees` | README.md:90-98 | and when one process holds every socket of the TCP table on a port, so does the start-up scan |
| `ScanFiles.UdpStartUpAgrees` | README.md:90-98 | for the UDP table too, when no TCP entry on the port has an owner |
| `ScanFiles.OtherTableDoesNotMatter` | daemon/src/ScanFiles.cpp:163-171 | whatever /proc/net/udp says, a scan for 'T' returns the same, and whatever /proc/net/tcp says, any other |
| `ScanFiles.StartUpThrowsIff` | daemon/src/ScanFiles.cpp:106-142 | the start-up scan throws exactly when a table does, or the walk for a TCP entry, or the walk for a UDP entry whose port neither an owned TCP entry nor an earlier owned UDP entry had mapped |
| `TwoScans.ScanTakesTheFirstListed` | daemon/src/ScanFiles.cpp:154-176 | the scan for a port returns the owner of the first entry the unfiltered table lists under it, and for port 0 of the first entry of all |
| `TwoScans.TieBreaksDiffer` | daemon/src/ScanFiles.cpp:106-178 | for any `/proc`, port and protocol, exactly when the two scans agree: if the first entry the scan looks at has the owner of the port's last owned TCP entry, or else of its first owned UDP entry, or else none; for a nonzero port without an owned TCP entry this is said of the tables alone |
| `TwoScans.TheScansDiffer` | daemon/src/ScanFiles.cpp:106-178 | concrete socket tables and processes on which they differ, for a TCP port, a UDP port and port 0 |
| `TwoScans.EachProtocolHasItsTable` | daemon/src/ScanFiles.cpp:154-176 | a socket listed under a port only in the UDP table is found by the scan for 'U' and not for 'T', and the other way round, and by the start-up scan; its holder has other descriptors, a device and an unreadable one, before it |
| `PortToPidMap.PortToPidMap.AddPidMapping` | daemon/src/PortToPidMap.cpp:16-28 | the map gains the scan's owner when one is found and is unchanged otherwise, also when the scan throws; the result says which |
| `PortToPidMap.PortToPidMap.GetPid` | daemon/src/PortToPidMap.cpp:31-38 | the mapped pid if the port is mapped, and -1 if not |
| `PortToPidMap.OpenPortMap` | daemon/src/PortToPidMap.cpp:4-13 | the constructed map is the start-up scan |
| `PortToPidMap.ReplyIsTheMapped` | daemon/src/main.cpp:134-141 | the daemon's reply is the mapped pid if there is one other than 0, and else -1 |
| `PortToPidMap.MapHistory` | daemon/src/PortToPidMap.cpp:16-38 | after any scans a port has the value of its last successful one, or else its initial one; no key is lost |
| `PortToPidMap.AnswerIsKept` | daemon/src/main.cpp:134-141 | a port answered with a pid is, after any calls with any `/proc`, answered unknown if and only if in the last that found a process the first holder of the first socket listed was the directory numbered 0 |
| `PortToPidMap.AnsweredForGood` | daemon/src/main.cpp:134-141 | without a directory numbered 0 it never is |
| `PidZero.AnswerIsLost` | daemon/src/main.cpp:134-141 | a concrete `/proc` with such a directory, and the answer lost to it |
| `MessageQueue.MessageQueue.Push` | shared/message_queue/MessageQueue.cpp:3-6 | appends |
| `MessageQueue.MessageQueue.Pop` | shared/message_queue/MessageQueue.cpp:8-15 | takes the oldest, or null from an empty queue |
| `MessageQueue.RecvPacketInfoThread` | shared/config/UserSpaceConfig.h:29-38 | of the messages received while `running` is seen true, failed receives skipped, exactly those before the first terminate message reach the queue, in order, each in a fresh object; the terminate message's object is left behind |
| `MessageQueue.ReceivedIs` | shared/config/UserSpaceConfig.h:29-38 | what was received: the first turn that sees `running` false ends it, a turn that receives nothing adds nothing, any other adds its message in its place |
| `MessageQueue.CleanMessageQueue` | shared/config/UserSpaceConfig.h:41-49 | frees every queued packet, once |
| `PidToPacketsInfoMap.ComparePacketInfo` | packet_hunter/src/PidToPacketsInfoMap.cpp:5-9 | true exactly when both addresses, both ports and the protocol are equal, whatever the payload size |
| `PidToPacketsInfoMap.PidToPacketsInfoMap.ContainsPacket` | packet_hunter/src/PidToPacketsInfoMap.cpp:12-23 | the nested search finds exactly the stored 5-tuples, in whatever order it visits the map |
| `PidToPacketsInfoMap.PidToPacketsInfoMap.InsertPacketInfo` | packet_hunter/src/PidToPacketsInfoMap.cpp:26-34 | appends to the pid's vector, creating it if needed; nothing for -1 |
| `PidToPacketsInfoMap.Hunt` | packet_hunter/src/main.cpp:44-66 | the main loop on objects, whatever its tests of `running` and of the server see: the index is the fold over the packets handled, each of which is in it once or dropped; it ends before the last packet popped only at one that had to be asked about and got no answer |
| `PidToPacketsInfoMap.PopsIs` | packet_hunter/src/main.cpp:44-53 | the packets it handles: a turn that sees `running` false, or an empty queue and a dead daemon, ends them, an empty queue alone adds nothing, any other adds its packet in its place |
| `AnswerFold.FirstKnownAnswerWins` | packet_hunter/src/main.cpp:54-65 | each pid's vector is the arrival-order subsequence of the packets whose 5-tuple's first known answer it was; pids with none are no keys |
| `AnswerFold.AnsweredByMeaning` | packet_hunter/src/main.cpp:54-65 | that subsequence holds exactly the packets of first known answers with that pid |
| `AnswerFold.HoldsTheKnown` | packet_hunter/src/PidToPacketsInfoMap.cpp:11-23 | the index holds exactly the 5-tuples that have had a known answer |
| `AnswerFold.StoredOncePerFlow` | packet_hunter/src/main.cpp:54 | no two stored packets anywhere share a 5-tuple |
| `AnswerFold.UnknownIsNoKey` | packet_hunter/src/PidToPacketsInfoMap.cpp:27 | -1 is never a key |
| `AnswerFold.AskedUntilKnown` | packet_hunter/src/main.cpp:54-61 | the daemon is asked about a packet exactly if its 5-tuple has had no known answer |
| `PacketLog.LineInjective` | packet_hunter/src/main.cpp:153-160 | two log lines are equal exactly when pid, protocol name, addresses and ports are |
| `PacketLog.LinesPrinted` | packet_hunter/src/main.cpp:156-160 | two lines in full: source before destination, addresses in network byte order, TCP for 'T' and UDP for 'U' |
| `PacketLog.LineDeterminesFlow` | packet_hunter/src/main.cpp:153-160 | for TCP and UDP a line determines the pid and the 5-tuple |
| `PacketLog.LogDistinct` | packet_hunter/src/main.cpp:147-165 | with one packet per 5-tuple the lines are pairwise distinct in any iteration order |
| `PacketLog.SavedLog` | packet_hunter/src/main.cpp:147-165 | the log of the fold has one line for each 5-tuple's first known answer and no others |
| `PacketLog.SavePacketMapToFile` | packet_hunter/src/main.cpp:124-169 | writes the log in some iteration order and frees every packet of the map once; writes and frees nothing when the file does not open |
| `PacketLog.FreePacketMap` | packet_hunter/src/main.cpp:86-93 | answering no frees every packet of the map, once |
| `Sniffer.Sniffer.NlRecvMsg` | kernel_module/sniffer.c:121-150 | each of the four command texts has its effect on its own client's flag and pid and leaves the other's alone; unsubscribing sends one terminate message to the pid held before; any other text does nothing |
| `Sniffer.Sniffer.PacketSnifferHook` | kernel_module/sniffer.c:189-237 | a packet of protocol 6 is reported with its addresses and ports as 'T', of protocol 17 as 'U', one message to the daemon if it is subscribed with a nonzero pid, then one to the hunter if it is; of any other protocol to nobody |
| `Sniffer.SupportedAreReports` | kernel_module/sniffer.c:189-208 | the packets the system model lets arrive are exactly the hook's reports |
| `Sniffer.SlotHolder` | kernel_module/sniffer.c:121-150 | after any commands a slot is held by the sender of the first subscribe since the last unsubscribe, and is empty if there is none |
| `Sniffer.FlagIffPid` | kernel_module/sniffer.c:121-150 | with nonzero senders a client is subscribed exactly when its pid is nonzero |
| `Sniffer.ClientsAreIndependent` | kernel_module/sniffer.c:121-150 | one client's slot is what its own commands alone would make it |
| `Sniffer.StopsInOrder` | kernel_module/sniffer.c:129-150 | over any commands there are as many terminate messages as unsubscribes, the k-th sent by the k-th |
| `Sniffer.EveryUnsubscribeOnce` | kernel_module/sniffer.c:129-150 | the unsubscribes counted are all there are, each once, in order |
| `Sniffer.OneStopPerUnsubscribe` | kernel_module/sniffer.c:121-150 | the k-th terminate message goes to the holder of the slot before the k-th unsubscribe, as the commands before it determine it, or to 0 if there is none |
| `Pipeline.Fifo` | shared/config/UserSpaceConfig.h:30-36 | popped, queued, in the receiver's hand, and a consumed terminate packet are all packets received, in order, and with the unread messages all the channel accepted; no terminate message is popped or queued |
| `Pipeline.PushedBeforeFirstStop` | shared/config/UserSpaceConfig.h:34 | what reached the queue is a prefix of what was accepted before the first terminate message |
| `Invariants.InvNext` | daemon/src/main.cpp:39-88 | every step of every thread keeps the system's invariant |
| `Invariants.PacketsStayInOrder` | kernel_module/sniffer.c:129-132 | first in, first out in both processes in every state of every run, also when the hook sends packets after the terminate message |
| `Shutdown.ShutdownCompletes` | daemon/src/main.cpp:70-91 | from any point of any run with `running` false after it is set, the daemon's threads take boundedly many steps, and when none can move all three have ended, so both joins return |
| `Shutdown.DaemonStepsLower` | daemon/src/main.cpp:54-88 | once `running` is false every daemon step strictly lowers a rank over control points and queue length |
| `Shutdown.OthersKeepRank` | daemon/src/main.cpp:54-88 | and no step of the hunter, the kernel or the environment raises it |
| `Shutdown.NeverStuck` | daemon/src/UnixSocketServer.cpp:112-125 | until the daemon has ended one of its threads can move, whatever accept, read, the dummy connection and a full channel do |
| `EarlySignal.StepIsAffectedIff` | daemon/src/main.cpp:40-48 | until `running` is set, a step comes out otherwise because of a signal if and only if it is a test of the server thread that sees it |
| `EarlySignal.EarlySignalIsErased` | daemon/src/main.cpp:48 | a run up to setting `running`, in which every test of the server thread sees it true, comes to the same state as the run without the signals |
| `EarlySignal.ServerEndedIff` | daemon/src/main.cpp:97 | the server thread has ended if and only if the accept loop's test saw `running` false; `running` is false only after a signal |
| `EarlySignal.RunsOnWithoutServerIff` | daemon/src/main.cpp:40-54 | with `running` true in the main loop or later, the server thread has ended if and only if its accept loop tested `running` between a signal and the line that sets it |
| `EarlySignal.ServerlessIsReachable` | daemon/src/main.cpp:40-54 | a run from any initial state after which the daemon is in its main loop, running, without its server thread |
| `HunterSignal.SignalledHunterStops` | packet_hunter/src/main.cpp:44-96 | from any point of any run with `running` false the hunter's threads take boundedly many steps, and then have ended, or main waits for a reply, or, if the terminate message had been sent unreleased before, it is stuck in join |
| `HunterSignal.AtRestIff` | packet_hunter/src/main.cpp:44-96 | the states in which neither of the hunter's threads can move are exactly these three |
| `ReplyWait.AttendedIsAnswered` | daemon/src/main.cpp:124-144 | while a hunter whose connection the server thread has taken up waits, signals to the daemon or not, that thread takes at most nine steps to answer or hang up, and can always take the next, at once or when the map's lock is released |
| `Answered.AnsweringGoesOn` | daemon/src/main.cpp:130-142 | it answers: while the daemon runs and is not signalled, the server thread, once it has taken up a waiting hunter's connection and is not already hanging up, does not hang up, and within nine of its steps comes to the one that sends |
| `Answered.AnswererCanMove` | daemon/src/main.cpp:130-142 | each of which it can take at once, or when the map's lock is released |
| `Answered.ReplyComes` | daemon/src/main.cpp:130-142 | that step delivers, on an open connection, what the unlocked map said of the port in the hunter's one open request, and the hunter's next step takes it |
| `Connection.ConnectionStaysUp` | daemon/src/main.cpp:95-144 | in a run in which nobody signals the daemon a connection once made is neither closed nor shut for reading until the hunter has ended, and a hunter taken up that waits is being answered |
| `Connection.GoneIsLetGo` | daemon/src/main.cpp:130-131 | the server thread answers what a hunter that has ended had asked, then hangs up, in at most four steps for each request and six more, never waiting but for the lock |
| `AnsweredRun.AnAnswerIsReachable` | packet_hunter/src/main.cpp:44-66 | from every initial state, for every packet the hook reports and every pid, a run in which the daemon finds the process by that packet, in the table of its protocol, answers the hunter, and the hunter has stored the packet under the pid |
| `HuntGoesOn.RunningIff` | packet_hunter/src/main.cpp:47-53 | the hunter's `running` is false exactly when a signal has come, or its loop, finding the queue empty, found the connection never made, closed, or shut for reading |
| `HuntGoesOn.LoopLeftIff` | packet_hunter/src/main.cpp:44-66 | the hunter has left its loop exactly when the loop's test saw `running` false, a send found the connection in one of these three states, or the connection was closed under a wait for a reply |
| `HuntGoesOn.PopComes` | packet_hunter/src/main.cpp:44-66 | as long as no signal comes and the connection is up the loop goes on and, with a packet queued, comes within five of its steps to the one that takes the oldest |
| `HuntGoesOn.HuntsOn` | packet_hunter/src/main.cpp:44-66 | in a run in which nobody signals either process, a hunter that found the daemon never leaves its loop |
| `HuntGoesOn.AsksIff` | packet_hunter/src/main.cpp:54-60 | of a packet it has taken it asks the daemon exactly when no answer for the 5-tuple has been a pid, and else returns to its test |
| `DaemonLoop.LoopLeftIff` | daemon/src/main.cpp:54-68 | the daemon has left its loop exactly when the loop's test saw `running` false, which takes a signal |
| `DaemonLoop.PopComes` | daemon/src/main.cpp:54-68 | until a signal comes the loop goes on and, with a packet queued, comes within six of its steps, none of which waits, to the one that takes the oldest |
| `DaemonLoop.EveryPoppedIsScanned` | daemon/src/main.cpp:61-64 | every packet the loop has taken has had its scan stored, or is the one whose scan is under way |
| `ReplyWait.LockIsReleased` | daemon/src/PortToPidMap.cpp:16-28 | the writer's lock is released after at most three steps of the main thread, which nothing holds up |
| `ReplyWait.WaitCanLastIff` | packet_hunter/src/main.cpp:61 | while the daemon runs, the hunter can be kept waiting for any number of steps of the server thread, or until that is idle for good, if and only if the server thread has not taken its connection up |
| `ReplyWait.IdleForEver` | daemon/src/UnixSocketServer.cpp:64-81 | idle for good (ended, or reading from a silent client) means that through any run in which no other client speaks or hangs up and the daemon is not told to stop, the hunter waits |
| `QueuedHunter.TurnComes` | daemon/src/main.cpp:95-119 | otherwise the hunter's turn comes: if accept does not fail, the clients ahead say no more and the daemon is not told to stop, the server thread takes at most as many steps before as the place in the queue and the requests unread say, and it can always take the next, once the client it waits for hangs up |
| `ReplyWait.NobodyAnswers` | daemon/src/main.cpp:95-119 | without the server thread no step but a signal to the daemon ends the wait |
| `ReplyWait.DaemonsEndEndsTheWait` | daemon/src/UnixSocketServer.cpp:9-22 | no hunter waits once the daemon has ended |
| `WaitRun.ServerlessWaitIsReachable` | packet_hunter/src/main.cpp:61 | a run from any initial state after which a signalled hunter waits for a daemon without its server thread |
| `WaitRun.BusyWaitIsReachable` | packet_hunter/src/main.cpp:61 | a run from any initial state after which a signalled hunter waits while the server thread waits for another client, which is idleness for good |
| `HunterShutdown.HunterShutdownCompletes` | packet_hunter/src/main.cpp:68-96 | if `running` was false when the terminate message was sent, or the message was accepted, the hunter's threads take boundedly many steps and can move until both have ended |
| `HunterShutdown.JoinCanHangIff` | packet_hunter/src/main.cpp:60-73 | after sending the terminate message a state in which the join waits for ever is reachable if and only if `running` was true and the channel full |
| `HunterShutdown.StuckForEver` | packet_hunter/src/main.cpp:73 | no step of anybody, a signal included, frees a stuck hunter |
| `HangRun.StuckIsReachable` | packet_hunter/src/main.cpp:60-73 | a run from any initial state, whatever the channel's capacity, ends in a stuck hunter |
| `Ownership.EveryPacketHasOneOwner` | shared/config/UserSpaceConfig.h:29-49 | in every state of every run each heap packet of either process is in exactly one of: receiver, queue, main thread's hand, index, freed, dropped |
| `Ownership.NoDoubleFree` | packet_hunter/src/main.cpp:86-93 | no step frees a packet already freed, or looks at one freed, and the hunter looks at none it dropped |
| `Ownership.CleanDaemonExit` | daemon/src/main.cpp:66-78 | when the daemon's main thread has ended every packet received has been freed, save a consumed terminate packet |
| `Ownership.HunterExit` | packet_hunter/src/main.cpp:75-96 | when the hunter's has ended every packet received is freed or dropped and not both, save the terminate packet |
| `Leaks.IndexedAreFirstAnswers` | packet_hunter/src/main.cpp:54-65 | the index points to exactly the heap packets that were the first known answer of their 5-tuple |
| `Leaks.WhatIsNeverFreed` | packet_hunter/src/main.cpp:54-96 | when the hunter has ended, a packet was never freed if and only if it was handled and no first known answer, or was in hand at a break, or was one and a save failed, or is the terminate packet |
| `Lookup.Linearizable` | daemon/src/main.cpp:130-142 | the k-th reply answers the k-th request with what the unlocked map held for that port at an instant after the request and before the reply |
| `Lookup.OneOutstanding` | packet_hunter/src/main.cpp:60-61 | at most one request is unanswered, exactly while the hunter waits, and it is the port of the packet in hand |
| `Lookup.ServedFromTheMap` | daemon/src/main.cpp:134-140 | each value the server computes for the hunter, delivered or not, is the map's at an instant when no scan held the lock |
| `Lookup.LookupNext` | daemon/src/main.cpp:123-144 | every step keeps the socket's invariant and only adds to the logs of requests, lookups and replies |
| `MapOverRuns.BuiltIsInitialScan` | daemon/src/PortToPidMap.cpp:4-6 | if /proc stands still during construction, done one read and one lookup at a time, the map is the start-up scan |
| `ScansOverRuns.ScanSteps` | daemon/src/PortToPidMap.cpp:16-28 | a scan's separate steps (lock, read the table of the packet's protocol, walk the directories, store), not interrupted, store exactly what the scan for its port and protocol returns, under the lock |
| `ScansOverRuns.CounterAlways` | daemon/src/ScanFiles.cpp:145-178 | in every state of every run, /proc changing as it likes, what the main thread is about to walk for is what its step before read from the packet's table, and what it is about to store is what that step's walk for the first entry found |
| `ScansOverRuns.StoreIsScan` | daemon/src/PortToPidMap.cpp:19-26 | whatever comes in between, what is stored is what the scan for the packet's port and protocol returns for the tables of the reading step and the directories of the walking step |
| `ScansOverRuns.MapStep` | daemon/src/PortToPidMap.cpp:17-27 | after construction only storing a scan's result changes the map, and only while the lock is held |
| `ScansOverRuns.MapIsItsHistory` | daemon/src/PortToPidMap.cpp:16-28 | between any two states of a run after construction the map is the earlier one overwritten, in order, by all the scans stored in between, each being what the scan for a port returned for what /proc was when its steps looked |
| `ScansOverRuns.CounterFindsIff` | daemon/src/ScanFiles.cpp:153-176 | a step finds a process for a port, by what the program counter holds, if and only if the table its scan had read lists the port and the process is the first to hold the first socket listed |
| `MapOverRuns.MapFollowsFinds` | daemon/src/PortToPidMap.cpp:16-28 | between any two states the map, a scan in progress included, says of a port what the last step to find a process for it found, or else what it said before |
| `MapOverRuns.AnswersLost` | daemon/src/main.cpp:134-141 | of two answers about a port, the first a pid, the second is unknown if and only if between the two lookups the last scan to find a process for the port, its table read at one step and its directories walked at a later, found the directory numbered 0 to be the first holder |
| `MapOverRuns.AnsweredForGood` | daemon/src/main.cpp:134-141 | in a run in which no directory is numbered 0, a port once answered with a pid is never answered unknown again |
| `HuntOverRuns.IndexIsTheFold` | packet_hunter/src/main.cpp:44-66 | in every state of every run the hunter's vectors are those of the first-known-answer reference, one packet per 5-tuple, -1 no key |
| `HuntOverRuns.StreamIsReal` | packet_hunter/src/main.cpp:46-65 | the packets of that reference are the ones popped, in order, and its questions and replies are those of the socket, one for one |
| `HuntOverRuns.ResolvedIsNeverAskedAgain` | packet_hunter/src/main.cpp:54-60 | when the hunter sends a port its packet's 5-tuple has had no known answer |
| `HuntOverRuns.FirstAnswerWasAsked` | packet_hunter/src/main.cpp:54-61 | a first known answer belongs to a question that was put |
| `SessionLog.SessionLogIsExact` | packet_hunter/src/main.cpp:124-169 | at any point of any run the lines a save would write are pairwise distinct, one for each 5-tuple's first known answer, and no others |
| `Provenance.MappedWasFound` | daemon/src/ScanFiles.cpp:106-178 | what the map says of a port was listed at one step, by a read of /proc/net/tcp or of /proc/net/udp and, for a packet, of the one of its protocol, under that port unless it is 0, and found in the process directories at a later one |
| `Provenance.StoredWasAnswered` | packet_hunter/src/main.cpp:60-65 | a packet's pid in the index is the reply the socket delivered to a request for its port |
| `Provenance.EndToEnd` | packet_hunter/src/main.cpp:60-65 | for every indexed packet, the daemon read a table (at its start either, for a packet 'T' /proc/net/tcp, 'U' /proc/net/udp) listing a socket on its destination port (on any port, if that is 0), later found the recorded pid to be its first holder, and later still its unlocked map gave that pid |
| `KernelOverRuns.SubscribeSteps` | kernel_module/sniffer.c:122-128 | the separate steps of subscribing amount to the handler's effect |
| `KernelOverRuns.DaemonUnsubscribeSteps` | kernel_module/sniffer.c:143-148 | so do those of unsubscribing the daemon, terminate message included |
| `KernelOverRuns.HunterUnsubscribeSteps` | kernel_module/sniffer.c:129-134 | and the hunter |
| `KernelOverRuns.HookSteps` | kernel_module/sniffer.c:215-237 | an uninterrupted run of the hook's steps delivers what the hook offers |
| `KernelOverRuns.KernelNext` | kernel_module/sniffer.c:157-241 | every step keeps: a channel accepts only reported packets and terminate messages, and a hook run offers to each client at most once, to the daemon first |
| `KernelOverRuns.OfferedToDaemonFirst` | kernel_module/sniffer.c:215-237 | while the daemon stays subscribed, in any interleaving of hook runs, a packet arriving from then on has been offered to the hunter by runs that had offered it to the daemon, so at most as often |

## Left out

- Real sockets, netlink byte layout, syslog, terminal output and input: replaced by channels, sequences and arbitrary choices.
- Two clients of one kind in the kernel at once, and several hunters, in the system model; `Sniffer` has any command sequence from any senders.
- Failed sends of commands and failed kernel allocations, which abandon the protocol.
- A netlink `recv` that fails, or delivers a message of another size, returns no packet and the receive loop tests `running` again; `MessageQueue` has it, the system model has no such steps.
- An exception in a scan ends the daemon; the system model has none.
- SIGPIPE, interrupted system calls, partial or blocking stream writes, reuse of descriptor numbers, and descriptor 0: a port or a pid is one message.
- A connection to a full backlog: the dummy connection and the hunter's are always queued.
- `UnixSocketServer` and `UnixSocketClient` as objects: their fields are part of the system state and their calls are steps of it. No claim is made that a descriptor is closed once; the check and the close are separate steps that may race.
- Saving or freeing the hunter's index is one step in the system model; the loops are proved on objects in `PacketLog`.
- A walk over the process directories sees one state of `/proc` in the system model; tables and directories may change between reads and walks, and between walks.
- `payload_size` is never set by the kernel module; both clients' copies carry the same arbitrary value, which nothing reads.
- `std::stoul` for captures of other than four word characters, which the expression never yields.
- `daemonize`, `ThreadSafeUnorderedMap`, the make files, scripts and the service file.
