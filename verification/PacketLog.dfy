/** `savePacketMapToFile`: the format of a log line, and the loop that writes and frees. */
module PacketLog {
  import opened Packets
  import opened Text
  import opened AnswerFold
  import opened MessageQueue
  import opened PidToPacketsInfoMap

  // ----- the format -----

  function IntText(n: int): (s: string)
    ensures ' ' !in s
  {
    if n < 0 then "-" + Decimal(-n) else Decimal(n)
  }

  function ProtoName(proto: char): (s: string)
    ensures ' ' !in s
  {
    if proto == 'T' then "TCP" else if proto == 'U' then "UDP" else "Other"
  }

  /** `inet_ntoa` on a little-endian machine: the address is stored in network byte order. */
  function Dotted(ip: UInt32): (s: string)
  {
    Decimal(ip % 256) + "." + (Decimal(ip / 256 % 256) + "." +
      (Decimal(ip / 65536 % 256) + "." + Decimal(ip / 16777216)))
  }

  function EndpointText(ip: UInt32, port: Port): string { Dotted(ip) + ":" + Decimal(port) }

  function Line(pid: int, p: PacketInfo): string {
    "PID: " + (IntText(pid) + " " + ("| Proto: " + (ProtoName(p.proto) + " " + ("| Src: " +
      (EndpointText(p.srcIp, p.srcPort) + " " + ("→ Dst: " + EndpointText(p.dstIp, p.dstPort)))))))
  }

  lemma Regroup(a: string, b: string, c: string)
    ensures a + (b + c) == (a + b) + c
  {}

  /** The line, piece by piece. */
  lemma {:induction false} LineLayout(pid: int, p: PacketInfo)
    ensures Line(pid, p) ==
      "PID: " + (IntText(pid) + (" | Proto: " + (ProtoName(p.proto) + (" | Src: " +
      (EndpointText(p.srcIp, p.srcPort) + (" → Dst: " + EndpointText(p.dstIp, p.dstPort)))))))
  {
    hide IntText, ProtoName, EndpointText;
    var n, o := IntText(pid), ProtoName(p.proto);
    var s, d := EndpointText(p.srcIp, p.srcPort), EndpointText(p.dstIp, p.dstPort);
    assert " " + "→ Dst: " == " → Dst: " && " " + "| Src: " == " | Src: " && " " + "| Proto: " == " | Proto: ";
    Regroup(" ", "→ Dst: ", d);
    Regroup(s, " ", "→ Dst: " + d);
    var r := s + (" → Dst: " + d);
    Regroup(" ", "| Src: ", r);
    Regroup(o, " ", "| Src: " + r);
    var q := o + (" | Src: " + r);
    Regroup(" ", "| Proto: ", q);
    Regroup(n, " ", "| Proto: " + q);
  }

  /** What a TCP and a UDP packet print: source before destination, and of an address, as it stands in
      memory on a little-endian machine, the lowest byte first. */
  lemma {:induction false} LinesPrinted()
    ensures Line(42, PacketInfo(16777343, 134744072, 5000, 80, 0, 'T')) ==
      "PID: " + ("42" + (" | Proto: " + ("TCP" + (" | Src: " + ("127.0.0.1:5000" + (" → Dst: " + "8.8.8.8:80"))))))
    ensures Line(7, PacketInfo(67305985, 0, 1, 53, 9, 'U')) ==
      "PID: " + ("7" + (" | Proto: " + ("UDP" + (" | Src: " + ("1.2.3.4:1" + (" → Dst: " + "0.0.0.0:53"))))))
  {
    SmallNumbers();
    hide Decimal, Line;
    LineLayout(42, PacketInfo(16777343, 134744072, 5000, 80, 0, 'T'));
    LineLayout(7, PacketInfo(67305985, 0, 1, 53, 9, 'U'));
    EndpointsPrinted();
    hide EndpointText, Dotted;
  }

  lemma EndpointsPrinted()
    ensures EndpointText(16777343, 5000) == "127.0.0.1:5000" && EndpointText(134744072, 80) == "8.8.8.8:80"
    ensures EndpointText(67305985, 1) == "1.2.3.4:1" && EndpointText(0, 53) == "0.0.0.0:53"
  {
    SmallNumbers();
    hide Decimal;
    assert Dotted(16777343) == "127.0.0.1" && Dotted(134744072) == "8.8.8.8";
    assert Dotted(67305985) == "1.2.3.4" && Dotted(0) == "0.0.0.0";
    hide Dotted;
  }

  lemma SmallNumbers()
    ensures Decimal(0) == "0" && Decimal(1) == "1" && Decimal(2) == "2" && Decimal(3) == "3" && Decimal(4) == "4"
    ensures Decimal(7) == "7" && Decimal(8) == "8" && Decimal(42) == "42" && Decimal(53) == "53" && Decimal(80) == "80"
    ensures Decimal(127) == "127" && Decimal(5000) == "5000"
  {
    assert Decimal(12) == "12" && Decimal(50) == "50";
    assert Decimal(500) == "500";
  }

  // ----- a line determines what it was printed from -----

  /** Text up to the first separator, and after it, are determined. */
  lemma CutAt(a: string, x: string, b: string, y: string, c: char)
    requires a + [c] + x == b + [c] + y
    requires c !in a && c !in b
    ensures a == b && x == y
  {
    var s, t := a + [c] + x, b + [c] + y;
    assert s[|a|] == c && t[|b|] == c;
    assert forall k :: 0 <= k < |a| ==> s[k] == a[k];
    assert forall k :: 0 <= k < |b| ==> t[k] == b[k];
    assert |a| == |b|;
    assert s[..|a|] == a && t[..|b|] == b;
    assert s[|a| + 1..] == x && t[|b| + 1..] == y;
  }

  lemma CutFront(front: string, x: string, y: string)
    requires front + x == front + y
    ensures x == y
  {
    assert (front + x)[|front|..] == x && (front + y)[|front|..] == y;
  }

  lemma NoMark(n: nat)
    ensures '.' !in Decimal(n) && ':' !in Decimal(n) && ' ' !in Decimal(n) && '-' !in Decimal(n)
  {
    assert !IsDigit('.') && !IsDigit(':') && !IsDigit(' ') && !IsDigit('-');
  }

  lemma IntTextInjective(m: int, n: int)
    requires IntText(m) == IntText(n)
    ensures m == n
  {
    if m < 0 && n < 0 {
      CutFront("-", Decimal(-m), Decimal(-n));
      DecimalInjective(-m, -n);
    } else if m >= 0 && n >= 0 {
      DecimalInjective(m, n);
    } else if m < 0 {
      NoMark(n);
    } else {
      NoMark(m);
    }
  }

  lemma DottedInjective(m: UInt32, n: UInt32)
    requires Dotted(m) == Dotted(n)
    ensures m == n
  {
    NoMark(m % 256); NoMark(n % 256);
    CutAt(Decimal(m % 256), TopBytes(m), Decimal(n % 256), TopBytes(n), '.');
    DecimalInjective(m % 256, n % 256);
    NoMark(m / 256 % 256); NoMark(n / 256 % 256);
    CutAt(Decimal(m / 256 % 256), LastBytes(m), Decimal(n / 256 % 256), LastBytes(n), '.');
    DecimalInjective(m / 256 % 256, n / 256 % 256);
    NoMark(m / 65536 % 256); NoMark(n / 65536 % 256);
    CutAt(Decimal(m / 65536 % 256), Decimal(m / 16777216),
      Decimal(n / 65536 % 256), Decimal(n / 16777216), '.');
    DecimalInjective(m / 65536 % 256, n / 65536 % 256);
    DecimalInjective(m / 16777216, n / 16777216);
    FromBytes(m);
    FromBytes(n);
  }

  function LastBytes(ip: UInt32): string {
    Decimal(ip / 65536 % 256) + "." + Decimal(ip / 16777216)
  }

  function TopBytes(ip: UInt32): string { Decimal(ip / 256 % 256) + "." + LastBytes(ip) }

  lemma FromBytes(n: UInt32)
    ensures n == n % 256 + 256 * (n / 256 % 256) + 65536 * (n / 65536 % 256) + 16777216 * (n / 16777216)
  {
    assert n / 65536 == n / 256 / 256 && n / 16777216 == n / 65536 / 256;
  }

  lemma DottedHasNoMark(ip: UInt32)
    ensures ':' !in Dotted(ip) && ' ' !in Dotted(ip)
  {
    NoMark(ip % 256); NoMark(ip / 256 % 256); NoMark(ip / 65536 % 256); NoMark(ip / 16777216);
    assert ':' !in LastBytes(ip) && ' ' !in LastBytes(ip);
    assert ':' !in TopBytes(ip) && ' ' !in TopBytes(ip);
    assert Dotted(ip) == Decimal(ip % 256) + "." + TopBytes(ip);
  }

  lemma EndpointHasNoBlank(ip: UInt32, port: Port)
    ensures ' ' !in EndpointText(ip, port)
  {
    DottedHasNoMark(ip);
    NoMark(port);
  }

  lemma EndpointInjective(ip: UInt32, port: Port, ip': UInt32, port': Port)
    requires EndpointText(ip, port) == EndpointText(ip', port')
    ensures ip == ip' && port == port'
  {
    DottedHasNoMark(ip);
    DottedHasNoMark(ip');
    CutAt(Dotted(ip), Decimal(port), Dotted(ip'), Decimal(port'), ':');
    DottedInjective(ip, ip');
    DecimalInjective(port, port');
  }

  function AfterProto(p: PacketInfo): string {
    "| Src: " + (EndpointText(p.srcIp, p.srcPort) + " " + ("→ Dst: " + EndpointText(p.dstIp, p.dstPort)))
  }

  function AfterPid(p: PacketInfo): string {
    "| Proto: " + (ProtoName(p.proto) + " " + AfterProto(p))
  }

  /** Two lines are equal exactly when pid, protocol name, addresses and ports are. */
  lemma LineInjective(pid: int, p: PacketInfo, pid': int, p': PacketInfo)
    ensures Line(pid, p) == Line(pid', p') <==>
      && pid == pid' && ProtoName(p.proto) == ProtoName(p'.proto)
      && p.srcIp == p'.srcIp && p.srcPort == p'.srcPort && p.dstIp == p'.dstIp && p.dstPort == p'.dstPort
  {
    if Line(pid, p) == Line(pid', p') {
      assert Line(pid, p) == "PID: " + (IntText(pid) + " " + AfterPid(p));
      assert Line(pid', p') == "PID: " + (IntText(pid') + " " + AfterPid(p'));
      CutFront("PID: ", IntText(pid) + " " + AfterPid(p), IntText(pid') + " " + AfterPid(p'));
      CutAt(IntText(pid), AfterPid(p), IntText(pid'), AfterPid(p'), ' ');
      IntTextInjective(pid, pid');
      AfterPidInjective(p, p');
    }
  }

  lemma AfterPidInjective(p: PacketInfo, p': PacketInfo)
    requires AfterPid(p) == AfterPid(p')
    ensures ProtoName(p.proto) == ProtoName(p'.proto)
    ensures p.srcIp == p'.srcIp && p.srcPort == p'.srcPort && p.dstIp == p'.dstIp && p.dstPort == p'.dstPort
  {
    CutFront("| Proto: ", ProtoName(p.proto) + " " + AfterProto(p), ProtoName(p'.proto) + " " + AfterProto(p'));
    CutAt(ProtoName(p.proto), AfterProto(p), ProtoName(p'.proto), AfterProto(p'), ' ');
    var s, s' := EndpointText(p.srcIp, p.srcPort), EndpointText(p'.srcIp, p'.srcPort);
    var d, d' := EndpointText(p.dstIp, p.dstPort), EndpointText(p'.dstIp, p'.dstPort);
    CutFront("| Src: ", s + " " + ("→ Dst: " + d), s' + " " + ("→ Dst: " + d'));
    EndpointHasNoBlank(p.srcIp, p.srcPort);
    EndpointHasNoBlank(p'.srcIp, p'.srcPort);
    CutAt(s, "→ Dst: " + d, s', "→ Dst: " + d', ' ');
    CutFront("→ Dst: ", d, d');
    EndpointInjective(p.srcIp, p.srcPort, p'.srcIp, p'.srcPort);
    EndpointInjective(p.dstIp, p.dstPort, p'.dstIp, p'.dstPort);
  }

  /** For TCP and UDP packets a line determines the pid and the 5-tuple. */
  lemma LineDeterminesFlow(pid: int, p: PacketInfo, pid': int, p': PacketInfo)
    requires Supported(p) && Supported(p')
    ensures Line(pid, p) == Line(pid', p') <==> pid == pid' && FlowOf(p) == FlowOf(p')
  {
    LineInjective(pid, p, pid', p');
  }

  // ----- the whole log -----

  function LinesFor(pid: int, ps: seq<PacketInfo>): seq<string> {
    if ps == [] then [] else LinesFor(pid, ps[..|ps| - 1]) + [Line(pid, ps[|ps| - 1])]
  }

  /** The log when the map is iterated in the order of `keys`. */
  function LogOf(keys: seq<int>, ix: Index): seq<string>
    requires forall k :: 0 <= k < |keys| ==> keys[k] in ix
  {
    if keys == [] then []
    else LogOf(keys[..|keys| - 1], ix) + LinesFor(keys[|keys| - 1], ix[keys[|keys| - 1]])
  }

  /** An order in which an iteration over the map may visit its keys. */
  ghost predicate Enumerates(keys: seq<int>, ks: set<int>) {
    && (forall k :: 0 <= k < |keys| ==> keys[k] in ks)
    && (forall x :: x in ks ==> x in keys)
    && forall i, j :: 0 <= i < j < |keys| ==> keys[i] != keys[j]
  }

  ghost predicate NoRepeats<T>(s: seq<T>) { forall i, j :: 0 <= i < j < |s| ==> s[i] != s[j] }

  lemma NoRepeatsConcat<T>(s: seq<T>, t: seq<T>)
    requires NoRepeats(s) && NoRepeats(t) && forall x :: x in t ==> x !in s
    ensures NoRepeats(s + t)
  {
    forall i, j | 0 <= i < j < |s + t| ensures (s + t)[i] != (s + t)[j] {
      if i < |s| <= j { assert t[j - |s|] in t && s[i] in s; }
    }
  }

  lemma {:induction false} LinesForContents(pid: int, ps: seq<PacketInfo>)
    ensures |LinesFor(pid, ps)| == |ps|
    ensures forall i :: 0 <= i < |ps| ==> LinesFor(pid, ps)[i] == Line(pid, ps[i])
  {
    hide Line;
    if ps != [] { LinesForContents(pid, ps[..|ps| - 1]); }
  }

  /** Every stored packet has a line, and every line comes from a stored packet. */
  lemma {:induction false} LogContents(keys: seq<int>, ix: Index)
    requires forall k :: 0 <= k < |keys| ==> keys[k] in ix
    ensures forall pid, i :: pid in keys && pid in ix && 0 <= i < |ix[pid]| ==> Line(pid, ix[pid][i]) in LogOf(keys, ix)
    ensures forall x :: x in LogOf(keys, ix) ==>
      exists pid, i :: pid in keys && pid in ix && 0 <= i < |ix[pid]| && x == Line(pid, ix[pid][i])
  {
    hide Line;
    if keys != [] {
      var n := |keys| - 1;
      var pid := keys[n];
      LogContents(keys[..n], ix);
      LinesForContents(pid, ix[pid]);
      assert forall q :: q in keys <==> q in keys[..n] || q == pid;
      forall x | x in LogOf(keys, ix)
        ensures exists q, i :: q in keys && q in ix && 0 <= i < |ix[q]| && x == Line(q, ix[q][i])
      {
        if x in LogOf(keys[..n], ix) {
          var q, i :| q in keys[..n] && q in ix && 0 <= i < |ix[q]| && x == Line(q, ix[q][i]);
          assert q in keys;
        } else {
          var i :| 0 <= i < |ix[pid]| && LinesFor(pid, ix[pid])[i] == x;
          assert x == Line(pid, ix[pid][i]);
        }
      }
      forall q, i | q in keys && q in ix && 0 <= i < |ix[q]| ensures Line(q, ix[q][i]) in LogOf(keys, ix) {
        if q == pid {
          assert LinesFor(pid, ix[pid])[i] == Line(q, ix[q][i]);
        } else {
          assert q in keys[..n];
        }
      }
    }
  }

  ghost predicate AllSupported(ix: Index) {
    forall pid, i :: pid in ix && 0 <= i < |ix[pid]| ==> Supported(ix[pid][i])
  }

  lemma LinesForDistinct(pid: int, ix: Index)
    requires pid in ix && OnePerFlow(ix) && AllSupported(ix)
    ensures NoRepeats(LinesFor(pid, ix[pid]))
  {
    hide Line;
    var lines := LinesFor(pid, ix[pid]);
    LinesForContents(pid, ix[pid]);
    forall i, j | 0 <= i < j < |lines| ensures lines[i] != lines[j] {
      LineDeterminesFlow(pid, ix[pid][i], pid, ix[pid][j]);
    }
  }

  /** The lines are pairwise distinct, whatever the iteration order. */
  lemma {:induction false} LogDistinct(keys: seq<int>, ix: Index)
    requires forall k :: 0 <= k < |keys| ==> keys[k] in ix
    requires NoRepeats(keys) && OnePerFlow(ix) && AllSupported(ix)
    ensures NoRepeats(LogOf(keys, ix))
  {
    hide Line;
    if keys != [] {
      var n := |keys| - 1;
      var pid := keys[n];
      LogDistinct(keys[..n], ix);
      LinesForDistinct(pid, ix);
      LogContents(keys[..n], ix);
      LinesForContents(pid, ix[pid]);
      forall x | x in LinesFor(pid, ix[pid]) ensures x !in LogOf(keys[..n], ix) {
        var i :| 0 <= i < |ix[pid]| && LinesFor(pid, ix[pid])[i] == x;
        if x in LogOf(keys[..n], ix) {
          var q, j :| q in keys[..n] && q in ix && 0 <= j < |ix[q]| && x == Line(q, ix[q][j]);
          LineDeterminesFlow(pid, ix[pid][i], q, ix[q][j]);
          assert false;
        }
      }
      NoRepeatsConcat(LogOf(keys[..n], ix), LinesFor(pid, ix[pid]));
    }
  }

  lemma {:induction false} StoredMeaning(s: seq<Answer>, pid: int)
    ensures pid in IndexOf(s) ==> forall p :: p in IndexOf(s)[pid] ==>
      exists i :: FirstAnswer(s, i) && s[i].reply == pid && s[i].packet == p
    ensures forall i :: FirstAnswer(s, i) && s[i].reply == pid ==>
      pid in IndexOf(s) && s[i].packet in IndexOf(s)[pid]
  {
    FirstKnownAnswerWins(s, pid);
    AnsweredByMeaning(s, pid);
  }

  /** A saved session has pairwise distinct lines: one for each 5-tuple that got a known answer,
      with the pid of its first known answer, and no others. */
  lemma {:induction false} SavedLog(s: seq<Answer>, keys: seq<int>)
    requires Enumerates(keys, IndexOf(s).Keys)
    requires forall i :: 0 <= i < |s| ==> Supported(s[i].packet)
    ensures NoRepeats(LogOf(keys, IndexOf(s)))
    ensures forall i :: FirstAnswer(s, i) ==> Line(s[i].reply, s[i].packet) in LogOf(keys, IndexOf(s))
    ensures forall x :: x in LogOf(keys, IndexOf(s)) ==>
      exists i :: FirstAnswer(s, i) && x == Line(s[i].reply, s[i].packet)
  {
    hide Line, IndexOf;
    var ix := IndexOf(s);
    StoredOncePerFlow(s);
    SupportedIndex(s);
    LogDistinct(keys, ix);
    LogContents(keys, ix);
    forall i | FirstAnswer(s, i) ensures Line(s[i].reply, s[i].packet) in LogOf(keys, ix) {
      StoredMeaning(s, s[i].reply);
      var j :| 0 <= j < |ix[s[i].reply]| && ix[s[i].reply][j] == s[i].packet;
    }
    forall x | x in LogOf(keys, ix) ensures exists i :: FirstAnswer(s, i) && x == Line(s[i].reply, s[i].packet) {
      var pid, j :| pid in keys && pid in ix && 0 <= j < |ix[pid]| && x == Line(pid, ix[pid][j]);
      StoredMeaning(s, pid);
      assert ix[pid][j] in ix[pid];
      var i :| FirstAnswer(s, i) && s[i].reply == pid && s[i].packet == ix[pid][j];
    }
  }

  lemma {:induction false} SupportedIndex(s: seq<Answer>)
    requires forall i :: 0 <= i < |s| ==> Supported(s[i].packet)
    ensures AllSupported(IndexOf(s))
  {
    var ix := IndexOf(s);
    forall pid, j | pid in ix && 0 <= j < |ix[pid]| ensures Supported(ix[pid][j]) {
      StoredMeaning(s, pid);
      var p := ix[pid][j];
      assert p in ix[pid];
      var i :| FirstAnswer(s, i) && s[i].reply == pid && s[i].packet == p;
      assert Supported(s[i].packet);
    }
  }

  // ----- writing and freeing -----

  lemma VectorView(m: PacketMap, pid: int, i: int)
    requires pid in m && 0 <= i < |m[pid]|
    ensures m[pid][i] in ObjectsOf(m) && ViewOf(m)[pid][i] == m[pid][i].info
  {
    StoredFlow(m, pid, i);
  }

  /** The packets of the vectors already gone through, and of the current one up to `n`. */
  ghost function Visited(m: PacketMap, keys: seq<int>, pid: int, n: nat): set<Packet> {
    set q, i | q in m && 0 <= i < |m[q]| && (q in keys || (q == pid && i < n)) :: m[q][i]
  }

  lemma VisitOne(m: PacketMap, keys: seq<int>, pid: int, n: nat)
    requires Unshared(m) && pid in m && pid !in keys && n < |m[pid]|
    ensures m[pid][n] !in Visited(m, keys, pid, n)
    ensures Visited(m, keys, pid, n + 1) == Visited(m, keys, pid, n) + {m[pid][n]}
  {}

  lemma VisitVector(m: PacketMap, keys: seq<int>, pid: int, next: int)
    requires pid in m && pid !in keys
    ensures Visited(m, keys + [pid], next, 0) == Visited(m, keys, pid, |m[pid]|)
  {
    assert forall q :: q in keys + [pid] <==> q in keys || q == pid;
  }

  /** The freed packets of the map are exactly those visited. */
  ghost predicate FreedAre(m: PacketMap, visited: set<Packet>)
    reads ObjectsOf(m)
  {
    forall p :: p in ObjectsOf(m) ==> (p.freed <==> p in visited)
  }

  /** The inner loop, over one pid's vector. */
  method SaveVector(m: PacketMap, ghost order: seq<int>, pid: int, before: seq<string>) returns (out: seq<string>)
    requires pid in m && pid !in order && Unshared(m) && FreedAre(m, Visited(m, order, pid, 0))
    modifies ObjectsOf(m)
    ensures FreedAre(m, Visited(m, order, pid, |m[pid]|))
    ensures out == before + LinesFor(pid, ViewOf(m)[pid])
  {
    hide Line, Visited, Unshared, ViewOf;
    out := before;
    var ps := m[pid];
    ghost var infos := ViewOf(m)[pid];
    var n := 0;
    while n < |ps|
      invariant 0 <= n <= |ps| == |infos| && FreedAre(m, Visited(m, order, pid, n))
      invariant out == before + LinesFor(pid, infos[..n])
    {
      VectorView(m, pid, n);
      VisitOne(m, order, pid, n);
      assert infos[..n + 1][..n] == infos[..n];
      out := out + [Line(pid, ps[n].info)];
      FreePacketInfo(ps[n]);
      n := n + 1;
    }
    assert infos[..n] == infos;
  }

  /** The nested loops over the map: nothing happens when the file does not open; otherwise the
      lines are the log in some iteration order and every packet of the map is freed, once. */
  method SavePacketMapToFile(pidToPcktMap: PidToPacketsInfoMap, fileOpens: bool)
    returns (out: seq<string>, ghost order: seq<int>)
    requires pidToPcktMap.Live() && Unshared(pidToPcktMap.packets)
    modifies ObjectsOf(pidToPcktMap.packets)
    ensures !fileOpens ==> out == [] && pidToPcktMap.Live()
    ensures fileOpens ==> forall p :: p in ObjectsOf(pidToPcktMap.packets) ==> p.freed
    ensures fileOpens ==>
      && Enumerates(order, pidToPcktMap.packets.Keys)
      && out == LogOf(order, ViewOf(pidToPcktMap.packets))
  {
    hide Line, Visited, Unshared, ViewOf, FreedAre, LogOf, LinesFor;
    out := [];
    order := [];
    if !fileOpens {
      return;
    }
    var m := pidToPcktMap.packets;
    var keys := m.Keys;
    NothingVisited(pidToPcktMap);
    assert LogOf(order, ViewOf(m)) == [] by { EmptyLog(ViewOf(m)); }
    while keys != {}
      invariant keys <= m.Keys && Enumerates(order, m.Keys - keys)
      invariant out == LogOf(order, ViewOf(m))
      invariant FreedAre(m, Visited(m, order, 0, 0))
      decreases |keys|
    {
      var pid := AnyKey(keys);
      LogOne(m, order, keys, pid);
      VisitNext(m, order, 0, pid);
      out := SaveVector(m, order, pid, out);
      VisitVector(m, order, pid, 0);
      keys := keys - {pid};
      order := order + [pid];
    }
    AllVisited(m, order);
  }

  lemma EmptyLog(ix: Index)
    ensures LogOf([], ix) == []
  {}

  lemma LogOne(m: PacketMap, order: seq<int>, keys: set<int>, pid: int)
    requires keys <= m.Keys && Enumerates(order, m.Keys - keys) && pid in keys
    ensures pid !in order && Enumerates(order + [pid], m.Keys - (keys - {pid}))
    ensures LogOf(order + [pid], ViewOf(m)) == LogOf(order, ViewOf(m)) + LinesFor(pid, ViewOf(m)[pid])
  {
    hide LinesFor, ViewOf;
    assert (order + [pid])[..|order|] == order;
  }

  lemma NothingVisited(pidToPcktMap: PidToPacketsInfoMap)
    requires pidToPcktMap.Live()
    ensures FreedAre(pidToPcktMap.packets, Visited(pidToPcktMap.packets, [], 0, 0))
  {}

  lemma VisitNext(m: PacketMap, keys: seq<int>, pid: int, next: int)
    ensures Visited(m, keys, pid, 0) == Visited(m, keys, next, 0)
  {}

  lemma AllVisited(m: PacketMap, keys: seq<int>)
    requires Enumerates(keys, m.Keys) && FreedAre(m, Visited(m, keys, 0, 0))
    ensures forall p :: p in ObjectsOf(m) ==> p.freed
  {
    forall p | p in ObjectsOf(m) ensures p.freed {
      var q, i :| q in m && 0 <= i < |m[q]| && m[q][i] == p;
      assert q in keys;
    }
  }

  method FreeVector(m: PacketMap, ghost order: seq<int>, pid: int)
    requires pid in m && pid !in order && Unshared(m) && FreedAre(m, Visited(m, order, pid, 0))
    modifies ObjectsOf(m)
    ensures FreedAre(m, Visited(m, order, pid, |m[pid]|))
  {
    hide Visited, Unshared, ViewOf;
    var ps := m[pid];
    var n := 0;
    while n < |ps|
      invariant 0 <= n <= |ps| && FreedAre(m, Visited(m, order, pid, n))
    {
      VectorView(m, pid, n);
      VisitOne(m, order, pid, n);
      FreePacketInfo(ps[n]);
      n := n + 1;
    }
  }

  /** The loops when the answer is no: every packet of the map is freed, once. */
  method FreePacketMap(pidToPcktMap: PidToPacketsInfoMap)
    requires pidToPcktMap.Live() && Unshared(pidToPcktMap.packets)
    modifies ObjectsOf(pidToPcktMap.packets)
    ensures forall p :: p in ObjectsOf(pidToPcktMap.packets) ==> p.freed
  {
    hide Visited, Unshared, ViewOf, FreedAre, LogOf, LinesFor;
    var m := pidToPcktMap.packets;
    var keys := m.Keys;
    ghost var order: seq<int> := [];
    NothingVisited(pidToPcktMap);
    while keys != {}
      invariant keys <= m.Keys && Enumerates(order, m.Keys - keys)
      invariant FreedAre(m, Visited(m, order, 0, 0))
      decreases |keys|
    {
      var pid := AnyKey(keys);
      LogOne(m, order, keys, pid);
      VisitNext(m, order, 0, pid);
      FreeVector(m, order, pid);
      VisitVector(m, order, pid, 0);
      keys := keys - {pid};
      order := order + [pid];
    }
    AllVisited(m, order);
  }
}
