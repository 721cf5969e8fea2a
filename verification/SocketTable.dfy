/** `parseListeningSockets`: /proc/net/tcp and /proc/net/udp lines to (inode, port) pairs. */
module SocketTable {
  import opened Packets
  import opened Text

  datatype SockEntry = SockEntry(inode: string, port: Port)

  /** An inode the parser can emit. */
  predicate InodeToken(s: string) { s != "" && AllDigits(s) && s != "0" }

  // ----- the regular expression -----
  //   \s*\d+:\s[0-9A-F]{8}:(\w{4})\s[0-9A-F]{8}:\w{4}\s(\w{2})

  /** The expression from its first colon on, with that colon at position `c`. */
  predicate TailAt(s: string, c: nat) {
    && c + 32 <= |s|
    && s[c] == ':' && IsSpace(s[c + 1])
    && AllUpperHex(s[c + 2..c + 10]) && s[c + 10] == ':'
    && AllWord(s[c + 11..c + 15]) && IsSpace(s[c + 15])
    && AllUpperHex(s[c + 16..c + 24]) && s[c + 24] == ':'
    && AllWord(s[c + 25..c + 29]) && IsSpace(s[c + 29])
    && AllWord(s[c + 30..c + 32])
  }

  /** The character class at each place of the tail, written out. */
  predicate TailClass(k: int, c: char) {
    if k == 0 || k == 10 || k == 24 then c == ':'
    else if k == 1 || k == 15 || k == 29 then c == ' ' || 9 <= c as int <= 13
    else if 2 <= k < 10 || 16 <= k < 24 then c in "0123456789ABCDEF"
    else
      c in "ABCDEFGHIJKLMNOPQRSTUVWXYZ" || c in "abcdefghijklmnopqrstuvwxyz" || c in "0123456789" || c == '_'
  }

  /** The tail is matched exactly when there are 32 characters and each is of its class. */
  lemma {:induction false} TailIsThePattern(s: string, c: nat, w: string)
    requires w == if c + 32 <= |s| then s[c..c + 32] else ""
    ensures TailAt(s, c) <==> |w| == 32 && forall k :: 0 <= k < |w| ==> TailClass(k, w[k])
  {
    if c + 32 <= |s| {
      TailOfWindow(s, c, w);
      TailByClass(w);
      hide TailAt, TailClass;
    }
  }

  lemma Slice(s: string, c: nat, w: string, a: nat, b: nat)
    requires c + 32 <= |s| && w == s[c..c + 32] && a <= b <= 32
    ensures s[c + a..c + b] == w[a..b]
  {
    assert forall i :: 0 <= i < b - a ==> w[a..b][i] == w[a + i] == s[c + (a + i)];
  }

  lemma TailOfWindow(s: string, c: nat, w: string)
    requires c + 32 <= |s| && w == s[c..c + 32]
    ensures TailAt(s, c) <==> TailAt(w, 0)
  {
    Slice(s, c, w, 2, 10);
    Slice(s, c, w, 11, 15);
    Slice(s, c, w, 16, 24);
    Slice(s, c, w, 25, 29);
    Slice(s, c, w, 30, 32);
    hide AllUpperHex, AllWord, IsSpace;
  }

  /** The class at a place, by the predicates. */
  predicate ClassHolds(k: int, c: char) {
    if k == 0 || k == 10 || k == 24 then c == ':'
    else if k == 1 || k == 15 || k == 29 then IsSpace(c)
    else if 2 <= k < 10 || 16 <= k < 24 then IsUpperHex(c)
    else IsWord(c)
  }

  lemma ClassText(k: int, c: char)
    ensures ClassHolds(k, c) <==> TailClass(k, c)
  {
    SpaceText(c);
    UpperHexText(c);
    WordText(c);
    hide IsUpperHex, IsWord;
  }

  lemma {:induction false} TailByClass(w: string)
    requires |w| == 32
    ensures TailAt(w, 0) <==> forall k :: 0 <= k < 32 ==> TailClass(k, w[k])
  {
    forall k | 0 <= k < 32 ensures ClassHolds(k, w[k]) <==> TailClass(k, w[k]) { ClassText(k, w[k]); }
    hide TailClass, IsSpace, IsUpperHex, IsWord;
    if TailAt(w, 0) {
      HexRunAt(w, 2, 10);
      HexRunAt(w, 16, 24);
      WordRunAt(w, 11, 15);
      WordRunAt(w, 25, 29);
      WordRunAt(w, 30, 32);
      assert forall k :: 0 <= k < 32 ==> ClassHolds(k, w[k]);
    }
    if forall k :: 0 <= k < 32 ==> ClassHolds(k, w[k]) {
      assert ClassHolds(0, w[0]) && ClassHolds(10, w[10]) && ClassHolds(24, w[24]);
      assert ClassHolds(1, w[1]) && ClassHolds(15, w[15]) && ClassHolds(29, w[29]);
      assert forall k :: 2 <= k < 10 || 16 <= k < 24 ==> ClassHolds(k, w[k]);
      assert forall k :: 11 <= k < 15 || 25 <= k < 29 || 30 <= k < 32 ==> ClassHolds(k, w[k]);
      HexRunAt(w, 2, 10);
      HexRunAt(w, 16, 24);
      WordRunAt(w, 11, 15);
      WordRunAt(w, 25, 29);
      WordRunAt(w, 30, 32);
    }
  }

  /** A run of characters, place by place. */
  lemma HexRunAt(w: string, a: nat, b: nat)
    requires a <= b <= |w|
    ensures AllUpperHex(w[a..b]) <==> forall k :: a <= k < b ==> IsUpperHex(w[k])
  {
    assert forall k :: a <= k < b ==> w[k] == w[a..b][k - a];
    hide IsUpperHex;
  }

  lemma WordRunAt(w: string, a: nat, b: nat)
    requires a <= b <= |w|
    ensures AllWord(w[a..b]) <==> forall k :: a <= k < b ==> IsWord(w[k])
  {
    assert forall k :: a <= k < b ==> w[k] == w[a..b][k - a];
    hide IsWord;
  }

  function SkipDigits(s: string, i: nat): (j: nat)
    requires i <= |s|
    ensures i <= j <= |s|
    ensures forall k :: i <= k < j ==> IsDigit(s[k])
    ensures j < |s| ==> !IsDigit(s[j])
    decreases |s| - i
  {
    if i < |s| && IsDigit(s[i]) then SkipDigits(s, i + 1) else i
  }

  /** Match at start offset `i`, taking both repetitions greedily; yields the colon's position. */
  function MatchAt(s: string, i: nat): Option<nat>
    requires i <= |s|
  {
    var a := SkipSpaces(s, i);
    var c := SkipDigits(s, a);
    if a < c && TailAt(s, c) then Some(c) else None
  }

  /** What the expression means: any split into blanks, at least one digit, and the tail. */
  ghost predicate Derives(s: string, i: nat, a: nat, c: nat) {
    && i <= a < c < |s|
    && (forall k :: i <= k < a ==> IsSpace(s[k]))
    && (forall k :: a <= k < c ==> IsDigit(s[k]))
    && TailAt(s, c)
  }

  /** Greedy matching loses nothing to backtracking, and no offset has two derivations. */
  lemma GreedyIsExact(s: string, i: nat)
    requires i <= |s|
    ensures MatchAt(s, i).Some? <==> exists a: nat, c: nat :: Derives(s, i, a, c)
    ensures forall a: nat, c: nat :: Derives(s, i, a, c) ==> MatchAt(s, i) == Some(c)
  {
    forall a: nat, c: nat | Derives(s, i, a, c) ensures MatchAt(s, i) == Some(c) {
      assert IsDigit(s[a]);
      SkipSpacesIs(s, i, a);
      assert !(SkipDigits(s, a) < c);
      assert !IsDigit(s[c]);
    }
    if MatchAt(s, i).Some? {
      assert Derives(s, i, SkipSpaces(s, i), SkipDigits(s, SkipSpaces(s, i)));
    }
  }

  /** `std::regex_search`: the leftmost start offset that matches. */
  function Search(s: string, i: nat): (r: Option<nat>)
    requires i <= |s|
    ensures r.Some? ==> TailAt(s, r.value)
    decreases |s| - i
  {
    if MatchAt(s, i).Some? then MatchAt(s, i)
    else if i == |s| then None
    else Search(s, i + 1)
  }

  /** The search succeeds exactly when some offset matches, and reports the first that does. */
  lemma {:induction false} SearchIsLeftmost(s: string, i: nat) returns (j: nat)
    requires i <= |s|
    ensures i <= j <= |s| && (forall k :: i <= k < j ==> MatchAt(s, k).None?)
    ensures MatchAt(s, j) == Search(s, i) && (Search(s, i).None? ==> j == |s|)
    decreases |s| - i
  {
    if MatchAt(s, i).Some? || i == |s| { j := i; } else { j := SearchIsLeftmost(s, i + 1); }
  }

  // ----- std::stoul(s, nullptr, 16) on word characters -----

  function SkipHex(s: string, i: nat): (j: nat)
    requires i <= |s|
    ensures i <= j <= |s|
    ensures forall k :: i <= k < j ==> IsHex(s[k])
    ensures j < |s| ==> !IsHex(s[j])
    decreases |s| - i
  {
    if i < |s| && IsHex(s[i]) then SkipHex(s, i + 1) else i
  }

  function HexRun(s: string): (r: string)
    ensures forall i :: 0 <= i < |r| ==> IsHex(r[i])
    ensures |r| <= |s|
  {
    s[..SkipHex(s, 0)]
  }

  /** The number at the front of `s`, after an optional 0x; throws when there is none. */
  function Stoul16(s: string): Outcome<nat> {
    if |s| >= 2 && s[0] == '0' && (s[1] == 'x' || s[1] == 'X') then Returns(HexValue(HexRun(s[2..])))
    else if s != "" && IsHex(s[0]) then Returns(HexValue(HexRun(s)))
    else Throws
  }

  /** On the strings: the longest run of hexadecimal digits counts, after 0x if there is one. */
  lemma StoulReads()
    ensures Stoul16("0050") == Returns(80) && Stoul16("00ff") == Returns(255) && Stoul16("0x1F") == Returns(31)
    ensures Stoul16("12G4") == Returns(18) && Stoul16("_050").Throws? && Stoul16("G000").Throws?
  {
    HexTwo('0', '0', '5', '0');
    HexTwo('0', '0', 'f', 'f');
    StoulPrefixed();
    StoulStops();
    hide HexValue, SkipHex;
  }

  lemma StoulPrefixed()
    ensures Stoul16("0x1F") == Returns(31)
  {
    assert "0x1F"[2..] == "1F" && SkipHex("1F", 0) == 2 && "1F"[..2] == "1F";
    ValueOfTwo('1', 'F');
  }

  lemma StoulStops()
    ensures Stoul16("12G4") == Returns(18)
  {
    assert SkipHex("12G4", 0) == 2 && "12G4"[..2] == "12";
    ValueOfTwo('1', '2');
  }

  lemma ValueOfTwo(a: char, b: char)
    requires IsHex(a) && IsHex(b)
    ensures HexValue([a, b]) == HexDigitValue(a) * 16 + HexDigitValue(b)
  {
    assert [a, b][..1] == [a] && [a][..0] == [];
    assert HexValue([a]) == HexDigitValue(a);
  }

  lemma HexTwo(a: char, b: char, c: char, d: char)
    requires IsHex(a) && IsHex(b) && IsHex(c) && IsHex(d) && a == '0' && b == '0'
    ensures Stoul16([a, b, c, d]) == Returns(HexDigitValue(c) * 16 + HexDigitValue(d))
  {
    var s := [a, b, c, d];
    assert SkipHex(s, 0) == 4 && s[..4] == s;
    assert s[..3] == [a, b, c] && [a, b, c][..2] == [a, b];
    ValueOfTwo(a, b);
    assert HexValue([a, b, c]) == HexDigitValue(c);
  }

  lemma {:induction false} Pow16Monotone(j: nat, k: nat)
    requires j <= k
    ensures Pow16(j) <= Pow16(k)
    decreases k
  {
    if j < k { Pow16Monotone(j, k - 1); }
  }

  /** The cast to `uint16_t` after a four-character capture drops nothing. */
  lemma CastKeepsPort(s: string)
    requires |s| == 4 && Stoul16(s).Returns?
    ensures Stoul16(s).value % 0x1_0000 == Stoul16(s).value
  {
    var r := if s[0] == '0' && (s[1] == 'x' || s[1] == 'X') then HexRun(s[2..]) else HexRun(s);
    HexBound(r);
    Pow16Monotone(|r|, 4);
    assert Pow16(4) == 0x1_0000 by { assert Pow16(2) == 256; }
  }

  // ----- one line -----

  /** The pair one line contributes, if any. A port that is no number throws. */
  function ParseLine(line: string, filter: Port): (r: Outcome<seq<SockEntry>>)
  {
    match Search(line, 0)
    case None => Returns([])
    case Some(c) =>
      match Stoul16(line[c + 11..c + 15])
      case Throws => Throws
      case Returns(v) =>
        var port: Port := v % 0x1_0000;
        if filter != 0 && port != filter then Returns([])
        else
          var ts := Tokens(line);
          if |ts| > 9 && InodeToken(ts[9]) then Returns([SockEntry(ts[9], port)])
          else Returns([])
  }

  /** A whole file, in order. */
  function ParseTable(lines: seq<string>, filter: Port): (r: Outcome<seq<SockEntry>>)
  {
    if lines == [] then Returns([])
    else
      match ParseTable(lines[..|lines| - 1], filter)
      case Throws => Throws
      case Returns(before) =>
        match ParseLine(lines[|lines| - 1], filter)
        case Throws => Throws
        case Returns(entry) => Returns(before + entry)
  }

  /** A line throws exactly when it matches and its captured port does not begin with a hex digit. */
  predicate LineThrows(line: string) {
    Search(line, 0).Some? && line[Search(line, 0).value + 11] !in "0123456789ABCDEFabcdef"
  }

  lemma HexText(c: char)
    ensures IsHex(c) <==> c in "0123456789ABCDEFabcdef"
  {}

  lemma LineThrowsIff(line: string, filter: Port)
    ensures ParseLine(line, filter).Throws? <==> LineThrows(line)
  {
    if Search(line, 0).Some? {
      var c := Search(line, 0).value;
      assert line[c + 11..c + 15][0] == line[c + 11];
      HexText(line[c + 11]);
    }
    hide Search, Tokens;
  }

  /** A table throws exactly when one of its lines does. */
  lemma {:induction false} TableThrowsIff(lines: seq<string>, filter: Port)
    ensures ParseTable(lines, filter).Throws? <==> exists i :: 0 <= i < |lines| && LineThrows(lines[i])
  {
    hide LineThrows, ParseLine;
    if lines != [] {
      var n := |lines| - 1;
      TableThrowsIff(lines[..n], filter);
      LineThrowsIff(lines[n], filter);
      assert forall i :: 0 <= i < n ==> lines[..n][i] == lines[i];
    }
  }

  predicate EntryFor(e: SockEntry, filter: Port) {
    InodeToken(e.inode) && (filter != 0 ==> e.port == filter)
  }

  /** Everything parsed is an inode token, and has the port asked for when one was. */
  lemma {:induction false} ParsedEntries(lines: seq<string>, filter: Port, e: SockEntry)
    requires ParseTable(lines, filter).Returns? && e in ParseTable(lines, filter).value
    ensures EntryFor(e, filter)
  {
    if lines != [] {
      var before := ParseTable(lines[..|lines| - 1], filter).value;
      if e in before {
        ParsedEntries(lines[..|lines| - 1], filter, e);
      } else {
        assert e in ParseLine(lines[|lines| - 1], filter).value;
      }
    }
  }

  lemma {:induction false} ThrowingPrefix(lines: seq<string>, n: nat, filter: Port)
    requires n <= |lines| && ParseTable(lines[..n], filter).Throws?
    ensures ParseTable(lines, filter).Throws?
    decreases |lines|
  {
    if n == |lines| {
      assert lines[..n] == lines;
    } else {
      assert lines[..|lines| - 1][..n] == lines[..n];
      ThrowingPrefix(lines[..|lines| - 1], n, filter);
    }
  }

  /** Whether a table parses does not depend on the port asked for. */
  lemma {:induction false} ThrowsWhateverThePort(lines: seq<string>, f: Port, g: Port)
    ensures ParseTable(lines, f).Throws? <==> ParseTable(lines, g).Throws?
  {
    if lines != [] { ThrowsWhateverThePort(lines[..|lines| - 1], f, g); }
  }

  lemma NextToken(line: string, pos: nat)
    requires pos <= |line|
    ensures SkipSpaces(line, pos) == |line| ==> TokensFrom(line, pos) == []
    ensures SkipSpaces(line, pos) < |line| ==>
      var start := SkipSpaces(line, pos);
      var end := SkipToken(line, start);
      end > start && TokensFrom(line, pos) == [line[start..end]] + TokensFrom(line, end)
  {}

  lemma TokenAt(before: seq<string>, token: string, rest: seq<string>)
    ensures (before + ([token] + rest))[|before|] == token
    ensures before + ([token] + rest) == (before + [token]) + rest
  {}

  /** The loop over the tokens of a matching line: the tenth one, if it is an inode. */
  method TenthField(line: string) returns (inode: Option<string>)
    ensures inode == if |Tokens(line)| > 9 && InodeToken(Tokens(line)[9])
                     then Some(Tokens(line)[9]) else None
  {
    inode := None;
    var pos, field := 0, 0;
    ghost var before: seq<string> := [];
    assert Tokens(line) == before + TokensFrom(line, 0);
    hide Tokens, TokensFrom, SkipSpaces, SkipToken;
    while SkipSpaces(line, pos) < |line|
      invariant 0 <= pos <= |line| && |before| == field <= 9 && inode == None
      invariant Tokens(line) == before + TokensFrom(line, pos)
      decreases |line| - pos
    {
      NextToken(line, pos);
      var start := SkipSpaces(line, pos);
      pos := SkipToken(line, start);
      var token := line[start..pos];
      TokenAt(before, token, TokensFrom(line, pos));
      if field == 9 {
        if token != "0" && AllDigits(token) {
          inode := Some(token);
        }
        return;
      }
      before := before + [token];
      field := field + 1;
    }
    NextToken(line, pos);
  }

  lemma OneMoreLine(lines: seq<string>, n: nat, filter: Port, before: seq<SockEntry>)
    requires n < |lines| && ParseTable(lines[..n], filter) == Returns(before)
    ensures ParseLine(lines[n], filter).Throws? ==> ParseTable(lines, filter).Throws?
    ensures ParseLine(lines[n], filter).Returns? ==>
      ParseTable(lines[..n + 1], filter) == Returns(before + ParseLine(lines[n], filter).value)
  {
    assert lines[..n + 1][..n] == lines[..n];
    if ParseLine(lines[n], filter).Throws? {
      ThrowingPrefix(lines, n + 1, filter);
    }
  }

  /** `parseListeningSockets` over the lines of a file. */
  method ParseListeningSockets(lines: seq<string>, filterPort: Port)
    returns (result: Outcome<seq<SockEntry>>)
    ensures result == ParseTable(lines, filterPort)
  {
    var entries: seq<SockEntry> := [];
    var n := 0;
    assert ParseTable(lines[..n], filterPort) == Returns(entries);
    hide ParseTable, Search, Stoul16, Tokens, InodeToken;
    while n < |lines|
      invariant 0 <= n <= |lines|
      invariant ParseTable(lines[..n], filterPort) == Returns(entries)
    {
      var line := lines[n];
      n := n + 1;
      OneMoreLine(lines, n - 1, filterPort, entries);
      assert entries + [] == entries;
      var found := Search(line, 0);
      if found.Some? {
        var portHex := line[found.value + 11..found.value + 15];
        var number := Stoul16(portHex);
        if number.Throws? {
          return Throws;
        }
        var port: Port := number.value % 0x1_0000;
        if filterPort != 0 && port != filterPort {
          continue;
        }
        var inode := TenthField(line);
        if inode.Some? {
          entries := entries + [SockEntry(inode.value, port)];
        }
      }
    }
    assert lines[..n] == lines;
    result := Returns(entries);
  }

  // ----- the kernel's own format -----

  datatype Cell = Cell(pad: nat, word: string)

  /** One row of the table: the columns the parser looks at, the five between the state and
      the inode as arbitrary words, and whatever follows the inode. */
  datatype Row = Row(
    indent: nat, slot: nat,
    localAddr: UInt32, localPort: Port, remAddr: UInt32, remPort: Port, state: nat,
    queues: Cell, timer: Cell, retransmits: Cell, uid: Cell, timeout: Cell,
    inode: nat, trailing: string)

  predicate CellOk(c: Cell) {
    c.pad > 0 && Token(c.word) && c.word[|c.word| - 1] != ':'
  }

  predicate RowOk(r: Row) {
    && CellOk(r.queues) && CellOk(r.timer) && CellOk(r.retransmits)
    && CellOk(r.uid) && CellOk(r.timeout)
    && (r.trailing != "" ==> IsSpace(r.trailing[0])) && ':' !in r.trailing
  }

  function Endpoint(addr: UInt32, port: Port): (s: string)
    ensures |s| == 13 && NoSpaces(s)
    ensures s[..8] == Hex(addr, 8) && s[8] == ':' && s[9..] == Hex(port, 4)
  {
    Hex(addr, 8) + ":" + Hex(port, 4)
  }

  /** The columns from the state on. */
  function StateColumns(r: Row): Layout {
    Padded(1, Hex(r.state, 2),
    Padded(r.queues.pad, r.queues.word, Padded(r.timer.pad, r.timer.word,
    Padded(r.retransmits.pad, r.retransmits.word, Padded(r.uid.pad, r.uid.word,
    Padded(r.timeout.pad, r.timeout.word, Padded(1, Decimal(r.inode), End)))))))
  }

  function AddressColumns(r: Row): Layout {
    Padded(1, Endpoint(r.localAddr, r.localPort),
    Padded(1, Endpoint(r.remAddr, r.remPort), StateColumns(r)))
  }

  function Columns(r: Row): Layout {
    Padded(r.indent, Decimal(r.slot) + ":", AddressColumns(r))
  }

  function PrintRow(r: Row): string { Join(Columns(r)) + r.trailing }

  /** Where the colon after the slot number is. */
  function SlotColon(r: Row): nat { r.indent + |Decimal(r.slot)| }

  // No colon after the slot's is followed by a blank.

  predicate NoColonBlank(s: string) {
    forall j :: 0 <= j < |s| - 1 && s[j] == ':' ==> !IsSpace(s[j + 1])
  }

  lemma NoColonBlankConcat(s: string, t: string)
    requires NoColonBlank(s) && NoColonBlank(t) && (s == "" || s[|s| - 1] != ':')
    ensures NoColonBlank(s + t)
  {
    forall j | 0 <= j < |s + t| - 1 && (s + t)[j] == ':' ensures !IsSpace((s + t)[j + 1]) {
      if j >= |s| { assert t[j - |s|] == ':'; } else { assert s[j] == ':'; }
    }
  }

  predicate CleanWords(t: Layout) {
    t.Padded? ==> Token(t.word) && t.word[|t.word| - 1] != ':' && CleanWords(t.rest)
  }

  lemma {:induction false} CleanJoin(t: Layout, tail: string)
    requires CleanWords(t) && ':' !in tail
    ensures NoColonBlank(Join(t) + tail)
    decreases t
  {
    match t
    case End =>
      assert Join(t) + tail == tail;
    case Padded(pad, word, rest) =>
      CleanJoin(rest, tail);
      NoColonBlankConcat(word, Join(rest) + tail);
      SpacesHaveNoColon(pad);
      NoColonBlankConcat(Spaces(pad), word + (Join(rest) + tail));
      assert Spaces(pad) + (word + (Join(rest) + tail)) == Join(t) + tail;
  }

  lemma SpacesHaveNoColon(n: nat)
    ensures ':' !in Spaces(n)
  {
    assert !IsSpace(':');
    assert forall i :: 0 <= i < n ==> IsSpace(Spaces(n)[i]);
  }

  /** The only colon of a printed row that a blank follows is the slot's. */
  lemma OnlySlotColon(r: Row, c: nat)
    requires RowOk(r)
    requires c + 1 < |PrintRow(r)| && PrintRow(r)[c] == ':' && IsSpace(PrintRow(r)[c + 1])
    ensures c == SlotColon(r)
  {
    var rest := Join(AddressColumns(r)) + r.trailing;
    var front := Spaces(r.indent) + Decimal(r.slot);
    var line := PrintRow(r);
    assert line == front + (":" + rest);
    assert ':' !in r.trailing;
    AddressesAreClean(r);
    hide RowOk, Join, AddressColumns, NoColonBlank, CleanWords;
    CleanJoin(AddressColumns(r), r.trailing);
    FirstColonBlank(front, rest, c);
  }

  lemma FirstColonBlank(front: string, rest: string, c: nat)
    requires NoColonBlank(rest) && (forall k :: 0 <= k < |front| ==> front[k] != ':')
    requires c + 1 < |front + (":" + rest)|
    requires (front + (":" + rest))[c] == ':' && IsSpace((front + (":" + rest))[c + 1])
    ensures c == |front|
  {
    var line := front + (":" + rest);
    assert forall k :: |front| < k < |line| ==> line[k] == rest[k - |front| - 1];
    assert !(c > |front|);
  }

  lemma AddressesAreClean(r: Row)
    requires RowOk(r)
    ensures CleanWords(AddressColumns(r)) && Separated(AddressColumns(r)) && Separated(Columns(r))
  {
    var l, m := Endpoint(r.localAddr, r.localPort), Endpoint(r.remAddr, r.remPort);
    assert l[12] == l[9..][3] && m[12] == m[9..][3];
    var identity := Padded(r.timeout.pad, r.timeout.word, Padded(1, Decimal(r.inode), End));
    assert CleanWords(identity) && Separated(identity);
    var counters := Padded(r.retransmits.pad, r.retransmits.word,
      Padded(r.uid.pad, r.uid.word, identity));
    assert CleanWords(counters) && Separated(counters);
    var state := Padded(r.queues.pad, r.queues.word, Padded(r.timer.pad, r.timer.word, counters));
    assert CleanWords(state) && Separated(state);
    assert CleanWords(StateColumns(r)) && Separated(StateColumns(r));
    assert !IsSpace(':') && NoSpaces(Decimal(r.slot) + ":");
  }

  lemma EndpointAt(s: string, i: nat, addr: UInt32, port: Port)
    requires At(s, i, Endpoint(addr, port))
    ensures AllUpperHex(s[i..i + 8]) && s[i + 8] == ':'
    ensures s[i + 9..i + 13] == Hex(port, 4) && AllWord(s[i + 9..i + 13])
  {
    var e := s[i..i + 13];
    assert s[i..i + 8] == e[..8] && s[i + 9..i + 13] == e[9..] && s[i + 8] == e[8];
  }

  lemma SpaceAt(s: string, i: nat)
    requires At(s, i, Spaces(1))
    ensures i < |s| && IsSpace(s[i])
  {
    assert s[i] == s[i..i + 1][0];
  }

  /** Where the columns of a printed row sit. */
  lemma ColumnsAt(r: Row)
    requires RowOk(r)
    ensures SlotColon(r) < |PrintRow(r)| && PrintRow(r)[SlotColon(r)] == ':'
    ensures Derives(PrintRow(r), 0, r.indent, SlotColon(r))
    ensures PrintRow(r)[SlotColon(r) + 11..SlotColon(r) + 15] == Hex(r.localPort, 4)
  {
    hide Join, TailAt, AddressColumns, Columns, RowOk, Hex;
    var line, c := PrintRow(r), SlotColon(r);
    FrontOf(Join(Columns(r)), r.trailing);
    FrontAt(line, r);
    hide PrintRow;
    AddressesAt(line, c + 1, r);
  }

  lemma FrontOf(s: string, t: string)
    ensures At(s + t, 0, s)
  {}

  lemma FrontAt(s: string, r: Row)
    requires At(s, 0, Join(Columns(r)))
    ensures SlotColon(r) < |s| && s[SlotColon(r)] == ':' && At(s, SlotColon(r) + 1, Join(AddressColumns(r)))
    ensures forall k :: 0 <= k < r.indent ==> IsSpace(s[k])
    ensures forall k :: r.indent <= k < SlotColon(r) ==> IsDigit(s[k])
  {
    hide Join, AddressColumns;
    JoinAt(s, 0, Columns(r));
    SlotAt(s, r.indent, r.slot);
  }

  lemma AddressesAt(s: string, i: nat, r: Row)
    requires 0 < i <= |s| && s[i - 1] == ':' && At(s, i, Join(AddressColumns(r)))
    ensures TailAt(s, i - 1) && s[i + 10..i + 14] == Hex(r.localPort, 4)
  {
    JoinAt(s, i, AddressColumns(r));
    JoinAt(s, i + 14, AddressColumns(r).rest);
    JoinAt(s, i + 28, StateColumns(r));
    SpaceAt(s, i);
    SpaceAt(s, i + 14);
    SpaceAt(s, i + 28);
    EndpointAt(s, i + 1, r.localAddr, r.localPort);
    EndpointAt(s, i + 15, r.remAddr, r.remPort);
  }

  lemma SlotAt(s: string, indent: nat, slot: nat)
    requires At(s, 0, Spaces(indent)) && At(s, indent, Decimal(slot) + ":")
    ensures forall k :: 0 <= k < indent ==> IsSpace(s[k])
    ensures forall k :: indent <= k < indent + |Decimal(slot)| ==> IsDigit(s[k])
    ensures s[indent + |Decimal(slot)|] == ':'
  {
    var word := Decimal(slot) + ":";
    forall k | 0 <= k < indent ensures IsSpace(s[k]) { assert s[k] == s[0..indent][k]; }
    forall k | indent <= k < indent + |Decimal(slot)| ensures IsDigit(s[k]) {
      assert s[k] == s[indent..indent + |word|][k - indent];
    }
    assert s[indent + |Decimal(slot)|] == s[indent..indent + |word|][|Decimal(slot)|];
  }

  /** On a printed row every start offset that matches at all captures the same columns. */
  lemma EveryOffsetAgrees(r: Row, i: nat)
    requires RowOk(r) && i <= |PrintRow(r)|
    ensures MatchAt(PrintRow(r), 0) == Some(SlotColon(r))
    ensures MatchAt(PrintRow(r), i).Some? ==> MatchAt(PrintRow(r), i) == Some(SlotColon(r))
  {
    hide PrintRow, RowOk, SlotColon, Derives, MatchAt;
    ColumnsAt(r);
    var line := PrintRow(r);
    DerivedMatch(line, 0, r.indent, SlotColon(r));
    if MatchAt(line, i).Some? {
      MatchHasTail(line, i);
      OnlySlotColon(r, MatchAt(line, i).value);
    }
  }

  lemma MatchHasTail(s: string, i: nat)
    requires i <= |s| && MatchAt(s, i).Some?
    ensures TailAt(s, MatchAt(s, i).value)
  {}

  lemma DerivedMatch(s: string, i: nat, a: nat, c: nat)
    requires i <= |s| && Derives(s, i, a, c)
    ensures MatchAt(s, i) == Some(c)
  {
    GreedyIsExact(s, i);
  }

  lemma TenthWord(r: Row)
    requires RowOk(r)
    ensures |Tokens(PrintRow(r))| > 9 && Tokens(PrintRow(r))[9] == Decimal(r.inode)
  {
    var line := PrintRow(r);
    assert At(line, 0, Join(Columns(r)));
    assert r.trailing != "" ==> line[|Join(Columns(r))|] == r.trailing[0];
    AddressesAreClean(r);
    TokensOfJoin(line, 0, Columns(r));
    TenColumns(r);
  }

  lemma TenColumns(r: Row)
    ensures |Words(Columns(r))| == 10 && Words(Columns(r))[9] == Decimal(r.inode)
  {
    var identity := Padded(r.timeout.pad, r.timeout.word, Padded(1, Decimal(r.inode), End));
    assert Words(identity.rest) == [Decimal(r.inode)];
    assert Words(identity) == [r.timeout.word, Decimal(r.inode)];
    var counters := Padded(r.retransmits.pad, r.retransmits.word,
      Padded(r.uid.pad, r.uid.word, identity));
    assert Words(counters) == [r.retransmits.word, r.uid.word] + Words(identity);
    var state := Padded(r.queues.pad, r.queues.word, Padded(r.timer.pad, r.timer.word, counters));
    assert Words(state) == [r.queues.word, r.timer.word] + Words(counters);
    assert |Words(StateColumns(r))| == 7 && Words(StateColumns(r))[6] == Decimal(r.inode);
    assert Words(AddressColumns(r)) == [Endpoint(r.localAddr, r.localPort),
      Endpoint(r.remAddr, r.remPort)] + Words(StateColumns(r));
  }

  lemma HexPortParses(port: Port)
    ensures Stoul16(Hex(port, 4)) == Returns(port)
  {
    var s := Hex(port, 4);
    assert IsUpperHex(s[0]) && IsUpperHex(s[1]);
    assert SkipHex(s, 0) == 4;
    assert s[..4] == s;
    assert Pow16(2) == 256;
    HexRoundTrip(port, 4);
  }

  /** Round trip: a printed row yields exactly its inode and local port. */
  lemma RowRoundTrip(r: Row, filter: Port)
    requires RowOk(r)
    ensures ParseLine(PrintRow(r), filter) ==
      Returns(if r.inode != 0 && (filter == 0 || r.localPort == filter)
              then [SockEntry(Decimal(r.inode), r.localPort)] else [])
  {
    hide RowOk, PrintRow, ParseLine, Tokens, Stoul16, Hex;
    EveryOffsetAgrees(r, 0);
    ColumnsAt(r);
    HexPortParses(r.localPort);
    TenthWord(r);
    LineCases(PrintRow(r), filter, SlotColon(r), r.localPort, Decimal(r.inode));
  }

  lemma LineCases(line: string, filter: Port, c: nat, port: Port, inode: string)
    requires Search(line, 0) == Some(c) && c + 32 <= |line|
    requires Stoul16(line[c + 11..c + 15]) == Returns(port)
    requires |Tokens(line)| > 9 && Tokens(line)[9] == inode && inode != "" && AllDigits(inode)
    ensures ParseLine(line, filter) ==
      Returns(if inode != "0" && (filter == 0 || port == filter)
              then [SockEntry(inode, port)] else [])
  {}

  /** The entries a table of rows stands for. */
  function Listed(rows: seq<Row>, filter: Port): seq<SockEntry> {
    if rows == [] then []
    else
      var r := rows[|rows| - 1];
      Listed(rows[..|rows| - 1], filter) +
      if r.inode != 0 && (filter == 0 || r.localPort == filter)
      then [SockEntry(Decimal(r.inode), r.localPort)] else []
  }

  function PrintTable(header: string, rows: seq<Row>): seq<string> {
    if rows == [] then [header]
    else PrintTable(header, rows[..|rows| - 1]) + [PrintRow(rows[|rows| - 1])]
  }

  lemma HeaderIsSkipped(header: string)
    requires ':' !in header
    ensures Search(header, 0) == None
  {
    assert forall c: nat :: TailAt(header, c) ==> header[c] in header;
  }

  lemma SingleLine(line: string, filter: Port)
    requires ParseLine(line, filter) == Returns([])
    ensures ParseTable([line], filter) == Returns([])
  {
    var lines := [line];
    assert lines[..|lines| - 1] == [] && lines[|lines| - 1] == line;
    var none: seq<SockEntry> := [];
    assert ParseTable(lines[..|lines| - 1], filter) == Returns(none);
    assert none + none == none;
  }

  /** A whole printed file parses to the ordered, filtered list of its rows. */
  lemma {:induction false} TableRoundTrip(header: string, rows: seq<Row>, filter: Port)
    requires ':' !in header
    requires forall i :: 0 <= i < |rows| ==> RowOk(rows[i])
    ensures ParseTable(PrintTable(header, rows), filter) == Returns(Listed(rows, filter))
  {
    var lines := PrintTable(header, rows);
    if rows == [] {
      HeaderIsSkipped(header);
      SingleLine(header, filter);
    } else {
      TableRoundTrip(header, rows[..|rows| - 1], filter);
      assert lines[..|lines| - 1] == PrintTable(header, rows[..|rows| - 1]);
      RowRoundTrip(rows[|rows| - 1], filter);
    }
  }

  // ----- the rows the kernel prints are among them -----

  function RightAligned(s: string, width: nat): Cell {
    Cell(if |s| < width then 1 + width - |s| else 1, s)
  }

  /** A row of numbers, in the widths of Linux's `get_tcp4_sock` and `udp4_format_sock`. */
  function KernelRow(
    indent: nat, slot: nat, localAddr: UInt32, localPort: Port, remAddr: UInt32, remPort: Port,
    state: nat, txQueue: nat, rxQueue: nat, timer: nat, expires: nat, retransmits: nat,
    uid: nat, timeout: nat, inode: nat, details: string): Row
  {
    Row(indent, slot, localAddr, localPort, remAddr, remPort, state,
      Cell(1, Hex(txQueue, 8) + ":" + Hex(rxQueue, 8)),
      Cell(1, Hex(timer, 2) + ":" + Hex(expires, 8)),
      Cell(1, Hex(retransmits, 8)),
      RightAligned(Decimal(uid), 5), RightAligned(Decimal(timeout), 8),
      inode, " " + details)
  }

  lemma PairCell(m: nat, j: nat, n: nat, k: nat)
    requires k > 0
    ensures CellOk(Cell(1, Hex(m, j) + ":" + Hex(n, k)))
  {
    var w := Hex(m, j) + ":" + Hex(n, k);
    assert w[|w| - 1] == Hex(n, k)[k - 1];
    assert !IsSpace(':');
  }

  lemma KernelRowOk(
    indent: nat, slot: nat, localAddr: UInt32, localPort: Port, remAddr: UInt32, remPort: Port,
    state: nat, txQueue: nat, rxQueue: nat, timer: nat, expires: nat, retransmits: nat,
    uid: nat, timeout: nat, inode: nat, details: string)
    requires ':' !in details
    ensures RowOk(KernelRow(indent, slot, localAddr, localPort, remAddr, remPort, state, txQueue,
      rxQueue, timer, expires, retransmits, uid, timeout, inode, details))
  {
    PairCell(txQueue, 8, rxQueue, 8);
    PairCell(timer, 2, expires, 8);
    assert Hex(retransmits, 8)[7] in Hex(retransmits, 8);
  }
}
