/** `findPidBySockInode`: from a socket inode to the first process that holds it. */
module SocketOwner {
  import opened Packets
  import opened Text
  import opened SocketTable

  /** What `/proc/<pid>/fd` shows: no folder, or links, of which one is absent when `read_symlink`
      fails. When `fails`, opening or reading the folder throws, after those links. */
  datatype FdFolder = NoFolder | Folder(links: seq<Option<string>>, fails: bool)

  /** One entry of /proc in directory order. */
  datatype ProcDir = ProcDir(name: string, isDirectory: bool, fds: FdFolder)

  const INT_MAX := 0x7FFF_FFFF

  const PREFIX := "socket:["

  predicate Contains(s: string, t: string) {
    exists k :: 0 <= k <= |s| && At(s, k, t)
  }

  /** `link.size() - 9` in 64-bit unsigned arithmetic. */
  function SizeMinusNine(n: nat): nat {
    if n >= 9 then n - 9 else n - 9 + 0x1_0000_0000_0000_0000
  }

  /** `std::string::substr` from a position inside the string. */
  function Substr(s: string, pos: nat, count: nat): string
    requires pos <= |s|
  {
    if pos + count <= |s| then s[pos..pos + count] else s[pos..]
  }

  /** The code's test: the prefix anywhere, and a slice at fixed offsets. */
  predicate LinkMatches(link: string, inode: string) {
    Contains(link, PREFIX) && Substr(link, 8, SizeMinusNine(|link|)) == inode
  }

  /** What the test is meant to accept. */
  predicate SocketLink(link: string, inode: string) {
    && |link| == 9 + |inode|
    && link[..8] == PREFIX
    && link[8..8 + |inode|] == inode
  }

  /** For every inode the parser can emit, the loose test accepts exactly the socket links. */
  lemma {:induction false} LinkTestIsExact(link: string, inode: string)
    requires InodeToken(inode)
    ensures LinkMatches(link, inode) <==> SocketLink(link, inode)
  {
    if SocketLink(link, inode) {
      assert At(link, 0, PREFIX);
    }
    if LinkMatches(link, inode) {
      var k :| 0 <= k <= |link| && At(link, k, PREFIX);
      assert |link| > 9 && link[8..|link| - 1] == inode;
      // Past the front, the bracket would be a digit of the inode, or the colon before it.
      assert |PREFIX| == 8 && PREFIX[7] == '[' && PREFIX[6] == ':';
      assert link[k..k + 8] == PREFIX;
      assert link[k..k + 8][7] == '[' && link[k..k + 8][6] == ':';
      assert forall j :: 8 <= j < |link| - 1 ==> IsDigit(link[j]) by {
        forall j | 8 <= j < |link| - 1 ensures IsDigit(link[j]) {
          assert link[j] == link[8..|link| - 1][j - 8];
        }
      }
      assert k == 0;
    }
  }

  predicate HoldsLink(links: seq<Option<string>>, inode: string) {
    exists i :: 0 <= i < |links| && links[i].Some? && LinkMatches(links[i].value, inode)
  }

  /** The directory is a process with its fd folder, and one of its links is the socket's. */
  predicate Owns(dir: ProcDir, inode: string) {
    dir.isDirectory && AllDigits(dir.name) && dir.fds.Folder? && HoldsLink(dir.fds.links, inode)
  }

  function PidOf(dir: ProcDir): nat
    requires AllDigits(dir.name)
  {
    DecimalValue(dir.name)
  }

  /** The pid of the first owner in directory order, or -1. */
  function FindPid(dirs: seq<ProcDir>, inode: string): int {
    if dirs == [] then UNKNOWN_PID
    else if Owns(dirs[0], inode) then PidOf(dirs[0])
    else FindPid(dirs[1..], inode)
  }

  /** -1 exactly when nobody owns the socket; otherwise the first owner. */
  lemma {:induction false} FindPidIsFirstOwner(dirs: seq<ProcDir>, inode: string)
    ensures FindPid(dirs, inode) == UNKNOWN_PID <==>
      forall i :: 0 <= i < |dirs| ==> !Owns(dirs[i], inode)
    ensures FindPid(dirs, inode) != UNKNOWN_PID ==>
      exists i :: 0 <= i < |dirs| && Owns(dirs[i], inode) && PidOf(dirs[i]) == FindPid(dirs, inode)
        && forall j :: 0 <= j < i ==> !Owns(dirs[j], inode)
  {
    if dirs != [] && !Owns(dirs[0], inode) {
      FindPidIsFirstOwner(dirs[1..], inode);
      if FindPid(dirs[1..], inode) != UNKNOWN_PID {
        var i :| 0 <= i < |dirs[1..]| && Owns(dirs[1..][i], inode)
          && PidOf(dirs[1..][i]) == FindPid(dirs[1..], inode)
          && forall j :: 0 <= j < i ==> !Owns(dirs[1..][j], inode);
        assert Owns(dirs[i + 1], inode);
        forall j | 0 <= j < i + 1 ensures !Owns(dirs[j], inode) {
          if j > 0 { assert dirs[1..][j - 1] == dirs[j]; }
        }
      } else {
        forall j | 0 <= j < |dirs| ensures !Owns(dirs[j], inode) {
          if j > 0 { assert dirs[1..][j - 1] == dirs[j]; }
        }
      }
    }
  }

  /** The process is the first in directory order to hold the socket. */
  predicate FirstHolder(dirs: seq<ProcDir>, inode: string, pid: int) {
    exists d :: 0 <= d < |dirs| && Owns(dirs[d], inode) && PidOf(dirs[d]) == pid
      && forall c :: 0 <= c < d ==> !Owns(dirs[c], inode)
  }

  lemma FindPidIsFirstHolder(dirs: seq<ProcDir>, inode: string, pid: int)
    ensures FirstHolder(dirs, inode, pid) <==> pid != UNKNOWN_PID && FindPid(dirs, inode) == pid
  {
    FindPidIsFirstOwner(dirs, inode);
  }

  // ----- on the strings themselves -----

  /** A process directory with a readable descriptor, anywhere among its links, for the socket. */
  ghost predicate HasDescriptor(dir: ProcDir, inode: string) {
    && dir.isDirectory && (forall c :: c in dir.name ==> c in "0123456789") && dir.fds.Folder?
    && exists i :: 0 <= i < |dir.fds.links| && IsDescriptorOf(dir.fds.links[i], inode)
  }

  /** The link reads socket:[, the inode, and one more character. */
  ghost predicate IsDescriptorOf(link: Option<string>, inode: string) {
    link.Some? && exists last: char :: link.value == "socket:[" + inode + [last]
  }

  lemma {:induction false} SocketLinkText(link: string, inode: string)
    ensures SocketLink(link, inode) <==> exists last: char :: link == "socket:[" + inode + [last]
  {
    if SocketLink(link, inode) {
      var last := link[|link| - 1];
      assert link == link[..8] + link[8..8 + |inode|] + [last];
      assert link == "socket:[" + inode + [last];
    }
    if last: char :| link == "socket:[" + inode + [last] {
      assert |"socket:["| == 8 && link[..8] == "socket:[" && link[8..8 + |inode|] == inode;
    }
  }

  lemma {:induction false} DigitsText(s: string)
    ensures AllDigits(s) <==> forall c :: c in s ==> c in "0123456789"
  {
    forall c ensures IsDigit(c) <==> c in "0123456789" { DigitText(c); }
  }

  lemma {:induction false} OwnsText(dir: ProcDir, inode: string)
    requires InodeToken(inode)
    ensures Owns(dir, inode) <==> HasDescriptor(dir, inode)
  {
    DigitsText(dir.name);
    hide LinkMatches, SocketLink;
    if dir.fds.Folder? {
      forall i | 0 <= i < |dir.fds.links| && dir.fds.links[i].Some?
        ensures LinkMatches(dir.fds.links[i].value, inode) <==> IsDescriptorOf(dir.fds.links[i], inode)
      {
        LinkTestIsExact(dir.fds.links[i].value, inode);
        SocketLinkText(dir.fds.links[i].value, inode);
      }
    }
  }

  /** The first directory with such a descriptor. */
  ghost predicate FirstWithDescriptor(dirs: seq<ProcDir>, inode: string, i: int) {
    0 <= i < |dirs| && HasDescriptor(dirs[i], inode) && forall j :: 0 <= j < i ==> !HasDescriptor(dirs[j], inode)
  }

  /** Who is found: for any inode the parser emits, the first directory with such a descriptor, and
      nobody exactly when there is none. */
  lemma {:induction false} FindPidOnStrings(dirs: seq<ProcDir>, inode: string)
    requires inode != "" && inode != "0" && forall c :: c in inode ==> c in "0123456789"
    ensures FindPid(dirs, inode) == -1 <==> forall i :: 0 <= i < |dirs| ==> !HasDescriptor(dirs[i], inode)
    ensures forall i :: FirstWithDescriptor(dirs, inode, i) ==>
      AllDigits(dirs[i].name) && FindPid(dirs, inode) == DecimalValue(dirs[i].name)
  {
    DigitsText(inode);
    FindPidIsFirstOwner(dirs, inode);
    forall i | 0 <= i < |dirs| ensures Owns(dirs[i], inode) <==> HasDescriptor(dirs[i], inode) {
      OwnsText(dirs[i], inode);
    }
    hide HasDescriptor, FindPid;
    forall i | FirstWithDescriptor(dirs, inode, i)
      ensures AllDigits(dirs[i].name) && FindPid(dirs, inode) == DecimalValue(dirs[i].name)
    {
      var k :| 0 <= k < |dirs| && Owns(dirs[k], inode) && PidOf(dirs[k]) == FindPid(dirs, inode)
        && forall j :: 0 <= j < k ==> !Owns(dirs[j], inode);
      assert k == i;
    }
  }

  // ----- exceptions -----

  /** `std::stoi` of the directory's name. */
  predicate NumberThrows(dir: ProcDir)
    requires AllDigits(dir.name)
  {
    dir.name == "" || PidOf(dir) > INT_MAX
  }

  /** Looking at the directory throws: its number is wanted and no int, or its folder fails before
      the socket has been found in it. */
  predicate VisitThrows(dir: ProcDir, inode: string) {
    && dir.isDirectory && AllDigits(dir.name) && dir.fds.Folder?
    && if HoldsLink(dir.fds.links, inode) then NumberThrows(dir) else dir.fds.fails
  }

  predicate WalkThrows(dirs: seq<ProcDir>, inode: string) {
    dirs != [] && (VisitThrows(dirs[0], inode) || (!Owns(dirs[0], inode) && WalkThrows(dirs[1..], inode)))
  }

  /** The whole function. */
  function OwnerOf(dirs: seq<ProcDir>, inode: string): Outcome<int> {
    if WalkThrows(dirs, inode) then Throws else Returns(FindPid(dirs, inode))
  }

  /** It throws exactly when some directory does, and none before it owns the socket. */
  lemma {:induction false} ThrowsBeforeOwner(dirs: seq<ProcDir>, inode: string)
    ensures WalkThrows(dirs, inode) <==>
      exists i :: 0 <= i < |dirs| && VisitThrows(dirs[i], inode) && forall j :: 0 <= j < i ==> !Owns(dirs[j], inode)
  {
    if dirs != [] {
      var rest := dirs[1..];
      ThrowsBeforeOwner(rest, inode);
      if WalkThrows(dirs, inode) && !VisitThrows(dirs[0], inode) {
        var i :| 0 <= i < |rest| && VisitThrows(rest[i], inode) && forall j :: 0 <= j < i ==> !Owns(rest[j], inode);
        assert dirs[i + 1] == rest[i];
        forall j | 0 <= j < i + 1 ensures !Owns(dirs[j], inode) {
          if j > 0 { assert rest[j - 1] == dirs[j]; }
        }
      }
      if i :| 0 <= i < |dirs| && VisitThrows(dirs[i], inode) && forall j :: 0 <= j < i ==> !Owns(dirs[j], inode) {
        if i > 0 {
          assert rest[i - 1] == dirs[i];
          assert forall j :: 0 <= j < i - 1 ==> rest[j] == dirs[j + 1];
        }
      }
    }
  }

  /** On the strings: the directory that throws is a process directory; if it has such a descriptor its
      number is missing or above 2147483647, and if not its folder fails. */
  lemma {:induction false} ThrowsOnStrings(dirs: seq<ProcDir>, inode: string)
    requires inode != "" && inode != "0" && forall c :: c in inode ==> c in "0123456789"
    ensures WalkThrows(dirs, inode) <==>
      exists i ::
        && 0 <= i < |dirs| && dirs[i].isDirectory && AllDigits(dirs[i].name) && dirs[i].fds.Folder?
        && (if HasDescriptor(dirs[i], inode)
            then dirs[i].name == "" || DecimalValue(dirs[i].name) > 2147483647 else dirs[i].fds.fails)
        && forall j :: 0 <= j < i ==> !HasDescriptor(dirs[j], inode)
  {
    DigitsText(inode);
    ThrowsBeforeOwner(dirs, inode);
    forall i | 0 <= i < |dirs| ensures Owns(dirs[i], inode) <==> HasDescriptor(dirs[i], inode) {
      OwnsText(dirs[i], inode);
    }
    hide HasDescriptor, WalkThrows, HoldsLink;
  }

  /** The directory can be looked at for any socket without an exception. */
  predicate Readable(dir: ProcDir) {
    dir.isDirectory && AllDigits(dir.name) ==> !NumberThrows(dir) && (dir.fds.Folder? ==> !dir.fds.fails)
  }

  lemma {:induction false} ReadableWalks(dirs: seq<ProcDir>, inode: string)
    requires forall i :: 0 <= i < |dirs| ==> Readable(dirs[i])
    ensures OwnerOf(dirs, inode) == Returns(FindPid(dirs, inode))
  {
    if dirs != [] {
      assert Readable(dirs[0]);
      assert forall i :: 0 <= i < |dirs[1..]| ==> dirs[1..][i] == dirs[i + 1];
      ReadableWalks(dirs[1..], inode);
    }
  }

  /** The two nested directory loops. */
  method FindPidBySockInode(dirs: seq<ProcDir>, sockInode: string) returns (pid: Outcome<int>)
    ensures pid == OwnerOf(dirs, sockInode)
  {
    var d := 0;
    while d < |dirs|
      invariant 0 <= d <= |dirs|
      invariant OwnerOf(dirs, sockInode) == OwnerOf(dirs[d..], sockInode)
    {
      var dir := dirs[d];
      assert dirs[d..][1..] == dirs[d + 1..];
      d := d + 1;
      if !dir.isDirectory {
        continue;
      }
      if !AllDigits(dir.name) {
        continue;
      }
      if dir.fds.NoFolder? {
        continue;
      }
      var f := 0;
      while f < |dir.fds.links|
        invariant 0 <= f <= |dir.fds.links|
        invariant forall i :: 0 <= i < f && dir.fds.links[i].Some? ==>
          !LinkMatches(dir.fds.links[i].value, sockInode)
      {
        var link := dir.fds.links[f];
        f := f + 1;
        if link.None? {
          continue;
        }
        if !Contains(link.value, PREFIX) {
          continue;
        }
        if Substr(link.value, 8, SizeMinusNine(|link.value|)) == sockInode {
          assert dir.fds.links[f - 1].Some? && LinkMatches(dir.fds.links[f - 1].value, sockInode);
          if NumberThrows(dir) {
            return Throws;
          }
          return Returns(PidOf(dir));
        }
      }
      if dir.fds.fails {
        return Throws;
      }
    }
    return Returns(-1);
  }
}
