/** The hunter's index as a value: what the main loop does to it for a stream of packets and
    replies, and what that amounts to. */
module AnswerFold {
  import opened Packets

  /** A packet taken from the queue, and the reply the daemon gives if it is asked. */
  datatype Answer = Answer(packet: PacketInfo, reply: int)

  type Index = map<int, seq<PacketInfo>>

  ghost predicate ContainsFlow(ix: Index, f: Flow) {
    exists pid, i :: pid in ix && 0 <= i < |ix[pid]| && FlowOf(ix[pid][i]) == f
  }

  function Insert(ix: Index, pid: int, p: PacketInfo): Index {
    if pid == UNKNOWN_PID then ix
    else if pid in ix then ix[pid := ix[pid] + [p]]
    else ix[pid := [p]]
  }

  /** One turn of the main loop: a stored 5-tuple is skipped, another is asked for and stored. */
  ghost function Handle(ix: Index, a: Answer): Index {
    if ContainsFlow(ix, FlowOf(a.packet)) then ix else Insert(ix, a.reply, a.packet)
  }

  ghost function IndexOf(s: seq<Answer>): Index {
    if s == [] then map[] else Handle(IndexOf(s[..|s| - 1]), s[|s| - 1])
  }

  // ----- the reference: the first known answer for a 5-tuple wins -----

  predicate Known(s: seq<Answer>, f: Flow) {
    exists j :: 0 <= j < |s| && FlowOf(s[j].packet) == f && s[j].reply != UNKNOWN_PID
  }

  /** Answer `i` is the first known one for its 5-tuple. */
  predicate FirstAnswer(s: seq<Answer>, i: int) {
    && 0 <= i < |s| && s[i].reply != UNKNOWN_PID
    && forall j :: 0 <= j < i && FlowOf(s[j].packet) == FlowOf(s[i].packet) ==> s[j].reply == UNKNOWN_PID
  }

  /** The packets whose first known answer is `pid`, in arrival order. */
  function AnsweredBy(s: seq<Answer>, pid: int): seq<PacketInfo> {
    if s == [] then []
    else
      var n := |s| - 1;
      AnsweredBy(s[..n], pid) +
      if FirstAnswer(s, n) && s[n].reply == pid then [s[n].packet] else []
  }

  lemma InsertContains(ix: Index, pid: int, p: PacketInfo, f: Flow)
    requires pid != UNKNOWN_PID
    ensures ContainsFlow(Insert(ix, pid, p), f) <==> ContainsFlow(ix, f) || f == FlowOf(p)
  {
    var ix' := Insert(ix, pid, p);
    var n := |ix'[pid]| - 1;
    assert ix'[pid][n] == p;
    if ContainsFlow(ix, f) {
      var q, i :| q in ix && 0 <= i < |ix[q]| && FlowOf(ix[q][i]) == f;
      assert q in ix' && ix'[q][i] == ix[q][i];
    }
    if ContainsFlow(ix', f) {
      var q, i :| q in ix' && 0 <= i < |ix'[q]| && FlowOf(ix'[q][i]) == f;
      if !(q == pid && i == n) { assert q in ix && ix[q][i] == ix'[q][i]; }
    }
  }

  /** The index holds exactly the 5-tuples that have had a known answer. */
  lemma {:induction false} HoldsTheKnown(s: seq<Answer>, f: Flow)
    ensures ContainsFlow(IndexOf(s), f) <==> Known(s, f)
  {
    if s != [] {
      var n := |s| - 1;
      HoldsTheKnown(s[..n], f);
      HoldsTheKnown(s[..n], FlowOf(s[n].packet));
      assert Known(s, f) <==>
        Known(s[..n], f) || (FlowOf(s[n].packet) == f && s[n].reply != UNKNOWN_PID) by {
        if Known(s, f) {
          var j :| 0 <= j < |s| && FlowOf(s[j].packet) == f && s[j].reply != UNKNOWN_PID;
          if j < n { assert s[..n][j] == s[j]; }
        }
      }
      if s[n].reply != UNKNOWN_PID {
        InsertContains(IndexOf(s[..n]), s[n].reply, s[n].packet, f);
      }
    }
  }

  lemma FirstUnlessKnown(s: seq<Answer>)
    requires s != []
    ensures FirstAnswer(s, |s| - 1) <==>
      s[|s| - 1].reply != UNKNOWN_PID && !Known(s[..|s| - 1], FlowOf(s[|s| - 1].packet))
  {
    var n := |s| - 1;
    assert forall j :: 0 <= j < n ==> s[..n][j] == s[j];
  }

  /** The main loop refines the reference: each pid's vector is the arrival-order subsequence of
      the packets it was the first known answer for, and pids without one are no keys. */
  lemma {:induction false} FirstKnownAnswerWins(s: seq<Answer>, pid: int)
    ensures pid in IndexOf(s) <==> AnsweredBy(s, pid) != []
    ensures pid in IndexOf(s) ==> IndexOf(s)[pid] == AnsweredBy(s, pid)
  {
    if s != [] {
      var n := |s| - 1;
      FirstKnownAnswerWins(s[..n], pid);
      HoldsTheKnown(s[..n], FlowOf(s[n].packet));
      FirstUnlessKnown(s);
    }
  }

  lemma {:induction false} UnknownIsNoKey(s: seq<Answer>)
    ensures UNKNOWN_PID !in IndexOf(s)
  {
    if s != [] { UnknownIsNoKey(s[..|s| - 1]); }
  }

  /** Nothing is stored twice: one position per 5-tuple over all vectors. */
  ghost predicate OnePerFlow(ix: Index) {
    forall p, i, q, j ::
      p in ix && 0 <= i < |ix[p]| && q in ix && 0 <= j < |ix[q]| && FlowOf(ix[p][i]) == FlowOf(ix[q][j])
      ==> p == q && i == j
  }

  lemma HandleKeepsOnePerFlow(ix: Index, a: Answer)
    requires OnePerFlow(ix)
    ensures OnePerFlow(Handle(ix, a))
  {
    var ix' := Handle(ix, a);
    if ix' != ix {
      var n := |ix'[a.reply]| - 1;
      assert forall q, j :: q in ix' && 0 <= j < |ix'[q]| && !(q == a.reply && j == n) ==>
        q in ix && j < |ix[q]| && ix[q][j] == ix'[q][j];
    }
  }

  lemma {:induction false} StoredOncePerFlow(s: seq<Answer>)
    ensures OnePerFlow(IndexOf(s))
  {
    if s != [] {
      StoredOncePerFlow(s[..|s| - 1]);
      HandleKeepsOnePerFlow(IndexOf(s[..|s| - 1]), s[|s| - 1]);
    }
  }

  /** The daemon is asked about packet `i`. */
  ghost predicate Asked(s: seq<Answer>, i: int)
    requires 0 <= i < |s|
  {
    !ContainsFlow(IndexOf(s[..i]), FlowOf(s[i].packet))
  }

  /** A question is put exactly as long as its 5-tuple has had no known answer. */
  lemma AskedUntilKnown(s: seq<Answer>, i: int)
    requires 0 <= i < |s|
    ensures Asked(s, i) <==>
      forall j :: 0 <= j < i && FlowOf(s[j].packet) == FlowOf(s[i].packet) ==> s[j].reply == UNKNOWN_PID
  {
    HoldsTheKnown(s[..i], FlowOf(s[i].packet));
    assert forall j :: 0 <= j < i ==> s[..i][j] == s[j];
  }

  lemma {:induction false} AnsweredByMeaning(s: seq<Answer>, pid: int)
    ensures forall i :: FirstAnswer(s, i) && s[i].reply == pid ==> s[i].packet in AnsweredBy(s, pid)
    ensures forall p :: p in AnsweredBy(s, pid) ==>
      exists i :: FirstAnswer(s, i) && s[i].reply == pid && s[i].packet == p
  {
    if s != [] {
      var n := |s| - 1;
      var before := s[..n];
      AnsweredByMeaning(before, pid);
      assert forall i {:trigger FirstAnswer(s, i)} {:trigger FirstAnswer(before, i)} ::
        FirstAnswer(before, i) <==> i < n && FirstAnswer(s, i);
      forall i | FirstAnswer(s, i) && s[i].reply == pid ensures s[i].packet in AnsweredBy(s, pid) {
        if i < n { assert FirstAnswer(before, i) && before[i] == s[i]; }
      }
      forall p | p in AnsweredBy(s, pid)
        ensures exists i :: FirstAnswer(s, i) && s[i].reply == pid && s[i].packet == p
      {
        if p in AnsweredBy(before, pid) {
          var i :| FirstAnswer(before, i) && before[i].reply == pid && before[i].packet == p;
          assert FirstAnswer(s, i) && s[i] == before[i];
        } else {
          assert FirstAnswer(s, n) && s[n].packet == p;
        }
      }
    }
  }
}
