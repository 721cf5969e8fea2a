/** Which packets the hunter never frees. When it has ended, a packet it received has been freed
    unless it was a duplicate or of an unknown pid, or in hand when the loop was left by `break`, or
    in the index when the log file did not open, or is the terminate packet. */
module Leaks {
  import opened Packets
  import opened AnswerFold
  import opened Pipeline
  import opened HutKarish
  import opened Invariants
  import Lookup
  import opened HuntOverRuns
  import opened Ownership

  // ----- the index holds exactly the first known answers -----

  /** The places in the stream of first known answers. */
  function KeptIds(s: seq<Answer>): set<nat> {
    if s == [] then {} else KeptIds(s[..|s| - 1]) + if FirstAnswer(s, |s| - 1) then {|s| - 1} else {}
  }

  lemma {:induction false} KeptAreFirst(s: seq<Answer>)
    ensures forall i: nat :: i in KeptIds(s) <==> FirstAnswer(s, i)
  {
    if s != [] {
      var n := |s| - 1;
      var before := s[..n];
      KeptAreFirst(before);
      forall i: nat ensures FirstAnswer(before, i) <==> i < n && FirstAnswer(s, i) {
        assert forall j :: 0 <= j < n ==> before[j] == s[j];
      }
    }
  }

  lemma KeptOneMore(s: seq<Answer>, a: Answer)
    ensures KeptIds(s + [a]) == KeptIds(s) +
      if a.reply != UNKNOWN_PID && !ContainsFlow(IndexOf(s), FlowOf(a.packet)) then {|s|} else {}
  {
    var s' := s + [a];
    assert s'[..|s'| - 1] == s;
    FirstUnlessKnown(s');
    HoldsTheKnown(s, FlowOf(a.packet));
  }

  // ----- what one step leaks -----

  /** The step leaves the main loop by `break`, this packet in hand. */
  predicate BreaksWith(s: Sys, a: Action, id: nat) {
    && a.HMain? && s.h.main.Hunting? && HuntHand(s.h.main.u) == Some(id)
    && ((s.h.main.u.HSend? && !CanSend(s)) || (s.h.main.u.HWait? && s.w.toClient == []))
  }

  /** The step chooses to save and the file does not open. */
  predicate SaveFails(s: Sys, a: Action) {
    a == HMain(true, false) && s.h.main == Leaving(HChoice)
  }

  /** What has been leaked, with `broke` in hand at a break and `lost` if a save has failed. */
  ghost predicate LeakInv(h: HunterState, broke: set<nat>, lost: bool) {
    && StoredIds(h.index) == KeptIds(h.stream)
    && h.dropped == (Below(|h.stream|) - KeptIds(h.stream)) + broke + (if lost then KeptIds(h.stream) else {})
    && (lost ==> h.main.HDone?)
  }

  function BrokeBy(s: Sys, a: Action): set<nat> {
    if a.HMain? && s.h.main.Hunting? && HuntHand(s.h.main.u).Some? && BreaksWith(s, a, HuntHand(s.h.main.u).value)
    then {HuntHand(s.h.main.u).value} else {}
  }

  lemma StoreLeaksNothing(s: Sys, id: nat, pid: int, s': Sys, broke: set<nat>)
    requires LeakInv(s.h, broke, false) && s.h.main == Hunting(HInsert(id, pid)) && pid != UNKNOWN_PID
    requires id == |s.h.stream| && id < |s.hpipe.heap| && s' == NextHunt(s, HInsert(id, pid))
    requires !ContainsFlow(IndexOf(s.h.stream), FlowOf(s.hpipe.heap[id]))
    requires UnsharedIds(s.h.index) && id !in StoredIds(s.h.index)
    ensures LeakInv(s'.h, broke, false)
  {
    hide StoredIds, KeptIds, Below, ContainsFlow, IndexOf, UnsharedIds;
    KeptOneMore(s.h.stream, Answer(s.hpipe.heap[id], pid));
    StoreId(s.h.index, pid, id, s'.h.index);
    BelowNext(id);
    KeptBelow(s.h.stream);
  }

  lemma KeptBelow(s: seq<Answer>)
    ensures KeptIds(s) <= Below(|s|)
  {
    KeptAreFirst(s);
    hide KeptIds;
  }

  lemma SkipLeaksIt(s: Sys, u: HuntPc, s': Sys, broke: set<nat>)
    requires LeakInv(s.h, broke, false) && s.h.main == Hunting(u)
    requires u.HContains? || (u.HInsert? && u.pid == UNKNOWN_PID)
    requires u.id == |s.h.stream| && u.id < |s.hpipe.heap| && s' == NextHunt(s, u)
    requires u.HContains? ==> Stored(s.h.index, s.hpipe.heap, FlowOf(s.hpipe.heap[u.id]))
    ensures LeakInv(s'.h, broke, false)
  {
    hide StoredIds, KeptIds, Below, ContainsFlow, IndexOf, Stored;
    KeptOneMore(s.h.stream, Answer(s.hpipe.heap[u.id], UNKNOWN_PID));
    BelowNext(u.id);
    KeptBelow(s.h.stream);
  }

  lemma QuietLeaksNothing(s: Sys, u: HuntPc, s': Sys, broke: set<nat>)
    requires LeakInv(s.h, broke, false) && s.h.main == Hunting(u) && !u.HInsert?
    requires u.HContains? ==> u.id < |s.hpipe.heap| && !Stored(s.h.index, s.hpipe.heap, FlowOf(s.hpipe.heap[u.id]))
    requires HuntEnabled(s, u) && s' == NextHunt(s, u)
    ensures LeakInv(s'.h, broke + BrokeBy(s, HMain(false, false)), false)
  {
    hide StoredIds, KeptIds, Below, Stored, CanSend, Pop;
  }

  lemma LeaveLeaks(s: Sys, v: LeavePc, save: bool, fileOpens: bool, s': Sys, broke: set<nat>)
    requires LeakInv(s.h, broke, false) && s.h.main == Leaving(v) && LeaveEnabled(s, v)
    requires s' == NextLeave(s, v, save, fileOpens)
    ensures LeakInv(s'.h, broke, SaveFails(s, HMain(save, fileOpens)))
  {
    LeavePuts(s, v, save, fileOpens, s');
    LeaveKeepsStream(s, v, save, fileOpens, s');
    hide StoredIds, KeptIds, Below, NextLeave;
  }

  lemma LeaveKeepsStream(s: Sys, v: LeavePc, save: bool, fileOpens: bool, s': Sys)
    requires LeaveEnabled(s, v) && s' == NextLeave(s, v, save, fileOpens)
    ensures s'.h.stream == s.h.stream
  {
    hide StoredIds;
  }

  /** Where the packet in hand stands: next in the stream, and not yet in the index. */
  ghost predicate HandIsNext(s: Sys) {
    s.h.main.Hunting? && HuntHand(s.h.main.u).Some? ==>
      && s.h.main.u.id == |s.h.stream| < |s.hpipe.heap|
      && s.h.main.u.id !in StoredIds(s.h.index) && UnsharedIds(s.h.index)
      && (s.h.main.u.HInsert? ==> !ContainsFlow(IndexOf(s.h.stream), FlowOf(s.hpipe.heap[s.h.main.u.id])))
  }

  lemma HandInvariant(s: Sys)
    requires Inv(s) && HuntInv(s) && HunterOwns(s.h, s.hpipe)
    ensures HandIsNext(s)
  {
    assert HunterPackets(s.h.main, s.hpipe) && PipeInv(s.hpipe) by { hide DInv, KernelInv, PipeInv; }
    hide Inv, QuestionsInv, View, StoredIds, UnsharedIds, ContainsFlow, IndexOf, Below;
    if s.h.main.Hunting? && HuntHand(s.h.main.u).Some? {
      assert s.h.main.u.id in HandSet(HunterHand(s.h.main));
    }
  }

  lemma HuntLeaks(s: Sys, u: HuntPc, s': Sys, broke: set<nat>)
    requires LeakInv(s.h, broke, false) && HandIsNext(s) && s.h.main == Hunting(u)
    requires HuntEnabled(s, u) && s' == NextHunt(s, u)
    ensures LeakInv(s'.h, broke + BrokeBy(s, HMain(false, false)), false)
  {
    hide LeakInv, NextHunt, Stored, StoredIds, UnsharedIds, ContainsFlow, IndexOf;
    if u.HInsert? && u.pid != UNKNOWN_PID {
      StoreLeaksNothing(s, u.id, u.pid, s', broke);
      assert broke + {} == broke;
    } else if u.HInsert? || (u.HContains? && Stored(s.h.index, s.hpipe.heap, FlowOf(s.hpipe.heap[u.id]))) {
      SkipLeaksIt(s, u, s', broke);
      assert broke + {} == broke;
    } else {
      QuietLeaksNothing(s, u, s', broke);
    }
  }

  lemma HMainLeaks(s: Sys, save: bool, fileOpens: bool, s': Sys, broke: set<nat>)
    requires LeakInv(s.h, broke, false) && HandIsNext(s) && HMainEnabled(s) && s' == NextHMain(s, save, fileOpens)
    ensures LeakInv(s'.h, broke + BrokeBy(s, HMain(save, fileOpens)), SaveFails(s, HMain(save, fileOpens)))
  {
    hide LeakInv, NextJoin, NextHunt, NextLeave, HuntEnabled, HandIsNext;
    assert broke + {} == broke;
    match s.h.main
    case Joining(pc) => JoinLeaks(s, pc, s', broke);
    case Hunting(u) => HuntLeaks(s, u, s', broke);
    case Leaving(v) => LeaveLeaks(s, v, save, fileOpens, s', broke);
  }

  lemma JoinLeaks(s: Sys, pc: JoinPc, s': Sys, broke: set<nat>)
    requires LeakInv(s.h, broke, false) && s' == NextJoin(s, pc)
    ensures LeakInv(s'.h, broke, false)
  {
    hide StoredIds, KeptIds, Below;
  }

  lemma OthersLeakNothing(s: Sys, a: Action, broke: set<nat>, lost: bool)
    requires Inv(s) && Lookup.LookupInv(s) && LeakInv(s.h, broke, lost) && Enabled(s, a) && !a.HMain?
    ensures LeakInv(Next(s, a).h, broke, lost) && BrokeBy(s, a) == {} && !SaveFails(s, a)
  {
    OthersSame(s, a);
    hide Next, Enabled, Inv, StoredIds, KeptIds, Below;
  }

  // ----- runs -----

  ghost function Broke(t: seq<Sys>, acts: seq<Action>, n: nat): set<nat>
    requires n <= |acts| <= |t|
  {
    if n == 0 then {} else Broke(t, acts, n - 1) + BrokeBy(t[n - 1], acts[n - 1])
  }

  ghost predicate Lost(t: seq<Sys>, acts: seq<Action>, n: nat)
    requires n <= |acts| <= |t|
  {
    exists i :: 0 <= i < n && SaveFails(t[i], acts[i])
  }

  lemma {:induction false} BrokeMeans(t: seq<Sys>, acts: seq<Action>, n: nat, id: nat)
    requires n <= |acts| <= |t|
    ensures id in Broke(t, acts, n) <==> exists i :: 0 <= i < n && BreaksWith(t[i], acts[i], id)
  {
    if n > 0 { BrokeMeans(t, acts, n - 1, id); }
  }

  lemma {:induction false} LeaksAlways(t: seq<Sys>, acts: seq<Action>, n: nat)
    requires Run(t, acts) && n <= |acts|
    ensures Inv(t[n]) && LeakInv(t[n].h, Broke(t, acts, n), Lost(t, acts, n))
  {
    hide Inv, LeakInv, HuntInv, HunterOwns, Lookup.LookupInv, Next, Enabled, Init, BrokeBy, SaveFails, HandIsNext;
    InvAlways(t, acts, n);
    if n == 0 {
      LeakInit(t[0]);
    } else {
      LeaksAlways(t, acts, n - 1);
      LeaksNext(t, acts, n);
    }
  }

  lemma LeakInit(s: Sys)
    requires Init(s)
    ensures LeakInv(s.h, {}, false)
  {}

  lemma LeaksNext(t: seq<Sys>, acts: seq<Action>, n: nat)
    requires Run(t, acts) && 0 < n <= |acts|
    requires LeakInv(t[n - 1].h, Broke(t, acts, n - 1), Lost(t, acts, n - 1))
    ensures LeakInv(t[n].h, Broke(t, acts, n), Lost(t, acts, n))
  {
    hide Inv, HuntInv, HunterOwns, Lookup.LookupInv, Next, Enabled, Init, BrokeBy, SaveFails, HandIsNext;
    hide StoredIds, KeptIds;
    var s, a, broke := t[n - 1], acts[n - 1], Broke(t, acts, n - 1);
    HuntAlways(t, acts, n - 1);
    OwnsAlways(t, acts, n - 1);
    assert Lost(t, acts, n) <==> Lost(t, acts, n - 1) || SaveFails(s, a);
    if a.HMain? {
      HandInvariant(s);
      assert !Lost(t, acts, n - 1) by { StillGoing(s, a); }
      HMainLeaksNext(s, a, broke);
    } else {
      OthersLeakNothing(s, a, broke, Lost(t, acts, n - 1));
      assert broke + {} == broke;
    }
  }

  lemma StillGoing(s: Sys, a: Action)
    requires Enabled(s, a) && a.HMain?
    ensures !s.h.main.HDone?
  {}

  lemma HMainLeaksNext(s: Sys, a: Action, broke: set<nat>)
    requires a.HMain? && Enabled(s, a) && LeakInv(s.h, broke, false) && HandIsNext(s)
    ensures LeakInv(Next(s, a).h, broke + BrokeBy(s, a), SaveFails(s, a))
  {
    hide NextHMain, HMainEnabled, LeakInv, HandIsNext;
    HMainLeaks(s, a.save, a.fileOpens, Next(s, a), broke);
  }

  /** The index points to exactly the packets of first known answers, by identity. */
  lemma IndexedAreFirstAnswers(t: seq<Sys>, acts: seq<Action>, n: nat, id: nat)
    requires Run(t, acts) && n <= |acts|
    ensures id in StoredIds(t[n].h.index) <==> FirstAnswer(t[n].h.stream, id)
  {
    LeaksAlways(t, acts, n);
    KeptAreFirst(t[n].h.stream);
    hide Run, Inv, StoredIds, KeptIds;
  }

  /** Exactly which packets are never freed: of the packets handled, those that were not their 5-tuple's
      first known answer, and all if a save failed; the packet in hand at a break; and the terminate
      packet. */
  lemma WhatIsNeverFreed(t: seq<Sys>, acts: seq<Action>, n: nat, id: nat)
    requires Run(t, acts) && n <= |acts| && t[n].h.main.HDone? && id < |t[n].hpipe.heap|
    ensures id !in t[n].h.freed <==>
      || (id < |t[n].h.stream| && !FirstAnswer(t[n].h.stream, id))
      || (exists i :: 0 <= i < n && BreaksWith(t[i], acts[i], id))
      || (FirstAnswer(t[n].h.stream, id) && exists i :: 0 <= i < n && SaveFails(t[i], acts[i]))
      || id in StopPacket(t[n].hpipe.receiver)
  {
    hide Inv, Next, Enabled, Init, BrokeBy, SaveFails, StoredIds, KeptIds, BreaksWith;
    LeaksAlways(t, acts, n);
    KeptAreFirst(t[n].h.stream);
    BrokeMeans(t, acts, n, id);
    HunterExit(t, acts, n);
    DroppedAreReceived(t, acts, n);
  }

  /** What was dropped had been popped, so the terminate packet is not among it. */
  lemma DroppedAreReceived(t: seq<Sys>, acts: seq<Action>, n: nat)
    requires Run(t, acts) && n < |t|
    ensures forall id :: id in StopPacket(t[n].hpipe.receiver) ==> id !in t[n].h.freed && id !in t[n].h.dropped
  {
    EveryPacketHasOneOwner(t, acts, n);
    hide Run, Below, StoredIds;
    assert forall id :: id in StopPacket(t[n].hpipe.receiver) ==> id in IdsIn(AtReceiver(t[n].hpipe));
  }
}
