/** The hunter's main loop over whole runs. Its index of packet pointers is, in every state, the
    first-known-answer-wins index of the packets popped so far and the replies that came back over
    the socket; a 5-tuple with a known answer is never asked about again. */
module HuntOverRuns {
  import opened Packets
  import opened AnswerFold
  import opened Pipeline
  import opened HutKarish
  import opened Invariants
  import Lookup

  // ----- pointers and what they point to -----

  function Deref(ids: seq<nat>, heap: seq<PacketInfo>): (r: seq<PacketInfo>)
    requires forall i :: 0 <= i < |ids| ==> ids[i] < |heap|
    ensures |r| == |ids| && forall i :: 0 <= i < |ids| ==> r[i] == heap[ids[i]]
  {
    if ids == [] then [] else Deref(ids[..|ids| - 1], heap) + [heap[ids[|ids| - 1]]]
  }

  predicate PointsInto(index: map<int, seq<nat>>, n: nat) {
    forall pid, i :: pid in index && 0 <= i < |index[pid]| ==> index[pid][i] < n
  }

  ghost function View(index: map<int, seq<nat>>, heap: seq<PacketInfo>): (view: Index)
    requires PointsInto(index, |heap|)
    ensures view.Keys == index.Keys
  {
    map pid | pid in index :: Deref(index[pid], heap)
  }

  lemma ViewAt(index: map<int, seq<nat>>, heap: seq<PacketInfo>, pid: int)
    requires PointsInto(index, |heap|) && pid in index
    ensures View(index, heap)[pid] == Deref(index[pid], heap)
  {
    hide Deref;
  }

  lemma StoredIsContained(index: map<int, seq<nat>>, heap: seq<PacketInfo>, f: Flow)
    requires PointsInto(index, |heap|)
    ensures Stored(index, heap, f) <==> ContainsFlow(View(index, heap), f)
  {
    var view := View(index, heap);
    if Stored(index, heap, f) {
      var pid, i :| pid in index && 0 <= i < |index[pid]| && FlowOf(heap[index[pid][i]]) == f;
      assert FlowOf(view[pid][i]) == f;
    }
    if ContainsFlow(view, f) {
      var pid, i :| pid in view && 0 <= i < |view[pid]| && FlowOf(view[pid][i]) == f;
      assert pid in index.Keys && FlowOf(heap[index[pid][i]]) == f;
    }
  }

  lemma ViewOfLargerHeap(index: map<int, seq<nat>>, heap: seq<PacketInfo>, heap': seq<PacketInfo>)
    requires PointsInto(index, |heap|) && heap <= heap'
    ensures PointsInto(index, |heap'|) && View(index, heap') == View(index, heap)
  {
    forall pid | pid in index ensures Deref(index[pid], heap') == Deref(index[pid], heap) {}
  }

  lemma DerefOneMore(ids: seq<nat>, id: nat, heap: seq<PacketInfo>)
    requires id < |heap| && forall i :: 0 <= i < |ids| ==> ids[i] < |heap|
    ensures Deref(ids + [id], heap) == Deref(ids, heap) + [heap[id]]
  {
    assert (ids + [id])[..|ids|] == ids;
  }

  lemma PointsAfterInsert(index: map<int, seq<nat>>, n: nat, pid: int, id: nat, index': map<int, seq<nat>>)
    requires PointsInto(index, n) && id < n
    requires index' == index[pid := (if pid in index then index[pid] else []) + [id]]
    ensures PointsInto(index', n)
  {}

  /** The vector inserted into. */
  lemma ViewOfUpdated(index: map<int, seq<nat>>, heap: seq<PacketInfo>, pid: int, id: nat, index': map<int, seq<nat>>)
    requires PointsInto(index, |heap|) && PointsInto(index', |heap|) && id < |heap|
    requires index' == index[pid := (if pid in index then index[pid] else []) + [id]]
    ensures View(index', heap)[pid] ==
      (if pid in index then View(index, heap)[pid] else []) + [heap[id]]
  {
    ViewAt(index', heap, pid);
    if pid in index { ViewAt(index, heap, pid); }
    var ids := if pid in index then index[pid] else [];
    DerefOneMore(ids, id, heap);
    assert Deref([], heap) == [];
    hide Deref, View;
  }

  /** The other vectors. */
  lemma ViewOfOthers(index: map<int, seq<nat>>, heap: seq<PacketInfo>, index': map<int, seq<nat>>, q: int)
    requires PointsInto(index, |heap|) && PointsInto(index', |heap|)
    requires q in index && q in index' && index'[q] == index[q]
    ensures View(index', heap)[q] == View(index, heap)[q]
  {
    ViewAt(index', heap, q);
    ViewAt(index, heap, q);
    hide Deref, View;
  }

  lemma InsertMeans(view: Index, pid: int, p: PacketInfo)
    requires pid != UNKNOWN_PID
    ensures Insert(view, pid, p) == view[pid := (if pid in view then view[pid] else []) + [p]]
  {
    assert [] + [p] == [p];
  }

  lemma ViewOfInsert(index: map<int, seq<nat>>, heap: seq<PacketInfo>, pid: int, id: nat, index': map<int, seq<nat>>)
    requires PointsInto(index, |heap|) && id < |heap| && pid != UNKNOWN_PID
    requires index' == index[pid := (if pid in index then index[pid] else []) + [id]]
    ensures PointsInto(index', |heap|) && View(index', heap) == Insert(View(index, heap), pid, heap[id])
  {
    hide View, Deref, Insert;
    PointsAfterInsert(index, |heap|, pid, id, index');
    hide PointsInto;
    var view, view' := View(index, heap), View(index', heap);
    InsertMeans(view, pid, heap[id]);
    ViewOfUpdated(index, heap, pid, id, index');
    forall q | q in view' && q != pid ensures q in view && view'[q] == view[q] {
      ViewOfOthers(index, heap, index', q);
    }
    assert view'.Keys == view.Keys + {pid};
  }

  // ----- the questions the fold asks -----

  datatype Question = Question(port: Port, reply: int)

  /** The questions put for a stream, with the replies. */
  ghost function Questions(s: seq<Answer>): seq<Question> {
    if s == [] then []
    else
      var n := |s| - 1;
      Questions(s[..n]) +
      if ContainsFlow(IndexOf(s[..n]), FlowOf(s[n].packet)) then []
      else [Question(s[n].packet.dstPort, s[n].reply)]
  }

  /** A packet's first known answer came back over the socket. */
  lemma {:induction false} FirstAnswerWasAsked(s: seq<Answer>, i: int) returns (k: nat)
    requires FirstAnswer(s, i)
    ensures k < |Questions(s)| && Questions(s)[k] == Question(s[i].packet.dstPort, s[i].reply)
  {
    var n := |s| - 1;
    if i == n {
      FirstUnlessKnown(s);
      HoldsTheKnown(s[..n], FlowOf(s[n].packet));
      k := |Questions(s[..n])|;
    } else {
      assert forall j :: 0 <= j < n ==> s[..n][j] == s[j];
      k := FirstAnswerWasAsked(s[..n], i);
    }
  }

  // ----- the invariant -----

  /** The packet in hand has been looked for in the index, and not found. */
  predicate IsNew(pc: HunterPc) { pc.Hunting? && (pc.u.HSend? || pc.u.HWait? || pc.u.HInsert?) }

  ghost predicate FoldInv(pc: HunterPc, index: map<int, seq<nat>>, stream: seq<Answer>, heap: seq<PacketInfo>) {
    && PointsInto(index, |heap|) && View(index, heap) == IndexOf(stream)
    && (IsNew(pc) ==> pc.u.id < |heap| && !ContainsFlow(IndexOf(stream), FlowOf(heap[pc.u.id])))
  }

  /** The stream is the packets popped, in order, up to the one in hand. */
  predicate StreamInv(pc: HunterPc, stream: seq<Answer>, popped: nat, heap: seq<PacketInfo>) {
    && |stream| + (if HunterHand(pc).Some? then 1 else 0) <= popped
    && (pc.Joining? || pc.Hunting? ==> |stream| + (if HunterHand(pc).Some? then 1 else 0) == popped)
    && |stream| <= |heap| && forall i :: 0 <= i < |stream| ==> stream[i].packet == heap[i]
  }

  /** The replies received are those of the questions the fold asks. */
  ghost predicate QuestionsInv(pc: HunterPc, stream: seq<Answer>, requests: seq<Port>, replies: seq<int>) {
    && |Questions(stream)| + (if pc.Hunting? && pc.u.HInsert? then 1 else 0) == |replies| <= |requests|
    && forall k :: 0 <= k < |Questions(stream)| ==> Questions(stream)[k] == Question(requests[k], replies[k])
  }

  ghost predicate HuntInv(s: Sys) {
    && FoldInv(s.h.main, s.h.index, s.h.stream, s.hpipe.heap)
    && StreamInv(s.h.main, s.h.stream, |s.hpipe.popped|, s.hpipe.heap)
    && QuestionsInv(s.h.main, s.h.stream, s.w.requests, s.w.replies)
  }

  // ----- steps of the main loop -----

  /** The main loop's record of packets handled gets one entry. */
  lemma OneMore(s: seq<Answer>, a: Answer)
    ensures IndexOf(s + [a]) == Handle(IndexOf(s), a)
    ensures Questions(s + [a]) == Questions(s) +
      if ContainsFlow(IndexOf(s), FlowOf(a.packet)) then [] else [Question(a.packet.dstPort, a.reply)]
  {
    assert (s + [a])[..|s|] == s;
  }

  lemma ContainsStep(s: Sys, id: nat, s': Sys)
    requires HunterPackets(s.h.main, s.hpipe)
    requires HuntInv(s) && s.h.main == Hunting(HContains(id)) && id < |s.hpipe.heap|
    requires s' == NextHunt(s, HContains(id))
    ensures HuntInv(s')
  {
    hide View, Stored, ContainsFlow, IndexOf, Questions, PointsInto;
    StoredIsContained(s.h.index, s.hpipe.heap, FlowOf(s.hpipe.heap[id]));
    OneMore(s.h.stream, Answer(s.hpipe.heap[id], UNKNOWN_PID));
  }

  lemma InsertStep(s: Sys, id: nat, pid: int, s': Sys)
    requires HunterPackets(s.h.main, s.hpipe) && Lookup.AskInv(s.h.main, s.hpipe.heap, s.w)
    requires HuntInv(s) && s.h.main == Hunting(HInsert(id, pid)) && id < |s.hpipe.heap|
    requires s' == NextHunt(s, HInsert(id, pid))
    ensures HuntInv(s')
  {
    hide View, ContainsFlow, IndexOf, Questions, PointsInto;
    OneMore(s.h.stream, Answer(s.hpipe.heap[id], pid));
    if pid != UNKNOWN_PID { ViewOfInsert(s.h.index, s.hpipe.heap, pid, id, s'.h.index); }
  }

  lemma QuietStep(s: Sys, pc: HuntPc, s': Sys)
    requires HuntInv(s) && s.h.main == Hunting(pc) && (pc.HuntTest? || pc.HPop? || pc.HAlive?)
    requires s' == NextHunt(s, pc)
    ensures HuntInv(s')
  {
    hide View, ContainsFlow, IndexOf, Questions, PointsInto, CanSend;
  }

  lemma SendStep(s: Sys, id: nat, s': Sys)
    requires HuntInv(s) && s.h.main == Hunting(HSend(id)) && id < |s.hpipe.heap| && s' == NextHunt(s, HSend(id))
    ensures HuntInv(s')
  {
    hide View, ContainsFlow, IndexOf, Questions, PointsInto, CanSend;
  }

  lemma WaitStep(s: Sys, id: nat, s': Sys)
    requires HuntInv(s) && s.h.main == Hunting(HWait(id)) && HuntEnabled(s, HWait(id))
    requires s' == NextHunt(s, HWait(id)) && |s.w.replies| < |s.w.requests|
    ensures HuntInv(s')
  {
    hide View, ContainsFlow, IndexOf, Questions, PointsInto;
  }

  lemma LeaveStep(s: Sys, pc: LeavePc, save: bool, fileOpens: bool, s': Sys)
    requires HuntInv(s) && s.h.main == Leaving(pc) && LeaveEnabled(s, pc)
    requires s' == NextLeave(s, pc, save, fileOpens)
    ensures HuntInv(s')
  {
    hide View, ContainsFlow, IndexOf, Questions, PointsInto, StoredIds;
  }

  lemma JoinStep(s: Sys, pc: JoinPc, s': Sys)
    requires HuntInv(s) && s.h.main == Joining(pc) && s' == NextJoin(s, pc)
    ensures HuntInv(s')
  {
    hide View, ContainsFlow, IndexOf, Questions, PointsInto;
  }

  lemma HMainStep(s: Sys, save: bool, fileOpens: bool, s': Sys)
    requires HunterPackets(s.h.main, s.hpipe) && Lookup.AskInv(s.h.main, s.hpipe.heap, s.w)
    requires HuntInv(s) && HMainEnabled(s) && s' == NextHMain(s, save, fileOpens)
    ensures HuntInv(s')
  {
    hide NextJoin, NextHunt, NextLeave, HuntInv, Lookup.AskInv, HunterPackets;
    match s.h.main
    case Joining(pc) => JoinStep(s, pc, s');
    case Leaving(pc) => LeaveStep(s, pc, save, fileOpens, s');
    case Hunting(pc) =>
      match pc
      case HContains(id) => ContainsStep(s, id, s');
      case HInsert(id, pid) => InsertStep(s, id, pid, s');
      case HSend(id) => SendStep(s, id, s');
      case HWait(id) => Outstanding(s); WaitStep(s, id, s');
      case _ => QuietStep(s, pc, s');
  }

  lemma Outstanding(s: Sys)
    requires Lookup.AskInv(s.h.main, s.hpipe.heap, s.w)
    ensures s.h.main.Hunting? && s.h.main.u.HWait? ==> |s.w.replies| < |s.w.requests|
  {}

  // ----- every step, every run -----

  /** The receiver only adds to the heap; no other thread touches what the loop looks at. */
  predicate HuntSame(s: Sys, s': Sys) {
    && s'.h == s.h.(running := s'.h.running)
    && s.hpipe.heap <= s'.hpipe.heap && s'.hpipe.popped == s.hpipe.popped
    && s'.w.requests == s.w.requests && s'.w.replies == s.w.replies
  }

  lemma SameKeepsHunt(s: Sys, s': Sys)
    requires HuntInv(s) && HuntSame(s, s')
    ensures HuntInv(s')
  {
    hide View, ContainsFlow, IndexOf, Questions, PointsInto;
    ViewOfLargerHeap(s.h.index, s.hpipe.heap, s'.hpipe.heap);
  }

  lemma HookSame(s: Sys, r: nat, s': Sys)
    requires Enabled(s, HookStep(r)) && s' == NextHook(s, r)
    ensures HuntSame(s, s')
  {
    HookFrame(s, r, s');
    OfferOnlyQueues(s.hpipe, s.k.arrivals[r]);
    hide NextHook, Offer;
  }

  lemma DMainLeavesHunt(s: Sys, s': Sys)
    requires DMainEnabled(s) && s' == NextDMain(s)
    ensures HuntSame(s, s')
  {
    match s.d.main
    case Build(pc) => BuildFrame(s, pc, s');
    case Start(pc) => StartFrame(s, pc, s');
    case Loop(pc) => LoopFrame(s, pc, s');
    case Stop(pc) => StopLeaves(s, pc, s');
    case Release(pc) => ReleaseFrame(s, pc, s');
    hide NextBuild, NextStart, NextLoop, NextStop, NextRelease, LoopEnabled, Scannable;
  }

  lemma OthersSame(s: Sys, a: Action)
    requires Enabled(s, a) && !a.HMain?
    ensures HuntSame(s, Next(s, a))
  {
    hide NextDMain, NextDServer, NextHook, DMainEnabled, DServerEnabled, Scannable;
    match a
    case HookStep(r) => HookSame(s, r, Next(s, a));
    case DMain => DMainLeavesHunt(s, Next(s, a));
    case DServer(fails) => ServerFrame(s, fails, Next(s, a));
    case HReceiver =>
    case _ =>
  }

  lemma HuntNext(s: Sys, a: Action)
    requires Inv(s) && Lookup.LookupInv(s) && HuntInv(s) && Enabled(s, a)
    ensures HuntInv(Next(s, a))
  {
    assert HunterPackets(s.h.main, s.hpipe) && Lookup.AskInv(s.h.main, s.hpipe.heap, s.w) by {
      hide PipeInv, DInv, Lookup.ServerInv;
    }
    hide Inv, Lookup.LookupInv, HuntInv, NextHMain, HMainEnabled;
    if a.HMain? {
      HMainStep(s, a.save, a.fileOpens, Next(s, a));
    } else {
      OthersSame(s, a);
      hide Next, Enabled;
      SameKeepsHunt(s, Next(s, a));
    }
  }

  lemma HuntInit(s: Sys)
    requires Init(s)
    ensures HuntInv(s)
  {}

  lemma {:induction false} HuntAlways(t: seq<Sys>, acts: seq<Action>, n: nat)
    requires Run(t, acts) && n < |t|
    ensures Inv(t[n]) && Lookup.LookupInv(t[n]) && HuntInv(t[n])
  {
    hide Inv, Lookup.LookupInv, HuntInv, Next, Enabled;
    Lookup.LookupAlways(t, acts, n);
    if n == 0 {
      HuntInit(t[0]);
    } else {
      HuntAlways(t, acts, n - 1);
      HuntNext(t[n - 1], acts[n - 1]);
    }
  }

  // ----- what it says -----

  /** In every state of every run the hunter's vectors are exactly what the reference says: each
      pid's is the arrival-order subsequence of the packets it was the first known answer for. */
  lemma IndexIsTheFold(t: seq<Sys>, acts: seq<Action>, n: nat, pid: int)
    requires Run(t, acts) && n < |t|
    ensures
      var h, heap := t[n].h, t[n].hpipe.heap;
      && PointsInto(h.index, |heap|)
      && (pid in h.index <==> AnsweredBy(h.stream, pid) != [])
      && (pid in h.index ==> pid != UNKNOWN_PID && Deref(h.index[pid], heap) == AnsweredBy(h.stream, pid))
      && OnePerFlow(View(h.index, heap))
  {
    hide Inv, Lookup.LookupInv, Next, Enabled, Init;
    HuntAlways(t, acts, n);
    FirstKnownAnswerWins(t[n].h.stream, pid);
    UnknownIsNoKey(t[n].h.stream);
    StoredOncePerFlow(t[n].h.stream);
    hide IndexOf, OnePerFlow, AnsweredBy;
  }

  /** The stream it is a fold of is real: the packets are the ones popped, in order, and the replies
      that count are the ones the socket delivered, one for each question. */
  lemma StreamIsReal(t: seq<Sys>, acts: seq<Action>, n: nat)
    requires Run(t, acts) && n < |t|
    ensures
      var h, p, w := t[n].h, t[n].hpipe, t[n].w;
      && |h.stream| <= |p.popped| && |h.stream| <= |p.heap|
      && (h.main.Hunting? ==> |p.popped| <= |h.stream| + 1)
      && (forall i :: 0 <= i < |h.stream| ==> p.popped[i] == i && h.stream[i].packet == p.heap[i])
      && |Questions(h.stream)| <= |w.replies| <= |w.requests|
      && (h.main.Hunting? && !h.main.u.HInsert? ==> |w.replies| == |Questions(h.stream)|)
      && forall k :: 0 <= k < |Questions(h.stream)| ==>
           Questions(h.stream)[k] == Question(w.requests[k], w.replies[k])
  {
    hide Inv, Lookup.LookupInv, Next, Enabled, Init;
    HuntAlways(t, acts, n);
    PoppedInOrder(t[n]);
    hide IndexOf, Questions, View, PointsInto;
  }

  lemma PoppedInOrder(s: Sys)
    requires Inv(s)
    ensures forall i :: 0 <= i < |s.hpipe.popped| ==> s.hpipe.popped[i] == i
  {
    hide DInv, HInv, KernelInv;
  }

  /** A 5-tuple once answered with a pid is never asked about again. */
  lemma ResolvedIsNeverAskedAgain(t: seq<Sys>, acts: seq<Action>, n: nat)
    requires Run(t, acts) && n < |t| && t[n].h.main.Hunting? && t[n].h.main.u.HSend?
    ensures t[n].h.main.u.id < |t[n].hpipe.heap|
    ensures !Known(t[n].h.stream, FlowOf(t[n].hpipe.heap[t[n].h.main.u.id]))
  {
    hide Inv, Lookup.LookupInv, Next, Enabled, Init;
    HuntAlways(t, acts, n);
    HoldsTheKnown(t[n].h.stream, FlowOf(t[n].hpipe.heap[t[n].h.main.u.id]));
  }
}
