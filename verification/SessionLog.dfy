/** What a whole session leaves in the saved log: one line for each 5-tuple that got a known answer
    over the socket, all lines different. */
module SessionLog {
  import opened Packets
  import opened AnswerFold
  import opened Pipeline
  import opened HutKarish
  import opened Invariants
  import Lookup
  import opened HuntOverRuns
  import KernelOverRuns
  import opened PacketLog

  /** What the hunter pops are packets the hook reported. */
  lemma StreamIsSupported(s: Sys)
    requires PipeInv(s.hpipe) && KernelOverRuns.SourceInv(s) && |s.h.stream| <= |s.hpipe.popped|
    requires StreamInv(s.h.main, s.h.stream, |s.hpipe.popped|, s.hpipe.heap)
    ensures forall i :: 0 <= i < |s.h.stream| ==> Supported(s.h.stream[i].packet) && !IsStop(s.h.stream[i].packet)
  {
    var p := s.hpipe;
    forall i | 0 <= i < |s.h.stream| ensures Supported(s.h.stream[i].packet) && !IsStop(s.h.stream[i].packet) {
      assert p.accepted[i] == p.heap[i] == s.h.stream[i].packet;
      assert i < Pushed(p) && !IsStop(p.heap[i]);
      assert p.accepted[i] in s.k.arrivals;
    }
  }

  lemma StreamAlwaysSupported(t: seq<Sys>, acts: seq<Action>, n: nat)
    requires Run(t, acts) && n < |t|
    ensures forall i :: 0 <= i < |t[n].h.stream| ==> Supported(t[n].h.stream[i].packet)
  {
    hide Next, Enabled, Init, Lookup.LookupInv;
    HuntAlways(t, acts, n);
    KernelOverRuns.KernelAlways(t, acts, n);
    PipeOf(t[n]);
    hide Inv, FoldInv, QuestionsInv;
    StreamIsSupported(t[n]);
  }

  lemma PipeOf(s: Sys)
    requires Inv(s)
    ensures PipeInv(s.hpipe)
  {
    hide PipeInv, DInv, HInv, KernelInv;
  }

  /** The lines a save would write at any point of any run, whatever the iteration order of the map:
      pairwise distinct, one for every 5-tuple's first known answer, and no others. */
  lemma SessionLogIsExact(t: seq<Sys>, acts: seq<Action>, n: nat, keys: seq<int>)
    requires Run(t, acts) && n < |t| && Enumerates(keys, t[n].h.index.Keys)
    ensures PointsInto(t[n].h.index, |t[n].hpipe.heap|)
    ensures
      var ix, stream := View(t[n].h.index, t[n].hpipe.heap), t[n].h.stream;
      && NoRepeats(LogOf(keys, ix))
      && (forall i :: FirstAnswer(stream, i) ==> Line(stream[i].reply, stream[i].packet) in LogOf(keys, ix))
      && forall x :: x in LogOf(keys, ix) ==>
           exists i :: FirstAnswer(stream, i) && x == Line(stream[i].reply, stream[i].packet)
  {
    hide Next, Enabled, Init, Inv, Lookup.LookupInv, Line, LogOf;
    HuntAlways(t, acts, n);
    StreamAlwaysSupported(t, acts, n);
    hide IndexOf, StreamInv, QuestionsInv, Run;
    assert View(t[n].h.index, t[n].hpipe.heap).Keys == t[n].h.index.Keys;
    SavedLog(t[n].h.stream, keys);
  }
}
