/** Reachable states: the last states of runs. */
module Reach {
  import opened HutKarish
  import opened Invariants

  ghost predicate Reachable(s: Sys) {
    exists t, acts :: Run(t, acts) && t[|acts|] == s
  }

  lemma ReachInit(s: Sys)
    requires Init(s)
    ensures Reachable(s)
  {
    var acts: seq<Action> := [];
    assert Run([s], acts) && [s][|acts|] == s;
  }

  lemma ReachNext(s: Sys, a: Action)
    requires Reachable(s) && Enabled(s, a)
    ensures Reachable(Next(s, a))
  {
    hide Init, Next, Enabled;
    var t, acts :| Run(t, acts) && t[|acts|] == s;
    var t', acts' := t + [Next(s, a)], acts + [a];
    forall i | 0 <= i < |acts'| ensures Enabled(t'[i], acts'[i]) && t'[i + 1] == Next(t'[i], acts'[i]) {
      if i == |acts| { assert t'[i] == s && acts'[i] == a; } else { assert acts'[i] == acts[i]; }
    }
    assert Run(t', acts') && t'[|acts'|] == Next(s, a);
  }

  lemma ReachAlong(t: seq<Sys>, acts: seq<Action>)
    requires Linked(t, acts) && Reachable(t[0])
    ensures Reachable(t[|acts|])
    decreases |acts|
  {
    hide Init, Next, Enabled, Reachable;
    if acts != [] {
      var n := |acts| - 1;
      ReachAlong(t[..n + 1], acts[..n]);
      assert Enabled(t[n], acts[n]) && t[n + 1] == Next(t[n], acts[n]);
      ReachNext(t[n], acts[n]);
    }
  }

  lemma ReachableInv(s: Sys)
    requires Reachable(s)
    ensures Inv(s)
  {
    hide Next, Enabled, Inv;
    var t, acts :| Run(t, acts) && t[|acts|] == s;
    InvAlways(t, acts, |acts|);
  }
}
