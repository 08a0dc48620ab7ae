/**
  What a reconstruction has to recompute: the missing ancestors of an object that are
  reached through missing objects.
 */
module Reconstruction {
  import opened Lineage

  function DirectDeps(tb: Table, o: nat): seq<nat>
    requires WellFounded(tb) && o in tb.producer
  {
    tb.tasks[tb.producer[o]].deps
  }

  /** The objects to recompute for `o` when those in `have` are there. */
  ghost function Lost(tb: Table, have: set<nat>, o: nat): set<nat>
    requires WellFounded(tb) && o in tb.producer
    decreases o
  {
    if o in have then {}
    else
      {o} + set d, x | d in DirectDeps(tb, o) && d < o && d in tb.producer && x in Lost(tb, have, d) :: x
  }

  ghost function LostOf(tb: Table, have: set<nat>, ds: seq<nat>): set<nat>
    requires WellFounded(tb) && forall d :: d in ds ==> d in tb.producer
  {
    set d, x | d in ds && x in Lost(tb, have, d) :: x
  }

  lemma DepsDescend(tb: Table, o: nat)
    requires WellFounded(tb) && o in tb.producer
    ensures forall d :: d in DirectDeps(tb, o) ==> d in tb.producer && d < o
  {
    hide DepsOf;
    var t := tb.producer[o];
    assert t in tb.tasks && tb.tasks[t].oid == o;
    forall d | d in DirectDeps(tb, o)
      ensures d in tb.producer && d < o
    {
      assert d in tb.tasks[t].deps;
    }
  }

  lemma Unfold(tb: Table, have: set<nat>, o: nat)
    requires WellFounded(tb) && o in tb.producer
    ensures forall d :: d in DirectDeps(tb, o) ==> d in tb.producer && d < o
    ensures Lost(tb, have, o) == if o in have then {} else {o} + LostOf(tb, have, DirectDeps(tb, o))
  {
    DepsDescend(tb, o);
    hide WellFounded;
  }

  lemma PartOf(tb: Table, have: set<nat>, ds: seq<nat>, d: nat)
    requires WellFounded(tb) && (forall e :: e in ds ==> e in tb.producer) && d in ds
    ensures Lost(tb, have, d) <= LostOf(tb, have, ds)
  {
    hide Lost, WellFounded;
  }

  /** `path` leads from `o` to `x` along dependencies, and none of its objects is there. */
  ghost predicate LostPath(tb: Table, have: set<nat>, o: nat, x: nat, path: seq<nat>)
    requires WellFounded(tb)
    decreases |path|
  {
    && path != [] && path[0] == o && o in tb.producer && o !in have
    && if |path| == 1 then x == o else path[1] in DirectDeps(tb, o) && LostPath(tb, have, path[1], x, path[1..])
  }

  lemma {:induction false} ReachedIsMissing(tb: Table, have: set<nat>, o: nat, x: nat, path: seq<nat>)
    requires WellFounded(tb) && o in tb.producer && LostPath(tb, have, o, x, path)
    ensures x in Lost(tb, have, o)
    decreases |path|
  {
    hide WellFounded, Lost, DirectDeps;
    Unfold(tb, have, o);
    if |path| > 1 {
      ReachedIsMissing(tb, have, path[1], x, path[1..]);
      PartOf(tb, have, DirectDeps(tb, o), path[1]);
    }
  }

  lemma {:induction false} LostIsReachable(tb: Table, have: set<nat>, o: nat, x: nat) returns (path: seq<nat>)
    requires WellFounded(tb) && o in tb.producer && x in Lost(tb, have, o)
    ensures LostPath(tb, have, o, x, path)
    decreases o
  {
    hide WellFounded, Lost, DirectDeps;
    Unfold(tb, have, o);
    if x == o {
      path := [o];
    } else {
      var d :| d in DirectDeps(tb, o) && x in Lost(tb, have, d);
      path := LostIsReachable(tb, have, d, x);
      assert ([o] + path)[1..] == path;
      path := [o] + path;
    }
  }

  /** `Lost` is exactly what can be reached through missing objects. */
  lemma LostIsReached(tb: Table, have: set<nat>, o: nat, x: nat)
    requires WellFounded(tb) && o in tb.producer
    ensures x in Lost(tb, have, o) <==> exists path :: LostPath(tb, have, o, x, path)
  {
    hide WellFounded, Lost, LostPath;
    if x in Lost(tb, have, o) {
      var path := LostIsReachable(tb, have, o, x);
    }
    if path :| LostPath(tb, have, o, x, path) {
      ReachedIsMissing(tb, have, o, x, path);
    }
  }

  lemma {:induction false} LostBounds(tb: Table, have: set<nat>, o: nat)
    requires WellFounded(tb) && o in tb.producer
    ensures forall x :: x in Lost(tb, have, o) ==> x <= o && x in tb.producer && x !in have
    decreases o
  {
    hide WellFounded, Lost, DirectDeps;
    Unfold(tb, have, o);
    forall d | d in DirectDeps(tb, o)
      ensures forall x :: x in Lost(tb, have, d) ==> x <= d && x in tb.producer && x !in have
    {
      LostBounds(tb, have, d);
    }
  }

  /** Whatever a member of `done` depends on is there or in `done`. */
  ghost predicate Closed(tb: Table, have: set<nat>, done: set<nat>)
    requires WellFounded(tb)
  {
    forall x :: x in done ==> x in tb.producer && forall d :: d in DirectDeps(tb, x) ==> d in have || d in done
  }

  lemma {:induction false} LostClosed(tb: Table, have: set<nat>, o: nat)
    requires WellFounded(tb) && o in tb.producer
    ensures Closed(tb, have, Lost(tb, have, o))
    ensures o in have || o in Lost(tb, have, o)
    decreases o
  {
    hide WellFounded, Lost, DirectDeps;
    Unfold(tb, have, o);
    if o !in have {
      var ds, m := DirectDeps(tb, o), Lost(tb, have, o);
      forall d | d in ds
        ensures Lost(tb, have, d) <= m && Closed(tb, have, Lost(tb, have, d))
        ensures d in have || d in m
      {
        LostClosed(tb, have, d);
        PartOf(tb, have, ds, d);
      }
    }
  }

  lemma {:induction false} LostInClosed(tb: Table, have: set<nat>, done: set<nat>, o: nat)
    requires WellFounded(tb) && o in tb.producer && Closed(tb, have, done) && o in done
    ensures Lost(tb, have, o) <= done
    decreases o
  {
    hide WellFounded, Lost, DirectDeps;
    Unfold(tb, have, o);
    forall d | d in DirectDeps(tb, o)
      ensures Lost(tb, have, d) <= done
    {
      if d in done {
        LostInClosed(tb, have, done, d);
      } else {
        Unfold(tb, have, d);
      }
    }
  }

  /** The more is there, the less is to be rebuilt. */
  lemma {:induction false} LostShrinks(tb: Table, have: set<nat>, have': set<nat>, o: nat)
    requires WellFounded(tb) && o in tb.producer && have <= have'
    ensures Lost(tb, have', o) <= Lost(tb, have, o)
    decreases o
  {
    hide WellFounded, Lost, DirectDeps;
    Unfold(tb, have, o);
    Unfold(tb, have', o);
    if o !in have' {
      forall d | d in DirectDeps(tb, o)
        ensures Lost(tb, have', d) <= LostOf(tb, have, DirectDeps(tb, o))
      {
        LostShrinks(tb, have, have', d);
        PartOf(tb, have, DirectDeps(tb, o), d);
      }
    }
  }

  /** Once part of the work is done, exactly the rest remains: a shared ancestor is
      recomputed for the first object that needs it and for no other. */
  lemma {:induction false} WhatRemains(tb: Table, have: set<nat>, done: set<nat>, o: nat)
    requires WellFounded(tb) && o in tb.producer && Closed(tb, have, done)
    ensures Lost(tb, have + done, o) == Lost(tb, have, o) - done
    decreases o
  {
    hide WellFounded, Lost, DirectDeps;
    Unfold(tb, have, o);
    Unfold(tb, have + done, o);
    if o in done {
      LostInClosed(tb, have, done, o);
    } else if o !in have {
      forall d | d in DirectDeps(tb, o)
        ensures Lost(tb, have + done, d) == Lost(tb, have, d) - done
      {
        WhatRemains(tb, have, done, d);
      }
      hide Closed;
      LostOfMinus(tb, have, done, DirectDeps(tb, o));
    }
  }

  lemma LostOfMinus(tb: Table, have: set<nat>, done: set<nat>, ds: seq<nat>)
    requires WellFounded(tb) && forall d :: d in ds ==> d in tb.producer
    requires forall d :: d in ds ==> Lost(tb, have + done, d) == Lost(tb, have, d) - done
    ensures LostOf(tb, have + done, ds) == LostOf(tb, have, ds) - done
  {
    hide WellFounded, Lost;
    var all, rest := LostOf(tb, have, ds), LostOf(tb, have + done, ds);
    forall x | x in all && x !in done
      ensures x in rest
    {
      var d :| d in ds && x in Lost(tb, have, d);
      assert x in Lost(tb, have + done, d);
    }
  }

  lemma LostUnfolds(tb: Table, have: set<nat>, o: nat)
    requires WellFounded(tb) && o in tb.producer && o !in have
    ensures forall d :: d in DirectDeps(tb, o) ==> d in tb.producer
    ensures Lost(tb, have, o) == {o} + LostOf(tb, have, DirectDeps(tb, o))
    ensures o !in LostOf(tb, have, DirectDeps(tb, o))
  {
    hide WellFounded, Lost, DirectDeps;
    Unfold(tb, have, o);
    forall d | d in DirectDeps(tb, o)
      ensures o !in Lost(tb, have, d)
    {
      LostBounds(tb, have, d);
    }
  }
}
