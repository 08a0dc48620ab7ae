/**
  The fine-grained scheduler is complete: once every thread is through, a task that has
  not been released has a dependency that is not in the store.

  Three invariants carry the argument.  An unresolved dependency of a pending task is
  still to be indexed, or indexed, or on the list some notification is working through.
  An indexed task's dependency, once in the store and not as a failure, is about to be announced by someone.
  A pending task with nothing unresolved is about to be removed by someone.
 */
module RustComplete {
  import opened Collections
  import opened RustScheduler
  import opened RustSafety

  // ------------------------------------------------------- unresolved dependencies

  /** The thread will still index `t` under `d`, or discard `d` from `t`. */
  predicate WorksOn(s: State, th: Thread, t: nat, d: nat)
  {
    match th
    case Indexing(u, i) => u == t && i <= |DepsOf(s, t)| && d in DepsOf(s, t)[i..]
    case Scanning(e, list, i, _) => e == d && i <= |list| && t in list[i..]
    case Removing(e, list, i, _) => e == d && i < |list| && t in list[i + 1..]
    case Pushing(e, list, i, _) => e == d && i < |list| && t in list[i + 1..]
    case _ => false
  }

  ghost predicate Tracked(s: State, t: nat, d: nat)
  {
    t in Waiters(s, d) || exists k :: k in s.threads && WorksOn(s, s.threads[k], t, d)
  }

  ghost predicate TrackInv(s: State)
  {
    forall t, d :: t in s.pending && d in s.pending[t] ==> Tracked(s, t, d)
  }

  // ------------------------------------------------------- announcements

  /** The rest of a pass will look `d` up. */
  predicate PassSees(s: State, t: nat, i: nat, d: nat)
  {
    i <= |DepsOf(s, t)| && d in DepsOf(s, t)[i..]
  }

  predicate AfterSees(s: State, after: After, d: nat)
  {
    after.Resume? && PassSees(s, after.t, after.i, d)
  }

  /** The thread will announce `d`, or look it up and announce it if it is in the store. */
  predicate WillAnnounce(s: State, th: Thread, d: nat)
  {
    match th
    case Indexing(t, _) => d in DepsOf(s, t)
    case Rechecking(t, i) => PassSees(s, t, i, d)
    case Notifying(e, after) => e == d || AfterSees(s, after, d)
    case Scanning(_, _, _, after) => AfterSees(s, after, d)
    case Removing(_, _, _, after) => AfterSees(s, after, d)
    case Pushing(_, _, _, after) => AfterSees(s, after, d)
    case _ => false
  }

  ghost predicate SomeoneAnnounces(s: State, d: nat)
  {
    exists k :: k in s.threads && WillAnnounce(s, s.threads[k], d)
  }

  ghost predicate AnnounceInv(s: State)
  {
    forall d :: d in s.store && d !in s.failed && Waiters(s, d) != [] ==> SomeoneAnnounces(s, d)
  }

  // ------------------------------------------------------- empty entries

  predicate WillRemove(th: Thread, t: nat)
  {
    th.Removing? && th.i < |th.list| && th.list[th.i] == t
  }

  ghost predicate SomeoneRemoves(s: State, t: nat)
  {
    exists k :: k in s.threads && WillRemove(s.threads[k], t)
  }

  ghost predicate EmptyInv(s: State)
  {
    forall t :: t in s.pending && s.pending[t] == {} ==> SomeoneRemoves(s, t)
  }

  // ------------------------------------------------------- steps

  lemma OtherThreadStays(s: State, l: Label, k: nat)
    requires Enabled(s, l) && k in s.threads && !(l.Step? && l.k == k)
    ensures k in Next(s, l).threads && Next(s, l).threads[k] == s.threads[k]
  {
    hide Moved;
  }

  lemma MovedIsThere(s: State, k: nat)
    requires k in s.threads && Moved(s, k).Some?
    ensures k in Next(s, Step(k)).threads && Next(s, Step(k)).threads[k] == Moved(s, k).value
  {
    hide Moved;
  }

  lemma IndexingMoves(s: State, k: nat, t: nat, d: nat)
    requires k in s.threads && s.threads[k].Indexing? && WorksOn(s, s.threads[k], t, d)
    requires Shape(s, s.threads[k])
    ensures var s' := Next(s, Step(k));
      || (Moved(s, k).Some? && WorksOn(s', Moved(s, k).value, t, d))
      || t in Waiters(s', d)
  {
    var i := s.threads[k].i;
    assert DepsOf(s, t)[i..] == [DepsOf(s, t)[i]] + DepsOf(s, t)[i + 1..];
  }

  lemma ScanningMoves(s: State, k: nat, t: nat, d: nat)
    requires k in s.threads && s.threads[k].Scanning? && WorksOn(s, s.threads[k], t, d)
    requires Shape(s, s.threads[k])
    ensures var s' := Next(s, Step(k));
      || (Moved(s, k).Some? && WorksOn(s', Moved(s, k).value, t, d))
      || !(t in s'.pending && d in s'.pending[t])
  {
    var list, i := s.threads[k].list, s.threads[k].i;
    assert list[i..] == [list[i]] + list[i + 1..];
  }

  lemma WorkMoves(s: State, k: nat, t: nat, d: nat)
    requires ShapeInv(s) && k in s.threads && WorksOn(s, s.threads[k], t, d)
    ensures var s' := Next(s, Step(k));
      || (Moved(s, k).Some? && WorksOn(s', Moved(s, k).value, t, d))
      || t in Waiters(s', d)
      || !(t in s'.pending && d in s'.pending[t])
  {
    assert Shape(s, s.threads[k]);
    hide ShapeInv, Shape;
    if s.threads[k].Indexing? {
      IndexingMoves(s, k, t, d);
      hide Next, Moved, WorksOn;
    } else if s.threads[k].Scanning? {
      ScanningMoves(s, k, t, d);
      hide Next, Moved, WorksOn;
    }
  }

  lemma IndexMoves(s: State, k: nat, t: nat, d: nat)
    requires k in s.threads && t in Waiters(s, d)
    ensures var s' := Next(s, Step(k));
      || t in Waiters(s', d)
      || (Moved(s, k).Some? && WorksOn(s', Moved(s, k).value, t, d))
  {
    if s.threads[k].Notifying? {
      assert Waiters(s, d)[0..] == Waiters(s, d);
    }
  }

  lemma WorkStays(s: State, l: Label, th: Thread, t: nat, d: nat)
    requires Enabled(s, l) && WorksOn(s, th, t, d) && t in s.deps
    ensures WorksOn(Next(s, l), th, t, d)
  {
    DepsStay(s, l);
    hide Next;
  }

  lemma InsertTracks(s: State, k: nat, d: nat)
    requires ShapeInv(s) && k in s.threads && s.threads[k].Inserting? && d in DepsOf(s, s.threads[k].t)
    ensures Tracked(Next(s, Step(k)), s.threads[k].t, d)
  {
    var t, s' := s.threads[k].t, Next(s, Step(k));
    assert DepsOf(s', t)[0..] == DepsOf(s, t);
    assert WorksOn(s', s'.threads[k], t, d);
  }

  lemma TrackStep(s: State, l: Label)
    requires SafeInv(s) && TrackInv(s) && Enabled(s, l)
    ensures TrackInv(Next(s, l))
  {
    hide PlaceInv, InsertInv, ShapeInv, Next, Moved, WorksOn, Waiters;
    var s' := Next(s, l);
    forall t, d | t in s'.pending && d in s'.pending[t]
      ensures Tracked(s', t, d)
    {
      PendingChange(s, l, t);
      if l.Step? && s.threads[l.k].Inserting? && t == s.threads[l.k].t && s'.pending[t] == Elems(DepsOf(s, t)) {
        InsertTracks(s, l.k, d);
      } else {
        assert d in s.pending[t];
        KeepTracked(s, l, t, d);
      }
    }
  }

  lemma KeepTracked(s: State, l: Label, t: nat, d: nat)
    requires SafeInv(s) && Enabled(s, l) && Tracked(s, t, d) && t in s.pending
    requires t in Next(s, l).pending && d in Next(s, l).pending[t]
    ensures Tracked(Next(s, l), t, d)
  {
    hide PlaceInv, InsertInv, ShapeInv, Next, Moved, WorksOn, Waiters, ThreadPut, AllPut;
    assert PendingPut(s, t);
    if k :| k in s.threads && WorksOn(s, s.threads[k], t, d) {
      if l.Step? && l.k == k {
        WorkMoves(s, k, t, d);
        if Moved(s, k).Some? {
          MovedIsThere(s, k);
        }
      } else {
        OtherThreadStays(s, l, k);
        WorkStays(s, l, s.threads[k], t, d);
      }
    } else if l.Step? {
      IndexMoves(s, l.k, t, d);
      if Moved(s, l.k).Some? {
        MovedIsThere(s, l.k);
      }
    } else {
      WaitersStay(s, l, d);
    }
  }

  lemma WaitersStay(s: State, l: Label, d: nat)
    requires Enabled(s, l) && !l.Step?
    ensures Waiters(Next(s, l), d) == Waiters(s, d)
  {
  }

  lemma RecheckMoves(s: State, k: nat, d: nat)
    requires k in s.threads && s.threads[k].Rechecking? && WillAnnounce(s, s.threads[k], d)
    requires Shape(s, s.threads[k])
    ensures var s' := Next(s, Step(k));
      || (Moved(s, k).Some? && WillAnnounce(s', Moved(s, k).value, d))
      || d !in s'.store
  {
    var t, i := s.threads[k].t, s.threads[k].i;
    assert DepsOf(s, t)[i..] == [DepsOf(s, t)[i]] + DepsOf(s, t)[i + 1..];
  }

  /** A thread that is to announce `d` still is after its step, unless it has just taken
      the list of `d` or found `d` missing. */
  lemma AnnounceMoves(s: State, k: nat, d: nat)
    requires ShapeInv(s) && k in s.threads && WillAnnounce(s, s.threads[k], d)
    ensures var s' := Next(s, Step(k));
      || (Moved(s, k).Some? && WillAnnounce(s', Moved(s, k).value, d))
      || Waiters(s', d) == []
      || d !in s'.store
  {
    assert Shape(s, s.threads[k]);
    hide ShapeInv;
    if s.threads[k].Rechecking? {
      RecheckMoves(s, k, d);
      hide Next, Moved, WillAnnounce;
    } else if s.threads[k].Indexing? {
      var t := s.threads[k].t;
      assert DepsOf(s, t)[0..] == DepsOf(s, t);
    }
  }

  lemma AnnounceStays(s: State, l: Label, th: Thread, d: nat)
    requires Enabled(s, l) && WillAnnounce(s, th, d) && Shape(s, th)
    ensures WillAnnounce(Next(s, l), th, d)
  {
    DepsStay(s, l);
    hide Next;
  }

  /** A put is followed by an announcement, and so is an indexing. */
  lemma AnnounceStarts(s: State, k: nat, d: nat)
    requires ShapeInv(s) && k in s.threads
    requires (s.threads[k].Putting? && s.threads[k].d == d)
          || (s.threads[k].Indexing? && d == DepsOf(s, s.threads[k].t)[s.threads[k].i])
    ensures Moved(s, k).Some? && WillAnnounce(Next(s, Step(k)), Moved(s, k).value, d)
  {
    assert Shape(s, s.threads[k]);
    if s.threads[k].Indexing? {
      var t := s.threads[k].t;
      assert DepsOf(s, t)[0..] == DepsOf(s, t);
    }
  }

  /** Where an indexed object in the store comes from. */
  lemma IndexedOrigin(s: State, l: Label, d: nat)
    requires ShapeInv(s) && Enabled(s, l)
    requires d in Next(s, l).store && d !in Next(s, l).failed && Waiters(Next(s, l), d) != []
    ensures
      || (d in s.store && d !in s.failed && Waiters(s, d) != [])
      || (l.Step? && s.threads[l.k].Putting? && s.threads[l.k].d == d)
      || (l.Step? && s.threads[l.k].Indexing? && d == DepsOf(s, s.threads[l.k].t)[s.threads[l.k].i])
  {
    if l.Step? {
      assert Shape(s, s.threads[l.k]);
    }
    hide Moved, ShapeInv;
  }

  lemma AnnounceStep(s: State, l: Label)
    requires SafeInv(s) && AnnounceInv(s) && Enabled(s, l)
    ensures AnnounceInv(Next(s, l))
  {
    hide PlaceInv, InsertInv, PutInv, ShapeInv, Next, Moved, WillAnnounce, Waiters;
    var s' := Next(s, l);
    forall d | d in s'.store && d !in s'.failed && Waiters(s', d) != []
      ensures SomeoneAnnounces(s', d)
    {
      IndexedOrigin(s, l, d);
      if d in s.store && d !in s.failed && Waiters(s, d) != [] {
        var k :| k in s.threads && WillAnnounce(s, s.threads[k], d);
        if l.Step? && l.k == k {
          AnnounceMoves(s, k, d);
          MovedIsThere(s, k);
        } else {
          OtherThreadStays(s, l, k);
          OldShape(s, k);
          AnnounceStays(s, l, s.threads[k], d);
        }
      } else {
        AnnounceStarts(s, l.k, d);
        MovedIsThere(s, l.k);
      }
    }
  }

  lemma EmptyOrigin(s: State, l: Label, t: nat)
    requires ShapeInv(s) && Enabled(s, l) && t in Next(s, l).pending && Next(s, l).pending[t] == {}
    requires !(t in s.pending && s.pending[t] == {})
    ensures l.Step? && Moved(s, l.k).Some? && WillRemove(Moved(s, l.k).value, t)
  {
    PendingChange(s, l, t);
    if l.Step? && s.threads[l.k].Inserting? && t == s.threads[l.k].t && Next(s, l).pending[t] == Elems(DepsOf(s, t)) {
      if DepsOf(s, t) != [] {
        InsertedNotEmpty(s, l.k);
      }
    } else {
      assert Shape(s, s.threads[l.k]);
    }
    hide Next, ShapeInv;
  }

  lemma InsertedNotEmpty(s: State, k: nat)
    requires k in s.threads && s.threads[k].Inserting?
    requires s.threads[k].t in Next(s, Step(k)).pending && DepsOf(s, s.threads[k].t) != []
    ensures Next(s, Step(k)).pending[s.threads[k].t] != {}
  {
    var q := DepsOf(s, s.threads[k].t);
    assert q != [] ==> q[0] in Elems(q);
  }

  lemma EmptyStep(s: State, l: Label)
    requires SafeInv(s) && EmptyInv(s) && Enabled(s, l)
    ensures EmptyInv(Next(s, l))
  {
    hide PlaceInv, InsertInv, PutInv, ShapeInv, Next, Moved, WillRemove;
    var s' := Next(s, l);
    forall t | t in s'.pending && s'.pending[t] == {}
      ensures SomeoneRemoves(s', t)
    {
      if t in s.pending && s.pending[t] == {} {
        var k :| k in s.threads && WillRemove(s.threads[k], t);
        if l.Step? && l.k == k {
          RemovedIsGone(s, k, t);
        } else {
          OtherThreadStays(s, l, k);
        }
      } else {
        EmptyOrigin(s, l, t);
        MovedIsThere(s, l.k);
      }
    }
  }

  lemma RemovedIsGone(s: State, k: nat, t: nat)
    requires k in s.threads && WillRemove(s.threads[k], t)
    ensures t !in Next(s, Step(k)).pending
  {
  }

  ghost predicate CompleteInv(s: State)
  {
    SafeInv(s) && TrackInv(s) && AnnounceInv(s) && EmptyInv(s)
  }

  lemma {:induction false} CompleteAlways(run: seq<State>, labels: seq<Label>, i: nat)
    requires IsRun(run, labels) && i < |run|
    ensures CompleteInv(run[i])
    decreases i
  {
    if i == 0 {
      SafeAlways(run, labels, 0);
    } else {
      hide SafeInv, TrackInv, AnnounceInv, EmptyInv, Next, Enabled;
      var s, l := run[i - 1], labels[i - 1];
      CompleteAlways(run, labels, i - 1);
      SafeStep(s, l);
      TrackStep(s, l);
      AnnounceStep(s, l);
      EmptyStep(s, l);
    }
  }

  /**
    Completeness.  Under every interleaving, when no submission, put or notification is
    in progress, each submitted task has been released or is pending, and each pending
    task has a dependency that is not in the store, or is there as a failure nobody
    announced: none whose dependencies are all there and good is forgotten.
   */
  lemma NothingForgotten(run: seq<State>, labels: seq<Label>, i: nat, t: nat)
    requires IsRun(run, labels) && i < |run| && run[i].threads == map[] && t in run[i].deps
    ensures t in run[i].released <==> t !in run[i].pending
    ensures t in run[i].pending ==> exists d :: d in run[i].deps[t] && (d !in run[i].store || d in run[i].failed)
  {
    var s := run[i];
    CompleteAlways(run, labels, i);
    hide IsRun;
    assert Held(s.threads) == {};
    assert t in s.deps.Keys;
    hide ShapeInv, InsertInv, NoRepeats, HeldOnce, ThreadPut, AllPut;
    if t in s.pending {
      hide Partition;
      var d :| d in s.pending[t];
      assert Tracked(s, t, d);
      hide TrackInv;
      assert t in Waiters(s, d);
      assert d !in s.store || d in s.failed;
      hide AnnounceInv;
      ListedIsDependency(s, t, d);
    }
  }

  lemma ListedIsDependency(s: State, t: nat, d: nat)
    requires CompleteInv(s) && s.threads == map[] && t in s.pending && d in s.pending[t]
    ensures t in s.deps && d in s.deps[t]
  {
    hide ShapeInv, PlaceInv, InsertInv, ThreadPut, TrackInv, AnnounceInv, EmptyInv;
    assert PendingPut(s, t);
  }

  /** The failure case does occur: a task is submitted, then its only dependency fails.
      Every call is through, the dependency is stored, and the task stays pending. */
  lemma FailureIsNotAnnounced() returns (run: seq<State>)
    ensures IsRun(run, [StartSubmit(0, 1, [5]), Step(0), Step(0), Step(0), Step(0), PutError(5)])
    ensures run[6].threads == map[] && run[6].pending == map[1 := {5}] && run[6].store == {5}
  {
    var s1 := Next(INIT, StartSubmit(0, 1, [5]));
    var s2 := Next(s1, Step(0));
    assert Elems([5]) == {5};
    assert s2.pending == map[1 := {5}] && s2.threads == map[0 := Indexing(1, 0)];
    var s3 := Next(s2, Step(0));
    assert s3.threads == map[0 := Rechecking(1, 0)] && s3.pending == map[1 := {5}];
    var s4 := Next(s3, Step(0));
    assert s4.threads == map[0 := Rechecking(1, 1)];
    var s5 := Next(s4, Step(0));
    assert s5.threads == map[];
    var s6 := Next(s5, PutError(5));
    run := [INIT, s1, s2, s3, s4, s5, s6];
  }
}
