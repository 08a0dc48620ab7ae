/**
  The rule the fine-grained scheduler implements, exactly: once every thread is through, a
  task is pending if and only if some dependency has had no list taken by an announcement
  since the task was indexed under it.
 */
module RustExact {
  import opened Wrappers
  import opened RustScheduler
  import opened RustSafety
  import opened RustComplete

  /** `t` was indexed under `d`. */
  ghost predicate Indexed(log: seq<Event>, t: nat, d: nat)
  {
    DidIndex(t, d) in log
  }

  /** An announcement took the list of `d` after `t` had been indexed under it. */
  ghost predicate TakenSince(log: seq<Event>, t: nat, d: nat)
  {
    exists r: nat, m: nat :: r < m < |log| && log[r] == DidIndex(t, d) && log[m] == DidTake(d)
  }

  lemma IndexedAppend(log: seq<Event>, e: Event, t: nat, d: nat)
    ensures Indexed(log + [e], t, d) <==> Indexed(log, t, d) || e == DidIndex(t, d)
  {
    assert (log + [e])[|log|] == e;
  }

  lemma TakenAppend(log: seq<Event>, e: Event, t: nat, d: nat)
    ensures TakenSince(log + [e], t, d) <==> TakenSince(log, t, d) || (e == DidTake(d) && Indexed(log, t, d))
  {
    var log' := log + [e];
    assert forall m :: 0 <= m < |log| ==> log'[m] == log[m];
    if TakenSince(log, t, d) {
      var r: nat, m: nat :| r < m < |log| && log[r] == DidIndex(t, d) && log[m] == DidTake(d);
      assert log'[r] == DidIndex(t, d) && log'[m] == DidTake(d);
    }
    if e == DidTake(d) && Indexed(log, t, d) {
      var r: nat :| r < |log| && log[r] == DidIndex(t, d);
      assert log'[r] == DidIndex(t, d) && log'[|log|] == DidTake(d);
    }
    if TakenSince(log', t, d) {
      var r: nat, m: nat :| r < m < |log'| && log'[r] == DidIndex(t, d) && log'[m] == DidTake(d);
      assert m < |log| ==> log[r] == DidIndex(t, d) && log[m] == DidTake(d);
      assert m == |log| ==> log[r] == DidIndex(t, d);
    }
  }

  /** The one event a step may add to the log. */
  function NewEvent(s: State, l: Label): Option<Event>
    requires Enabled(s, l)
  {
    if !l.Step? then None
    else match s.threads[l.k]
      case Indexing(t, i) => if i < |DepsOf(s, t)| then Some(DidIndex(t, DepsOf(s, t)[i])) else None
      case Notifying(d, _) => Some(DidTake(d))
      case _ => None
  }

  lemma LogStep(s: State, l: Label)
    requires Enabled(s, l)
    ensures Next(s, l).log == match NewEvent(s, l) case None => s.log case Some(e) => s.log + [e]
  {
    hide Moved;
  }

  /** What was indexed stays indexed, and what was taken stays taken. */
  lemma HistoryGrows(s: State, l: Label, t: nat, d: nat)
    requires Enabled(s, l)
    ensures Indexed(s.log, t, d) ==> Indexed(Next(s, l).log, t, d)
    ensures TakenSince(s.log, t, d) ==> TakenSince(Next(s, l).log, t, d)
  {
    hide Next, Indexed, TakenSince;
    LogStep(s, l);
    if NewEvent(s, l).Some? {
      IndexedAppend(s.log, NewEvent(s, l).value, t, d);
      TakenAppend(s.log, NewEvent(s, l).value, t, d);
    }
  }

  // ------------------------------------------------------- the index and the log

  /** The list of `d` holds only what was indexed under `d`, and all of it that has not been
      taken since. */
  ghost predicate ListInv(s: State)
  {
    && (forall d, t :: t in Waiters(s, d) ==> Indexed(s.log, t, d))
    && (forall d, t :: Indexed(s.log, t, d) && !TakenSince(s.log, t, d) ==> t in Waiters(s, d))
  }

  /** Every dependency of an inserted task has been indexed, or some thread is at it. */
  ghost predicate SubmitInv(s: State)
  {
    forall t, d :: t in s.inserted && d in DepsOf(s, t) ==> Indexed(s.log, t, d) || StillIndexes(s, t, d)
  }

  ghost predicate StillIndexes(s: State, t: nat, d: nat)
  {
    exists k :: k in s.threads && WillIndex(s, s.threads[k], t, d)
  }

  predicate WillIndex(s: State, th: Thread, t: nat, d: nat)
  {
    th.Indexing? && th.t == t && th.i <= |DepsOf(s, t)| && d in DepsOf(s, t)[th.i..]
  }

  // ------------------------------------------------------- nothing is discarded too early

  ghost predicate AllTaken(s: State, t: nat)
  {
    t in s.deps && forall d :: d in s.deps[t] ==> TakenSince(s.log, t, d)
  }

  /** What `t` no longer lists has been taken since. */
  ghost predicate PendingTaken(s: State, t: nat)
  {
    t in s.deps && t in s.pending && forall d :: d in s.deps[t] && d !in s.pending[t] ==> TakenSince(s.log, t, d)
  }

  /** A list that has been taken was taken after its tasks were indexed. */
  ghost predicate ThreadTaken(s: State, th: Thread)
  {
    match th
    case Scanning(d, list, _, _) => forall t :: t in list ==> TakenSince(s.log, t, d)
    case Removing(d, list, _, _) => forall t :: t in list ==> TakenSince(s.log, t, d)
    case Pushing(d, list, i, _) =>
      (forall t :: t in list ==> TakenSince(s.log, t, d)) && (i < |list| ==> AllTaken(s, list[i]))
    case _ => true
  }

  ghost predicate TakenInv(s: State)
  {
    && (forall t :: t in s.released ==> AllTaken(s, t))
    && (forall t :: t in s.pending ==> PendingTaken(s, t))
    && (forall k :: k in s.threads ==> ThreadTaken(s, s.threads[k]))
  }

  // ------------------------------------------------------- nor too late

  /** The thread will still discard `d` from `t`. */
  predicate Discards(th: Thread, t: nat, d: nat)
  {
    match th
    case Scanning(e, list, i, _) => e == d && i <= |list| && t in list[i..]
    case Removing(e, list, i, _) => e == d && i < |list| && t in list[i + 1..]
    case Pushing(e, list, i, _) => e == d && i < |list| && t in list[i + 1..]
    case _ => false
  }

  ghost predicate SomeoneDiscards(s: State, t: nat, d: nat)
  {
    exists k :: k in s.threads && Discards(s.threads[k], t, d)
  }

  ghost predicate DiscardInv(s: State)
  {
    forall t, d :: t in s.pending && d in s.pending[t] && TakenSince(s.log, t, d) ==> SomeoneDiscards(s, t, d)
  }

  /** A task is only indexed once it is inserted. */
  ghost predicate KnownInv(s: State)
  {
    forall t, d :: Indexed(s.log, t, d) ==> t in s.inserted
  }

  // ------------------------------------------------------- steps

  lemma ListStep(s: State, l: Label)
    requires ListInv(s) && Enabled(s, l) && ShapeInv(s)
    ensures ListInv(Next(s, l))
  {
    hide Indexed, TakenSince, Moved;
    var s' := Next(s, l);
    LogStep(s, l);
    if l.Step? {
      assert Shape(s, s.threads[l.k]);
    }
    hide ShapeInv;
    forall d, t
      ensures t in Waiters(s', d) ==> Indexed(s'.log, t, d)
      ensures Indexed(s'.log, t, d) && !TakenSince(s'.log, t, d) ==> t in Waiters(s', d)
    {
      if NewEvent(s, l).Some? {
        IndexedAppend(s.log, NewEvent(s, l).value, t, d);
        TakenAppend(s.log, NewEvent(s, l).value, t, d);
      }
    }
  }

  lemma KnownStep(s: State, l: Label)
    requires KnownInv(s) && Enabled(s, l) && ShapeInv(s)
    ensures KnownInv(Next(s, l))
  {
    hide Indexed, Moved;
    var s' := Next(s, l);
    LogStep(s, l);
    DepsStay(s, l);
    if l.Step? {
      assert Shape(s, s.threads[l.k]);
    }
    hide Next, ShapeInv;
    forall t, d | Indexed(s'.log, t, d)
      ensures t in s'.inserted
    {
      if NewEvent(s, l).Some? {
        IndexedAppend(s.log, NewEvent(s, l).value, t, d);
      }
    }
  }

  // ---- discarding too early

  lemma AllTakenStays(s: State, l: Label, t: nat)
    requires Enabled(s, l) && AllTaken(s, t)
    ensures AllTaken(Next(s, l), t)
  {
    hide Next, TakenSince;
    DepsStay(s, l);
    forall d | d in s.deps[t]
      ensures TakenSince(Next(s, l).log, t, d)
    {
      HistoryGrows(s, l, t, d);
    }
  }

  lemma PendingTakenStep(s: State, l: Label, t: nat)
    requires SafeInv(s) && TakenInv(s) && Enabled(s, l) && t in Next(s, l).pending
    ensures PendingTaken(Next(s, l), t)
  {
    hide PlaceInv, InsertInv, PutInv, TakenSince, Next, Moved;
    PendingChange(s, l, t);
    DepsStay(s, l);
    if l.Step? {
      assert Shape(s, s.threads[l.k]);
      assert ThreadTaken(s, s.threads[l.k]);
    }
    assert t in s.pending ==> PendingTaken(s, t);
    hide ShapeInv, TakenInv;
    forall d | d in Next(s, l).deps[t] && d !in Next(s, l).pending[t]
      ensures TakenSince(Next(s, l).log, t, d)
    {
      HistoryGrows(s, l, t, d);
    }
  }

  lemma ReleasedTakenStep(s: State, l: Label, t: nat)
    requires SafeInv(s) && TakenInv(s) && Enabled(s, l) && t in Next(s, l).released
    ensures AllTaken(Next(s, l), t)
  {
    hide PlaceInv, InsertInv, PutInv, TakenSince, Moved;
    if t in s.released {
      AllTakenStays(s, l, t);
    } else {
      assert ThreadTaken(s, s.threads[l.k]);
      assert Shape(s, s.threads[l.k]);
      assert AllTaken(s, t);
      hide Next, ShapeInv, TakenInv;
      AllTakenStays(s, l, t);
    }
  }

  lemma OtherThreadTaken(s: State, l: Label, th: Thread)
    requires Enabled(s, l) && ThreadTaken(s, th)
    ensures ThreadTaken(Next(s, l), th)
  {
    hide Next, TakenSince, AllTaken;
    match th {
      case Scanning(d, list, _, _) =>
        forall t | t in list ensures TakenSince(Next(s, l).log, t, d) { HistoryGrows(s, l, t, d); }
      case Removing(d, list, _, _) =>
        forall t | t in list ensures TakenSince(Next(s, l).log, t, d) { HistoryGrows(s, l, t, d); }
      case Pushing(d, list, i, _) =>
        forall t | t in list ensures TakenSince(Next(s, l).log, t, d) { HistoryGrows(s, l, t, d); }
        if i < |list| {
          AllTakenStays(s, l, list[i]);
        }
      case _ =>
    }
  }

  lemma TakenNow(s: State, k: nat)
    requires ListInv(s) && k in s.threads && s.threads[k].Notifying?
    ensures forall t :: t in Waiters(s, s.threads[k].d) ==> TakenSince(Next(s, Step(k)).log, t, s.threads[k].d)
  {
    hide Indexed, TakenSince, Moved;
    var d := s.threads[k].d;
    LogStep(s, Step(k));
    forall t | t in Waiters(s, d)
      ensures TakenSince(Next(s, Step(k)).log, t, d)
    {
      TakenAppend(s.log, DidTake(d), t, d);
    }
  }

  lemma EmptiedIsTaken(s: State, t: nat)
    requires TakenInv(s) && t in s.pending && s.pending[t] == {}
    ensures AllTaken(s, t)
  {
    hide TakenSince;
    assert PendingTaken(s, t);
  }

  lemma RemovedTaken(s: State, k: nat)
    requires SafeInv(s) && TakenInv(s) && k in s.threads && s.threads[k].Removing? && Moved(s, k).Some?
    ensures ThreadTaken(s, Moved(s, k).value)
  {
    hide PlaceInv, InsertInv, TakenSince, AllTaken;
    var th := s.threads[k];
    assert Shape(s, th) && ThreadPut(s, th) && ThreadTaken(s, th);
    if th.list[th.i] in s.pending {
      EmptiedIsTaken(s, th.list[th.i]);
    }
    hide ShapeInv, PutInv, TakenInv;
  }

  lemma MovedTaken(s: State, k: nat)
    requires SafeInv(s) && TakenInv(s) && ListInv(s) && k in s.threads && Moved(s, k).Some?
    ensures ThreadTaken(Next(s, Step(k)), Moved(s, k).value)
  {
    hide SafeInv, TakenSince, AllTaken, ListInv;
    assert ThreadTaken(s, s.threads[k]);
    if s.threads[k].Notifying? {
      TakenNow(s, k);
      hide TakenInv, Next;
    } else if s.threads[k].Removing? {
      RemovedTaken(s, k);
      hide TakenInv, Next, Moved, ThreadTaken;
      OtherThreadTaken(s, Step(k), Moved(s, k).value);
    } else {
      hide TakenInv, Next;
      if s.threads[k].Scanning? || s.threads[k].Pushing? {
        assert ThreadTaken(s, Moved(s, k).value);
        OtherThreadTaken(s, Step(k), Moved(s, k).value);
      }
    }
  }

  lemma TakenStep(s: State, l: Label)
    requires SafeInv(s) && TakenInv(s) && ListInv(s) && Enabled(s, l)
    ensures TakenInv(Next(s, l))
  {
    hide SafeInv, ListInv, Next, Moved, ThreadTaken, PendingTaken, AllTaken;
    var s' := Next(s, l);
    forall t | t in s'.released
      ensures AllTaken(s', t)
    {
      ReleasedTakenStep(s, l, t);
    }
    forall t | t in s'.pending
      ensures PendingTaken(s', t)
    {
      PendingTakenStep(s, l, t);
    }
    forall k | k in s'.threads
      ensures ThreadTaken(s', s'.threads[k])
    {
      ThreadOrigin(s, l, k);
      if l.Step? && l.k == k {
        MovedTaken(s, k);
      } else if k in s.threads {
        OtherThreadTaken(s, l, s.threads[k]);
      } else {
        NewThreadTaken(s', s'.threads[k]);
      }
    }
  }

  lemma NewThreadTaken(s: State, th: Thread)
    requires th.Inserting? || th.Putting?
    ensures ThreadTaken(s, th)
  {
  }

  // ---- discarding too late

  lemma DiscardMoves(s: State, k: nat, t: nat, d: nat)
    requires ShapeInv(s) && k in s.threads && Discards(s.threads[k], t, d)
    ensures var s' := Next(s, Step(k));
      || (Moved(s, k).Some? && Discards(Moved(s, k).value, t, d))
      || !(t in s'.pending && d in s'.pending[t])
  {
    assert Shape(s, s.threads[k]);
    hide ShapeInv;
    if s.threads[k].Scanning? {
      var list, i := s.threads[k].list, s.threads[k].i;
      assert list[i..] == [list[i]] + list[i + 1..];
    }
  }

  lemma KeepsDiscarding(s: State, l: Label, t: nat, d: nat)
    requires SafeInv(s) && Enabled(s, l) && SomeoneDiscards(s, t, d)
    requires t in Next(s, l).pending && d in Next(s, l).pending[t]
    ensures SomeoneDiscards(Next(s, l), t, d)
  {
    hide PlaceInv, InsertInv, PutInv, ShapeInv, Next, Moved, Discards;
    var k :| k in s.threads && Discards(s.threads[k], t, d);
    if l.Step? && l.k == k {
      DiscardMoves(s, k, t, d);
      MovedIsThere(s, k);
    } else {
      OtherThreadStays(s, l, k);
    }
  }

  /** The announcement that takes the list a task is on will discard it. */
  lemma StartsDiscarding(s: State, l: Label, t: nat, d: nat)
    requires ListInv(s) && Enabled(s, l) && NewEvent(s, l) == Some(DidTake(d))
    requires Indexed(s.log, t, d) && !TakenSince(s.log, t, d)
    ensures SomeoneDiscards(Next(s, l), t, d)
  {
    hide Indexed, TakenSince;
    var list := Waiters(s, d);
    assert t in list && list[0..] == list;
    hide ListInv;
    assert l.Step? && s.threads[l.k].Notifying?;
    MovedIsThere(s, l.k);
    assert Discards(Moved(s, l.k).value, t, d);
    hide Next, Moved;
  }

  lemma DiscardStep(s: State, l: Label)
    requires SafeInv(s) && KnownInv(s) && ListInv(s) && DiscardInv(s) && Enabled(s, l)
    ensures DiscardInv(Next(s, l))
  {
    hide SafeInv, ListInv, Next, Moved, SomeoneDiscards, TakenSince, Indexed;
    var s' := Next(s, l);
    LogStep(s, l);
    forall t, d | t in s'.pending && d in s'.pending[t] && TakenSince(s'.log, t, d)
      ensures SomeoneDiscards(s', t, d)
    {
      PendingChange(s, l, t);
      if NewEvent(s, l).Some? {
        TakenAppend(s.log, NewEvent(s, l).value, t, d);
      }
      if TakenSince(s.log, t, d) {
        TakenIsKnown(s, t, d);
        if l.Step? && s.threads[l.k].Inserting? && t == s.threads[l.k].t {
          InsertingIsNew(s, l.k);
        }
        KeepsDiscarding(s, l, t, d);
      } else {
        StartsDiscarding(s, l, t, d);
      }
    }
  }

  lemma TakenIsKnown(s: State, t: nat, d: nat)
    requires KnownInv(s) && TakenSince(s.log, t, d)
    ensures t in s.inserted
  {
    assert Indexed(s.log, t, d);
  }

  lemma InsertingIsNew(s: State, k: nat)
    requires SafeInv(s) && k in s.threads && s.threads[k].Inserting?
    ensures s.threads[k].t !in s.inserted
  {
    hide PlaceInv, ShapeInv, PutInv;
  }

  // ---- indexing

  lemma SubmitStep(s: State, l: Label)
    requires ShapeInv(s) && SubmitInv(s) && Enabled(s, l)
    ensures SubmitInv(Next(s, l))
  {
    hide ShapeInv, Next, Moved, WillIndex, Indexed;
    var s' := Next(s, l);
    DepsStay(s, l);
    forall t, d | t in s'.inserted && d in DepsOf(s', t)
      ensures Indexed(s'.log, t, d) || StillIndexes(s', t, d)
    {
      if t in s.inserted {
        InsertedDeps(s, l, t);
        HistoryGrows(s, l, t, d);
        if !Indexed(s.log, t, d) {
          KeepsIndexing(s, l, t, d);
        }
      } else {
        StartsIndexing(s, l, t, d);
      }
    }
  }

  lemma InsertedDeps(s: State, l: Label, t: nat)
    requires ShapeInv(s) && Enabled(s, l) && t in s.inserted
    ensures DepsOf(Next(s, l), t) == DepsOf(s, t)
  {
    DepsStay(s, l);
    hide Next, Shape;
  }

  lemma StartsIndexing(s: State, l: Label, t: nat, d: nat)
    requires Enabled(s, l) && t !in s.inserted && t in Next(s, l).inserted && d in DepsOf(Next(s, l), t)
    ensures StillIndexes(Next(s, l), t, d)
  {
    assert l.Step? && s.threads[l.k] == Inserting(t);
    assert DepsOf(s, t)[0..] == DepsOf(s, t);
    assert Next(s, l).threads[l.k] == Indexing(t, 0);
  }

  lemma KeepsIndexing(s: State, l: Label, t: nat, d: nat)
    requires ShapeInv(s) && Enabled(s, l) && StillIndexes(s, t, d) && t in s.inserted
    ensures Indexed(Next(s, l).log, t, d) || StillIndexes(Next(s, l), t, d)
  {
    hide Next, Moved, Indexed, WillIndex;
    var k :| k in s.threads && WillIndex(s, s.threads[k], t, d);
    if l.Step? && l.k == k {
      IndexingGoesOn(s, k, t, d);
    } else {
      OtherThreadStays(s, l, k);
      InsertedDeps(s, l, t);
      SameWillIndex(s, Next(s, l), s.threads[k], t, d);
    }
  }

  lemma SameWillIndex(s: State, s': State, th: Thread, t: nat, d: nat)
    requires DepsOf(s', t) == DepsOf(s, t) && WillIndex(s, th, t, d)
    ensures WillIndex(s', th, t, d)
  {
  }

  lemma IndexingGoesOn(s: State, k: nat, t: nat, d: nat)
    requires ShapeInv(s) && k in s.threads && WillIndex(s, s.threads[k], t, d)
    ensures Indexed(Next(s, Step(k)).log, t, d) || StillIndexes(Next(s, Step(k)), t, d)
  {
    var i, deps := s.threads[k].i, DepsOf(s, t);
    assert Shape(s, s.threads[k]);
    hide ShapeInv;
    assert deps[i..] == [deps[i]] + deps[i + 1..];
    if d == deps[i] {
      IndexedAppend(s.log, DidIndex(t, d), t, d);
    } else {
      assert Next(s, Step(k)).threads[k] == Indexing(t, i + 1);
    }
  }

  /** A submitted task is inserted, or some thread is about to insert it. */
  ghost predicate BegunInv(s: State)
  {
    forall t :: t in s.deps ==> t in s.inserted || SomeoneInserts(s, t)
  }

  ghost predicate SomeoneInserts(s: State, t: nat)
  {
    exists k :: k in s.threads && s.threads[k] == Inserting(t)
  }

  lemma BegunStep(s: State, l: Label)
    requires BegunInv(s) && Enabled(s, l)
    ensures BegunInv(Next(s, l))
  {
    hide Moved;
    var s' := Next(s, l);
    DepsStay(s, l);
    forall t | t in s'.deps && t !in s'.inserted
      ensures SomeoneInserts(s', t)
    {
      if t in s.deps {
        var k :| k in s.threads && s.threads[k] == Inserting(t);
        assert !(l.Step? && l.k == k);
        OtherThreadStays(s, l, k);
      } else {
        assert s'.threads[l.k] == Inserting(t);
      }
      hide Next;
    }
  }

  // ------------------------------------------------------- main result

  ghost predicate ExactInv(s: State)
  {
    CompleteInv(s) && ListInv(s) && KnownInv(s) && TakenInv(s) && DiscardInv(s) && SubmitInv(s)
    && BegunInv(s)
  }

  lemma ExactStep(s: State, l: Label)
    requires ExactInv(s) && Enabled(s, l)
    ensures ExactInv(Next(s, l))
  {
    hide SafeInv, ShapeInv, TrackInv, AnnounceInv, EmptyInv, ListInv, KnownInv, TakenInv, DiscardInv, SubmitInv,
      BegunInv, Next, Enabled;
    SafeHasShape(s);
    SafeStep(s, l);
    TrackStep(s, l);
    AnnounceStep(s, l);
    EmptyStep(s, l);
    ListStep(s, l);
    KnownStep(s, l);
    TakenStep(s, l);
    DiscardStep(s, l);
    SubmitStep(s, l);
    BegunStep(s, l);
  }

  lemma SafeHasShape(s: State)
    requires SafeInv(s)
    ensures ShapeInv(s)
  {
    hide ShapeInv, PlaceInv, InsertInv, PutInv;
  }

  lemma {:induction false} ExactAlways(run: seq<State>, labels: seq<Label>, i: nat)
    requires IsRun(run, labels) && i < |run|
    ensures ExactInv(run[i])
    decreases i
  {
    if i == 0 {
      CompleteAlways(run, labels, 0);
    } else {
      hide ExactInv, Next, Enabled;
      ExactAlways(run, labels, i - 1);
      ExactStep(run[i - 1], labels[i - 1]);
    }
  }

  /**
    The rule, exactly.  Under every interleaving, with callers that store failures without
    announcing them: when every thread is through, a submitted task has been indexed under
    all its dependencies, and it is pending if and only if no announcement has taken the
    list of some dependency since the task was indexed under it.
   */
  lemma PendingIffNotTaken(run: seq<State>, labels: seq<Label>, i: nat, t: nat)
    requires IsRun(run, labels) && i < |run| && run[i].threads == map[] && t in run[i].deps
    ensures forall d :: d in run[i].deps[t] ==> Indexed(run[i].log, t, d)
    ensures t in run[i].pending <==> exists d :: d in run[i].deps[t] && !TakenSince(run[i].log, t, d)
  {
    var s := run[i];
    ExactAlways(run, labels, i);
    NothingForgotten(run, labels, i, t);
    hide IsRun, Indexed, TakenSince, ListInv, KnownInv, TrackInv, AnnounceInv, PlaceInv, InsertInv, ShapeInv;
    if t in s.pending {
      assert PendingPut(s, t);
      assert s.pending[t] != {};
      var d :| d in s.pending[t];
      assert !TakenSince(s.log, t, d);
    } else {
      assert AllTaken(s, t);
    }
  }
}
