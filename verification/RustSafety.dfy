/**
  The fine-grained scheduler is safe: whatever the interleaving, a task is released at
  most once, and only after each of its dependencies has been put.
 */
module RustSafety {
  import opened Collections
  import opened Wrappers
  import opened RustScheduler

  // ------------------------------------------------------- one place for each task

  /** The thread holds a task that is in none of the tables. */
  predicate Holds(th: Thread)
  {
    th.Inserting? || (th.Pushing? && th.i < |th.list|)
  }

  function HeldTask(th: Thread): nat
    requires Holds(th)
  {
    if th.Inserting? then th.t else th.list[th.i]
  }

  function Held(threads: map<nat, Thread>): set<nat>
  {
    set k | k in threads && Holds(threads[k]) :: HeldTask(threads[k])
  }

  ghost predicate HeldOnce(threads: map<nat, Thread>)
  {
    forall k, k' | k in threads && k' in threads && Holds(threads[k]) && Holds(threads[k']) ::
      HeldTask(threads[k]) == HeldTask(threads[k']) ==> k == k'
  }

  /** Every submitted task is in exactly one of: a thread's hands, pending, released. */
  ghost predicate PlaceInv(s: State)
  {
    && Partition(s.deps.Keys, Held(s.threads), s.pending.Keys, Elems(s.released), {})
    && HeldOnce(s.threads)
    && NoRepeats(s.released)
  }

  ghost predicate InsertInv(s: State)
  {
    forall k :: k in s.threads && s.threads[k].Inserting? ==> s.threads[k].t !in s.inserted
  }

  lemma HeldSame(m: map<nat, Thread>, k: nat, th: Option<Thread>)
    requires k in m ==> !Holds(m[k])
    requires th.Some? ==> !Holds(th.value)
    ensures Held(Put(m, k, th)) == Held(m)
    ensures HeldOnce(m) ==> HeldOnce(Put(m, k, th))
  {
    var m' := Put(m, k, th);
    forall u | u in Held(m)
      ensures u in Held(m')
    {
      var j :| j in m && Holds(m[j]) && HeldTask(m[j]) == u;
      assert m'[j] == m[j];
    }
  }

  lemma HeldGains(m: map<nat, Thread>, k: nat, th: Thread)
    requires k in m ==> !Holds(m[k])
    requires Holds(th)
    ensures Held(m[k := th]) == Held(m) + {HeldTask(th)}
    ensures HeldOnce(m) && HeldTask(th) !in Held(m) ==> HeldOnce(m[k := th])
  {
    var m' := m[k := th];
    assert HeldTask(m'[k]) == HeldTask(th);
    forall u | u in Held(m)
      ensures u in Held(m')
    {
      var j :| j in m && Holds(m[j]) && HeldTask(m[j]) == u;
      assert m'[j] == m[j];
    }
    assert forall j :: j in m && Holds(m[j]) ==> HeldTask(m[j]) in Held(m);
  }

  lemma HeldLoses(m: map<nat, Thread>, k: nat, th: Option<Thread>)
    requires HeldOnce(m) && k in m && Holds(m[k]) && !(th.Some? && Holds(th.value))
    ensures Held(Put(m, k, th)) == Held(m) - {HeldTask(m[k])}
    ensures HeldTask(m[k]) in Held(m) && HeldOnce(Put(m, k, th))
  {
    var m' := Put(m, k, th);
    forall u | u in Held(m) && u != HeldTask(m[k])
      ensures u in Held(m')
    {
      var j :| j in m && Holds(m[j]) && HeldTask(m[j]) == u;
      assert m'[j] == m[j];
    }
  }

  lemma StartPlace(s: State, l: Label)
    requires PlaceInv(s) && Enabled(s, l) && !l.Step?
    ensures PlaceInv(Next(s, l))
  {
    hide Held, HeldOnce, Partition, Elems, NoRepeats;
    match l {
      case StartSubmit(k, t, deps) =>
        PartitionNew(s.deps.Keys, Held(s.threads), s.pending.Keys, Elems(s.released), {}, t);
        NotHeldIfNew(s, t);
        HeldGains(s.threads, k, Inserting(t));
        assert s.deps[t := deps].Keys == s.deps.Keys + {t};
      case StartPut(k, d) => HeldSame(s.threads, k, Some(Putting(d)));
      case PutError(_) =>
      case Evict(_) =>
    }
  }

  lemma NotHeldIfNew(s: State, t: nat)
    requires PlaceInv(s) && t !in s.deps
    ensures t !in Held(s.threads)
  {
    hide Held, Elems;
  }

  lemma InsertPlace(s: State, k: nat)
    requires PlaceInv(s) && k in s.threads && s.threads[k].Inserting?
    ensures PlaceInv(Next(s, Step(k)))
  {
    var t, s' := s.threads[k].t, Next(s, Step(k));
    hide Held, HeldOnce, Elems;
    HeldLoses(s.threads, k, Moved(s, k));
    PartitionLeave(s.deps.Keys, Held(s.threads), s.pending.Keys, Elems(s.released), {}, t);
    if DepsOf(s, t) == [] {
      ElemsAppend(s.released, t);
      ReleaseOnce(s, t);
    } else {
      assert s'.pending.Keys == s.pending.Keys + {t};
    }
    hide Partition, NoRepeats;
  }

  lemma ReleaseOnce(s: State, t: nat)
    requires PlaceInv(s) && t in Held(s.threads)
    ensures NoRepeats(s.released + [t])
  {
    hide Held, HeldOnce;
    assert forall u :: u in s.released ==> u in Elems(s.released);
    NoRepeatsAppend(s.released, [t]);
  }

  lemma RemovePlace(s: State, k: nat)
    requires ShapeInv(s) && PlaceInv(s) && k in s.threads && s.threads[k].Removing?
    ensures PlaceInv(Next(s, Step(k)))
  {
    var th, s' := s.threads[k], Next(s, Step(k));
    assert Shape(s, th);
    var t := th.list[th.i];
    hide Held, HeldOnce, Elems, NoRepeats, ShapeInv, Shape;
    if t in s.pending {
      PartitionEnter(s.deps.Keys, Held(s.threads), s.pending.Keys, Elems(s.released), {}, t);
      NotHeldIfPending(s, t);
      HeldGains(s.threads, k, Pushing(th.d, th.list, th.i, th.after));
      assert s'.pending.Keys == s.pending.Keys - {t};
    } else {
      HeldSame(s.threads, k, Moved(s, k));
      assert s'.pending == s.pending;
    }
    hide Partition;
  }

  lemma NotHeldIfPending(s: State, t: nat)
    requires PlaceInv(s) && t in s.pending
    ensures t !in Held(s.threads)
  {
    hide Held, Elems;
  }

  lemma PushPlace(s: State, k: nat)
    requires ShapeInv(s) && PlaceInv(s) && k in s.threads && s.threads[k].Pushing?
    ensures PlaceInv(Next(s, Step(k)))
  {
    var th := s.threads[k];
    assert Shape(s, th);
    var t := th.list[th.i];
    hide Held, HeldOnce, Elems, ShapeInv, Shape;
    HeldLoses(s.threads, k, Moved(s, k));
    PartitionLeave(s.deps.Keys, Held(s.threads), s.pending.Keys, Elems(s.released), {}, t);
    ElemsAppend(s.released, t);
    ReleaseOnce(s, t);
    hide Partition, NoRepeats;
  }

  lemma QuietPlace(s: State, k: nat)
    requires PlaceInv(s) && k in s.threads
    requires !s.threads[k].Inserting? && !s.threads[k].Removing? && !s.threads[k].Pushing?
    ensures PlaceInv(Next(s, Step(k)))
  {
    hide Held, HeldOnce, Elems, NoRepeats, Partition;
    var s' := Next(s, Step(k));
    HeldSame(s.threads, k, Moved(s, k));
    assert s'.pending.Keys == s.pending.Keys;
    assert s'.deps == s.deps && s'.released == s.released && s'.threads == Put(s.threads, k, Moved(s, k));
    hide Next, Moved;
  }

  lemma PlaceStep(s: State, l: Label)
    requires ShapeInv(s) && PlaceInv(s) && Enabled(s, l)
    ensures PlaceInv(Next(s, l))
  {
    hide PlaceInv, ShapeInv, Next;
    if !l.Step? {
      StartPlace(s, l);
    } else if s.threads[l.k].Inserting? {
      InsertPlace(s, l.k);
    } else if s.threads[l.k].Removing? {
      RemovePlace(s, l.k);
    } else if s.threads[l.k].Pushing? {
      PushPlace(s, l.k);
    } else {
      QuietPlace(s, l.k);
    }
  }

  lemma InsertStep(s: State, l: Label)
    requires ShapeInv(s) && PlaceInv(s) && InsertInv(s) && Enabled(s, l)
    ensures InsertInv(Next(s, l))
  {
    hide Held, Partition, NoRepeats, Shape;
    assert l.StartSubmit? ==> l.t !in s.inserted;
    hide ShapeInv;
    if l.Step? && s.threads[l.k].Inserting? {
      forall k | k in s.threads && s.threads[k].Inserting? && k != l.k
        ensures s.threads[k].t != s.threads[l.k].t
      {
        assert HeldTask(s.threads[k]) != HeldTask(s.threads[l.k]);
      }
    }
  }

  // ------------------------------------------------------- never before all were put

  /** Everything `t` depends on has been put. */
  ghost predicate AllPut(s: State, t: nat)
  {
    t in s.deps && forall d :: d in s.deps[t] ==> d in s.everPut
  }

  /** `t` no longer lists a dependency only if that dependency has been put. */
  ghost predicate PendingPut(s: State, t: nat)
  {
    && t in s.deps
    && t in s.pending
    && (forall d :: d in s.deps[t] && d !in s.pending[t] ==> d in s.everPut)
    && (forall d :: d in s.pending[t] ==> d in s.deps[t])
  }

  ghost predicate ThreadPut(s: State, th: Thread)
  {
    match th
    case Notifying(d, _) => d in s.everPut
    case Scanning(d, _, _, _) => d in s.everPut
    case Removing(d, list, i, _) => d in s.everPut && (i < |list| && list[i] in s.pending ==> s.pending[list[i]] == {})
    case Pushing(d, list, i, _) => d in s.everPut && (i < |list| ==> AllPut(s, list[i]))
    case _ => true
  }

  ghost predicate PutInv(s: State)
  {
    && s.store <= s.everPut
    && (forall t :: t in s.released ==> AllPut(s, t))
    && (forall t :: t in s.pending ==> PendingPut(s, t))
    && (forall k :: k in s.threads ==> ThreadPut(s, s.threads[k]))
  }

  ghost predicate SafeInv(s: State)
  {
    ShapeInv(s) && PlaceInv(s) && InsertInv(s) && PutInv(s)
  }

  lemma AllPutStays(s: State, l: Label, t: nat)
    requires Enabled(s, l) && AllPut(s, t)
    ensures AllPut(Next(s, l), t)
  {
    DepsStay(s, l);
    EverPutGrows(s, l);
    hide Next;
  }

  lemma EverPutGrows(s: State, l: Label)
    requires Enabled(s, l)
    ensures s.everPut <= Next(s, l).everPut
    ensures s.store <= s.everPut ==> Next(s, l).store <= Next(s, l).everPut
  {
    hide Moved;
  }

  /** What a step does to one entry of the pending table. */
  lemma PendingChange(s: State, l: Label, t: nat)
    requires Enabled(s, l) && t in Next(s, l).pending
    ensures
      || (t in s.pending && Next(s, l).pending[t] == s.pending[t])
      || (l.Step? && s.threads[l.k].Inserting? && t == s.threads[l.k].t && Next(s, l).pending[t] == Elems(DepsOf(s, t)))
      || (l.Step? && s.threads[l.k].Scanning? && t in s.pending
          && s.threads[l.k].i < |s.threads[l.k].list| && t == s.threads[l.k].list[s.threads[l.k].i]
          && Next(s, l).pending[t] == s.pending[t] - {s.threads[l.k].d})
  {
    hide Moved;
  }

  lemma PendingPutStep(s: State, l: Label, t: nat)
    requires SafeInv(s) && Enabled(s, l) && t in Next(s, l).pending
    ensures PendingPut(Next(s, l), t)
  {
    hide PlaceInv;
    PendingChange(s, l, t);
    DepsStay(s, l);
    EverPutGrows(s, l);
    if l.Step? {
      assert Shape(s, s.threads[l.k]);
      assert ThreadPut(s, s.threads[l.k]);
    }
    assert t in s.pending ==> PendingPut(s, t);
    hide Next, PutInv, ShapeInv, Moved;
  }

  lemma ReleasedPutStep(s: State, l: Label, t: nat)
    requires SafeInv(s) && Enabled(s, l) && t in Next(s, l).released
    ensures AllPut(Next(s, l), t)
  {
    hide PlaceInv, Moved;
    if t in s.released {
      AllPutStays(s, l, t);
    } else {
      assert ThreadPut(s, s.threads[l.k]);
      assert Shape(s, s.threads[l.k]);
      assert AllPut(s, t);
      hide Next, PutInv, ShapeInv;
      AllPutStays(s, l, t);
    }
  }

  /** Once inserted, a task that is not pending with something unresolved never becomes so. */
  lemma StaysOutOrEmpty(s: State, l: Label, t: nat)
    requires InsertInv(s) && Enabled(s, l) && t in Next(s, l).pending && t in s.inserted
    requires t in s.pending ==> s.pending[t] == {}
    ensures Next(s, l).pending[t] == {}
  {
    PendingChange(s, l, t);
    hide Next, Moved;
  }

  lemma OtherThreadPut(s: State, l: Label, th: Thread)
    requires SafeInv(s) && Enabled(s, l) && ThreadPut(s, th) && Shape(s, th)
    ensures ThreadPut(Next(s, l), th)
  {
    hide ShapeInv, PutInv, Moved, PlaceInv, InsertInv;
    EverPutGrows(s, l);
    match th {
      case Removing(d, list, i, _) =>
        var t := list[i];
        assert t in s.inserted;
        if t in Next(s, l).pending {
          StaysOutOrEmpty(s, l, t);
        }
      case Pushing(d, list, i, _) => AllPutStays(s, l, list[i]);
      case _ =>
    }
    hide Next;
  }

  lemma MovedPut(s: State, k: nat)
    requires SafeInv(s) && k in s.threads && Moved(s, k).Some?
    ensures ThreadPut(Next(s, Step(k)), Moved(s, k).value)
  {
    hide PlaceInv, InsertInv;
    assert Shape(s, s.threads[k]) && ThreadPut(s, s.threads[k]);
    if s.threads[k].Removing? && s.threads[k].list[s.threads[k].i] in s.pending {
      RemovedPut(s, k);
    }
    hide ShapeInv, PutInv;
  }

  lemma RemovedPut(s: State, k: nat)
    requires SafeInv(s) && k in s.threads && s.threads[k].Removing? && s.threads[k].i < |s.threads[k].list|
    requires s.threads[k].list[s.threads[k].i] in s.pending
    ensures AllPut(s, s.threads[k].list[s.threads[k].i])
  {
    hide PlaceInv, InsertInv;
    var t := s.threads[k].list[s.threads[k].i];
    assert Shape(s, s.threads[k]) && ThreadPut(s, s.threads[k]);
    assert PendingPut(s, t);
  }

  lemma PutStep(s: State, l: Label)
    requires SafeInv(s) && Enabled(s, l)
    ensures PutInv(Next(s, l))
  {
    hide PlaceInv, InsertInv, ShapeInv, Next, Moved, ThreadPut, PendingPut, AllPut;
    var s' := Next(s, l);
    EverPutGrows(s, l);
    forall t | t in s'.released
      ensures AllPut(s', t)
    {
      ReleasedPutStep(s, l, t);
    }
    forall t | t in s'.pending
      ensures PendingPut(s', t)
    {
      PendingPutStep(s, l, t);
    }
    forall k | k in s'.threads
      ensures ThreadPut(s', s'.threads[k])
    {
      ThreadOrigin(s, l, k);
      if l.Step? && l.k == k {
        MovedPut(s, k);
      } else if k in s.threads {
        OldShape(s, k);
        OtherThreadPut(s, l, s.threads[k]);
      } else {
        NewThreadPut(s', s'.threads[k]);
      }
    }
  }

  lemma OldShape(s: State, k: nat)
    requires ShapeInv(s) && k in s.threads
    ensures Shape(s, s.threads[k])
  {
  }

  lemma NewThreadPut(s: State, th: Thread)
    requires th.Inserting? || th.Putting?
    ensures ThreadPut(s, th)
  {
  }

  lemma SafeStep(s: State, l: Label)
    requires SafeInv(s) && Enabled(s, l)
    ensures SafeInv(Next(s, l))
  {
    hide PlaceInv, InsertInv, ShapeInv, PutInv, Next, Enabled;
    ShapeStep(s, l);
    PlaceStep(s, l);
    InsertStep(s, l);
    PutStep(s, l);
  }

  lemma {:induction false} SafeAlways(run: seq<State>, labels: seq<Label>, i: nat)
    requires IsRun(run, labels) && i < |run|
    ensures SafeInv(run[i])
    decreases i
  {
    if i > 0 {
      hide PlaceInv, InsertInv, ShapeInv, PutInv, Next, Enabled;
      SafeAlways(run, labels, i - 1);
      SafeStep(run[i - 1], labels[i - 1]);
    }
  }

  /**
    Safety of the fine-grained scheduler.  Under every interleaving of submissions,
    puts and notifications, step by step: no task is released twice, every task is in
    exactly one of a thread's hands, pending, released, and a released task's
    dependencies have all been put.
   */
  lemma ReleaseIsSafe(run: seq<State>, labels: seq<Label>, i: nat)
    requires IsRun(run, labels) && i < |run|
    ensures NoRepeats(run[i].released)
    ensures Partition(run[i].deps.Keys, Held(run[i].threads), run[i].pending.Keys, Elems(run[i].released), {})
    ensures forall t, d :: t in run[i].released && t in run[i].deps && d in run[i].deps[t] ==> d in run[i].everPut
  {
    SafeAlways(run, labels, i);
    hide IsRun, ShapeInv, InsertInv, Partition, Held, NoRepeats;
    assert forall t :: t in run[i].released ==> AllPut(run[i], t);
  }
}
