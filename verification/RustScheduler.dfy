/**
  The Rust scheduler, one map operation at a time.

  `submit` and `on_object_ready` of `scheduler.rs` take no lock across their steps: a
  submission is one insertion into `pending_tasks` and one push per dependency into
  `object_to_waiting`, a notification is one removal from the index and, for every task
  on the removed list, a look at its unresolved set, a removal from `pending_tasks` and
  a push to the ready queue, and all of these interleave with any number of other
  threads.  What callers contribute is order: an object is put into the store before it
  is announced, and a submission is followed by a pass that announces the dependencies
  found in the store.  A failed task's object is put and never announced by its collector.
 */
module RustScheduler {
  import opened Collections
  import opened Wrappers

  /** What a thread does once a notification is through. */
  datatype After = Return | Resume(t: nat, i: nat)  // the i-th turn of the caller's pass

  datatype Thread =
    | Inserting(t: nat)                                          // pending_tasks.insert
    | Indexing(t: nat, i: nat)                                   // entry(deps[i]).or_default().push
    | Rechecking(t: nat, i: nat)                                 // object_store.contains(deps[i])
    | Putting(d: nat)                                            // object_store.put
    | Notifying(d: nat, after: After)                            // object_to_waiting.remove
    | Scanning(d: nat, list: seq<nat>, i: nat, after: After)     // get, lock, remove, is_empty
    | Removing(d: nat, list: seq<nat>, i: nat, after: After)     // pending_tasks.remove
    | Pushing(d: nat, list: seq<nat>, i: nat, after: After)      // ready_queue.push

  datatype State = State(
    pending: map<nat, set<nat>>,
    waiting: map<nat, seq<nat>>,
    released: seq<nat>,            // every push to the ready queue, in order
    store: set<nat>,
    threads: map<nat, Thread>,
    deps: map<nat, seq<nat>>,      // the dependency list of every task submitted so far
    inserted: set<nat>,            // the tasks whose submission got past its first step
    everPut: set<nat>,
    failed: set<nat>,              // the stored objects whose last put is not followed by an announcement
    log: seq<Event>)               // what was done to the index, in order

  datatype Event =
    | DidIndex(t: nat, d: nat)     // `t` was pushed to the list of `d`
    | DidTake(d: nat)              // an announcement took the list of `d`

  const INIT := State(map[], map[], [], {}, map[], map[], {}, {}, {}, [])

  datatype Label =
    | StartSubmit(k: nat, t: nat, deps: seq<nat>)
    | StartPut(k: nat, d: nat)
    | PutError(d: nat)             // object_store.put of a _TaskError
    | Evict(d: nat)
    | Step(k: nat)

  predicate Enabled(s: State, l: Label)
  {
    match l
    case StartSubmit(k, t, _) => k !in s.threads && t !in s.deps
    case StartPut(k, _) => k !in s.threads
    case PutError(_) => true
    case Evict(_) => true
    case Step(k) => k in s.threads
  }

  function DepsOf(s: State, t: nat): seq<nat>
  {
    if t in s.deps then s.deps[t] else []
  }

  function Waiters(s: State, d: nat): seq<nat>
  {
    if d in s.waiting then s.waiting[d] else []
  }

  /** The thread after a finished notification. */
  function Continue(after: After): Option<Thread>
  {
    match after
    case Return => None
    case Resume(t, i) => Some(Rechecking(t, i))
  }

  /** One turn of the loop over the removed list, or its end. */
  function Scan(d: nat, list: seq<nat>, i: nat, after: After): Option<Thread>
  {
    if i < |list| then Some(Scanning(d, list, i, after)) else Continue(after)
  }

  /** Where a thread goes next. */
  function Moved(s: State, k: nat): Option<Thread>
    requires k in s.threads
  {
    match s.threads[k]
    case Inserting(t) => Some(if DepsOf(s, t) == [] then Rechecking(t, 0) else Indexing(t, 0))
    case Indexing(t, i) => Some(if i + 1 < |DepsOf(s, t)| then Indexing(t, i + 1) else Rechecking(t, 0))
    case Rechecking(t, i) =>
      if i >= |DepsOf(s, t)| then None
      else if DepsOf(s, t)[i] in s.store then Some(Notifying(DepsOf(s, t)[i], Resume(t, i + 1)))
      else Some(Rechecking(t, i + 1))
    case Putting(d) => Some(Notifying(d, Return))
    case Notifying(d, after) => Scan(d, Waiters(s, d), 0, after)
    case Scanning(d, list, i, after) =>
      if i < |list| && list[i] in s.pending && s.pending[list[i]] - {d} == {} then Some(Removing(d, list, i, after))
      else Scan(d, list, i + 1, after)
    case Removing(d, list, i, after) =>
      if i < |list| && list[i] in s.pending then Some(Pushing(d, list, i, after)) else Scan(d, list, i + 1, after)
    case Pushing(d, list, i, after) => Scan(d, list, i + 1, after)
  }

  function Put(m: map<nat, Thread>, k: nat, th: Option<Thread>): map<nat, Thread>
  {
    match th
    case None => m - {k}
    case Some(x) => m[k := x]
  }

  function Next(s: State, l: Label): State
    requires Enabled(s, l)
  {
    match l
    case StartSubmit(k, t, deps) => s.(threads := s.threads[k := Inserting(t)], deps := s.deps[t := deps])
    case StartPut(k, d) => s.(threads := s.threads[k := Putting(d)])
    case PutError(d) => s.(store := s.store + {d}, everPut := s.everPut + {d}, failed := s.failed + {d})
    case Evict(d) => s.(store := s.store - {d}, failed := s.failed - {d})
    case Step(k) =>
      var s' := s.(threads := Put(s.threads, k, Moved(s, k)));
      match s.threads[k]
      case Inserting(t) =>
        if DepsOf(s, t) == [] then s'.(released := s.released + [t], inserted := s.inserted + {t})
        else s'.(pending := s.pending[t := Elems(DepsOf(s, t))], inserted := s.inserted + {t})
      case Indexing(t, i) =>
        if i < |DepsOf(s, t)| then
          s'.(waiting := s.waiting[DepsOf(s, t)[i] := Waiters(s, DepsOf(s, t)[i]) + [t]],
              log := s.log + [DidIndex(t, DepsOf(s, t)[i])])
        else s'
      case Putting(d) => s'.(store := s.store + {d}, everPut := s.everPut + {d}, failed := s.failed - {d})
      case Notifying(d, _) => s'.(waiting := s.waiting - {d}, log := s.log + [DidTake(d)])
      case Scanning(d, list, i, _) =>
        if i < |list| && list[i] in s.pending
        then s'.(pending := s.pending[list[i] := s.pending[list[i]] - {d}])
        else s'
      case Removing(_, list, i, _) =>
        if i < |list| then s'.(pending := s.pending - {list[i]}) else s'
      case Pushing(_, list, i, _) =>
        if i < |list| then s'.(released := s.released + [list[i]]) else s'
      case Rechecking(_, _) => s'
  }

  ghost predicate IsRun(run: seq<State>, labels: seq<Label>)
  {
    && |run| == |labels| + 1
    && run[0] == INIT
    && forall i :: 0 <= i < |labels| ==> Enabled(run[i], labels[i]) && run[i + 1] == Next(run[i], labels[i])
  }

  // ------------------------------------------------------- shapes

  ghost predicate AfterShape(s: State, after: After)
  {
    after.Resume? ==> after.t in s.inserted && after.t in s.deps && after.i <= |s.deps[after.t]|
  }

  ghost predicate Shape(s: State, th: Thread)
  {
    match th
    case Inserting(t) => t in s.deps
    case Indexing(t, i) => t in s.inserted && t in s.deps && i < |s.deps[t]|
    case Rechecking(t, i) => t in s.inserted && t in s.deps && i <= |s.deps[t]|
    case Putting(_) => true
    case Notifying(_, after) => AfterShape(s, after)
    case _ => AfterShape(s, th.after) && th.i < |th.list| && forall t :: t in th.list ==> t in s.inserted
  }

  ghost predicate ShapeInv(s: State)
  {
    && (forall k :: k in s.threads ==> Shape(s, s.threads[k]))
    && (forall d, t :: t in Waiters(s, d) ==> t in s.inserted)
    && s.inserted <= s.deps.Keys
  }

  lemma NewListShape(s: State, k: nat)
    requires ShapeInv(s) && k in s.threads && s.threads[k].Notifying?
    requires Moved(s, k).Some? && Moved(s, k).value.Scanning?
    ensures Shape(s, Moved(s, k).value)
  {
    var d := s.threads[k].d;
    assert Shape(s, s.threads[k]);
    forall t | t in Waiters(s, d)
      ensures t in s.inserted
    {
    }
  }

  lemma QuietShape(s: State, k: nat)
    requires ShapeInv(s) && k in s.threads && Moved(s, k).Some? && !s.threads[k].Inserting?
    ensures Shape(s, Moved(s, k).value)
  {
    if s.threads[k].Notifying? && Moved(s, k).value.Scanning? {
      hide ShapeInv, Moved;
      NewListShape(s, k);
    } else {
      assert Shape(s, s.threads[k]);
      hide ShapeInv;
    }
  }

  lemma InsertShape(s: State, k: nat)
    requires ShapeInv(s) && k in s.threads && s.threads[k].Inserting?
    ensures Moved(s, k).Some? && Shape(Next(s, Step(k)), Moved(s, k).value)
  {
    assert Shape(s, s.threads[k]);
    hide ShapeInv;
  }

  lemma MovedShape(s: State, k: nat)
    requires ShapeInv(s) && k in s.threads && Moved(s, k).Some?
    ensures Shape(Next(s, Step(k)), Moved(s, k).value)
  {
    hide ShapeInv, Moved, Next, Shape;
    if s.threads[k].Inserting? {
      InsertShape(s, k);
    } else {
      QuietShape(s, k);
      DepsStay(s, Step(k));
      ShapeGrows(s, Next(s, Step(k)), Moved(s, k).value);
    }
  }

  lemma ShapeGrows(s: State, s': State, th: Thread)
    requires Shape(s, th) && s.inserted <= s'.inserted
    requires forall t :: t in s.deps ==> t in s'.deps && s'.deps[t] == s.deps[t]
    ensures Shape(s', th)
  {
  }

  lemma WaitersShape(s: State, l: Label)
    requires ShapeInv(s) && Enabled(s, l)
    ensures forall d, t :: t in Waiters(Next(s, l), d) ==> t in Next(s, l).inserted
    ensures Next(s, l).inserted <= Next(s, l).deps.Keys
  {
    hide Moved, Scan;
    if l.Step? {
      assert Shape(s, s.threads[l.k]);
    }
    forall d, t | t in Waiters(Next(s, l), d)
      ensures t in Next(s, l).inserted
    {
      assert t in Waiters(s, d) || (l.Step? && s.threads[l.k].Indexing? && t == s.threads[l.k].t);
    }
  }

  /** The rest of a state: where a thread comes from, and that dependency lists stay. */
  lemma ThreadOrigin(s: State, l: Label, k: nat)
    requires Enabled(s, l) && k in Next(s, l).threads
    ensures if l.Step? && l.k == k then Moved(s, k) == Some(Next(s, l).threads[k])
            else if k in s.threads then Next(s, l).threads[k] == s.threads[k]
            else (l.StartSubmit? || l.StartPut?) && l.k == k
    ensures !l.Step? && k !in s.threads ==> l.StartSubmit? || l.StartPut?
    ensures l.StartSubmit? && l.k == k ==> Next(s, l).threads[k] == Inserting(l.t)
    ensures l.StartPut? && l.k == k ==> Next(s, l).threads[k] == Putting(l.d)
  {
    hide Moved, Scan;
  }

  lemma DepsStay(s: State, l: Label)
    requires Enabled(s, l)
    ensures forall t :: t in s.deps ==> t in Next(s, l).deps && Next(s, l).deps[t] == s.deps[t]
    ensures Next(s, l).deps == if l.StartSubmit? then s.deps[l.t := l.deps] else s.deps
    ensures s.inserted <= Next(s, l).inserted
  {
    hide Moved, Scan;
  }

  lemma ShapeStep(s: State, l: Label)
    requires ShapeInv(s) && Enabled(s, l)
    ensures ShapeInv(Next(s, l))
  {
    hide Moved, Next, Shape;
    var s' := Next(s, l);
    WaitersShape(s, l);
    DepsStay(s, l);
    forall k | k in s'.threads
      ensures Shape(s', s'.threads[k])
    {
      ThreadOrigin(s, l, k);
      if l.Step? && l.k == k {
        MovedShape(s, k);
      } else if k in s.threads {
        ShapeGrows(s, s', s'.threads[k]);
      } else {
        NewThreadShape(s, l);
      }
    }
  }

  lemma NewThreadShape(s: State, l: Label)
    requires Enabled(s, l) && (l.StartSubmit? || l.StartPut?)
    ensures l.k in Next(s, l).threads && Shape(Next(s, l), Next(s, l).threads[l.k])
  {
  }
}
