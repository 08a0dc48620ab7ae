/**
  The `Runtime` object of `driver.py`, run by one thread: submission, the flush, what
  the collector does with a result, reading, eviction and reconstruction from lineage.

  A call that would block for ever returns and says so.  While the thread is blocked, and
  between its looks at the store while it reconstructs, workers and the collector take any
  number of steps in any order (`OtherStep`); a collector whose flush waits for a missing
  object hangs, since nobody else stores anything.  What several user threads do together
  is the subject of `Cluster`.
 */
module RuntimeClass {
  import opened Collections
  import opened Wrappers
  import opened Dag
  import opened Lineage
  import opened SchedulerSpec
  import opened SchedulerClass
  import opened Ownership
  import opened Reconstruction
  import opened Calls
  import Cluster
  import opened ClusterValues
  import opened StoreClass

  datatype Message = Message(t: nat, o: nat, call: Call)
  datatype Report = Report(t: nat, o: nat, outcome: Outcome)

  /** A popped task whose flush waits, with the values read so far. */
  datatype Preparation = Preparation(t: nat, got: seq<Dag.Value>)

  /** Reading one reference after the other, as far as they are stored. */
  function ReadOn(store: map<nat, Dag.Value>, refs: seq<nat>, got: seq<Dag.Value>): (r: seq<Dag.Value>)
    requires |got| <= |refs|
    ensures got <= r && |r| <= |refs| && (|r| < |refs| ==> refs[|r|] !in store)
    decreases |refs| - |got|
  {
    if |got| < |refs| && refs[|got|] in store then ReadOn(store, refs, got + [store[refs[|got|]]]) else got
  }

  /** How `get_object` ends. */
  datatype Got = Value(value: Dag.Value) | Raised(taskId: nat, message: string) | Waits | Hangs

  /** What `get_object` makes of a stored object. */
  function Read(v: Dag.Value): Got
  {
    match v
    case TaskError(t, m) => Raised(t, m)
    case _ => Value(v)
  }

  /** The object `o` of a plain task is read as what the user's function returns on its
      resolved arguments, and if it raises, so does the reading, with the id of the task. */
  ghost predicate ReadsAsCalled(w: World, tb: Table, o: nat, r: Got)
  {
    WellFounded(tb) && o in tb.producer && tb.producer[o] in tb.tasks
    && var c := tb.tasks[tb.producer[o]].call;
    c.func.User? ==>
      && Closes(tb, Call(User(c.func.code), c.args, c.kwargs))
      && match UserResult(w, tb, c.func.code, c.args, c.kwargs)
         case Ok(v) => r == Read(v)
         case Err(m) => r == Raised(tb.producer[o], m)
  }

  lemma MeaningReads(w: World, tb: Table, o: nat)
    requires WellFounded(tb) && o in tb.producer
    ensures ReadsAsCalled(w, tb, o, Read(Meaning(w, tb, o)))
  {
    var c := tb.tasks[tb.producer[o]].call;
    if c.func.User? {
      hide WellFounded, Meaning, UserResult;
      assert c == Call(User(c.func.code), c.args, c.kwargs);
      UserTaskMeans(w, tb, o, c.func.code, c.args, c.kwargs);
    }
  }

  /** How `reconstruct_object` ends. */
  datatype Reconstructed = Rebuilt | NoLineage | CollectorHangs

  /** The values of the references `ids`, when all are stored. */
  function Stored(store: map<nat, Dag.Value>, ids: seq<nat>): (vs: seq<Dag.Value>)
    requires forall d :: d in ids ==> d in store
    ensures |vs| == |ids|
  {
    seq(|ids|, i requires 0 <= i < |ids| => store[ids[i]])
  }

  predicate AllStored(store: map<nat, Dag.Value>, ids: seq<nat>)
  {
    forall d :: d in ids ==> d in store
  }

  /** Everything before `d` is stored, and `d` is not. */
  ghost predicate IsFirstMissing(store: map<nat, Dag.Value>, ids: seq<nat>, d: nat)
  {
    exists i :: 0 <= i < |ids| && ids[i] == d && d !in store && AllStored(store, ids[..i])
  }

  function Dependencies(tb: Table): map<nat, seq<nat>>
  {
    map t | t in tb.tasks :: tb.tasks[t].deps
  }

  ghost predicate MessageSound(w: World, tb: Table, m: Message)
    requires WellFounded(tb)
  {
    m.t in tb.tasks && tb.tasks[m.t].oid == m.o && m.call == Payload(w, tb, m.t)
  }

  ghost predicate ReportSound(w: World, tb: Table, r: Report)
    requires WellFounded(tb)
  {
    r.t in tb.tasks && tb.tasks[r.t].oid == r.o && r.outcome == Apply(w, Payload(w, tb, r.t))
  }

  ghost predicate QueuesSound(w: World, tb: Table, ms: seq<Message>, rs: seq<Report>)
    requires WellFounded(tb)
  {
    && (forall i :: 0 <= i < |ms| ==> MessageSound(w, tb, ms[i]))
    && (forall i :: 0 <= i < |rs| ==> ReportSound(w, tb, rs[i]))
  }

  /** What a waiting flush has read so far is right. */
  ghost predicate PreparationSound(w: World, tb: Table, p: Preparation)
    requires WellFounded(tb)
  {
    p.t in tb.tasks && p.got <= Inputs(w, tb, p.t)
  }

  ghost predicate WaitingSound(w: World, tb: Table, waiting: seq<Preparation>)
    requires WellFounded(tb)
  {
    forall i :: 0 <= i < |waiting| ==> PreparationSound(w, tb, waiting[i])
  }

  lemma WaitingGrows(w: World, tb: Table, tb': Table, waiting: seq<Preparation>)
    requires WellFounded(tb) && WellFounded(tb') && Extends(tb, tb') && WaitingSound(w, tb, waiting)
    ensures WaitingSound(w, tb', waiting)
  {
    hide WellFounded, Inputs;
    forall i | 0 <= i < |waiting|
      ensures PreparationSound(w, tb', waiting[i])
    {
      assert PreparationSound(w, tb, waiting[i]);
      InputsStable(w, tb, tb', waiting[i].t);
    }
  }

  /** Reading on from a sound store. */
  lemma {:induction false} ReadOnSound(w: World, tb: Table, store: map<nat, Dag.Value>, p: Preparation)
    requires WellFounded(tb) && StoreSound(w, tb, store) && PreparationSound(w, tb, p)
    ensures |p.got| <= |tb.tasks[p.t].deps|
    ensures PreparationSound(w, tb, Preparation(p.t, ReadOn(store, tb.tasks[p.t].deps, p.got)))
    decreases |tb.tasks[p.t].deps| - |p.got|
  {
    hide WellFounded, Meaning, Inputs;
    var deps, n := tb.tasks[p.t].deps, |p.got|;
    if n < |deps| && deps[n] in store {
      InputIsMeaning(w, tb, p.t, n);
      ReadOnSound(w, tb, store, Preparation(p.t, p.got + [store[deps[n]]]));
    }
  }

  lemma InputIsMeaning(w: World, tb: Table, t: nat, n: nat)
    requires WellFounded(tb) && t in tb.tasks && n < |tb.tasks[t].deps|
    ensures tb.tasks[t].deps[n] in tb.producer && Inputs(w, tb, t)[n] == Meaning(w, tb, tb.tasks[t].deps[n])
  {
    hide Meaning;
    assert tb.tasks[t].deps[n] in tb.tasks[t].deps;
  }

  /** From the start, everything can be read exactly if everything is stored. */
  lemma {:induction false} ReadOnAll(store: map<nat, Dag.Value>, refs: seq<nat>, got: seq<Dag.Value>)
    requires |got| <= |refs| && AllStored(store, refs[..|got|])
    ensures |ReadOn(store, refs, got)| == |refs| <==> AllStored(store, refs)
    decreases |refs| - |got|
  {
    var n := |got|;
    if n == |refs| {
      assert refs[..n] == refs;
    } else if refs[n] in store {
      assert refs[..n + 1] == refs[..n] + [refs[n]];
      ReadOnAll(store, refs, got + [store[refs[n]]]);
    } else {
      assert refs[n] in refs;
    }
  }

  /** A preparation that is complete makes the right message. */
  lemma CompleteIsRight(w: World, tb: Table, p: Preparation)
    requires WellFounded(tb) && PreparationSound(w, tb, p) && |p.got| == |tb.tasks[p.t].deps|
    ensures tb.tasks[p.t].deps == DepsOf(tb.tasks[p.t].call)
    ensures var m := Message(p.t, tb.tasks[p.t].oid, FillCall(tb.tasks[p.t].call, p.got));
      m == MessageFor(w, tb, p.t) && MessageSound(w, tb, m)
  {
    hide FillCall, DepsOf;
    assert p.got == Inputs(w, tb, p.t);
    hide Inputs;
  }

  /** The message the flush should send for task `t`. */
  ghost function MessageFor(w: World, tb: Table, t: nat): Message
    requires WellFounded(tb) && t in tb.tasks
  {
    Message(t, tb.tasks[t].oid, Payload(w, tb, t))
  }

  ghost function MessagesFor(w: World, tb: Table, ts: seq<nat>): (ms: seq<Message>)
    requires WellFounded(tb) && forall t :: t in ts ==> t in tb.tasks
    ensures |ms| == |ts|
  {
    seq(|ts|, i requires 0 <= i < |ts| => MessageFor(w, tb, ts[i]))
  }

  /** References resolved from a sound store are what the lineage says they are. */
  lemma StoredIsInputs(w: World, tb: Table, store: map<nat, Dag.Value>, t: nat)
    requires WellFounded(tb) && t in tb.tasks && StoreSound(w, tb, store)
    requires AllStored(store, DepsOf(tb.tasks[t].call))
    ensures FillCall(tb.tasks[t].call, Stored(store, DepsOf(tb.tasks[t].call))) == Payload(w, tb, t)
  {
    hide DepsOf, Meaning, FillCall;
    var deps := DepsOf(tb.tasks[t].call);
    assert tb.tasks[t].deps == deps;
    forall i | 0 <= i < |deps|
      ensures Stored(store, deps)[i] == Inputs(w, tb, t)[i]
    {
      assert deps[i] in deps;
    }
    assert Stored(store, deps) == Inputs(w, tb, t);
  }

  /** Hence the message sent for a task whose references are stored is the right one. */
  lemma MessageIsRight(w: World, tb: Table, store: map<nat, Dag.Value>, t: nat)
    requires WellFounded(tb) && t in tb.tasks && StoreSound(w, tb, store)
    requires AllStored(store, DepsOf(tb.tasks[t].call))
    ensures tb.tasks[t].deps == DepsOf(tb.tasks[t].call)
    ensures var m := Message(t, tb.tasks[t].oid, FillCall(tb.tasks[t].call, Stored(store, DepsOf(tb.tasks[t].call))));
      m == MessageFor(w, tb, t) && MessageSound(w, tb, m)
  {
    StoredIsInputs(w, tb, store, t);
    hide FillCall, DepsOf, Inputs;
  }

  /** A sound result is what its object means. */
  lemma OutcomeIsMeaning(w: World, tb: Table, r: Report)
    requires WellFounded(tb) && Inverse(tb) && ReportSound(w, tb, r)
    ensures r.o in tb.producer && Deliver(r.t, r.outcome) == Meaning(w, tb, r.o)
  {
    hide Apply, FillCall, DepsOf;
    assert tb.producer[r.o] == r.t;
  }

  lemma SoundnessGrows(w: World, tb: Table, tb': Table, store: map<nat, Dag.Value>, ms: seq<Message>, rs: seq<Report>)
    requires WellFounded(tb) && WellFounded(tb') && Extends(tb, tb')
    requires StoreSound(w, tb, store) && QueuesSound(w, tb, ms, rs)
    ensures StoreSound(w, tb', store) && QueuesSound(w, tb', ms, rs)
  {
    hide WellFounded, Apply, FillCall, Meaning, Inputs;
    forall o | o in store
      ensures o in tb'.producer && store[o] == Meaning(w, tb', o)
    {
      MeaningStable(w, tb, tb', o);
    }
    forall i | 0 <= i < |ms|
      ensures MessageSound(w, tb', ms[i])
    {
      assert MessageSound(w, tb, ms[i]);
      InputsStable(w, tb, tb', ms[i].t);
    }
    forall i | 0 <= i < |rs|
      ensures ReportSound(w, tb', rs[i])
    {
      assert ReportSound(w, tb, rs[i]);
      InputsStable(w, tb, tb', rs[i].t);
    }
  }

  // ------------------------------------------------------- steps, on values

  /** What a runtime consists of. */
  datatype Snap = Snap(
    nextId: nat, table: Table, sched: Sched, store: map<nat, Dag.Value>,
    tasks: seq<Message>, results: seq<Report>, waiting: seq<Preparation>, sent: seq<nat>)

  /** The flush of `before.sched.ready`: it sends a prefix, and if that is not all, it has
      popped the next task and waits for one of its references. */
  ghost predicate Flushes(w: World, before: Snap, after: Snap, stuck: Option<(nat, nat)>)
  {
    var tb, ready, n := before.table, before.sched.ready, |after.sent| - |before.sent|;
    && WellFounded(tb) && (forall t :: t in ready ==> t in tb.tasks)
    && 0 <= n <= |ready|
    && (forall i :: 0 <= i < n ==> AllStored(before.store, tb.tasks[ready[i]].deps))
    && (match stuck
        case None => n == |ready|
        case Some((t, d)) =>
          && n < |ready| && t == ready[n]
          && StopsAt(before.store, tb.tasks[t].deps, [], d))
    && after == before.(
         sched := before.sched.(ready := if n < |ready| then ready[n + 1..] else []),
         tasks := before.tasks + MessagesFor(w, tb, ready[..n]),
         waiting := if n < |ready| then before.waiting + [Begun(before, ready[n])] else before.waiting,
         sent := before.sent + ready[..n])
  }

  /** Reading on from `got`, the next reference that is missing is `d`. */
  predicate StopsAt(store: map<nat, Dag.Value>, refs: seq<nat>, got: seq<Dag.Value>, d: nat)
  {
    && |got| <= |refs|
    && |ReadOn(store, refs, got)| < |refs|
    && refs[|ReadOn(store, refs, got)|] == d
  }

  /** A task that has been popped, with what could be read for it. */
  function Begun(s: Snap, t: nat): Preparation
    requires t in s.table.tasks
  {
    Preparation(t, ReadOn(s.store, s.table.tasks[t].deps, []))
  }

  /** A waiting flush goes on: it reads further, and if that is enough it sends the task
      and flushes the rest. */
  ghost predicate Resumes(w: World, before: Snap, after: Snap, i: nat, stuck: Option<(nat, nat)>)
  {
    && WellFounded(before.table) && i < |before.waiting|
    && var p := before.waiting[i];
    && p.t in before.table.tasks && |p.got| <= |before.table.tasks[p.t].deps|
    && var deps := before.table.tasks[p.t].deps;
    var got := ReadOn(before.store, deps, p.got);
    if |got| < |deps|
    then stuck == Some((p.t, deps[|got|])) && after == before.(waiting := before.waiting[i := Preparation(p.t, got)])
    else Flushes(w, Resumed(w, before, i), after, stuck)
  }

  /** `before` once a waiting flush has sent the task it waited for. */
  ghost function Resumed(w: World, before: Snap, i: nat): Snap
    requires WellFounded(before.table) && i < |before.waiting| && before.waiting[i].t in before.table.tasks
  {
    before.(
      waiting := before.waiting[..i] + before.waiting[i + 1..],
      tasks := before.tasks + [MessageFor(w, before.table, before.waiting[i].t)],
      sent := before.sent + [before.waiting[i].t])
  }

  /** The first `n` ready tasks have been sent. */
  ghost predicate Flushed(w: World, before: Snap, after: Snap, n: nat)
  {
    var tb, ready := before.table, before.sched.ready;
    && WellFounded(tb) && (forall t :: t in ready ==> t in tb.tasks)
    && n <= |ready|
    && (forall i :: 0 <= i < n ==> AllStored(before.store, tb.tasks[ready[i]].deps))
    && after == before.(
         sched := before.sched.(ready := ready[n..]),
         tasks := before.tasks + MessagesFor(w, tb, ready[..n]),
         sent := before.sent + ready[..n])
  }

  lemma NothingFlushed(w: World, before: Snap)
    requires WellFounded(before.table) && forall t :: t in before.sched.ready ==> t in before.table.tasks
    ensures Flushed(w, before, before, 0)
  {
    hide WellFounded, MessageFor;
    assert before.sched.ready[0..] == before.sched.ready && before.sched.ready[..0] == [];
    assert MessagesFor(w, before.table, []) == [];
    assert before.tasks + [] == before.tasks && before.sent + [] == before.sent;
  }

  lemma FlushGoesOn(w: World, before: Snap, middle: Snap, after: Snap, n: nat)
    requires n < |before.sched.ready| && middle.sched.ready == before.sched.ready[n + 1..]
    requires Flushed(w, before, middle.(sched := middle.sched.(ready := before.sched.ready[n..])), n)
    requires before.sched.ready[n] in before.table.tasks
    requires AllStored(before.store, before.table.tasks[before.sched.ready[n]].deps)
    requires after == middle.(
      tasks := middle.tasks + [MessageFor(w, before.table, before.sched.ready[n])],
      sent := middle.sent + [before.sched.ready[n]])
    ensures Flushed(w, before, after, n + 1)
  {
    hide WellFounded, MessageFor, AllStored, MessagesFor;
    MessagesAppend(w, before.table, before.sched.ready, n);
  }

  lemma FlushEnds(w: World, before: Snap, after: Snap, n: nat)
    requires Flushed(w, before, after, n) && after.sched.ready == []
    ensures Flushes(w, before, after, None)
  {
    hide WellFounded, AllStored, MessagesFor;
    assert |before.sched.ready[n..]| == 0;
  }

  lemma FlushWaits(w: World, before: Snap, middle: Snap, after: Snap, n: nat, d: nat)
    requires n < |before.sched.ready| && middle.sched.ready == before.sched.ready[n + 1..]
    requires Flushed(w, before, middle.(sched := middle.sched.(ready := before.sched.ready[n..])), n)
    requires before.sched.ready[n] in before.table.tasks
    requires StopsAt(before.store, before.table.tasks[before.sched.ready[n]].deps, [], d)
    requires after == middle.(waiting := middle.waiting + [Begun(before, before.sched.ready[n])])
    ensures Flushes(w, before, after, Some((before.sched.ready[n], d)))
  {
    hide WellFounded, AllStored, MessagesFor, ReadOn, StopsAt, Begun;
  }

  lemma StopsMissing(store: map<nat, Dag.Value>, refs: seq<nat>, d: nat)
    requires StopsAt(store, refs, [], d)
    ensures d in refs && d !in store && !AllStored(store, refs)
  {
    hide ReadOn;
    assert d in refs;
  }

  /** What a flush does, clause by clause. */
  lemma FlushEffect(w: World, before: Snap, after: Snap, stuck: Option<(nat, nat)>)
    requires Flushes(w, before, after, stuck)
    ensures WellFounded(before.table) && forall t :: t in before.sched.ready ==> t in before.table.tasks
    ensures stuck.None? <==> forall t :: t in before.sched.ready ==> AllStored(before.store, before.table.tasks[t].deps)
    ensures stuck.None? ==>
      && after.sched.ready == [] && after.sent == before.sent + before.sched.ready
      && after.tasks == before.tasks + MessagesFor(w, before.table, before.sched.ready)
    ensures stuck.Some? ==>
      && stuck.value.0 in before.sched.ready && stuck.value.1 in before.table.tasks[stuck.value.0].deps
      && stuck.value.1 !in before.store
    ensures before.sent <= after.sent && before.tasks <= after.tasks
    ensures |after.sched.ready| <= |before.sched.ready|
    ensures |after.sched.ready| + |after.tasks| <= |before.sched.ready| + |before.tasks|
  {
    hide WellFounded, MessageFor, ReadOn, StopsAt, Begun;
    var ready, n := before.sched.ready, |after.sent| - |before.sent|;
    if stuck.Some? {
      StopsMissing(before.store, before.table.tasks[ready[n]].deps, stuck.value.1);
    } else {
      assert ready[..n] == ready;
      forall t | t in ready
        ensures AllStored(before.store, before.table.tasks[t].deps)
      {
        var i :| 0 <= i < |ready| && ready[i] == t;
      }
    }
  }

  /** A flush of this state need not wait. */
  ghost predicate GoesThrough(s: Snap)
  {
    && WellFounded(s.table)
    && forall t :: t in s.sched.ready ==> t in s.table.tasks && AllStored(s.store, s.table.tasks[t].deps)
  }

  /** The state after a flush that has not waited. */
  ghost function AllSent(w: World, s: Snap): Snap
    requires GoesThrough(s)
  {
    s.(
      sched := s.sched.(ready := []),
      tasks := s.tasks + MessagesFor(w, s.table, s.sched.ready),
      sent := s.sent + s.sched.ready)
  }

  /** Whether a flush waits, and where it ends if it does not, is settled beforehand. */
  lemma FlushIsSettled(w: World, before: Snap, after: Snap, stuck: Option<(nat, nat)>)
    requires Flushes(w, before, after, stuck)
    ensures stuck.None? <==> GoesThrough(before)
    ensures stuck.None? ==> after == AllSent(w, before)
    ensures stuck.Some? ==>
      && stuck.value.0 in after.table.tasks && stuck.value.1 in after.table.tasks[stuck.value.0].deps
      && stuck.value.1 !in after.store
  {
    FlushEffect(w, before, after, stuck);
    hide WellFounded, MessagesFor, AllStored, StopsAt, Begun;
    if stuck.None? {
      assert before.sched.ready[..|before.sched.ready|] == before.sched.ready;
    }
  }

  lemma MessagesAppend(w: World, tb: Table, ready: seq<nat>, n: nat)
    requires WellFounded(tb) && n < |ready| && forall t :: t in ready ==> t in tb.tasks
    ensures ready[..n + 1] == ready[..n] + [ready[n]]
    ensures MessagesFor(w, tb, ready[..n + 1]) == MessagesFor(w, tb, ready[..n]) + [MessageFor(w, tb, ready[n])]
  {
    hide WellFounded, MessageFor;
    assert ready[..n + 1] == ready[..n] + [ready[n]];
  }

  /** `before` once a submission has been recorded, and the stored dependencies announced. */
  function AfterSubmit(before: Snap, call: Call): Snap
  {
    var t, deps := before.nextId, DepsOf(call);
    before.(
      nextId := t + 2,
      table := Record(before.table, t, t + 1, call, deps),
      sched := Retriggered(Submit(before.sched, t, deps), deps, before.store.Keys))
  }

  /** `before` once a worker is through with message `i`. */
  function AfterWork(w: World, before: Snap, i: nat): Snap
    requires i < |before.tasks|
  {
    var m := before.tasks[i];
    before.(
      tasks := before.tasks[..i] + before.tasks[i + 1..],
      results := before.results + [Report(m.t, m.o, Apply(w, m.call))])
  }

  /** `before` once the next result has been stored, and announced if it is a success. */
  function AfterResult(before: Snap): Snap
    requires before.results != []
  {
    var r := before.results[0];
    before.(
      results := before.results[1..],
      store := before.store[r.o := Deliver(r.t, r.outcome)],
      sched := if r.outcome.Ok? then OnObjectReady(before.sched, r.o) else before.sched)
  }

  // ------------------------------------------------------- book-keeping

  /** Everything that happens to a task from the ready queue to its result. */
  datatype Book = Book(
    popped: seq<nat>, waiting: seq<Preparation>, polled: seq<nat>, redone: seq<nat>, sent: seq<nat>,
    tasks: seq<Message>, results: seq<Report>, collected: seq<nat>)

  function TasksOf(ms: seq<Message>): seq<nat>
  {
    seq(|ms|, i requires 0 <= i < |ms| => ms[i].t)
  }

  function ReportsOf(rs: seq<Report>): seq<nat>
  {
    seq(|rs|, i requires 0 <= i < |rs| => rs[i].t)
  }

  function HeldBy(ps: seq<Preparation>): seq<nat>
  {
    seq(|ps|, i requires 0 <= i < |ps| => ps[i].t)
  }

  function Count(q: seq<nat>, t: nat): nat
  {
    multiset(q)[t]
  }

  lemma CountAppend(p: seq<nat>, q: seq<nat>, t: nat)
    ensures Count(p + q, t) == Count(p, t) + Count(q, t)
  {
  }

  /** Taking the `i`-th element out. */
  lemma CountWithout(q: seq<nat>, i: nat, t: nat)
    requires i < |q|
    ensures Count(q, t) == Count(q[..i] + q[i + 1..], t) + Count([q[i]], t)
  {
    assert q == q[..i] + [q[i]] + q[i + 1..];
  }

  /** What has been sent is with the workers, reported or collected; and what has been
      popped or redone has been sent, is waiting, or was popped for somebody else. */
  ghost predicate Ledger(b: Book)
  {
    forall t ::
      && Count(b.sent, t) == Count(TasksOf(b.tasks), t) + Count(ReportsOf(b.results), t) + Count(b.collected, t)
      && Count(b.sent, t) + Count(HeldBy(b.waiting), t) + Count(b.polled, t) == Count(b.redone, t) + Count(b.popped, t)
  }

  lemma NothingBooked()
    ensures Ledger(Book([], [], [], [], [], [], [], []))
  {
  }

  lemma TasksAppend(ms: seq<Message>, m: Message)
    ensures TasksOf(ms + [m]) == TasksOf(ms) + [m.t]
  {
  }

  /** A task is popped and sent. */
  lemma LedgerSend(b: Book, t: nat, m: Message)
    requires Ledger(b) && m.t == t
    ensures Ledger(b.(popped := b.popped + [t], sent := b.sent + [t], tasks := b.tasks + [m]))
  {
    TasksAppend(b.tasks, m);
    forall u
      ensures Count(b.popped + [t], u) == Count(b.popped, u) + Count([t], u)
      ensures Count(b.sent + [t], u) == Count(b.sent, u) + Count([t], u)
      ensures Count(TasksOf(b.tasks) + [t], u) == Count(TasksOf(b.tasks), u) + Count([t], u)
    {
      CountAppend(b.popped, [t], u);
      CountAppend(b.sent, [t], u);
      CountAppend(TasksOf(b.tasks), [t], u);
    }
    hide Count, TasksOf, ReportsOf, HeldBy;
  }

  /** A task is popped and has to wait. */
  lemma LedgerHold(b: Book, p: Preparation)
    requires Ledger(b)
    ensures Ledger(b.(popped := b.popped + [p.t], waiting := b.waiting + [p]))
  {
    assert HeldBy(b.waiting + [p]) == HeldBy(b.waiting) + [p.t];
    forall u
      ensures Count(b.popped + [p.t], u) == Count(b.popped, u) + Count([p.t], u)
      ensures Count(HeldBy(b.waiting) + [p.t], u) == Count(HeldBy(b.waiting), u) + Count([p.t], u)
    {
      CountAppend(b.popped, [p.t], u);
      CountAppend(HeldBy(b.waiting), [p.t], u);
    }
    hide Count, TasksOf, ReportsOf, HeldBy;
  }

  /** A waiting task has read on, and goes on waiting. */
  lemma LedgerReads(b: Book, i: nat, got: seq<Dag.Value>)
    requires Ledger(b) && i < |b.waiting|
    ensures Ledger(b.(waiting := b.waiting[i := Preparation(b.waiting[i].t, got)]))
  {
    assert HeldBy(b.waiting[i := Preparation(b.waiting[i].t, got)]) == HeldBy(b.waiting);
    hide Count, TasksOf, ReportsOf, HeldBy;
  }

  /** A waiting task is sent. */
  lemma LedgerResume(b: Book, i: nat, m: Message)
    requires Ledger(b) && i < |b.waiting| && m.t == b.waiting[i].t
    ensures Ledger(b.(
      waiting := b.waiting[..i] + b.waiting[i + 1..], sent := b.sent + [m.t], tasks := b.tasks + [m]))
  {
    var t, q := m.t, HeldBy(b.waiting);
    TasksAppend(b.tasks, m);
    assert HeldBy(b.waiting[..i] + b.waiting[i + 1..]) == q[..i] + q[i + 1..];
    forall u
      ensures Count(b.sent + [t], u) == Count(b.sent, u) + Count([t], u)
      ensures Count(TasksOf(b.tasks) + [t], u) == Count(TasksOf(b.tasks), u) + Count([t], u)
      ensures Count(q, u) == Count(q[..i] + q[i + 1..], u) + Count([t], u)
    {
      CountAppend(b.sent, [t], u);
      CountAppend(TasksOf(b.tasks), [t], u);
      CountWithout(q, i, u);
    }
    hide Count, TasksOf, ReportsOf, HeldBy;
  }

  /** A worker reports. */
  lemma LedgerWork(b: Book, i: nat, r: Report)
    requires Ledger(b) && i < |b.tasks| && r.t == b.tasks[i].t
    ensures Ledger(b.(tasks := b.tasks[..i] + b.tasks[i + 1..], results := b.results + [r]))
  {
    var t, q := r.t, TasksOf(b.tasks);
    assert TasksOf(b.tasks[..i] + b.tasks[i + 1..]) == q[..i] + q[i + 1..];
    assert ReportsOf(b.results + [r]) == ReportsOf(b.results) + [t];
    forall u
      ensures Count(q, u) == Count(q[..i] + q[i + 1..], u) + Count([t], u)
      ensures Count(ReportsOf(b.results) + [t], u) == Count(ReportsOf(b.results), u) + Count([t], u)
    {
      CountWithout(q, i, u);
      CountAppend(ReportsOf(b.results), [t], u);
    }
    hide Count, TasksOf, ReportsOf, HeldBy;
  }

  /** The collector takes a result. */
  lemma LedgerCollect(b: Book)
    requires Ledger(b) && b.results != []
    ensures Ledger(b.(results := b.results[1..], collected := b.collected + [b.results[0].t]))
  {
    var t, q := b.results[0].t, ReportsOf(b.results);
    assert ReportsOf(b.results[1..]) == q[..0] + q[1..];
    forall u
      ensures Count(q, u) == Count(q[..0] + q[1..], u) + Count([t], u)
      ensures Count(b.collected + [t], u) == Count(b.collected, u) + Count([t], u)
    {
      CountWithout(q, 0, u);
      CountAppend(b.collected, [t], u);
    }
    hide Count, TasksOf, ReportsOf, HeldBy;
  }

  /** A reconstruction sends a task again. */
  lemma LedgerRedo(b: Book, m: Message)
    requires Ledger(b)
    ensures Ledger(b.(redone := b.redone + [m.t], sent := b.sent + [m.t], tasks := b.tasks + [m]))
  {
    var t := m.t;
    TasksAppend(b.tasks, m);
    forall u
      ensures Count(b.redone + [t], u) == Count(b.redone, u) + Count([t], u)
      ensures Count(b.sent + [t], u) == Count(b.sent, u) + Count([t], u)
      ensures Count(TasksOf(b.tasks) + [t], u) == Count(TasksOf(b.tasks), u) + Count([t], u)
    {
      CountAppend(b.redone, [t], u);
      CountAppend(b.sent, [t], u);
      CountAppend(TasksOf(b.tasks), [t], u);
    }
    hide Count, TasksOf, ReportsOf, HeldBy;
  }

  /** A task is popped for somebody who polls. */
  lemma LedgerPoll(b: Book, t: nat)
    requires Ledger(b)
    ensures Ledger(b.(popped := b.popped + [t], polled := b.polled + [t]))
  {
    forall u
      ensures Count(b.popped + [t], u) == Count(b.popped, u) + Count([t], u)
      ensures Count(b.polled + [t], u) == Count(b.polled, u) + Count([t], u)
    {
      CountAppend(b.popped, [t], u);
      CountAppend(b.polled, [t], u);
    }
    hide Count, TasksOf, ReportsOf, HeldBy;
  }

  class Runtime {
    const world: World
    const scheduler: Scheduler
    const ownership: OwnershipTable
    var nextId: nat
    var store: map<nat, Dag.Value>
    var taskQueue: seq<Message>
    var resultQueue: seq<Report>

    /** The tasks some thread has popped in a flush and waits to send. */
    var waiting: seq<Preparation>

    /** The task the collector was popping when its flush met a missing reference, and
        the reference. */
    var collectorStuck: Option<(nat, nat)>

    /** The tasks sent to workers, in order, and those of them that were sent by a
        reconstruction. */
    ghost var dispatched: seq<nat>
    ghost var redone: seq<nat>

    /** The tasks whose results the collector has taken, and those that were popped for
        somebody else than a flush. */
    ghost var collected: seq<nat>
    ghost var polled: seq<nat>

    ghost function BookOf(): Book
      reads this, scheduler
    {
      Book(scheduler.popped, waiting, polled, redone, dispatched, taskQueue, resultQueue, collected)
    }

    ghost function Tb(): Table
      reads ownership
    {
      ownership.Lineage()
    }

    ghost function Snapshot(): Snap
      reads this, scheduler, ownership
    {
      Snap(nextId, Tb(), scheduler.State(), store, taskQueue, resultQueue, waiting, dispatched)
    }

    /** Ids are fresh and lineage is well-founded; scheduler and ownership table know the
        same tasks; and whatever is stored, queued or reported is what lineage says. */
    ghost predicate Sound()
      reads this, scheduler, ownership
    {
      && scheduler.Valid() && scheduler.submitted == Dependencies(Tb())
      && WellFounded(Tb()) && Inverse(Tb()) && Cluster.IdsBelow(nextId, Tb())
      && StoreSound(world, Tb(), store)
      && QueuesSound(world, Tb(), taskQueue, resultQueue)
      && WaitingSound(world, Tb(), waiting)
    }

    /** And no task is sent, waits, or is reported that was not popped or redone, nor the
        other way round. */
    ghost predicate Valid()
      reads this, scheduler, ownership
    {
      Sound() && Ledger(BookOf())
    }

    constructor (world: World)
      ensures Valid() && this.world == world && fresh(scheduler) && fresh(ownership)
      ensures store == map[] && taskQueue == [] && resultQueue == [] && collectorStuck == None
      ensures dispatched == [] && redone == [] && collected == [] && polled == []
      ensures Tb() == EMPTY_TABLE && scheduler.State() == FRESH
      ensures Snapshot() == Snap(0, EMPTY_TABLE, FRESH, map[], [], [], [], [])
    {
      this.world := world;
      scheduler := new Scheduler();
      ownership := new OwnershipTable();
      nextId, store, taskQueue, resultQueue, collectorStuck := 0, map[], [], [], None;
      waiting, dispatched, redone, collected, polled := [], [], [], [], [];
      NothingBooked();
    }

    /** `_next_unique_id`. */
    method NextUniqueId() returns (id: nat)
      modifies this`nextId
      ensures id == old(nextId) && nextId == id + 1
      ensures old(Valid()) ==> Valid()
    {
      hide WellFounded, Inverse, StoreSound, RepInv, Once, QueuesSound, WaitingSound, Ledger;
      id := nextId;
      nextId := nextId + 1;
    }

    /** `resolve_args` with `get_or_wait` as the getter: the resolved call, or the first
        reference it would wait for. */
    method ResolveCall(c: Call) returns (resolved: Option<Call>, waitsFor: nat)
      ensures resolved.Some? <==> AllStored(store, DepsOf(c))
      ensures resolved.Some? ==> resolved.value == FillCall(c, Stored(store, DepsOf(c)))
      ensures resolved.None? ==> IsFirstMissing(store, DepsOf(c), waitsFor)
    {
      var refs := ExtractDependencies(c.args, c.kwargs);
      var i := 0;
      while i < |refs|
        invariant 0 <= i <= |refs|
        invariant AllStored(store, refs[..i])
      {
        if refs[i] !in store {
          return None, refs[i];
        }
        i := i + 1;
      }
      assert refs[..i] == refs;
      var objects := store;
      var get: Getter := (calls, id) => if id in objects then objects[id] else Atom(0);
      var (args, kwargs, calls) := ResolveArgs(c.args, c.kwargs, get);
      resolved, waitsFor := Some(Call(c.func, args, kwargs)), 0;
      ResolvedIsFilled(c, store, get);
    }

    /** Reads on for a popped task: the message, if all its references can be read, and
        what has been read. */
    method Continue(p: Preparation) returns (message: Option<Message>, got: seq<Dag.Value>)
      requires Sound() && PreparationSound(world, Tb(), p)
      ensures |p.got| <= |Tb().tasks[p.t].deps| && got == ReadOn(store, Tb().tasks[p.t].deps, p.got)
      ensures PreparationSound(world, Tb(), Preparation(p.t, got))
      ensures message.Some? <==> |got| == |Tb().tasks[p.t].deps|
      ensures message.Some? ==>
        message.value == MessageFor(world, Tb(), p.t) && MessageSound(world, Tb(), message.value)
    {
      hide Inverse, StoreSound, Cluster.IdsBelow, RepInv, Once, Payload, FillCall, Inputs, MessageSound, ReportSound,
        CallRefs, QueuesSound, WaitingSound, Ledger;
      ghost var tb := Tb();
      var entry := ownership.tasks[p.t];
      assert tb.tasks[p.t] == TaskOf(entry);
      var refs := ExtractDependencies(entry.saved.args, entry.saved.kwargs);
      assert tb.tasks[p.t].deps == refs;
      hide WellFounded;
      ReadOnSound(world, tb, store, p);
      got := p.got;
      while |got| < |refs| && refs[|got|] in store
        invariant |got| <= |refs| && ReadOn(store, refs, got) == ReadOn(store, refs, p.got)
        decreases |refs| - |got|
      {
        got := got + [store[refs[|got|]]];
      }
      if |got| < |refs| {
        return None, got;
      }
      CompleteIsRight(world, tb, Preparation(p.t, got));
      return Some(Message(p.t, entry.resultId, FillCall(entry.saved, got))), got;
    }

    /** The message for a popped task, or the first reference it has to wait for. */
    method Prepare(t: nat) returns (message: Option<Message>, got: seq<Dag.Value>, waitsFor: nat)
      requires Sound() && t in scheduler.submitted
      ensures t in Tb().tasks
      ensures message.Some? <==> AllStored(store, Tb().tasks[t].deps)
      ensures message.Some? ==> message.value == MessageFor(world, Tb(), t) && MessageSound(world, Tb(), message.value)
      ensures message.None? ==>
        && StopsAt(store, Tb().tasks[t].deps, [], waitsFor) && got == ReadOn(store, Tb().tasks[t].deps, [])
        && waitsFor in Tb().tasks[t].deps && waitsFor !in store
        && PreparationSound(world, Tb(), Preparation(t, got))
    {
      hide WellFounded, Inverse, StoreSound, Cluster.IdsBelow, RepInv, Once, Inputs, MessageFor, MessageSound,
        ReportSound, QueuesSound, WaitingSound, Ledger, ReadOn, AllStored;
      assert Tb().tasks[t] == TaskOf(ownership.tasks[t]);
      message, got := Continue(Preparation(t, []));
      NothingReadYet(store, Tb().tasks[t].deps);
      waitsFor := if |got| < |ownership.tasks[t].dependencies| then ownership.tasks[t].dependencies[|got|] else 0;
      if message.None? {
        StopsMissing(store, Tb().tasks[t].deps, waitsFor);
      }
    }

    /** One turn of the loop in `_flush_ready_tasks`: a task is popped, and sent, or the
        flush waits for one of its references. */
    method FlushOne() returns (t: nat, waitsFor: Option<nat>)
      requires Valid() && scheduler.readyQueue != []
      modifies this`taskQueue, this`dispatched, this`waiting, scheduler
      ensures Valid() && scheduler.submitted == old(scheduler.submitted)
      ensures t == old(scheduler.readyQueue)[0] && t in Tb().tasks
      ensures scheduler.State() == SchedulerSpec.Pop(old(scheduler.State()))
      ensures scheduler.popped == old(scheduler.popped) + [t]
      ensures waitsFor.None? <==> AllStored(store, Tb().tasks[t].deps)
      ensures waitsFor.None? ==>
        && taskQueue == old(taskQueue) + [MessageFor(world, Tb(), t)] && dispatched == old(dispatched) + [t]
        && waiting == old(waiting)
      ensures waitsFor.Some? ==>
        && StopsAt(store, Tb().tasks[t].deps, [], waitsFor.value)
        && waiting == old(waiting) + [Preparation(t, ReadOn(store, Tb().tasks[t].deps, []))]
        && taskQueue == old(taskQueue) && dispatched == old(dispatched)
    {
      hide WellFounded, Inverse, StoreSound, Ledger, Cluster.IdsBelow, RepInv, Once, MessageFor, MessageSound,
        ReportSound, PreparationSound, ReadOn, StopsAt, AllStored, Dependencies;
      ghost var book := BookOf();
      ReadyIsSubmitted(scheduler, Tb());
      FirstIsSubmitted(scheduler);
      var spec := scheduler.PopReadyTask();
      t := spec.value;
      var message, got, missing := Prepare(t);
      if message.None? {
        waiting := waiting + [Preparation(t, got)];
        LedgerHold(book, Preparation(t, got));
        return t, Some(missing);
      }
      taskQueue := taskQueue + [message.value];
      dispatched := dispatched + [t];
      MessageNames(world, Tb(), t);
      LedgerSend(book, t, message.value);
      return t, None;
    }

    /** `_flush_ready_tasks`.  Returns the task and the reference it would wait for, if
        it would. */
    method FlushReadyTasks() returns (stuck: Option<(nat, nat)>)
      requires Valid()
      modifies this`taskQueue, this`dispatched, this`waiting, scheduler
      ensures Valid() && scheduler.pendingTasks == old(scheduler.pendingTasks)
      ensures scheduler.submitted == old(scheduler.submitted)
      ensures forall t :: t in old(scheduler.readyQueue) ==> t in Tb().tasks
      ensures stuck.None? <==>
        forall t :: t in old(scheduler.readyQueue) ==> AllStored(store, Tb().tasks[t].deps)
      ensures stuck.None? ==>
        && scheduler.readyQueue == [] && dispatched == old(dispatched) + old(scheduler.readyQueue)
        && taskQueue == old(taskQueue) + MessagesFor(world, Tb(), old(scheduler.readyQueue))
      ensures stuck.Some? ==>
        && stuck.value.0 in old(scheduler.readyQueue)
        && stuck.value.1 in Tb().tasks[stuck.value.0].deps && stuck.value.1 !in store
      ensures old(dispatched) <= dispatched && old(taskQueue) <= taskQueue
      ensures |scheduler.readyQueue| <= |old(scheduler.readyQueue)|
      ensures |scheduler.readyQueue| + |taskQueue| <= |old(scheduler.readyQueue)| + |old(taskQueue)|
      ensures Flushes(world, old(Snapshot()), Snapshot(), stuck)
    {
      hide Valid, WellFounded, AllStored, Flushes, Flushed, StopsAt, ReadOn, MessageFor, MessagesFor;
      ghost var tb, ready, before := Tb(), scheduler.readyQueue, Snapshot();
      ReadyIsKnown(this);
      ghost var n := 0;
      NothingFlushed(world, before);
      while true
        invariant n <= |ready| && scheduler.readyQueue == ready[n..]
        invariant Valid() && Tb() == tb && scheduler.pendingTasks == old(scheduler.pendingTasks)
        invariant scheduler.submitted == old(scheduler.submitted)
        invariant Flushed(world, before, Snapshot(), n)
        decreases |ready| - n
      {
        if scheduler.readyQueue == [] {
          FlushEnds(world, before, Snapshot(), n);
          FlushEffect(world, before, Snapshot(), None);
          return None;
        }
        ghost var middle := Snapshot().(sched := SchedulerSpec.Pop(scheduler.State()));
        var t, waitsFor := FlushOne();
        if waitsFor.Some? {
          FlushWaits(world, before, middle, Snapshot(), n, waitsFor.value);
          FlushEffect(world, before, Snapshot(), Some((t, waitsFor.value)));
          return Some((t, waitsFor.value));
        }
        FlushGoesOn(world, before, middle, Snapshot(), n);
        n := n + 1;
      }
    }

    /** A flush that has waited goes on, as soon as its reference is there or to see whether
        it is. */
    method ResumeFlush(i: nat) returns (stuck: Option<(nat, nat)>)
      requires Valid() && i < |waiting|
      modifies this`taskQueue, this`dispatched, this`waiting, scheduler
      ensures Valid() && scheduler.submitted == old(scheduler.submitted)
      ensures Resumes(world, old(Snapshot()), Snapshot(), i, stuck)
    {
      hide WellFounded, Inverse, StoreSound, Ledger, Cluster.IdsBelow, RepInv, Once, MessageFor, MessageSound,
        ReportSound, PreparationSound, ReadOn, AllStored, Flushes;
      ghost var before, tb, book := Snapshot(), Tb(), BookOf();
      var p := waiting[i];
      assert PreparationSound(world, tb, p);
      PreparationIsKnown(world, tb, p);
      var message, got := Continue(p);
      if message.None? {
        waiting := waiting[i := Preparation(p.t, got)];
        LedgerReads(book, i, got);
        assert tb.tasks[p.t] == TaskOf(ownership.tasks[p.t]);
        return Some((p.t, ownership.tasks[p.t].dependencies[|got|]));
      }
      taskQueue := taskQueue + [message.value];
      dispatched := dispatched + [p.t];
      waiting := waiting[..i] + waiting[i + 1..];
      MessageNames(world, tb, p.t);
      LedgerResume(book, i, message.value);
      stuck := FlushReadyTasks();
    }

    /** The first part of `submit_task`: draws the ids, registers the call, and hands it
        to the scheduler. */
    method Enqueue(call: Call) returns (t: nat, o: nat)
      requires Valid() && forall d :: d in DepsOf(call) ==> d in Tb().producer
      modifies this`nextId, scheduler, ownership
      ensures Valid() && t == old(nextId) && o == t + 1 && nextId == o + 1
      ensures Tb() == Record(old(Tb()), t, o, call, DepsOf(call)) && Extends(old(Tb()), Tb())
      ensures t !in old(scheduler.submitted)
      ensures scheduler.State() == Submit(old(scheduler.State()), t, DepsOf(call))
    {
      hide Inverse, StoreSound, RepInv, Once, QueuesSound, WaitingSound, Ledger, CallRefs, WellFounded, Submit,
        Extends, Record, Cluster.IdsBelow, Dependencies;
      ghost var tb := Tb();
      t := NextUniqueId();
      o := NextUniqueId();
      var deps := ExtractDependencies(call.args, call.kwargs);
      NewIds(tb, t, o, call);
      RecordDependencies(tb, t, o, call, deps);
      ownership.RegisterTask(t, o, call, deps);
      SoundnessGrows(world, tb, Tb(), store, taskQueue, resultQueue);
      WaitingGrows(world, tb, Tb(), waiting);
      scheduler.Submit(t, deps);
    }

    /** The second part: announces each dependency that is already stored. */
    method Retrigger(deps: seq<nat>)
      requires Valid()
      modifies scheduler
      ensures Valid() && scheduler.submitted == old(scheduler.submitted)
      ensures scheduler.State() == Retriggered(old(scheduler.State()), deps, store.Keys)
    {
      hide Inverse, StoreSound, RepInv, Once, QueuesSound, WaitingSound, Ledger, WellFounded;
      ghost var s := scheduler.State();
      var i := 0;
      while i < |deps|
        invariant 0 <= i <= |deps|
        invariant Valid() && scheduler.submitted == old(scheduler.submitted)
        invariant Retriggered(scheduler.State(), deps[i..], store.Keys) == Retriggered(s, deps, store.Keys)
      {
        assert deps[i..][0] == deps[i] && deps[i..][1..] == deps[i + 1..];
        if deps[i] in store {
          scheduler.OnObjectReady(deps[i]);
        }
        i := i + 1;
      }
    }

    /** `submit_task` up to the flush. */
    method SubmitAndAnnounce(call: Call) returns (o: nat)
      requires Valid() && forall d :: d in DepsOf(call) ==> d in Tb().producer
      modifies this`nextId, scheduler, ownership
      ensures Valid() && o == old(nextId) + 1
      ensures Tb() == Record(old(Tb()), old(nextId), o, call, DepsOf(call)) && Extends(old(Tb()), Tb())
      ensures scheduler.pendingTasks ==
        WithoutAll(Waiting(old(scheduler.pendingTasks), old(nextId), DepsOf(call)), Elems(DepsOf(call)) * store.Keys)
      ensures forall u :: u in scheduler.readyQueue <==>
        ReleasedBySubmit(old(scheduler.State()), old(nextId), DepsOf(call), store, u)
      ensures Snapshot() == AfterSubmit(old(Snapshot()), call)
    {
      hide Inverse, StoreSound, RepInv, Once, QueuesSound, WaitingSound, Ledger, WellFounded, Submit, Retriggered,
        WithoutAll, Extends;
      ghost var s := scheduler.State();
      var t;
      t, o := Enqueue(call);
      ghost var s1 := scheduler.State();
      var deps := ExtractDependencies(call.args, call.kwargs);
      Retrigger(deps);
      SubmitEffect(s, s1, scheduler.State(), t, deps, store, scheduler.submitted);
    }

    /**
      `submit_task`.  The call is recorded under fresh ids.  The task waits for exactly
      those of its dependencies that are not stored; if there are none it is sent.  Every
      task that waited for nothing but stored dependencies of this call is sent as well.
     */
    method SubmitTask(call: Call) returns (o: nat, stuck: Option<(nat, nat)>)
      requires Valid() && forall d :: d in DepsOf(call) ==> d in Tb().producer
      modifies this`nextId, this`taskQueue, this`dispatched, this`waiting, scheduler, ownership
      ensures Valid() && o == old(nextId) + 1
      ensures Tb() == Record(old(Tb()), old(nextId), o, call, DepsOf(call)) && Extends(old(Tb()), Tb())
      ensures var there := Elems(DepsOf(call)) * store.Keys;
        && scheduler.pendingTasks == WithoutAll(Waiting(old(scheduler.pendingTasks), old(nextId), DepsOf(call)), there)
        && (stuck.None? <==>
             forall u :: ReleasedBySubmit(old(scheduler.State()), old(nextId), DepsOf(call), store, u) ==>
               u in Tb().tasks && AllStored(store, Tb().tasks[u].deps))
        && (stuck.None? ==>
             && scheduler.readyQueue == [] && old(dispatched) <= dispatched
             && (forall u :: u in dispatched[|old(dispatched)|..] <==>
                  ReleasedBySubmit(old(scheduler.State()), old(nextId), DepsOf(call), store, u)))
      ensures Flushes(world, AfterSubmit(old(Snapshot()), call), Snapshot(), stuck)
    {
      hide Flushes, MessagesFor, Inverse, StoreSound, RepInv, Once, QueuesSound, WaitingSound, Ledger, WellFounded,
        WithoutAll, Extends, ReleasedBySubmit, AllStored, AfterSubmit, Waiting, Record, CallRefs;
      o := SubmitAndAnnounce(call);
      ghost var ready := scheduler.readyQueue;
      stuck := FlushReadyTasks();
      assert stuck.None? ==> dispatched[|old(dispatched)|..] == ready;
    }

    /** Some worker is through with message `i`, and reports. */
    method WorkerStep(i: nat)
      requires Valid() && i < |taskQueue|
      modifies this`taskQueue, this`resultQueue
      ensures Valid()
      ensures var m := old(taskQueue)[i];
        && taskQueue == old(taskQueue)[..i] + old(taskQueue)[i + 1..]
        && m.t in Tb().tasks
        && resultQueue == old(resultQueue) + [Report(m.t, m.o, Apply(world, Payload(world, Tb(), m.t)))]
      ensures Snapshot() == AfterWork(world, old(Snapshot()), i)
      ensures var call, r := old(taskQueue)[i].call, resultQueue[|resultQueue| - 1];
        && (call.func.User? ==> r.outcome == world.user(call.func.code, call.args, call.kwargs))
        && (call.func.InitActor? ==>
             match world.construct(call.func.cls, call.args, call.kwargs)
             case Instance(x) => r.outcome == Ok(ActorState(x))
             case ConstructorRaised(m) => r.outcome == Err(m))
    {
      hide WellFounded, Inverse, StoreSound, Ledger, RepInv, Once, Payload;
      var m := taskQueue[i];
      assert MessageSound(world, Tb(), m);
      ghost var book := BookOf();
      taskQueue := taskQueue[..i] + taskQueue[i + 1..];
      resultQueue := resultQueue + [Report(m.t, m.o, Apply(world, m.call))];
      LedgerWork(book, i, resultQueue[|resultQueue| - 1]);
    }

    /** What becomes of a result before the flush.  The object is stored, under its
        meaning; a success is announced, a failure is stored as a `_TaskError` and never
        announced. */
    method HandleResult(r: Report)
      requires Valid() && ReportSound(world, Tb(), r)
      modifies this`store, scheduler, ownership
      ensures store == old(store)[r.o := Deliver(r.t, r.outcome)]
      ensures r.outcome.Ok? ==> store[r.o] == r.outcome.value
      ensures r.outcome.Err? ==> store[r.o] == TaskError(r.t, r.outcome.message)
      ensures r.outcome.Err? ==> r.t in ownership.tasks && ownership.tasks[r.t].error == Some(r.outcome.message)
      ensures Valid() && Tb() == old(Tb()) && scheduler.submitted == old(scheduler.submitted)
      ensures r.o in Tb().producer && store == old(store)[r.o := Meaning(world, Tb(), r.o)]
      ensures r.t in ownership.tasks && ownership.tasks[r.t].status == if r.outcome.Ok? then Finished else Failed
      ensures scheduler.State() ==
        if r.outcome.Ok? then OnObjectReady(old(scheduler.State()), r.o) else old(scheduler.State())
      ensures r.outcome.Ok? ==>
        && scheduler.pendingTasks == Without(old(scheduler.pendingTasks), r.o)
        && forall u :: u in scheduler.readyQueue <==> ReleasedBy(old(scheduler.State()), r.o, u)
      ensures |scheduler.pendingTasks| + |scheduler.readyQueue| <=
        |old(scheduler.pendingTasks)| + |old(scheduler.readyQueue)|
    {
      hide WellFounded, Inverse, RepInv, Once, Meaning, DepsOf, Apply, Payload, QueuesSound, WaitingSound, Ledger;
      OutcomeIsMeaning(world, Tb(), r);
      assert r.t in ownership.tasks;
      store := store[r.o := Deliver(r.t, r.outcome)];
      assert StoreSound(world, Tb(), store);
      hide StoreSound, Ledger;
      if r.outcome.Ok? {
        OnObjectReadyEffect(scheduler.State(), scheduler.submitted, r.o);
        ReleaseMovesTasks(scheduler.State(), scheduler.submitted, r.o);
        ownership.TaskFinished(r.t);
        scheduler.OnObjectReady(r.o);
      } else {
        ownership.TaskFailed(r.t, r.outcome.message);
      }
    }

    /** `result_queue.get`, and what becomes of the result before the flush. */
    method TakeResult() returns (r: Report)
      requires Valid() && resultQueue != []
      modifies this`resultQueue, this`collected, this`store, scheduler, ownership
      ensures Valid() && Tb() == old(Tb()) && r == old(resultQueue)[0] && resultQueue == old(resultQueue)[1..]
      ensures r.o in Tb().producer && store == old(store)[r.o := Meaning(world, Tb(), r.o)]
      ensures Snapshot() == AfterResult(old(Snapshot()))
      ensures r.t in ownership.tasks && ownership.tasks[r.t].status == if r.outcome.Ok? then Finished else Failed
      ensures r.outcome.Err? ==> scheduler.State() == old(scheduler.State())
      ensures r.outcome.Ok? ==>
        && scheduler.pendingTasks == Without(old(scheduler.pendingTasks), r.o)
        && forall u :: u in scheduler.readyQueue <==> ReleasedBy(old(scheduler.State()), r.o, u)
      ensures |scheduler.pendingTasks| + |scheduler.readyQueue| <=
        |old(scheduler.pendingTasks)| + |old(scheduler.readyQueue)|
    {
      hide WellFounded, Inverse, RepInv, Once, Meaning, DepsOf, ReportSound, StoreSound, Ledger, OnObjectReady,
        Without;
      r := resultQueue[0];
      assert ReportSound(world, Tb(), r);
      LedgerCollect(BookOf());
      resultQueue, collected := resultQueue[1..], collected + [r.t];
      assert QueuesSound(world, Tb(), taskQueue, resultQueue);
      hide QueuesSound, WaitingSound, Ledger;
      HandleResult(r);
    }

    /**
      One turn of `_collect_results`.  After a success the tasks that missed only this
      object are sent, with everything that was ready; after a failure nothing is.
     */
    method CollectStep()
      requires Valid() && resultQueue != [] && collectorStuck.None?
      modifies this`resultQueue, this`collected, this`store, this`taskQueue, this`dispatched, this`waiting
      modifies this`collectorStuck, scheduler, ownership
      ensures Valid() && Tb() == old(Tb()) && resultQueue == old(resultQueue)[1..]
      ensures old(dispatched) <= dispatched && old(taskQueue) <= taskQueue && Work() < old(Work())
      ensures var r := old(resultQueue)[0];
        && r.o in Tb().producer && store == old(store)[r.o := Meaning(world, Tb(), r.o)]
        && r.t in ownership.tasks && ownership.tasks[r.t].status == (if r.outcome.Ok? then Finished else Failed)
        && (r.outcome.Err? ==>
             && scheduler.State() == old(scheduler.State())
             && collectorStuck == None && taskQueue == old(taskQueue) && dispatched == old(dispatched))
        && (r.outcome.Ok? ==>
             && scheduler.pendingTasks == Without(old(scheduler.pendingTasks), r.o)
             && (collectorStuck.None? <==>
                  forall u :: ReleasedBy(old(scheduler.State()), r.o, u) ==>
                    u in Tb().tasks && AllStored(store, Tb().tasks[u].deps))
             && (collectorStuck.None? ==>
                  && scheduler.readyQueue == []
                  && |taskQueue| - |old(taskQueue)| == |dispatched| - |old(dispatched)|
                  && forall u :: u in dispatched[|old(dispatched)|..] <==> ReleasedBy(old(scheduler.State()), r.o, u)))
      ensures if old(resultQueue)[0].outcome.Ok?
        then Flushes(world, AfterResult(old(Snapshot())), Snapshot(), collectorStuck)
        else Snapshot() == AfterResult(old(Snapshot()))
    {
      hide Valid, WellFounded, Inverse, Meaning, MessagesFor, OnObjectReady, Flushes, AllStored, Without, ReleasedBy,
        AfterResult;
      var r := TakeResult();
      if r.outcome.Ok? {
        ghost var s2 := scheduler.State();
        CollectorFlush();
        assert collectorStuck.None? ==> dispatched[|old(dispatched)|..] == s2.ready;
      }
    }

    /** The flush of the collector. */
    method CollectorFlush()
      requires Valid()
      modifies this`taskQueue, this`dispatched, this`waiting, this`collectorStuck, scheduler
      ensures Valid() && scheduler.pendingTasks == old(scheduler.pendingTasks)
      ensures collectorStuck.None? <==>
        forall t :: t in old(scheduler.readyQueue) ==> t in Tb().tasks && AllStored(store, Tb().tasks[t].deps)
      ensures collectorStuck.None? ==>
        && scheduler.readyQueue == [] && dispatched == old(dispatched) + old(scheduler.readyQueue)
        && |taskQueue| - |old(taskQueue)| == |old(scheduler.readyQueue)|
      ensures old(dispatched) <= dispatched && old(taskQueue) <= taskQueue
      ensures |scheduler.readyQueue| <= |old(scheduler.readyQueue)|
      ensures |scheduler.readyQueue| + |taskQueue| <= |old(scheduler.readyQueue)| + |old(taskQueue)|
      ensures Flushes(world, old(Snapshot()), Snapshot(), collectorStuck)
    {
      hide WellFounded, Inverse, RepInv, Once, StoreSound, QueuesSound, WaitingSound, Ledger, MessagesFor, Flushes,
        AllStored, Cluster.IdsBelow, Dependencies;
      var stuck := FlushReadyTasks();
      collectorStuck := stuck;
    }

    /** `evict_object`: the object goes, its lineage stays. */
    method EvictObject(o: nat) returns (existed: bool)
      requires Valid()
      modifies this`store
      ensures Valid() && store == old(store) - {o} && (existed <==> o in old(store) && old(store)[o] != NONE_OBJECT)
      ensures Snapshot() == old(Snapshot()).(store := old(store) - {o})
    {
      hide WellFounded, Inverse, RepInv, Once, QueuesSound, WaitingSound, Ledger, Meaning;
      existed := o in store && store[o] != NONE_OBJECT;
      store := store - {o};
    }

    // ----------------------------------------------------- what the others do

    /** How much workers and collector still have to do at most. */
    function Work(): nat
      reads this, scheduler
    {
      3 * (|scheduler.pendingTasks| + |scheduler.readyQueue|) + 2 * |taskQueue| + |resultQueue|
    }

    /** Nothing is queued, reported, ready or pending, and the collector is all right. */
    predicate Idle()
      reads this, scheduler
    {
      taskQueue == [] && resultQueue == [] && scheduler.readyQueue == [] && scheduler.pendingTasks == map[]
      && collectorStuck.None?
    }

    /** The task of `o` is with a worker, or its result is on its way. */
    predicate InFlight(o: nat)
      reads this
    {
      Flies(taskQueue, resultQueue, o)
    }

    /** The task of `o` is all there is to do. */
    predicate Alone(o: nat)
      reads this, scheduler
    {
      && |taskQueue| + |resultQueue| == 1 && InFlight(o) && collectorStuck.None?
      && scheduler.readyQueue == [] && scheduler.pendingTasks == map[]
    }

    /** Workers or the collector take a step, whichever it is. */
    method OtherStep(ghost o: nat)
      requires Valid() && (taskQueue != [] || (resultQueue != [] && collectorStuck.None?))
      modifies this`resultQueue, this`collected, this`store, this`taskQueue, this`dispatched, this`waiting
      modifies this`collectorStuck, scheduler, ownership
      ensures Valid() && Tb() == old(Tb()) && Work() < old(Work())
      ensures Keeps(old(store), store)
      ensures old(InFlight(o)) ==> InFlight(o) || o in store
      ensures old(Alone(o)) ==>
        && dispatched == old(dispatched)
        && ((Alone(o) && store == old(store)) ||
            (Idle() && o in Tb().producer && store == old(store)[o := Meaning(world, Tb(), o)]))
    {
      var collect: bool := *;
      if taskQueue == [] || (collect && resultQueue != [] && collectorStuck.None?) {
        Collects(o);
      } else {
        var i: nat :| i < |taskQueue| by {
          assert 0 < |taskQueue|;
        }
        Works(o, i);
      }
    }

    method Works(ghost o: nat, i: nat)
      requires Valid() && i < |taskQueue|
      modifies this`taskQueue, this`resultQueue
      ensures Valid() && Work() < old(Work())
      ensures old(InFlight(o)) ==> InFlight(o)
      ensures old(Alone(o)) ==> Alone(o)
    {
      hide Valid, Apply, Payload;
      ghost var ms, rs := taskQueue, resultQueue;
      WorkerStep(i);
      MessageMoves(ms, rs, i, resultQueue[|rs|], o);
      hide Flies;
    }

    method Collects(ghost o: nat)
      requires Valid() && resultQueue != [] && collectorStuck.None?
      modifies this`resultQueue, this`collected, this`store, this`taskQueue, this`dispatched, this`waiting
      modifies this`collectorStuck, scheduler, ownership
      ensures Valid() && Tb() == old(Tb()) && Work() < old(Work())
      ensures Keeps(old(store), store)
      ensures old(InFlight(o)) ==> InFlight(o) || o in store
      ensures old(Alone(o)) ==>
        && Idle() && dispatched == old(dispatched)
        && o in Tb().producer && store == old(store)[o := Meaning(world, Tb(), o)]
    {
      hide Valid, WellFounded, StoreSound, Meaning, AllStored, Flushes, AfterResult;
      ghost var rs, ms, sent, before := resultQueue, taskQueue, dispatched, store;
      StoreIsSound(this);
      CollectStep();
      KeepsMeaning(world, Tb(), before, store, rs[0].o);
      ResultMoves(ms, rs, taskQueue, o);
      NothingReleased(sent, dispatched);
      hide StoreSound, Ledger, Keeps;
    }

    /** Workers and collector take any number of steps. */
    method Others(ghost o: nat)
      requires Valid()
      modifies this`resultQueue, this`collected, this`store, this`taskQueue, this`dispatched, this`waiting
      modifies this`collectorStuck, scheduler, ownership
      ensures Valid() && Tb() == old(Tb())
      ensures Keeps(old(store), store)
      ensures old(InFlight(o)) ==> InFlight(o) || o in store
      ensures old(Idle()) ==> Idle() && store == old(store) && dispatched == old(dispatched)
    {
      hide Valid, InFlight;
      while *
        invariant Valid() && Tb() == old(Tb())
        invariant Keeps(old(store), store)
        invariant old(InFlight(o)) ==> InFlight(o) || o in store
        invariant old(Idle()) ==> Idle() && store == old(store) && dispatched == old(dispatched)
        decreases Work()
      {
        if taskQueue == [] && (resultQueue == [] || collectorStuck.Some?) {
          break;
        }
        OtherStep(o);
      }
    }

    /** `get_or_wait` for an object whose task is in flight. */
    method Await(o: nat)
      requires Valid() && (InFlight(o) || o in store)
      modifies this`resultQueue, this`collected, this`store, this`taskQueue, this`dispatched, this`waiting
      modifies this`collectorStuck, scheduler, ownership
      ensures Valid() && Tb() == old(Tb())
      ensures Keeps(old(store), store)
      ensures o in store || collectorStuck.Some?
      ensures old(Alone(o)) && o !in old(store) ==>
        && Idle() && dispatched == old(dispatched)
        && o in Tb().producer && store == old(store)[o := Meaning(world, Tb(), o)]
    {
      hide WellFounded, Inverse, StoreSound, RepInv, Once, QueuesSound, WaitingSound, Ledger, Cluster.IdsBelow,
        Dependencies, Meaning, Keeps;
      KeepsItself(store);
      while o !in store && collectorStuck.None?
        invariant Valid() && Tb() == old(Tb())
        invariant Keeps(old(store), store)
        invariant InFlight(o) || o in store
        invariant old(Alone(o)) && o !in old(store) ==>
          && dispatched == old(dispatched)
          && ((Alone(o) && store == old(store)) ||
              (Idle() && o in Tb().producer && store == old(store)[o := Meaning(world, Tb(), o)]))
        decreases Work()
      {
        ghost var before := store;
        OtherStep(o);
        KeepsOn(old(store), before, store);
      }
    }

    // ----------------------------------------------------- reconstruction

    /** `task_queue.put` for an object whose dependencies are stored, and the wait for its
        result. */
    method Recompute(t: nat, o: nat, call: Call)
      requires Valid() && t in Tb().tasks && MessageFor(world, Tb(), t) == Message(t, o, call)
      modifies this`resultQueue, this`collected, this`store, this`taskQueue, this`dispatched, this`waiting
      modifies this`collectorStuck, scheduler, ownership
      modifies this`redone
      ensures Valid() && Tb() == old(Tb())
      ensures Keeps(old(store), store) && redone == old(redone) + [t]
      ensures o in store || collectorStuck.Some?
      ensures old(Idle()) && o !in old(store) ==>
        && Idle() && dispatched == old(dispatched) + [t]
        && o in Tb().producer && store == old(store)[o := Meaning(world, Tb(), o)]
    {
      hide WellFounded, Inverse, StoreSound, Ledger, RepInv, Once, Payload, Apply, Meaning, FillCall,
        Cluster.IdsBelow;
      LedgerRedo(BookOf(), Message(t, o, call));
      taskQueue := taskQueue + [Message(t, o, call)];
      dispatched, redone := dispatched + [t], redone + [t];
      assert taskQueue[|taskQueue| - 1].o == o;
      Await(o);
    }

    /**
      `reconstruct_object`, whatever else is queued, running, ready or pending.  It fails
      exactly for a missing object without lineage, and hangs only if the collector does;
      otherwise it terminates with the object stored.  It has sent only producers of missing
      ancestors that are reached through missing objects, each once however many paths lead
      to it, and each with its dependencies stored; nothing that was stored has changed.

      With nothing else under way it never hangs, and it has executed precisely these
      producers and stored precisely these objects.
     */
    method ReconstructObject(o: nat) returns (r: Reconstructed)
      requires Valid()
      modifies this`resultQueue, this`collected, this`store, this`taskQueue, this`dispatched, this`waiting
      modifies this`collectorStuck, scheduler, ownership
      modifies this`redone
      ensures Valid() && Tb() == old(Tb())
      ensures r == NoLineage <==> o !in old(store) && o !in Tb().producer
      ensures r == NoLineage ==> store == old(store) && dispatched == old(dispatched) && redone == old(redone)
      ensures r != NoLineage ==>
        o in Tb().producer && Repairs(Tb(), old(store), store, old(redone), redone, Lost(Tb(), old(store).Keys, o))
      ensures r == Rebuilt ==> o in store && AllBack(Tb(), store, redone[|old(redone)|..])
      ensures r == Rebuilt && o !in old(store) ==> Tb().producer[o] in redone[|old(redone)|..]
      ensures r == CollectorHangs ==> collectorStuck.Some? && o !in old(store)
      ensures old(Idle()) && r != NoLineage ==>
        && r == Rebuilt && Idle()
        && Solo(Tb(), old(store), store, old(dispatched), dispatched, redone[|old(redone)|..])
        && Rebuilds(world, Tb(), old(store), store, Lost(Tb(), old(store).Keys, o))
        && Executes(Tb(), old(dispatched), dispatched, Lost(Tb(), old(store).Keys, o))
      decreases o, 0, 1
    {
      hide WellFounded, Inverse, RepInv, Once, Payload, Apply, Meaning, FillCall, Cluster.IdsBelow, Lost, QueuesSound,
        WaitingSound, Executes, Rebuilds, DepsOf, Repairs, AllBack, Solo, Keeps;
      ghost var tb, s0, r0, d0 := Tb(), store, redone, dispatched;
      if o in store {
        NothingToRepair(world, tb, store, o, redone, dispatched);
        return Rebuilt;
      }
      var producer := ownership.GetProducerTask(o);
      if producer.None? {
        hide StoreSound, Ledger;
        return NoLineage;
      }
      var t := producer.value;
      // The entry of the producer exists, so the second error of the source cannot occur.
      var lineage := ownership.GetTaskLineage(t);
      var saved, deps := lineage.value.0, lineage.value.1;
      hide StoreSound, Ledger;
      r := ReconstructDependencies(o, deps);
      if r == CollectorHangs {
        RepairsMore(tb, s0, store, r0, redone, o);
        return CollectorHangs;
      }
      var call, missing := ResolveCall(saved);
      MessageIsRight(world, tb, store, t);
      ghost var s1, r1, d1 := store, redone, dispatched;
      Recompute(t, o, call.value);
      OwnRepaired(tb, s0, s1, store, r0, r1, redone, o);
      if o !in store {
        return CollectorHangs;
      }
      OwnBack(tb, s0, s1, store, r0, r1, redone, o);
      if old(Idle()) {
        OwnSolo(tb, s0, s1, store, d0, d1, dispatched, r0, r1, redone, o);
        SoloIsExact(world, tb, s0, store, d0, dispatched, r0, redone, o);
      }
      return Rebuilt;
    }

    /** The loop over the dependencies of a missing object. */
    method ReconstructDependencies(o: nat, deps: seq<nat>) returns (r: Reconstructed)
      requires Valid() && o in Tb().producer && o !in store && deps == DirectDeps(Tb(), o)
      modifies this`resultQueue, this`collected, this`store, this`taskQueue, this`dispatched, this`waiting
      modifies this`collectorStuck, scheduler, ownership
      modifies this`redone
      ensures Valid() && Tb() == old(Tb()) && r != NoLineage && old(redone) <= redone
      ensures Repairs(Tb(), old(store), store, old(redone), redone, Lost(Tb(), old(store).Keys, o) - {o})
      ensures r == Rebuilt ==> AllStored(store, deps) && AllBack(Tb(), store, redone[|old(redone)|..])
      ensures r == CollectorHangs ==> collectorStuck.Some?
      ensures old(Idle()) ==>
        && r == Rebuilt && Idle() && o !in store
        && Solo(Tb(), old(store), store, old(dispatched), dispatched, redone[|old(redone)|..])
      decreases o, 0, 0
    {
      hide WellFounded, Inverse, RepInv, Once, Meaning, Cluster.IdsBelow, Lost, QueuesSound, WaitingSound, Ledger,
        StoreSound, Repairs, AllBack, Solo, Keeps, DirectDeps, Dependencies;
      ghost var tb, s0, r0, d0, idle := Tb(), store, redone, dispatched, Idle();
      DepsDescend(tb, o);
      NothingRepaired(tb, s0, r0, d0, Lost(tb, s0.Keys, o) - {o});
      var i := 0;
      while i < |deps|
        invariant 0 <= i <= |deps|
        invariant Valid() && Tb() == tb
        invariant r0 <= redone && Repairs(tb, s0, store, r0, redone, Lost(tb, s0.Keys, o) - {o})
        invariant AllBack(tb, store, redone[|r0|..]) && AllStored(store, deps[..i])
        invariant idle ==> Idle() && Solo(tb, s0, store, d0, dispatched, redone[|r0|..])
      {
        ghost var s1, r1, d1 := store, redone, dispatched;
        assert deps[i] in deps;
        r := ReconstructDependency(deps[i]);
        DependencyRepaired(tb, s0, s1, store, d0, d1, dispatched, r0, r1, redone, o, deps[i], deps[..i]);
        if r == CollectorHangs {
          return CollectorHangs;
        }
        assert deps[..i + 1] == deps[..i] + [deps[i]];
        i := i + 1;
      }
      assert deps[..i] == deps;
      if idle {
        OwnNotYet(tb, s0, store, d0, dispatched, r0, redone, o);
      }
      return Rebuilt;
    }

    /** One turn of the loop over the dependencies. */
    method ReconstructDependency(d: nat) returns (r: Reconstructed)
      requires Valid() && d in Tb().producer
      modifies this`resultQueue, this`collected, this`store, this`taskQueue, this`dispatched, this`waiting
      modifies this`collectorStuck, scheduler, ownership
      modifies this`redone
      ensures Valid() && Tb() == old(Tb()) && r != NoLineage && old(redone) <= redone
      ensures Repairs(Tb(), old(store), store, old(redone), redone, Lost(Tb(), old(store).Keys, d))
      ensures r == Rebuilt ==> d in store && AllBack(Tb(), store, redone[|old(redone)|..])
      ensures r == CollectorHangs ==> collectorStuck.Some?
      ensures old(Idle()) ==>
        r == Rebuilt && Idle() && Solo(Tb(), old(store), store, old(dispatched), dispatched, redone[|old(redone)|..])
      decreases d, 1, 0
    {
      hide WellFounded, Inverse, RepInv, Once, Meaning, Cluster.IdsBelow, Lost, QueuesSound, WaitingSound, Ledger,
        Executes, Rebuilds, Repairs, AllBack, Solo, Keeps;
      ghost var s0 := store;
      Others(d);
      ghost var s1 := store;
      if d in store {
        NothingToRepair(world, Tb(), store, d, redone, dispatched);
        r := Rebuilt;
      } else {
        r := ReconstructObject(d);
      }
      RepairsLater(Tb(), s0, s1, store, old(redone), redone, d);
    }

    /**
      `get_object`.  An object without lineage is waited for.  An object with lineage is
      read as what its lineage means, whatever else is under way and though its own task
      may be, unless the collector hangs; a missing one is rebuilt first.
     */
    method GetObject(o: nat) returns (r: Got)
      requires Valid()
      modifies this`resultQueue, this`collected, this`store, this`taskQueue, this`dispatched, this`waiting
      modifies this`collectorStuck, scheduler, ownership
      modifies this`redone
      ensures Valid() && Tb() == old(Tb())
      ensures r.Waits? <==> o !in Tb().producer
      ensures r.Hangs? ==> collectorStuck.Some? && o !in old(store)
      ensures r.Value? || r.Raised? ==>
        o in store && r == Read(Meaning(world, Tb(), o)) && ReadsAsCalled(world, Tb(), o, r)
      ensures o in Tb().producer ==>
        Repairs(Tb(), old(store), store, old(redone), redone, Lost(Tb(), old(store).Keys, o))
      ensures o !in Tb().producer ==> store == old(store) && dispatched == old(dispatched)
      ensures old(Idle()) && o in Tb().producer ==>
        && !r.Hangs? && Idle()
        && Rebuilds(world, Tb(), old(store), store, Lost(Tb(), old(store).Keys, o))
        && Executes(Tb(), old(dispatched), dispatched, Lost(Tb(), old(store).Keys, o))
    {
      hide WellFounded, Inverse, RepInv, Once, Payload, Apply, Meaning, FillCall, Cluster.IdsBelow, QueuesSound,
        WaitingSound, Lost, Rebuilds, Executes, Repairs, AllBack, Solo, ReadsAsCalled, Ledger;
      if o !in store {
        var producer := ownership.GetProducerTask(o);
        if producer.None? {
          return Waits;
        }
        var rebuilt := ReconstructObject(o);
        if rebuilt == CollectorHangs {
          return Hangs;
        }
      } else {
        NothingToRepair(world, Tb(), store, o, redone, dispatched);
      }
      MeaningReads(world, Tb(), o);
      match store[o] {
        case TaskError(t, m) => return Raised(t, m);
        case v => return Value(v);
      }
    }
  }

  // ------------------------------------------------------- reconstruction

  /** The store has gained the meanings of `done`, and nothing else has changed. */
  ghost predicate Rebuilds(w: World, tb: Table, before: map<nat, Dag.Value>, after: map<nat, Dag.Value>, done: set<nat>)
    requires WellFounded(tb)
  {
    && (forall x :: x in done ==> x in tb.producer)
    && after.Keys == before.Keys + done
    && (forall x :: x in before ==> x in after && after[x] == before[x])
    && (forall x :: x in done && x !in before ==> x in after && x in tb.producer && after[x] == Meaning(w, tb, x))
  }

  function Producers(tb: Table, objects: set<nat>): set<nat>
  {
    set x | x in objects && x in tb.producer :: tb.producer[x]
  }

  /** What has been dispatched in between are the producers of `done`, each once. */
  ghost predicate Executes(tb: Table, before: seq<nat>, after: seq<nat>, done: set<nat>)
  {
    && before <= after
    && NoRepeats(after[|before|..])
    && Elems(after[|before|..]) == Producers(tb, done)
  }

  lemma NothingReleased(before: seq<nat>, after: seq<nat>)
    requires before <= after
    ensures after != before ==> exists u :: u in after[|before|..]
  {
    if after != before {
      assert after[|before|..][0] in after[|before|..];
    }
  }

  /** What was stored is stored unchanged. */
  ghost predicate Keeps(before: map<nat, Dag.Value>, after: map<nat, Dag.Value>)
  {
    forall x :: x in before ==> x in after && after[x] == before[x]
  }

  /** The reconstruction that has sent the tasks after `r0` has sent none twice, only tasks
      whose objects were to be rebuilt, and those with their dependencies stored. */
  ghost predicate Repairs(tb: Table, s0: map<nat, Dag.Value>, s1: map<nat, Dag.Value>, r0: seq<nat>, r1: seq<nat>,
                          lost: set<nat>)
  {
    && Keeps(s0, s1)
    && r0 <= r1
    && NoRepeats(r1[|r0|..])
    && forall t :: t in r1[|r0|..] ==> t in tb.tasks && tb.tasks[t].oid in lost && AllStored(s1, tb.tasks[t].deps)
  }

  /** The objects of these tasks are stored. */
  ghost predicate AllBack(tb: Table, store: map<nat, Dag.Value>, ts: seq<nat>)
  {
    forall t :: t in ts ==> t in tb.tasks && tb.tasks[t].oid in store
  }

  function Objects(tb: Table, ts: seq<nat>): set<nat>
  {
    set t | t in ts && t in tb.tasks :: tb.tasks[t].oid
  }

  /** Nobody else has sent or stored anything. */
  ghost predicate Solo(tb: Table, s0: map<nat, Dag.Value>, s1: map<nat, Dag.Value>, d0: seq<nat>, d1: seq<nat>,
                       ts: seq<nat>)
  {
    d1 == d0 + ts && s1.Keys == s0.Keys + Objects(tb, ts)
  }

  lemma KeepsItself(store: map<nat, Dag.Value>)
    ensures Keeps(store, store)
  {
  }

  lemma KeepsOn(a: map<nat, Dag.Value>, b: map<nat, Dag.Value>, c: map<nat, Dag.Value>)
    requires Keeps(a, b) && Keeps(b, c)
    ensures Keeps(a, c)
  {
  }

  // ------------------------------------------------------- messages and results

  predicate Flies(ms: seq<Message>, rs: seq<Report>, o: nat)
  {
    (exists i :: 0 <= i < |ms| && ms[i].o == o) || (exists i :: 0 <= i < |rs| && rs[i].o == o)
  }

  lemma MessageMoves(ms: seq<Message>, rs: seq<Report>, i: nat, r: Report, o: nat)
    requires i < |ms| && r.o == ms[i].o
    ensures Flies(ms, rs, o) ==> Flies(ms[..i] + ms[i + 1..], rs + [r], o)
  {
    var ms', rs' := ms[..i] + ms[i + 1..], rs + [r];
    if j :| 0 <= j < |ms| && ms[j].o == o {
      if j == i {
        assert rs'[|rs|].o == o;
      } else {
        assert ms'[if j < i then j else j - 1].o == o;
      }
    } else if j :| 0 <= j < |rs| && rs[j].o == o {
      assert rs'[j].o == o;
    }
  }

  lemma ResultMoves(ms: seq<Message>, rs: seq<Report>, ms': seq<Message>, o: nat)
    requires rs != [] && ms <= ms'
    ensures Flies(ms, rs, o) ==> Flies(ms', rs[1..], o) || rs[0].o == o
  {
    if j :| 0 <= j < |ms| && ms[j].o == o {
      assert ms'[j].o == o;
    } else if j :| 0 < j < |rs| && rs[j].o == o {
      assert rs[1..][j - 1].o == o;
    }
  }

  lemma KeepsMeaning(w: World, tb: Table, before: map<nat, Dag.Value>, after: map<nat, Dag.Value>, x: nat)
    requires WellFounded(tb) && StoreSound(w, tb, before) && x in tb.producer && after == before[x := Meaning(w, tb, x)]
    ensures Keeps(before, after)
  {
    hide WellFounded, Meaning;
  }

  /** `u` is ready when submission `t` has announced its stored dependencies: it is `t` and
      all are, or it was ready before, or it waited for nothing but some of them. */
  predicate ReleasedBySubmit(q: Sched, t: nat, deps: seq<nat>, store: map<nat, Dag.Value>, u: nat)
  {
    || (u == t && AllStored(store, deps))
    || u in q.ready
    || (u in q.pending && q.pending[u] <= Elems(deps) * store.Keys)
  }

  /** `u` is ready when `o` has been announced. */
  predicate ReleasedBy(q: Sched, o: nat, u: nat)
  {
    u in q.ready || (u in q.pending && q.pending[u] == {o})
  }

  lemma {:induction false} NoRepeatsCount(q: seq<nat>)
    ensures NoRepeats(q) ==> |Elems(q)| == |q|
    ensures |Elems(q)| <= |q|
  {
    if q != [] {
      var p, u := q[..|q| - 1], q[|q| - 1];
      assert q == p + [u];
      NoRepeatsCount(p);
      ElemsAppend(p, u);
      if NoRepeats(q) {
        assert forall i :: 0 <= i < |p| ==> q[i] == p[i];
        assert u !in Elems(p);
      }
    }
  }

  /** An announcement moves tasks from pending to ready and makes none. */
  lemma ReleaseMovesTasks(q: Sched, ds: map<nat, seq<nat>>, o: nat)
    requires RepInv(q, ds)
    ensures |OnObjectReady(q, o).pending| + |OnObjectReady(q, o).ready| <= |q.pending| + |q.ready|
  {
    var q' := OnObjectReady(q, o);
    OnObjectReadyEffect(q, ds, o);
    hide OnObjectReady, IndexInv;
    NoRepeatsCount(q'.ready);
    NoRepeatsCount(q.ready);
    hide NoRepeats;
    assert q'.pending.Keys + Elems(q'.ready) <= q.pending.Keys + Elems(q.ready);
    assert q'.pending.Keys !! Elems(q'.ready);
    SmallerUnion(q'.pending.Keys, Elems(q'.ready), q.pending.Keys, Elems(q.ready));
    assert |q'.pending| == |q'.pending.Keys| && |q.pending| == |q.pending.Keys|;
  }

  lemma SmallerUnion(a: set<nat>, b: set<nat>, c: set<nat>, d: set<nat>)
    requires a + b <= c + d && a !! b
    ensures |a| + |b| <= |c| + |d|
  {
    assert |a + b| == |a| + |b|;
    assert |c + d| <= |c| + |d| by {
      assert c + d == c + (d - c) && |d - c| <= |d| by { SubsetSize(d - c, d); }
    }
    SubsetSize(a + b, c + d);
  }

  lemma {:induction false} SubsetSize(a: set<nat>, b: set<nat>)
    requires a <= b
    ensures |a| <= |b|
    decreases |a|
  {
    if a != {} {
      var x :| x in a;
      SubsetSize(a - {x}, b - {x});
    }
  }

  // ------------------------------------------------------- what a reconstruction has sent

  lemma NothingRepaired(tb: Table, s: map<nat, Dag.Value>, r: seq<nat>, d: seq<nat>, lost: set<nat>)
    ensures Repairs(tb, s, s, r, r, lost) && AllBack(tb, s, r[|r|..]) && Solo(tb, s, s, d, d, r[|r|..])
  {
  }

  lemma NothingToRepair(w: World, tb: Table, store: map<nat, Dag.Value>, o: nat, r: seq<nat>, d: seq<nat>)
    requires WellFounded(tb) && StoreSound(w, tb, store) && o in store
    ensures o in tb.producer && store[o] == Meaning(w, tb, o) && Lost(tb, store.Keys, o) == {}
    ensures Repairs(tb, store, store, r, r, {})
    ensures AllBack(tb, store, r[|r|..]) && Solo(tb, store, store, d, d, r[|r|..])
    ensures Rebuilds(w, tb, store, store, {}) && Executes(tb, d, d, {})
  {
    NothingRepaired(tb, store, r, d, {});
    hide WellFounded, Meaning, Repairs, AllBack, Solo;
  }

  lemma Suffixes(r0: seq<nat>, r1: seq<nat>, r2: seq<nat>)
    requires r0 <= r1 <= r2
    ensures r2[|r0|..] == r1[|r0|..] + r2[|r1|..]
  {
  }

  lemma LostOfDependency(tb: Table, have: set<nat>, have': set<nat>, o: nat, d: nat)
    requires WellFounded(tb) && o in tb.producer && o !in have && d in DirectDeps(tb, o) && have <= have'
    ensures d in tb.producer && Lost(tb, have', d) <= Lost(tb, have, o) - {o}
    ensures Lost(tb, have', d) !! have'
  {
    hide WellFounded, Lost, DirectDeps;
    Unfold(tb, have, o);
    LostUnfolds(tb, have, o);
    PartOf(tb, have, DirectDeps(tb, o), d);
    LostShrinks(tb, have, have', d);
    LostBounds(tb, have', d);
  }

  /** One more dependency: what was sent for it is new, and was to be rebuilt for `o`. */
  lemma DependencyRepaired(tb: Table, s0: map<nat, Dag.Value>, s1: map<nat, Dag.Value>, s2: map<nat, Dag.Value>,
                           d0: seq<nat>, d1: seq<nat>, d2: seq<nat>, r0: seq<nat>, r1: seq<nat>, r2: seq<nat>,
                           o: nat, d: nat, ds: seq<nat>)
    requires WellFounded(tb) && o in tb.producer && o !in s0 && d in DirectDeps(tb, o) && d in tb.producer
    requires Repairs(tb, s0, s1, r0, r1, Lost(tb, s0.Keys, o) - {o}) && AllBack(tb, s1, r1[|r0|..])
    requires Repairs(tb, s1, s2, r1, r2, Lost(tb, s1.Keys, d)) && AllStored(s1, ds)
    ensures r0 <= r2 && Repairs(tb, s0, s2, r0, r2, Lost(tb, s0.Keys, o) - {o}) && AllStored(s2, ds)
    ensures AllBack(tb, s2, r2[|r1|..]) ==> AllBack(tb, s2, r2[|r0|..])
    ensures Solo(tb, s0, s1, d0, d1, r1[|r0|..]) && Solo(tb, s1, s2, d1, d2, r2[|r1|..]) ==>
      Solo(tb, s0, s2, d0, d2, r2[|r0|..])
  {
    hide WellFounded, Lost, DirectDeps;
    LostOfDependency(tb, s0.Keys, s1.Keys, o, d);
    Suffixes(r0, r1, r2);
    var p, q := r1[|r0|..], r2[|r1|..];
    NoRepeatsAppend(p, q);
    hide NoRepeats;
    assert Objects(tb, p + q) == Objects(tb, p) + Objects(tb, q);
  }

  lemma RepairsMore(tb: Table, s0: map<nat, Dag.Value>, s1: map<nat, Dag.Value>, r0: seq<nat>, r1: seq<nat>, o: nat)
    requires WellFounded(tb) && o in tb.producer && Repairs(tb, s0, s1, r0, r1, Lost(tb, s0.Keys, o) - {o})
    ensures Repairs(tb, s0, s1, r0, r1, Lost(tb, s0.Keys, o))
  {
    hide WellFounded, Lost, NoRepeats;
  }

  lemma RepairsLater(tb: Table, s0: map<nat, Dag.Value>, s1: map<nat, Dag.Value>, s2: map<nat, Dag.Value>,
                     r0: seq<nat>, r1: seq<nat>, d: nat)
    requires WellFounded(tb) && d in tb.producer && Keeps(s0, s1) && Repairs(tb, s1, s2, r0, r1, Lost(tb, s1.Keys, d))
    ensures r0 <= r1 && Repairs(tb, s0, s2, r0, r1, Lost(tb, s0.Keys, d))
  {
    hide WellFounded, Lost, NoRepeats;
    LostShrinks(tb, s0.Keys, s1.Keys, d);
  }

  /** With nobody else about, `o` itself is still missing when its dependencies are back. */
  lemma OwnNotYet(tb: Table, s0: map<nat, Dag.Value>, s1: map<nat, Dag.Value>, d0: seq<nat>, d1: seq<nat>,
                  r0: seq<nat>, r1: seq<nat>, o: nat)
    requires WellFounded(tb) && o in tb.producer && o !in s0
    requires Repairs(tb, s0, s1, r0, r1, Lost(tb, s0.Keys, o) - {o}) && Solo(tb, s0, s1, d0, d1, r1[|r0|..])
    ensures o !in s1
  {
    hide WellFounded, Lost, NoRepeats;
  }

  /** The task of `o` is none of those that were sent for its dependencies. */
  lemma OwnIsNew(tb: Table, s0: map<nat, Dag.Value>, s1: map<nat, Dag.Value>, r0: seq<nat>, r1: seq<nat>, o: nat)
    requires WellFounded(tb) && o in tb.producer && o !in s0
    requires Repairs(tb, s0, s1, r0, r1, Lost(tb, s0.Keys, o) - {o})
    ensures tb.producer[o] in tb.tasks && tb.tasks[tb.producer[o]].oid == o
    ensures tb.tasks[tb.producer[o]].deps == DirectDeps(tb, o)
    ensures tb.producer[o] !in r1[|r0|..] && o in Lost(tb, s0.Keys, o)
  {
    var t := tb.producer[o];
    assert t in tb.tasks && tb.tasks[t].oid == o;
    LostUnfolds(tb, s0.Keys, o);
    hide WellFounded, Lost, LostOf, NoRepeats;
  }

  /** Then the task of `o` itself is sent, and it is new too. */
  lemma OwnRepaired(tb: Table, s0: map<nat, Dag.Value>, s1: map<nat, Dag.Value>, s2: map<nat, Dag.Value>,
                    r0: seq<nat>, r1: seq<nat>, r2: seq<nat>, o: nat)
    requires WellFounded(tb) && o in tb.producer && o !in s0 && AllStored(s1, DirectDeps(tb, o))
    requires Repairs(tb, s0, s1, r0, r1, Lost(tb, s0.Keys, o) - {o})
    requires Keeps(s1, s2) && r2 == r1 + [tb.producer[o]]
    ensures r0 <= r2 && Repairs(tb, s0, s2, r0, r2, Lost(tb, s0.Keys, o)) && tb.producer[o] in r2[|r0|..]
  {
    hide WellFounded, Lost, DirectDeps;
    OwnIsNew(tb, s0, s1, r0, r1, o);
    Suffixes(r0, r1, r2);
    var t, p := tb.producer[o], r1[|r0|..];
    assert r2[|r1|..] == [t];
    NoRepeatsAppend(p, [t]);
    hide NoRepeats;
  }

  lemma OwnBack(tb: Table, s0: map<nat, Dag.Value>, s1: map<nat, Dag.Value>, s2: map<nat, Dag.Value>,
                r0: seq<nat>, r1: seq<nat>, r2: seq<nat>, o: nat)
    requires WellFounded(tb) && o in tb.producer && o !in s0 && o in s2 && r0 <= r1
    requires Repairs(tb, s0, s1, r0, r1, Lost(tb, s0.Keys, o) - {o}) && AllBack(tb, s1, r1[|r0|..])
    requires Keeps(s1, s2) && r2 == r1 + [tb.producer[o]]
    ensures r0 <= r2 && AllBack(tb, s2, r2[|r0|..])
  {
    hide WellFounded, Lost, NoRepeats;
    OwnIsNew(tb, s0, s1, r0, r1, o);
    hide Repairs;
    Suffixes(r0, r1, r2);
    assert r2[|r1|..] == [tb.producer[o]];
  }

  lemma OwnSolo(tb: Table, s0: map<nat, Dag.Value>, s1: map<nat, Dag.Value>, s2: map<nat, Dag.Value>,
                d0: seq<nat>, d1: seq<nat>, d2: seq<nat>, r0: seq<nat>, r1: seq<nat>, r2: seq<nat>, o: nat)
    requires WellFounded(tb) && o in tb.producer && o !in s0 && r0 <= r1
    requires Repairs(tb, s0, s1, r0, r1, Lost(tb, s0.Keys, o) - {o}) && Solo(tb, s0, s1, d0, d1, r1[|r0|..])
    requires s2.Keys == s1.Keys + {o} && d2 == d1 + [tb.producer[o]] && r2 == r1 + [tb.producer[o]]
    ensures r0 <= r2 && Solo(tb, s0, s2, d0, d2, r2[|r0|..])
  {
    hide WellFounded, Lost, NoRepeats;
    OwnIsNew(tb, s0, s1, r0, r1, o);
    hide Repairs;
    var t, p := tb.producer[o], r1[|r0|..];
    Suffixes(r0, r1, r2);
    assert r2[|r1|..] == [t];
    assert Objects(tb, p + [t]) == Objects(tb, p) + {o};
  }

  lemma ProducerOf(tb: Table, t: nat)
    requires WellFounded(tb) && Inverse(tb) && t in tb.tasks
    ensures tb.tasks[t].oid in tb.producer && tb.producer[tb.tasks[t].oid] == t
    ensures DirectDeps(tb, tb.tasks[t].oid) == tb.tasks[t].deps
  {
    hide WellFounded;
  }

  /** With nobody else about, exactly what was to be rebuilt has been: what was sent is
      closed under dependencies. */
  lemma SoloObjects(tb: Table, s0: map<nat, Dag.Value>, s1: map<nat, Dag.Value>, ts: seq<nat>, o: nat)
    requires WellFounded(tb) && Inverse(tb) && o in tb.producer && o !in s0 && o in s1
    requires s1.Keys == s0.Keys + Objects(tb, ts)
    requires forall t :: t in ts ==>
      t in tb.tasks && tb.tasks[t].oid in Lost(tb, s0.Keys, o) && AllStored(s1, tb.tasks[t].deps)
    ensures Objects(tb, ts) == Lost(tb, s0.Keys, o)
    ensures Elems(ts) == Producers(tb, Lost(tb, s0.Keys, o))
  {
    hide WellFounded, Inverse, Lost, DirectDeps;
    forall t | t in ts
      ensures tb.tasks[t].oid in tb.producer && tb.producer[tb.tasks[t].oid] == t
      ensures DirectDeps(tb, tb.tasks[t].oid) == tb.tasks[t].deps
    {
      ProducerOf(tb, t);
    }
    assert Closed(tb, s0.Keys, Objects(tb, ts));
    LostInClosed(tb, s0.Keys, Objects(tb, ts), o);
    hide Closed;
  }

  lemma SoloIsExact(w: World, tb: Table, s0: map<nat, Dag.Value>, s1: map<nat, Dag.Value>, d0: seq<nat>, d1: seq<nat>,
                    r0: seq<nat>, r1: seq<nat>, o: nat)
    requires WellFounded(tb) && Inverse(tb) && o in tb.producer && o !in s0 && o in s1 && StoreSound(w, tb, s1)
    requires Repairs(tb, s0, s1, r0, r1, Lost(tb, s0.Keys, o)) && Solo(tb, s0, s1, d0, d1, r1[|r0|..])
    ensures Rebuilds(w, tb, s0, s1, Lost(tb, s0.Keys, o)) && Executes(tb, d0, d1, Lost(tb, s0.Keys, o))
  {
    hide WellFounded, Inverse, Lost, NoRepeats, Meaning;
    SoloObjects(tb, s0, s1, r1[|r0|..], o);
    LostBounds(tb, s0.Keys, o);
    assert d1[|d0|..] == r1[|r0|..];
  }

  /** `pending` with a new task that has not been announced anything yet. */
  function Waiting(pending: map<nat, set<nat>>, t: nat, deps: seq<nat>): map<nat, set<nat>>
  {
    if deps == [] then pending else pending[t := Elems(deps)]
  }

  /** `pending` once the objects in `there` have been announced. */
  function WithoutAll(pending: map<nat, set<nat>>, there: set<nat>): map<nat, set<nat>>
  {
    map t | t in pending && !(pending[t] <= there) :: pending[t] - there
  }

  /** The pass over the dependencies at the end of `submit_task`. */
  function Retriggered(s: Sched, deps: seq<nat>, there: set<nat>): Sched
    decreases |deps|
  {
    if deps == [] then s
    else Retriggered(if deps[0] in there then OnObjectReady(s, deps[0]) else s, deps[1..], there)
  }

  lemma {:induction false} RetriggerEffect(s: Sched, ds: map<nat, seq<nat>>, deps: seq<nat>, there: set<nat>)
    requires RepInv(s, ds)
    ensures var s' := Retriggered(s, deps, there);
      && RepInv(s', ds)
      && s'.pending == WithoutAll(s.pending, Elems(deps) * there)
      && forall t :: t in s'.ready <==> t in s.ready || (t in s.pending && s.pending[t] <= Elems(deps) * there)
    decreases |deps|
  {
    if deps == [] {
      assert forall t :: t in s.pending ==> s.pending[t] != {};
      hide RepInv;
      assert Elems(deps) * there == {};
      WithoutNone(s.pending);
    } else {
      var d, rest := deps[0], Elems(deps[1..]) * there;
      assert Elems(deps) == {d} + Elems(deps[1..]);
      if d in there {
        OnObjectReadyEffect(s, ds, d);
        assert forall t :: t in s.pending ==> s.pending[t] != {};
        hide RepInv, OnObjectReady;
        RetriggerEffect(OnObjectReady(s, d), ds, deps[1..], there);
        assert Elems(deps) * there == {d} + rest;
        OneMore(s.pending, d, rest);
      } else {
        RetriggerEffect(s, ds, deps[1..], there);
        assert Elems(deps) * there == rest;
      }
    }
  }

  lemma WithoutNone(pending: map<nat, set<nat>>)
    requires forall t :: t in pending ==> pending[t] != {}
    ensures WithoutAll(pending, {}) == pending
    ensures forall t :: t in pending ==> !(pending[t] <= {})
  {
    forall t | t in pending
      ensures !(pending[t] <= {}) && pending[t] - {} == pending[t]
    {
    }
    assert WithoutAll(pending, {}).Keys == pending.Keys;
  }

  lemma RecordDependencies(tb: Table, t: nat, o: nat, c: Call, deps: seq<nat>)
    ensures Dependencies(Record(tb, t, o, c, deps)) == Dependencies(tb)[t := deps]
    ensures t in Dependencies(tb) <==> t in tb.tasks
  {
  }

  lemma OneMore(pending: map<nat, set<nat>>, d: nat, rest: set<nat>)
    requires forall t :: t in pending ==> pending[t] != {}
    ensures WithoutAll(Without(pending, d), rest) == WithoutAll(pending, {d} + rest)
    ensures forall t :: t in pending ==> (pending[t] <= {d} + rest <==> pending[t] == {d} || pending[t] - {d} <= rest)
  {
    forall t | t in pending
      ensures pending[t] <= {d} + rest <==> pending[t] == {d} || pending[t] - {d} <= rest
      ensures pending[t] - {d} - rest == pending[t] - ({d} + rest)
    {
    }
  }

  /** What submission and the pass that follows it do together. */
  lemma SubmitEffect(s: Sched, s1: Sched, s2: Sched, t: nat, deps: seq<nat>, store: map<nat, Dag.Value>,
                     ds: map<nat, seq<nat>>)
    requires RepInv(s1, ds) && t !in s.pending
    requires s1 == Submit(s, t, deps) && s2 == Retriggered(s1, deps, store.Keys)
    ensures s2.pending == WithoutAll(Waiting(s.pending, t, deps), Elems(deps) * store.Keys)
    ensures forall u :: u in s2.ready <==> ReleasedBySubmit(s, t, deps, store, u)
  {
    RetriggerEffect(s1, ds, deps, store.Keys);
    hide RepInv, Retriggered;
    assert Elems(deps) <= store.Keys <==> AllStored(store, deps) by {
      assert forall d :: d in deps <==> d in Elems(deps);
    }
    assert Elems(deps) <= Elems(deps) * store.Keys <==> Elems(deps) <= store.Keys;
  }

  lemma NewIds(tb: Table, t: nat, o: nat, call: Call)
    requires WellFounded(tb) && Inverse(tb) && Cluster.IdsBelow(t, tb) && t < o
    requires forall d :: d in DepsOf(call) ==> d in tb.producer
    ensures t !in tb.tasks && o !in tb.producer
    ensures var tb' := Record(tb, t, o, call, DepsOf(call));
      WellFounded(tb') && Inverse(tb') && Extends(tb, tb') && Cluster.IdsBelow(o + 1, tb')
  {
    hide DepsOf;
    RecordKeepsLineage(tb, t, o, call);
    RecordExtends(tb, t, o, call);
    hide WellFounded, Inverse, Extends;
  }

  lemma MessageNames(w: World, tb: Table, t: nat)
    requires WellFounded(tb) && t in tb.tasks
    ensures MessageFor(w, tb, t).t == t && MessageFor(w, tb, t).o == tb.tasks[t].oid
  {
    hide WellFounded, Payload;
  }

  lemma FirstIsSubmitted(s: Scheduler)
    requires s.Valid() && s.readyQueue != []
    ensures s.readyQueue[0] in s.submitted
  {
    hide RepInv, Once;
    assert s.readyQueue[0] in s.readyQueue;
  }

  lemma PreparationIsKnown(w: World, tb: Table, p: Preparation)
    requires WellFounded(tb) && PreparationSound(w, tb, p)
    ensures p.t in tb.tasks && |p.got| <= |tb.tasks[p.t].deps|
  {
  }

  lemma NothingReadYet(store: map<nat, Dag.Value>, refs: seq<nat>)
    ensures |ReadOn(store, refs, [])| == |refs| <==> AllStored(store, refs)
  {
    ReadOnAll(store, refs, []);
  }

  lemma ReadyIsKnown(r: Runtime)
    requires r.Valid()
    ensures WellFounded(r.Tb()) && forall t :: t in r.scheduler.readyQueue ==> t in r.Tb().tasks
  {
    hide WellFounded, Inverse, StoreSound, Cluster.IdsBelow, QueuesSound, WaitingSound, Ledger, RepInv, Once;
    ReadyIsSubmitted(r.scheduler, r.Tb());
  }

  lemma StoreIsSound(r: Runtime)
    requires r.Valid()
    ensures WellFounded(r.Tb()) && StoreSound(r.world, r.Tb(), r.store)
  {
    hide WellFounded, StoreSound;
  }

  lemma ReadyIsSubmitted(s: Scheduler, tb: Table)
    requires s.Valid() && s.submitted == Dependencies(tb)
    ensures forall t :: t in s.readyQueue ==> t in tb.tasks
  {
    assert forall t :: t in s.submitted <==> t in tb.tasks;
  }

  lemma ResolvedIsFilled(c: Call, store: map<nat, Dag.Value>, get: Getter)
    requires AllStored(store, DepsOf(c))
    requires forall calls: seq<nat>, id: nat :: id in store ==> get(calls, id) == store[id]
    ensures var (args, kwargs, calls) := ResolveArgs(c.args, c.kwargs, get);
      Call(c.func, args, kwargs) == FillCall(c, Stored(store, DepsOf(c)))
  {
    var refs := DepsOf(c);
    ExtractionMatchesResolution(c.args, c.kwargs, get);
    forall i | 0 <= i < |refs|
      ensures Answers(get, [], refs)[i] == Stored(store, refs)[i]
    {
      AnswerAt(get, [], refs, i);
    }
    assert Answers(get, [], refs) == Stored(store, refs);
  }
}
