/**
  The head node's side of a connection, `HeadService._dispatch`, one command at a time.

  The head keeps the tables of the driver's runtime, and its submission, argument
  resolution and result handling are the same code; `core` stands for them.  What differs
  is here: no reconstruction, a flush only if the head runs workers of its own, and nodes
  that take tasks by polling.
 */
module Head {
  import opened Wrappers
  import opened Dag
  import opened Lineage
  import opened SchedulerSpec
  import opened ClusterValues
  import opened Collections
  import opened SchedulerClass
  import opened Ownership
  import opened RuntimeClass
  import Cluster
  import Link

  datatype Command =
    | RegisterWorker
    | SubmitTask(call: Call)
    | GetObject(o: nat)
    | ContainsObject(o: nat)
    | PollTask
    | TaskResult(report: Report)
    | Unknown(command: string)

  datatype Answer =
    | Okay
    | ObjectId(o: nat)
    | ObjectValue(v: Dag.Value)
    | Contains(b: bool)
    | Work(message: Message)
    | NoTask
    | Ack
    | Error(text: string)

  /** A handler answers, or waits for an object. */
  datatype Handled = Answers(answer: Answer) | Blocked(on: nat)

  /** The command and the answer as far as the connection is concerned. */
  function AsRequest(c: Command): Link.Request
  {
    match c
    case RegisterWorker => Link.RegisterWorker
    case SubmitTask(call) => Link.SubmitTask(Tuple(call.args))
    case GetObject(o) => Link.GetObject(o)
    case ContainsObject(o) => Link.ContainsObject(o)
    case PollTask => Link.PollTask
    case TaskResult(r) => Link.TaskResult(r.t)
    case Unknown(s) => Link.Unknown(s)
  }

  function AsResponse(a: Answer): Link.Response
  {
    match a
    case Okay => Link.Ok
    case ObjectId(o) => Link.ObjectId(o)
    case ObjectValue(v) => Link.ObjectValue(v)
    case Contains(b) => Link.Contains(b)
    case Work(m) => Link.Task(m.t)
    case NoTask => Link.NoTask
    case Ack => Link.Ack
    case Error(s) => Link.Error(s)
  }

  // ------------------------------------------------------- steps, on values

  /** The flush of a head: with local workers it is the runtime's, without it does nothing,
      and the tasks stay ready for polls. */
  ghost predicate Moves(local: bool, w: World, before: Snap, after: Snap, stuck: Option<(nat, nat)>)
  {
    if local then Flushes(w, before, after, stuck) else after == before && stuck == None
  }

  /** The same, told from how the handler ends that flushed. */
  ghost predicate MovesFor(local: bool, w: World, before: Snap, after: Snap, r: Handled)
  {
    match r
    case Answers(_) => Moves(local, w, before, after, None)
    case Blocked(d) =>
      after.waiting != [] && Moves(local, w, before, after, Some((after.waiting[|after.waiting| - 1].t, d)))
  }

  lemma MovedFor(local: bool, w: World, before: Snap, after: Snap, stuck: (nat, nat))
    requires Moves(local, w, before, after, Some(stuck))
    ensures MovesFor(local, w, before, after, Blocked(stuck.1)) && stuck.1 !in before.store
  {
    FlushEffect(w, before, after, Some(stuck));
    hide WellFounded, MessagesFor, AllStored, StopsAt;
  }

  /** `before` once the result of `r` has been stored, and announced if it is a success. */
  function AfterReport(before: Snap, r: Report): Snap
  {
    match r.outcome
    case Ok(v) => before.(store := before.store[r.o := v], sched := OnObjectReady(before.sched, r.o))
    case Err(m) => before.(store := before.store[r.o := TaskError(r.t, m)])
  }

  /** What the head knows of the tasks its nodes ask for: those it has given out, and those
      a handler has popped and waits to give out. */
  datatype Polls = Polls(given: seq<nat>, waiting: seq<Preparation>)

  /** One `poll_task`: the oldest ready task, and no other, leaves the ready queue.  It is
      given out with its arguments resolved to what they mean, or its handler waits for the
      first reference that is not stored. */
  ghost predicate PollsOne(w: World, before: Snap, after: Snap, p: Polls, p': Polls, r: Handled)
  {
    if before.sched.ready == [] then r == Answers(NoTask) && after == before && p' == p
    else
      var t := before.sched.ready[0];
      && WellFounded(before.table) && t in before.table.tasks
      && after == before.(sched := before.sched.(ready := before.sched.ready[1..]))
      && if AllStored(before.store, before.table.tasks[t].deps)
         then r == Answers(Work(MessageFor(w, before.table, t))) && p' == p.(given := p.given + [t])
         else
           && r.Blocked? && StopsAt(before.store, before.table.tasks[t].deps, [], r.on)
           && p' == p.(waiting := p.waiting + [Begun(before, t)])
  }

  lemma PollsSound(w: World, before: Snap, after: Snap, p: Polls, p': Polls, r: Handled)
    requires PollsOne(w, before, after, p, p', r)
    ensures r == Answers(NoTask) <==> before.sched.ready == []
    ensures r.Answers? && r != Answers(NoTask) ==> r.answer.Work?
    ensures r.Blocked? ==> r.on !in before.store
  {
    hide WellFounded, AllStored, StopsAt, MessageFor, Begun;
    if r.Blocked? {
      StopsMissing(before.store, before.table.tasks[before.sched.ready[0]].deps, r.on);
    }
  }

  /** A handler that waits to give out its task reads on. */
  ghost predicate PollsOn(w: World, s: Snap, p: Polls, p': Polls, i: nat, r: Handled)
  {
    && WellFounded(s.table) && i < |p.waiting|
    && var q := p.waiting[i];
    && q.t in s.table.tasks && |q.got| <= |s.table.tasks[q.t].deps|
    && var deps := s.table.tasks[q.t].deps;
    var got := ReadOn(s.store, deps, q.got);
    if |got| < |deps| then r == Blocked(deps[|got|]) && p' == p.(waiting := p.waiting[i := Preparation(q.t, got)])
    else
      && r == Answers(Work(MessageFor(w, s.table, q.t)))
      && p' == Polls(p.given + [q.t], p.waiting[..i] + p.waiting[i + 1..])
  }

  /** What has been popped for nodes has been given out, or its handler waits. */
  ghost predicate PollLedger(polled: seq<nat>, p: Polls)
  {
    forall t :: Count(polled, t) == Count(p.given, t) + Count(HeldBy(p.waiting), t)
  }

  lemma PollLedgerGive(polled: seq<nat>, p: Polls, t: nat)
    requires PollLedger(polled, p)
    ensures PollLedger(polled + [t], p.(given := p.given + [t]))
  {
    forall u
      ensures Count(polled + [t], u) == Count(polled, u) + Count([t], u)
      ensures Count(p.given + [t], u) == Count(p.given, u) + Count([t], u)
    {
      CountAppend(polled, [t], u);
      CountAppend(p.given, [t], u);
    }
    hide Count, HeldBy;
  }

  lemma PollLedgerHold(polled: seq<nat>, p: Polls, q: Preparation)
    requires PollLedger(polled, p)
    ensures PollLedger(polled + [q.t], p.(waiting := p.waiting + [q]))
  {
    assert HeldBy(p.waiting + [q]) == HeldBy(p.waiting) + [q.t];
    forall u
      ensures Count(polled + [q.t], u) == Count(polled, u) + Count([q.t], u)
      ensures Count(HeldBy(p.waiting) + [q.t], u) == Count(HeldBy(p.waiting), u) + Count([q.t], u)
    {
      CountAppend(polled, [q.t], u);
      CountAppend(HeldBy(p.waiting), [q.t], u);
    }
    hide Count, HeldBy;
  }

  lemma PollLedgerReads(polled: seq<nat>, p: Polls, i: nat, got: seq<Dag.Value>)
    requires PollLedger(polled, p) && i < |p.waiting|
    ensures PollLedger(polled, p.(waiting := p.waiting[i := Preparation(p.waiting[i].t, got)]))
  {
    assert HeldBy(p.waiting[i := Preparation(p.waiting[i].t, got)]) == HeldBy(p.waiting);
    hide Count, HeldBy;
  }

  lemma PollLedgerResume(polled: seq<nat>, p: Polls, i: nat)
    requires PollLedger(polled, p) && i < |p.waiting|
    ensures PollLedger(polled, Polls(p.given + [p.waiting[i].t], p.waiting[..i] + p.waiting[i + 1..]))
  {
    var t, q := p.waiting[i].t, HeldBy(p.waiting);
    assert HeldBy(p.waiting[..i] + p.waiting[i + 1..]) == q[..i] + q[i + 1..];
    forall u
      ensures Count(p.given + [t], u) == Count(p.given, u) + Count([t], u)
      ensures Count(q, u) == Count(q[..i] + q[i + 1..], u) + Count([t], u)
    {
      CountAppend(p.given, [t], u);
      CountWithout(q, i, u);
    }
    hide Count, HeldBy;
  }

  class HeadService {
    const core: Runtime
    const hasLocalWorkers: bool
    var workerConns: seq<nat>

    /** The tasks that `poll_task` has popped: given out, or in the hands of a handler that
        waits for a reference. */
    var polls: Polls

    /** The core is all right, redoes nothing, and every task popped for a node has been
        given out or is held by a handler. */
    ghost predicate Valid()
      reads this, core, core.scheduler, core.ownership
    {
      && core.Valid() && core.redone == []
      && WaitingSound(core.world, core.Tb(), polls.waiting)
      && PollLedger(core.polled, polls)
    }

    constructor (core: Runtime, hasLocalWorkers: bool)
      requires core.Valid() && core.redone == [] && core.polled == []
      ensures Valid() && this.core == core && this.hasLocalWorkers == hasLocalWorkers
      ensures workerConns == [] && polls == Polls([], [])
    {
      hide Runtime.Valid;
      this.core, this.hasLocalWorkers, workerConns, polls := core, hasLocalWorkers, [], Polls([], []);
    }

    /** `_flush_ready_tasks`: without local workers the tasks stay ready, for polls. */
    method FlushReadyTasks() returns (stuck: Option<(nat, nat)>)
      requires Valid()
      modifies core`taskQueue, core`dispatched, core`waiting, core.scheduler
      ensures Valid() && core.scheduler.pendingTasks == old(core.scheduler.pendingTasks)
      ensures Moves(hasLocalWorkers, core.world, old(core.Snapshot()), core.Snapshot(), stuck)
      ensures hasLocalWorkers && stuck.None? ==>
        && core.scheduler.readyQueue == [] && core.dispatched == old(core.dispatched) + old(core.scheduler.readyQueue)
        && core.taskQueue ==
             old(core.taskQueue) + MessagesFor(core.world, core.Tb(), old(core.scheduler.readyQueue))
      ensures stuck.None? <==> (hasLocalWorkers ==>
        forall t :: t in old(core.scheduler.readyQueue) ==>
          t in core.Tb().tasks && AllStored(core.store, core.Tb().tasks[t].deps))
      ensures old(core.dispatched) <= core.dispatched
    {
      hide Runtime.Valid, MessagesFor, WaitingSound, PollLedger, Flushes, AllStored;
      if !hasLocalWorkers {
        return None;
      }
      stuck := core.FlushReadyTasks();
    }

    /** `_submit_task`: the task waits for exactly those dependencies that are not stored,
        and so do the tasks that waited before. */
    method Submit(call: Call) returns (o: nat, stuck: Option<(nat, nat)>)
      requires Valid() && forall d :: d in DepsOf(call) ==> d in core.Tb().producer
      modifies core`nextId, core`taskQueue, core`dispatched, core`waiting, core.scheduler, core.ownership
      ensures Valid() && o == old(core.nextId) + 1
      ensures core.Tb() == Record(old(core.Tb()), old(core.nextId), o, call, DepsOf(call))
      ensures Moves(hasLocalWorkers, core.world, AfterSubmit(old(core.Snapshot()), call), core.Snapshot(), stuck)
      ensures core.scheduler.pendingTasks ==
        WithoutAll(Waiting(old(core.scheduler.pendingTasks), old(core.nextId), DepsOf(call)),
                   Elems(DepsOf(call)) * core.store.Keys)
      ensures stuck.None? <==> (hasLocalWorkers ==>
        forall u ::
          ReleasedBySubmit(old(core.scheduler.State()), old(core.nextId), DepsOf(call), core.store, u) ==>
          u in core.Tb().tasks && AllStored(core.store, core.Tb().tasks[u].deps))
      ensures old(core.dispatched) <= core.dispatched
      ensures var released :=
          if hasLocalWorkers then core.dispatched[|old(core.dispatched)|..] else core.scheduler.readyQueue;
        stuck.None? ==>
          && (if hasLocalWorkers then core.scheduler.readyQueue == [] else core.dispatched == old(core.dispatched))
          && forall u :: u in released <==>
               ReleasedBySubmit(old(core.scheduler.State()), old(core.nextId), DepsOf(call), core.store, u)
    {
      hide Runtime.Valid, WithoutAll, Waiting, ReleasedBySubmit, AllStored, Record, CallRefs, AfterSubmit, Flushes,
        WaitingSound, PollLedger, MessagesFor, WellFounded, Extends;
      ghost var tb := core.Tb();
      CoreIsSound(core);
      o := core.SubmitAndAnnounce(call);
      CoreIsSound(core);
      WaitingGrows(core.world, tb, core.Tb(), polls.waiting);
      ghost var ready, sent := core.scheduler.readyQueue, core.dispatched;
      stuck := FlushReadyTasks();
      assert hasLocalWorkers && stuck.None? ==> core.dispatched[|sent|..] == ready;
    }

    /** `poll_task`: pops one task for the polling node, and resolves its arguments. */
    method Poll() returns (r: Handled)
      requires Valid()
      modifies this`polls, core`polled, core.scheduler
      ensures Valid()
      ensures PollsOne(core.world, old(core.Snapshot()), core.Snapshot(), old(polls), polls, r)
    {
      hide WellFounded, Inverse, StoreSound, Cluster.IdsBelow, RepInv, Once, QueuesSound, MessageSound, Payload,
        WaitingSound, PreparationSound, Ledger, PollLedger, StopsAt, AllStored, ReadOn, MessageFor, Dependencies;
      ghost var book, tb := core.BookOf(), core.Tb();
      ReadyIsSubmitted(core.scheduler, tb);
      if core.scheduler.readyQueue != [] {
        FirstIsSubmitted(core.scheduler);
      }
      var spec := core.scheduler.PopReadyTask();
      if spec.None? {
        return Answers(NoTask);
      }
      var t := spec.value;
      var message, got, missing := core.Prepare(t);
      LedgerPoll(book, t);
      core.polled := core.polled + [t];
      if message.None? {
        PollLedgerHold(book.polled, polls, Preparation(t, got));
        WaitingAppend(core.world, tb, polls.waiting, Preparation(t, got));
        polls := polls.(waiting := polls.waiting + [Preparation(t, got)]);
        return Blocked(missing);
      }
      PollLedgerGive(book.polled, polls, t);
      polls := polls.(given := polls.given + [t]);
      return Answers(Work(message.value));
    }

    /** A handler that waits in `poll_task` goes on, as soon as its reference is there or to
        see whether it is. */
    method ResumePoll(i: nat) returns (r: Handled)
      requires Valid() && i < |polls.waiting|
      modifies this`polls
      ensures Valid()
      ensures PollsOn(core.world, core.Snapshot(), old(polls), polls, i, r)
    {
      hide WellFounded, Inverse, StoreSound, Cluster.IdsBelow, RepInv, Once, QueuesSound, MessageSound, Payload,
        PreparationSound, Ledger, PollLedger, AllStored, ReadOn, MessageFor, Dependencies;
      var q := polls.waiting[i];
      assert PreparationSound(core.world, core.Tb(), q);
      PreparationIsKnown(core.world, core.Tb(), q);
      var message, got := core.Continue(q);
      if message.None? {
        PollLedgerReads(core.polled, polls, i, got);
        polls := polls.(waiting := polls.waiting[i := Preparation(q.t, got)]);
        assert core.Tb().tasks[q.t] == TaskOf(core.ownership.tasks[q.t]);
        return Blocked(core.ownership.tasks[q.t].dependencies[|got|]);
      }
      PollLedgerResume(core.polled, polls, i);
      polls := Polls(polls.given + [q.t], polls.waiting[..i] + polls.waiting[i + 1..]);
      return Answers(Work(message.value));
    }

    /** `_handle_task_result`: the object is stored, and a success is announced and followed
        by a flush. */
    method TakeReport(report: Report) returns (r: Handled)
      requires Valid() && ReportSound(core.world, core.Tb(), report)
      modifies core`store, core`taskQueue, core`dispatched, core`waiting, core.scheduler, core.ownership
      ensures Valid() && core.Tb() == old(core.Tb())
      ensures r.Answers? ==> r.answer == Ack
      ensures report.o in core.Tb().producer
      ensures core.store == old(core.store)[report.o := Meaning(core.world, core.Tb(), report.o)]
      ensures core.scheduler.pendingTasks ==
        (if report.outcome.Ok?
         then Without(old(core.scheduler.pendingTasks), report.o)
         else old(core.scheduler.pendingTasks))
      ensures var s := AfterReport(old(core.Snapshot()), report);
        if report.outcome.Ok? then MovesFor(hasLocalWorkers, core.world, s, core.Snapshot(), r)
        else r.Answers? && core.Snapshot() == s
      ensures report.t in core.ownership.tasks
        && core.ownership.tasks[report.t].status == (if report.outcome.Ok? then Finished else Failed)
      ensures r.Blocked? ==> r.on !in core.store
    {
      hide Runtime.Valid, ReportSound, Meaning, Flushes, WaitingSound, PollLedger, OnObjectReady, Without,
        MessagesFor, AllStored, WellFounded;
      ghost var s := AfterReport(core.Snapshot(), report);
      core.HandleResult(report);
      assert core.Snapshot() == s;
      if report.outcome.Ok? {
        var stuck := FlushReadyTasks();
        if stuck.Some? {
          MovedFor(hasLocalWorkers, core.world, s, core.Snapshot(), stuck.value);
          return Blocked(stuck.value.1);
        }
      }
      return Answers(Ack);
    }

    /** The answer to a submission. */
    method TakeCall(call: Call) returns (r: Handled)
      requires Valid() && forall d :: d in DepsOf(call) ==> d in core.Tb().producer
      modifies core`nextId, core`taskQueue, core`dispatched, core`waiting, core.scheduler, core.ownership
      ensures Valid()
      ensures core.Tb() == Record(old(core.Tb()), old(core.nextId), old(core.nextId) + 1, call, DepsOf(call))
      ensures r.Answers? ==> r.answer == ObjectId(old(core.nextId) + 1)
      ensures MovesFor(hasLocalWorkers, core.world, AfterSubmit(old(core.Snapshot()), call), core.Snapshot(), r)
      ensures r.Blocked? ==> r.on !in core.store
    {
      hide Runtime.Valid, PollLedger, WaitingSound, Record, Retriggered, DepsOf, Moves, Waiting, WithoutAll,
        ReleasedBySubmit, AllStored;
      ghost var s := AfterSubmit(core.Snapshot(), call);
      var o, stuck := Submit(call);
      if stuck.Some? {
        MovedFor(hasLocalWorkers, core.world, s, core.Snapshot(), stuck.value);
        return Blocked(stuck.value.1);
      }
      return Answers(ObjectId(o));
    }

    /**
      `_dispatch`.  Every command gets exactly the kind of answer its sender expects, or
      the handler waits for an object that is not there; an object that is there is given
      out as what its lineage means; a poll hands out the oldest ready task and no other; and
      a result changes the store only at its own object, to what that object means.  What a
      command does to the head is stated in full.
     */
    method Dispatch(c: Command, conn: nat) returns (r: Handled)
      requires Valid()
      requires c.SubmitTask? ==> forall d :: d in DepsOf(c.call) ==> d in core.Tb().producer
      requires c.TaskResult? ==> ReportSound(core.world, core.Tb(), c.report)
      modifies this`workerConns, this`polls
      modifies core`nextId, core`store, core`taskQueue, core`dispatched, core`waiting, core`polled
      modifies core.scheduler, core.ownership
      ensures Valid()
      ensures r.Answers? ==> Link.Suits(AsRequest(c), AsResponse(r.answer))
      ensures r.Blocked? ==> r.on !in core.store
      ensures workerConns == old(workerConns) + if c.RegisterWorker? then [conn] else []
      ensures !c.TaskResult? ==> core.store == old(core.store)
      ensures !c.SubmitTask? ==> core.Tb() == old(core.Tb())
      ensures !c.PollTask? ==> polls == old(polls)
      ensures !c.PollTask? && !c.SubmitTask? && !c.TaskResult? ==> core.Snapshot() == old(core.Snapshot())
      ensures match c
        case RegisterWorker => r == Answers(Okay)
        case SubmitTask(call) =>
          && MovesFor(hasLocalWorkers, core.world, AfterSubmit(old(core.Snapshot()), call), core.Snapshot(), r)
          && core.Tb() == Record(old(core.Tb()), old(core.nextId), old(core.nextId) + 1, call, DepsOf(call))
          && (r.Answers? ==> r.answer == ObjectId(old(core.nextId) + 1))
        case GetObject(o) =>
          if o in core.store
          then o in core.Tb().producer && r == Answers(ObjectValue(Meaning(core.world, core.Tb(), o)))
          else r == Blocked(o)
        case ContainsObject(o) => r == Answers(Contains(o in core.store))
        case PollTask => PollsOne(core.world, old(core.Snapshot()), core.Snapshot(), old(polls), polls, r)
        case TaskResult(report) =>
          && report.o in core.Tb().producer
          && core.store == old(core.store)[report.o := Meaning(core.world, core.Tb(), report.o)]
          && (var s := AfterReport(old(core.Snapshot()), report);
              if report.outcome.Ok? then MovesFor(hasLocalWorkers, core.world, s, core.Snapshot(), r)
              else r == Answers(Ack) && core.Snapshot() == s)
        case Unknown(command) => r == Answers(Error("Unknown command: " + command))
    {
      hide Runtime.Valid, PollLedger, WaitingSound, Record, Retriggered, MessageFor, ReportSound, Meaning, DepsOf,
        AfterReport, AfterSubmit, PollsOne, Moves, MovesFor;
      match c {
        case RegisterWorker =>
          workerConns := workerConns + [conn];
          return Answers(Okay);
        case SubmitTask(call) =>
          r := TakeCall(call);
        case GetObject(o) =>
          if o in core.store {
            StoredIsMeaning(core, o);
            return Answers(ObjectValue(core.store[o]));
          }
          return Blocked(o);
        case ContainsObject(o) =>
          return Answers(Contains(o in core.store));
        case PollTask =>
          ghost var before, p := core.Snapshot(), polls;
          r := Poll();
          PollsSound(core.world, before, core.Snapshot(), p, polls, r);
        case TaskResult(report) =>
          r := TakeReport(report);
        case Unknown(command) =>
          return Answers(Error("Unknown command: " + command));
      }
    }
  }

  lemma StoredIsMeaning(core: Runtime, o: nat)
    requires core.Valid() && o in core.store
    ensures WellFounded(core.Tb()) && o in core.Tb().producer && core.store[o] == Meaning(core.world, core.Tb(), o)
  {
    hide WellFounded, Meaning;
  }

  lemma CoreIsSound(core: Runtime)
    requires core.Valid()
    ensures WellFounded(core.Tb())
  {
  }

  lemma WaitingAppend(w: World, tb: Table, waiting: seq<Preparation>, p: Preparation)
    requires WellFounded(tb) && WaitingSound(w, tb, waiting) && PreparationSound(w, tb, p)
    ensures WaitingSound(w, tb, waiting + [p])
  {
    hide WellFounded, PreparationSound;
    forall i | 0 <= i < |waiting + [p]|
      ensures PreparationSound(w, tb, (waiting + [p])[i])
    {
      assert i < |waiting| ==> PreparationSound(w, tb, waiting[i]);
    }
  }

  // ------------------------------------------------------- no task is lost

  /** In how many places the head has task `t`: pending, ready, sent to a local worker, in a
      flush that waits, given to a node, or with a handler that waits to give it. */
  ghost function Places(h: HeadService, t: nat): nat
    reads h, h.core, h.core.scheduler
  {
    var s := h.core.scheduler;
    (if t in s.pendingTasks then 1 else 0) + Count(s.readyQueue, t)
    + Count(h.core.dispatched, t) + Count(HeldBy(h.core.waiting), t)
    + Count(h.polls.given, t) + Count(HeldBy(h.polls.waiting), t)
  }

  /** After any commands, every submitted task is in exactly one place, and no other task is
      anywhere; and what has been sent to local workers is with them, reported, or taken. */
  lemma TasksAreConserved(h: HeadService, t: nat)
    requires h.Valid()
    ensures Places(h, t) == if t in h.core.Tb().tasks then 1 else 0
    ensures Count(h.core.dispatched, t) ==
      Count(TasksOf(h.core.taskQueue), t) + Count(ReportsOf(h.core.resultQueue), t) + Count(h.core.collected, t)
  {
    PoppedOrNot(h.core.scheduler, h.core.Tb(), t);
    BookIsKept(h.core, h.polls, t);
    hide HeadService.Valid, Count, TasksOf, ReportsOf, HeldBy;
  }

  lemma BookIsKept(core: Runtime, p: Polls, t: nat)
    requires core.Valid() && core.redone == [] && PollLedger(core.polled, p)
    ensures Count(core.scheduler.popped, t) ==
      Count(core.dispatched, t) + Count(HeldBy(core.waiting), t) + Count(p.given, t) + Count(HeldBy(p.waiting), t)
    ensures Count(core.dispatched, t) ==
      Count(TasksOf(core.taskQueue), t) + Count(ReportsOf(core.resultQueue), t) + Count(core.collected, t)
  {
    assert Count(core.redone, t) == 0;
    hide Runtime.Sound, Count, TasksOf, ReportsOf, HeldBy;
    assert Ledger(core.BookOf());
  }

  lemma PoppedOrNot(s: Scheduler, tb: Table, t: nat)
    requires s.Valid() && s.submitted == Dependencies(tb)
    ensures (if t in s.pendingTasks then 1 else 0) + Count(s.readyQueue, t) + Count(s.popped, t) ==
      if t in tb.tasks then 1 else 0
  {
    assert t in s.submitted <==> t in tb.tasks;
    OccursOnce(s.readyQueue, t);
    OccursOnce(s.popped, t);
    hide Count, NoRepeats;
  }

  lemma {:induction false} OccursOnce(q: seq<nat>, t: nat)
    requires NoRepeats(q)
    ensures Count(q, t) == if t in q then 1 else 0
  {
    if q != [] {
      assert q == [q[0]] + q[1..];
      OccursOnce(q[1..], t);
    }
  }
}
