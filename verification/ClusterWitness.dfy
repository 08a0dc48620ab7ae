/**
  Runs that show what the runtime does not promise.
 */
module ClusterWitness {
  import opened Collections
  import opened Dag
  import opened Lineage
  import opened SchedulerSpec
  import opened Cluster
  import opened ClusterCause
  import opened ClusterFlush

  /** A task without references, and one that refers to its result: the first submission
      draws ids 0 and 1, the second 2 and 3. */
  const SOURCE := Call(User(0), [], NO_KWARGS)
  const SINK := Call(User(1), [Ref(1)], NO_KWARGS)

  lemma SinkDeps()
    ensures DepsOf(SOURCE) == [] && DepsOf(SINK) == [1]
  {
    assert RefsOf([Ref(1)]) == Refs(Ref(1)) + RefsOf([Ref(1)][1..]);
  }

  lemma Go(w: World, run: seq<State>, labels: seq<Label>, l: Label) returns (run': seq<State>, labels': seq<Label>)
    requires IsRun(w, run, labels) && Enabled(run[|labels|], l)
    ensures IsRun(w, run', labels') && |labels'| == |labels| + 1
    ensures run'[|labels'|] == Next(w, run[|labels|], l)
    ensures run' == run + [Next(w, run[|labels|], l)] && labels' == labels + [l]
  {
    hide Next, Enabled;
    run', labels' := run + [Next(w, run[|labels|], l)], labels + [l];
  }

  /** A run that ends in `s`. */
  datatype Trace = Trace(run: seq<State>, labels: seq<Label>)

  ghost predicate Reaches(w: World, tr: Trace, s: State)
  {
    IsRun(w, tr.run, tr.labels) && tr.run[|tr.labels|] == s
  }

  lemma Then(w: World, tr: Trace, s: State, l: Label) returns (tr': Trace)
    requires Reaches(w, tr, s) && Enabled(s, l)
    ensures Reaches(w, tr', Next(w, s, l))
  {
    var run, labels := Go(w, tr.run, tr.labels, l);
    tr' := Trace(run, labels);
  }

  // ------------------------------------------------------- both tasks are submitted

  const ONLY_SOURCE := Table(map[0 := Task(1, SOURCE, [])], map[1 := 0])
  const BOTH := Table(map[0 := Task(1, SOURCE, []), 2 := Task(3, SINK, [1])], map[1 := 0, 3 := 2])

  const SOURCE_READY := INIT.(nextId := 2, table := ONLY_SOURCE, sched := Sched(map[], map[], [0]))
  const SINK_REGISTERED := SOURCE_READY.(nextId := 4, table := BOTH, tokens := map[0 := Registered(2)])

  /** The source is in the ready queue and the sink waits for it. */
  const SUBMITTED := SINK_REGISTERED.(sched := Sched(map[2 := {1}], map[1 := [2]], [0]), tokens := map[])

  lemma RegisterSource(w: World) returns (tr: Trace)
    ensures Reaches(w, tr, INIT.(nextId := 2, table := ONLY_SOURCE, tokens := map[0 := Registered(0)]))
  {
    SinkDeps();
    tr := Trace([INIT], []);
    hide DepsOf, Reaches;
    assert Reaches(w, tr, INIT) by { InitRun(w); }
    tr := Then(w, tr, INIT, Begin(0, SOURCE));
    var s1 := INIT.(nextId := 1, tokens := map[0 := Submitting(SOURCE, 0)]);
    tr := Then(w, tr, s1, Register(0));
    assert Next(w, s1, Register(0)).tokens == map[0 := Registered(0)];
  }

  lemma SubmitSource(w: World) returns (tr: Trace)
    ensures Reaches(w, tr, SOURCE_READY)
  {
    hide DepsOf, Reaches;
    tr := RegisterSource(w);
    var s2 := INIT.(nextId := 2, table := ONLY_SOURCE, tokens := map[0 := Registered(0)]);
    tr := Then(w, tr, s2, Enqueue(0));
    var s3 := SOURCE_READY.(tokens := map[0 := Rechecking(0, 0)]);
    assert Next(w, s2, Enqueue(0)) == s3;
    tr := Then(w, tr, s3, EndSubmit(0));
    assert Next(w, s3, EndSubmit(0)).tokens == map[];
  }

  lemma InitRun(w: World)
    ensures Reaches(w, Trace([INIT], []), INIT)
  {
  }

  lemma RegisterSink(w: World) returns (tr: Trace)
    ensures Reaches(w, tr, SINK_REGISTERED)
  {
    SinkDeps();
    hide DepsOf, Reaches;
    tr := SubmitSource(w);
    tr := Then(w, tr, SOURCE_READY, Begin(0, SINK));
    var s1 := SOURCE_READY.(nextId := 3, tokens := map[0 := Submitting(SINK, 2)]);
    assert Next(w, SOURCE_READY, Begin(0, SINK)) == s1;
    tr := Then(w, tr, s1, Register(0));
    assert Next(w, s1, Register(0)) == SINK_REGISTERED;
  }

  lemma EnqueueSink()
    ensures Submit(SOURCE_READY.sched, 2, [1]) == SUBMITTED.sched
  {
    assert Elems([1]) == {1};
    var waiting: map<nat, seq<nat>> := map[];
    assert [1][1..] == [] && [] + [2] == [2];
    assert Index(waiting, [1], 2) == Index(waiting[1 := [2]], [1][1..], 2);
    assert waiting[1 := [2]] == map[1 := [2]];
  }

  lemma SubmitBoth(w: World) returns (tr: Trace)
    ensures Reaches(w, tr, SUBMITTED)
  {
    hide DepsOf, Reaches, Submit;
    EnqueueSink();
    tr := RegisterSink(w);
    tr := Then(w, tr, SINK_REGISTERED, Enqueue(0));
    var s1 := SUBMITTED.(tokens := map[0 := Rechecking(2, 0)]);
    assert Next(w, SINK_REGISTERED, Enqueue(0)) == s1;
    tr := Then(w, tr, s1, Recheck(0));
    var s2 := SUBMITTED.(tokens := map[0 := Rechecking(2, 1)]);
    assert Next(w, s1, Recheck(0)) == s2;
    tr := Then(w, tr, s2, EndSubmit(0));
    assert Next(w, s2, EndSubmit(0)).tokens == map[];
  }

  // ------------------------------------------------------- the source is executed

  const SOURCE_POPPED := SUBMITTED.(sched := SUBMITTED.sched.(ready := []), popper := map[0 := Local])
  const SOURCE_SENT := SOURCE_POPPED.(sent := [0])

  lemma SendSource(w: World) returns (tr: Trace)
    ensures Reaches(w, tr, SOURCE_SENT.(tokens := map[0 := Job(0, SOURCE, Local, false)]))
  {
    FillSource();
    hide DepsOf, Reaches, FillCall;
    tr := SubmitBoth(w);
    tr := Then(w, tr, SUBMITTED, Pop(0, Local));
    var s1 := SOURCE_POPPED.(tokens := map[0 := Preparing(0, [], Local, false)]);
    assert Next(w, SUBMITTED, Pop(0, Local)) == s1;
    tr := Then(w, tr, s1, Send(0));
    assert Next(w, s1, Send(0)) == SOURCE_SENT.(tokens := map[0 := Job(0, SOURCE, Local, false)]);
  }

  /** The source's result is on its way back. */
  lemma RunSource(w: World) returns (tr: Trace)
    ensures Reaches(w, tr, SOURCE_SENT.(tokens := map[0 := Result(0, w.user(0, [], NO_KWARGS), Local)]))
  {
    hide DepsOf, Reaches, FillCall;
    tr := SendSource(w);
    var s2 := SOURCE_SENT.(tokens := map[0 := Job(0, SOURCE, Local, false)]);
    tr := Then(w, tr, s2, Start(0));
    var s3 := SOURCE_SENT.(tokens := map[0 := Job(0, SOURCE, Local, true)]);
    assert Next(w, s2, Start(0)) == s3;
    tr := Then(w, tr, s3, Finish(0));
    assert Next(w, s3, Finish(0)).tokens == map[0 := Result(0, w.user(0, [], NO_KWARGS), Local)];
  }

  lemma FillSource()
    ensures DepsOf(SOURCE) == [] && FillCall(SOURCE, []) == SOURCE
  {
  }

  // ------------------------------------------------------- the witnesses

  lemma EvictStored(w: World, v: Value) returns (tr: Trace)
    requires w.user(0, [], NO_KWARGS) == Ok(v)
    ensures Reaches(w, tr, SOURCE_SENT.(tokens := map[0 := Announcing(1)], evicted := {1}))
  {
    hide DepsOf, Reaches;
    tr := RunSource(w);
    var s0 := SOURCE_SENT.(tokens := map[0 := Result(0, Ok(v), Local)]);
    tr := Then(w, tr, s0, Put(0));
    var s1 := SOURCE_SENT.(store := map[1 := v], tokens := map[0 := Announcing(1)]);
    assert Next(w, s0, Put(0)) == s1;
    tr := Then(w, tr, s1, Evict(1));
    assert Next(w, s1, Evict(1)) == SOURCE_SENT.(tokens := map[0 := Announcing(1)], evicted := {1});
  }

  /**
    Evicting an object between its put and its announcement makes a flush block: the
    sink is released, popped, and its only reference is not in the store.  In the
    source it is the collector thread that announces and flushes, so it is the one to hang.
   */
  lemma EvictionBlocksFlush(w: World, v: Value) returns (tr: Trace, s: State)
    requires w.user(0, [], NO_KWARGS) == Ok(v)
    ensures Reaches(w, tr, s)
    ensures Has(s, 1) && s.tokens[1] == Preparing(2, [], Local, false) && !NotBlocked(s, 1)
  {
    SinkDeps();
    tr := ReleaseSink(w, v);
    hide DepsOf, Reaches;
    var s3 := SOURCE_SENT.(sched := Sched(map[], map[], [2]), evicted := {1});
    tr := Then(w, tr, s3, Pop(1, Local));
    s := Next(w, s3, Pop(1, Local));
  }

  lemma ReleaseSink(w: World, v: Value) returns (tr: Trace)
    requires w.user(0, [], NO_KWARGS) == Ok(v)
    ensures Reaches(w, tr, SOURCE_SENT.(sched := Sched(map[], map[], [2]), evicted := {1}))
  {
    tr := EvictStored(w, v);
    AnnounceSource();
    hide DepsOf, Reaches, OnObjectReady;
    var s2 := SOURCE_SENT.(tokens := map[0 := Announcing(1)], evicted := {1});
    tr := Then(w, tr, s2, Announce(0));
    assert Next(w, s2, Announce(0)) == SOURCE_SENT.(sched := Sched(map[], map[], [2]), evicted := {1});
  }

  lemma AnnounceSource()
    ensures OnObjectReady(SOURCE_SENT.sched, 1) == Sched(map[], map[], [2])
  {
    var m := Sched(map[2 := {1}], map[], []);
    assert SOURCE_SENT.sched.waiting - {1} == map[];
    assert {1} - {1} == {};
    assert Unblock1(m, 1, 2) == Sched(map[], map[], [2]);
    assert Unblock(m, 1, [2]) == Unblock(Unblock1(m, 1, 2), 1, [2][1..]);
  }

  /**
    A failure is stored but never announced: the sink stays pending in a state in which
    nothing will ever happen by itself, while its dependency is in the store.
   */
  lemma FailureLeavesPending(w: World, m: string) returns (tr: Trace, s: State)
    requires w.user(0, [], NO_KWARGS) == Err(m)
    ensures Reaches(w, tr, s) && Quiescent(s) && s == SOURCE_SENT.(store := map[1 := TaskError(0, m)])
    ensures 2 in s.sched.pending && s.sched.pending[2] == {1} && 1 in s.store && s.store[1].TaskError?
  {
    hide DepsOf, Reaches;
    tr := RunSource(w);
    var s0 := SOURCE_SENT.(tokens := map[0 := Result(0, Err(m), Local)]);
    tr := Then(w, tr, s0, Put(0));
    s := Next(w, s0, Put(0));
    assert s.tokens == map[];
  }

  const THREE := Table(BOTH.tasks[4 := Task(5, SINK, [1])], BOTH.producer[5 := 4])

  lemma RegisterAnother(w: World, m: string) returns (tr: Trace, s: State)
    requires w.user(0, [], NO_KWARGS) == Err(m)
    ensures s == SOURCE_SENT.(nextId := 6, table := THREE, store := map[1 := TaskError(0, m)],
      tokens := map[0 := Registered(4)])
    ensures Reaches(w, tr, s)
  {
    SinkDeps();
    hide DepsOf, Reaches;
    var s0;
    tr, s0 := FailureLeavesPending(w, m);
    tr := Then(w, tr, s0, Begin(0, SINK));
    var s1 := s0.(nextId := 5, tokens := map[0 := Submitting(SINK, 4)]);
    assert Next(w, s0, Begin(0, SINK)) == s1;
    tr := Then(w, tr, s1, Register(0));
    s := Next(w, s1, Register(0));
    assert s.tokens == map[0 := Registered(4)] && s.table == THREE;
  }

  /** The failed source, and a second sink that has reached the scheduler. */
  lemma SubmitAnother(w: World, m: string) returns (tr: Trace, s: State)
    requires w.user(0, [], NO_KWARGS) == Err(m)
    ensures s == SOURCE_SENT.(nextId := 6, table := THREE, store := map[1 := TaskError(0, m)],
      sched := Submit(SOURCE_SENT.sched, 4, [1]), tokens := map[0 := Rechecking(4, 0)])
    ensures Reaches(w, tr, s)
  {
    hide DepsOf, Reaches, Submit;
    var s0;
    tr, s0 := RegisterAnother(w, m);
    tr := Then(w, tr, s0, Enqueue(0));
    s := Next(w, s0, Enqueue(0));
  }

  /**
    It does not stay pending for ever: the next submission that refers to the failed object
    finds it stored and announces it, and releases the earlier task too.
   */
  lemma LaterSubmissionReleases(w: World, m: string) returns (tr: Trace, s: State)
    requires w.user(0, [], NO_KWARGS) == Err(m)
    ensures Reaches(w, tr, s) && s.sched.pending == map[] && s.sched.ready == [2, 4]
    ensures 1 in s.store && s.store[1].TaskError?
  {
    ReleaseBoth();
    hide DepsOf, Reaches, Submit, OnObjectReady;
    var s0;
    tr, s0 := SubmitAnother(w, m);
    tr := Then(w, tr, s0, Recheck(0));
    var s1 := s0.(tokens := map[0 := Retriggering(4, 0)]);
    assert Next(w, s0, Recheck(0)) == s1;
    tr := Then(w, tr, s1, Retrigger(0));
    s := Next(w, s1, Retrigger(0));
  }

  lemma ReleaseBoth()
    ensures OnObjectReady(Submit(SOURCE_SENT.sched, 4, [1]), 1) == Sched(map[], map[], [2, 4])
  {
    assert Elems([1]) == {1} && {1} - {1} == {};
    var waiting := map[1 := [2]];
    assert [1][1..] == [] && [2] + [4] == [2, 4];
    assert Index(waiting, [1], 4) == Index(waiting[1 := [2, 4]], [1][1..], 4);
    var s := Submit(SOURCE_SENT.sched, 4, [1]);
    assert s.waiting - {1} == map[];
    var m0 := Sched(map[2 := {1}, 4 := {1}], map[], []);
    var m1, m2 := Sched(map[4 := {1}], map[], [2]), Sched(map[], map[], [2, 4]);
    assert Unblock1(m0, 1, 2) == m1 && Unblock1(m1, 1, 4) == m2;
    assert [2, 4][1..] == [4] && [4][1..] == [];
    assert Unblock(m0, 1, [2, 4]) == Unblock(m1, 1, [4]) == Unblock(m2, 1, []);
  }

  /**
    The local runtime executes tasks at least once, not exactly once: asking for the
    object of a task that is still being executed dispatches it again.
   */
  lemma EarlyGetDispatchesTwice(w: World) returns (tr: Trace, s: State)
    ensures Reaches(w, tr, s) && s.sent == [0, 0]
  {
    FillSource();
    hide DepsOf, Reaches, FillCall;
    tr := RunSource(w);
    var s0 := SOURCE_SENT.(tokens := map[0 := Result(0, w.user(0, [], NO_KWARGS), Local)]);
    tr := Then(w, tr, s0, Redo(1, 1));
    var s1 := s0.(tokens := map[0 := Result(0, w.user(0, [], NO_KWARGS), Local), 1 := Preparing(0, [], Local, true)]);
    assert Next(w, s0, Redo(1, 1)) == s1;
    tr := Then(w, tr, s1, Send(1));
    s := Next(w, s1, Send(1));
  }
}
