/**
  The two layers joined: what the driver's `Runtime` does in one call is a sequence of
  steps of the machine `Cluster`, so whatever holds in every run of the machine holds of
  every history of a `Runtime`.

  A state of the machine mirrors a runtime when its tables agree, its jobs and results are
  the runtime's queues, and it holds the preparations of the tasks that a waiting flush has
  popped.
 */
module Simulation {
  import opened Collections
  import opened Wrappers
  import Dag
  import opened Lineage
  import opened SchedulerSpec
  import opened Cluster
  import opened ClusterValues
  import opened ClusterOrder
  import opened RuntimeClass

  /** Which tokens of the machine stand for which messages, results and preparations. */
  datatype Keys = Keys(jobs: seq<nat>, results: seq<nat>, held: seq<nat>)

  ghost predicate Reached(w: World, m: State)
  {
    exists run, labels :: IsRun(w, run, labels) && run[|labels|] == m
  }

  ghost predicate SameTables(m: State, s: Snap)
  {
    && m.nextId == s.nextId && m.table == s.table && m.sched == s.sched && m.store == s.store && m.sent == s.sent
  }

  predicate MirrorsJob(m: State, k: nat, msg: Message)
  {
    && k in m.tokens && m.tokens[k] == Job(msg.t, msg.call, Local, false)
    && msg.t in m.table.tasks && m.table.tasks[msg.t].oid == msg.o
  }

  predicate MirrorsResult(m: State, k: nat, r: Report)
  {
    && k in m.tokens && m.tokens[k] == Result(r.t, r.outcome, Local)
    && r.t in m.table.tasks && m.table.tasks[r.t].oid == r.o
  }

  predicate MirrorsHeld(m: State, k: nat, p: Preparation)
  {
    && k in m.tokens && m.tokens[k] == Preparing(p.t, p.got, Local, false)
    && p.t in m.table.tasks && |p.got| <= |m.table.tasks[p.t].deps|
  }

  function AllKeys(k: Keys): seq<nat>
  {
    k.jobs + k.results + k.held
  }

  ghost predicate MirrorsQueues(m: State, s: Snap, k: Keys)
  {
    && |k.jobs| == |s.tasks| && |k.results| == |s.results| && |k.held| == |s.waiting|
    && NoRepeats(AllKeys(k))
    && (forall i :: 0 <= i < |k.jobs| ==> MirrorsJob(m, k.jobs[i], s.tasks[i]))
    && (forall i :: 0 <= i < |k.results| ==> MirrorsResult(m, k.results[i], s.results[i]))
    && (forall i :: 0 <= i < |k.held| ==> MirrorsHeld(m, k.held[i], s.waiting[i]))
  }

  ghost predicate Mirrors(w: World, m: State, s: Snap, k: Keys)
  {
    Reached(w, m) && SameTables(m, s) && MirrorsQueues(m, s, k)
  }

  lemma Step(w: World, m: State, l: Label)
    requires Reached(w, m) && Enabled(m, l)
    ensures Reached(w, Next(w, m, l))
  {
    var run, labels :| IsRun(w, run, labels) && run[|labels|] == m;
    var run', labels' := run + [Next(w, m, l)], labels + [l];
    hide Next, Enabled;
    assert IsRun(w, run', labels');
  }

  lemma InitReached(w: World)
    ensures Reached(w, INIT)
  {
    assert IsRun(w, [INIT], []);
  }

  const NEW_RUNTIME := Snap(0, EMPTY_TABLE, FRESH, map[], [], [], [], [])

  /** A new runtime. */
  lemma InitMirrors(w: World)
    ensures Mirrors(w, INIT, NEW_RUNTIME, Keys([], [], []))
  {
    InitReached(w);
    hide Reached;
  }

  /** Whatever holds in every reached state of the machine holds here. */
  lemma ReachedSound(w: World, m: State)
    requires Reached(w, m)
    ensures BaseInv(m) && WellFounded(m.table) && StoreSound(w, m.table, m.store) && Topological(m.table, m.sent)
    ensures TokensSound(w, m.table, m.tokens)
  {
    var run, labels :| IsRun(w, run, labels) && run[|labels|] == m;
    SoundAlways(w, run, labels, |labels|);
    DispatchIsTopological(w, run, labels, |labels|);
    hide IsRun, Topological, StoreSound, TokensSound;
  }

  lemma FreshKey(m: State) returns (k: nat)
    ensures k !in m.tokens
  {
    k := Above(m.tokens.Keys);
  }

  lemma {:induction false} Above(keys: set<nat>) returns (k: nat)
    ensures forall j :: j in keys ==> j < k
    decreases |keys|
  {
    if keys == {} {
      k := 0;
    } else {
      var j :| j in keys;
      var above := Above(keys - {j});
      k := if j < above then above else j + 1;
      assert forall i :: i in keys ==> i == j || i in keys - {j};
    }
  }

  // ------------------------------------------------------- queues that do not move

  /** The tokens of the queues stay, and so do their tasks. */
  lemma QueuesStay(m: State, m': State, s: Snap, s': Snap, k: Keys)
    requires MirrorsQueues(m, s, k) && s'.tasks == s.tasks && s'.results == s.results && s'.waiting == s.waiting
    requires m'.tokens == m.tokens && Extends(m.table, m'.table)
    ensures MirrorsQueues(m', s', k)
  {
    hide NoRepeats;
  }

  // ------------------------------------------------------- eviction

  lemma EvictIsRun(w: World, m: State, s: Snap, k: Keys, o: nat) returns (m': State)
    requires Mirrors(w, m, s, k)
    ensures Mirrors(w, m', s.(store := s.store - {o}), k)
  {
    hide Reached;
    if o in s.store {
      Step(w, m, Evict(o));
      m' := Next(w, m, Evict(o));
    } else {
      m' := m;
      assert s.store - {o} == s.store;
    }
    QueuesStay(m, m', s, s.(store := s.store - {o}), k);
    hide MirrorsQueues;
  }

  // ------------------------------------------------------- a worker

  lemma WorkIsRun(w: World, m: State, s: Snap, k: Keys, i: nat) returns (m': State, k': Keys)
    requires Mirrors(w, m, s, k) && i < |s.tasks|
    ensures Mirrors(w, m', AfterWork(w, s, i), k')
  {
    hide Reached, Apply;
    var j := k.jobs[i];
    assert MirrorsJob(m, j, s.tasks[i]);
    Step(w, m, Start(j));
    var m1 := Next(w, m, Start(j));
    Step(w, m1, Finish(j));
    m' := Next(w, m1, Finish(j));
    k' := k.(jobs := k.jobs[..i] + k.jobs[i + 1..], results := k.results + [j]);
    assert m'.tokens == m.tokens[j := Result(s.tasks[i].t, Apply(w, s.tasks[i].call), Local)];
    assert m'.table == m.table;
    JobMoves(w, m, m', s, k, k', i);
    hide MirrorsQueues, Next;
  }

  /** All tokens but one stay as they are, and so do the tasks. */
  ghost predicate OthersStay(m: State, m': State, j: nat)
  {
    && m'.table == m.table
    && forall x :: x in m.tokens && x != j ==> x in m'.tokens && m'.tokens[x] == m.tokens[x]
  }

  lemma JobMoves(w: World, m: State, m': State, s: Snap, k: Keys, k': Keys, i: nat)
    requires MirrorsQueues(m, s, k) && i < |s.tasks| && m'.table == m.table
    requires m'.tokens == m.tokens[k.jobs[i] := Result(s.tasks[i].t, Apply(w, s.tasks[i].call), Local)]
    requires k' == k.(jobs := k.jobs[..i] + k.jobs[i + 1..], results := k.results + [k.jobs[i]])
    ensures MirrorsQueues(m', AfterWork(w, s, i), k')
  {
    hide Apply;
    var j, s' := k.jobs[i], AfterWork(w, s, i);
    assert MirrorsJob(m, j, s.tasks[i]);
    KeyMoves(k.jobs, k.results, k.held, i);
    KeyIsElsewhere(k, i);
    hide NoRepeats;
    forall a | 0 <= a < |k'.jobs|
      ensures MirrorsJob(m', k'.jobs[a], s'.tasks[a])
    {
      var b := if a < i then a else a + 1;
      assert k'.jobs[a] == k.jobs[b] && MirrorsJob(m, k.jobs[b], s.tasks[b]);
    }
    forall a | 0 <= a < |k'.results|
      ensures MirrorsResult(m', k'.results[a], s'.results[a])
    {
      assert a < |k.results| ==> MirrorsResult(m, k.results[a], s.results[a]);
    }
    forall a | 0 <= a < |k'.held|
      ensures MirrorsHeld(m', k'.held[a], s'.waiting[a])
    {
      assert MirrorsHeld(m, k.held[a], s.waiting[a]);
    }
  }

  /** The key of one queue is in no other place. */
  lemma KeyIsElsewhere(k: Keys, i: nat)
    requires NoRepeats(AllKeys(k)) && i < |k.jobs|
    ensures forall a :: 0 <= a < |k.jobs| && a != i ==> k.jobs[a] != k.jobs[i]
    ensures forall a :: 0 <= a < |k.results| ==> k.results[a] != k.jobs[i]
    ensures forall a :: 0 <= a < |k.held| ==> k.held[a] != k.jobs[i]
  {
    var p, n, r := AllKeys(k), |k.jobs|, |k.results|;
    assert forall a :: 0 <= a < n ==> p[a] == k.jobs[a];
    assert forall a :: 0 <= a < r ==> p[n + a] == k.results[a];
    assert forall a :: 0 <= a < |k.held| ==> p[n + r + a] == k.held[a];
  }

  lemma KeyMoves(a: seq<nat>, b: seq<nat>, c: seq<nat>, i: nat)
    requires NoRepeats(a + b + c) && i < |a|
    ensures NoRepeats(a[..i] + a[i + 1..] + (b + [a[i]]) + c)
  {
    var p, q, n := a + b + c, a[..i] + a[i + 1..] + (b + [a[i]]) + c, |a| + |b|;
    forall x, y | 0 <= x < y < |q|
      ensures q[x] != q[y]
    {
      var x', y' := Before(x, i, n), Before(y, i, n);
      assert q[x] == p[x'] && q[y] == p[y'] && x' != y';
    }
  }

  /** Where position `x` was before the `i`-th of the first `n` became the last of them. */
  function Before(x: nat, i: nat, n: nat): nat
  {
    if x < i then x else if x < n - 1 then x + 1 else if x == n - 1 then i else x
  }

  // ------------------------------------------------------- a result

  lemma ResultIsRun(w: World, m: State, s: Snap, k: Keys) returns (m': State, k': Keys)
    requires Mirrors(w, m, s, k) && s.results != []
    ensures Mirrors(w, m', AfterResult(s), k')
  {
    hide Reached, OnObjectReady;
    var j, r := k.results[0], s.results[0];
    assert MirrorsResult(m, j, r);
    Step(w, m, Put(j));
    var m1 := Next(w, m, Put(j));
    k' := k.(results := k.results[1..]);
    if r.outcome.Ok? {
      Step(w, m1, Announce(j));
      m' := Next(w, m1, Announce(j));
    } else {
      m' := m1;
    }
    assert m'.tokens == m.tokens - {j} && m'.table == m.table;
    ResultGoes(m, m', s, k, k');
    hide MirrorsQueues, Next;
  }

  lemma ResultGoes(m: State, m': State, s: Snap, k: Keys, k': Keys)
    requires MirrorsQueues(m, s, k) && s.results != [] && m'.table == m.table && m'.tokens == m.tokens - {k.results[0]}
    requires k' == k.(results := k.results[1..])
    ensures MirrorsQueues(m', AfterResult(s), k')
  {
    hide OnObjectReady;
    var s', p, q, n := AfterResult(s), AllKeys(k), AllKeys(k'), |k.jobs|;
    assert p[n] == k.results[0];
    assert forall a :: 0 <= a < |q| ==> q[a] == p[if a < n then a else a + 1];
    forall a | 0 <= a < |k'.jobs|
      ensures MirrorsJob(m', k'.jobs[a], s'.tasks[a])
    {
      assert k.jobs[a] == p[a] && MirrorsJob(m, k.jobs[a], s.tasks[a]);
    }
    forall a | 0 <= a < |k'.results|
      ensures MirrorsResult(m', k'.results[a], s'.results[a])
    {
      assert k'.results[a] == k.results[a + 1] == p[n + a + 1] && MirrorsResult(m, k.results[a + 1], s.results[a + 1]);
    }
    forall a | 0 <= a < |k'.held|
      ensures MirrorsHeld(m', k'.held[a], s'.waiting[a])
    {
      assert k.held[a] == p[n + |k.results| + a] && MirrorsHeld(m, k.held[a], s.waiting[a]);
    }
  }

  // ------------------------------------------------------- a flush

  /** Reading the references one after the other, as far as they are stored. */
  lemma {:induction false} ReadsRun(w: World, m: State, j: nat, refs: seq<nat>) returns (m': State)
    requires Reached(w, m) && OfTask(m, j) && m.tokens[j].Preparing? && refs == ArgRefs(m, m.tokens[j].t)
    requires |m.tokens[j].got| <= |refs|
    ensures Reached(w, m')
    ensures m' == m.(tokens := m.tokens[j := m.tokens[j].(got := ReadOn(m.store, refs, m.tokens[j].got))])
    decreases |refs| - |m.tokens[j].got|
  {
    hide Reached, DepsOf;
    var got := m.tokens[j].got;
    if |got| < |refs| && refs[|got|] in m.store {
      Step(w, m, Read(j));
      var m1 := Next(w, m, Read(j));
      assert m1 == m.(tokens := m.tokens[j := m.tokens[j].(got := got + [m.store[refs[|got|]]])]);
      hide Next, Enabled;
      m' := ReadsRun(w, m1, j, refs);
    } else {
      m' := m;
      assert m.tokens[j := m.tokens[j]] == m.tokens;
    }
  }

  /** One popped task whose references are stored. */
  function AfterSend(w: World, s: Snap, msg: Message): Snap
    requires s.sched.ready != []
  {
    s.(sched := SchedulerSpec.Pop(s.sched), tasks := s.tasks + [msg], sent := s.sent + [s.sched.ready[0]])
  }

  /** Popping a task. */
  lemma PopIsRun(w: World, m: State) returns (m': State, j: nat)
    requires Reached(w, m) && m.sched.ready != []
    ensures j !in m.tokens && Reached(w, m')
    ensures m' == m.(
      sched := SchedulerSpec.Pop(m.sched),
      popper := m.popper[m.sched.ready[0] := Local],
      tokens := m.tokens[j := Preparing(m.sched.ready[0], [], Local, false)])
  {
    hide Reached;
    j := FreshKey(m);
    Step(w, m, Pop(j, Local));
    m' := Next(w, m, Pop(j, Local));
  }

  /** Sending a task whose references have all been read. */
  lemma CompleteIsSent(w: World, m: State, j: nat, t: nat) returns (m': State)
    requires Reached(w, m) && j in m.tokens && m.tokens[j].Preparing? && m.tokens[j].t == t && m.tokens[j].dest == Local
    requires WellFounded(m.table) && t in m.table.tasks && |m.tokens[j].got| == |m.table.tasks[t].deps|
    ensures Reached(w, m')
    ensures m' == m.(
      sent := m.sent + [t], tokens := m.tokens[j := Job(t, MessageFor(w, m.table, t).call, Local, false)])
  {
    hide Reached, DepsOf, FillCall, WellFounded, BaseInv, StoreSound, Topological, Inputs;
    ReachedSound(w, m);
    assert TokenSound(w, m.table, m.tokens[j]);
    hide TokensSound;
    CompleteIsRight(w, m.table, Preparation(t, m.tokens[j].got));
    Step(w, m, Send(j));
    m' := Next(w, m, Send(j));
    assert m'.tokens == m.tokens[j := Job(t, FillCall(m.table.tasks[t].call, m.tokens[j].got), Local, false)];
  }

  /** A token reads on, and stays with whoever flushes. */
  lemma ReadOnIsRun(w: World, m: State, j: nat, p: Preparation) returns (m': State)
    requires Reached(w, m) && MirrorsHeld(m, j, p) && WellFounded(m.table)
    ensures Reached(w, m')
    ensures m' == m.(tokens := m.tokens[j :=
      Preparing(p.t, ReadOn(m.store, m.table.tasks[p.t].deps, p.got), Local, false)])
  {
    hide Reached, WellFounded, DepsOf;
    DepsAreRefs(m.table, p.t);
    m' := ReadsRun(w, m, j, m.table.tasks[p.t].deps);
  }

  lemma DepsAreRefs(tb: Table, t: nat)
    requires WellFounded(tb) && t in tb.tasks
    ensures tb.tasks[t].deps == DepsOf(tb.tasks[t].call)
  {
    hide DepsOf;
  }

  /** Popping a task, and reading what is stored for it. */
  lemma BeginIsRun(w: World, m: State) returns (m': State, j: nat)
    requires Reached(w, m) && m.sched.ready != [] && WellFounded(m.table) && m.sched.ready[0] in m.table.tasks
    ensures j !in m.tokens && Reached(w, m')
    ensures var t := m.sched.ready[0];
      m' == m.(
        sched := SchedulerSpec.Pop(m.sched),
        popper := m.popper[t := Local],
        tokens := m.tokens[j := Preparing(t, ReadOn(m.store, m.table.tasks[t].deps, []), Local, false)])
  {
    hide Reached, WellFounded, ReadOn;
    var m1;
    m1, j := PopIsRun(w, m);
    m' := ReadOnIsRun(w, m1, j, Preparation(m.sched.ready[0], []));
    assert m'.tokens == m.tokens[j := m'.tokens[j]];
  }

  lemma SendIsRun(w: World, m: State, s: Snap, k: Keys) returns (m': State, k': Keys)
    requires Mirrors(w, m, s, k) && s.sched.ready != [] && WellFounded(s.table) && s.sched.ready[0] in s.table.tasks
    requires AllStored(s.store, s.table.tasks[s.sched.ready[0]].deps)
    ensures Mirrors(w, m', AfterSend(w, s, MessageFor(w, s.table, s.sched.ready[0])), k')
  {
    hide Reached, WellFounded, MirrorsQueues, MessageFor, ReadOn, AllStored;
    var t := s.sched.ready[0];
    NothingReadYet(s.store, s.table.tasks[t].deps);
    var m1, j := BeginIsRun(w, m);
    m' := CompleteIsSent(w, m1, j, t);
    k' := k.(jobs := k.jobs + [j]);
    assert m'.tokens == m.tokens[j := Job(t, MessageFor(w, m.table, t).call, Local, false)];
    MessageIsAbout(w, s.table, t);
    JobAdded(w, m, m', s, k, k', j, MessageFor(w, s.table, t));
  }

  lemma MessageIsAbout(w: World, tb: Table, t: nat)
    requires WellFounded(tb) && t in tb.tasks
    ensures MessageFor(w, tb, t).t == t && MessageFor(w, tb, t).o == tb.tasks[t].oid
  {
    hide WellFounded, Payload;
  }

  lemma KeyIsNew(m: State, s: Snap, k: Keys, j: nat)
    requires MirrorsQueues(m, s, k) && j !in m.tokens
    ensures forall a :: 0 <= a < |AllKeys(k)| ==> AllKeys(k)[a] != j
  {
    hide NoRepeats;
    var n, r := |k.jobs|, |k.results|;
    forall a | 0 <= a < |AllKeys(k)|
      ensures AllKeys(k)[a] != j
    {
      assert a < n ==> MirrorsJob(m, k.jobs[a], s.tasks[a]);
      assert n <= a < n + r ==> MirrorsResult(m, k.results[a - n], s.results[a - n]);
      assert n + r <= a ==> MirrorsHeld(m, k.held[a - n - r], s.waiting[a - n - r]);
    }
  }

  /** The queues' tokens are where they were when one new token has come. */
  lemma OldKeysStay(m: State, m': State, s: Snap, k: Keys, j: nat)
    requires MirrorsQueues(m, s, k) && j !in m.tokens && OthersStay(m, m', j)
    ensures forall i :: 0 <= i < |k.jobs| ==> MirrorsJob(m', k.jobs[i], s.tasks[i])
    ensures forall i :: 0 <= i < |k.results| ==> MirrorsResult(m', k.results[i], s.results[i])
    ensures forall i :: 0 <= i < |k.held| ==> MirrorsHeld(m', k.held[i], s.waiting[i])
  {
    hide NoRepeats;
    forall i | 0 <= i < |k.jobs|
      ensures MirrorsJob(m', k.jobs[i], s.tasks[i])
    {
      assert MirrorsJob(m, k.jobs[i], s.tasks[i]);
    }
    forall i | 0 <= i < |k.results|
      ensures MirrorsResult(m', k.results[i], s.results[i])
    {
      assert MirrorsResult(m, k.results[i], s.results[i]);
    }
    forall i | 0 <= i < |k.held|
      ensures MirrorsHeld(m', k.held[i], s.waiting[i])
    {
      assert MirrorsHeld(m, k.held[i], s.waiting[i]);
    }
  }

  lemma InsertKey(a: seq<nat>, b: seq<nat>, j: nat)
    requires NoRepeats(a + b) && forall x :: 0 <= x < |a + b| ==> (a + b)[x] != j
    ensures NoRepeats(a + [j] + b)
  {
    var p, q, n := a + b, a + [j] + b, |a|;
    forall x, y | 0 <= x < y < |q|
      ensures q[x] != q[y]
    {
      assert x != n ==> q[x] == p[if x < n then x else x - 1];
      assert y != n ==> q[y] == p[if y < n then y else y - 1];
    }
  }

  lemma JobAdded(w: World, m: State, m': State, s: Snap, k: Keys, k': Keys, j: nat, msg: Message)
    requires MirrorsQueues(m, s, k) && j !in m.tokens && s.sched.ready != [] && m'.table == m.table
    requires m'.tokens == m.tokens[j := Job(msg.t, msg.call, Local, false)]
    requires msg.t in m.table.tasks && m.table.tasks[msg.t].oid == msg.o && k' == k.(jobs := k.jobs + [j])
    ensures MirrorsQueues(m', AfterSend(w, s, msg), k')
  {
    OldKeysStay(m, m', s, k, j);
    KeyIsNew(m, s, k, j);
    assert AllKeys(k) == k.jobs + (k.results + k.held);
    InsertKey(k.jobs, k.results + k.held, j);
    assert AllKeys(k') == k.jobs + [j] + (k.results + k.held);
    hide NoRepeats, MirrorsJob, MirrorsResult, MirrorsHeld;
    assert MirrorsJob(m', j, msg) by { NewJob(m', j, msg); }
  }

  lemma NewJob(m: State, j: nat, msg: Message)
    requires j in m.tokens && m.tokens[j] == Job(msg.t, msg.call, Local, false)
    requires msg.t in m.table.tasks && m.table.tasks[msg.t].oid == msg.o
    ensures MirrorsJob(m, j, msg)
  {
  }

  /** A task that is popped and has to wait stays in the hands of whoever flushes. */
  lemma HoldIsRun(w: World, m: State, s: Snap, k: Keys) returns (m': State, k': Keys)
    requires Mirrors(w, m, s, k) && s.sched.ready != [] && WellFounded(s.table) && s.sched.ready[0] in s.table.tasks
    ensures Mirrors(w, m', AfterHold(s), k')
  {
    hide Reached, MirrorsQueues, WellFounded, ReadOn;
    var j;
    m', j := BeginIsRun(w, m);
    k' := k.(held := k.held + [j]);
    HeldAdded(m, m', s, k, j);
  }

  function AfterHold(s: Snap): Snap
    requires s.sched.ready != [] && s.sched.ready[0] in s.table.tasks
  {
    s.(sched := SchedulerSpec.Pop(s.sched), waiting := s.waiting + [Begun(s, s.sched.ready[0])])
  }

  lemma HeldAdded(m: State, m': State, s: Snap, k: Keys, j: nat)
    requires MirrorsQueues(m, s, k) && j !in m.tokens && OthersStay(m, m', j) && SameTables(m, s)
    requires s.sched.ready != [] && s.sched.ready[0] in s.table.tasks && j in m'.tokens
    requires m'.tokens[j] == Preparing(s.sched.ready[0], Begun(s, s.sched.ready[0]).got, Local, false)
    ensures MirrorsQueues(m', AfterHold(s), k.(held := k.held + [j]))
  {
    hide ReadOn;
    OldKeysStay(m, m', s, k, j);
    KeyIsNew(m, s, k, j);
    assert AllKeys(k) + [] == AllKeys(k);
    InsertKey(AllKeys(k), [], j);
    assert AllKeys(k.(held := k.held + [j])) == AllKeys(k) + [j] + [];
    assert MirrorsHeld(m', j, Begun(s, s.sched.ready[0]));
    hide NoRepeats, MirrorsJob, MirrorsResult, MirrorsHeld;
  }

  lemma Shift(q: seq<nat>, n: nat)
    requires 0 < n <= |q|
    ensures q[..n] == [q[0]] + q[1..][..n - 1]
    ensures n < |q| ==> q[n] == q[1..][n - 1] && q[n + 1..] == q[1..][n..]
    ensures forall i :: 0 <= i < n - 1 ==> q[1..][i] == q[i + 1]
    ensures forall t :: t in q[1..] ==> t in q
  {
  }

  lemma MessagesShift(w: World, tb: Table, q: seq<nat>, n: nat)
    requires WellFounded(tb) && 0 < n <= |q| && forall t :: t in q ==> t in tb.tasks
    ensures forall t :: t in q[1..] ==> t in tb.tasks
    ensures MessagesFor(w, tb, q[..n]) == [MessageFor(w, tb, q[0])] + MessagesFor(w, tb, q[1..][..n - 1])
  {
    hide WellFounded, MessageFor;
    Shift(q, n);
  }

  /** The rest of a flush after its first task. */
  lemma FlushRest(w: World, s: Snap, s': Snap, stuck: Option<(nat, nat)>)
    requires Flushes(w, s, s', stuck) && |s'.sent| > |s.sent|
    ensures s.sched.ready != [] && s.sched.ready[0] in s.table.tasks && WellFounded(s.table)
    ensures AllStored(s.store, s.table.tasks[s.sched.ready[0]].deps)
    ensures Flushes(w, AfterSend(w, s, MessageFor(w, s.table, s.sched.ready[0])), s', stuck)
  {
    hide WellFounded, AllStored, MessageFor, MessagesFor, ReadOn, StopsAt;
    var tb, ready, n := s.table, s.sched.ready, |s'.sent| - |s.sent|;
    var msg := MessageFor(w, tb, ready[0]);
    var s1 := AfterSend(w, s, msg);
    Shift(ready, n);
    MessagesShift(w, tb, ready, n);
    var rest := MessagesFor(w, tb, ready[1..][..n - 1]);
    assert s'.tasks == s1.tasks + rest by {
      assert s.tasks + ([msg] + rest) == s.tasks + [msg] + rest;
    }
    assert s'.sent == s1.sent + ready[1..][..n - 1] by {
      assert s.sent + ready[..n] == s.sent + [ready[0]] + ready[1..][..n - 1];
    }
    assert |s'.sent| - |s1.sent| == n - 1;
  }

  lemma FlushNone(w: World, s: Snap, s': Snap, stuck: Option<(nat, nat)>)
    requires Flushes(w, s, s', stuck) && |s'.sent| <= |s.sent|
    ensures stuck.None? ==> s' == s
    ensures stuck.Some? ==>
      s.sched.ready != [] && s.sched.ready[0] in s.table.tasks && WellFounded(s.table) && s' == AfterHold(s)
  {
    hide WellFounded, AllStored, ReadOn;
    assert s.sched.ready[..0] == [] && MessagesFor(w, s.table, []) == [];
    assert s.tasks + [] == s.tasks && s.sent + [] == s.sent;
  }

  /** A whole flush, waiting or not, is a sequence of machine steps. */
  lemma {:induction false} FlushIsRun(w: World, m: State, s: Snap, k: Keys, s': Snap, stuck: Option<(nat, nat)>)
    returns (m': State, k': Keys)
    requires Mirrors(w, m, s, k) && Flushes(w, s, s', stuck)
    ensures Mirrors(w, m', s', k')
    decreases |s.sched.ready|
  {
    hide Mirrors, Flushes, WellFounded, AllStored, MessageFor, AfterHold;
    if |s'.sent| > |s.sent| {
      FlushRest(w, s, s', stuck);
      var m1, k1 := SendIsRun(w, m, s, k);
      m', k' := FlushIsRun(w, m1, AfterSend(w, s, MessageFor(w, s.table, s.sched.ready[0])), k1, s', stuck);
    } else {
      FlushNone(w, s, s', stuck);
      if stuck.Some? {
        m', k' := HoldIsRun(w, m, s, k);
      } else {
        m', k' := m, k;
      }
    }
  }

  /** A waiting flush that goes on. */
  lemma ResumeIsRun(w: World, m: State, s: Snap, k: Keys, i: nat, s': Snap, stuck: Option<(nat, nat)>)
    returns (m': State, k': Keys)
    requires Mirrors(w, m, s, k) && Resumes(w, s, s', i, stuck)
    ensures Mirrors(w, m', s', k')
  {
    hide Reached, WellFounded, ReadOn, MirrorsQueues, Flushes, MessageFor;
    var p := s.waiting[i];
    var j := HeldKey(m, s, k, i);
    var got := ReadOn(s.store, s.table.tasks[p.t].deps, p.got);
    var m1 := ReadOnIsRun(w, m, j, p);
    if |got| < |s.table.tasks[p.t].deps| {
      m', k' := m1, k;
      HeldReads(m, m', s, k, i, got);
    } else {
      var m2 := CompleteIsSent(w, m1, j, p.t);
      assert m2.tokens == m.tokens[j := Job(p.t, MessageFor(w, m.table, p.t).call, Local, false)];
      var k1 := HeldSent(w, m, m2, s, k, i);
      m', k' := FlushIsRun(w, m2, Resumed(w, s, i), k1, s', stuck);
    }
  }

  lemma HeldKey(m: State, s: Snap, k: Keys, i: nat) returns (j: nat)
    requires MirrorsQueues(m, s, k) && i < |s.waiting|
    ensures i < |k.held| && j == k.held[i] && MirrorsHeld(m, j, s.waiting[i])
  {
    j := k.held[i];
    hide NoRepeats;
  }

  /** The `i`-th held token is none of the others. */
  lemma HeldIsElsewhere(k: Keys, i: nat)
    requires NoRepeats(AllKeys(k)) && i < |k.held|
    ensures forall a :: 0 <= a < |k.jobs| ==> k.jobs[a] != k.held[i]
    ensures forall a :: 0 <= a < |k.results| ==> k.results[a] != k.held[i]
    ensures forall a :: 0 <= a < |k.held| && a != i ==> k.held[a] != k.held[i]
  {
    var p, n, r := AllKeys(k), |k.jobs|, |k.results|;
    assert forall a :: 0 <= a < n ==> p[a] == k.jobs[a];
    assert forall a :: 0 <= a < r ==> p[n + a] == k.results[a];
    assert forall a :: 0 <= a < |k.held| ==> p[n + r + a] == k.held[a];
  }

  lemma HeldReads(m: State, m': State, s: Snap, k: Keys, i: nat, got: seq<Dag.Value>)
    requires MirrorsQueues(m, s, k) && i < |s.waiting| && OthersStay(m, m', k.held[i])
    requires k.held[i] in m'.tokens && m'.tokens[k.held[i]] == Preparing(s.waiting[i].t, got, Local, false)
    requires s.waiting[i].t in m.table.tasks && |got| <= |m.table.tasks[s.waiting[i].t].deps|
    ensures MirrorsQueues(m', s.(waiting := s.waiting[i := Preparation(s.waiting[i].t, got)]), k)
  {
    HeldIsElsewhere(k, i);
    hide NoRepeats;
    QueuesBut(m, m', s, k, i);
  }

  /** Everything but the `i`-th held token is where it was. */
  lemma QueuesBut(m: State, m': State, s: Snap, k: Keys, i: nat)
    requires MirrorsQueues(m, s, k) && i < |s.waiting| && OthersStay(m, m', k.held[i])
    ensures forall a :: 0 <= a < |k.jobs| ==> MirrorsJob(m', k.jobs[a], s.tasks[a])
    ensures forall a :: 0 <= a < |k.results| ==> MirrorsResult(m', k.results[a], s.results[a])
    ensures forall a :: 0 <= a < |k.held| && a != i ==> MirrorsHeld(m', k.held[a], s.waiting[a])
  {
    HeldIsElsewhere(k, i);
    hide NoRepeats;
    forall a | 0 <= a < |k.jobs|
      ensures MirrorsJob(m', k.jobs[a], s.tasks[a])
    {
      assert MirrorsJob(m, k.jobs[a], s.tasks[a]);
    }
    forall a | 0 <= a < |k.results|
      ensures MirrorsResult(m', k.results[a], s.results[a])
    {
      assert MirrorsResult(m, k.results[a], s.results[a]);
    }
    forall a | 0 <= a < |k.held| && a != i
      ensures MirrorsHeld(m', k.held[a], s.waiting[a])
    {
      assert MirrorsHeld(m, k.held[a], s.waiting[a]);
    }
  }

  lemma HeldSent(w: World, m: State, m': State, s: Snap, k: Keys, i: nat) returns (k': Keys)
    requires MirrorsQueues(m, s, k) && WellFounded(s.table) && i < |s.waiting| && s.waiting[i].t in s.table.tasks
    requires m'.table == m.table == s.table
    requires m'.tokens == m.tokens[k.held[i] :=
      Job(s.waiting[i].t, MessageFor(w, s.table, s.waiting[i].t).call, Local, false)]
    ensures MirrorsQueues(m', Resumed(w, s, i), k')
  {
    var j, msg := k.held[i], MessageFor(w, s.table, s.waiting[i].t);
    k' := k.(jobs := k.jobs + [j], held := k.held[..i] + k.held[i + 1..]);
    hide WellFounded, MessageFor;
    MessageIsAbout(w, s.table, s.waiting[i].t);
    QueuesBut(m, m', s, k, i);
    NewJob(m', j, msg);
    HeldMoves(k.jobs, k.results, k.held, i);
    hide NoRepeats, MirrorsJob, MirrorsResult, MirrorsHeld;
    var s' := Resumed(w, s, i);
    forall a | 0 <= a < |k'.held|
      ensures MirrorsHeld(m', k'.held[a], s'.waiting[a])
    {
      var b := if a < i then a else a + 1;
      assert k'.held[a] == k.held[b] && s'.waiting[a] == s.waiting[b];
    }
  }

  lemma HeldMoves(a: seq<nat>, b: seq<nat>, c: seq<nat>, i: nat)
    requires NoRepeats(a + b + c) && i < |c|
    ensures NoRepeats(a + [c[i]] + b + (c[..i] + c[i + 1..]))
  {
    var p, q, n, e := a + b + c, a + [c[i]] + b + (c[..i] + c[i + 1..]), |a|, |a| + |b| + i;
    forall x, y | 0 <= x < y < |q|
      ensures q[x] != q[y]
    {
      var x', y' := From(x, n, e), From(y, n, e);
      assert q[x] == p[x'] && q[y] == p[y'] && x' != y';
    }
  }

  /** Where position `x` was before the key at `e` came to `n`. */
  function From(x: nat, n: nat, e: nat): nat
  {
    if x < n then x else if x == n then e else if x <= e then x - 1 else x
  }

  // ------------------------------------------------------- a submission

  /** The pass over the dependencies, from the `i`-th on. */
  lemma {:induction false} RecheckIsRun(w: World, m: State, j: nat, t: nat, i: nat) returns (m': State)
    requires Reached(w, m) && j in m.tokens && m.tokens[j] == Rechecking(t, i) && t in m.table.tasks
    requires i <= |m.table.tasks[t].deps|
    ensures Reached(w, m')
    ensures m' == m.(
      sched := Retriggered(m.sched, m.table.tasks[t].deps[i..], m.store.Keys), tokens := m.tokens - {j})
    decreases |m.table.tasks[t].deps| - i
  {
    hide Reached, OnObjectReady;
    var deps := m.table.tasks[t].deps;
    if i == |deps| {
      Step(w, m, EndSubmit(j));
      m' := Next(w, m, EndSubmit(j));
    } else {
      assert deps[i..][0] == deps[i] && deps[i..][1..] == deps[i + 1..];
      var m1 := RecheckOne(w, m, j, t, i);
      hide Next, Enabled;
      m' := RecheckIsRun(w, m1, j, t, i + 1);
      assert m1.tokens - {j} == m.tokens - {j};
    }
  }

  lemma RecheckOne(w: World, m: State, j: nat, t: nat, i: nat) returns (m': State)
    requires Reached(w, m) && j in m.tokens && m.tokens[j] == Rechecking(t, i) && t in m.table.tasks
    requires i < |m.table.tasks[t].deps|
    ensures Reached(w, m')
    ensures m' == m.(
      sched :=
        if m.table.tasks[t].deps[i] in m.store then OnObjectReady(m.sched, m.table.tasks[t].deps[i]) else m.sched,
      tokens := m.tokens[j := Rechecking(t, i + 1)])
  {
    hide Reached, OnObjectReady;
    Step(w, m, Recheck(j));
    m' := Next(w, m, Recheck(j));
    if m.table.tasks[t].deps[i] in m.store {
      var m1 := m';
      Step(w, m1, Retrigger(j));
      m' := Next(w, m1, Retrigger(j));
      assert m'.tokens == m.tokens[j := Rechecking(t, i + 1)];
    }
  }

  /** The first part of a submission. */
  lemma EnqueueIsRun(w: World, m: State, call: Call) returns (m': State, j: nat)
    requires Reached(w, m) && forall d :: d in DepsOf(call) ==> d in m.table.producer
    ensures j !in m.tokens && Reached(w, m')
    ensures m' == m.(
      nextId := m.nextId + 2,
      table := Record(m.table, m.nextId, m.nextId + 1, call, DepsOf(call)),
      sched := Submit(m.sched, m.nextId, DepsOf(call)),
      tokens := m.tokens[j := Rechecking(m.nextId, 0)])
  {
    hide Reached, DepsOf, Submit;
    j := FreshKey(m);
    Step(w, m, Begin(j, call));
    var m1 := Next(w, m, Begin(j, call));
    assert m1 == m.(nextId := m.nextId + 1, tokens := m.tokens[j := Submitting(call, m.nextId)]);
    Step(w, m1, Register(j));
    var m2 := Next(w, m1, Register(j));
    assert m2 == m.(nextId := m.nextId + 2, table := Record(m.table, m.nextId, m.nextId + 1, call, DepsOf(call)),
      tokens := m.tokens[j := Registered(m.nextId)]);
    m' := ReachScheduler(w, m2, j, m.nextId);
    assert m'.tokens == m.tokens[j := Rechecking(m.nextId, 0)];
  }

  lemma ReachScheduler(w: World, m: State, j: nat, t: nat) returns (m': State)
    requires Reached(w, m) && j in m.tokens && m.tokens[j] == Registered(t) && t in m.table.tasks
    ensures Reached(w, m')
    ensures m' == m.(sched := Submit(m.sched, t, m.table.tasks[t].deps), tokens := m.tokens[j := Rechecking(t, 0)])
  {
    hide Reached, Submit;
    Step(w, m, Enqueue(j));
    m' := Next(w, m, Enqueue(j));
  }

  /** The ids, the table and the scheduler part of a submission. */
  lemma RecordIsRun(w: World, m: State, s: Snap, k: Keys, call: Call) returns (m': State)
    requires Mirrors(w, m, s, k) && forall d :: d in DepsOf(call) ==> d in s.table.producer
    ensures Mirrors(w, m', AfterSubmit(s, call), k)
  {
    hide Reached, DepsOf, Submit, Retriggered, MirrorsQueues;
    var m1, j := EnqueueIsRun(w, m, call);
    m' := RecheckIsRun(w, m1, j, m.nextId, 0);
    assert DepsOf(call)[0..] == DepsOf(call);
    assert m'.tokens == m.tokens;
    IdIsNew(w, m);
    QueuesStay(m, m', s, AfterSubmit(s, call), k);
  }

  lemma IdIsNew(w: World, m: State)
    requires Reached(w, m)
    ensures forall call :: Extends(m.table, Record(m.table, m.nextId, m.nextId + 1, call, DepsOf(call)))
  {
    ReachedSound(w, m);
    hide WellFounded, Inverse, RepInv, Placed, StoreSound, Topological, DepsOf, Reached;
  }

  // ------------------------------------------------------- the calls of a runtime

  /** `submit_task`, as the contract of `Runtime.SubmitTask` states it. */
  lemma SubmitTaskIsRun(w: World, m: State, s: Snap, k: Keys, call: Call, s': Snap, stuck: Option<(nat, nat)>)
    returns (m': State, k': Keys)
    requires Mirrors(w, m, s, k) && forall d :: d in DepsOf(call) ==> d in s.table.producer
    requires Flushes(w, AfterSubmit(s, call), s', stuck)
    ensures Mirrors(w, m', s', k')
  {
    hide Mirrors, Flushes, DepsOf, AfterSubmit;
    var m1 := RecordIsRun(w, m, s, k, call);
    m', k' := FlushIsRun(w, m1, AfterSubmit(s, call), k, s', stuck);
  }

  /** One turn of the collector, as the contract of `Runtime.CollectStep` states it. */
  lemma CollectStepIsRun(w: World, m: State, s: Snap, k: Keys, s': Snap, stuck: Option<(nat, nat)>)
    returns (m': State, k': Keys)
    requires Mirrors(w, m, s, k) && s.results != []
    requires if s.results[0].outcome.Ok? then Flushes(w, AfterResult(s), s', stuck) else s' == AfterResult(s)
    ensures Mirrors(w, m', s', k')
  {
    hide Mirrors, Flushes, AfterResult;
    m', k' := ResultIsRun(w, m, s, k);
    if s.results[0].outcome.Ok? {
      m', k' := FlushIsRun(w, m', AfterResult(s), k', s', stuck);
    }
  }

  /** An actor id. */
  lemma TakeIdIsRun(w: World, m: State, s: Snap, k: Keys) returns (m': State)
    requires Mirrors(w, m, s, k)
    ensures Mirrors(w, m', s.(nextId := s.nextId + 1), k)
  {
    hide Reached;
    Step(w, m, TakeId);
    m' := Next(w, m, TakeId);
    QueuesStay(m, m', s, s.(nextId := s.nextId + 1), k);
    hide MirrorsQueues;
  }

  // ------------------------------------------------------- histories

  /** What happens to a runtime, in the terms of its methods' contracts. */
  datatype Op =
    | NextUniqueId
    | SubmitTask(call: Call, stuck: Option<(nat, nat)>)
    | FlushReadyTasks(stuck: Option<(nat, nat)>)
    | ResumeFlush(i: nat, stuck: Option<(nat, nat)>)
    | WorkerStep(i: nat)
    | CollectStep(stuck: Option<(nat, nat)>)
    | EvictObject(o: nat)

  ghost predicate Does(w: World, s: Snap, op: Op, s': Snap)
  {
    match op
    case NextUniqueId => s' == s.(nextId := s.nextId + 1)
    case SubmitTask(call, stuck) =>
      (forall d :: d in DepsOf(call) ==> d in s.table.producer) && Flushes(w, AfterSubmit(s, call), s', stuck)
    case FlushReadyTasks(stuck) => Flushes(w, s, s', stuck)
    case ResumeFlush(i, stuck) => Resumes(w, s, s', i, stuck)
    case WorkerStep(i) => i < |s.tasks| && s' == AfterWork(w, s, i)
    case CollectStep(stuck) =>
      && s.results != []
      && if s.results[0].outcome.Ok? then Flushes(w, AfterResult(s), s', stuck) else s' == AfterResult(s)
    case EvictObject(o) => s' == s.(store := s.store - {o})
  }

  lemma OpIsRun(w: World, m: State, s: Snap, k: Keys, op: Op, s': Snap) returns (m': State, k': Keys)
    requires Mirrors(w, m, s, k) && Does(w, s, op, s')
    ensures Mirrors(w, m', s', k')
  {
    hide Mirrors, Flushes, Resumes, AfterSubmit, AfterResult, AfterWork, DepsOf;
    k' := k;
    match op {
      case NextUniqueId => m' := TakeIdIsRun(w, m, s, k);
      case SubmitTask(call, stuck) => m', k' := SubmitTaskIsRun(w, m, s, k, call, s', stuck);
      case FlushReadyTasks(stuck) => m', k' := FlushIsRun(w, m, s, k, s', stuck);
      case ResumeFlush(i, stuck) => m', k' := ResumeIsRun(w, m, s, k, i, s', stuck);
      case WorkerStep(i) => m', k' := WorkIsRun(w, m, s, k, i);
      case CollectStep(stuck) => m', k' := CollectStepIsRun(w, m, s, k, s', stuck);
      case EvictObject(o) => m' := EvictIsRun(w, m, s, k, o);
    }
  }

  ghost predicate IsHistory(w: World, ss: seq<Snap>, ops: seq<Op>)
  {
    && |ss| == |ops| + 1
    && ss[0] == NEW_RUNTIME
    && forall i :: 0 <= i < |ops| ==> Does(w, ss[i], ops[i], ss[i + 1])
  }

  /**
    Every history of a runtime is a run of the machine: after any sequence of submissions,
    flushes, resumptions of waiting flushes, worker and collector steps in any order, and
    evictions, there is a reachable state of the machine with the same ids, lineage,
    scheduler, store and dispatches, whose jobs, results and preparations are the runtime's
    queues and waiting flushes.
   */
  lemma {:induction false} HistoryIsRun(w: World, ss: seq<Snap>, ops: seq<Op>, i: nat) returns (m: State, k: Keys)
    requires IsHistory(w, ss, ops) && i < |ss|
    ensures Mirrors(w, m, ss[i], k)
    decreases i
  {
    hide Mirrors, Does;
    if i == 0 {
      m, k := INIT, Keys([], [], []);
      InitMirrors(w);
    } else {
      var m0, k0 := HistoryIsRun(w, ss, ops, i - 1);
      m, k := OpIsRun(w, m0, ss[i - 1], k0, ops[i - 1], ss[i]);
    }
  }

  /** So the theorems about runs hold of it: its store is sound, its lineage well-founded,
      and it dispatches in topological order. */
  lemma HistoryIsSound(w: World, ss: seq<Snap>, ops: seq<Op>, i: nat)
    requires IsHistory(w, ss, ops) && i < |ss|
    ensures WellFounded(ss[i].table) && Inverse(ss[i].table) && StoreSound(w, ss[i].table, ss[i].store)
    ensures Topological(ss[i].table, ss[i].sent)
  {
    var m, k := HistoryIsRun(w, ss, ops, i);
    ReachedSound(w, m);
    hide IsHistory, WellFounded, Inverse, StoreSound, Topological, Reached, MirrorsQueues, RepInv, Placed, Shapes;
  }
}
