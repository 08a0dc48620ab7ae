/**
  The scheduling rule along whole runs: a submitted task is pending exactly as long as
  some dependency has not been announced since.  What is announced are successes and
  whatever a later submission finds stored; the failure of a dependency is not.
 */
module ClusterRule {
  import opened Collections
  import opened Wrappers
  import opened Lineage
  import opened SchedulerSpec
  import opened Cluster
  import opened ClusterPlacement

  predicate Announces(s: State, l: Label, d: nat)
  {
    Enabled(s, l) && Announced(s, l) == Some(d)
  }

  /** No step between `e` and `i` announces `d`. */
  ghost predicate NotAnnounced(run: seq<State>, labels: seq<Label>, e: nat, i: nat, d: nat)
    requires |run| == |labels| + 1 && i < |run|
  {
    forall m :: e < m < i ==> !Announces(run[m], labels[m], d)
  }

  /** The dependencies among `deps` not announced between `e` and `i`. */
  ghost function Unannounced(run: seq<State>, labels: seq<Label>, e: nat, i: nat, deps: seq<nat>): set<nat>
    requires |run| == |labels| + 1 && i < |run|
  {
    set d | d in deps && NotAnnounced(run, labels, e, i, d)
  }

  function Unresolved(q: Sched, t: nat): set<nat>
  {
    if t in q.pending then q.pending[t] else {}
  }

  lemma UnannouncedStep(run: seq<State>, labels: seq<Label>, e: nat, i: nat, deps: seq<nat>)
    requires |run| == |labels| + 1 && e < i && i + 1 < |run| && Enabled(run[i], labels[i])
    ensures Unannounced(run, labels, e, i + 1, deps) ==
      match Announced(run[i], labels[i])
      case None => Unannounced(run, labels, e, i, deps)
      case Some(d) => Unannounced(run, labels, e, i, deps) - {d}
  {
    hide Announced, Enabled;
  }

  /** What one step does to the unresolved set of a task that is with the scheduler. */
  lemma UnresolvedStep(w: World, s: State, l: Label, t: nat)
    requires BaseInv(s) && Enabled(s, l) && t in s.table.tasks && t !in Registering(s.tokens)
    ensures Unresolved(Next(w, s, l).sched, t) ==
      match Announced(s, l)
      case None => Unresolved(s.sched, t)
      case Some(d) => Unresolved(s.sched, t) - {d}
  {
    hide LineageInv, RepInv, Registering, RegisteredOnce, Placed, Submit, OnObjectReady;
    SchedStep(w, s, l);
    if l.Enqueue? {
      EnqueuesAnother(w, s, l.k, t);
    }
    if l.Pop? {
      assert Next(w, s, l).sched.pending == s.sched.pending;
    }
    hide Next, BaseInv, Enabled;
  }

  lemma EnqueuesAnother(w: World, s: State, k: nat, t: nat)
    requires Enabled(s, Enqueue(k)) && t !in Registering(s.tokens)
    ensures Unresolved(Next(w, s, Enqueue(k)).sched, t) == Unresolved(s.sched, t)
  {
    assert s.tokens[k].t in Registering(s.tokens);
    hide Registering;
  }

  lemma EnqueuedUnresolved(w: World, s: State, k: nat)
    requires BaseInv(s) && Enabled(s, Enqueue(k))
    ensures Unresolved(Next(w, s, Enqueue(k)).sched, s.tokens[k].t) == Elems(s.table.tasks[s.tokens[k].t].deps)
  {
    var t := s.tokens[k].t;
    assert t in Registering(s.tokens);
    hide LineageInv, RepInv, RegisteredOnce, Registering;
    assert t !in s.sched.pending;
    hide Placed;
  }

  lemma NewRegistered(w: World, s: State, l: Label)
    requires Enabled(s, l) && MovesToken(l) && Moved(w, s, l).Some? && Moved(w, s, l).value.Registered?
    ensures l.Register? && Moved(w, s, l).value.t == s.tokens[l.k].t
  {
  }

  /** A task that is past its registration never is on its way to the scheduler again. */
  lemma StaysSubmitted(w: World, s: State, l: Label, t: nat)
    requires BaseInv(s) && Enabled(s, l) && t in s.table.tasks && t !in Registering(s.tokens)
    ensures t !in Registering(Next(w, s, l).tokens)
  {
    hide RepInv, Placed, WellFounded, Inverse, IdsBelow, DistinctIds, Next, Enabled, Moved, RegisteredOnce;
    var s' := Next(w, s, l);
    forall k | k in s'.tokens && s'.tokens[k].Registered?
      ensures s'.tokens[k].t != t
    {
      TokenOrigin(w, s, l, k);
      if MovesToken(l) && l.k == k {
        NewRegistered(w, s, l);
        SubmittingIsNew(s, k);
      } else {
        assert s.tokens[k].t in Registering(s.tokens);
      }
    }
  }

  lemma SubmittingIsNew(s: State, k: nat)
    requires BaseInv(s) && Enabled(s, Register(k))
    ensures s.tokens[k].t !in s.table.tasks
  {
    hide RepInv, Placed, WellFounded, Inverse, IdsBelow, DistinctIds, RegisteredOnce;
    assert TokenShape(s.nextId, s.table, s.tokens[k]);
  }

  lemma TaskStays(w: World, s: State, l: Label, t: nat)
    requires BaseInv(s) && Enabled(s, l) && t in s.table.tasks
    ensures t in Next(w, s, l).table.tasks && Next(w, s, l).table.tasks[t] == s.table.tasks[t]
  {
    TableStep(w, s, l);
    hide BaseInv, Next, Enabled;
  }

  /** Having reached the scheduler, it is past it. */
  lemma EnqueuedIsPast(w: World, s: State, k: nat)
    requires BaseInv(s) && Enabled(s, Enqueue(k))
    ensures s.tokens[k].t !in Registering(Next(w, s, Enqueue(k)).tokens)
  {
    hide LineageInv, RepInv, RegisteredOnce, Registering;
    var t, s' := s.tokens[k].t, Next(w, s, Enqueue(k));
    BaseStep(w, s, Enqueue(k));
    assert t in s'.sched.pending.Keys || t in Elems(s'.sched.ready);
    hide Next;
  }

  /** At `i` the pending table lists for `t` exactly what has not been announced since `e`. */
  ghost predicate ListsRight(run: seq<State>, labels: seq<Label>, e: nat, i: nat, t: nat, task: Task)
    requires |run| == |labels| + 1 && i < |run|
  {
    && t in run[i].table.tasks && run[i].table.tasks[t] == task
    && t !in Registering(run[i].tokens)
    && Unresolved(run[i].sched, t) == Unannounced(run, labels, e, i, task.deps)
  }

  lemma ListsAtStart(w: World, run: seq<State>, labels: seq<Label>, e: nat, k: nat)
    requires |run| == |labels| + 1 && e < |labels| && BaseInv(run[e])
    requires Enabled(run[e], Enqueue(k)) && run[e + 1] == Next(w, run[e], Enqueue(k))
    ensures ListsRight(run, labels, e, e + 1, run[e].tokens[k].t, run[e].table.tasks[run[e].tokens[k].t])
  {
    hide BaseInv, Next, Unresolved, Registering;
    EnqueuedUnresolved(w, run[e], k);
    EnqueuedIsPast(w, run[e], k);
    TaskStays(w, run[e], Enqueue(k), run[e].tokens[k].t);
  }

  lemma ListsStep(w: World, run: seq<State>, labels: seq<Label>, e: nat, i: nat, t: nat, task: Task)
    requires |run| == |labels| + 1 && e < i < |labels| && BaseInv(run[i])
    requires Enabled(run[i], labels[i]) && run[i + 1] == Next(w, run[i], labels[i])
    requires ListsRight(run, labels, e, i, t, task)
    ensures ListsRight(run, labels, e, i + 1, t, task)
  {
    hide BaseInv, Next, Enabled, Unannounced, Unresolved, Registering, Announced;
    StaysSubmitted(w, run[i], labels[i], t);
    TaskStays(w, run[i], labels[i], t);
    UnresolvedStep(w, run[i], labels[i], t);
    UnannouncedStep(run, labels, e, i, task.deps);
  }

  lemma RunStep(w: World, run: seq<State>, labels: seq<Label>, i: nat)
    requires IsRun(w, run, labels) && i + 1 < |run|
    ensures |run| == |labels| + 1 && Enabled(run[i], labels[i]) && run[i + 1] == Next(w, run[i], labels[i])
  {
    hide Enabled, Next;
  }

  lemma EnqueueIsOfTask(s: State, k: nat)
    requires Enabled(s, Enqueue(k))
    ensures OfTask(s, k) && s.tokens[k].Registered?
  {
  }

  predicate EnqueuesAt(run: seq<State>, e: nat, k: nat)
  {
    e < |run| && OfTask(run[e], k) && run[e].tokens[k].Registered?
  }

  /** In every run, at every moment after the submission of a task reached the scheduler. */
  lemma {:induction false} ListsTheUnannounced(w: World, run: seq<State>, labels: seq<Label>, e: nat, i: nat, k: nat)
    requires IsRun(w, run, labels) && e < i < |run| && |run| == |labels| + 1 && labels[e] == Enqueue(k)
    ensures EnqueuesAt(run, e, k)
    ensures ListsRight(run, labels, e, i, run[e].tokens[k].t, run[e].table.tasks[run[e].tokens[k].t])
    decreases i
  {
    hide IsRun, BaseInv, Next, ListsRight, Enabled, OfTask;
    RunStep(w, run, labels, e);
    RunStep(w, run, labels, i - 1);
    EnqueueIsOfTask(run[e], k);
    BaseAlways(w, run, labels, i - 1);
    if i == e + 1 {
      ListsAtStart(w, run, labels, e, k);
    } else {
      ListsTheUnannounced(w, run, labels, e, i - 1, k);
      ListsStep(w, run, labels, e, i - 1, run[e].tokens[k].t, run[e].table.tasks[run[e].tokens[k].t]);
    }
  }

  /**
    When a task stays pending, exactly.  A task whose submission reached the scheduler at
    step `e` is pending at `i` if and only if some dependency has not been announced since
    `e`; otherwise it is ready or has been popped.
   */
  lemma PendingIffUnannounced(w: World, run: seq<State>, labels: seq<Label>, e: nat, i: nat, k: nat)
    requires IsRun(w, run, labels) && e < i < |run| && labels[e] == Enqueue(k)
    ensures k in run[e].tokens && run[e].tokens[k].Registered? && run[e].tokens[k].t in run[e].table.tasks
    ensures var t := run[e].tokens[k].t;
      && (t in run[i].sched.pending <==>
           exists d :: d in run[e].table.tasks[t].deps && NotAnnounced(run, labels, e, i, d))
      && (t !in run[i].sched.pending ==> t in run[i].sched.ready || t in run[i].popper)
  {
    ListsTheUnannounced(w, run, labels, e, i, k);
    BaseAlways(w, run, labels, i);
    var t, s := run[e].tokens[k].t, run[i];
    hide IsRun, LineageInv, IndexInv, NoRepeats, RegisteredOnce, Registering, NotAnnounced;
    assert t in s.table.tasks.Keys;
    hide DepsMap;
    if t in s.sched.pending {
      var d :| d in s.sched.pending[t];
      assert d in Unannounced(run, labels, e, i, run[e].table.tasks[t].deps);
    }
    if d :| d in run[e].table.tasks[t].deps && NotAnnounced(run, labels, e, i, d) {
      assert d in Unannounced(run, labels, e, i, run[e].table.tasks[t].deps);
    }
  }
}
