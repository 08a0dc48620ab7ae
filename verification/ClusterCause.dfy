/**
  Nothing is stuck without cause.

  Two invariants of every run: a pending task that waits for a stored object either
  waits for a `_TaskError`, which is never announced, or its announcement is due; and
  a popped task is in somebody's hands, stored, lost with a connection, or evicted.
  In a quiescent state they leave a pending task only three kinds of ancestors to
  blame.
 */
module ClusterCause {
  import opened Collections
  import opened Wrappers
  import opened Dag
  import opened Lineage
  import opened SchedulerSpec
  import opened Cluster
  import opened ClusterPlacement

  /** The token is on its way to announce `d`, to everybody or at least to `t`. */
  predicate DueAt(tb: Table, tok: Token, t: nat, d: nat)
  {
    match tok
    case Announcing(o) => o == d
    case Rechecking(u, i) => u == t && t in tb.tasks && i <= |tb.tasks[t].deps| && d in tb.tasks[t].deps[i..]
    case Retriggering(u, i) => u == t && t in tb.tasks && i <= |tb.tasks[t].deps| && d in tb.tasks[t].deps[i..]
    case _ => false
  }

  ghost predicate Due(tb: Table, tokens: map<nat, Token>, t: nat, d: nat)
  {
    exists k :: k in tokens && DueAt(tb, tokens[k], t, d)
  }

  ghost predicate WaitsWithCause(tb: Table, tokens: map<nat, Token>, store: map<nat, Value>, t: nat, d: nat)
  {
    d in store ==> store[d].TaskError? || Due(tb, tokens, t, d)
  }

  ghost predicate CauseInv(s: State)
  {
    forall t, d :: t in s.sched.pending && d in s.sched.pending[t] ==> WaitsWithCause(s.table, s.tokens, s.store, t, d)
  }

  // ------------------------------------------------------- announcements stay due

  /** What becomes of a token that owes `t` an announcement of `d`: it still does, or the
      step announces `d`, or it has just found `d` missing from the store. */
  lemma DueMoves(w: World, s: State, l: Label, t: nat, d: nat)
    requires BaseInv(s) && Enabled(s, l) && MovesToken(l) && l.k in s.tokens && DueAt(s.table, s.tokens[l.k], t, d)
    ensures
      || (Moved(w, s, l).Some? && DueAt(s.table, Moved(w, s, l).value, t, d))
      || Announced(s, l) == Some(d)
      || d !in s.store
  {
    hide RepInv, WellFounded, Inverse, DepsOf, Placed, DistinctIds, IdsBelow, RegisteredOnce;
    assert TokenShape(s.nextId, s.table, s.tokens[l.k]);
    hide Shapes;
    if l.Recheck? || l.Retrigger? {
      var deps, i := s.table.tasks[t].deps, s.tokens[l.k].i;
      assert deps[i..] == [deps[i]] + deps[i + 1..];
    }
  }

  /** A pending task's dependency that is still unresolved after a step has not been
      announced by it. */
  lemma StillUnresolved(w: World, s: State, l: Label, t: nat, d: nat)
    requires BaseInv(s) && Enabled(s, l)
    requires var q' := Next(w, s, l).sched; t in q'.pending && d in q'.pending[t]
    ensures Announced(s, l) != Some(d)
    ensures (l.Enqueue? && t == s.tokens[l.k].t) || (t in s.sched.pending && d in s.sched.pending[t])
  {
    SchedStep(w, s, l);
    hide RepInv, LineageInv, Placed, RegisteredOnce, Moved;
    if l.Pop? || l.Enqueue? {
      hide Announced;
    } else {
      hide Next, Enabled;
    }
  }

  lemma EnqueueCause(w: World, s: State, k: nat, d: nat)
    requires BaseInv(s) && Enabled(s, Enqueue(k))
    requires var q' := Next(w, s, Enqueue(k)).sched; var t := s.tokens[k].t; t in q'.pending && d in q'.pending[t]
    ensures var s' := Next(w, s, Enqueue(k)); Due(s'.table, s'.tokens, s.tokens[k].t, d)
  {
    hide RepInv, LineageInv, RegisteredOnce, Index, Partition;
    var t, s' := s.tokens[k].t, Next(w, s, Enqueue(k));
    RegisteringNotPending(s, k);
    hide Placed;
    var deps := s.table.tasks[t].deps;
    assert s'.table == s.table && s'.tokens[k] == Rechecking(t, 0);
    assert d in deps;
    hide Next;
    assert deps[0..] == deps;
    assert DueAt(s'.table, s'.tokens[k], t, d);
  }

  lemma RegisteringNotPending(s: State, k: nat)
    requires BaseInv(s) && k in s.tokens && s.tokens[k].Registered?
    ensures s.tokens[k].t !in s.sched.pending
  {
    hide RepInv, LineageInv, RegisteredOnce;
    assert s.tokens[k].t in Registering(s.tokens);
  }

  lemma DueGrows(tb: Table, tb': Table, tok: Token, t: nat, d: nat)
    requires Extends(tb, tb') && DueAt(tb, tok, t, d)
    ensures DueAt(tb', tok, t, d)
  {
  }

  lemma DuePersists(w: World, s: State, l: Label, t: nat, d: nat)
    requires BaseInv(s) && Enabled(s, l) && Due(s.table, s.tokens, t, d) && d in s.store && Announced(s, l) != Some(d)
    ensures Due(Next(w, s, l).table, Next(w, s, l).tokens, t, d)
  {
    hide RepInv, Placed, RegisteredOnce, DepsOf, WellFounded, Inverse, Announced, DueAt, LineageInv, NextTokens;
    var k :| k in s.tokens && DueAt(s.table, s.tokens[k], t, d);
    var s' := Next(w, s, l);
    TableStep(w, s, l);
    if MovesToken(l) && l.k == k {
      DueMoves(w, s, l, t, d);
      MovedIsThere(w, s, l);
    } else {
      OtherTokensStay(w, s, l, k);
    }
    hide Next, Moved, Enabled;
    DueGrows(s.table, s'.table, s'.tokens[k], t, d);
  }

  lemma MovedIsThere(w: World, s: State, l: Label)
    requires Enabled(s, l) && MovesToken(l) && Moved(w, s, l).Some?
    ensures l.k in Next(w, s, l).tokens && Next(w, s, l).tokens[l.k] == Moved(w, s, l).value
  {
    hide Moved, DepsOf;
  }

  /** A put of an ordinary value owes everybody an announcement; a put of a failure does not. */
  lemma PutCause(w: World, s: State, k: nat, t: nat)
    requires BaseInv(s) && Enabled(s, Put(k))
    ensures var s' := Next(w, s, Put(k)); var d := s.table.tasks[s.tokens[k].t].oid;
      WaitsWithCause(s'.table, s'.tokens, s'.store, t, d)
  {
    hide RepInv, LineageInv, Placed, RegisteredOnce, DepsOf;
    var s', d := Next(w, s, Put(k)), s.table.tasks[s.tokens[k].t].oid;
    if s.tokens[k].outcome.Ok? {
      assert s'.tokens[k] == Announcing(d);
      assert DueAt(s'.table, s'.tokens[k], t, d);
    } else {
      assert s'.store[d] == TaskError(s.tokens[k].t, s.tokens[k].outcome.message);
    }
  }

  lemma StoreChange(w: World, s: State, l: Label, d: nat)
    requires Enabled(s, l) && d in Next(w, s, l).store
    ensures
      || (l.Put? && d == s.table.tasks[s.tokens[l.k].t].oid)
      || (d in s.store && Next(w, s, l).store[d] == s.store[d])
  {
    hide DepsOf;
  }

  lemma CauseStep(w: World, s: State, l: Label)
    requires BaseInv(s) && CauseInv(s) && Enabled(s, l)
    ensures CauseInv(Next(w, s, l))
  {
    hide RepInv, LineageInv, Placed, RegisteredOnce, Moved, Next, Due;
    var s' := Next(w, s, l);
    forall t, d | t in s'.sched.pending && d in s'.sched.pending[t]
      ensures WaitsWithCause(s'.table, s'.tokens, s'.store, t, d)
    {
      StillUnresolved(w, s, l, t, d);
      if d in s'.store {
        StoreChange(w, s, l, d);
        if l.Put? && d == s.table.tasks[s.tokens[l.k].t].oid {
          PutCause(w, s, l.k, t);
        } else if l.Enqueue? && t == s.tokens[l.k].t {
          EnqueueCause(w, s, l.k, d);
        } else if !s.store[d].TaskError? {
          assert WaitsWithCause(s.table, s.tokens, s.store, t, d);
          DuePersists(w, s, l, t, d);
        }
      }
    }
  }

  // ------------------------------------------------------- popped tasks

  /** Someone is executing `t`: resolving its arguments, holding its payload, or
      carrying its result. */
  predicate Carries(tok: Token, t: nat)
  {
    (tok.Preparing? || tok.Job? || tok.Result?) && tok.t == t
  }

  ghost predicate Carried(tokens: map<nat, Token>, t: nat)
  {
    exists k :: k in tokens && Carries(tokens[k], t)
  }

  ghost predicate Accounted(s: State, t: nat)
  {
    && t in s.table.tasks
    && (Carried(s.tokens, t) || s.table.tasks[t].oid in s.store || t in s.lost || s.table.tasks[t].oid in s.evicted)
  }

  ghost predicate FateInv(s: State)
  {
    forall t :: t in s.popper ==> Accounted(s, t)
  }

  lemma CarriedMoves(w: World, s: State, l: Label, t: nat)
    requires Enabled(s, l) && Accounted(s, t) && MovesToken(l) && l.k in s.tokens && Carries(s.tokens[l.k], t)
    ensures var s' := Next(w, s, l);
      || Carried(s'.tokens, t) || s.table.tasks[t].oid in s'.store || t in s'.lost
  {
    hide DepsOf;
    var s' := Next(w, s, l);
    if !l.Put? && !l.Lose? {
      assert Carries(s'.tokens[l.k], t);
    }
  }

  lemma HistoriesGrow(w: World, s: State, l: Label, o: nat)
    requires Enabled(s, l)
    ensures s.lost <= Next(w, s, l).lost && s.evicted <= Next(w, s, l).evicted
    ensures o in s.store ==> o in Next(w, s, l).store || o in Next(w, s, l).evicted
  {
    hide NextTokens, DepsOf;
  }

  lemma AccountedStays(w: World, s: State, l: Label, t: nat)
    requires LineageInv(s) && Enabled(s, l) && Accounted(s, t)
    ensures Accounted(Next(w, s, l), t)
  {
    hide LineageInv, WellFounded, Inverse, DepsOf, Next, NextTokens, Moved;
    var s' := Next(w, s, l);
    TableStep(w, s, l);
    HistoriesGrow(w, s, l, s.table.tasks[t].oid);
    if k :| k in s.tokens && Carries(s.tokens[k], t) {
      if MovesToken(l) && l.k == k {
        CarriedMoves(w, s, l, t);
      } else {
        OtherTokensStay(w, s, l, k);
      }
    }
    hide Carries, Enabled;
  }

  lemma FateStep(w: World, s: State, l: Label)
    requires BaseInv(s) && FateInv(s) && Enabled(s, l)
    ensures FateInv(Next(w, s, l))
  {
    hide RepInv, LineageInv, RegisteredOnce, DepsOf, Accounted;
    var s' := Next(w, s, l);
    if l.Pop? {
      PopAccounted(w, s, l.k, l.dest);
    }
    hide Placed, Moved;
    forall t | t in s'.popper
      ensures Accounted(s', t)
    {
      if t in s.popper {
        AccountedStays(w, s, l, t);
      }
    }
  }

  lemma PopAccounted(w: World, s: State, k: nat, dest: Dest)
    requires BaseInv(s) && Enabled(s, Pop(k, dest))
    ensures Accounted(Next(w, s, Pop(k, dest)), s.sched.ready[0])
  {
    hide RepInv, LineageInv, RegisteredOnce, DepsOf;
    var t, s' := s.sched.ready[0], Next(w, s, Pop(k, dest));
    assert t in Elems(s.sched.ready);
    assert Carries(s'.tokens[k], t);
  }

  ghost predicate WatchInv(s: State)
  {
    BaseInv(s) && CauseInv(s) && FateInv(s)
  }

  lemma {:induction false} WatchAlways(w: World, run: seq<State>, labels: seq<Label>, i: nat)
    requires IsRun(w, run, labels) && i < |run|
    ensures WatchInv(run[i])
    decreases i
  {
    if i == 0 {
      BaseInit();
    } else {
      WatchAlways(w, run, labels, i - 1);
      hide BaseInv, CauseInv, FateInv, Next, Enabled;
      BaseStep(w, run[i - 1], labels[i - 1]);
      CauseStep(w, run[i - 1], labels[i - 1]);
      FateStep(w, run[i - 1], labels[i - 1]);
    }
  }

  // ------------------------------------------------------- the theorem

  /** No submission in progress and nothing ready, queued, running or unhandled. */
  predicate Quiescent(s: State)
  {
    s.tokens == map[] && s.sched.ready == []
  }

  /** The object failed, or was evicted and is not back, or its task went down with a
      dropped connection. */
  ghost predicate ToBlame(s: State, o: nat)
  {
    || (o in s.store && s.store[o].TaskError?)
    || (o in s.evicted && o !in s.store)
    || (o in s.table.producer && s.table.producer[o] in s.lost)
  }

  /** A stuck task's blameworthy ancestor, found by descending along unresolved
      dependencies; object ids decrease. */
  lemma {:induction false} StuckHasCause(s: State, t: nat) returns (path: seq<nat>)
    requires WatchInv(s) && Quiescent(s) && t in s.sched.pending && s.sched.pending[t] != {}
    ensures path != [] && Ancestry(s.table, t, path) && ToBlame(s, path[|path| - 1])
    decreases if t in s.table.tasks then s.table.tasks[t].oid else 0
  {
    hide WatchInv, ToBlame, Quiescent;
    var d :| d in s.sched.pending[t];
    UnresolvedIsDependency(s, t, d);
    var p := s.table.producer[d];
    if ToBlame(s, d) {
      path := [d];
      assert path[1..] == [];
    } else {
      NotToBlameIsPending(s, t, d);
      var rest := StuckHasCause(s, p);
      path := [d] + rest;
      assert path[1..] == rest;
    }
  }

  lemma UnresolvedIsDependency(s: State, t: nat, d: nat)
    requires WatchInv(s) && t in s.sched.pending && d in s.sched.pending[t]
    ensures t in s.table.tasks && d in s.table.tasks[t].deps && d in s.table.producer && d < s.table.tasks[t].oid
    ensures s.table.producer[d] in s.table.tasks && s.table.tasks[s.table.producer[d]].oid == d
  {
    hide CauseInv, FateInv, Placed, RegisteredOnce, IndexInv, Inverse, Shapes;
    assert d in Elems(DepsMap(s.table)[t]);
  }

  lemma PendingHasUnresolved(s: State, t: nat)
    requires BaseInv(s) && t in s.sched.pending
    ensures s.sched.pending[t] != {}
  {
    hide LineageInv, IndexInv, NoRepeats;
  }

  lemma NotToBlameIsPending(s: State, t: nat, d: nat)
    requires WatchInv(s) && Quiescent(s) && t in s.sched.pending && d in s.sched.pending[t] && !ToBlame(s, d)
    ensures d in s.table.producer && s.table.producer[d] in s.sched.pending
    ensures s.sched.pending[s.table.producer[d]] != {}
  {
    UnresolvedIsDependency(s, t, d);
    var p := s.table.producer[d];
    assert d !in s.store by {
      assert WaitsWithCause(s.table, s.tokens, s.store, t, d);
    }
    hide CauseInv;
    assert p !in s.popper by {
      assert p in s.popper ==> Accounted(s, p);
    }
    hide FateInv;
    InSomePlace(s, p);
    hide RepInv, LineageInv, RegisteredOnce, Placed;
    PendingHasUnresolved(s, p);
  }

  lemma InSomePlace(s: State, t: nat)
    requires BaseInv(s) && Quiescent(s) && t in s.table.tasks
    ensures t in s.sched.pending || t in s.popper
  {
    hide RepInv, LineageInv, RegisteredOnce;
    assert Registering(s.tokens) == {};
    assert t in Registering(s.tokens) + s.sched.pending.Keys + Elems(s.sched.ready) + s.popper.Keys;
  }

  /**
    Nothing stuck without cause.  In every state of every run in which no submission is
    in progress and nothing is ready, queued, running or unhandled, each task that is
    still pending has an ancestor whose stored object is a `_TaskError`, or which was
    evicted and is missing, or which a dropped connection took away.
   */
  lemma NothingStuckWithoutCause(w: World, run: seq<State>, labels: seq<Label>, i: nat, t: nat) returns (path: seq<nat>)
    requires IsRun(w, run, labels) && i < |run| && Quiescent(run[i]) && t in run[i].sched.pending
    ensures path != [] && Ancestry(run[i].table, t, path) && ToBlame(run[i], path[|path| - 1])
  {
    WatchAlways(w, run, labels, i);
    PendingHasUnresolved(run[i], t);
    path := StuckHasCause(run[i], t);
  }

  /** Hence, when nothing failed, was evicted or was lost, every submitted task has been
      executed and its object is stored. */
  lemma NoFailureNothingPending(w: World, run: seq<State>, labels: seq<Label>, i: nat)
    requires IsRun(w, run, labels) && i < |run| && Quiescent(run[i])
    requires forall o :: !ToBlame(run[i], o)
    ensures run[i].sched.pending == map[]
    ensures forall t :: t in run[i].table.tasks ==> run[i].table.tasks[t].oid in run[i].store
  {
    var s := run[i];
    WatchAlways(w, run, labels, i);
    hide IsRun, RepInv, LineageInv, RegisteredOnce, Placed, CauseInv;
    if t :| t in s.sched.pending {
      PendingHasUnresolved(s, t);
      var path := StuckHasCause(s, t);
      assert false;
    }
    forall t | t in s.table.tasks
      ensures s.table.tasks[t].oid in s.store
    {
      InSomePlace(s, t);
      ProducerOfResult(s, t);
      assert Accounted(s, t);
      assert !ToBlame(s, s.table.tasks[t].oid);
    }
  }

  lemma ProducerOfResult(s: State, t: nat)
    requires BaseInv(s) && t in s.table.tasks
    ensures s.table.tasks[t].oid in s.table.producer && s.table.producer[s.table.tasks[t].oid] == t
  {
    hide RepInv, WellFounded, Shapes, Placed;
  }
}
