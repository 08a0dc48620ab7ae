/**
  When resolving the arguments of a ready task cannot block.

  `_flush_ready_tasks` says that by the time a task is ready all its dependencies are
  in the store, so `get_or_wait` returns at once.  That holds exactly as long as nobody
  evicts an object that the scheduler already counts as available.
 */
module ClusterFlush {
  import opened Collections
  import opened Wrappers
  import opened Lineage
  import opened SchedulerSpec
  import opened Cluster
  import opened ClusterOrder
  import opened ClusterPlacement

  /** `o` is counted as available by the ready queue. */
  ghost predicate ReadyNeeds(tb: Table, ready: seq<nat>, o: nat)
  {
    exists t :: t in ready && t in tb.tasks && o in tb.tasks[t].deps
  }

  /** `o` is counted as available by the pending table: some task no longer lists it. */
  ghost predicate PendingNeeds(tb: Table, pending: map<nat, set<nat>>, o: nat)
  {
    exists t :: t in pending && t in tb.tasks && o in tb.tasks[t].deps && o !in pending[t]
  }

  /** `o` is still to be fetched by a flush or a poll, or about to be announced. */
  predicate TokenNeeds(tb: Table, tok: Token, o: nat)
  {
    match tok
    case Preparing(t, got, _, redo) =>
      !redo && t in tb.tasks && |got| <= |DepsOf(tb.tasks[t].call)| && o in DepsOf(tb.tasks[t].call)[|got|..]
    case Retriggering(t, i) => t in tb.tasks && i < |tb.tasks[t].deps| && o == tb.tasks[t].deps[i]
    case Announcing(p) => o == p
    case _ => false
  }

  ghost predicate TokensNeed(tb: Table, tokens: map<nat, Token>, o: nat)
  {
    exists k :: k in tokens && TokenNeeds(tb, tokens[k], o)
  }

  /** Somebody counts on finding `o` in the store. */
  ghost predicate Needs(s: State, o: nat)
  {
    || ReadyNeeds(s.table, s.sched.ready, o)
    || PendingNeeds(s.table, s.sched.pending, o)
    || TokensNeed(s.table, s.tokens, o)
  }

  ghost predicate FlushInv(s: State)
  {
    forall o :: Needs(s, o) ==> o in s.store
  }

  // ------------------------------------------------------- where a need comes from

  lemma ReadyNeedOrigin(w: World, s: State, l: Label, o: nat)
    requires BaseInv(s) && Enabled(s, l) && ReadyNeeds(Next(w, s, l).table, Next(w, s, l).sched.ready, o)
    ensures Needs(s, o) || Announced(s, l) == Some(o)
  {
    var s' := Next(w, s, l);
    var t :| t in s'.sched.ready && t in s'.table.tasks && o in s'.table.tasks[t].deps;
    ReleasedFrom(w, s, l, t);
    hide RepInv, LineageInv, Placed, RegisteredOnce, Moved, DepsOf, Next;
  }

  /** A task in the ready queue after a step was there before, or had no dependencies, or
      waited for nothing but the object the step announces. */
  lemma ReleasedFrom(w: World, s: State, l: Label, t: nat)
    requires BaseInv(s) && Enabled(s, l) && t in Next(w, s, l).sched.ready
    ensures t in s.table.tasks && t in Next(w, s, l).table.tasks && Next(w, s, l).table.tasks[t] == s.table.tasks[t]
    ensures t in s.sched.ready || s.table.tasks[t].deps == []
         || (Announced(s, l).Some? && t in s.sched.pending && s.sched.pending[t] == {Announced(s, l).value})
  {
    SchedStep(w, s, l);
    TableStep(w, s, l);
    hide RepInv, WellFounded, Inverse, Shapes, DistinctIds, IdsBelow, RegisteredOnce, Moved, DepsOf, Registering;
    assert t in s.sched.ready ==> t in Elems(s.sched.ready);
    assert t in s.table.tasks;
    hide Placed;
    if !l.Enqueue? && !l.Pop? {
      hide Next;
    } else {
      hide Announced;
    }
  }

  lemma PendingNeedOrigin(w: World, s: State, l: Label, o: nat)
    requires BaseInv(s) && Enabled(s, l) && PendingNeeds(Next(w, s, l).table, Next(w, s, l).sched.pending, o)
    ensures Needs(s, o) || Announced(s, l) == Some(o)
  {
    var s' := Next(w, s, l);
    var t :| t in s'.sched.pending && t in s'.table.tasks && o in s'.table.tasks[t].deps && o !in s'.sched.pending[t];
    PendingFrom(w, s, l, t, o);
    hide RepInv, LineageInv, Placed, RegisteredOnce, Moved, DepsOf, Next;
  }

  lemma PendingFrom(w: World, s: State, l: Label, t: nat, o: nat)
    requires BaseInv(s) && Enabled(s, l)
    requires var s' := Next(w, s, l);
      t in s'.sched.pending && t in s'.table.tasks && o in s'.table.tasks[t].deps && o !in s'.sched.pending[t]
    ensures t in s.sched.pending && t in s.table.tasks && o in s.table.tasks[t].deps
    ensures o !in s.sched.pending[t] || Announced(s, l) == Some(o)
  {
    hide RepInv, LineageInv, RegisteredOnce, Placed, Next, DepsOf;
    if l.Enqueue? {
      EnqueueLists(w, s, l.k, t, o);
    } else {
      TableStep(w, s, l);
      PendingShrinks(w, s, l);
      PendingIsKnown(s, t);
    }
    hide Enabled, Announced;
  }

  lemma PendingIsKnown(s: State, t: nat)
    requires BaseInv(s) && t in s.sched.pending
    ensures t in s.table.tasks
  {
    hide RepInv, LineageInv, RegisteredOnce, Registering, Elems;
  }

  lemma PendingShrinks(w: World, s: State, l: Label)
    requires BaseInv(s) && Enabled(s, l) && !l.Enqueue?
    ensures var q, q' := s.sched, Next(w, s, l).sched;
      q'.pending == (match Announced(s, l) case Some(d) => Without(q.pending, d) case None => q.pending)
  {
    SchedStep(w, s, l);
    hide RepInv, LineageInv, RegisteredOnce, Placed, NextTokens, DepsOf, OnObjectReady;
  }

  lemma EnqueueLists(w: World, s: State, k: nat, t: nat, o: nat)
    requires BaseInv(s) && Enabled(s, Enqueue(k))
    requires var s' := Next(w, s, Enqueue(k));
      t in s'.sched.pending && t in s'.table.tasks && o in s'.table.tasks[t].deps && o !in s'.sched.pending[t]
    ensures t in s.sched.pending && s.sched.pending[t] == Next(w, s, Enqueue(k)).sched.pending[t]
    ensures t in s.table.tasks && o in s.table.tasks[t].deps
  {
    hide RepInv, LineageInv, RegisteredOnce, DepsOf, Placed, Index;
  }

  lemma MovedNeed(w: World, s: State, l: Label, o: nat)
    requires BaseInv(s) && Enabled(s, l) && MovesToken(l) && Moved(w, s, l).Some?
    requires TokenNeeds(Next(w, s, l).table, Moved(w, s, l).value, o)
    ensures Needs(s, o) || o in Next(w, s, l).store
  {
    hide RepInv, Inverse, DistinctIds, IdsBelow, RegisteredOnce, DepsOf, FillCall, Apply, Registering, PendingNeeds;
    if l.k in s.tokens {
      assert TokenShape(s.nextId, s.table, s.tokens[l.k]);
    }
    hide Shapes;
    match l {
      case Read(k) => ReadNeed(w, s, k, o);
      case Pop(k, dest) => PopNeed(w, s, k, dest, o);
      case Recheck(k) =>
      case _ =>
    }
  }

  lemma ReadNeed(w: World, s: State, k: nat, o: nat)
    requires BaseInv(s) && Enabled(s, Read(k)) && TokenNeeds(s.table, Moved(w, s, Read(k)).value, o)
    ensures Needs(s, o)
  {
    hide BaseInv, DepsOf, ReadyNeeds, PendingNeeds;
    var tok := s.tokens[k];
    var refs, n := ArgRefs(s, tok.t), |tok.got|;
    assert refs[n..] == [refs[n]] + refs[n + 1..];
    assert TokenNeeds(s.table, tok, o);
  }

  lemma PopNeed(w: World, s: State, k: nat, dest: Dest, o: nat)
    requires BaseInv(s) && Enabled(s, Pop(k, dest)) && TokenNeeds(s.table, Moved(w, s, Pop(k, dest)).value, o)
    ensures Needs(s, o)
  {
    hide RepInv, Inverse, DistinctIds, IdsBelow, RegisteredOnce, DepsOf, Placed, TokensNeed, PendingNeeds, Shapes;
    var t := s.sched.ready[0];
    var refs := DepsOf(s.table.tasks[t].call);
    assert refs[0..] == refs;
    assert s.table.tasks[t].deps == refs;
    assert t in s.sched.ready && o in s.table.tasks[t].deps;
  }

  lemma TokenNeedShrinks(tb: Table, tb': Table, tok: Token, o: nat)
    requires Extends(tb, tb') && TokenNeeds(tb', tok, o)
    requires (tok.Preparing? || tok.Retriggering?) ==> tok.t in tb.tasks
    ensures TokenNeeds(tb, tok, o)
  {
    hide DepsOf;
  }

  lemma TokensNeedOrigin(w: World, s: State, l: Label, o: nat)
    requires BaseInv(s) && Enabled(s, l) && TokensNeed(Next(w, s, l).table, Next(w, s, l).tokens, o)
    ensures Needs(s, o) || o in Next(w, s, l).store
  {
    hide RepInv, WellFounded, Inverse, DistinctIds, IdsBelow, RegisteredOnce, DepsOf, Placed, TokenNeeds, Next, Moved,
      Enabled, ReadyNeeds, PendingNeeds;
    var s' := Next(w, s, l);
    var k :| k in s'.tokens && TokenNeeds(s'.table, s'.tokens[k], o);
    TokenOrigin(w, s, l, k);
    TableStep(w, s, l);
    if MovesToken(l) && l.k == k {
      MovedNeed(w, s, l, o);
    } else {
      assert TokenShape(s.nextId, s.table, s.tokens[k]);
      TokenNeedShrinks(s.table, s'.table, s.tokens[k], o);
    }
  }

  /** What a step announces is needed already. */
  lemma AnnouncedIsNeeded(s: State, l: Label)
    requires Enabled(s, l) && Announced(s, l).Some?
    ensures Needs(s, Announced(s, l).value)
  {
    hide ReadyNeeds, PendingNeeds, DepsOf;
    assert TokenNeeds(s.table, s.tokens[l.k], Announced(s, l).value);
  }

  lemma NeedOrigin(w: World, s: State, l: Label, o: nat)
    requires BaseInv(s) && Enabled(s, l) && Needs(Next(w, s, l), o)
    ensures Needs(s, o) || o in Next(w, s, l).store
  {
    hide BaseInv, ReadyNeeds, PendingNeeds, TokensNeed, Next, Enabled, Announced;
    if Announced(s, l).Some? {
      AnnouncedIsNeeded(s, l);
    }
    if ReadyNeeds(Next(w, s, l).table, Next(w, s, l).sched.ready, o) {
      ReadyNeedOrigin(w, s, l, o);
    } else if PendingNeeds(Next(w, s, l).table, Next(w, s, l).sched.pending, o) {
      PendingNeedOrigin(w, s, l, o);
    } else {
      TokensNeedOrigin(w, s, l, o);
    }
  }

  lemma StoreShrinksByEvict(w: World, s: State, l: Label, o: nat)
    requires Enabled(s, l) && o in s.store && o !in Next(w, s, l).store
    ensures l == Evict(o)
  {
    hide NextTokens, DepsOf;
  }

  lemma EvictKeepsNeeds(w: World, s: State, e: nat, o: nat)
    requires Enabled(s, Evict(e))
    ensures Needs(Next(w, s, Evict(e)), o) <==> Needs(s, o)
  {
    hide ReadyNeeds, PendingNeeds, TokensNeed;
  }

  /** The invariant survives every step but one: evicting what somebody counts on. */
  lemma FlushStep(w: World, s: State, l: Label)
    requires BaseInv(s) && FlushInv(s) && Enabled(s, l)
    ensures FlushInv(Next(w, s, l)) <==> !(l.Evict? && Needs(s, l.o))
  {
    hide BaseInv, Needs, Next, Enabled;
    var s' := Next(w, s, l);
    if l.Evict? && Needs(s, l.o) {
      EvictKeepsNeeds(w, s, l.o, l.o);
      EvictRemoves(w, s, l.o);
    } else {
      forall o | Needs(s', o)
        ensures o in s'.store
      {
        NeedOrigin(w, s, l, o);
        if o !in s'.store {
          StoreShrinksByEvict(w, s, l, o);
        }
      }
    }
  }

  lemma EvictRemoves(w: World, s: State, o: nat)
    requires Enabled(s, Evict(o))
    ensures o !in Next(w, s, Evict(o)).store
  {
  }

  /** No eviction in the run takes an object that somebody counts on. */
  ghost predicate CarefulEvictions(run: seq<State>, labels: seq<Label>)
    requires |run| == |labels| + 1
  {
    forall i :: 0 <= i < |labels| && labels[i].Evict? ==> !Needs(run[i], labels[i].o)
  }

  lemma {:induction false} FlushAlways(w: World, run: seq<State>, labels: seq<Label>, i: nat)
    requires IsRun(w, run, labels) && CarefulEvictions(run, labels) && i < |run|
    ensures BaseInv(run[i]) && FlushInv(run[i])
    decreases i
  {
    hide BaseInv, FlushInv, Needs, Next, Enabled;
    BaseAlways(w, run, labels, i);
    if i == 0 {
      InitNeedsNothing();
    } else {
      FlushAlways(w, run, labels, i - 1);
      FlushStep(w, run[i - 1], labels[i - 1]);
    }
  }

  /** Over whole runs: everything anybody counts on is stored at every moment if and only
      if each eviction of the run was careful when it happened. */
  lemma FlushSafeIffCareful(w: World, run: seq<State>, labels: seq<Label>)
    requires IsRun(w, run, labels)
    ensures (forall i :: 0 <= i < |run| ==> FlushInv(run[i])) <==> CarefulEvictions(run, labels)
  {
    hide BaseInv, FlushInv, Needs, Next, Enabled;
    if CarefulEvictions(run, labels) {
      forall i | 0 <= i < |run|
        ensures FlushInv(run[i])
      {
        FlushAlways(w, run, labels, i);
      }
    }
    if forall i :: 0 <= i < |run| ==> FlushInv(run[i]) {
      forall i | 0 <= i < |labels| && labels[i].Evict?
        ensures !Needs(run[i], labels[i].o)
      {
        BaseAlways(w, run, labels, i);
        assert FlushInv(run[i]) && FlushInv(run[i + 1]);
        FlushStep(w, run[i], labels[i]);
      }
    }
  }

  lemma InitNeedsNothing()
    ensures FlushInv(INIT)
  {
  }

  /** A thread that is resolving the arguments of a popped task can go on at once. */
  ghost predicate NotBlocked(s: State, k: nat)
  {
    Enabled(s, Read(k)) || Enabled(s, Send(k))
  }

  lemma NeededReadIsEnabled(s: State, k: nat)
    requires BaseInv(s) && FlushInv(s) && k in s.tokens && s.tokens[k].Preparing? && !s.tokens[k].redo
    requires |s.tokens[k].got| <= |DepsOf(s.table.tasks[s.tokens[k].t].call)|
    ensures NotBlocked(s, k)
  {
    hide RepInv, WellFounded, Inverse, DistinctIds, IdsBelow, RegisteredOnce, DepsOf, Placed, ReadyNeeds,
      PendingNeeds;
    var tok := s.tokens[k];
    assert TokenShape(s.nextId, s.table, tok);
    var refs := ArgRefs(s, tok.t);
    if |tok.got| < |refs| {
      assert refs[|tok.got|..][0] == refs[|tok.got|];
      assert TokenNeeds(s.table, tok, refs[|tok.got|]);
      assert Needs(s, refs[|tok.got|]);
    }
  }

  /**
    Flush never blocks.  In every run whose evictions are careful, every thread that is
    resolving the arguments of a task popped by a flush or a poll finds its next
    reference in the store.
   */
  lemma FlushNeverBlocks(w: World, run: seq<State>, labels: seq<Label>, i: nat, k: nat)
    requires IsRun(w, run, labels) && CarefulEvictions(run, labels) && i < |run|
    requires k in run[i].tokens && run[i].tokens[k].Preparing? && !run[i].tokens[k].redo
    ensures NotBlocked(run[i], k)
  {
    FlushAlways(w, run, labels, i);
    OrderAlways(w, run, labels, i);
    hide IsRun, CarefulEvictions, RepInv, LineageInv, Placed, RegisteredOnce, DepsOf, Needs, NotBlocked;
    assert TokenOrdered(run[i].table, run[i].sent, run[i].tokens[k]);
    NeededReadIsEnabled(run[i], k);
  }

  // ------------------------------------------------------- when a flush blocks

  /** The reference a thread resolving arguments reads next. */
  function NextRef(s: State, k: nat): nat
    requires OfTask(s, k) && s.tokens[k].Preparing? && |s.tokens[k].got| < |ArgRefs(s, s.tokens[k].t)|
  {
    ArgRefs(s, s.tokens[k].t)[|s.tokens[k].got|]
  }

  /** Step `j` evicted `o` while somebody counted on it, and up to `i` it has not come back. */
  ghost predicate EvictedSince(run: seq<State>, labels: seq<Label>, j: nat, i: nat, o: nat)
    requires |run| == |labels| + 1 && i < |run|
  {
    && j < i && labels[j] == Evict(o) && Needs(run[j], o)
    && forall m :: j < m <= i ==> o !in run[m].store
  }

  /** Whatever somebody counts on and is missing was evicted while somebody counted on it. */
  lemma {:induction false} MissingWasEvicted(w: World, run: seq<State>, labels: seq<Label>, i: nat, o: nat)
    returns (j: nat)
    requires IsRun(w, run, labels) && i < |run| && Needs(run[i], o) && o !in run[i].store
    ensures EvictedSince(run, labels, j, i, o)
    decreases i
  {
    hide BaseInv, Needs, Next, Enabled;
    if i == 0 {
      InitNeedsNothing();
      assert false;
    }
    BaseAlways(w, run, labels, i - 1);
    NeedOrigin(w, run[i - 1], labels[i - 1], o);
    if o in run[i - 1].store {
      StoreShrinksByEvict(w, run[i - 1], labels[i - 1], o);
      j := i - 1;
    } else {
      j := MissingWasEvicted(w, run, labels, i - 1, o);
    }
  }

  lemma NextRefIsNeeded(s: State, k: nat)
    requires OfTask(s, k) && s.tokens[k].Preparing? && !s.tokens[k].redo
    requires |s.tokens[k].got| < |ArgRefs(s, s.tokens[k].t)|
    ensures Needs(s, NextRef(s, k))
    ensures NotBlocked(s, k) <==> NextRef(s, k) in s.store
  {
    hide DepsOf, ReadyNeeds, PendingNeeds;
    var o := NextRef(s, k);
    assert o in ArgRefs(s, s.tokens[k].t)[|s.tokens[k].got|..];
    assert TokenNeeds(s.table, s.tokens[k], o);
  }

  /**
    When a flush blocks, exactly.  A thread that is resolving the arguments of a task
    popped by a flush or a poll cannot go on if and only if there is a reference left and
    the next one was evicted while somebody counted on it and has not been stored since.
   */
  lemma BlockedIffEvicted(w: World, run: seq<State>, labels: seq<Label>, i: nat, k: nat)
    requires IsRun(w, run, labels) && i < |run|
    requires k in run[i].tokens && run[i].tokens[k].Preparing? && !run[i].tokens[k].redo
    ensures OfTask(run[i], k) && |run[i].tokens[k].got| <= |ArgRefs(run[i], run[i].tokens[k].t)|
    ensures !NotBlocked(run[i], k) <==>
      && |run[i].tokens[k].got| < |ArgRefs(run[i], run[i].tokens[k].t)|
      && exists j :: EvictedSince(run, labels, j, i, NextRef(run[i], k))
  {
    PreparingShape(w, run, labels, i, k);
    hide IsRun, Needs, BaseInv, DepsOf;
    var s := run[i];
    if |s.tokens[k].got| < |ArgRefs(s, s.tokens[k].t)| {
      NextRefIsNeeded(s, k);
      hide NotBlocked;
      if NextRef(s, k) !in s.store {
        var j := MissingWasEvicted(w, run, labels, i, NextRef(s, k));
      }
    }
  }

  lemma PreparingShape(w: World, run: seq<State>, labels: seq<Label>, i: nat, k: nat)
    requires IsRun(w, run, labels) && i < |run| && k in run[i].tokens && run[i].tokens[k].Preparing?
    ensures OfTask(run[i], k) && |run[i].tokens[k].got| <= |ArgRefs(run[i], run[i].tokens[k].t)|
  {
    OrderAlways(w, run, labels, i);
    hide IsRun, RepInv, WellFounded, Inverse, DistinctIds, IdsBelow, RegisteredOnce, Placed, DepsOf;
    assert TokenShape(run[i].nextId, run[i].table, run[i].tokens[k]);
    assert TokenOrdered(run[i].table, run[i].sent, run[i].tokens[k]);
  }
}
