/**
  The head drains.

  Between two actions of its clients the head cannot run for ever and cannot get
  stuck: every step of its own makes a measure smaller, and while anything is in
  somebody's hands or ready some step is enabled.  So every run that is continued as
  far as it goes ends in a quiescent state, where only failures and lost connections
  leave tasks pending.
 */
module ClusterProgress {
  import opened Collections
  import opened Wrappers
  import opened Lineage
  import opened SchedulerSpec
  import opened Cluster
  import opened ClusterPlacement
  import opened ClusterOrder
  import opened ClusterCause
  import opened ClusterOnce
  import opened ClusterFlush

  /** The steps the runtime takes by itself, as opposed to what clients do, connections
      closing, evictions and reconstructions. */
  predicate Internal(l: Label)
  {
    !l.Begin? && !l.TakeId? && !l.Close? && !l.Evict? && !l.Redo?
  }

  // ------------------------------------------------------- sums

  ghost function Sum(m: map<nat, nat>): nat
    decreases |m|
  {
    if m == map[] then 0
    else
      var k :| k in m;
      m[k] + Sum(m - {k})
  }

  lemma {:induction false} SumRemove(m: map<nat, nat>, k: nat)
    requires k in m
    ensures Sum(m) == m[k] + Sum(m - {k})
    decreases |m|
  {
    var j :| j in m && Sum(m) == m[j] + Sum(m - {j});
    if j != k {
      SumRemove(m - {j}, k);
      SumRemove(m - {k}, j);
      assert m - {j} - {k} == m - {k} - {j};
    }
  }

  lemma SumUpdate(m: map<nat, nat>, k: nat, n: nat)
    ensures Sum(m[k := n]) == n + Sum(m - {k})
    ensures k !in m ==> Sum(m[k := n]) == n + Sum(m)
    ensures k in m ==> Sum(m[k := n]) + m[k] == n + Sum(m)
  {
    SumRemove(m[k := n], k);
    assert m[k := n] - {k} == m - {k};
    if k in m {
      SumRemove(m, k);
    } else {
      assert m - {k} == m;
    }
  }

  // ------------------------------------------------------- the measure

  function Arity(tb: Table, t: nat): nat
  {
    if t in tb.tasks then |DepsOf(tb.tasks[t].call)| else 0
  }

  /** An upper bound on the steps a token still has before it, including those of the
      task it will bring into the scheduler. */
  function Weight(tb: Table, tok: Token): nat
  {
    match tok
    case Submitting(call, t) => 3 * |DepsOf(call)| + 11
    case Registered(t) => 3 * Arity(tb, t) + 10
    case Rechecking(t, i) => (if i <= Arity(tb, t) then 2 * (Arity(tb, t) - i) else 0) + 1
    case Retriggering(t, i) => if i <= Arity(tb, t) then 2 * (Arity(tb, t) - i) else 0
    case Preparing(t, got, _, _) => (if |got| <= Arity(tb, t) then Arity(tb, t) - |got| else 0) + 5
    case Job(_, _, _, running) => if running then 3 else 4
    case Result(_, _, _) => 2
    case Announcing(_) => 1
  }

  function TokenWeights(tb: Table, tokens: map<nat, Token>): map<nat, nat>
  {
    map k | k in tokens :: Weight(tb, tokens[k])
  }

  function Unpopped(q: Sched): set<nat>
  {
    q.pending.Keys + Elems(q.ready)
  }

  function TaskWeights(tb: Table, ts: set<nat>): map<nat, nat>
  {
    map t | t in ts :: Arity(tb, t) + 6
  }

  ghost function Measure(s: State): nat
  {
    Sum(TokenWeights(s.table, s.tokens)) + Sum(TaskWeights(s.table, Unpopped(s.sched)))
  }

  // ------------------------------------------------------- every internal step shrinks it

  lemma MovedWeight(tb: Table, tokens: map<nat, Token>, k: nat, tok: Option<Token>)
    ensures
      var tokens' := if tok.Some? then tokens[k := tok.value] else tokens - {k};
      Sum(TokenWeights(tb, tokens')) + (if k in tokens then Weight(tb, tokens[k]) else 0)
      == Sum(TokenWeights(tb, tokens)) + (if tok.Some? then Weight(tb, tok.value) else 0)
  {
    var m := TokenWeights(tb, tokens);
    if tok.Some? {
      assert TokenWeights(tb, tokens[k := tok.value]) == m[k := Weight(tb, tok.value)];
      SumUpdate(m, k, Weight(tb, tok.value));
    } else {
      assert TokenWeights(tb, tokens - {k}) == m - {k};
      if k in tokens {
        SumRemove(m, k);
      } else {
        assert m - {k} == m;
      }
    }
  }

  lemma TaskWeightsAdd(tb: Table, ts: set<nat>, t: nat)
    requires t !in ts
    ensures Sum(TaskWeights(tb, ts + {t})) == Sum(TaskWeights(tb, ts)) + Arity(tb, t) + 6
  {
    var m := TaskWeights(tb, ts);
    assert TaskWeights(tb, ts + {t}) == m[t := Arity(tb, t) + 6];
    SumUpdate(m, t, Arity(tb, t) + 6);
  }

  /** How the set of unpopped tasks changes. */
  lemma UnpoppedChange(w: World, s: State, l: Label)
    requires BaseInv(s) && Enabled(s, l)
    ensures var u, u' := Unpopped(s.sched), Unpopped(Next(w, s, l).sched);
      match l
      case Enqueue(k) => s.tokens[k].t !in u && u' == u + {s.tokens[k].t}
      case Pop(_, _) => s.sched.ready[0] !in u' && u == u' + {s.sched.ready[0]}
      case _ => u' == u
  {
    hide LineageInv, RegisteredOnce, DepsOf, Registering;
    if l.Enqueue? {
      EnqueueUnpopped(w, s, l.k);
    } else if l.Pop? {
      PopUnpopped(w, s, l.k, l.dest);
    } else {
      SchedStep(w, s, l);
      hide Next;
      if l.Retrigger? || l.Announce? {
        AnnounceUnpopped(w, s, l);
      }
      hide RepInv, Announced;
    }
  }

  lemma AnnounceUnpopped(w: World, s: State, l: Label)
    requires BaseInv(s) && Enabled(s, l) && Announced(s, l).Some?
    ensures Unpopped(Next(w, s, l).sched) == Unpopped(s.sched)
  {
    hide LineageInv, RegisteredOnce, Placed, DepsOf;
    SchedStep(w, s, l);
    assert Next(w, s, l).table == s.table;
    hide Next, RepInv;
    AnnounceKeepsUnion(s, Next(w, s, l).sched, Announced(s, l).value);
  }

  lemma EnqueueUnpopped(w: World, s: State, k: nat)
    requires BaseInv(s) && Enabled(s, Enqueue(k))
    ensures s.tokens[k].t !in Unpopped(s.sched)
    ensures Unpopped(Next(w, s, Enqueue(k)).sched) == Unpopped(s.sched) + {s.tokens[k].t}
  {
    hide LineageInv, RepInv, RegisteredOnce, DepsOf, Index, NextTokens;
    assert s.tokens[k].t in Registering(s.tokens);
    hide Registering;
  }

  lemma PopUnpopped(w: World, s: State, k: nat, dest: Dest)
    requires BaseInv(s) && Enabled(s, Pop(k, dest))
    ensures s.sched.ready[0] !in Unpopped(Next(w, s, Pop(k, dest)).sched)
    ensures Unpopped(s.sched) == Unpopped(Next(w, s, Pop(k, dest)).sched) + {s.sched.ready[0]}
  {
    hide LineageInv, RegisteredOnce, DepsOf, NextTokens, Placed, Elems;
    PopKeepsRepInv(s.sched, DepsMap(s.table));
    hide RepInv;
    ElemsPop(s.sched.ready);
    hide Next;
    assert s.sched.ready[0] !in s.sched.pending.Keys;
    assert Next(w, s, Pop(k, dest)).sched == SchedulerSpec.Pop(s.sched) by { PopSched(w, s, k, dest); }
  }

  lemma PopSched(w: World, s: State, k: nat, dest: Dest)
    requires Enabled(s, Pop(k, dest))
    ensures Next(w, s, Pop(k, dest)).sched == SchedulerSpec.Pop(s.sched)
  {
    hide NextTokens, DepsOf;
  }

  /** How much weight the token a step is about must lose: what its task brings along. */
  function Brings(s: State, l: Label): nat
    requires Enabled(s, l)
  {
    if l.Enqueue? then Arity(s.table, s.tokens[l.k].t) + 6 else 0
  }

  function WeightOf(tb: Table, tok: Option<Token>): nat
  {
    match tok case None => 0 case Some(x) => Weight(tb, x)
  }

  /** The turns of the pass over the dependencies. */
  lemma PassLosesWeight(w: World, s: State, l: Label)
    requires BaseInv(s) && Enabled(s, l) && (l.Recheck? || l.Retrigger?)
    ensures l.k in s.tokens
    ensures WeightOf(s.table, Moved(w, s, l)) < Weight(s.table, s.tokens[l.k])
  {
    hide RepInv, Inverse, DistinctIds, IdsBelow, RegisteredOnce, DepsOf, Placed, Shapes;
    assert s.table.tasks[s.tokens[l.k].t].deps == DepsOf(s.table.tasks[s.tokens[l.k].t].call);
    hide WellFounded;
  }

  /** The token a step is about loses weight, by at least what its task brings along. */
  lemma TokenLosesWeight(w: World, s: State, l: Label)
    requires BaseInv(s) && Enabled(s, l) && Internal(l) && !l.Pop? && !l.Register?
    ensures l.k in s.tokens
    ensures WeightOf(s.table, Moved(w, s, l)) + Brings(s, l) < Weight(s.table, s.tokens[l.k])
  {
    if l.Recheck? || l.Retrigger? {
      hide *;
      PassLosesWeight(w, s, l);
      NothingBrought(s, l);
    } else {
      hide RepInv, Inverse, DistinctIds, IdsBelow, RegisteredOnce, DepsOf, Placed, Apply, FillCall, WellFounded;
      assert TokenShape(s.nextId, s.table, s.tokens[l.k]);
      hide Shapes;
    }
  }

  lemma NothingBrought(s: State, l: Label)
    requires Enabled(s, l) && !l.Enqueue?
    ensures Brings(s, l) == 0
  {
  }

  lemma OrdinaryShrinks(w: World, s: State, l: Label)
    requires BaseInv(s) && Enabled(s, l) && Internal(l) && !l.Pop? && !l.Register?
    ensures Measure(Next(w, s, l)) < Measure(s)
  {
    hide BaseInv, DepsOf, Weight, TokenWeights, Sum, TaskWeights, Unpopped, Moved, Arity;
    var s' := Next(w, s, l);
    UnpoppedChange(w, s, l);
    TokenLosesWeight(w, s, l);
    MovedWeight(s.table, s.tokens, l.k, Moved(w, s, l));
    assert s'.table == s.table;
    if l.Enqueue? {
      TaskWeightsAdd(s.table, Unpopped(s.sched), s.tokens[l.k].t);
    }
    assert s'.tokens == if Moved(w, s, l).Some? then s.tokens[l.k := Moved(w, s, l).value] else s.tokens - {l.k};
    hide Next, Enabled;
  }

  lemma PopShrinks(w: World, s: State, k: nat, dest: Dest)
    requires BaseInv(s) && Enabled(s, Pop(k, dest))
    ensures Measure(Next(w, s, Pop(k, dest))) < Measure(s)
  {
    hide BaseInv, DepsOf, TokenWeights, Sum, TaskWeights, Unpopped, Arity;
    var t, s' := s.sched.ready[0], Next(w, s, Pop(k, dest));
    UnpoppedChange(w, s, Pop(k, dest));
    MovedWeight(s.table, s.tokens, k, Some(Preparing(t, [], dest, false)));
    TaskWeightsAdd(s.table, Unpopped(s'.sched), t);
    assert s'.table == s.table;
  }

  lemma RegisterShrinks(w: World, s: State, k: nat)
    requires BaseInv(s) && Enabled(s, Register(k))
    ensures Measure(Next(w, s, Register(k))) < Measure(s)
  {
    hide RepInv, RegisteredOnce, Placed, DepsOf, WellFounded, Inverse, TokenWeights, Sum, TaskWeights, Unpopped,
      DistinctIds, IdsBelow;
    var s', tok := Next(w, s, Register(k)), s.tokens[k];
    UnpoppedChange(w, s, Register(k));
    assert TokenShape(s.nextId, s.table, tok);
    MovedWeight(s.table, s.tokens, k, Some(Registered(tok.t)));
    MovedWeight(s'.table, s.tokens, k, Some(Registered(tok.t)));
    WeightsKept(w, s, k);
    assert Arity(s'.table, tok.t) == |DepsOf(tok.call)|;
    assert s'.tokens == s.tokens[k := Registered(tok.t)];
    hide Next, Shapes, Arity;
  }

  lemma WeightsKept(w: World, s: State, k: nat)
    requires BaseInv(s) && Enabled(s, Register(k))
    ensures var tb' := Next(w, s, Register(k)).table;
      && TokenWeights(tb', s.tokens) == TokenWeights(s.table, s.tokens)
      && TaskWeights(tb', Unpopped(s.sched)) == TaskWeights(s.table, Unpopped(s.sched))
  {
    hide RepInv, RegisteredOnce, DepsOf, WellFounded, Inverse, DistinctIds, IdsBelow, Registering, Weight, Arity;
    var t, tb' := s.tokens[k].t, Next(w, s, Register(k)).table;
    assert TokenShape(s.nextId, s.table, s.tokens[k]);
    assert t !in Unpopped(s.sched);
    hide Placed;
    TableStep(w, s, Register(k));
    hide Next;
    forall k' | k' in s.tokens
      ensures Weight(tb', s.tokens[k']) == Weight(s.table, s.tokens[k'])
    {
      assert TokenShape(s.nextId, s.table, s.tokens[k']);
      SameWeight(s.nextId, s.table, tb', s.tokens[k']);
    }
    hide Shapes;
    forall u | u in Unpopped(s.sched)
      ensures Arity(tb', u) == Arity(s.table, u)
    {
      UnpoppedIsKnown(s, u);
      SameArity(s.table, tb', u);
    }
  }

  lemma SameArity(tb: Table, tb': Table, t: nat)
    requires Extends(tb, tb') && t in tb.tasks
    ensures Arity(tb', t) == Arity(tb, t)
  {
  }

  lemma SameWeight(n: nat, tb: Table, tb': Table, tok: Token)
    requires TokenShape(n, tb, tok) && Extends(tb, tb')
    ensures Weight(tb', tok) == Weight(tb, tok)
  {
    hide DepsOf;
  }

  lemma UnpoppedIsKnown(s: State, t: nat)
    requires BaseInv(s) && t in Unpopped(s.sched)
    ensures t in s.table.tasks
  {
    hide LineageInv, RepInv, RegisteredOnce, Registering, Elems;
  }

  /** Every step of its own brings the runtime closer to rest. */
  lemma InternalStepShrinks(w: World, s: State, l: Label)
    requires BaseInv(s) && Enabled(s, l) && Internal(l)
    ensures Measure(Next(w, s, l)) < Measure(s)
  {
    hide BaseInv, Enabled, Next, Measure;
    match l {
      case Pop(k, dest) => PopShrinks(w, s, k, dest);
      case Register(k) => RegisterShrinks(w, s, k);
      case _ => OrdinaryShrinks(w, s, l);
    }
  }

  /** So between two outside actions the runtime takes a bounded number of steps: from the
      i-th state of any run, at most `Measure` internal steps in a row. */
  lemma {:induction false} InternalStepsAreBounded(w: World, run: seq<State>, labels: seq<Label>, i: nat, n: nat)
    requires IsRun(w, run, labels) && i + n < |run|
    requires forall j :: i <= j < i + n ==> Internal(labels[j])
    ensures Measure(run[i + n]) + n <= Measure(run[i])
    decreases n
  {
    hide BaseInv, Enabled, Next, Measure, Internal, INIT;
    if n > 0 {
      InternalStepsAreBounded(w, run, labels, i, n - 1);
      BaseAlways(w, run, labels, i + n - 1);
      InternalStepShrinks(w, run[i + n - 1], labels[i + n - 1]);
    }
  }

  // ------------------------------------------------------- some step is enabled

  lemma PreparingCanMove(s: State, k: nat) returns (l: Label)
    requires BaseInv(s) && HeadInv(s) && FlushInv(s) && TokensOrdered(s.table, s.sent, s.tokens)
    requires k in s.tokens && s.tokens[k].Preparing?
    ensures Internal(l) && !l.Pop? && Enabled(s, l)
  {
    hide RepInv, WellFounded, Inverse, DistinctIds, IdsBelow, RegisteredOnce, DepsOf, Placed, FlushInv, CarriedOnce,
      PoppedSplit, SentOnce, LostByClosed;
    var tok := s.tokens[k];
    assert TokenShape(s.nextId, s.table, tok);
    assert TokenOrdered(s.table, s.sent, tok) && TokenHonest(s.popper, s.sent, tok);
    hide TokensOrdered, TokensHonest, Shapes;
    NeededReadIsEnabled(s, k);
    l := if |tok.got| < |ArgRefs(s, tok.t)| then Read(k) else Send(k);
  }

  lemma OtherCanMove(s: State, k: nat) returns (l: Label)
    requires BaseInv(s) && k in s.tokens && !s.tokens[k].Preparing?
    ensures Internal(l) && !l.Pop? && Enabled(s, l)
  {
    hide RepInv, WellFounded, Inverse, DistinctIds, IdsBelow, RegisteredOnce, DepsOf, Placed;
    assert TokenShape(s.nextId, s.table, s.tokens[k]);
    hide Shapes;
    match s.tokens[k] {
      case Submitting(_, _) => l := Register(k);
      case Registered(_) => l := Enqueue(k);
      case Rechecking(t, i) => l := if i < |s.table.tasks[t].deps| then Recheck(k) else EndSubmit(k);
      case Retriggering(_, _) => l := Retrigger(k);
      case Job(_, _, _, running) => l := if running then Finish(k) else Start(k);
      case Result(_, _, _) => l := Put(k);
      case Announcing(_) => l := Announce(k);
    }
  }

  /** In a state of a head run, anything in somebody's hands can move on. */
  lemma TokenCanMove(s: State, k: nat) returns (l: Label)
    requires BaseInv(s) && HeadInv(s) && FlushInv(s) && TokensOrdered(s.table, s.sent, s.tokens) && k in s.tokens
    ensures Internal(l) && !l.Pop? && Enabled(s, l)
  {
    hide *;
    if s.tokens[k].Preparing? {
      l := PreparingCanMove(s, k);
    } else {
      l := OtherCanMove(s, k);
    }
  }

  lemma HeadIsCareful(run: seq<State>, labels: seq<Label>)
    requires |run| == |labels| + 1 && HeadRun(labels)
    ensures CarefulEvictions(run, labels)
  {
  }

  /** What a head with its nodes does by itself: `takers` are those who take tasks, the
      local workers if the head has any, and the nodes that poll. */
  predicate OwnStep(takers: set<Dest>, l: Label)
  {
    Internal(l) && (l.Pop? ==> l.dest in takers)
  }

  /** Deadlock freedom: while anything is in somebody's hands, or ready and there is
      somebody to take it, a step of the head and its nodes is enabled. */
  lemma HeadProgress(w: World, run: seq<State>, labels: seq<Label>, i: nat, takers: set<Dest>) returns (l: Label)
    requires IsRun(w, run, labels) && HeadRun(labels) && i < |run|
    requires run[i].tokens != map[] || (run[i].sched.ready != [] && takers != {})
    ensures OwnStep(takers, l) && Enabled(run[i], l)
  {
    hide BaseInv, FlushInv, HeadRun, CarefulEvictions;
    var s := run[i];
    HeadIsCareful(run, labels);
    FlushAlways(w, run, labels, i);
    HeadAlways(w, run, labels, i);
    OrderAlways(w, run, labels, i);
    hide IsRun;
    if s.tokens != map[] {
      var k :| k in s.tokens;
      l := TokenCanMove(s, k);
    } else {
      var dest :| dest in takers;
      l := Pop(0, dest);
    }
  }

  /** No stored object is a `_TaskError` and no connection took a task down. */
  ghost predicate NoFailures(s: State)
  {
    && (forall o :: o in s.store ==> !s.store[o].TaskError?)
    && s.lost == {}
  }

  /** Nothing is pending and the object of every submitted task is stored. */
  ghost predicate AllExecuted(s: State)
  {
    && s.sched.pending == map[]
    && forall t :: t in s.table.tasks ==> s.table.tasks[t].oid in s.store
  }

  /**
    The head drains.  Where a run of the head cannot be continued without its clients,
    nothing is in anybody's hands; it is quiescent if there is anybody to take tasks, and
    otherwise exactly if nothing is ready; and if it is quiescent and nothing failed, every
    submitted task has been executed.
   */
  lemma HeadDrains(w: World, run: seq<State>, labels: seq<Label>, s: State, takers: set<Dest>)
    requires IsRun(w, run, labels) && HeadRun(labels) && s == run[|labels|]
    requires forall l :: OwnStep(takers, l) ==> !Enabled(s, l)
    ensures s.tokens == map[] && (takers != {} ==> Quiescent(s))
    ensures Quiescent(s) <==> s.sched.ready == []
    ensures Quiescent(s) && NoFailures(s) ==> AllExecuted(s)
  {
    if s.tokens != map[] || (s.sched.ready != [] && takers != {}) {
      var l := HeadProgress(w, run, labels, |labels|, takers);
      assert false;
    }
    if Quiescent(s) && NoFailures(s) {
      NothingEvicted(w, run, labels, |labels|);
      NoFailureNothingPending(w, run, labels, |labels|);
    }
  }

  /** In a quiescent state of the head in which no task was lost with a connection, a
      pending task has an ancestor that failed: there is no other cause. */
  lemma HeadStuckHasFailedAncestor(w: World, run: seq<State>, labels: seq<Label>, i: nat, t: nat)
    returns (path: seq<nat>)
    requires IsRun(w, run, labels) && HeadRun(labels) && i < |run|
    requires Quiescent(run[i]) && run[i].lost == {} && t in run[i].sched.pending
    ensures path != [] && Ancestry(run[i].table, t, path)
    ensures path[|path| - 1] in run[i].store && run[i].store[path[|path| - 1]].TaskError?
  {
    path := NothingStuckWithoutCause(w, run, labels, i, t);
    NothingEvicted(w, run, labels, i);
    HeadExactlyOnce(w, run, labels, i);
    hide IsRun, InOnePlace, Ancestry, NoRepeats;
  }

  lemma {:induction false} NothingEvicted(w: World, run: seq<State>, labels: seq<Label>, i: nat)
    requires IsRun(w, run, labels) && HeadRun(labels) && i < |run|
    ensures run[i].evicted == {}
    decreases i
  {
    if i > 0 {
      NothingEvicted(w, run, labels, i - 1);
      EvictedSame(w, run[i - 1], labels[i - 1]);
    }
  }

  lemma EvictedSame(w: World, s: State, l: Label)
    requires Enabled(s, l) && !l.Evict?
    ensures Next(w, s, l).evicted == s.evicted
  {
    hide NextTokens, DepsOf;
  }
}
