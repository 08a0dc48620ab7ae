/**
  Placement: through every step, each registered task is in exactly one of "on its
  way to the scheduler", pending, ready, popped, and the scheduler's tables stay
  consistent.
 */
module ClusterPlacement {
  import opened Collections
  import opened Wrappers
  import opened Lineage
  import opened SchedulerSpec
  import opened Cluster

  /** The object a step announces to the scheduler. */
  function Announced(s: State, l: Label): Option<nat>
    requires Enabled(s, l)
  {
    match l
    case Retrigger(k) => Some(s.table.tasks[s.tokens[k].t].deps[s.tokens[k].i])
    case Announce(k) => Some(s.tokens[k].o)
    case _ => None
  }

  /** What a step does to the scheduler, case by case. */
  lemma SchedStep(w: World, s: State, l: Label)
    requires BaseInv(s) && Enabled(s, l)
    ensures RepInv(Next(w, s, l).sched, DepsMap(Next(w, s, l).table))
    ensures var q, q' := s.sched, Next(w, s, l).sched;
      match Announced(s, l)
      case Some(d) =>
        && q'.pending == Without(q.pending, d)
        && q.ready <= q'.ready
        && (forall t :: t in q'.ready <==> t in q.ready || (t in q.pending && q.pending[t] == {d}))
      case None => l.Enqueue? || l.Pop? || q' == q
  {
    hide WellFounded, Inverse, DepsOf, RepInv, OnObjectReady, Submit, Placed, Shapes, DistinctIds, IdsBelow,
      NextTokens, RegisteredOnce;
    match l {
      case Register(k) => RegisterRep(w, s, k);
      case Enqueue(k) => EnqueueRep(w, s, k);
      case Retrigger(k) =>
        OnObjectReadyEffect(s.sched, DepsMap(s.table), s.table.tasks[s.tokens[k].t].deps[s.tokens[k].i]);
      case Announce(k) =>
        OnObjectReadyEffect(s.sched, DepsMap(s.table), s.tokens[k].o);
      case Pop(k, dest) =>
        PopKeepsRepInv(s.sched, DepsMap(s.table));
      case _ =>
    }
  }

  lemma RegisterRep(w: World, s: State, k: nat)
    requires BaseInv(s) && Enabled(s, Register(k))
    ensures RepInv(s.sched, DepsMap(Next(w, s, Register(k)).table))
  {
    var s' := Next(w, s, Register(k));
    TableStep(w, s, Register(k));
    hide WellFounded, Inverse, RepInv, Placed, DepsOf, Next;
    RepInvGrows(s.sched, DepsMap(s.table), DepsMap(s'.table));
  }

  lemma EnqueueRep(w: World, s: State, k: nat)
    requires BaseInv(s) && Enabled(s, Enqueue(k))
    ensures RepInv(Next(w, s, Enqueue(k)).sched, DepsMap(s.table))
  {
    var t := s.tokens[k].t;
    assert t in Registering(s.tokens);
    hide WellFounded, Inverse, RepInv, DepsOf;
    SubmitKeepsRepInv(s.sched, DepsMap(s.table), t);
  }

  // ------------------------------------------------------- token and set bookkeeping

  lemma RegisteringSame(tokens: map<nat, Token>, k: nat, tok: Option<Token>)
    requires k in tokens ==> !tokens[k].Registered?
    requires tok.Some? ==> !tok.value.Registered?
    ensures Registering(if tok.Some? then tokens[k := tok.value] else tokens - {k}) == Registering(tokens)
  {
    var tokens' := if tok.Some? then tokens[k := tok.value] else tokens - {k};
    forall u | u in Registering(tokens)
      ensures u in Registering(tokens')
    {
      var k' :| k' in tokens && tokens[k'].Registered? && tokens[k'].t == u;
      assert tokens'[k'].t == u;
    }
  }

  lemma RegisteringGains(tokens: map<nat, Token>, k: nat, t: nat)
    requires k in tokens ==> !tokens[k].Registered?
    ensures Registering(tokens[k := Registered(t)]) == Registering(tokens) + {t}
  {
    var tokens' := tokens[k := Registered(t)];
    assert tokens'[k].t == t;
    forall u | u in Registering(tokens)
      ensures u in Registering(tokens')
    {
      var k' :| k' in tokens && tokens[k'].Registered? && tokens[k'].t == u;
      assert tokens'[k'].t == u;
    }
  }

  lemma RegisteringLoses(tokens: map<nat, Token>, k: nat, tok: Token)
    requires RegisteredOnce(tokens) && k in tokens && tokens[k].Registered? && !tok.Registered?
    ensures Registering(tokens[k := tok]) == Registering(tokens) - {tokens[k].t}
    ensures tokens[k].t in Registering(tokens)
  {
    var tokens' := tokens[k := tok];
    forall u | u in Registering(tokens) && u != tokens[k].t
      ensures u in Registering(tokens')
    {
      var k' :| k' in tokens && tokens[k'].Registered? && tokens[k'].t == u;
      assert tokens'[k'].t == u;
    }
  }

  // ------------------------------------------------------- placement

  lemma RegisterPlaced(w: World, s: State, k: nat)
    requires BaseInv(s) && Enabled(s, Register(k))
    ensures Placed(Next(w, s, Register(k)))
  {
    var t, s' := s.tokens[k].t, Next(w, s, Register(k));
    assert t !in s.table.tasks by { assert TokenShape(s.nextId, s.table, s.tokens[k]); }
    hide LineageInv, RepInv, DepsOf, RegisteredOnce;
    RegisteringGains(s.tokens, k, t);
    PartitionNew(s.table.tasks.Keys, Registering(s.tokens), s.sched.pending.Keys, Elems(s.sched.ready), s.popper.Keys,
                 t);
    assert s'.table.tasks.Keys == s.table.tasks.Keys + {t};
    hide Partition, Registering, Elems;
  }

  lemma EnqueuePlaced(w: World, s: State, k: nat)
    requires BaseInv(s) && Enabled(s, Enqueue(k))
    ensures Placed(Next(w, s, Enqueue(k)))
  {
    hide LineageInv, RepInv, DepsOf, Index;
    var t, s' := s.tokens[k].t, Next(w, s, Enqueue(k));
    RegisteringLoses(s.tokens, k, Rechecking(t, 0));
    PartitionLeave(s.table.tasks.Keys, Registering(s.tokens), s.sched.pending.Keys, Elems(s.sched.ready), s.popper.Keys,
                   t);
    if s.table.tasks[t].deps == [] {
      assert s'.sched.pending == s.sched.pending;
      assert Elems(s'.sched.ready) == Elems(s.sched.ready) + {t};
    } else {
      assert s'.sched.pending.Keys == s.sched.pending.Keys + {t};
      assert s'.sched.ready == s.sched.ready;
    }
    hide Partition, Registering, Elems, RegisteredOnce;
  }

  lemma AnnouncePlaced(w: World, s: State, l: Label)
    requires BaseInv(s) && Enabled(s, l) && Announced(s, l).Some?
    ensures Placed(Next(w, s, l))
  {
    var s' := Next(w, s, l);
    SchedStep(w, s, l);
    RegisteringSame(s.tokens, l.k, Moved(w, s, l));
    assert s'.table == s.table && s'.popper == s.popper && Registering(s'.tokens) == Registering(s.tokens);
    AnnounceKeepsUnion(s, s'.sched, Announced(s, l).value);
    hide Next, Registering, LineageInv, RepInv, Announced, Enabled, RegisteredOnce, Elems;
    PartitionAnnounce(s.table.tasks.Keys, Registering(s.tokens), s.sched.pending.Keys, Elems(s.sched.ready),
                      s.popper.Keys, s'.sched.pending.Keys, Elems(s'.sched.ready));
    hide Partition;
  }

  lemma AnnounceKeepsUnion(s: State, q': Sched, d: nat)
    requires RepInv(s.sched, DepsMap(s.table)) && RepInv(q', DepsMap(s.table))
    requires q'.pending == Without(s.sched.pending, d)
    requires forall t :: t in q'.ready <==> t in s.sched.ready || (t in s.sched.pending && s.sched.pending[t] == {d})
    ensures s.sched.pending.Keys + Elems(s.sched.ready) == q'.pending.Keys + Elems(q'.ready)
    ensures q'.pending.Keys !! Elems(q'.ready)
  {
    hide IndexInv, NoRepeats;
  }

  lemma PopPlaced(w: World, s: State, k: nat, dest: Dest)
    requires BaseInv(s) && Enabled(s, Pop(k, dest))
    ensures Placed(Next(w, s, Pop(k, dest)))
  {
    hide LineageInv, RegisteredOnce, Partition, Registering, Elems;
    var t, s' := s.sched.ready[0], Next(w, s, Pop(k, dest));
    PopKeepsRepInv(s.sched, DepsMap(s.table));
    hide RepInv;
    ElemsPop(s.sched.ready);
    RegisteringSame(s.tokens, k, Some(Preparing(t, [], dest, false)));
    PartitionPop(s.table.tasks.Keys, Registering(s.tokens), s.sched.pending.Keys, Elems(s.sched.ready), s.popper.Keys,
                 t);
    assert s'.popper.Keys == s.popper.Keys + {t};
  }

  /** No other step moves a task from one place to another. */
  lemma QuietStep(w: World, s: State, l: Label)
    requires Enabled(s, l) && !l.Register? && !l.Enqueue? && Announced(s, l) == None && !l.Pop?
    ensures Next(w, s, l).table == s.table && Next(w, s, l).sched == s.sched && Next(w, s, l).popper == s.popper
    ensures Registering(Next(w, s, l).tokens) == Registering(s.tokens)
  {
    hide DepsOf, Registering;
    if MovesToken(l) {
      RegisteringSame(s.tokens, l.k, Moved(w, s, l));
    }
  }

  lemma PlacedStep(w: World, s: State, l: Label)
    requires BaseInv(s) && Enabled(s, l)
    ensures Placed(Next(w, s, l))
  {
    hide RepInv, LineageInv, Next, RegisteredOnce, Registering, Partition, Elems;
    match l {
      case Register(k) => RegisterPlaced(w, s, k);
      case Enqueue(k) => EnqueuePlaced(w, s, k);
      case Retrigger(_) => AnnouncePlaced(w, s, l);
      case Announce(_) => AnnouncePlaced(w, s, l);
      case Pop(k, dest) => PopPlaced(w, s, k, dest);
      case _ => QuietStep(w, s, l);
    }
  }

  lemma RegisteredOnceMoved(tokens: map<nat, Token>, k: nat, tok: Option<Token>)
    requires RegisteredOnce(tokens)
    requires tok.Some? && tok.value.Registered? ==> tok.value.t !in Registering(tokens)
    ensures RegisteredOnce(if tok.Some? then tokens[k := tok.value] else tokens - {k})
  {
    assert forall k' :: k' in tokens && tokens[k'].Registered? ==> tokens[k'].t in Registering(tokens);
  }

  lemma RegisteredOnceStep(w: World, s: State, l: Label)
    requires BaseInv(s) && Enabled(s, l)
    ensures RegisteredOnce(Next(w, s, l).tokens)
  {
    hide DepsOf, RepInv, WellFounded, Inverse, RegisteredOnce, Registering, DistinctIds, IdsBelow;
    if l.Register? {
      assert TokenShape(s.nextId, s.table, s.tokens[l.k]);
    }
    hide Shapes;
    if MovesToken(l) {
      RegisteredOnceMoved(s.tokens, l.k, Moved(w, s, l));
    }
  }

  /** Every step keeps lineage, scheduler tables and placement. */
  lemma BaseStep(w: World, s: State, l: Label)
    requires BaseInv(s) && Enabled(s, l)
    ensures BaseInv(Next(w, s, l)) && Extends(s.table, Next(w, s, l).table)
  {
    LineageStep(w, s, l);
    SchedStep(w, s, l);
    PlacedStep(w, s, l);
    RegisteredOnceStep(w, s, l);
    hide RegisteredOnce, Next, Enabled, LineageInv, RepInv, Placed;
  }

  lemma BaseInit()
    ensures BaseInv(INIT)
  {
    assert IndexInv(FRESH, DepsMap(EMPTY_TABLE)) by {
      forall d, t
        ensures Occurrences(FRESH, d, t) == Expected(FRESH.pending, DepsMap(EMPTY_TABLE), d, t)
      {
      }
    }
  }

  /** `BaseInv` holds in every state of every run. */
  lemma {:induction false} BaseAlways(w: World, run: seq<State>, labels: seq<Label>, i: nat)
    requires IsRun(w, run, labels) && i < |run|
    ensures BaseInv(run[i])
    decreases i
  {
    if i == 0 {
      BaseInit();
    } else {
      BaseAlways(w, run, labels, i - 1);
      BaseStep(w, run[i - 1], labels[i - 1]);
    }
  }
}
