/**
  The task runtime as a transition system, for `driver.py` and `head.py` alike.

  Any number of user and handler threads, workers, collectors and connections act
  at the same time.  What each of them holds at a moment, a thread in the middle of
  a submission, a popped task whose arguments are being resolved, a payload in a
  queue or in a worker, a result on its way back, a stored object whose
  announcement is still due, is a token.  A step is one atomic operation of the
  source: a step on the id counter, the ownership table, the scheduler (one lock
  acquisition), the object store or a queue.  Queues are bags: the proofs hold for
  every order of service, so in particular for FIFO.

  `sent`, `popper`, `lost` and `evicted` are histories; no step reads them.
 */
module Cluster {
  import opened Collections
  import opened Wrappers
  import opened Dag
  import opened Lineage
  import opened SchedulerSpec

  /** Who executes a task: a worker process of the same machine, or a worker node
      that polls over a connection. */
  datatype Dest = Local | Node(conn: nat)

  datatype Token =
    | Submitting(call: Call, t: nat)                            // task id drawn
    | Registered(t: nat)                                        // in the ownership table
    | Rechecking(t: nat, i: nat)                                // about to look up the i-th dependency
    | Retriggering(t: nat, i: nat)                              // found it, about to announce it
    | Preparing(t: nat, got: seq<Value>, dest: Dest, redo: bool) // resolving arguments
    | Job(t: nat, call: Call, dest: Dest, running: bool)        // queued at or running in a worker
    | Result(t: nat, outcome: Outcome, dest: Dest)              // result message
    | Announcing(o: nat)                                        // stored, about to be announced

  datatype State = State(
    nextId: nat,
    table: Table,
    sched: Sched,
    store: map<nat, Value>,
    tokens: map<nat, Token>,
    closed: set<nat>,           // connections that have been dropped
    sent: seq<nat>,             // tasks handed to workers, in order
    popper: map<nat, Dest>,     // for whom a task was popped from the ready queue
    lost: set<nat>,             // tasks that vanished with a dropped connection
    evicted: set<nat>)          // objects evicted at some time

  const INIT := State(0, EMPTY_TABLE, FRESH, map[], map[], {}, [], map[], {}, {})

  datatype Label =
    | Begin(k: nat, call: Call)   // submit_task draws a task id
    | TakeId                      // an actor id
    | Register(k: nat)            // draws the object id, ownership.register_task
    | Enqueue(k: nat)             // scheduler.submit
    | Recheck(k: nat)             // object_store.contains(dependency)
    | Retrigger(k: nat)           // scheduler.on_object_ready(dependency)
    | EndSubmit(k: nat)
    | Pop(k: nat, dest: Dest)     // pop_ready_task in a flush or a poll
    | Read(k: nat)                // get_or_wait of the next reference
    | Send(k: nat)                // payload to the task queue or the connection
    | Start(k: nat)               // a worker takes the payload
    | Finish(k: nat)              // the worker reports
    | Put(k: nat)                 // object_store.put by the collector or handler
    | Announce(k: nat)            // scheduler.on_object_ready(result)
    | Close(conn: nat)
    | Lose(k: nat)                // what a dropped connection held is gone
    | Evict(o: nat)
    | Redo(k: nat, o: nat)        // reconstruct_object found the object missing

  function ArgRefs(s: State, t: nat): seq<nat>
    requires t in s.table.tasks
  {
    DepsOf(s.table.tasks[t].call)
  }

  predicate Has(s: State, k: nat)
  {
    k in s.tokens
  }

  /** The token at `k` is about a registered task. */
  predicate OfTask(s: State, k: nat)
  {
    && k in s.tokens
    && !s.tokens[k].Submitting? && !s.tokens[k].Announcing?
    && s.tokens[k].t in s.table.tasks
  }

  predicate HeldBy(tok: Token, conn: nat)
  {
    (tok.Preparing? || tok.Job? || tok.Result?) && tok.dest == Node(conn)
  }

  predicate Enabled(s: State, l: Label)
  {
    match l
    case Begin(k, call) => !Has(s, k) && forall d :: d in DepsOf(call) ==> d in s.table.producer
    case TakeId => true
    case Register(k) => Has(s, k) && s.tokens[k].Submitting?
    case Enqueue(k) => OfTask(s, k) && s.tokens[k].Registered?
    case Recheck(k) => OfTask(s, k) && s.tokens[k].Rechecking? && s.tokens[k].i < |s.table.tasks[s.tokens[k].t].deps|
    case Retrigger(k) =>
      OfTask(s, k) && s.tokens[k].Retriggering? && s.tokens[k].i < |s.table.tasks[s.tokens[k].t].deps|
    case EndSubmit(k) => OfTask(s, k) && s.tokens[k].Rechecking? && s.tokens[k].i >= |s.table.tasks[s.tokens[k].t].deps|
    case Pop(k, dest) => !Has(s, k) && s.sched.ready != []
    case Read(k) =>
      && OfTask(s, k) && s.tokens[k].Preparing?
      && |s.tokens[k].got| < |ArgRefs(s, s.tokens[k].t)|
      && ArgRefs(s, s.tokens[k].t)[|s.tokens[k].got|] in s.store
    case Send(k) =>
      OfTask(s, k) && s.tokens[k].Preparing? && |s.tokens[k].got| == |ArgRefs(s, s.tokens[k].t)|
    case Start(k) => OfTask(s, k) && s.tokens[k].Job? && !s.tokens[k].running
    case Finish(k) => OfTask(s, k) && s.tokens[k].Job? && s.tokens[k].running
    case Put(k) => OfTask(s, k) && s.tokens[k].Result?
    case Announce(k) => Has(s, k) && s.tokens[k].Announcing?
    case Close(conn) => true
    case Lose(k) => OfTask(s, k) && exists conn :: conn in s.closed && HeldBy(s.tokens[k], conn)
    case Evict(o) => o in s.store
    case Redo(k, o) =>
      !Has(s, k) && o in s.table.producer && s.table.producer[o] in s.table.tasks && o !in s.store
  }

  predicate MovesToken(l: Label)
  {
    !l.TakeId? && !l.Close? && !l.Evict?
  }

  /** What becomes of the token a step is about. */
  function Moved(w: World, s: State, l: Label): Option<Token>
    requires Enabled(s, l) && MovesToken(l)
  {
    match l
    case Begin(k, call) => Some(Submitting(call, s.nextId))
    case Register(k) => Some(Registered(s.tokens[k].t))
    case Enqueue(k) => Some(Rechecking(s.tokens[k].t, 0))
    case Recheck(k) =>
      var tok := s.tokens[k];
      var d := s.table.tasks[tok.t].deps[tok.i];
      Some(if d in s.store then Retriggering(tok.t, tok.i) else Rechecking(tok.t, tok.i + 1))
    case Retrigger(k) => Some(Rechecking(s.tokens[k].t, s.tokens[k].i + 1))
    case EndSubmit(k) => None
    case Pop(k, dest) => Some(Preparing(s.sched.ready[0], [], dest, false))
    case Read(k) =>
      var tok := s.tokens[k];
      var d := ArgRefs(s, tok.t)[|tok.got|];
      Some(tok.(got := tok.got + [s.store[d]]))
    case Send(k) =>
      var tok := s.tokens[k];
      Some(Job(tok.t, FillCall(s.table.tasks[tok.t].call, tok.got), tok.dest, false))
    case Start(k) => Some(s.tokens[k].(running := true))
    case Finish(k) => Some(Result(s.tokens[k].t, Apply(w, s.tokens[k].call), s.tokens[k].dest))
    case Put(k) =>
      if s.tokens[k].outcome.Ok? then Some(Announcing(s.table.tasks[s.tokens[k].t].oid)) else None
    case Announce(k) => None
    case Lose(k) => None
    case Redo(k, o) => Some(Preparing(s.table.producer[o], [], Local, true))
  }

  function NextTokens(w: World, s: State, l: Label): map<nat, Token>
    requires Enabled(s, l)
  {
    if !MovesToken(l) then s.tokens
    else match Moved(w, s, l)
      case None => s.tokens - {l.k}
      case Some(tok) => s.tokens[l.k := tok]
  }

  function Next(w: World, s: State, l: Label): State
    requires Enabled(s, l)
  {
    var s' := s.(tokens := NextTokens(w, s, l));
    match l
    case Begin(_, _) => s'.(nextId := s.nextId + 1)
    case TakeId => s'.(nextId := s.nextId + 1)
    case Register(k) =>
      var tok := s.tokens[k];
      s'.(nextId := s.nextId + 1,
          table := Record(s.table, tok.t, s.nextId, tok.call, DepsOf(tok.call)))
    case Enqueue(k) =>
      var t := s.tokens[k].t;
      s'.(sched := Submit(s.sched, t, s.table.tasks[t].deps))
    case Retrigger(k) =>
      s'.(sched := OnObjectReady(s.sched, s.table.tasks[s.tokens[k].t].deps[s.tokens[k].i]))
    case Pop(k, dest) =>
      s'.(sched := SchedulerSpec.Pop(s.sched), popper := s.popper[s.sched.ready[0] := dest])
    case Send(k) => s'.(sent := s.sent + [s.tokens[k].t])
    case Put(k) =>
      var tok := s.tokens[k];
      s'.(store := s.store[s.table.tasks[tok.t].oid := Deliver(tok.t, tok.outcome)])
    case Announce(k) => s'.(sched := OnObjectReady(s.sched, s.tokens[k].o))
    case Close(conn) => s'.(closed := s.closed + {conn})
    case Lose(k) => s'.(lost := s.lost + {s.tokens[k].t})
    case Evict(o) => s'.(store := s.store - {o}, evicted := s.evicted + {o})
    case _ => s'
  }

  /** A step leaves all other tokens alone. */
  lemma OtherTokensStay(w: World, s: State, l: Label, k: nat)
    requires Enabled(s, l) && k in s.tokens && !(MovesToken(l) && l.k == k)
    ensures k in Next(w, s, l).tokens && Next(w, s, l).tokens[k] == s.tokens[k]
  {
    hide Moved, DepsOf;
  }

  /** Where a token comes from. */
  lemma TokenOrigin(w: World, s: State, l: Label, k: nat)
    requires Enabled(s, l) && k in Next(w, s, l).tokens
    ensures if MovesToken(l) && l.k == k then Moved(w, s, l) == Some(Next(w, s, l).tokens[k])
            else k in s.tokens && Next(w, s, l).tokens[k] == s.tokens[k]
  {
    hide Moved, DepsOf;
  }

  /** A finite run: every label is enabled where it is taken. */
  ghost predicate IsRun(w: World, run: seq<State>, labels: seq<Label>)
  {
    && |run| == |labels| + 1
    && run[0] == INIT
    && forall i :: 0 <= i < |labels| ==> Enabled(run[i], labels[i]) && run[i + 1] == Next(w, run[i], labels[i])
  }

  // ------------------------------------------------------- ids, lineage, placement

  function DepsMap(tb: Table): map<nat, seq<nat>>
  {
    map t | t in tb.tasks :: tb.tasks[t].deps
  }

  ghost predicate TokenShape(n: nat, tb: Table, tok: Token)
  {
    match tok
    case Submitting(call, t) =>
      && t < n && t !in tb.tasks
      && forall d :: d in DepsOf(call) ==> d in tb.producer
    case Rechecking(t, i) => t in tb.tasks && i <= |tb.tasks[t].deps|
    case Retriggering(t, i) => t in tb.tasks && i < |tb.tasks[t].deps|
    case Announcing(o) => o in tb.producer
    case _ => tok.t in tb.tasks
  }

  ghost predicate Shapes(n: nat, tb: Table, tokens: map<nat, Token>)
  {
    forall k :: k in tokens ==> TokenShape(n, tb, tokens[k])
  }

  /** No two submissions hold the same task id. */
  ghost predicate DistinctIds(tokens: map<nat, Token>)
  {
    forall k, k' | k in tokens && k' in tokens && tokens[k].Submitting? && tokens[k'].Submitting? ::
      tokens[k].t == tokens[k'].t ==> k == k'
  }

  ghost predicate IdsBelow(n: nat, tb: Table)
  {
    && (forall t :: t in tb.tasks ==> t < n)
    && (forall o :: o in tb.producer ==> o < n)
  }

  /** Ids are fresh and the lineage graph is well-founded. */
  ghost predicate LineageInv(s: State)
  {
    && WellFounded(s.table)
    && Inverse(s.table)
    && IdsBelow(s.nextId, s.table)
    && (forall o :: o in s.store ==> o in s.table.producer)
    && Shapes(s.nextId, s.table, s.tokens)
    && DistinctIds(s.tokens)
  }

  /** The tasks between registration and `scheduler.submit`. */
  function Registering(tokens: map<nat, Token>): set<nat>
  {
    set k | k in tokens && tokens[k].Registered? :: tokens[k].t
  }

  /** Each of them in one thread only. */
  ghost predicate RegisteredOnce(tokens: map<nat, Token>)
  {
    forall k, k' | k in tokens && k' in tokens && tokens[k].Registered? && tokens[k'].Registered? ::
      tokens[k].t == tokens[k'].t ==> k == k'
  }

  /** Every registered task is in exactly one of: on its way to the scheduler, pending,
      ready, popped. */
  ghost predicate Placed(s: State)
  {
    Partition(s.table.tasks.Keys, Registering(s.tokens), s.sched.pending.Keys, Elems(s.sched.ready), s.popper.Keys)
  }

  ghost predicate BaseInv(s: State)
  {
    && LineageInv(s)
    && RepInv(s.sched, DepsMap(s.table))
    && RegisteredOnce(s.tokens)
    && Placed(s)
  }

  // ------------------------------------------------------- lineage

  lemma TableStep(w: World, s: State, l: Label)
    requires LineageInv(s) && Enabled(s, l)
    ensures Extends(s.table, Next(w, s, l).table)
    ensures !l.Register? ==> Next(w, s, l).table == s.table
    ensures WellFounded(Next(w, s, l).table) && Inverse(Next(w, s, l).table)
  {
    hide DepsOf, WellFounded, Inverse, NextTokens;
    if l.Register? {
      RegisteredLineage(s, l.k);
    } else {
      assert Next(w, s, l).table == s.table;
    }
  }

  lemma RegisteredLineage(s: State, k: nat)
    requires LineageInv(s) && k in s.tokens && s.tokens[k].Submitting?
    ensures var tb := Record(s.table, s.tokens[k].t, s.nextId, s.tokens[k].call, DepsOf(s.tokens[k].call));
      Extends(s.table, tb) && WellFounded(tb) && Inverse(tb)
  {
    hide DepsOf, WellFounded, Inverse, Record, DistinctIds;
    var tok := s.tokens[k];
    assert TokenShape(s.nextId, s.table, tok);
    assert forall d :: d in DepsOf(tok.call) ==> d < s.nextId;
    RecordKeepsLineage(s.table, tok.t, s.nextId, tok.call);
    RecordExtends(s.table, tok.t, s.nextId, tok.call);
  }

  lemma IdsStep(w: World, s: State, l: Label)
    requires LineageInv(s) && Enabled(s, l)
    ensures IdsBelow(Next(w, s, l).nextId, Next(w, s, l).table)
  {
    hide DepsOf, WellFounded, Inverse;
    if l.Register? {
      assert TokenShape(s.nextId, s.table, s.tokens[l.k]);
    }
  }

  lemma StoreKeysStep(w: World, s: State, l: Label)
    requires LineageInv(s) && Enabled(s, l)
    ensures forall o :: o in Next(w, s, l).store ==> o in Next(w, s, l).table.producer
  {
    hide DepsOf, WellFounded;
  }

  lemma DistinctIdsStep(w: World, s: State, l: Label)
    requires LineageInv(s) && Enabled(s, l)
    ensures DistinctIds(Next(w, s, l).tokens)
  {
    hide DepsOf, WellFounded, Inverse;
    if l.Begin? {
      forall k | k in s.tokens && s.tokens[k].Submitting?
        ensures s.tokens[k].t != s.nextId
      {
        assert TokenShape(s.nextId, s.table, s.tokens[k]);
      }
    }
  }

  lemma MovedShape(w: World, s: State, l: Label)
    requires BaseInv(s) && Enabled(s, l) && MovesToken(l) && Moved(w, s, l).Some?
    ensures TokenShape(Next(w, s, l).nextId, Next(w, s, l).table, Moved(w, s, l).value)
  {
    hide DepsOf, WellFounded, RepInv, DistinctIds, RegisteredOnce, Placed;
    if l.Pop? {
      ReadyIsKnown(s);
    }
    if l.k in s.tokens {
      assert TokenShape(s.nextId, s.table, s.tokens[l.k]);
    }
    hide Shapes;
  }

  lemma ReadyIsKnown(s: State)
    requires Placed(s) && s.sched.ready != []
    ensures s.sched.ready[0] in s.table.tasks
  {
    assert s.sched.ready[0] in Elems(s.sched.ready);
  }

  lemma ShapesStep(w: World, s: State, l: Label)
    requires BaseInv(s) && Enabled(s, l)
    ensures Shapes(Next(w, s, l).nextId, Next(w, s, l).table, Next(w, s, l).tokens)
  {
    hide DepsOf, WellFounded, Inverse, RepInv, Placed, Moved, Next, Enabled, TokenShape, DistinctIds, IdsBelow;
    var s' := Next(w, s, l);
    forall k | k in s'.tokens
      ensures TokenShape(s'.nextId, s'.table, s'.tokens[k])
    {
      TokenOrigin(w, s, l, k);
      if MovesToken(l) && k == l.k {
        MovedShape(w, s, l);
      } else {
        OtherShape(w, s, l, k);
      }
    }
  }

  lemma OtherShape(w: World, s: State, l: Label, k: nat)
    requires BaseInv(s) && Enabled(s, l) && k in s.tokens && !(MovesToken(l) && l.k == k)
    ensures TokenShape(Next(w, s, l).nextId, Next(w, s, l).table, s.tokens[k])
  {
    hide DepsOf, WellFounded, Inverse, RepInv, Placed, NextTokens, IdsBelow;
    assert TokenShape(s.nextId, s.table, s.tokens[k]);
    if l.Register? {
      assert TokenShape(s.nextId, s.table, s.tokens[l.k]);
      assert s.tokens[k].Submitting? ==> s.tokens[k].t != s.tokens[l.k].t;
    }
    hide Shapes, DistinctIds;
  }

  /** Lineage is well-founded and consistent after every step, and no step ever
      changes what is already recorded. */
  lemma LineageStep(w: World, s: State, l: Label)
    requires BaseInv(s) && Enabled(s, l)
    ensures LineageInv(Next(w, s, l)) && Extends(s.table, Next(w, s, l).table)
  {
    TableStep(w, s, l);
    IdsStep(w, s, l);
    StoreKeysStep(w, s, l);
    DistinctIdsStep(w, s, l);
    ShapesStep(w, s, l);
    hide DepsOf, WellFounded, Inverse, RepInv, Placed, Next, Enabled, IdsBelow, Shapes, DistinctIds;
  }
}
