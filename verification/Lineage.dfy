/**
  Tasks, their lineage, and what a lineage means.

  A lineage table records for every task the call it makes (with unresolved
  references) and the object it produces.  `Meaning` evaluates that graph
  recursively; it is the yardstick for everything a runtime stores or ships.
 */
module Lineage {
  import opened Wrappers
  import opened Dag

  /** The functions that reach a worker: the user's own, and the three closures
      through which actors are built from tasks. */
  datatype Func =
    | User(code: nat)
    | InitActor(cls: nat)
    | ActorMethod(name: string)
    | ExtractReturnValue

  datatype Call = Call(func: Func, args: seq<Value>, kwargs: Kwargs)

  /** How a task execution ends: `result_queue.put((.., True, ..))` or `(.., False, ..)`. */
  datatype Outcome = Ok(value: Value) | Err(message: string)

  datatype Constructed = Instance(instance: int) | ConstructorRaised(message: string)

  datatype MethodResult = Returned(instance: int, value: Value) | MethodRaised(message: string)

  /** User code: deterministic functions on immutable values. */
  datatype World = World(
    user: (nat, seq<Value>, Kwargs) -> Outcome,
    construct: (nat, seq<Value>, Kwargs) -> Constructed,
    invoke: (int, string, seq<Value>, Kwargs) -> MethodResult)

  /** Indexing a stored object with a constant, as the actor closures do. */
  function Item(v: Value, k: nat): Option<Value>
  {
    match v
    case Tuple(xs) => if k < |xs| then Some(xs[k]) else None
    case List(xs) => if k < |xs| then Some(xs[k]) else None
    case _ => None
  }

  /** `_ActorState.call_method`: the updated state and the method's value. */
  function CallMethod(w: World, state: Value, name: string, args: seq<Value>, kwargs: Kwargs): Outcome
  {
    match state
    case ActorState(i) =>
      (match w.invoke(i, name, args, kwargs)
       case Returned(j, v) => Ok(Tuple([ActorState(j), v]))
       case MethodRaised(m) => Err(m))
    case _ => Err("AttributeError")
  }

  /** A worker runs a call whose references have been resolved. */
  function Apply(w: World, c: Call): Outcome
  {
    match c.func
    case User(code) => w.user(code, c.args, c.kwargs)
    case InitActor(cls) =>
      (match w.construct(cls, c.args, c.kwargs)
       case Instance(i) => Ok(ActorState(i))
       case ConstructorRaised(m) => Err(m))
    case ActorMethod(name) =>
      if c.args == [] then Err("TypeError")
      else if c.args[0].ActorState? then CallMethod(w, c.args[0], name, c.args[1..], c.kwargs)
      else (match Item(c.args[0], 0)
            case None => Err("TypeError")
            case Some(state) => CallMethod(w, state, name, c.args[1..], c.kwargs))
    case ExtractReturnValue =>
      if |c.args| != 1 then Err("TypeError")
      else (match Item(c.args[0], 1)
            case None => Err("TypeError")
            case Some(v) => Ok(v))
  }

  /** The object stored for an outcome: a failure is wrapped in a `_TaskError`. */
  function Deliver(t: nat, r: Outcome): Value
  {
    match r
    case Ok(v) => v
    case Err(m) => TaskError(t, m)
  }

  /** `extract_dependencies` on a call. */
  function DepsOf(c: Call): seq<nat>
  {
    CallRefs(c.args, c.kwargs)
  }

  /** The call with its k-th reference replaced by the k-th answer. */
  function FillCall(c: Call, answers: seq<Value>): Call
    requires |answers| == |DepsOf(c)|
  {
    var n := |RefsOf(c.args)|;
    Call(c.func, FillAll(c.args, answers[..n]),
         Kwargs(c.kwargs.names, FillAll(c.kwargs.values, answers[n..])))
  }

  // ---------------------------------------------------------------- the table

  datatype Task = Task(oid: nat, call: Call, deps: seq<nat>)

  /** What reconstruction reads of the ownership table. */
  datatype Table = Table(tasks: map<nat, Task>, producer: map<nat, nat>)

  const EMPTY_TABLE := Table(map[], map[])

  function Record(tb: Table, t: nat, o: nat, c: Call, deps: seq<nat>): Table
  {
    Table(tb.tasks[t := Task(o, c, deps)], tb.producer[o := t])
  }

  /** Every object has a producing task with that object as its result, dependency
      lists are the references of the saved calls, and every dependency is a
      registered object with a smaller id than the object it feeds. */
  ghost predicate WellFounded(tb: Table)
  {
    && (forall o :: o in tb.producer ==> tb.producer[o] in tb.tasks && tb.tasks[tb.producer[o]].oid == o)
    && (forall t :: t in tb.tasks ==> tb.tasks[t].deps == DepsOf(tb.tasks[t].call))
    && (forall t, d :: t in tb.tasks && d in tb.tasks[t].deps ==> d in tb.producer && d < tb.tasks[t].oid)
  }

  /** Every task is the producer of its result: with `WellFounded`, the producer map
      and the result map are mutual inverses. */
  ghost predicate Inverse(tb: Table)
  {
    forall t :: t in tb.tasks ==> tb.tasks[t].oid in tb.producer && tb.producer[tb.tasks[t].oid] == t
  }

  ghost predicate Extends(tb: Table, tb': Table)
  {
    && (forall t :: t in tb.tasks ==> t in tb'.tasks && tb'.tasks[t] == tb.tasks[t])
    && (forall o :: o in tb.producer ==> o in tb'.producer && tb'.producer[o] == tb.producer[o])
  }

  /** The values a task's references stand for. */
  ghost function Inputs(w: World, tb: Table, t: nat): (vs: seq<Value>)
    requires WellFounded(tb) && t in tb.tasks
    ensures |vs| == |tb.tasks[t].deps|
    decreases tb.tasks[t].oid, 0
  {
    var deps := tb.tasks[t].deps;
    seq(|deps|, i requires 0 <= i < |deps| => Meaning(w, tb, deps[i]))
  }

  /** The recursive evaluation of an object's lineage. */
  ghost function Meaning(w: World, tb: Table, o: nat): Value
    requires WellFounded(tb) && o in tb.producer
    decreases o, 1
  {
    var t := tb.producer[o];
    Deliver(t, Apply(w, FillCall(tb.tasks[t].call, Inputs(w, tb, t))))
  }

  /** The call a worker should receive for task `t`. */
  ghost function Payload(w: World, tb: Table, t: nat): Call
    requires WellFounded(tb) && t in tb.tasks
  {
    FillCall(tb.tasks[t].call, Inputs(w, tb, t))
  }

  /** Later submissions do not change what an object means. */
  lemma {:induction false} MeaningStable(w: World, tb: Table, tb': Table, o: nat)
    requires WellFounded(tb) && WellFounded(tb') && Extends(tb, tb') && o in tb.producer
    ensures Meaning(w, tb', o) == Meaning(w, tb, o)
    decreases o, 1
  {
    InputsStable(w, tb, tb', tb.producer[o]);
  }

  lemma {:induction false} InputsStable(w: World, tb: Table, tb': Table, t: nat)
    requires WellFounded(tb) && WellFounded(tb') && Extends(tb, tb') && t in tb.tasks
    ensures Inputs(w, tb', t) == Inputs(w, tb, t)
    decreases tb.tasks[t].oid, 0
  {
    var deps := tb.tasks[t].deps;
    forall i | 0 <= i < |deps|
      ensures Inputs(w, tb', t)[i] == Inputs(w, tb, t)[i]
    {
      assert deps[i] in tb.tasks[t].deps;
      assert deps[i] in tb.producer && deps[i] < tb.tasks[t].oid;
      MeaningStable(w, tb, tb', deps[i]);
    }
  }

  /** Registering a call under fresh ids whose references are already registered
      keeps the graph well-founded, and only adds to it. */
  lemma RecordKeepsLineage(tb: Table, t: nat, o: nat, c: Call)
    requires WellFounded(tb) && t !in tb.tasks && o !in tb.producer
    requires forall d :: d in DepsOf(c) ==> d in tb.producer && d < o
    ensures WellFounded(Record(tb, t, o, c, DepsOf(c)))
  {
    hide DepsOf;
  }

  lemma RecordExtends(tb: Table, t: nat, o: nat, c: Call)
    requires t !in tb.tasks && o !in tb.producer
    ensures Extends(tb, Record(tb, t, o, c, DepsOf(c)))
    ensures Inverse(tb) ==> Inverse(Record(tb, t, o, c, DepsOf(c)))
  {
    hide DepsOf;
  }

  /** `path` walks from object to object along dependencies, starting among
      those of `t`. */
  ghost predicate Ancestry(tb: Table, t: nat, path: seq<nat>)
    decreases |path|
  {
    path != [] ==>
      && t in tb.tasks
      && path[0] in tb.tasks[t].deps
      && path[0] in tb.producer
      && Ancestry(tb, tb.producer[path[0]], path[1..])
  }

  /** Dependencies strictly descend along every ancestry, so the graph has no cycle
      and no ancestry is longer than the object id it starts below. */
  lemma {:induction false} AncestryDescends(tb: Table, t: nat, path: seq<nat>)
    requires WellFounded(tb) && t in tb.tasks && Ancestry(tb, t, path)
    ensures forall i :: 0 <= i < |path| ==> path[i] < tb.tasks[t].oid
    ensures forall i, j :: 0 <= i < j < |path| ==> path[j] < path[i]
    ensures |path| <= tb.tasks[t].oid
    decreases |path|
  {
    if path != [] {
      AncestryDescends(tb, tb.producer[path[0]], path[1..]);
      assert forall i :: 1 <= i < |path| ==> path[i] == path[1..][i - 1];
    }
  }
}
