/**
  Python values as far as the runtime looks into them, and the two walks of
  `dag.py` over a call's arguments: collecting the object references, and
  replacing each of them by the object it denotes.
 */
module Dag {
  import opened Wrappers

  /** A Python object.  The runtime only distinguishes references, the three
      containers it descends into, and the two wrapper classes of its own;
      every other object is an `Atom`. */
  datatype Value =
    | Atom(tag: int)
    | ActorState(instance: int)
    | TaskError(taskId: nat, message: string)
    | Ref(id: nat)
    | List(items: seq<Value>)
    | Tuple(items: seq<Value>)
    | Dict(keys: seq<Value>, values: seq<Value>)  // pairwise, in insertion order

  /** Keyword arguments, in the order of the call. */
  datatype Kwargs = Kwargs(names: seq<string>, values: seq<Value>)

  const NO_KWARGS := Kwargs([], [])

  // ---------------------------------------------------------------- extraction

  /** The references below `v`, left to right, with repetitions. */
  function Refs(v: Value): seq<nat>
    decreases v
  {
    match v
    case Ref(id) => [id]
    case List(xs) => RefsOf(xs)
    case Tuple(xs) => RefsOf(xs)
    case Dict(_, xs) => RefsOf(xs)
    case _ => []
  }

  function RefsOf(xs: seq<Value>): seq<nat>
    decreases xs
  {
    if xs == [] then [] else Refs(xs[0]) + RefsOf(xs[1..])
  }

  lemma {:induction false} RefsOfAppend(xs: seq<Value>, ys: seq<Value>)
    ensures RefsOf(xs + ys) == RefsOf(xs) + RefsOf(ys)
  {
    if xs == [] {
      assert xs + ys == ys;
    } else {
      assert (xs + ys)[0] == xs[0] && (xs + ys)[1..] == xs[1..] + ys;
      RefsOfAppend(xs[1..], ys);
    }
  }

  /** Number of nodes: the measure on which the collecting loop terminates. */
  function Size(v: Value): nat
    decreases v
  {
    1 + match v
        case List(xs) => SizeOf(xs)
        case Tuple(xs) => SizeOf(xs)
        case Dict(_, xs) => SizeOf(xs)
        case _ => 0
  }

  function SizeOf(xs: seq<Value>): nat
    decreases xs
  {
    if xs == [] then 0 else Size(xs[0]) + SizeOf(xs[1..])
  }

  lemma {:induction false} SizeOfItem(xs: seq<Value>, i: nat)
    requires i < |xs|
    ensures Size(xs[i]) <= SizeOf(xs)
  {
    if i > 0 {
      SizeOfItem(xs[1..], i - 1);
    }
  }

  /** The Python list that `_collect_refs` appends to while it recurses. */
  class RefList {
    var ids: seq<nat>

    constructor ()
      ensures ids == []
    {
      ids := [];
    }

    /** `_collect_refs`: walks the items in order and appends to the shared list. */
    method Collect(items: seq<Value>)
      modifies this
      ensures ids == old(ids) + RefsOf(items)
      decreases SizeOf(items)
    {
      var i := 0;
      while i < |items|
        invariant 0 <= i <= |items|
        invariant ids == old(ids) + RefsOf(items[..i])
      {
        var item := items[i];
        SizeOfItem(items, i);
        match item {
          case Ref(id) => ids := ids + [id];
          case List(xs) => Collect(xs);
          case Tuple(xs) => Collect(xs);
          case Dict(_, xs) => Collect(xs);
          case _ =>
        }
        assert items[..i + 1] == items[..i] + [item];
        RefsOfAppend(items[..i], [item]);
        assert RefsOf([item]) == Refs(item);
        i := i + 1;
      }
      assert items[..|items|] == items;
    }
  }

  /** `extract_dependencies`. */
  method ExtractDependencies(args: seq<Value>, kwargs: Kwargs) returns (ids: seq<nat>)
    ensures ids == CallRefs(args, kwargs)
  {
    var refs := new RefList();
    refs.Collect(args);
    refs.Collect(kwargs.values);
    ids := refs.ids;
  }

  /** The references of a call: positional arguments first, keyword arguments after. */
  function CallRefs(args: seq<Value>, kwargs: Kwargs): seq<nat>
  {
    RefsOf(args) + RefsOf(kwargs.values)
  }

  // ---------------------------------------------------------------- resolution

  /** A getter may block and look at shared state, so its answer may depend on
      the requests it has served before. */
  type Getter = (seq<nat>, nat) -> Value

  /** `_resolve`, with the requests made so far threaded through. */
  function Resolve(v: Value, get: Getter, calls: seq<nat>): (Value, seq<nat>)
    decreases v
  {
    match v
    case Ref(id) => (get(calls, id), calls + [id])
    case List(xs) => var (ys, c) := ResolveAll(xs, get, calls); (List(ys), c)
    case Tuple(xs) => var (ys, c) := ResolveAll(xs, get, calls); (Tuple(ys), c)
    case Dict(ks, xs) => var (ys, c) := ResolveAll(xs, get, calls); (Dict(ks, ys), c)
    case _ => (v, calls)
  }

  function ResolveAll(xs: seq<Value>, get: Getter, calls: seq<nat>): (seq<Value>, seq<nat>)
    decreases xs
  {
    if xs == [] then ([], calls)
    else
      var (y, c) := Resolve(xs[0], get, calls);
      var (ys, c') := ResolveAll(xs[1..], get, c);
      ([y] + ys, c')
  }

  /** `resolve_args`: the resolved positional and keyword arguments, and the
      requests the getter received. */
  function ResolveArgs(args: seq<Value>, kwargs: Kwargs, get: Getter): (seq<Value>, Kwargs, seq<nat>)
  {
    var (xs, c) := ResolveAll(args, get, []);
    var (ys, c') := ResolveAll(kwargs.values, get, c);
    (xs, Kwargs(kwargs.names, ys), c')
  }

  // ------------------------------------------------ resolution from given answers

  /** `v` with its k-th reference replaced by the k-th answer. */
  function Fill(v: Value, answers: seq<Value>): Value
    requires |answers| == |Refs(v)|
    decreases v
  {
    match v
    case Ref(_) => answers[0]
    case List(xs) => List(FillAll(xs, answers))
    case Tuple(xs) => Tuple(FillAll(xs, answers))
    case Dict(ks, xs) => Dict(ks, FillAll(xs, answers))
    case _ => v
  }

  function FillAll(xs: seq<Value>, answers: seq<Value>): (ys: seq<Value>)
    requires |answers| == |RefsOf(xs)|
    ensures |ys| == |xs|
    decreases xs
  {
    if xs == [] then []
    else
      var n := |Refs(xs[0])|;
      [Fill(xs[0], answers[..n])] + FillAll(xs[1..], answers[n..])
  }

  lemma FillAllSplit(xs: seq<Value>, a: seq<Value>, b: seq<Value>)
    requires xs != [] && |a| == |Refs(xs[0])| && |b| == |RefsOf(xs[1..])|
    ensures FillAll(xs, a + b) == [Fill(xs[0], a)] + FillAll(xs[1..], b)
  {
    assert (a + b)[..|a|] == a && (a + b)[|a|..] == b;
  }

  /** The answers a getter gives to a row of requests, each added to its history. */
  function Answers(get: Getter, calls: seq<nat>, requests: seq<nat>): (answers: seq<Value>)
    ensures |answers| == |requests|
    decreases |requests|
  {
    if requests == [] then []
    else [get(calls, requests[0])] + Answers(get, calls + [requests[0]], requests[1..])
  }

  lemma {:induction false} AnswersAppend(get: Getter, calls: seq<nat>, p: seq<nat>, q: seq<nat>)
    ensures Answers(get, calls, p + q) == Answers(get, calls, p) + Answers(get, calls + p, q)
    decreases |p|
  {
    if p == [] {
      assert p + q == q && calls + p == calls;
    } else {
      assert (p + q)[1..] == p[1..] + q && calls + [p[0]] + p[1..] == calls + p;
      AnswersAppend(get, calls + [p[0]], p[1..], q);
    }
  }

  lemma {:induction false} AnswerAt(get: Getter, calls: seq<nat>, requests: seq<nat>, i: nat)
    requires i < |requests|
    ensures Answers(get, calls, requests)[i] == get(calls + requests[..i], requests[i])
    decreases |requests|
  {
    if i == 0 {
      assert calls + requests[..0] == calls;
    } else {
      AnswerAt(get, calls + [requests[0]], requests[1..], i - 1);
      assert calls + [requests[0]] + requests[1..][..i - 1] == calls + requests[..i];
    }
  }

  /** Resolution requests exactly the extracted references, in extraction order,
      and what it builds is the argument tree with the answers filled in. */
  lemma {:induction false} ResolveIsFill(v: Value, get: Getter, calls: seq<nat>)
    ensures Resolve(v, get, calls) == (Fill(v, Answers(get, calls, Refs(v))), calls + Refs(v))
    decreases v
  {
    match v {
      case List(xs) => ResolveAllIsFill(xs, get, calls);
      case Tuple(xs) => ResolveAllIsFill(xs, get, calls);
      case Dict(_, xs) => ResolveAllIsFill(xs, get, calls);
      case Ref(id) =>
      case _ => assert calls + [] == calls;
    }
  }

  lemma {:induction false} ResolveAllIsFill(xs: seq<Value>, get: Getter, calls: seq<nat>)
    ensures ResolveAll(xs, get, calls).0 == FillAll(xs, Answers(get, calls, RefsOf(xs)))
    ensures ResolveAll(xs, get, calls).1 == calls + RefsOf(xs)
    decreases xs
  {
    if xs == [] {
      assert calls + [] == calls;
    } else {
      var p, q := Refs(xs[0]), RefsOf(xs[1..]);
      var a, b := Answers(get, calls, p), Answers(get, calls + p, q);
      ResolveIsFill(xs[0], get, calls);
      ResolveAllIsFill(xs[1..], get, calls + p);
      assert ResolveAll(xs, get, calls).0 == [Fill(xs[0], a)] + FillAll(xs[1..], b);
      assert ResolveAll(xs, get, calls).1 == (calls + p) + q == calls + (p + q);
      assert Answers(get, calls, p + q) == a + b by { AnswersAppend(get, calls, p, q); }
      FillAllSplit(xs, a, b);
    }
  }

  /** Extraction and resolution agree on a whole call. */
  lemma ExtractionMatchesResolution(args: seq<Value>, kwargs: Kwargs, get: Getter)
    ensures var (xs, kw, calls) := ResolveArgs(args, kwargs, get);
      var answers := Answers(get, [], CallRefs(args, kwargs));
      && calls == CallRefs(args, kwargs)
      && xs == FillAll(args, answers[..|RefsOf(args)|])
      && kw == Kwargs(kwargs.names, FillAll(kwargs.values, answers[|RefsOf(args)|..]))
  {
    var p, q := RefsOf(args), RefsOf(kwargs.values);
    ResolveAllIsFill(args, get, []);
    assert [] + p == p;
    ResolveAllIsFill(kwargs.values, get, p);
    AnswersAppend(get, [], p, q);
  }

  /** The resolved call depends on nothing but the getter's answers to the
      extracted references. */
  lemma ResolutionDependsOnAnswersOnly(args: seq<Value>, kwargs: Kwargs, get: Getter, get': Getter)
    requires forall i :: 0 <= i < |CallRefs(args, kwargs)| ==>
      var c := CallRefs(args, kwargs); get(c[..i], c[i]) == get'(c[..i], c[i])
    ensures ResolveArgs(args, kwargs, get) == ResolveArgs(args, kwargs, get')
  {
    var c := CallRefs(args, kwargs);
    forall i | 0 <= i < |c|
      ensures Answers(get, [], c)[i] == Answers(get', [], c)[i]
    {
      AnswerAt(get, [], c, i);
      AnswerAt(get', [], c, i);
      assert [] + c[..i] == c[..i];
    }
    assert Answers(get, [], c) == Answers(get', [], c);
    ExtractionMatchesResolution(args, kwargs, get);
    ExtractionMatchesResolution(args, kwargs, get');
  }

  // ---------------------------------------------------------------- shape

  /** The node of `v` reached by following child positions. */
  function At(v: Value, path: seq<nat>): Option<Value>
    decreases |path|
  {
    if path == [] then Some(v)
    else match v
      case List(xs) => if path[0] < |xs| then At(xs[path[0]], path[1..]) else None
      case Tuple(xs) => if path[0] < |xs| then At(xs[path[0]], path[1..]) else None
      case Dict(_, xs) => if path[0] < |xs| then At(xs[path[0]], path[1..]) else None
      case _ => None
  }

  /** Two nodes agree up to what hangs below them. */
  predicate SameNode(v: Value, r: Value)
  {
    match v
    case List(xs) => r.List? && |r.items| == |xs|
    case Tuple(xs) => r.Tuple? && |r.items| == |xs|
    case Dict(ks, xs) => r.Dict? && r.keys == ks && |r.values| == |xs|
    case _ => r == v
  }

  /** What filling does to the node at `path`, said without mentioning the walk:
      a reference becomes the object `obj` gives for its id, any other node
      keeps its kind, its size, its keys and its leaf value. */
  ghost predicate FilledAt(v: Value, r: Value, obj: nat -> Value, path: seq<nat>)
  {
    match At(v, path)
    case None => true
    case Some(Ref(id)) => At(r, path) == Some(obj(id))
    case Some(n) => At(r, path).Some? && SameNode(n, At(r, path).value)
  }

  ghost predicate AnswersFrom(refs: seq<nat>, answers: seq<Value>, obj: nat -> Value)
  {
    && |answers| == |refs|
    && forall i :: 0 <= i < |refs| ==> answers[i] == obj(refs[i])
  }

  lemma {:induction false} FillNode(v: Value, answers: seq<Value>, obj: nat -> Value, path: seq<nat>)
    requires AnswersFrom(Refs(v), answers, obj)
    ensures FilledAt(v, Fill(v, answers), obj, path)
    decreases v
  {
    match v {
      case List(xs) =>
        if path != [] && path[0] < |xs| {
          FillItem(xs, answers, obj, path[0], path[1..]);
        }
      case Tuple(xs) =>
        if path != [] && path[0] < |xs| {
          FillItem(xs, answers, obj, path[0], path[1..]);
        }
      case Dict(_, xs) =>
        if path != [] && path[0] < |xs| {
          FillItem(xs, answers, obj, path[0], path[1..]);
        }
      case _ =>
    }
  }

  lemma {:induction false} FillItem(xs: seq<Value>, answers: seq<Value>, obj: nat -> Value, i: nat, path: seq<nat>)
    requires AnswersFrom(RefsOf(xs), answers, obj) && i < |xs|
    ensures FilledAt(xs[i], FillAll(xs, answers)[i], obj, path)
    decreases xs
  {
    var n := |Refs(xs[0])|;
    if i == 0 {
      FillNode(xs[0], answers[..n], obj, path);
    } else {
      assert AnswersFrom(RefsOf(xs[1..]), answers[n..], obj) by {
        assert RefsOf(xs)[n..] == RefsOf(xs[1..]);
      }
      FillItem(xs[1..], answers[n..], obj, i - 1, path);
    }
  }

  /** Resolution preserves the shape of every argument, replaces each reference by
      its object wherever it stands, and does not look into the objects it inserts. */
  lemma ResolutionPreservesShape(v: Value, get: Getter, obj: nat -> Value, path: seq<nat>)
    requires forall c: seq<nat>, id: nat :: get(c, id) == obj(id)
    ensures FilledAt(v, Resolve(v, get, []).0, obj, path)
  {
    ResolveIsFill(v, get, []);
    forall i | 0 <= i < |Refs(v)|
      ensures Answers(get, [], Refs(v))[i] == obj(Refs(v)[i])
    {
      AnswerAt(get, [], Refs(v), i);
    }
    FillNode(v, Answers(get, [], Refs(v)), obj, path);
  }
}
