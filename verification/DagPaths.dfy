/**
  What extraction finds, said without the walk: the references of an argument tree are
  listed at exactly the paths that lead to a reference, in the lexicographic order of these
  paths.  A path is a sequence of child positions.
 */
module DagPaths {
  import opened Wrappers
  import opened Dag

  type Path = seq<nat>

  /** `p` branches off to the left of `q`. */
  predicate Before(p: Path, q: Path)
    decreases |p|
  {
    p != [] && q != [] && (p[0] < q[0] || (p[0] == q[0] && Before(p[1..], q[1..])))
  }

  ghost predicate Increasing(ps: seq<Path>)
  {
    forall i, j :: 0 <= i < j < |ps| ==> Before(ps[i], ps[j])
  }

  /** The node that `p` leads to in a row of values numbered from `first` on. */
  function AtRow(xs: seq<Value>, first: nat, p: Path): Option<Value>
  {
    if p != [] && first <= p[0] < first + |xs| then At(xs[p[0] - first], p[1..]) else None
  }

  /** The children a path may step into. */
  function Children(v: Value): seq<Value>
  {
    match v
    case List(xs) => xs
    case Tuple(xs) => xs
    case Dict(_, xs) => xs
    case _ => []
  }

  lemma AtChildren(v: Value, p: Path)
    ensures At(v, p) == if p == [] then Some(v) else AtRow(Children(v), 0, p)
  {
  }

  /** `ps` are the paths below `v` that lead to a reference, from left to right, and `refs`
      the references they lead to. */
  ghost predicate Lists(v: Value, ps: seq<Path>, refs: seq<nat>)
  {
    && |ps| == |refs| && Increasing(ps)
    && (forall i :: 0 <= i < |ps| ==> At(v, ps[i]) == Some(Ref(refs[i])))
    && (forall p, d :: At(v, p) == Some(Ref(d)) ==> p in ps)
  }

  ghost predicate ListsRow(xs: seq<Value>, first: nat, ps: seq<Path>, refs: seq<nat>)
  {
    && |ps| == |refs| && Increasing(ps)
    && (forall i :: 0 <= i < |ps| ==> AtRow(xs, first, ps[i]) == Some(Ref(refs[i])))
    && (forall p, d :: AtRow(xs, first, p) == Some(Ref(d)) ==> p in ps)
  }

  function Under(i: nat, ps: seq<Path>): seq<Path>
  {
    seq(|ps|, k requires 0 <= k < |ps| => [i] + ps[k])
  }

  /** The paths to the references, in the order of the walk. */
  function RefPaths(v: Value): seq<Path>
    decreases v
  {
    match v
    case Ref(_) => [[]]
    case List(xs) => RowPaths(xs, 0)
    case Tuple(xs) => RowPaths(xs, 0)
    case Dict(_, xs) => RowPaths(xs, 0)
    case _ => []
  }

  function RowPaths(xs: seq<Value>, first: nat): seq<Path>
    decreases xs
  {
    if xs == [] then [] else Under(first, RefPaths(xs[0])) + RowPaths(xs[1..], first + 1)
  }

  lemma {:induction false} RefPathsAreRight(v: Value)
    ensures Lists(v, RefPaths(v), Refs(v))
    decreases v
  {
    match v {
      case Ref(id) =>
        assert forall p :: p != [] ==> At(v, p) == None;
      case List(xs) => RowPathsAreRight(xs, 0); RowOfValue(v, RefPaths(v), Refs(v));
      case Tuple(xs) => RowPathsAreRight(xs, 0); RowOfValue(v, RefPaths(v), Refs(v));
      case Dict(_, xs) => RowPathsAreRight(xs, 0); RowOfValue(v, RefPaths(v), Refs(v));
      case _ =>
        assert forall p :: p != [] ==> At(v, p) == None;
    }
  }

  lemma RowOfValue(v: Value, ps: seq<Path>, refs: seq<nat>)
    requires (v.List? || v.Tuple? || v.Dict?) && ListsRow(Children(v), 0, ps, refs)
    ensures Lists(v, ps, refs)
  {
    hide Increasing, At, AtRow;
    forall p
      ensures At(v, p) == if p == [] then Some(v) else AtRow(Children(v), 0, p)
    {
      AtChildren(v, p);
    }
    forall i | 0 <= i < |ps|
      ensures At(v, ps[i]) == Some(Ref(refs[i]))
    {
      RowPathNotEmpty(Children(v), 0, ps[i]);
    }
  }

  lemma RowPathNotEmpty(xs: seq<Value>, first: nat, p: Path)
    requires AtRow(xs, first, p).Some?
    ensures p != [] && first <= p[0]
  {
  }

  lemma {:induction false} RowPathsAreRight(xs: seq<Value>, first: nat)
    ensures ListsRow(xs, first, RowPaths(xs, first), RefsOf(xs))
    decreases xs
  {
    if xs != [] {
      RefPathsAreRight(xs[0]);
      RowPathsAreRight(xs[1..], first + 1);
      RowGrows(xs, first, RefPaths(xs[0]), Refs(xs[0]), RowPaths(xs[1..], first + 1), RefsOf(xs[1..]));
    }
  }

  lemma RowGrows(xs: seq<Value>, first: nat, ps: seq<Path>, refs: seq<nat>, qs: seq<Path>, rest: seq<nat>)
    requires xs != [] && Lists(xs[0], ps, refs) && ListsRow(xs[1..], first + 1, qs, rest)
    ensures ListsRow(xs, first, Under(first, ps) + qs, refs + rest)
  {
    var all, n := Under(first, ps) + qs, |ps|;
    RowGrowsInOrder(xs[1..], first, ps, qs, rest);
    hide Increasing;
    forall i | 0 <= i < |all|
      ensures AtRow(xs, first, all[i]) == Some(Ref((refs + rest)[i]))
    {
      if i < n {
        assert all[i] == [first] + ps[i] && all[i][1..] == ps[i];
        assert At(xs[0], ps[i]) == Some(Ref(refs[i]));
      } else {
        assert all[i] == qs[i - n] && AtRow(xs[1..], first + 1, qs[i - n]) == Some(Ref(rest[i - n]));
      }
    }
    forall p, d | AtRow(xs, first, p) == Some(Ref(d))
      ensures p in all
    {
      if p[0] == first {
        assert p[1..] in ps;
        var i :| 0 <= i < n && ps[i] == p[1..];
        assert all[i] == [first] + p[1..] == p;
      } else {
        assert AtRow(xs[1..], first + 1, p) == Some(Ref(d));
        assert p in qs;
      }
    }
  }

  lemma RowGrowsInOrder(xs: seq<Value>, first: nat, ps: seq<Path>, qs: seq<Path>, rest: seq<nat>)
    requires Increasing(ps) && ListsRow(xs, first + 1, qs, rest)
    ensures Increasing(Under(first, ps) + qs)
  {
    var all, n := Under(first, ps) + qs, |ps|;
    forall i, j | 0 <= i < j < |all|
      ensures Before(all[i], all[j])
    {
      if j < n {
        assert all[i] == [first] + ps[i] && all[j] == [first] + ps[j];
        assert all[i][1..] == ps[i] && all[j][1..] == ps[j] && Before(ps[i], ps[j]);
      } else if i < n {
        RowPathNotEmpty(xs, first + 1, qs[j - n]);
      } else {
        assert all[i] == qs[i - n] && all[j] == qs[j - n];
      }
    }
  }

  /** A path does not branch off to the left of itself. */
  lemma {:induction false} NotBeforeItself(p: Path)
    ensures !Before(p, p)
    decreases |p|
  {
    if p != [] {
      NotBeforeItself(p[1..]);
    }
  }

  // ------------------------------------------------------- main results

  /** The paths of a whole call: positional arguments first, keyword arguments after. */
  function CallAt(args: seq<Value>, kwargs: Kwargs, p: Path): Option<Value>
  {
    AtRow(args + kwargs.values, 0, p)
  }

  /**
    Extraction, exactly.  The extracted references of a call stand in one-to-one
    correspondence with the paths that lead to a reference, in the lexicographic order of
    the paths.
   */
  lemma ExtractedAreThePaths(args: seq<Value>, kwargs: Kwargs) returns (ps: seq<Path>)
    ensures |ps| == |CallRefs(args, kwargs)| && Increasing(ps)
    ensures forall i :: 0 <= i < |ps| ==> CallAt(args, kwargs, ps[i]) == Some(Ref(CallRefs(args, kwargs)[i]))
    ensures forall p, d :: CallAt(args, kwargs, p) == Some(Ref(d)) ==> p in ps
  {
    var xs := args + kwargs.values;
    RefsOfAppend(args, kwargs.values);
    RowPathsAreRight(xs, 0);
    ps := RowPaths(xs, 0);
  }

  /** An id is extracted if and only if some path of the call leads to a reference to it. */
  lemma ExtractedIffReferred(args: seq<Value>, kwargs: Kwargs, d: nat)
    ensures d in CallRefs(args, kwargs) <==> exists p :: CallAt(args, kwargs, p) == Some(Ref(d))
  {
    var ps := ExtractedAreThePaths(args, kwargs);
    var refs := CallRefs(args, kwargs);
    hide CallAt, CallRefs, Increasing;
    if d in refs {
      var i :| 0 <= i < |refs| && refs[i] == d;
      assert CallAt(args, kwargs, ps[i]) == Some(Ref(d));
    }
    if p :| CallAt(args, kwargs, p) == Some(Ref(d)) {
      var i :| 0 <= i < |ps| && ps[i] == p;
      assert refs[i] == d;
    }
  }

  /** It is extracted as often as there are such paths. */
  lemma ExtractedAsOften(args: seq<Value>, kwargs: Kwargs, d: nat, where: set<Path>)
    requires forall p :: p in where <==> CallAt(args, kwargs, p) == Some(Ref(d))
    ensures multiset(CallRefs(args, kwargs))[d] == |where|
  {
    var ps := ExtractedAreThePaths(args, kwargs);
    var refs := CallRefs(args, kwargs);
    hide CallAt, CallRefs;
    IncreasingIsDistinct(ps);
    hide Increasing;
    CountMatches(ps, refs, d);
    assert where == Matching(ps, refs, d) by {
      forall p
        ensures p in where <==> p in Matching(ps, refs, d)
      {
        if p in where {
          var i :| 0 <= i < |ps| && ps[i] == p;
          assert refs[i] == d;
        }
      }
    }
  }

  lemma IncreasingIsDistinct(ps: seq<Path>)
    requires Increasing(ps)
    ensures forall i, j :: 0 <= i < j < |ps| ==> ps[i] != ps[j]
  {
    forall i, j | 0 <= i < j < |ps|
      ensures ps[i] != ps[j]
    {
      NotBeforeItself(ps[i]);
    }
  }

  function Matching(ps: seq<Path>, refs: seq<nat>, d: nat): set<Path>
    requires |ps| == |refs|
  {
    set i | 0 <= i < |ps| && refs[i] == d :: ps[i]
  }

  lemma {:induction false} CountMatches(ps: seq<Path>, refs: seq<nat>, d: nat)
    requires |ps| == |refs| && forall i, j :: 0 <= i < j < |ps| ==> ps[i] != ps[j]
    ensures multiset(refs)[d] == |Matching(ps, refs, d)|
    decreases |ps|
  {
    if ps != [] {
      var n := |ps| - 1;
      assert refs == refs[..n] + [refs[n]];
      CountMatches(ps[..n], refs[..n], d);
      var before := Matching(ps[..n], refs[..n], d);
      assert ps[n] !in before;
      assert Matching(ps, refs, d) == if refs[n] == d then before + {ps[n]} else before;
    }
  }
}
