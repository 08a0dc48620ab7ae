/**
  What a task means, from what the user's own functions return.

  The theorems of this module tie the recursive evaluation of a lineage to the functions in
  `World` and to nothing else.
 */
module Calls {
  import opened Dag
  import opened Lineage
  import Cluster
  import ClusterValues

  /** The lineage of `o` is the call `c`. */
  predicate Makes(tb: Table, o: nat, c: Call)
  {
    o in tb.producer && tb.producer[o] in tb.tasks && tb.tasks[tb.producer[o]].call == c
  }

  /** Arguments with every reference replaced by what it means. */
  ghost function Resolved(w: World, tb: Table, xs: seq<Value>): seq<Value>
    requires WellFounded(tb) && forall d :: d in RefsOf(xs) ==> d in tb.producer
  {
    FillAll(xs, Meanings(w, tb, RefsOf(xs)))
  }

  ghost function Meanings(w: World, tb: Table, ids: seq<nat>): (vs: seq<Value>)
    requires WellFounded(tb) && forall d :: d in ids ==> d in tb.producer
    ensures |vs| == |ids|
  {
    seq(|ids|, i requires 0 <= i < |ids| => Meaning(w, tb, ids[i]))
  }

  /** The references of a registered call are registered. */
  predicate Closes(tb: Table, c: Call)
  {
    && (forall d :: d in RefsOf(c.args) ==> d in tb.producer)
    && (forall d :: d in RefsOf(c.kwargs.values) ==> d in tb.producer)
  }

  lemma MadeCloses(tb: Table, o: nat, c: Call)
    requires WellFounded(tb) && Makes(tb, o, c)
    ensures Closes(tb, c)
  {
    var t := tb.producer[o];
    assert tb.tasks[t].deps == RefsOf(c.args) + RefsOf(c.kwargs.values);
    assert forall d :: d in RefsOf(c.args) ==> d in tb.tasks[t].deps;
    assert forall d :: d in RefsOf(c.kwargs.values) ==> d in tb.tasks[t].deps;
  }

  /** An object's meaning from its call with resolved arguments. */
  lemma MeaningOfCall(w: World, tb: Table, o: nat, c: Call)
    requires WellFounded(tb) && Makes(tb, o, c)
    ensures Closes(tb, c)
    ensures Meaning(w, tb, o) == Deliver(tb.producer[o],
      Apply(w, Call(c.func, Resolved(w, tb, c.args), Kwargs(c.kwargs.names, Resolved(w, tb, c.kwargs.values)))))
  {
    MadeCloses(tb, o, c);
    var t := tb.producer[o];
    assert tb.tasks[t].deps == DepsOf(c);
    var n, inputs := |RefsOf(c.args)|, Inputs(w, tb, t);
    hide WellFounded, Apply, FillAll;
    assert inputs[..n] == Meanings(w, tb, RefsOf(c.args));
    assert inputs[n..] == Meanings(w, tb, RefsOf(c.kwargs.values));
  }

  // ------------------------------------------------------- plain tasks

  /** What is stored under `o` when its task's function ends like this. */
  predicate Ends(tb: Table, o: nat, r: Outcome, v: Value)
    requires o in tb.producer
  {
    match r
    case Ok(x) => v == x
    case Err(m) => v == TaskError(tb.producer[o], m)
  }

  /** How the user's function ends on the positional and keyword arguments of the call, with
      every reference replaced by the meaning of its object. */
  ghost function UserResult(w: World, tb: Table, code: nat, args: seq<Value>, kwargs: Kwargs): Outcome
    requires WellFounded(tb) && Closes(tb, Call(User(code), args, kwargs))
  {
    w.user(code, Resolved(w, tb, args), Kwargs(kwargs.names, Resolved(w, tb, kwargs.values)))
  }

  /** An object of a plain task means what the user's function returns, and a `_TaskError`
      with the id of its task and the message if it raises. */
  lemma UserTaskMeans(w: World, tb: Table, o: nat, code: nat, args: seq<Value>, kwargs: Kwargs)
    requires WellFounded(tb) && Makes(tb, o, Call(User(code), args, kwargs))
    ensures Closes(tb, Call(User(code), args, kwargs))
    ensures Ends(tb, o, UserResult(w, tb, code, args, kwargs), Meaning(w, tb, o))
  {
    MeaningOfCall(w, tb, o, Call(User(code), args, kwargs));
    hide WellFounded, Meaning, Resolved;
  }

  /** In every run, whatever is stored for a plain task is what the user's function returns
      on its resolved arguments, or the error that names the task. */
  lemma UserTaskIsStored(w: World, run: seq<Cluster.State>, labels: seq<Cluster.Label>, m: nat, n: nat, o: nat,
                         code: nat, args: seq<Value>, kwargs: Kwargs)
    requires Cluster.IsRun(w, run, labels) && m <= n < |run|
    requires Makes(run[m].table, o, Call(User(code), args, kwargs)) && o in run[n].store
    ensures WellFounded(run[m].table) && Closes(run[m].table, Call(User(code), args, kwargs))
    ensures Ends(run[m].table, o, UserResult(w, run[m].table, code, args, kwargs), run[n].store[o])
  {
    hide Cluster.IsRun, WellFounded, Meaning, UserResult, Ends;
    ClusterValues.TableGrows(w, run, labels, m, n);
    ClusterValues.ValueSoundness(w, run, labels, n);
    UserTaskMeans(w, run[m].table, o, code, args, kwargs);
    MeaningStable(w, run[m].table, run[n].table, o);
  }
}
