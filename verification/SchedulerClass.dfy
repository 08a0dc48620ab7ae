/**
  The scheduler object of `_fallback/scheduler.py`.  Every method runs under the
  scheduler's lock (or is a single queue operation), so it is one atomic step.
 */
module SchedulerClass {
  import opened Collections
  import opened Wrappers
  import opened SchedulerSpec

  /** No task stands twice in `out` followed by `ready`. */
  ghost predicate Once(out: seq<nat>, ready: seq<nat>)
  {
    && NoRepeats(out)
    && NoRepeats(ready)
    && forall t :: t in out ==> t !in ready
  }

  class Scheduler {
    var readyQueue: seq<nat>
    var pendingTasks: map<nat, set<nat>>
    var objectToWaiting: map<nat, seq<nat>>

    /** Every task ever submitted, with its dependency list. */
    ghost var submitted: map<nat, seq<nat>>
    /** The tasks handed out by `pop_ready_task`, in order. */
    ghost var popped: seq<nat>

    function State(): Sched
      reads this
    {
      Sched(pendingTasks, objectToWaiting, readyQueue)
    }

    /** The representation invariant, and: every submitted task is in exactly one
        of pending, ready, popped, and was released at most once. */
    ghost predicate Valid()
      reads this
    {
      && RepInv(State(), submitted)
      && Once(popped, readyQueue)
      && (forall t :: t in popped ==> t !in pendingTasks)
      && (forall t :: t in submitted <==> t in pendingTasks || t in readyQueue || t in popped)
    }

    constructor ()
      ensures Valid() && State() == FRESH && submitted == map[] && popped == []
    {
      readyQueue, pendingTasks, objectToWaiting := [], map[], map[];
      submitted, popped := map[], [];
    }

    /** `submit`.  Task ids are drawn from a counter, so they are never reused. */
    method Submit(t: nat, deps: seq<nat>)
      requires Valid() && t !in submitted
      modifies this
      ensures Valid()
      ensures State() == SchedulerSpec.Submit(old(State()), t, deps)
      ensures submitted == old(submitted)[t := deps] && popped == old(popped)
    {
      ghost var s := State();
      if deps == [] {
        readyQueue := readyQueue + [t];
      } else {
        pendingTasks := pendingTasks[t := set d | d in deps];
        var i := 0;
        while i < |deps|
          invariant 0 <= i <= |deps|
          invariant Index(objectToWaiting, deps[i..], t) == Index(s.waiting, deps, t)
          invariant readyQueue == s.ready && pendingTasks == s.pending[t := Elems(deps)]
          invariant submitted == old(submitted) && popped == old(popped)
        {
          var d := deps[i];
          assert deps[i..][0] == d && deps[i..][1..] == deps[i + 1..];
          objectToWaiting := objectToWaiting[d := (if d in objectToWaiting then objectToWaiting[d] else []) + [t]];
          i := i + 1;
        }
      }
      submitted := submitted[t := deps];
      RepInvGrows(s, old(submitted), submitted);
      SubmitKeepsRepInv(s, submitted, t);
    }

    /** `on_object_ready`. */
    method OnObjectReady(d: nat)
      requires Valid()
      modifies this`readyQueue, this`pendingTasks, this`objectToWaiting
      ensures Valid()
      ensures State() == SchedulerSpec.OnObjectReady(old(State()), d)
    {
      ghost var s := State();
      var waiting := if d in objectToWaiting then objectToWaiting[d] else [];
      objectToWaiting := objectToWaiting - {d};
      var i := 0;
      while i < |waiting|
        invariant 0 <= i <= |waiting|
        invariant Unblock(State(), d, waiting[i..]) == SchedulerSpec.OnObjectReady(s, d)
      {
        var t := waiting[i];
        assert waiting[i..][0] == t && waiting[i..][1..] == waiting[i + 1..];
        if t in pendingTasks {
          var unresolved := pendingTasks[t] - {d};
          if unresolved == {} {
            pendingTasks := pendingTasks - {t};
            readyQueue := readyQueue + [t];
          } else {
            pendingTasks := pendingTasks[t := unresolved];
          }
        }
        i := i + 1;
      }
      OnObjectReadyEffect(s, submitted, d);
    }

    /** `pop_ready_task` with a zero timeout. */
    method PopReadyTask() returns (t: Option<nat>)
      requires Valid()
      modifies this`readyQueue, this`popped
      ensures Valid()
      ensures old(readyQueue) == [] ==> t == None && State() == old(State()) && popped == old(popped)
      ensures old(readyQueue) != [] ==>
        && t == Some(old(readyQueue)[0]) && State() == Pop(old(State()))
        && popped == old(popped) + [old(readyQueue)[0]]
    {
      if readyQueue == [] {
        return None;
      }
      t := Some(readyQueue[0]);
      PopKeepsRepInv(State(), submitted);
      popped := popped + [readyQueue[0]];
      readyQueue := readyQueue[1..];
    }
  }

  // ---------------------------------------------------------------- refinement

  /** What callers do to a scheduler. */
  datatype Event = Submitted(t: nat, deps: seq<nat>) | Announced(d: nat) | PopRequested

  /** The scheduler after a history of calls. */
  function Replay(h: seq<Event>): Sched
  {
    if h == [] then FRESH
    else
      var s := Replay(h[..|h| - 1]);
      match h[|h| - 1]
      case Submitted(t, deps) => SchedulerSpec.Submit(s, t, deps)
      case Announced(d) => OnObjectReady(s, d)
      case PopRequested => if s.ready == [] then s else Pop(s)
  }

  /** The tasks handed out during a history, in order. */
  function HandedOut(h: seq<Event>): seq<nat>
  {
    if h == [] then []
    else
      var before := Replay(h[..|h| - 1]);
      HandedOut(h[..|h| - 1]) +
      (if h[|h| - 1] == PopRequested && before.ready != [] then [before.ready[0]] else [])
  }

  /** Task ids are used for one submission each. */
  ghost predicate FreshIds(h: seq<Event>)
  {
    forall i, j :: 0 <= i < j < |h| && h[i].Submitted? && h[j].Submitted? ==> h[i].t != h[j].t
  }

  /** The rule the scheduler is meant to implement, stated without its tables: for
      every submitted task, the dependencies not announced since its submission. */
  function Missing(h: seq<Event>): map<nat, set<nat>>
  {
    if h == [] then map[] else MissingAfter(Missing(h[..|h| - 1]), h[|h| - 1])
  }

  function MissingAfter(m: map<nat, set<nat>>, e: Event): map<nat, set<nat>>
  {
    match e
    case Submitted(t, deps) => m[t := Elems(deps)]
    case Announced(d) => map t | t in m :: m[t] - {d}
    case PopRequested => m
  }

  /** The dependency lists of a history's submissions. */
  function DepsIn(h: seq<Event>): map<nat, seq<nat>>
  {
    if h == [] then map[]
    else
      var m := DepsIn(h[..|h| - 1]);
      if h[|h| - 1].Submitted? then m[h[|h| - 1].t := h[|h| - 1].deps] else m
  }

  /** The tasks that still miss something. */
  function Open(missing: map<nat, set<nat>>): map<nat, set<nat>>
  {
    map t | t in missing && missing[t] != {} :: missing[t]
  }

  /** A scheduler that has handed out `out` agrees with the rule. */
  ghost predicate Agrees(s: Sched, out: seq<nat>, deps: map<nat, seq<nat>>, missing: map<nat, set<nat>>)
  {
    && RepInv(s, deps)
    && deps.Keys == missing.Keys
    && s.pending == Open(missing)
    && Once(out, s.ready)
    && (forall t :: t in out || t in s.ready <==> t in missing && missing[t] == {})
  }

  /**
    Refinement.  After every history of submissions, announcements and pops under
    fresh task ids, in any order and with any repetition: a task is pending exactly
    while some dependency has not been announced since its submission, and what the
    table still lists are those dependencies; it has been released, exactly once,
    exactly when all of them have; and released tasks are handed out in the order in
    which they became ready.
   */
  lemma {:induction false} ReleaseWhenAllAnnounced(h: seq<Event>)
    requires FreshIds(h)
    ensures Agrees(Replay(h), HandedOut(h), DepsIn(h), Missing(h))
    decreases |h|
  {
    if h != [] {
      var g, e := h[..|h| - 1], h[|h| - 1];
      assert h == g + [e];
      ReleaseWhenAllAnnounced(g);
      var s, out, deps, missing := Replay(g), HandedOut(g), DepsIn(g), Missing(g);
      assert out + [] == out;
      match e {
        case Submitted(t, ds) =>
          NotYetSubmitted(g, e);
          AgreesAfterSubmit(s, out, deps, missing, t, ds);
        case Announced(d) =>
          AgreesAfterAnnounce(s, out, deps, missing, d);
        case PopRequested =>
          if s.ready != [] {
            AgreesAfterPop(s, out, deps, missing);
          }
      }
    }
  }

  lemma AgreesAfterSubmit(s: Sched, out: seq<nat>, deps: map<nat, seq<nat>>, missing: map<nat, set<nat>>, t: nat,
                          ds: seq<nat>)
    requires Agrees(s, out, deps, missing) && t !in missing
    ensures Agrees(SchedulerSpec.Submit(s, t, ds), out, deps[t := ds], MissingAfter(missing, Submitted(t, ds)))
  {
    RepInvGrows(s, deps, deps[t := ds]);
    SubmitKeepsRepInv(s, deps[t := ds], t);
    if ds != [] {
      assert ds[0] in Elems(ds);
    }
  }

  lemma AgreesAfterAnnounce(s: Sched, out: seq<nat>, deps: map<nat, seq<nat>>, missing: map<nat, set<nat>>, d: nat)
    requires Agrees(s, out, deps, missing)
    ensures Agrees(OnObjectReady(s, d), out, deps, MissingAfter(missing, Announced(d)))
  {
    OnObjectReadyEffect(s, deps, d);
    OpenAfterAnnounce(missing, d);
  }

  lemma OpenAfterAnnounce(missing: map<nat, set<nat>>, d: nat)
    ensures var missing' := MissingAfter(missing, Announced(d));
      && Without(Open(missing), d) == Open(missing')
      && forall t :: t in missing ==>
           (missing'[t] == {} <==> missing[t] == {} || (t in Open(missing) && Open(missing)[t] == {d}))
  {
    var missing' := MissingAfter(missing, Announced(d));
    forall t | t in missing
      ensures missing'[t] == {} <==> missing[t] == {} || missing[t] == {d}
    {
      assert missing[t] - {d} == {} ==> missing[t] == {} || missing[t] == {d};
    }
  }

  lemma AgreesAfterPop(s: Sched, out: seq<nat>, deps: map<nat, seq<nat>>, missing: map<nat, set<nat>>)
    requires Agrees(s, out, deps, missing) && s.ready != []
    ensures Agrees(Pop(s), out + [s.ready[0]], deps, missing)
  {
    PopKeepsRepInv(s, deps);
  }

  lemma {:induction false} NotYetSubmitted(g: seq<Event>, e: Event)
    requires e.Submitted? && FreshIds(g + [e])
    ensures FreshIds(g) && e.t !in Missing(g)
    decreases |g|
  {
    assert forall i :: 0 <= i < |g| ==> (g + [e])[i] == g[i];
    if g != [] {
      var f := g[..|g| - 1];
      assert (g + [e])[|g|] == e;
      assert FreshIds(f + [e]) by {
        forall i, j | 0 <= i < j < |f + [e]| && (f + [e])[i].Submitted? && (f + [e])[j].Submitted?
          ensures (f + [e])[i].t != (f + [e])[j].t
        {
          var j' := if j < |f| then j else |g|;
          assert (g + [e])[i] == (f + [e])[i] && (g + [e])[j'] == (f + [e])[j];
        }
      }
      NotYetSubmitted(f, e);
      assert (g + [e])[|g| - 1] == g[|g| - 1];
    }
  }
}
