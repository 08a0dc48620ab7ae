/**
  Actors built from tasks.  The state of an actor flows through a chain of objects: the
  first is the constructed state, and each call adds a task that takes the previous
  object and returns the new state with the method's value, and a second task that picks
  the value out for the user.

  The yardstick is an ordinary sequential object: a state that is constructed once and on
  which the calls are made one after the other.
 */
module Actor {
  import opened Wrappers
  import opened Dag
  import opened Lineage
  import opened Calls
  import opened RuntimeClass
  import Cluster
  import ClusterValues

  // ------------------------------------------------------- the sequential object

  /** A method call with its arguments resolved. */
  datatype Turn = Turn(name: string, args: seq<Dag.Value>, kwargs: Kwargs)

  /** The instance after the calls in `turns`, unless the constructor or one of them raised. */
  function After(w: World, start: Constructed, turns: seq<Turn>): Option<int>
  {
    if turns == [] then
      (match start case Instance(i) => Some(i) case ConstructorRaised(_) => None)
    else
      var turn := turns[|turns| - 1];
      match After(w, start, turns[..|turns| - 1])
      case None => None
      case Some(i) =>
        match w.invoke(i, turn.name, turn.args, turn.kwargs)
        case Returned(j, _) => Some(j)
        case MethodRaised(_) => None
  }

  /** What the last of the calls returns. */
  function Output(w: World, start: Constructed, turns: seq<Turn>): Option<Dag.Value>
    requires turns != []
  {
    var turn := turns[|turns| - 1];
    match After(w, start, turns[..|turns| - 1])
    case None => None
    case Some(i) =>
      match w.invoke(i, turn.name, turn.args, turn.kwargs)
      case Returned(_, v) => Some(v)
      case MethodRaised(_) => None
  }

  // ------------------------------------------------------- the chain of tasks

  /** What the user asked for: the constructor's arguments and the calls, with references. */
  datatype Script = Script(cls: nat, args: seq<Dag.Value>, kwargs: Kwargs, calls: seq<Turn>)

  /** The objects behind it: `states[i]` carries the state after `i` calls, `users[i]` is
      what the user got for call `i`. */
  datatype Chain = Chain(states: seq<nat>, users: seq<nat>)

  /** The lineage recorded for the actor. */
  predicate IsChain(tb: Table, a: Script, c: Chain)
  {
    && |c.states| == |a.calls| + 1 && |c.users| == |a.calls|
    && Makes(tb, c.states[0], Call(InitActor(a.cls), a.args, a.kwargs))
    && (forall i :: 0 <= i < |a.calls| ==>
          Makes(tb, c.states[i + 1], LinkCall(c.states[i], a.calls[i])))
    && (forall i :: 0 <= i < |a.calls| ==>
          Makes(tb, c.users[i], Call(ExtractReturnValue, [Ref(c.states[i + 1])], NO_KWARGS)))
  }

  ghost function ResolvedTurn(w: World, tb: Table, t: Turn): Turn
    requires WellFounded(tb) && Closes(tb, Call(User(0), t.args, t.kwargs))
  {
    Turn(t.name, Resolved(w, tb, t.args), Kwargs(t.kwargs.names, Resolved(w, tb, t.kwargs.values)))
  }

  /** The first argument of a call in the chain. */
  lemma FirstArgument(w: World, tb: Table, o: nat, xs: seq<Dag.Value>)
    requires WellFounded(tb) && o in tb.producer && forall d :: d in RefsOf(xs) ==> d in tb.producer
    ensures RefsOf([Ref(o)] + xs) == [o] + RefsOf(xs)
    ensures Resolved(w, tb, [Ref(o)] + xs) == [Meaning(w, tb, o)] + Resolved(w, tb, xs)
  {
    hide Meaning;
    var ys := [Ref(o)] + xs;
    assert ys[0] == Ref(o) && ys[1..] == xs;
    assert RefsOf(ys) == [o] + RefsOf(xs);
    var a, b := [Meaning(w, tb, o)], Meanings(w, tb, RefsOf(xs));
    assert Meanings(w, tb, RefsOf(ys)) == a + b;
    FillAllSplit(ys, a, b);
  }

  /** The object after some calls: the constructed state, or a state paired with a value. */
  predicate Carries(v: Dag.Value, i: int)
  {
    v == ActorState(i) || (v.Tuple? && |v.items| == 2 && v.items[0] == ActorState(i))
  }

  lemma MethodStep(w: World, state: Dag.Value, t: Turn, i: int)
    requires Carries(state, i)
    ensures Apply(w, Call(ActorMethod(t.name), [state] + t.args, t.kwargs)) ==
      match w.invoke(i, t.name, t.args, t.kwargs)
      case Returned(j, v) => Ok(Tuple([ActorState(j), v]))
      case MethodRaised(m) => Err(m)
  {
    assert ([state] + t.args)[1..] == t.args;
  }

  lemma MethodOnError(w: World, e: Dag.Value, t: Turn)
    requires e.TaskError?
    ensures Apply(w, Call(ActorMethod(t.name), [e] + t.args, t.kwargs)).Err?
  {
  }

  /** All references in the script are registered. */
  ghost predicate Resolvable(tb: Table, a: Script)
  {
    && Closes(tb, Call(InitActor(a.cls), a.args, a.kwargs))
    && forall i :: 0 <= i < |a.calls| ==> Closes(tb, Call(User(0), a.calls[i].args, a.calls[i].kwargs))
  }

  /** The first `n` calls with their arguments resolved. */
  ghost function Turns(w: World, tb: Table, a: Script, n: nat): (turns: seq<Turn>)
    requires WellFounded(tb) && n <= |a.calls| && Resolvable(tb, a)
    ensures |turns| == n
  {
    seq(n, i requires 0 <= i < n => ResolvedTurn(w, tb, a.calls[i]))
  }

  ghost function Start(w: World, tb: Table, a: Script): Constructed
    requires WellFounded(tb) && Resolvable(tb, a)
  {
    w.construct(a.cls, Resolved(w, tb, a.args), Kwargs(a.kwargs.names, Resolved(w, tb, a.kwargs.values)))
  }

  lemma CallCloses(tb: Table, a: Script, c: Chain, i: nat)
    requires WellFounded(tb) && IsChain(tb, a, c) && i < |a.calls|
    ensures Closes(tb, Call(User(0), a.calls[i].args, a.calls[i].kwargs))
  {
    var xs := [Ref(c.states[i])] + a.calls[i].args;
    MadeCloses(tb, c.states[i + 1], Call(ActorMethod(a.calls[i].name), xs, a.calls[i].kwargs));
    hide WellFounded, IsChain;
    assert xs[1..] == a.calls[i].args;
    assert RefsOf(xs) == Refs(xs[0]) + RefsOf(xs[1..]);
  }

  lemma StateIsMade(tb: Table, a: Script, c: Chain, i: nat)
    requires IsChain(tb, a, c) && i <= |a.calls|
    ensures c.states[i] in tb.producer && (i > 0 ==> c.users[i - 1] in tb.producer)
  {
    if i > 0 {
      assert Makes(tb, c.states[i - 1 + 1], LinkCall(c.states[i - 1], a.calls[i - 1]));
    }
  }

  lemma ChainResolvable(tb: Table, a: Script, c: Chain)
    requires WellFounded(tb) && IsChain(tb, a, c)
    ensures Resolvable(tb, a)
  {
    MadeCloses(tb, c.states[0], Call(InitActor(a.cls), a.args, a.kwargs));
    hide WellFounded, IsChain, Closes;
    forall i | 0 <= i < |a.calls|
      ensures Closes(tb, Call(User(0), a.calls[i].args, a.calls[i].kwargs))
    {
      CallCloses(tb, a, c, i);
    }
  }

  // ------------------------------------------------------- the chain is the fold

  /** The object in the chain carries the state the sequential object has. */
  ghost predicate Matches(v: Dag.Value, state: Option<int>)
  {
    match state
    case Some(i) => Carries(v, i)
    case None => v.TaskError?
  }

  /** A state object is the method applied to the one before it. */
  lemma StateMeaning(w: World, tb: Table, a: Script, c: Chain, i: nat)
    requires WellFounded(tb) && IsChain(tb, a, c) && Resolvable(tb, a) && 0 < i <= |a.calls|
    ensures c.states[i] in tb.producer && c.states[i - 1] in tb.producer
    ensures var t := ResolvedTurn(w, tb, a.calls[i - 1]);
      Meaning(w, tb, c.states[i]) == Deliver(tb.producer[c.states[i]],
        Apply(w, Call(ActorMethod(t.name), [Meaning(w, tb, c.states[i - 1])] + t.args, t.kwargs)))
  {
    var call := a.calls[i - 1];
    StateIsMade(tb, a, c, i - 1);
    assert Makes(tb, c.states[i - 1 + 1], LinkCall(c.states[i - 1], call));
    assert Closes(tb, Call(User(0), call.args, call.kwargs));
    hide WellFounded, IsChain, Resolvable, Apply, Meaning, Resolved;
    FirstArgument(w, tb, c.states[i - 1], call.args);
    MeaningOfCall(w, tb, c.states[i], Call(ActorMethod(call.name), [Ref(c.states[i - 1])] + call.args, call.kwargs));
  }

  /** One call, on the values: the object after it carries the state and the value the
      sequential object ends up with. */
  lemma OneTurn(w: World, start: Constructed, turns: seq<Turn>, t: Turn, before: Dag.Value, id: nat)
    requires Matches(before, After(w, start, turns))
    ensures var after := Deliver(id, Apply(w, Call(ActorMethod(t.name), [before] + t.args, t.kwargs)));
      && Matches(after, After(w, start, turns + [t]))
      && match Output(w, start, turns + [t])
         case Some(v) => Item(after, 1) == Some(v)
         case None => after.TaskError?
  {
    assert (turns + [t])[..|turns|] == turns && (turns + [t])[|turns|] == t;
    match After(w, start, turns) {
      case Some(s) => MethodStep(w, before, t, s);
      case None => MethodOnError(w, before, t);
    }
    hide Apply;
  }

  lemma TurnsGrow(w: World, tb: Table, a: Script, i: nat)
    requires WellFounded(tb) && Resolvable(tb, a) && i < |a.calls|
    ensures Closes(tb, Call(User(0), a.calls[i].args, a.calls[i].kwargs))
    ensures Turns(w, tb, a, i + 1) == Turns(w, tb, a, i) + [ResolvedTurn(w, tb, a.calls[i])]
  {
    hide WellFounded, Resolved;
  }

  lemma {:induction false} StatesAreFolded(w: World, tb: Table, a: Script, c: Chain, i: nat)
    requires WellFounded(tb) && IsChain(tb, a, c) && Resolvable(tb, a) && i <= |a.calls|
    ensures c.states[i] in tb.producer
    ensures Matches(Meaning(w, tb, c.states[i]), After(w, Start(w, tb, a), Turns(w, tb, a, i)))
    decreases i
  {
    hide WellFounded, Meaning, Resolvable;
    if i == 0 {
      MeaningOfCall(w, tb, c.states[0], Call(InitActor(a.cls), a.args, a.kwargs));
    } else {
      StatesAreFolded(w, tb, a, c, i - 1);
      StateMeaning(w, tb, a, c, i);
      TurnsGrow(w, tb, a, i - 1);
      hide IsChain, Apply, Matches, After, Output, Turns, ResolvedTurn, Start;
      OneTurn(w, Start(w, tb, a), Turns(w, tb, a, i - 1), ResolvedTurn(w, tb, a.calls[i - 1]),
              Meaning(w, tb, c.states[i - 1]), tb.producer[c.states[i]]);
    }
  }

  /** What the user gets for a call is picked out of the state object after it. */
  lemma UserMeaning(w: World, tb: Table, a: Script, c: Chain, i: nat)
    requires WellFounded(tb) && IsChain(tb, a, c) && i < |a.calls|
    ensures c.users[i] in tb.producer && c.states[i + 1] in tb.producer
    ensures Meaning(w, tb, c.users[i]) == Deliver(tb.producer[c.users[i]],
      match Item(Meaning(w, tb, c.states[i + 1]), 1) case None => Err("TypeError") case Some(v) => Ok(v))
  {
    var o := c.states[i + 1];
    StateIsMade(tb, a, c, i + 1);
    assert Makes(tb, c.users[i], Call(ExtractReturnValue, [Ref(o)], NO_KWARGS));
    hide WellFounded, IsChain, Meaning, Resolved;
    FirstArgument(w, tb, o, []);
    assert [Ref(o)] + [] == [Ref(o)];
    assert Resolved(w, tb, []) == [] && Resolved(w, tb, NO_KWARGS.values) == [] by { NothingToResolve(w, tb); }
    MeaningOfCall(w, tb, c.users[i], Call(ExtractReturnValue, [Ref(o)], NO_KWARGS));
  }

  /** An error that names the task of `o`. */
  predicate FailsAt(tb: Table, o: nat, v: Dag.Value)
  {
    o in tb.producer && v.TaskError? && v.taskId == tb.producer[o]
  }

  lemma NothingToResolve(w: World, tb: Table)
    requires WellFounded(tb)
    ensures Resolved(w, tb, []) == []
  {
  }

  /**
    Actor calls are sequential.  What the user's reference for call `i` means is what an
    ordinary object returns for it when the calls are made one after the other in
    submission order; if the constructor or any call up to `i` raises, it is an error that
    names the task of that very reference.
   */
  lemma ActorIsFold(w: World, tb: Table, a: Script, c: Chain, i: nat)
    requires WellFounded(tb) && IsChain(tb, a, c) && i < |a.calls|
    ensures Resolvable(tb, a) && c.users[i] in tb.producer
    ensures match Output(w, Start(w, tb, a), Turns(w, tb, a, i + 1))
      case Some(v) => Meaning(w, tb, c.users[i]) == v
      case None => FailsAt(tb, c.users[i], Meaning(w, tb, c.users[i]))
  {
    ChainResolvable(tb, a, c);
    StatesAreFolded(w, tb, a, c, i);
    StateMeaning(w, tb, a, c, i + 1);
    UserMeaning(w, tb, a, c, i);
    TurnsGrow(w, tb, a, i);
    hide WellFounded, IsChain, Meaning, Resolvable, Apply, Matches, After, Output, Turns, ResolvedTurn, Start;
    OneTurn(w, Start(w, tb, a), Turns(w, tb, a, i), ResolvedTurn(w, tb, a.calls[i]),
            Meaning(w, tb, c.states[i]), tb.producer[c.states[i + 1]]);
  }

  /** The last of these turns raises, or without turns the constructor. */
  predicate LastRaises(w: World, start: Constructed, turns: seq<Turn>, m: string)
  {
    if turns == [] then start == ConstructorRaised(m)
    else
      var turn := turns[|turns| - 1];
      match After(w, start, turns[..|turns| - 1])
      case None => false
      case Some(i) => w.invoke(i, turn.name, turn.args, turn.kwargs) == MethodRaised(m)
  }

  /** Where the actor's own code raises first, its state object is the error with the
      message raised and the task that ran the code. */
  lemma FirstErrorIsNamed(w: World, tb: Table, a: Script, c: Chain, i: nat, m: string)
    requires WellFounded(tb) && IsChain(tb, a, c) && i <= |a.calls|
    ensures Resolvable(tb, a) && c.states[i] in tb.producer
    ensures LastRaises(w, Start(w, tb, a), Turns(w, tb, a, i), m) ==>
      Meaning(w, tb, c.states[i]) == TaskError(tb.producer[c.states[i]], m)
  {
    ChainResolvable(tb, a, c);
    if i == 0 {
      ConstructorErrorIsNamed(w, tb, a, c, m);
    } else {
      ChainLength(tb, a, c);
      hide WellFounded, Meaning, Resolvable, IsChain, Apply, Matches, After, Turns, ResolvedTurn, Start, LastRaises;
      StatesAreFolded(w, tb, a, c, i - 1);
      StateMeaning(w, tb, a, c, i);
      TurnsGrow(w, tb, a, i - 1);
      RaisingTurn(w, Start(w, tb, a), Turns(w, tb, a, i - 1), ResolvedTurn(w, tb, a.calls[i - 1]),
                  Meaning(w, tb, c.states[i - 1]), m);
    }
  }

  lemma ConstructorErrorIsNamed(w: World, tb: Table, a: Script, c: Chain, m: string)
    requires WellFounded(tb) && IsChain(tb, a, c) && Resolvable(tb, a)
    ensures c.states[0] in tb.producer
    ensures LastRaises(w, Start(w, tb, a), Turns(w, tb, a, 0), m) ==>
      Meaning(w, tb, c.states[0]) == TaskError(tb.producer[c.states[0]], m)
  {
    hide WellFounded, Meaning, Resolvable, Resolved;
    MeaningOfCall(w, tb, c.states[0], Call(InitActor(a.cls), a.args, a.kwargs));
  }

  lemma RaisingTurn(w: World, start: Constructed, turns: seq<Turn>, t: Turn, before: Dag.Value, m: string)
    requires Matches(before, After(w, start, turns))
    ensures LastRaises(w, start, turns + [t], m) ==>
      Apply(w, Call(ActorMethod(t.name), [before] + t.args, t.kwargs)) == Err(m)
  {
    assert (turns + [t])[..|turns|] == turns && (turns + [t])[|turns|] == t;
    if After(w, start, turns).Some? {
      MethodStep(w, before, t, After(w, start, turns).value);
    }
  }

  /** Failure poisons the chain: once a state object means an error, so does every later
      one, and every later reference the user gets. */
  lemma {:induction false} FailurePoisons(w: World, tb: Table, a: Script, c: Chain, k: nat, i: nat)
    requires WellFounded(tb) && IsChain(tb, a, c) && k <= i <= |a.calls|
    requires c.states[k] in tb.producer && Meaning(w, tb, c.states[k]).TaskError?
    ensures c.states[i] in tb.producer && Meaning(w, tb, c.states[i]).TaskError?
    ensures i > 0 ==> c.users[i - 1] in tb.producer && Meaning(w, tb, c.users[i - 1]).TaskError?
    decreases i
  {
    hide WellFounded, Meaning, Resolvable;
    if i > k {
      FailurePoisons(w, tb, a, c, k, i - 1);
      ChainResolvable(tb, a, c);
      StateMeaning(w, tb, a, c, i);
      TurnsGrow(w, tb, a, i - 1);
      MethodOnError(w, Meaning(w, tb, c.states[i - 1]), ResolvedTurn(w, tb, a.calls[i - 1]));
    }
    if i > 0 {
      UserMeaning(w, tb, a, c, i - 1);
    }
    hide IsChain, Apply;
  }

  // ------------------------------------------------------- in every run

  /** Later submissions leave a chain as it is. */
  lemma ChainStays(tb: Table, tb': Table, a: Script, c: Chain)
    requires IsChain(tb, a, c) && Extends(tb, tb')
    ensures IsChain(tb', a, c)
  {
    assert forall o, call :: Makes(tb, o, call) ==> Makes(tb', o, call);
    hide Makes, Extends;
  }

  /** In every run, however its tasks are scheduled, repeated, evicted and rebuilt: what
      is stored for the user's reference `i` is the output of the sequential object. */
  lemma ActorCallsAreSequential(w: World, run: seq<Cluster.State>, labels: seq<Cluster.Label>, m: nat, n: nat,
                                a: Script, c: Chain, i: nat)
    requires Cluster.IsRun(w, run, labels) && m <= n < |run|
    requires IsChain(run[m].table, a, c) && i < |a.calls| && c.users[i] in run[n].store
    ensures WellFounded(run[m].table) && Resolvable(run[m].table, a)
    ensures match Output(w, Start(w, run[m].table, a), Turns(w, run[m].table, a, i + 1))
      case Some(v) => run[n].store[c.users[i]] == v
      case None => FailsAt(run[m].table, c.users[i], run[n].store[c.users[i]])
  {
    assert i < |c.users|;
    hide Cluster.IsRun, IsChain, WellFounded, Meaning, Resolvable, Output, Start, Turns;
    ClusterValues.TableGrows(w, run, labels, m, n);
    ClusterValues.ValueSoundness(w, run, labels, n);
    ActorIsFold(w, run[m].table, a, c, i);
    MeaningStable(w, run[m].table, run[n].table, c.users[i]);
  }

  /** In every run: once a state object of the chain has been seen as a `_TaskError`,
      whatever is stored afterwards for a later call is a `_TaskError`, also if the state
      object has been evicted or rebuilt in between. */
  lemma FailedActorStaysFailed(w: World, run: seq<Cluster.State>, labels: seq<Cluster.Label>, m: nat, n: nat,
                               a: Script, c: Chain, k: nat, i: nat)
    requires Cluster.IsRun(w, run, labels) && m <= n < |run|
    requires IsChain(run[m].table, a, c) && k <= i < |a.calls|
    requires c.states[k] in run[m].store && run[m].store[c.states[k]].TaskError?
    ensures c.users[i] in run[n].store ==> run[n].store[c.users[i]].TaskError?
    ensures c.states[i + 1] in run[n].store ==> run[n].store[c.states[i + 1]].TaskError?
  {
    var tb, tb' := run[m].table, run[n].table;
    assert |c.states| == |a.calls| + 1 && |c.users| == |a.calls|;
    hide Cluster.IsRun, IsChain, WellFounded, Meaning;
    ClusterValues.TableGrows(w, run, labels, m, n);
    ClusterValues.ValueSoundness(w, run, labels, m);
    ClusterValues.ValueSoundness(w, run, labels, n);
    FailurePoisons(w, tb, a, c, k, i + 1);
    MeaningStable(w, tb, tb', c.users[i]);
    MeaningStable(w, tb, tb', c.states[i + 1]);
  }

  // ------------------------------------------------------- the handle

  /** How `handle.method.remote(..)` ends. */
  datatype RemoteCall = Reference(o: nat) | NoAttribute | Blocks(t: nat, on: nat)

  /** What `handle.method.remote(..)` does, given the last reference of the handle: the
      method's task is submitted, and unless that waits, the handle moves on to its object
      and the task that picks the value out is submitted. */
  ghost predicate Remotes(w: World, s: Snap, s': Snap, last: nat, last': nat, call: Turn, r: RemoteCall)
  {
    var s1, state := AfterSubmit(s, LinkCall(last, call)), s.nextId + 1;
    if !GoesThrough(s1) then last' == last && r.Blocks? && Flushes(w, s1, s', Some((r.t, r.on)))
    else
      var s2 := AfterSubmit(AllSent(w, s1), PickCall(state));
      && last' == state
      && if GoesThrough(s2) then r == Reference(state + 2) && s' == AllSent(w, s2)
         else r.Blocks? && Flushes(w, s2, s', Some((r.t, r.on)))
  }

  /** If the handle has moved on, the call and its two objects have been added. */
  predicate Grows(a: Script, a': Script, c: Chain, c': Chain, last: nat, last': nat, call: Turn)
  {
    if last' == last then a' == a && c' == c
    else
      && a' == a.(calls := a.calls + [call])
      && c' == Chain(c.states + [last'], c.users + [last' + 2])
  }

  /** A task that has been recorded waits for a dependency that is not stored. */
  predicate WaitsFor(s: Snap, t: nat, on: nat)
  {
    t in s.table.tasks && on in s.table.tasks[t].deps && on !in s.store
  }

  lemma FirstWaits(w: World, s: Snap, s': Snap, last: nat, call: Turn, t: nat, on: nat)
    requires Flushes(w, AfterSubmit(s, LinkCall(last, call)), s', Some((t, on)))
    ensures Remotes(w, s, s', last, last, call, Blocks(t, on))
    ensures WaitsFor(s', t, on)
  {
    hide Flushes, AfterSubmit, GoesThrough, AllSent, LinkCall;
    FlushIsSettled(w, AfterSubmit(s, LinkCall(last, call)), s', Some((t, on)));
  }

  lemma SecondEnds(w: World, s: Snap, m: Snap, s': Snap, last: nat, call: Turn, stuck: Option<(nat, nat)>)
    requires Flushes(w, AfterSubmit(s, LinkCall(last, call)), m, None)
    requires Flushes(w, AfterSubmit(m, PickCall(s.nextId + 1)), s', stuck)
    ensures Remotes(w, s, s', last, s.nextId + 1, call,
                    if stuck.Some? then Blocks(stuck.value.0, stuck.value.1) else Reference(s.nextId + 3))
    ensures stuck.Some? ==> WaitsFor(s', stuck.value.0, stuck.value.1)
  {
    hide Flushes, AfterSubmit, GoesThrough, AllSent, LinkCall, PickCall;
    FlushIsSettled(w, AfterSubmit(s, LinkCall(last, call)), m, None);
    FlushIsSettled(w, AfterSubmit(m, PickCall(s.nextId + 1)), s', stuck);
  }

  /** The two tasks draw consecutive ids. */
  lemma SubmitAdvances(w: World, s: Snap, call: Call, s': Snap, stuck: Option<(nat, nat)>)
    requires Flushes(w, AfterSubmit(s, call), s', stuck)
    ensures s'.nextId == s.nextId + 2
  {
    hide WellFounded, MessagesFor, AllStored, StopsAt, Begun, Record, Retriggered, DepsOf;
  }

  class ActorHandle {
    const runtime: Runtime
    const actorId: nat
    var lastRef: nat

    /** What was asked of the actor so far, and the objects that stand for it. */
    ghost var script: Script
    ghost var chain: Chain

    ghost predicate Valid()
      reads this, runtime, runtime.scheduler, runtime.ownership
    {
      && runtime.Valid()
      && IsChain(runtime.Tb(), script, chain)
      && lastRef == chain.states[|chain.states| - 1]
    }

    constructor (runtime: Runtime, actorId: nat, lastRef: nat, cls: nat, args: seq<Dag.Value>, kwargs: Kwargs)
      requires runtime.Valid() && Makes(runtime.Tb(), lastRef, Call(InitActor(cls), args, kwargs))
      ensures Valid() && this.runtime == runtime && this.actorId == actorId && this.lastRef == lastRef
      ensures script == Script(cls, args, kwargs, []) && chain == Chain([lastRef], [])
    {
      hide Runtime.Valid, Runtime.Tb, Makes;
      this.runtime, this.actorId, this.lastRef := runtime, actorId, lastRef;
      script, chain := Script(cls, args, kwargs, []), Chain([lastRef], []);
    }

    /** The first task of a call: it runs the method on the last state. */
    method SubmitLink(call: Turn) returns (state: nat, stuck: Option<(nat, nat)>)
      requires Valid() && Closes(runtime.Tb(), Call(User(0), call.args, call.kwargs))
      modifies runtime`nextId, runtime`taskQueue, runtime`dispatched, runtime`waiting
      modifies runtime.scheduler, runtime.ownership
      ensures Valid() && Extends(old(runtime.Tb()), runtime.Tb())
      ensures Makes(runtime.Tb(), state, LinkCall(lastRef, call)) && state == old(runtime.nextId) + 1
      ensures Flushes(runtime.world, AfterSubmit(old(runtime.Snapshot()), LinkCall(lastRef, call)), runtime.Snapshot(),
                      stuck)
    {
      hide WellFounded, IsChain, Runtime.Valid, Closes, Extends, Makes, DepsOf, LinkCall, Runtime.Tb;
      ghost var tb0 := runtime.Tb();
      LinkCloses(tb0, script, chain, call);
      state, stuck := SubmitFor(runtime, LinkCall(lastRef, call));
      ChainStays(tb0, runtime.Tb(), script, chain);
    }

    /** The handle points to the new state; then the second task of the call. */
    method SubmitPick(call: Turn, state: nat) returns (user: nat, stuck: Option<(nat, nat)>)
      requires Valid() && Makes(runtime.Tb(), state, LinkCall(lastRef, call))
      modifies this, runtime`nextId, runtime`taskQueue, runtime`dispatched, runtime`waiting
      modifies runtime.scheduler, runtime.ownership
      ensures Valid() && Extends(old(runtime.Tb()), runtime.Tb()) && lastRef == state
      ensures script == old(script).(calls := old(script).calls + [call])
      ensures chain == Chain(old(chain).states + [state], old(chain).users + [user]) && user == old(runtime.nextId) + 1
      ensures Flushes(runtime.world, AfterSubmit(old(runtime.Snapshot()), PickCall(state)), runtime.Snapshot(), stuck)
    {
      hide WellFounded, IsChain, Runtime.Valid, Extends, Makes, DepsOf, LinkCall, PickCall, Runtime.Tb;
      ghost var tb, last := runtime.Tb(), lastRef;
      ChainLength(tb, script, chain);
      lastRef := state;
      PickCloses(tb, state, LinkCall(last, call));
      user, stuck := SubmitFor(runtime, PickCall(state));
      ChainGrows(tb, runtime.Tb(), script, chain, call, state, user);
      script := script.(calls := script.calls + [call]);
      chain := Chain(chain.states + [state], chain.users + [user]);
    }

    /**
      `_ActorMethodCaller.remote`, reached through `__getattr__`.  A private name is no
      attribute and does nothing.  Otherwise one state object is added to the chain, and one
      object for the user; a reference is returned exactly if neither submission has to wait,
      and a call that waits does so for a missing dependency of a recorded task.
     */
    method Remote(name: string, args: seq<Dag.Value>, kwargs: Kwargs) returns (r: RemoteCall)
      requires Valid() && Closes(runtime.Tb(), Call(User(0), args, kwargs))
      modifies this, runtime`nextId, runtime`taskQueue, runtime`dispatched, runtime`waiting
      modifies runtime.scheduler, runtime.ownership
      ensures Valid() && Extends(old(runtime.Tb()), runtime.Tb())
      ensures r.NoAttribute? <==> name != "" && name[0] == '_'
      ensures r.NoAttribute? ==>
        runtime.Snapshot() == old(runtime.Snapshot()) && lastRef == old(lastRef)
        && script == old(script) && chain == old(chain)
      ensures !r.NoAttribute? ==>
        Remotes(runtime.world, old(runtime.Snapshot()), runtime.Snapshot(), old(lastRef), lastRef,
                Turn(name, args, kwargs), r)
      ensures !r.NoAttribute? ==>
        Grows(old(script), script, old(chain), chain, old(lastRef), lastRef, Turn(name, args, kwargs))
      ensures r.Reference? ==> lastRef != old(lastRef) && r.o == lastRef + 2
      ensures r.Blocks? ==> WaitsFor(runtime.Snapshot(), r.t, r.on)
    {
      hide WellFounded, Valid, Runtime.Valid, Closes, Makes, LinkCall, PickCall, Runtime.Tb, Extends, Flushes,
        AfterSubmit, Remotes, WaitsFor, IsChain;
      ExtendsItself(runtime.Tb());
      if name != "" && name[0] == '_' {
        return NoAttribute;
      }
      ghost var tb0, s0, last0 := runtime.Tb(), runtime.Snapshot(), lastRef;
      var call := Turn(name, args, kwargs);
      LastIsOld(this);
      var state, stuck := SubmitLink(call);
      SubmitAdvances(runtime.world, s0, LinkCall(last0, call), runtime.Snapshot(), stuck);
      if stuck.Some? {
        FirstWaits(runtime.world, s0, runtime.Snapshot(), last0, call, stuck.value.0, stuck.value.1);
        return Blocks(stuck.value.0, stuck.value.1);
      }
      ghost var tb1, s1 := runtime.Tb(), runtime.Snapshot();
      var user;
      user, stuck := SubmitPick(call, state);
      ExtendsTwice(tb0, tb1, runtime.Tb());
      SecondEnds(runtime.world, s0, s1, runtime.Snapshot(), last0, call, stuck);
      return if stuck.Some? then Blocks(stuck.value.0, stuck.value.1) else Reference(user);
    }
  }

  /** The object a handle points to is older than any new one. */
  lemma LastIsOld(h: ActorHandle)
    requires h.Valid()
    ensures h.lastRef < h.runtime.nextId
  {
    ChainLength(h.runtime.Tb(), h.script, h.chain);
    StateIsMade(h.runtime.Tb(), h.script, h.chain, |h.script.calls|);
    hide IsChain, WellFounded;
  }

  lemma ExtendsTwice(tb: Table, tb': Table, tb'': Table)
    requires Extends(tb, tb') && Extends(tb', tb'')
    ensures Extends(tb, tb'')
  {
  }

  lemma ExtendsItself(tb: Table)
    ensures Extends(tb, tb)
  {
  }

  lemma ChainLength(tb: Table, a: Script, c: Chain)
    requires IsChain(tb, a, c)
    ensures |c.states| == |a.calls| + 1 && |c.users| == |a.calls|
  {
  }

  /** `ActorHandle._create`: construction is a task, and its object starts the chain.  The
      handle is there exactly if the submission has not had to wait. */
  method CreateActor(runtime: Runtime, cls: nat, args: seq<Dag.Value>, kwargs: Kwargs)
    returns (handle: Option<ActorHandle>, stuck: Option<(nat, nat)>)
    requires runtime.Valid() && Closes(runtime.Tb(), Call(User(0), args, kwargs))
    modifies runtime`nextId, runtime`taskQueue, runtime`dispatched, runtime`waiting
    modifies runtime.scheduler, runtime.ownership
    ensures runtime.Valid() && Extends(old(runtime.Tb()), runtime.Tb())
    ensures var s := old(runtime.Snapshot()).(nextId := old(runtime.nextId) + 1);
      && Flushes(runtime.world, AfterSubmit(s, Call(InitActor(cls), args, kwargs)), runtime.Snapshot(), stuck)
      && (handle.Some? <==> GoesThrough(AfterSubmit(s, Call(InitActor(cls), args, kwargs))))
    ensures handle.Some? <==> stuck.None?
    ensures stuck.Some? ==> WaitsFor(runtime.Snapshot(), stuck.value.0, stuck.value.1)
    ensures handle.Some? ==>
      && fresh(handle.value) && handle.value.Valid() && handle.value.runtime == runtime
      && handle.value.actorId == old(runtime.nextId) && handle.value.lastRef == old(runtime.nextId) + 2
      && handle.value.script == Script(cls, args, kwargs, [])
      && handle.value.chain == Chain([old(runtime.nextId) + 2], [])
  {
    hide Runtime.Valid, Extends, Makes, RefsOf, Runtime.Tb, Flushes, AfterSubmit, GoesThrough, WellFounded;
    ghost var s := runtime.Snapshot().(nextId := runtime.nextId + 1);
    var actorId := runtime.NextUniqueId();
    var o;
    o, stuck := SubmitFor(runtime, Call(InitActor(cls), args, kwargs));
    FlushIsSettled(runtime.world, AfterSubmit(s, Call(InitActor(cls), args, kwargs)), runtime.Snapshot(), stuck);
    if stuck.Some? {
      return None, stuck;
    }
    var h := new ActorHandle(runtime, actorId, o, cls, args, kwargs);
    return Some(h), None;
  }

  /** `submit_task`, as far as the lineage of the new object is concerned. */
  method SubmitFor(runtime: Runtime, call: Call) returns (o: nat, stuck: Option<(nat, nat)>)
    requires runtime.Valid() && forall d :: d in DepsOf(call) ==> d in runtime.Tb().producer
    modifies runtime`nextId, runtime`taskQueue, runtime`dispatched, runtime`waiting
    modifies runtime.scheduler, runtime.ownership
    ensures runtime.Valid() && Makes(runtime.Tb(), o, call) && Extends(old(runtime.Tb()), runtime.Tb())
    ensures o == old(runtime.nextId) + 1
    ensures Flushes(runtime.world, AfterSubmit(old(runtime.Snapshot()), call), runtime.Snapshot(), stuck)
  {
    hide Runtime.Valid, Extends, DepsOf, Runtime.Tb, Flushes, AfterSubmit;
    o, stuck := runtime.SubmitTask(call);
  }

  /** The task of a method call, and the task that picks its value out. */
  function LinkCall(last: nat, call: Turn): Call
  {
    Call(ActorMethod(call.name), [Ref(last)] + call.args, call.kwargs)
  }

  function PickCall(state: nat): Call
  {
    Call(ExtractReturnValue, [Ref(state)], NO_KWARGS)
  }

  lemma LinkCloses(tb: Table, a: Script, c: Chain, call: Turn)
    requires IsChain(tb, a, c) && Closes(tb, Call(User(0), call.args, call.kwargs))
    ensures |c.states| == |a.calls| + 1 && |c.users| == |a.calls|
    ensures forall d :: d in DepsOf(LinkCall(c.states[|a.calls|], call)) ==> d in tb.producer
  {
    StateIsMade(tb, a, c, |a.calls|);
    var xs := [Ref(c.states[|a.calls|])] + call.args;
    assert xs[0] == Ref(c.states[|a.calls|]) && xs[1..] == call.args;
    assert RefsOf(xs) == Refs(xs[0]) + RefsOf(call.args);
    hide IsChain, RefsOf;
  }

  lemma PickCloses(tb: Table, o: nat, c: Call)
    requires Makes(tb, o, c)
    ensures forall d :: d in DepsOf(PickCall(o)) ==> d in tb.producer
  {
    assert RefsOf([Ref(o)]) == Refs(Ref(o)) + RefsOf([]);
  }

  lemma ChainGrows(tb: Table, tb': Table, a: Script, c: Chain, call: Turn, state: nat, user: nat)
    requires Extends(tb, tb') && IsChain(tb, a, c)
    requires Makes(tb, state, LinkCall(c.states[|a.calls|], call)) && Makes(tb', user, PickCall(state))
    ensures IsChain(tb', a.(calls := a.calls + [call]), Chain(c.states + [state], c.users + [user]))
  {
    ChainStays(tb, tb', a, c);
    assert Makes(tb', state, LinkCall(c.states[|a.calls|], call));
    hide Makes, Extends;
  }
}
