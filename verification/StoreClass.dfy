/**
  The Python object store.  Each critical section of `_fallback/object_store.py` is one
  method, and one step of a protocol whose runs are runs of the fine-grained one; so
  everything proved there about readers, writers and deletions holds here as well.
 */
module StoreClass {
  import opened Wrappers
  import opened Dag
  import opened StoreProtocol

  /** What a thread of the Python program can do at once. */
  datatype PyLabel =
    | Look(k: nat, o: nat)             // get_or_wait up to the wait, under the lock
    | Insert(k: nat, o: nat, v: Value) // put, under the lock
    | Signal(k: nat)                   // event.set()
    | Wake(k: nat)                     // event.wait() returns
    | ReadBack(k: nat)                 // the unlocked read after the wait
    | Remove(k: nat, o: nat)           // delete, under the lock
    | TimeOut(k: nat)

  predicate PyEnabled(s: State, l: PyLabel)
  {
    match l
    case Signal(k) => k in s.threads && s.threads[k].Signalling?
    case Wake(k) => k in s.threads && s.threads[k].Waiting? && s.threads[k].n in s.ready
    case ReadBack(k) => k in s.threads && s.threads[k].Reading?
    case TimeOut(k) => k in s.threads && s.threads[k].Waiting?
    case _ => l.k !in s.threads
  }

  function PyNext(s: State, l: PyLabel): State
    requires PyEnabled(s, l)
  {
    match l
    case Look(k, o) =>
      if o in s.objects then s.(threads := s.threads[k := Returned(o, s.objects[o])])
      else
        var n := NoteFor(s, o);
        s.(threads := s.threads[k := Waiting(o, n)], notes := s.notes[o := n],
           made := if o in s.notes then s.made else s.made + 1, log := s.log + [DidRegister(o, n)])
    case Insert(k, o, v) =>
      s.(objects := s.objects[o := v], log := s.log + [DidInsert(o, v), DidLook(o)],
         threads := s.threads[k := if o in s.notes then Signalling(o, s.notes[o]) else Done])
    case Signal(k) => s.(ready := s.ready + {s.threads[k].n}, threads := s.threads[k := Done])
    case Wake(k) => s.(threads := s.threads[k := Reading(s.threads[k].o)])
    case ReadBack(k) =>
      var o := s.threads[k].o;
      s.(threads := s.threads[k := if o in s.objects then Returned(o, s.objects[o]) else Disappeared(o)])
    case Remove(k, o) =>
      s.(objects := s.objects - {o}, notes := s.notes - {o}, log := s.log + [DidRemove(o), DidDiscard(o)],
         threads := s.threads[k := Done])
    case TimeOut(k) => s.(threads := s.threads[k := GaveUp(s.threads[k].o)])
  }

  ghost predicate IsPyRun(run: seq<State>, labels: seq<PyLabel>)
  {
    && |run| == |labels| + 1
    && run[0] == INIT
    && forall i :: 0 <= i < |labels| ==> PyEnabled(run[i], labels[i]) && run[i + 1] == PyNext(run[i], labels[i])
  }

  // ------------------------------------------------------- refinement

  /** The operations a critical section consists of. */
  function Fine(s: State, l: PyLabel): seq<Label>
  {
    match l
    case Look(k, o) => [StartGet(k, o), Step(k)] + if o in s.objects then [] else [Step(k), Step(k)]
    case Insert(k, o, v) => [StartPut(k, o, v), Step(k), Step(k)]
    case Remove(k, o) => [StartDelete(k, o), Step(k), Step(k)]
    case TimeOut(k) => [GiveUp(k)]
    case _ => [Step(l.k)]
  }

  ghost predicate Leads(s: State, labels: seq<Label>, s': State)
    decreases |labels|
  {
    if labels == [] then s' == s else Enabled(s, labels[0]) && Leads(Next(s, labels[0]), labels[1..], s')
  }

  lemma LookIsFine(s: State, k: nat, o: nat)
    requires k !in s.threads
    ensures Leads(s, Fine(s, Look(k, o)), PyNext(s, Look(k, o)))
  {
    var s1 := Next(s, StartGet(k, o));
    var s2 := Next(s1, Step(k));
    if o in s.objects {
      assert s2.threads == s.threads[k := Returned(o, s.objects[o])];
      assert Leads(s1, [Step(k)], s2);
    } else {
      var s3 := Next(s2, Step(k));
      var s4 := Next(s3, Step(k));
      assert s4.threads == s.threads[k := Waiting(o, NoteFor(s, o))];
      hide Next;
      assert Leads(s3, [Step(k)], s4);
      assert Leads(s2, [Step(k), Step(k)], s4);
      assert Leads(s1, [Step(k), Step(k), Step(k)], s4);
      assert Fine(s, Look(k, o))[1..] == [Step(k), Step(k), Step(k)];
    }
  }

  lemma InsertIsFine(s: State, k: nat, o: nat, v: Value)
    requires k !in s.threads
    ensures Leads(s, Fine(s, Insert(k, o, v)), PyNext(s, Insert(k, o, v)))
  {
    var s1 := Next(s, StartPut(k, o, v));
    var s2 := Next(s1, Step(k));
    var s3 := Next(s2, Step(k));
    assert s3.threads == PyNext(s, Insert(k, o, v)).threads && s3.log == PyNext(s, Insert(k, o, v)).log;
    hide Next;
    assert Leads(s2, [Step(k)], s3);
    assert Leads(s1, [Step(k), Step(k)], s3);
  }

  lemma RemoveIsFine(s: State, k: nat, o: nat)
    requires k !in s.threads
    ensures Leads(s, Fine(s, Remove(k, o)), PyNext(s, Remove(k, o)))
  {
    var s1 := Next(s, StartDelete(k, o));
    var s2 := Next(s1, Step(k));
    var s3 := Next(s2, Step(k));
    assert s3.threads == PyNext(s, Remove(k, o)).threads && s3.log == PyNext(s, Remove(k, o)).log;
    hide Next;
    assert Leads(s2, [Step(k)], s3);
    assert Leads(s1, [Step(k), Step(k)], s3);
  }

  lemma PyStepIsFine(s: State, l: PyLabel)
    requires PyEnabled(s, l)
    ensures Leads(s, Fine(s, l), PyNext(s, l))
  {
    match l {
      case Look(k, o) => LookIsFine(s, k, o);
      case Insert(k, o, v) => InsertIsFine(s, k, o, v);
      case Remove(k, o) => RemoveIsFine(s, k, o);
      case _ => assert Leads(PyNext(s, l), [], PyNext(s, l));
    }
  }

  /** A run that is continued by further operations. */
  lemma {:induction false} Continue(run: seq<State>, labels: seq<Label>, more: seq<Label>, s': State)
    returns (run': seq<State>)
    requires IsRun(run, labels) && Leads(run[|labels|], more, s')
    ensures IsRun(run', labels + more) && run'[|labels + more|] == s'
    decreases |more|
  {
    if more == [] {
      run' := run;
      assert labels + more == labels;
    } else {
      run' := Continue(run + [Next(run[|labels|], more[0])], labels + [more[0]], more[1..], s');
      assert labels + [more[0]] + more[1..] == labels + more;
    }
  }

  /** Refinement: whatever the threads of the Python program do, the state they reach is
      reached by the fine-grained protocol. */
  lemma {:induction false} PyRunIsFineRun(run: seq<State>, labels: seq<PyLabel>, i: nat)
    returns (fine: seq<State>, steps: seq<Label>)
    requires IsPyRun(run, labels) && i < |run|
    ensures IsRun(fine, steps) && fine[|steps|] == run[i]
    decreases i
  {
    if i == 0 {
      fine, steps := [INIT], [];
    } else {
      var l := labels[i - 1];
      fine, steps := PyRunIsFineRun(run, labels, i - 1);
      hide PyNext, Next, PyEnabled, Enabled, Fine;
      PyStepIsFine(run[i - 1], l);
      fine := Continue(fine, steps, Fine(run[i - 1], l), run[i]);
      steps := steps + Fine(run[i - 1], l);
    }
  }

  /** No lost wakeup in the Python store: without deletions of `o` no reader meets a
      `KeyError`, and once `o` has been put, a reader still waits only while some put
      has yet to call `set` on its event. */
  lemma PyNoLostWakeup(run: seq<State>, labels: seq<PyLabel>, i: nat, k: nat)
    requires IsPyRun(run, labels) && i < |run| && k in run[i].threads && !run[i].threads[k].Done?
    requires !WasDeleted(run[i].log, run[i].threads[k].o)
    ensures !run[i].threads[k].Disappeared?
    ensures run[i].threads[k].Waiting? && run[i].threads[k].o in run[i].objects ==>
      Taken(run[i], run[i].threads[k].o, run[i].threads[k].n)
  {
    var fine, steps := PyRunIsFineRun(run, labels, i);
    NoLostWakeup(fine, steps, |steps|, run[i].threads[k].o, k);
    InvAlways(fine, steps, |steps|);
    PyNobodyLooks(run, labels, i);
    hide IsPyRun, IsRun, Taken, StoreInv, ReadyInv, DeleteInv, KeptInv, WakeInv;
  }

  /** Between two critical sections no put is about to look its event up. */
  lemma {:induction false} PyNobodyLooks(run: seq<State>, labels: seq<PyLabel>, i: nat)
    requires IsPyRun(run, labels) && i < |run|
    ensures forall k :: k in run[i].threads ==> !run[i].threads[k].Looking?
    decreases i
  {
    if i > 0 {
      PyNobodyLooks(run, labels, i - 1);
      assert PyEnabled(run[i - 1], labels[i - 1]);
    }
  }

  /** A reader of the Python store that waits is woken exactly when some put found its
      event: after a registration with it, and before a deletion dropped it. */
  lemma PyWokenIffAnswered(run: seq<State>, labels: seq<PyLabel>, i: nat, k: nat)
    requires IsPyRun(run, labels) && i < |run| && k in run[i].threads && run[i].threads[k].Waiting?
    ensures Taken(run[i], run[i].threads[k].o, run[i].threads[k].n)
       <==> Answered(run[i].log, run[i].threads[k].o, run[i].threads[k].n)
  {
    var fine, steps := PyRunIsFineRun(run, labels, i);
    WokenIffAnswered(fine, steps, |steps|, k);
    hide IsPyRun, IsRun, Taken, Answered;
  }

  /** When a woken reader of the Python store meets a `KeyError`, exactly: when its object
      has been removed and not put again since. */
  lemma PyKeyErrorIffRemovedLast(run: seq<State>, labels: seq<PyLabel>, i: nat, k: nat)
    requires IsPyRun(run, labels) && i < |run| && k in run[i].threads && run[i].threads[k].Reading?
    ensures PyNext(run[i], ReadBack(k)).threads[k].Disappeared? <==> RemovedLast(run[i].log, run[i].threads[k].o)
  {
    var fine, steps := PyRunIsFineRun(run, labels, i);
    DisappearsIffRemovedLast(fine, steps, |steps|, k);
    hide IsPyRun, IsRun, RemovedLast;
  }

  /** And an object is in the Python store exactly if some put inserted it and no deletion
      has removed it since. */
  lemma PyStoredIffNotRemovedSince(run: seq<State>, labels: seq<PyLabel>, i: nat, o: nat)
    requires IsPyRun(run, labels) && i < |run|
    ensures o in run[i].objects <==> Present(run[i].log, o)
  {
    var fine, steps := PyRunIsFineRun(run, labels, i);
    StoredIffNotRemovedSince(fine, steps, |steps|, o);
  }

  // ------------------------------------------------------- the class

  /** Python's `None` as a stored object. */
  const NONE_OBJECT: Value := Atom(0)

  /** `threading.Event` objects are numbered in order of creation; `flags` holds those
      that are set.  `protocol` is the state of the protocol this store is part of. */
  class ObjectStore {
    var store: map<nat, Value>
    var events: map<nat, nat>
    var created: nat
    var flags: set<nat>
    ghost var protocol: State

    ghost predicate Valid()
      reads this
    {
      && store == protocol.objects && events == protocol.notes
      && created == protocol.made && flags == protocol.ready
      && Inv(protocol) && PresenceInv(protocol)
    }

    constructor ()
      ensures Valid() && protocol == INIT
    {
      store, events, created, flags := map[], map[], 0, {};
      protocol := INIT;
    }

    /** `put`: the locked part, then `set` on the event that was found there. */
    method Put(k: nat, o: nat, v: Value)
      requires Valid() && k !in protocol.threads
      modifies this
      ensures Valid()
      ensures var s := PyNext(old(protocol), Insert(k, o, v));
        protocol == if PyEnabled(s, Signal(k)) then PyNext(s, Signal(k)) else s
    {
      hide Inv, PresenceInv;
      store := store[o := v];
      var found := o in events;
      ghost var before := protocol;
      protocol := PyNext(protocol, Insert(k, o, v));
      KeepsInv(before, Insert(k, o, v));
      if found {
        ghost var between := protocol;
        flags := flags + {events[o]};
        protocol := PyNext(protocol, Signal(k));
        KeepsInv(between, Signal(k));
      }
    }

    /** `get_or_wait` up to the wait: the object, or the event to wait for. */
    method GetOrRegister(k: nat, o: nat) returns (found: Option<Value>, event: nat)
      requires Valid() && k !in protocol.threads
      modifies this
      ensures Valid() && protocol == PyNext(old(protocol), Look(k, o))
      ensures found.Some? <==> o in old(store)
      ensures protocol.threads[k] == if found.Some? then Returned(o, found.value) else Waiting(o, event)
    {
      hide Inv, PresenceInv;
      KeepsInv(protocol, Look(k, o));
      if o in store {
        found, event := Some(store[o]), 0;
      } else {
        if o !in events {
          events := events[o := created];
          created := created + 1;
        }
        found, event := None, events[o];
      }
      protocol := PyNext(protocol, Look(k, o));
    }

    /** `get_or_wait` after the wait: the read that may fail. */
    method Reread(k: nat, o: nat) returns (found: Option<Value>)
      requires Valid() && PyEnabled(protocol, ReadBack(k)) && protocol.threads[k].o == o
      modifies this
      ensures Valid() && protocol == PyNext(old(protocol), ReadBack(k))
      ensures found.Some? ==> WasPut(protocol.log, o, found.value)
      ensures found.None? <==> RemovedLast(protocol.log, o)
    {
      KeepsInv(protocol, ReadBack(k));
      protocol := PyNext(protocol, ReadBack(k));
      found := if o in store then Some(store[o]) else None;
    }

    /** `delete`: says False for a stored `None`, which it removes all the same. */
    method Delete(k: nat, o: nat) returns (removed: bool)
      requires Valid() && k !in protocol.threads
      modifies this
      ensures Valid() && protocol == PyNext(old(protocol), Remove(k, o))
      ensures removed <==> o in old(store) && old(store)[o] != NONE_OBJECT
    {
      hide Inv, PresenceInv;
      KeepsInv(protocol, Remove(k, o));
      removed := o in store && store[o] != NONE_OBJECT;
      store := store - {o};
      events := events - {o};
      protocol := PyNext(protocol, Remove(k, o));
    }
  }

  lemma KeepsInv(s: State, l: PyLabel)
    requires Inv(s) && PresenceInv(s) && PyEnabled(s, l)
    ensures Inv(PyNext(s, l)) && PresenceInv(PyNext(s, l))
  {
    PyStepIsFine(s, l);
    LeadsKeepsInv(s, Fine(s, l), PyNext(s, l));
  }

  lemma {:induction false} LeadsKeepsInv(s: State, labels: seq<Label>, s': State)
    requires Inv(s) && PresenceInv(s) && Leads(s, labels, s')
    ensures Inv(s') && PresenceInv(s')
    decreases |labels|
  {
    if labels != [] {
      hide Inv, PresenceInv, Next, Enabled;
      InvStep(s, labels[0]);
      PresenceStep(s, labels[0]);
      LeadsKeepsInv(Next(s, labels[0]), labels[1..], s');
    }
  }

  // ------------------------------------------------------- what deletions can do

  /** A reader registers for object 0; deleting the absent object drops its event; a put
      then stores the object and completes, and the reader waits on.  One deletion of an
      object that is not even there is enough. */
  lemma DeleteOrphansReader(v: Value) returns (run: seq<State>)
    ensures IsPyRun(run, [Look(0, 0), Remove(1, 0), Insert(2, 0, v)])
    ensures run[3].threads == map[0 := Waiting(0, 0), 1 := Done, 2 := Done]
    ensures run[3].objects == map[0 := v] && !Taken(run[3], 0, 0)
  {
    var s1 := PyNext(INIT, Look(0, 0));
    var s2 := PyNext(s1, Remove(1, 0));
    var s3 := PyNext(s2, Insert(2, 0, v));
    run := [INIT, s1, s2, s3];
    assert s3.threads == map[0 := Waiting(0, 0), 1 := Done, 2 := Done];
    assert s3.objects == map[0 := v];
  }

  /** A reader is woken by a put, and the object is deleted before it reads: it meets the
      "disappeared" error of the Rust store, a `KeyError` in the Python one. */
  lemma DeleteMakesDisappear(v: Value) returns (run: seq<State>)
    ensures IsPyRun(run, [Look(0, 0), Insert(1, 0, v), Signal(1), Wake(0), Remove(2, 0), ReadBack(0)])
    ensures run[6].threads == map[0 := Disappeared(0), 1 := Done, 2 := Done]
  {
    var s1 := PyNext(INIT, Look(0, 0));
    var s2 := PyNext(s1, Insert(1, 0, v));
    var s3 := PyNext(s2, Signal(1));
    var s4 := PyNext(s3, Wake(0));
    var s5 := PyNext(s4, Remove(2, 0));
    var s6 := PyNext(s5, ReadBack(0));
    assert s2.threads == map[0 := Waiting(0, 0), 1 := Signalling(0, 0)];
    assert s4.threads == map[0 := Reading(0), 1 := Done];
    run := [INIT, s1, s2, s3, s4, s5, s6];
  }
}
