/**
  The dependency scheduler of `_fallback/scheduler.py`: pending tasks with their
  unresolved dependencies, a reverse index from objects to the tasks waiting for
  them, and a ready queue.

  A task spec is identified by its task id; the spec dictionary itself is never
  changed after submission.
 */
module SchedulerSpec {
  import opened Collections

  /** The three fields of the scheduler. */
  datatype Sched = Sched(pending: map<nat, set<nat>>, waiting: map<nat, seq<nat>>, ready: seq<nat>)

  const FRESH := Sched(map[], map[], [])

  /** The tasks indexed under an object: `dict.get(d, [])`. */
  function Waiters(s: Sched, d: nat): seq<nat>
  {
    if d in s.waiting then s.waiting[d] else []
  }

  /** `setdefault(d, []).append(t)` for every dependency in turn. */
  function Index(waiting: map<nat, seq<nat>>, deps: seq<nat>, t: nat): map<nat, seq<nat>>
    decreases |deps|
  {
    if deps == [] then waiting
    else
      var d := deps[0];
      Index(waiting[d := (if d in waiting then waiting[d] else []) + [t]], deps[1..], t)
  }

  function Submit(s: Sched, t: nat, deps: seq<nat>): Sched
  {
    if deps == [] then s.(ready := s.ready + [t])
    else s.(pending := s.pending[t := Elems(deps)], waiting := Index(s.waiting, deps, t))
  }

  /** One turn of the loop in `on_object_ready`. */
  function Unblock1(s: Sched, d: nat, t: nat): Sched
  {
    if t !in s.pending then s
    else
      var u := s.pending[t] - {d};
      if u == {} then s.(pending := s.pending - {t}, ready := s.ready + [t])
      else s.(pending := s.pending[t := u])
  }

  function Unblock(s: Sched, d: nat, list: seq<nat>): Sched
    decreases |list|
  {
    if list == [] then s else Unblock(Unblock1(s, d, list[0]), d, list[1..])
  }

  function OnObjectReady(s: Sched, d: nat): Sched
  {
    Unblock(s.(waiting := s.waiting - {d}), d, Waiters(s, d))
  }

  function Pop(s: Sched): Sched
    requires s.ready != []
  {
    s.(ready := s.ready[1..])
  }

  /** How often `t` stands in the list indexed under `d`. */
  function Occurrences(s: Sched, d: nat, t: nat): nat
  {
    multiset(Waiters(s, d))[t]
  }

  /** How often it should: as often as `d` stands in the dependency list of `t`
      if `t` is pending with `d` unresolved, else never. */
  function Expected(pending: map<nat, set<nat>>, deps: map<nat, seq<nat>>, d: nat, t: nat): nat
  {
    if t in pending && t in deps && d in pending[t] then multiset(deps[t])[d] else 0
  }

  ghost predicate IndexInv(s: Sched, deps: map<nat, seq<nat>>)
  {
    forall d, t {:trigger Occurrences(s, d, t)} :: Occurrences(s, d, t) == Expected(s.pending, deps, d, t)
  }

  /**
    The representation invariant.  `deps[t]` is the dependency list `t` was
    submitted with.  The list under `d` holds exactly the pending tasks with `d`
    unresolved, each as often as `d` stands in its dependency list; pending tasks
    have something unresolved; nothing is ready twice or both ready and pending.
   */
  ghost predicate RepInv(s: Sched, deps: map<nat, seq<nat>>)
  {
    && (forall t :: t in s.pending ==> t in deps && s.pending[t] != {} && s.pending[t] <= Elems(deps[t]))
    && IndexInv(s, deps)
    && NoRepeats(s.ready)
    && (forall t :: t in s.ready ==> t !in s.pending)
  }

  // ---------------------------------------------------------------- effects

  lemma {:induction false} IndexEffect(waiting: map<nat, seq<nat>>, deps: seq<nat>, t: nat, d: nat)
    ensures var w0, w1 := (if d in waiting then waiting[d] else []),
                          (if d in Index(waiting, deps, t) then Index(waiting, deps, t)[d] else []);
      && (t in w1 <==> t in w0 || d in deps)
      && multiset(w1)[t] == multiset(w0)[t] + multiset(deps)[d]
      && forall t' :: t' != t ==> multiset(w1)[t'] == multiset(w0)[t']
    decreases |deps|
  {
    if deps != [] {
      var e := deps[0];
      var waiting' := waiting[e := (if e in waiting then waiting[e] else []) + [t]];
      IndexEffect(waiting', deps[1..], t, d);
      assert deps == [e] + deps[1..];
    }
  }

  /** Submitting under a fresh task id keeps the invariant. */
  lemma SubmitKeepsRepInv(s: Sched, deps: map<nat, seq<nat>>, t: nat)
    requires RepInv(s, deps) && t in deps && t !in s.pending && t !in s.ready
    ensures RepInv(Submit(s, t, deps[t]), deps)
  {
    var s' := Submit(s, t, deps[t]);
    if deps[t] == [] {
      assert IndexInv(s', deps) by {
        forall d, t'
          ensures Occurrences(s', d, t') == Expected(s'.pending, deps, d, t')
        {
          assert Occurrences(s, d, t') == Expected(s.pending, deps, d, t');
        }
      }
    } else {
      assert deps[t][0] in Elems(deps[t]);
      assert IndexInv(s', deps) by { SubmitKeepsIndex(s, deps, t); }
    }
  }

  lemma SubmitKeepsIndex(s: Sched, deps: map<nat, seq<nat>>, t: nat)
    requires IndexInv(s, deps) && t in deps && t !in s.pending && deps[t] != []
    ensures IndexInv(Submit(s, t, deps[t]), deps)
  {
    var s' := Submit(s, t, deps[t]);
    forall d, t'
      ensures Occurrences(s', d, t') == Expected(s'.pending, deps, d, t')
    {
      IndexEffect(s.waiting, deps[t], t, d);
      assert Occurrences(s, d, t') == Expected(s.pending, deps, d, t');
      if t' == t {
        assert Occurrences(s', d, t) == multiset(deps[t])[d];
        assert d in Elems(deps[t]) <==> multiset(deps[t])[d] > 0;
      }
    }
  }

  /** `pending` once `d` has been announced. */
  function Without(pending: map<nat, set<nat>>, d: nat): map<nat, set<nat>>
  {
    map t | t in pending && pending[t] != {d} :: pending[t] - {d}
  }

  /** What the loop has done after some of the waiters: those among `seen` have lost `d`. */
  ghost predicate Partly(s: Sched, s': Sched, d: nat, seen: set<nat>)
  {
    && s'.waiting == s.waiting
    && (forall t :: t in s'.pending <==> t in s.pending && !(t in seen && s.pending[t] == {d}))
    && (forall t :: t in s'.pending ==> s'.pending[t] == if t in seen then s.pending[t] - {d} else s.pending[t])
    && s.ready <= s'.ready
    && NoRepeats(s'.ready[|s.ready|..])
    && (forall t :: t in s'.ready[|s.ready|..] <==> t in seen && t in s.pending && s.pending[t] == {d})
  }

  lemma {:induction false} UnblockEffect(s: Sched, m: Sched, d: nat, seen: set<nat>, list: seq<nat>)
    requires forall t :: t in s.pending ==> s.pending[t] != {}
    requires forall t :: t in s.pending && t in list ==> d in s.pending[t]
    requires Partly(s, m, d, seen)
    ensures Partly(s, Unblock(m, d, list), d, seen + Elems(list))
    decreases |list|
  {
    if list == [] {
      assert seen + Elems(list) == seen;
    } else {
      var t := list[0];
      PartlyStep(s, m, d, seen, t);
      UnblockEffect(s, Unblock1(m, d, t), d, seen + {t}, list[1..]);
      assert seen + {t} + Elems(list[1..]) == seen + Elems(list);
    }
  }

  lemma AllSeenIsWithout(s: Sched, s': Sched, d: nat, seen: set<nat>)
    requires Partly(s, s', d, seen)
    requires forall t :: t in s.pending ==> (t in seen <==> d in s.pending[t])
    ensures s'.pending == Without(s.pending, d)
  {
    forall t | t in s'.pending
      ensures s'.pending[t] == s.pending[t] - {d}
    {
    }
  }

  lemma PartlyStep(s: Sched, m: Sched, d: nat, seen: set<nat>, t: nat)
    requires forall t :: t in s.pending ==> s.pending[t] != {}
    requires t in s.pending ==> d in s.pending[t]
    requires Partly(s, m, d, seen)
    ensures Partly(s, Unblock1(m, d, t), d, seen + {t})
  {
    var m' := Unblock1(m, d, t);
    if t in m.pending {
      var u := m.pending[t] - {d};
      if u == {} {
        assert t !in seen;
        assert s.pending[t] == {d};
        assert m'.ready[|s.ready|..] == m.ready[|s.ready|..] + [t];
      } else {
        assert s.pending[t] != {d};
      }
    }
  }

  /**
    `on_object_ready` in closed form: `d` leaves every unresolved set, exactly the
    tasks that were waiting for nothing else move to the ready queue, each once
    however often `d` stands in its dependency list, and the index entry goes.
   */
  lemma OnObjectReadyEffect(s: Sched, deps: map<nat, seq<nat>>, d: nat)
    requires RepInv(s, deps)
    ensures var s' := OnObjectReady(s, d);
      && RepInv(s', deps)
      && s'.pending == Without(s.pending, d)
      && s.ready <= s'.ready
      && (forall t :: t in s'.ready <==> t in s.ready || (t in s.pending && s.pending[t] == {d}))
  {
    var m, list := s.(waiting := s.waiting - {d}), Waiters(s, d);
    var s' := OnObjectReady(s, d);
    forall t | t in s.pending
      ensures t in list <==> d in s.pending[t]
    {
      assert Occurrences(s, d, t) == Expected(s.pending, deps, d, t);
      assert d in s.pending[t] ==> d in Elems(deps[t]);
    }
    UnblockEffect(m, m, d, {}, list);
    assert {} + Elems(list) == Elems(list);
    assert Partly(m, s', d, Elems(list));
    assert s'.ready == s.ready + s'.ready[|s.ready|..];
    assert s'.pending == Without(s.pending, d) by { AllSeenIsWithout(m, s', d, Elems(list)); }
    assert IndexInv(s', deps) by { WithoutKeepsIndex(s, s', deps, d); }
    NoRepeatsAppend(s.ready, s'.ready[|s.ready|..]);
  }

  lemma WithoutKeepsIndex(s: Sched, s': Sched, deps: map<nat, seq<nat>>, d: nat)
    requires IndexInv(s, deps) && s'.waiting == s.waiting - {d} && s'.pending == Without(s.pending, d)
    ensures IndexInv(s', deps)
  {
    forall e, t
      ensures Occurrences(s', e, t) == Expected(s'.pending, deps, e, t)
    {
      assert Occurrences(s, e, t) == Expected(s.pending, deps, e, t);
    }
  }

  lemma PopKeepsRepInv(s: Sched, deps: map<nat, seq<nat>>)
    requires RepInv(s, deps) && s.ready != []
    ensures RepInv(Pop(s), deps) && s.ready[0] !in Pop(s).ready && s.ready[0] !in s.pending
  {
    forall d, t
      ensures Occurrences(Pop(s), d, t) == Occurrences(s, d, t)
    {
    }
  }

  /** The invariant does not mind further tasks. */
  lemma RepInvGrows(s: Sched, deps: map<nat, seq<nat>>, deps': map<nat, seq<nat>>)
    requires RepInv(s, deps)
    requires forall t :: t in deps ==> t in deps' && deps'[t] == deps[t]
    ensures RepInv(s, deps')
  {
    forall d, t
      ensures Occurrences(s, d, t) == Expected(s.pending, deps', d, t)
    {
      assert Occurrences(s, d, t) == Expected(s.pending, deps, d, t);
    }
  }
}
