/**
  The order in which the scheduler hands tasks out: first ready, first out; and of the
  tasks that one announcement makes ready, first submitted, first out.
 */
module SchedulerOrder {
  import opened Collections
  import opened SchedulerSpec
  import opened SchedulerClass

  // ---------------------------------------------------------------- first in, first out

  /** All tasks that have become ready, in the order in which they have. */
  function Released(h: seq<Event>): seq<nat>
  {
    HandedOut(h) + Replay(h).ready
  }

  /** Whatever happens later, tasks are handed out in the order in which they have become
      ready: nothing overtakes, and nothing is inserted, dropped or moved. */
  lemma {:induction false} FirstReadyFirstOut(h: seq<Event>, n: nat)
    requires n <= |h|
    ensures Released(h[..n]) <= Released(h)
    decreases |h|
  {
    if n == |h| {
      assert h[..n] == h;
    } else {
      var g := h[..|h| - 1];
      assert g[..n] == h[..n];
      FirstReadyFirstOut(g, n);
      ReleasedGrows(h);
      hide Released;
    }
  }

  lemma ReleasedGrows(h: seq<Event>)
    requires h != []
    ensures Released(h[..|h| - 1]) <= Released(h)
  {
    var g, e := h[..|h| - 1], h[|h| - 1];
    var s := Replay(g);
    if e.Announced? {
      UnblockAppends(s.(waiting := s.waiting - {e.d}), e.d, Waiters(s, e.d));
      assert Replay(h) == OnObjectReady(s, e.d);
    }
    hide OnObjectReady;
    assert e.PopRequested? && s.ready != [] ==> HandedOut(g) + s.ready == HandedOut(h) + Replay(h).ready;
  }

  lemma {:induction false} UnblockAppends(s: Sched, d: nat, list: seq<nat>)
    ensures s.ready <= Unblock(s, d, list).ready && Unblock(s, d, list).waiting == s.waiting
    ensures forall t :: t in Unblock(s, d, list).ready[|s.ready|..] ==> t in list
    decreases |list|
  {
    if list != [] {
      var m := Unblock1(s, d, list[0]);
      UnblockAppends(m, d, list[1..]);
      var later := Unblock(m, d, list[1..]).ready[|m.ready|..];
      assert Unblock(s, d, list).ready == s.ready + ((if m.ready == s.ready then [] else [list[0]]) + later);
    }
  }

  // ---------------------------------------------------------------- in submission order

  /** When each task was submitted. */
  function SubmittedAt(h: seq<Event>): map<nat, nat>
  {
    if h == [] then map[]
    else
      var m := SubmittedAt(h[..|h| - 1]);
      if h[|h| - 1].Submitted? then m[h[|h| - 1].t := |h| - 1] else m
  }

  lemma {:induction false} SubmittedThen(h: seq<Event>, t: nat)
    requires t in SubmittedAt(h)
    ensures var i := SubmittedAt(h)[t]; i < |h| && h[i].Submitted? && h[i].t == t
    decreases |h|
  {
    var g, e := h[..|h| - 1], h[|h| - 1];
    if !(e.Submitted? && e.t == t) {
      SubmittedThen(g, t);
    }
  }

  /** The tasks of `q` were submitted one after the other. */
  ghost predicate InOrder(at: map<nat, nat>, q: seq<nat>)
  {
    && (forall t :: t in q ==> t in at)
    && forall i, j :: 0 <= i < j < |q| ==> at[q[i]] <= at[q[j]]
  }

  lemma {:induction false} IndexAppends(waiting: map<nat, seq<nat>>, deps: seq<nat>, t: nat, d: nat)
    ensures var w0, w1 := (if d in waiting then waiting[d] else []),
                          (if d in Index(waiting, deps, t) then Index(waiting, deps, t)[d] else []);
      w0 <= w1 && forall i :: |w0| <= i < |w1| ==> w1[i] == t
    decreases |deps|
  {
    if deps != [] {
      var e := deps[0];
      IndexAppends(waiting[e := (if e in waiting then waiting[e] else []) + [t]], deps[1..], t, d);
    }
  }

  /** The list under an object is in submission order. */
  lemma {:induction false} WaitersInOrder(h: seq<Event>, d: nat)
    requires FreshIds(h)
    ensures InOrder(SubmittedAt(h), Waiters(Replay(h), d))
    decreases |h|
  {
    if h != [] {
      var g, e := h[..|h| - 1], h[|h| - 1];
      WaitersInOrder(g, d);
      match e {
        case Submitted(t, deps) =>
          SubmittedLast(h, Waiters(Replay(g), d));
          IndexAppends(Replay(g).waiting, deps, t, d);
          OneMoreInOrder(SubmittedAt(g), Waiters(Replay(g), d), Waiters(Replay(h), d), t, |g|);
        case Announced(o) =>
          UnblockAppends(Replay(g).(waiting := Replay(g).waiting - {o}), o, Waiters(Replay(g), o));
        case PopRequested =>
      }
    }
  }

  /** A task that is submitted last was not submitted before. */
  lemma SubmittedLast(h: seq<Event>, q: seq<nat>)
    requires h != [] && FreshIds(h) && h[|h| - 1].Submitted?
    requires InOrder(SubmittedAt(h[..|h| - 1]), q)
    ensures h[|h| - 1].t !in q
    ensures forall t :: t in q ==> SubmittedAt(h[..|h| - 1])[t] < |h| - 1
  {
    var g := h[..|h| - 1];
    forall t | t in q
      ensures SubmittedAt(g)[t] < |g| && t != h[|h| - 1].t
    {
      SubmittedThen(g, t);
      assert h[SubmittedAt(g)[t]] == g[SubmittedAt(g)[t]];
    }
  }

  lemma OneMoreInOrder(at: map<nat, nat>, q: seq<nat>, q': seq<nat>, t: nat, n: nat)
    requires InOrder(at, q) && t !in q && q <= q' && forall u :: u in q ==> at[u] < n
    requires forall i :: |q| <= i < |q'| ==> q'[i] == t
    ensures InOrder(at[t := n], q')
  {
    forall u | u in q'
      ensures u == t || u in q
    {
      var i :| 0 <= i < |q'| && q'[i] == u;
      assert i < |q| ==> q[i] == u;
    }
    forall i, j | 0 <= i < j < |q'|
      ensures at[t := n][q'[i]] <= at[t := n][q'[j]]
    {
      assert i < |q| ==> q'[i] == q[i] && q[i] in q;
      assert j < |q| ==> q'[j] == q[j] && q[j] in q;
    }
  }

  /** What the loop releases keeps the order of the list. */
  lemma {:induction false} UnblockKeepsOrder(at: map<nat, nat>, s: Sched, d: nat, list: seq<nat>)
    requires InOrder(at, list)
    ensures s.ready <= Unblock(s, d, list).ready
    ensures InOrder(at, Unblock(s, d, list).ready[|s.ready|..])
    decreases |list|
  {
    if list != [] {
      var m, rest := Unblock1(s, d, list[0]), list[1..];
      UnblockAppends(s, d, list);
      UnblockAppends(m, d, rest);
      RestInOrder(at, list);
      UnblockKeepsOrder(at, m, d, rest);
      var later := Unblock(m, d, rest).ready[|m.ready|..];
      assert m.ready == s.ready || m.ready == s.ready + [list[0]];
      assert m.ready != s.ready ==> Unblock(s, d, list).ready[|s.ready|..] == [list[0]] + later;
      hide Unblock, InOrder;
      FirstInOrder(at, list, later);
    }
  }

  lemma RestInOrder(at: map<nat, nat>, list: seq<nat>)
    requires InOrder(at, list) && list != []
    ensures InOrder(at, list[1..])
  {
  }

  lemma FirstInOrder(at: map<nat, nat>, list: seq<nat>, later: seq<nat>)
    requires InOrder(at, list) && list != [] && InOrder(at, later) && forall t :: t in later ==> t in list[1..]
    ensures InOrder(at, [list[0]] + later)
  {
    forall t | t in later
      ensures at[list[0]] <= at[t]
    {
      var i :| 0 <= i < |list[1..]| && list[1..][i] == t;
      assert list[i + 1] == t;
    }
    assert forall i :: 0 <= i < |later| ==> later[i] in later;
  }

  /** The tasks of `q` were submitted one after the other, and none stands there twice. */
  ghost predicate InStrictOrder(at: map<nat, nat>, q: seq<nat>)
  {
    && (forall t :: t in q ==> t in at)
    && forall i, j :: 0 <= i < j < |q| ==> at[q[i]] < at[q[j]]
  }

  /** The tasks that one announcement makes ready leave in the order of their submission. */
  lemma FirstSubmittedFirstReady(h: seq<Event>, d: nat)
    requires FreshIds(h)
    ensures var before, after := Replay(h).ready, Replay(h + [Announced(d)]).ready;
      before <= after && InStrictOrder(SubmittedAt(h), after[|before|..])
  {
    var s, at, h' := Replay(h), SubmittedAt(h), h + [Announced(d)];
    assert h'[..|h'| - 1] == h && h'[|h|] == Announced(d);
    WaitersInOrder(h, d);
    UnblockKeepsOrder(at, s.(waiting := s.waiting - {d}), d, Waiters(s, d));
    assert Replay(h').ready == OnObjectReady(s, d).ready;
    ReadyOnce(h, d);
    hide Replay, SubmittedAt, FreshIds, Unblock, OnObjectReady, InOrder, InStrictOrder, NoRepeats;
    RestHasNoRepeats(Replay(h').ready, |s.ready|);
    OrderIsStrict(h, Replay(h').ready[|s.ready|..]);
  }

  lemma ReadyOnce(h: seq<Event>, d: nat)
    requires FreshIds(h)
    ensures NoRepeats(Replay(h + [Announced(d)]).ready)
  {
    var h' := h + [Announced(d)];
    assert FreshIds(h') by {
      forall i, j | 0 <= i < j < |h'| && h'[i].Submitted? && h'[j].Submitted?
        ensures h'[i].t != h'[j].t
      {
        assert h'[i] == h[i] && h'[j] == h[j];
      }
    }
    ReleaseWhenAllAnnounced(h');
    hide Replay, FreshIds;
  }

  lemma RestHasNoRepeats(q: seq<nat>, n: nat)
    requires NoRepeats(q) && n <= |q|
    ensures NoRepeats(q[n..])
  {
  }

  lemma OrderIsStrict(h: seq<Event>, q: seq<nat>)
    requires NoRepeats(q) && InOrder(SubmittedAt(h), q)
    ensures InStrictOrder(SubmittedAt(h), q)
  {
    hide SubmittedAt;
    forall i, j | 0 <= i < j < |q|
      ensures SubmittedAt(h)[q[i]] < SubmittedAt(h)[q[j]]
    {
      assert q[i] in q && q[j] in q;
      SubmittedThen(h, q[i]);
      SubmittedThen(h, q[j]);
    }
  }
}
