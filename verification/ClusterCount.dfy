/**
  How often a task is executed, in every run: driver and head alike, with evictions,
  reconstructions and dropped connections.

  A payload is handed out once for the pop of its task from the ready queue and once for
  every reconstruction that picked the task, less what is still being prepared and less
  the preparations a dropped connection took away.
 */
module ClusterCount {
  import opened Collections
  import opened Dag
  import opened Lineage
  import opened SchedulerSpec
  import opened Cluster
  import opened ClusterPlacement

  predicate Prepares(tok: Token, t: nat)
  {
    tok.Preparing? && tok.t == t
  }

  /** The slots in which `t` is being prepared. */
  function Preparations(tokens: map<nat, Token>, t: nat): set<nat>
  {
    set k | k in tokens && Prepares(tokens[k], t)
  }

  function Is(b: bool): nat
  {
    if b then 1 else 0
  }

  function Popped(s: State, t: nat): nat
  {
    if t in s.popper then 1 else 0
  }

  /** The step is a get or reconstruct call that found the object of `t` missing. */
  predicate Redoes(s: State, l: Label, t: nat)
  {
    l.Redo? && l.o in s.table.producer && s.table.producer[l.o] == t
  }

  /** The step takes a preparation of `t` away with a dropped connection. */
  predicate Drops(s: State, l: Label, t: nat)
  {
    l.Lose? && l.k in s.tokens && Prepares(s.tokens[l.k], t)
  }

  function Redos(run: seq<State>, labels: seq<Label>, i: nat, t: nat): nat
    requires |run| == |labels| + 1 && i < |run|
  {
    if i == 0 then 0
    else Redos(run, labels, i - 1, t) + Is(Redoes(run[i - 1], labels[i - 1], t))
  }

  function Dropped(run: seq<State>, labels: seq<Label>, i: nat, t: nat): nat
    requires |run| == |labels| + 1 && i < |run|
  {
    if i == 0 then 0
    else Dropped(run, labels, i - 1, t) + Is(Drops(run[i - 1], labels[i - 1], t))
  }

  function Dispatches(s: State, t: nat): nat
  {
    multiset(s.sent)[t]
  }

  lemma PreparationsChange(tokens: map<nat, Token>, k: nat, tok: Token, t: nat)
    ensures |Preparations(tokens[k := tok], t)| ==
      |Preparations(tokens, t)| - Is(k in tokens && Prepares(tokens[k], t)) + Is(Prepares(tok, t))
    ensures |Preparations(tokens - {k}, t)| ==
      |Preparations(tokens, t)| - Is(k in tokens && Prepares(tokens[k], t))
  {
    var rest := Preparations(tokens - {k}, t);
    assert k !in rest;
    assert Preparations(tokens, t) == if k in tokens && Prepares(tokens[k], t) then rest + {k} else rest;
    assert Preparations(tokens[k := tok], t) == if Prepares(tok, t) then rest + {k} else rest;
  }

  /** The token a step is about, before and after. */
  function Before(s: State, l: Label, t: nat): nat
    requires Enabled(s, l)
  {
    if MovesToken(l) && l.k in s.tokens && Prepares(s.tokens[l.k], t) then 1 else 0
  }

  function After(w: World, s: State, l: Label, t: nat): nat
    requires Enabled(s, l)
  {
    if MovesToken(l) && Moved(w, s, l).Some? && Prepares(Moved(w, s, l).value, t) then 1 else 0
  }

  lemma PreparationsStep(w: World, s: State, l: Label, t: nat)
    requires Enabled(s, l)
    ensures |Preparations(Next(w, s, l).tokens, t)| == |Preparations(s.tokens, t)| - Before(s, l, t) + After(w, s, l, t)
  {
    hide Preparations, Prepares, Moved, DepsOf;
    assert Next(w, s, l).tokens == NextTokens(w, s, l);
    if MovesToken(l) && Moved(w, s, l).Some? {
      PreparationsChange(s.tokens, l.k, Moved(w, s, l).value, t);
    } else if MovesToken(l) {
      PreparationsChange(s.tokens, l.k, Submitting(Call(User(0), [], NO_KWARGS), 0), t);
    }
    hide Next, Enabled;
  }

  lemma SentStep(w: World, s: State, l: Label, t: nat)
    requires Enabled(s, l)
    ensures Dispatches(Next(w, s, l), t) == Dispatches(s, t) + Is(l.Send? && s.tokens[l.k].t == t)
  {
    hide NextTokens, DepsOf;
  }

  lemma PoppedStep(w: World, s: State, l: Label, t: nat)
    requires BaseInv(s) && Enabled(s, l)
    ensures Popped(Next(w, s, l), t) == Popped(s, t) + Is(l.Pop? && s.sched.ready[0] == t)
  {
    hide BaseInv, NextTokens, DepsOf;
    if l.Pop? {
      PoppedOnce(s);
    }
  }

  /** Preparations start with a pop or a redo, and end by sending or being dropped. */
  lemma PreparationEnds(w: World, s: State, l: Label, t: nat)
    requires Enabled(s, l)
    ensures After(w, s, l, t) + Is(l.Send? && s.tokens[l.k].t == t) + Is(Drops(s, l, t)) ==
      Before(s, l, t) + Is(l.Pop? && s.sched.ready[0] == t) + Is(Redoes(s, l, t))
  {
    hide DepsOf, FillCall;
  }

  /** What a step does to the balance. */
  lemma BalanceStep(w: World, s: State, l: Label, t: nat)
    requires BaseInv(s) && Enabled(s, l)
    ensures var s' := Next(w, s, l);
      Dispatches(s', t) + |Preparations(s'.tokens, t)| + Popped(s, t) + Is(Drops(s, l, t)) ==
      Dispatches(s, t) + |Preparations(s.tokens, t)| + Popped(s', t) + Is(Redoes(s, l, t))
  {
    hide *;
    PreparationsStep(w, s, l, t);
    SentStep(w, s, l, t);
    PoppedStep(w, s, l, t);
    PreparationEnds(w, s, l, t);
  }

  lemma PoppedOnce(s: State)
    requires BaseInv(s) && s.sched.ready != []
    ensures s.sched.ready[0] !in s.popper
  {
    hide LineageInv, RepInv, RegisteredOnce;
    assert s.sched.ready[0] in Elems(s.sched.ready);
  }

  /**
    The exact count.  In every run, what has been handed out for `t`, is being prepared
    for `t` or was dropped while being prepared, is one for the pop of `t`, if it has been
    popped, and one for every get or reconstruct call that found its object missing.
   */
  lemma {:induction false} DispatchCount(w: World, run: seq<State>, labels: seq<Label>, i: nat, t: nat)
    requires IsRun(w, run, labels) && i < |run|
    ensures Dispatches(run[i], t) + |Preparations(run[i].tokens, t)| + Dropped(run, labels, i, t) ==
      Popped(run[i], t) + Redos(run, labels, i, t)
    decreases i
  {
    if i == 0 {
      NothingYet(t);
    } else {
      hide BaseInv, Next, Enabled, Preparations, Popped, Dispatches, Drops, Redoes, Is, INIT;
      DispatchCount(w, run, labels, i - 1, t);
      BaseAlways(w, run, labels, i - 1);
      BalanceStep(w, run[i - 1], labels[i - 1], t);
    }
  }

  lemma NothingYet(t: nat)
    ensures Dispatches(INIT, t) == |Preparations(INIT.tokens, t)| == Popped(INIT, t) == 0
  {
    assert Preparations(INIT.tokens, t) == {};
  }

  lemma {:induction false} NoRepeatsIsAtMostOnce(q: seq<nat>)
    ensures NoRepeats(q) <==> forall t :: multiset(q)[t] <= 1
  {
    if q != [] {
      var p, u := q[..|q| - 1], q[|q| - 1];
      assert q == p + [u];
      NoRepeatsIsAtMostOnce(p);
      assert forall t :: multiset(q)[t] == multiset(p)[t] + if t == u then 1 else 0;
      if NoRepeats(q) {
        assert forall i :: 0 <= i < |p| ==> q[i] == p[i];
        assert u !in p;
      } else {
        if NoRepeats(p) && u !in p {
          NoRepeatsAppend(p, [u]);
          assert false;
        }
      }
    }
  }

  /**
    When each task is executed at most once, exactly.  Once nothing is being prepared, no
    task has been handed out twice if and only if for every task the pop and the calls
    that found its object missing are no more than one, not counting preparations a
    dropped connection took away.
   */
  lemma AtMostOnceIff(w: World, run: seq<State>, labels: seq<Label>, i: nat)
    requires IsRun(w, run, labels) && i < |run|
    requires forall k :: k in run[i].tokens ==> !run[i].tokens[k].Preparing?
    ensures NoRepeats(run[i].sent) <==>
      forall t :: Popped(run[i], t) + Redos(run, labels, i, t) <= 1 + Dropped(run, labels, i, t)
  {
    NoRepeatsIsAtMostOnce(run[i].sent);
    hide NoRepeats, IsRun;
    forall t
      ensures multiset(run[i].sent)[t] + Dropped(run, labels, i, t) == Popped(run[i], t) + Redos(run, labels, i, t)
    {
      DispatchCount(w, run, labels, i, t);
      assert Preparations(run[i].tokens, t) == {};
    }
  }

  /** For the driver, which has no connections: no task is handed out twice if and only if
      no get or reconstruct call redid a task that has been popped or redone before. */
  lemma DriverAtMostOnceIff(w: World, run: seq<State>, labels: seq<Label>, i: nat)
    requires IsRun(w, run, labels) && i < |run| && forall j :: 0 <= j < |labels| ==> !labels[j].Lose?
    requires forall k :: k in run[i].tokens ==> !run[i].tokens[k].Preparing?
    ensures NoRepeats(run[i].sent) <==> forall t :: Popped(run[i], t) + Redos(run, labels, i, t) <= 1
  {
    AtMostOnceIff(w, run, labels, i);
    hide IsRun, NoRepeats;
    forall t
      ensures Dropped(run, labels, i, t) == 0
    {
      NothingDropped(run, labels, i, t);
    }
  }

  lemma {:induction false} NothingDropped(run: seq<State>, labels: seq<Label>, i: nat, t: nat)
    requires |run| == |labels| + 1 && i < |run| && forall j :: 0 <= j < |labels| ==> !labels[j].Lose?
    ensures Dropped(run, labels, i, t) == 0
    decreases i
  {
    if i > 0 {
      NothingDropped(run, labels, i - 1, t);
    }
  }
}
