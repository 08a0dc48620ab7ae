/**
  Value soundness: whatever is stored, shipped or reported for a task is what its
  lineage means, in every run and however often the task is executed.
 */
module ClusterValues {
  import opened Collections
  import opened Dag
  import opened Lineage
  import opened SchedulerSpec
  import opened Cluster
  import opened ClusterPlacement

  /** Every argument already fetched, every payload and every result is right. */
  ghost predicate TokenSound(w: World, tb: Table, tok: Token)
    requires WellFounded(tb)
  {
    match tok
    case Preparing(t, got, _, _) => t in tb.tasks && got <= Inputs(w, tb, t)
    case Job(t, call, _, _) => t in tb.tasks && call == Payload(w, tb, t)
    case Result(t, outcome, _) => t in tb.tasks && outcome == Apply(w, Payload(w, tb, t))
    case _ => true
  }

  ghost predicate TokensSound(w: World, tb: Table, tokens: map<nat, Token>)
    requires WellFounded(tb)
  {
    forall k :: k in tokens ==> TokenSound(w, tb, tokens[k])
  }

  ghost predicate StoreSound(w: World, tb: Table, store: map<nat, Value>)
    requires WellFounded(tb)
  {
    forall o :: o in store ==> o in tb.producer && store[o] == Meaning(w, tb, o)
  }

  ghost predicate SoundInv(w: World, s: State)
  {
    BaseInv(s) && TokensSound(w, s.table, s.tokens) && StoreSound(w, s.table, s.store)
  }

  lemma SoundGrows(w: World, tb: Table, tb': Table, tokens: map<nat, Token>, store: map<nat, Value>)
    requires WellFounded(tb) && WellFounded(tb') && Extends(tb, tb')
    requires TokensSound(w, tb, tokens) && StoreSound(w, tb, store)
    ensures TokensSound(w, tb', tokens) && StoreSound(w, tb', store)
  {
    forall k | k in tokens
      ensures TokenSound(w, tb', tokens[k])
    {
      assert TokenSound(w, tb, tokens[k]);
      hide WellFounded, Apply, FillCall, Meaning, Inputs;
      if (tokens[k].Preparing? || tokens[k].Job? || tokens[k].Result?) {
        InputsStable(w, tb, tb', tokens[k].t);
      }
    }
    forall o | o in store
      ensures store[o] == Meaning(w, tb', o)
    {
      MeaningStable(w, tb, tb', o);
    }
  }

  lemma InputAt(w: World, tb: Table, t: nat, n: nat)
    requires WellFounded(tb) && t in tb.tasks && n < |DepsOf(tb.tasks[t].call)|
    ensures var d := DepsOf(tb.tasks[t].call)[n];
      n < |Inputs(w, tb, t)| && d in tb.producer && Inputs(w, tb, t)[n] == Meaning(w, tb, d)
  {
    hide DepsOf, Meaning;
    assert DepsOf(tb.tasks[t].call) == tb.tasks[t].deps;
    assert tb.tasks[t].deps[n] in tb.tasks[t].deps;
  }

  lemma ReadSound(w: World, s: State, k: nat)
    requires SoundInv(w, s) && Enabled(s, Read(k))
    ensures TokenSound(w, s.table, Moved(w, s, Read(k)).value)
  {
    hide RepInv, Placed, Inverse, IdsBelow, Shapes, DistinctIds, WellFounded, DepsOf, Inputs, Meaning;
    var tok := s.tokens[k];
    assert TokenSound(w, s.table, tok);
    InputAt(w, s.table, tok.t, |tok.got|);
    hide TokensSound;
    assert s.store[ArgRefs(s, tok.t)[|tok.got|]] == Inputs(w, s.table, tok.t)[|tok.got|];
  }

  lemma SendSound(w: World, s: State, k: nat)
    requires SoundInv(w, s) && Enabled(s, Send(k))
    ensures TokenSound(w, s.table, Moved(w, s, Send(k)).value)
  {
    hide RepInv, Placed, Inverse, IdsBelow, Shapes;
    var tok := s.tokens[k];
    assert TokenSound(w, s.table, tok);
    hide Inputs, FillCall, DepsOf;
    assert tok.got == Inputs(w, s.table, tok.t);
  }

  lemma MovedSound(w: World, s: State, l: Label)
    requires SoundInv(w, s) && Enabled(s, l) && MovesToken(l) && Moved(w, s, l).Some? && !l.Register?
    ensures TokenSound(w, s.table, Moved(w, s, l).value)
  {
    if l.Read? {
      hide *;
      ReadSound(w, s, l.k);
    } else if l.Send? {
      hide *;
      SendSound(w, s, l.k);
    } else {
      hide RepInv, DepsOf, FillCall, Inputs, Apply, StoreSound, Shapes, DistinctIds, IdsBelow, Registering;
      if l.k in s.tokens {
        assert TokenSound(w, s.table, s.tokens[l.k]);
      }
      if l.Pop? {
        assert s.sched.ready[0] in Elems(s.sched.ready);
      }
    }
  }

  lemma PutSound(w: World, s: State, l: Label)
    requires SoundInv(w, s) && Enabled(s, l) && !l.Register?
    ensures StoreSound(w, s.table, Next(w, s, l).store)
  {
    hide RepInv, DepsOf, FillCall, Inputs, Apply, Shapes, DistinctIds, IdsBelow, Placed, Moved;
    if l.Put? {
      var tok := s.tokens[l.k];
      assert TokenSound(w, s.table, tok);
      assert s.table.producer[s.table.tasks[tok.t].oid] == tok.t;
      assert Deliver(tok.t, tok.outcome) == Meaning(w, s.table, s.table.tasks[tok.t].oid);
    }
    hide Deliver, Inverse;
  }

  lemma SoundStep(w: World, s: State, l: Label)
    requires SoundInv(w, s) && Enabled(s, l)
    ensures SoundInv(w, Next(w, s, l))
  {
    hide RepInv, DepsOf, FillCall, Inputs, Meaning, Apply, Placed, Shapes, DistinctIds, IdsBelow, TokenSound,
      StoreSound, Inverse;
    BaseStep(w, s, l);
    if l.Register? {
      SoundGrows(w, s.table, Next(w, s, l).table, s.tokens, s.store);
      RegisteredSound(w, Next(w, s, l).table, s.tokens[l.k].t);
    } else {
      PutSound(w, s, l);
      if MovesToken(l) && Moved(w, s, l).Some? {
        MovedSound(w, s, l);
      }
      hide WellFounded;
      TableStep(w, s, l);
      hide Next;
      TokensMoved(w, s, l);
    }
  }

  lemma RegisteredSound(w: World, tb: Table, t: nat)
    requires WellFounded(tb)
    ensures TokenSound(w, tb, Registered(t))
  {
  }

  lemma TokensMoved(w: World, s: State, l: Label)
    requires WellFounded(s.table) && Enabled(s, l)
    requires TokensSound(w, s.table, s.tokens)
    requires MovesToken(l) && Moved(w, s, l).Some? ==> TokenSound(w, s.table, Moved(w, s, l).value)
    ensures TokensSound(w, s.table, Next(w, s, l).tokens)
  {
    hide WellFounded, TokenSound, Moved, DepsOf;
  }

  lemma {:induction false} SoundAlways(w: World, run: seq<State>, labels: seq<Label>, i: nat)
    requires IsRun(w, run, labels) && i < |run|
    ensures SoundInv(w, run[i])
    decreases i
  {
    if i == 0 {
      BaseInit();
    } else {
      SoundAlways(w, run, labels, i - 1);
      SoundStep(w, run[i - 1], labels[i - 1]);
    }
  }

  /** Lineage is append-only along a run. */
  lemma {:induction false} TableGrows(w: World, run: seq<State>, labels: seq<Label>, i: nat, j: nat)
    requires IsRun(w, run, labels) && i <= j < |run|
    ensures WellFounded(run[i].table) && WellFounded(run[j].table) && Extends(run[i].table, run[j].table)
    decreases j - i
  {
    BaseAlways(w, run, labels, i);
    if i < j {
      BaseStep(w, run[i], labels[i]);
      TableGrows(w, run, labels, i + 1, j);
    }
  }

  /**
    Value soundness.  At every moment of every run, under any interleaving of
    submissions, re-triggers, flushes and polls, workers, collectors, evictions and
    reconstructions: every stored object is the recursive evaluation of its lineage,
    every payload on its way to a worker is its task's call with the references
    replaced by what they mean, and every result message is the outcome of that call.
   */
  lemma ValueSoundness(w: World, run: seq<State>, labels: seq<Label>, i: nat)
    requires IsRun(w, run, labels) && i < |run|
    ensures WellFounded(run[i].table)
    ensures forall o :: o in run[i].store ==>
      o in run[i].table.producer && run[i].store[o] == Meaning(w, run[i].table, o)
    ensures forall k :: k in run[i].tokens && run[i].tokens[k].Job? ==>
      var t := run[i].tokens[k].t;
      t in run[i].table.tasks && run[i].tokens[k].call == Payload(w, run[i].table, t)
    ensures forall k :: k in run[i].tokens && run[i].tokens[k].Result? ==>
      var t := run[i].tokens[k].t;
      t in run[i].table.tasks && run[i].tokens[k].outcome == Apply(w, Payload(w, run[i].table, t))
  {
    SoundAlways(w, run, labels, i);
    hide IsRun, RepInv, Placed, Shapes, DistinctIds, IdsBelow, Inverse, DepsOf, Inputs, Meaning, Payload, Apply;
    assert forall k :: k in run[i].tokens ==> TokenSound(w, run[i].table, run[i].tokens[k]);
  }

  /** However often an object is evicted, recomputed or computed twice, two readings of
      it at any two moments of a run give the same value. */
  lemma StoredValuesNeverDiffer(w: World, run: seq<State>, labels: seq<Label>, i: nat, j: nat, o: nat)
    requires IsRun(w, run, labels) && i <= j < |run| && o in run[i].store && o in run[j].store
    ensures run[i].store[o] == run[j].store[o]
  {
    SoundAlways(w, run, labels, i);
    SoundAlways(w, run, labels, j);
    TableGrows(w, run, labels, i, j);
    hide IsRun, RepInv, Placed, Shapes, DistinctIds, IdsBelow, Inverse, WellFounded, TokensSound;
    MeaningStable(w, run[i].table, run[j].table, o);
    hide Meaning;
  }
}
