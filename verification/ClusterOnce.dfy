/**
  The head executes each task exactly once.

  The head never evicts or reconstructs.  In its runs the popped tasks split into
  those somebody is executing, those whose object is stored and those lost with a
  connection, no two payloads are ever handed out for the same task, and a
  connection can take down only what was popped for it.
 */
module ClusterOnce {
  import opened Collections
  import opened Wrappers
  import opened Dag
  import opened Lineage
  import opened SchedulerSpec
  import opened Cluster
  import opened ClusterPlacement

  predicate HeadLabel(l: Label)
  {
    !l.Evict? && !l.Redo?
  }

  ghost predicate HeadRun(labels: seq<Label>)
  {
    forall i :: 0 <= i < |labels| ==> HeadLabel(labels[i])
  }

  predicate Executing(tok: Token)
  {
    tok.Preparing? || tok.Job? || tok.Result?
  }

  /** The tasks in somebody's hands after being popped. */
  function Carrying(tokens: map<nat, Token>): set<nat>
  {
    set k | k in tokens && Executing(tokens[k]) :: tokens[k].t
  }

  /** The tasks whose object is stored. */
  function Stored(tb: Table, store: map<nat, Value>): set<nat>
  {
    set t | t in tb.tasks && tb.tasks[t].oid in store
  }

  ghost predicate CarriedOnce(tokens: map<nat, Token>)
  {
    forall k, k' | k in tokens && k' in tokens && Executing(tokens[k]) && Executing(tokens[k']) ::
      tokens[k].t == tokens[k'].t ==> k == k'
  }

  /** Each popped task is in exactly one of: being executed, stored, lost. */
  ghost predicate PoppedSplit(s: State)
  {
    Partition(s.popper.Keys, Carrying(s.tokens), Stored(s.table, s.store), s.lost, {})
  }

  /** Whoever executes a task popped it, and has not handed it out before it is ready to. */
  ghost predicate TokenHonest(popper: map<nat, Dest>, sent: seq<nat>, tok: Token)
  {
    && (Executing(tok) ==> tok.t in popper && popper[tok.t] == tok.dest)
    && (tok.Preparing? ==> tok.t !in sent && !tok.redo)
  }

  ghost predicate TokensHonest(popper: map<nat, Dest>, sent: seq<nat>, tokens: map<nat, Token>)
  {
    forall k :: k in tokens ==> TokenHonest(popper, sent, tokens[k])
  }

  ghost predicate SentOnce(popper: map<nat, Dest>, sent: seq<nat>)
  {
    NoRepeats(sent) && forall t :: t in sent ==> t in popper
  }

  /** A task is lost only if it was popped for a connection that was dropped. */
  ghost predicate LostByClosed(popper: map<nat, Dest>, closed: set<nat>, lost: set<nat>)
  {
    forall t :: t in lost ==> t in popper && popper[t].Node? && popper[t].conn in closed
  }

  ghost predicate HeadInv(s: State)
  {
    && BaseInv(s)
    && CarriedOnce(s.tokens)
    && PoppedSplit(s)
    && TokensHonest(s.popper, s.sent, s.tokens)
    && SentOnce(s.popper, s.sent)
    && LostByClosed(s.popper, s.closed, s.lost)
  }

  // ------------------------------------------------------- bookkeeping

  lemma CarryingSame(tokens: map<nat, Token>, k: nat, tok: Option<Token>)
    requires k in tokens && Executing(tokens[k]) <==> tok.Some? && Executing(tok.value)
    requires k in tokens && Executing(tokens[k]) && tok.Some? ==> tok.value.t == tokens[k].t
    ensures Carrying(if tok.Some? then tokens[k := tok.value] else tokens - {k}) == Carrying(tokens)
  {
    var tokens' := if tok.Some? then tokens[k := tok.value] else tokens - {k};
    forall u | u in Carrying(tokens)
      ensures u in Carrying(tokens')
    {
      var k' :| k' in tokens && Executing(tokens[k']) && tokens[k'].t == u;
      assert tokens'[k'].t == u;
    }
    forall u | u in Carrying(tokens')
      ensures u in Carrying(tokens)
    {
      var k' :| k' in tokens' && Executing(tokens'[k']) && tokens'[k'].t == u;
      assert tokens[k'].t == u;
    }
  }

  lemma CarryingGains(tokens: map<nat, Token>, k: nat, tok: Token)
    requires k !in tokens && Executing(tok)
    ensures Carrying(tokens[k := tok]) == Carrying(tokens) + {tok.t}
  {
    var tokens' := tokens[k := tok];
    assert tokens'[k].t == tok.t;
    forall u | u in Carrying(tokens)
      ensures u in Carrying(tokens')
    {
      var k' :| k' in tokens && Executing(tokens[k']) && tokens[k'].t == u;
      assert tokens'[k'].t == u;
    }
  }

  lemma CarryingLoses(tokens: map<nat, Token>, k: nat, tok: Option<Token>)
    requires CarriedOnce(tokens) && k in tokens && Executing(tokens[k]) && !(tok.Some? && Executing(tok.value))
    ensures Carrying(if tok.Some? then tokens[k := tok.value] else tokens - {k}) == Carrying(tokens) - {tokens[k].t}
    ensures tokens[k].t in Carrying(tokens)
  {
    var tokens' := if tok.Some? then tokens[k := tok.value] else tokens - {k};
    forall u | u in Carrying(tokens) && u != tokens[k].t
      ensures u in Carrying(tokens')
    {
      var k' :| k' in tokens && Executing(tokens[k']) && tokens[k'].t == u;
      assert tokens'[k'].t == u;
    }
  }

  lemma CarriedOnceMoved(tokens: map<nat, Token>, k: nat, tok: Option<Token>)
    requires CarriedOnce(tokens)
    requires tok.Some? && Executing(tok.value) ==>
      (k in tokens && Executing(tokens[k]) && tokens[k].t == tok.value.t) || tok.value.t !in Carrying(tokens)
    ensures CarriedOnce(if tok.Some? then tokens[k := tok.value] else tokens - {k})
  {
    assert forall k' :: k' in tokens && Executing(tokens[k']) ==> tokens[k'].t in Carrying(tokens);
  }

  // ------------------------------------------------------- steps

  /** The steps that start or end an execution. */
  predicate StartsOrEnds(l: Label)
  {
    l.Pop? || l.Put? || l.Lose?
  }

  lemma PopSplit(w: World, s: State, k: nat, dest: Dest)
    requires HeadInv(s) && Enabled(s, Pop(k, dest))
    ensures PoppedSplit(Next(w, s, Pop(k, dest))) && CarriedOnce(Next(w, s, Pop(k, dest)).tokens)
    ensures s.sched.ready[0] !in s.popper
  {
    hide LineageInv, RepInv, RegisteredOnce, TokensHonest, SentOnce, LostByClosed, Carrying, CarriedOnce, Stored;
    var t, s' := s.sched.ready[0], Next(w, s, Pop(k, dest));
    assert t in Elems(s.sched.ready);
    assert t !in s.popper;
    hide Registering, Elems;
    CarryingGains(s.tokens, k, Preparing(t, [], dest, false));
    CarriedOnceMoved(s.tokens, k, Some(Preparing(t, [], dest, false)));
    PartitionNew(s.popper.Keys, Carrying(s.tokens), Stored(s.table, s.store), s.lost, {}, t);
    assert s'.popper.Keys == s.popper.Keys + {t};
    hide Partition;
  }

  lemma StoredPut(tb: Table, store: map<nat, Value>, t: nat, v: Value)
    requires Inverse(tb) && t in tb.tasks
    ensures Stored(tb, store[tb.tasks[t].oid := v]) == Stored(tb, store) + {t}
  {
  }

  lemma PutSplit(w: World, s: State, k: nat)
    requires HeadInv(s) && Enabled(s, Put(k))
    ensures PoppedSplit(Next(w, s, Put(k))) && CarriedOnce(Next(w, s, Put(k)).tokens)
  {
    hide RepInv, RegisteredOnce, TokensHonest, SentOnce, LostByClosed, Carrying, CarriedOnce, Stored, DepsOf;
    hide WellFounded, Shapes, DistinctIds, IdsBelow, Placed;
    var tok := s.tokens[k];
    CarryingLoses(s.tokens, k, Moved(w, s, Put(k)));
    CarriedOnceMoved(s.tokens, k, Moved(w, s, Put(k)));
    StoredPut(s.table, s.store, tok.t, Deliver(tok.t, tok.outcome));
    PartitionLeave(s.popper.Keys, Carrying(s.tokens), Stored(s.table, s.store), s.lost, {}, tok.t);
    hide Partition;
  }

  lemma LoseSplit(w: World, s: State, k: nat)
    requires HeadInv(s) && Enabled(s, Lose(k))
    ensures PoppedSplit(Next(w, s, Lose(k))) && CarriedOnce(Next(w, s, Lose(k)).tokens)
  {
    hide LineageInv, RepInv, RegisteredOnce, TokensHonest, SentOnce, LostByClosed, Carrying, CarriedOnce, Stored,
      DepsOf, Placed;
    CarryingLoses(s.tokens, k, None);
    CarriedOnceMoved(s.tokens, k, None);
    PartitionLeave(s.popper.Keys, Carrying(s.tokens), Stored(s.table, s.store), s.lost, {}, s.tokens[k].t);
    hide Partition;
  }

  lemma StoredRegister(tb: Table, tb': Table, store: map<nat, Value>, t: nat, o: nat, c: Call, deps: seq<nat>)
    requires tb' == Record(tb, t, o, c, deps) && t !in tb.tasks && o !in store
    ensures Stored(tb', store) == Stored(tb, store)
  {
  }

  lemma CalmSplit(w: World, s: State, l: Label)
    requires HeadInv(s) && Enabled(s, l) && HeadLabel(l) && !StartsOrEnds(l)
    ensures PoppedSplit(Next(w, s, l)) && CarriedOnce(Next(w, s, l).tokens)
  {
    hide RepInv, RegisteredOnce, TokensHonest, SentOnce, LostByClosed, Carrying, CarriedOnce, Stored, DepsOf,
      Partition, Placed;
    hide WellFounded, Inverse, DistinctIds;
    if MovesToken(l) {
      CarryingSame(s.tokens, l.k, Moved(w, s, l));
      CarriedOnceMoved(s.tokens, l.k, Moved(w, s, l));
    }
    if l.Register? {
      var tok := s.tokens[l.k];
      assert TokenShape(s.nextId, s.table, tok);
      StoredRegister(s.table, Next(w, s, l).table, s.store, tok.t, s.nextId, tok.call, DepsOf(tok.call));
    }
    hide Shapes, IdsBelow;
  }

  lemma SplitStep(w: World, s: State, l: Label)
    requires HeadInv(s) && Enabled(s, l) && HeadLabel(l)
    ensures PoppedSplit(Next(w, s, l)) && CarriedOnce(Next(w, s, l).tokens)
  {
    hide HeadInv, Next, PoppedSplit, CarriedOnce;
    match l {
      case Pop(k, dest) => PopSplit(w, s, k, dest);
      case Put(k) => PutSplit(w, s, k);
      case Lose(k) => LoseSplit(w, s, k);
      case _ => CalmSplit(w, s, l);
    }
  }

  lemma LostStep(w: World, s: State, l: Label)
    requires HeadInv(s) && Enabled(s, l) && HeadLabel(l)
    ensures LostByClosed(Next(w, s, l).popper, Next(w, s, l).closed, Next(w, s, l).lost)
  {
    hide BaseInv, SentOnce, CarriedOnce, DepsOf, NextTokens;
    if l.Lose? {
      assert TokenHonest(s.popper, s.sent, s.tokens[l.k]);
    }
    if l.Pop? {
      PopSplit(w, s, l.k, l.dest);
    }
    hide PoppedSplit, TokensHonest;
  }

  lemma SentStep(w: World, s: State, l: Label)
    requires HeadInv(s) && Enabled(s, l) && HeadLabel(l)
    ensures SentOnce(Next(w, s, l).popper, Next(w, s, l).sent)
  {
    hide BaseInv, CarriedOnce, DepsOf, NextTokens, PoppedSplit, LostByClosed;
    if l.Send? {
      assert TokenHonest(s.popper, s.sent, s.tokens[l.k]);
      NoRepeatsAppend(s.sent, [s.tokens[l.k].t]);
    }
    hide TokensHonest;
  }

  lemma MovedHonest(w: World, s: State, l: Label)
    requires HeadInv(s) && Enabled(s, l) && HeadLabel(l) && MovesToken(l) && Moved(w, s, l).Some?
    ensures TokenHonest(Next(w, s, l).popper, Next(w, s, l).sent, Moved(w, s, l).value)
  {
    hide BaseInv, CarriedOnce, DepsOf, NextTokens, PoppedSplit, LostByClosed;
    if l.k in s.tokens {
      assert TokenHonest(s.popper, s.sent, s.tokens[l.k]);
    }
    if l.Pop? {
      PopSplit(w, s, l.k, l.dest);
    }
    hide TokensHonest;
  }

  lemma OthersHonest(w: World, s: State, l: Label, k: nat)
    requires HeadInv(s) && Enabled(s, l) && HeadLabel(l) && k in s.tokens && !(MovesToken(l) && l.k == k)
    ensures TokenHonest(Next(w, s, l).popper, Next(w, s, l).sent, s.tokens[k])
  {
    hide BaseInv, DepsOf, NextTokens, PoppedSplit, LostByClosed;
    assert TokenHonest(s.popper, s.sent, s.tokens[k]);
    hide TokensHonest;
    if l.Pop? {
      PopSplit(w, s, l.k, l.dest);
    }
    if l.Send? && Executing(s.tokens[k]) {
      assert s.tokens[k].t != s.tokens[l.k].t;
    }
    hide CarriedOnce;
  }

  lemma HonestStep(w: World, s: State, l: Label)
    requires HeadInv(s) && Enabled(s, l) && HeadLabel(l)
    ensures TokensHonest(Next(w, s, l).popper, Next(w, s, l).sent, Next(w, s, l).tokens)
  {
    hide HeadInv, TokenHonest, Moved, Next, DepsOf, Enabled;
    var s' := Next(w, s, l);
    forall k | k in s'.tokens
      ensures TokenHonest(s'.popper, s'.sent, s'.tokens[k])
    {
      TokenOrigin(w, s, l, k);
      if MovesToken(l) && l.k == k {
        MovedHonest(w, s, l);
      } else {
        OthersHonest(w, s, l, k);
      }
    }
  }

  lemma {:induction false} HeadAlways(w: World, run: seq<State>, labels: seq<Label>, i: nat)
    requires IsRun(w, run, labels) && HeadRun(labels) && i < |run|
    ensures HeadInv(run[i])
    decreases i
  {
    if i == 0 {
      BaseInit();
      hide BaseInv;
    } else {
      HeadAlways(w, run, labels, i - 1);
      hide BaseInv, TokensHonest, SentOnce, LostByClosed, PoppedSplit, CarriedOnce, Next, Enabled;
      var s, l := run[i - 1], labels[i - 1];
      BaseStep(w, s, l);
      SplitStep(w, s, l);
      LostStep(w, s, l);
      SentStep(w, s, l);
      HonestStep(w, s, l);
    }
  }

  /** The seven places a submitted task can be in. */
  ghost predicate InOnePlace(s: State)
  {
    && Partition(s.table.tasks.Keys, Registering(s.tokens), s.sched.pending.Keys, Elems(s.sched.ready), s.popper.Keys)
    && Partition(s.popper.Keys, Carrying(s.tokens), Stored(s.table, s.store), s.lost, {})
    && RegisteredOnce(s.tokens) && NoRepeats(s.sched.ready) && CarriedOnce(s.tokens)
  }

  /**
    Exactly once.  In every run of the head: each submitted task is in exactly one
    place (one submitting thread, the pending table, one slot of the ready queue, one
    executor, the store, or lost); no task is ever handed to two workers, so local flush
    and remote polls never both obtain it; and only tasks popped for a dropped
    connection are lost.
   */
  lemma HeadExactlyOnce(w: World, run: seq<State>, labels: seq<Label>, i: nat)
    requires IsRun(w, run, labels) && HeadRun(labels) && i < |run|
    ensures InOnePlace(run[i])
    ensures NoRepeats(run[i].sent)
    ensures LostByClosed(run[i].popper, run[i].closed, run[i].lost)
    ensures forall k :: k in run[i].tokens && Executing(run[i].tokens[k]) ==>
      run[i].tokens[k].t in run[i].popper && run[i].popper[run[i].tokens[k].t] == run[i].tokens[k].dest
  {
    HeadAlways(w, run, labels, i);
    hide IsRun, LineageInv, Partition, Registering, Elems, Carrying, Stored, CarriedOnce, RegisteredOnce,
      LostByClosed, IndexInv;
    assert forall k :: k in run[i].tokens ==> TokenHonest(run[i].popper, run[i].sent, run[i].tokens[k]);
  }
}
