/**
  Dispatch order: in every run the sequence of payloads handed to workers places
  each task after the producers of all its references.
 */
module ClusterOrder {
  import opened Collections
  import opened Dag
  import opened Lineage
  import opened SchedulerSpec
  import opened Cluster
  import opened ClusterPlacement

  ghost predicate ProducedIn(tb: Table, o: nat, sent: seq<nat>)
  {
    o in tb.producer && tb.producer[o] in sent
  }

  ghost predicate TokenOrdered(tb: Table, sent: seq<nat>, tok: Token)
  {
    match tok
    case Preparing(t, got, _, _) =>
      && t in tb.tasks
      && |got| <= |DepsOf(tb.tasks[t].call)|
      && forall i :: 0 <= i < |got| ==> ProducedIn(tb, DepsOf(tb.tasks[t].call)[i], sent)
    case Job(t, _, _, _) => t in sent
    case Result(t, _, _) => t in sent
    case _ => true
  }

  ghost predicate TokensOrdered(tb: Table, sent: seq<nat>, tokens: map<nat, Token>)
  {
    forall k :: k in tokens ==> TokenOrdered(tb, sent, tokens[k])
  }

  ghost predicate StoreOrdered(tb: Table, sent: seq<nat>, store: map<nat, Value>)
  {
    forall o :: o in store ==> ProducedIn(tb, o, sent)
  }

  /** Each entry comes after the producers of its task's references. */
  ghost predicate Topological(tb: Table, sent: seq<nat>)
  {
    forall i :: 0 <= i < |sent| ==>
      sent[i] in tb.tasks && forall d :: d in DepsOf(tb.tasks[sent[i]].call) ==> ProducedIn(tb, d, sent[..i])
  }

  ghost predicate OrderInv(s: State)
  {
    && BaseInv(s)
    && TokensOrdered(s.table, s.sent, s.tokens)
    && StoreOrdered(s.table, s.sent, s.store)
    && Topological(s.table, s.sent)
  }

  lemma OrderGrows(tb: Table, tb': Table, sent: seq<nat>, sent': seq<nat>, tokens: map<nat, Token>, store: map<nat,
                   Value>)
    requires Extends(tb, tb') && sent <= sent'
    requires TokensOrdered(tb, sent, tokens) && StoreOrdered(tb, sent, store)
    ensures TokensOrdered(tb', sent', tokens) && StoreOrdered(tb', sent', store)
  {
    hide DepsOf;
    forall t | t in sent
      ensures t in sent'
    {
      var i :| 0 <= i < |sent| && sent[i] == t;
      assert sent'[i] == t;
    }
    forall k | k in tokens
      ensures TokenOrdered(tb', sent', tokens[k])
    {
      assert TokenOrdered(tb, sent, tokens[k]);
    }
  }

  lemma TopologicalGrows(tb: Table, tb': Table, sent: seq<nat>)
    requires Extends(tb, tb') && Topological(tb, sent)
    ensures Topological(tb', sent)
  {
    hide DepsOf;
  }

  lemma TopologicalSend(tb: Table, sent: seq<nat>, t: nat)
    requires Topological(tb, sent) && t in tb.tasks
    requires forall d :: d in DepsOf(tb.tasks[t].call) ==> ProducedIn(tb, d, sent)
    ensures Topological(tb, sent + [t])
  {
    hide DepsOf;
    var sent' := sent + [t];
    forall i | 0 <= i < |sent'|
      ensures sent'[i] in tb.tasks && forall d :: d in DepsOf(tb.tasks[sent'[i]].call) ==> ProducedIn(tb, d, sent'[..i])
    {
      if i < |sent| {
        assert sent'[..i] == sent[..i] && sent'[i] == sent[i];
      } else {
        assert sent'[..i] == sent;
      }
    }
  }

  lemma ReadOrdered(w: World, s: State, k: nat)
    requires OrderInv(s) && Enabled(s, Read(k))
    ensures TokenOrdered(s.table, s.sent, Moved(w, s, Read(k)).value)
  {
    hide RepInv, DepsOf, Shapes, DistinctIds, IdsBelow, Registering, Topological, WellFounded, Inverse, Placed;
    assert TokenOrdered(s.table, s.sent, s.tokens[k]);
    hide TokensOrdered, ProducedIn;
  }

  lemma MovedOrdered(w: World, s: State, l: Label)
    requires OrderInv(s) && Enabled(s, l) && MovesToken(l) && Moved(w, s, l).Some? && !l.Register?
    ensures TokenOrdered(s.table, Next(w, s, l).sent, Moved(w, s, l).value)
  {
    hide RepInv, DepsOf, FillCall, Apply, Shapes, DistinctIds, IdsBelow, Registering, Topological, ProducedIn,
      Inverse, StoreOrdered;
    if l.k in s.tokens {
      assert TokenOrdered(s.table, s.sent, s.tokens[l.k]);
    }
    hide TokensOrdered;
    match l {
      case Read(k) => ReadOrdered(w, s, k);
      case Pop(_, _) => assert s.sched.ready[0] in Elems(s.sched.ready);
      case _ =>
    }
  }

  lemma StoreOrderedStep(w: World, s: State, l: Label)
    requires OrderInv(s) && Enabled(s, l) && !l.Register? && !l.Send?
    ensures StoreOrdered(s.table, s.sent, Next(w, s, l).store)
  {
    hide RepInv, DepsOf, FillCall, Apply, Shapes, DistinctIds, IdsBelow, Placed, Moved, Topological, WellFounded;
    if l.Put? {
      var tok := s.tokens[l.k];
      assert TokenOrdered(s.table, s.sent, tok);
      assert s.table.producer[s.table.tasks[tok.t].oid] == tok.t;
    }
    hide Inverse, TokensOrdered;
  }

  lemma TokensOrderedMoved(w: World, s: State, l: Label, sent: seq<nat>)
    requires Enabled(s, l) && TokensOrdered(s.table, sent, s.tokens)
    requires MovesToken(l) && Moved(w, s, l).Some? ==> TokenOrdered(s.table, sent, Moved(w, s, l).value)
    ensures TokensOrdered(s.table, sent, Next(w, s, l).tokens)
  {
    hide TokenOrdered, Moved, DepsOf;
  }

  lemma OrderStep(w: World, s: State, l: Label)
    requires OrderInv(s) && Enabled(s, l)
    ensures OrderInv(Next(w, s, l))
  {
    hide RepInv, DepsOf, FillCall, Apply, Shapes, DistinctIds, IdsBelow, Registering, Topological, TokensOrdered,
      StoreOrdered, Placed;
    BaseStep(w, s, l);
    hide LineageInv;
    if l.Register? {
      RegisterOrdered(w, s, l.k);
    } else {
      if MovesToken(l) && Moved(w, s, l).Some? {
        MovedOrdered(w, s, l);
      }
      if l.Send? {
        SendOrdered(w, s, l.k);
      } else {
        QuietOrdered(w, s, l);
      }
    }
    hide Next, Moved, Enabled;
  }

  lemma QuietOrdered(w: World, s: State, l: Label)
    requires OrderInv(s) && Enabled(s, l) && !l.Register? && !l.Send?
    requires MovesToken(l) && Moved(w, s, l).Some? ==> TokenOrdered(s.table, s.sent, Moved(w, s, l).value)
    ensures var s' := Next(w, s, l);
      && TokensOrdered(s'.table, s'.sent, s'.tokens)
      && StoreOrdered(s'.table, s'.sent, s'.store)
      && Topological(s'.table, s'.sent)
  {
    hide RepInv, DepsOf, FillCall, Apply, LineageInv, Topological, TokensOrdered, StoreOrdered, TokenOrdered, Placed,
      Moved;
    StoreOrderedStep(w, s, l);
    TokensOrderedMoved(w, s, l, s.sent);
    assert Next(w, s, l).sent == s.sent && Next(w, s, l).table == s.table;
    hide Next;
  }

  lemma RegisterOrdered(w: World, s: State, k: nat)
    requires OrderInv(s) && Enabled(s, Register(k))
    ensures var s' := Next(w, s, Register(k));
      && TokensOrdered(s'.table, s'.sent, s'.tokens)
      && StoreOrdered(s'.table, s'.sent, s'.store)
      && Topological(s'.table, s'.sent)
  {
    hide RepInv, DepsOf, FillCall, Apply, Shapes, DistinctIds, IdsBelow, Registering, Topological, TokensOrdered,
      StoreOrdered, Placed;
    var s' := Next(w, s, Register(k));
    TableStep(w, s, Register(k));
    OrderGrows(s.table, s'.table, s.sent, s'.sent, s.tokens, s.store);
    TopologicalGrows(s.table, s'.table, s.sent);
    assert s'.tokens == s.tokens[k := Registered(s.tokens[k].t)];
    assert s'.sent == s.sent && s'.store == s.store;
    hide Next, WellFounded, Inverse;
    assert TokensOrdered(s'.table, s'.sent, s'.tokens) by {
      OrderedUpdate(s'.table, s'.sent, s.tokens, k, Registered(s.tokens[k].t));
    }
  }

  lemma OrderedUpdate(tb: Table, sent: seq<nat>, tokens: map<nat, Token>, k: nat, tok: Token)
    requires TokensOrdered(tb, sent, tokens) && TokenOrdered(tb, sent, tok)
    ensures TokensOrdered(tb, sent, tokens[k := tok])
  {
    hide TokenOrdered;
  }

  lemma SendOrdered(w: World, s: State, k: nat)
    requires OrderInv(s) && Enabled(s, Send(k))
    requires TokenOrdered(s.table, Next(w, s, Send(k)).sent, Moved(w, s, Send(k)).value)
    ensures var s' := Next(w, s, Send(k));
      && TokensOrdered(s'.table, s'.sent, s'.tokens)
      && StoreOrdered(s'.table, s'.sent, s'.store)
      && Topological(s'.table, s'.sent)
  {
    hide RepInv, DepsOf, FillCall, Apply, Shapes, DistinctIds, IdsBelow, Registering, Placed;
    var s', tok := Next(w, s, Send(k)), s.tokens[k];
    assert TokenOrdered(s.table, s.sent, tok);
    hide TokensOrdered, StoreOrdered, Topological;
    forall d | d in DepsOf(s.table.tasks[tok.t].call)
      ensures ProducedIn(s.table, d, s.sent)
    {
    }
    TopologicalSend(s.table, s.sent, tok.t);
    OrderGrows(s.table, s.table, s.sent, s'.sent, s.tokens, s.store);
    OrderedUpdate(s.table, s'.sent, s.tokens, k, Moved(w, s, Send(k)).value);
  }

  lemma {:induction false} OrderAlways(w: World, run: seq<State>, labels: seq<Label>, i: nat)
    requires IsRun(w, run, labels) && i < |run|
    ensures OrderInv(run[i])
    decreases i
  {
    if i == 0 {
      BaseInit();
    } else {
      OrderAlways(w, run, labels, i - 1);
      OrderStep(w, run[i - 1], labels[i - 1]);
    }
  }

  /** Topological dispatch.  In every run, every payload handed to a worker comes after
      a payload of the producer of each reference in its call. */
  lemma DispatchIsTopological(w: World, run: seq<State>, labels: seq<Label>, i: nat)
    requires IsRun(w, run, labels) && i < |run|
    ensures Topological(run[i].table, run[i].sent)
  {
    OrderAlways(w, run, labels, i);
  }
}
