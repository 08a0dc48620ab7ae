/**
  The blocking object store, one map operation at a time.

  A reader checks the object, registers interest by fetching or creating the
  notification of the id, checks again, waits for the notification's flag, and reads.
  A writer inserts the object, looks the notification up, and sets the flag it found.
  A deletion removes the object and then forgets the notification.  These are the
  steps of `object_store.rs`, each of which is one operation on one concurrent map;
  the Python store runs some of them under one lock, so its runs are among these.

  `log` is a history of what readers, writers and deletions did; no step reads it.
 */
module StoreProtocol {
  import opened Wrappers
  import opened Dag

  datatype Thread =
    | Checking(o: nat)
    | Registering(o: nat)
    | DoubleChecking(o: nat, n: nat)   // holds notification n
    | Waiting(o: nat, n: nat)
    | Reading(o: nat)
    | Returned(o: nat, v: Value)
    | Disappeared(o: nat)              // the internal error; a KeyError in Python
    | GaveUp(o: nat)
    | Inserting(o: nat, v: Value)
    | Looking(o: nat)
    | Signalling(o: nat, n: nat)
    | Removing(o: nat)
    | Discarding(o: nat)
    | Done

  datatype Event =
    | DidRegister(o: nat, n: nat)
    | DidInsert(o: nat, v: Value)
    | DidLook(o: nat)
    | DidRemove(o: nat)
    | DidDiscard(o: nat)

  datatype State = State(
    objects: map<nat, Value>,
    notes: map<nat, nat>,        // object id to notification
    made: nat,                   // notifications created so far
    ready: set<nat>,             // notifications whose flag is set
    threads: map<nat, Thread>,
    log: seq<Event>)

  const INIT := State(map[], map[], 0, {}, map[], [])

  datatype Label =
    | StartGet(k: nat, o: nat)
    | StartPut(k: nat, o: nat, v: Value)
    | StartDelete(k: nat, o: nat)
    | Step(k: nat)
    | GiveUp(k: nat)             // a timeout

  /** A thread has work left and is not blocked. */
  predicate CanStep(s: State, th: Thread)
  {
    match th
    case Waiting(_, n) => n in s.ready
    case Returned(_, _) => false
    case Disappeared(_) => false
    case GaveUp(_) => false
    case Done => false
    case _ => true
  }

  predicate Enabled(s: State, l: Label)
  {
    match l
    case Step(k) => k in s.threads && CanStep(s, s.threads[k])
    case GiveUp(k) => k in s.threads && s.threads[k].Waiting?
    case _ => l.k !in s.threads
  }

  function Found(s: State, o: nat): Option<Value>
  {
    if o in s.objects then Some(s.objects[o]) else None
  }

  /** The notification a reader gets when it registers. */
  function NoteFor(s: State, o: nat): nat
  {
    if o in s.notes then s.notes[o] else s.made
  }

  function Moved(s: State, l: Label): Thread
    requires Enabled(s, l)
  {
    match l
    case StartGet(_, o) => Checking(o)
    case StartPut(_, o, v) => Inserting(o, v)
    case StartDelete(_, o) => Removing(o)
    case GiveUp(k) => GaveUp(s.threads[k].o)
    case Step(k) =>
      match s.threads[k]
      case Checking(o) => (match Found(s, o) case Some(v) => Returned(o, v) case None => Registering(o))
      case Registering(o) => DoubleChecking(o, NoteFor(s, o))
      case DoubleChecking(o, n) => (match Found(s, o) case Some(v) => Returned(o, v) case None => Waiting(o, n))
      case Waiting(o, _) => Reading(o)
      case Reading(o) => (match Found(s, o) case Some(v) => Returned(o, v) case None => Disappeared(o))
      case Inserting(o, _) => Looking(o)
      case Looking(o) => if o in s.notes then Signalling(o, s.notes[o]) else Done
      case Removing(o) => Discarding(o)
      case _ => Done
  }

  function Next(s: State, l: Label): State
    requires Enabled(s, l)
  {
    var s' := s.(threads := s.threads[l.k := Moved(s, l)]);
    if !l.Step? then s'
    else match s.threads[l.k]
      case Registering(o) =>
        s'.(notes := s.notes[o := NoteFor(s, o)],
            made := if o in s.notes then s.made else s.made + 1,
            log := s.log + [DidRegister(o, NoteFor(s, o))])
      case Inserting(o, v) => s'.(objects := s.objects[o := v], log := s.log + [DidInsert(o, v)])
      case Looking(o) => s'.(log := s.log + [DidLook(o)])
      case Signalling(_, n) => s'.(ready := s.ready + {n})
      case Removing(o) => s'.(objects := s.objects - {o}, log := s.log + [DidRemove(o)])
      case Discarding(o) => s'.(notes := s.notes - {o}, log := s.log + [DidDiscard(o)])
      case _ => s'
  }

  ghost predicate IsRun(run: seq<State>, labels: seq<Label>)
  {
    && |run| == |labels| + 1
    && run[0] == INIT
    && forall i :: 0 <= i < |labels| ==> Enabled(run[i], labels[i]) && run[i + 1] == Next(run[i], labels[i])
  }

  // ------------------------------------------------------- which put answers which reader

  /** No deletion forgot the notification of `o` at a position of the log between
      the two given ones. */
  ghost predicate Undisturbed(log: seq<Event>, r: nat, m: nat, o: nat)
  {
    forall i :: r < i < m && i < |log| ==> log[i] != DidDiscard(o)
  }

  /** Some reader registered with notification `n` and it has not been forgotten since. */
  ghost predicate Current(log: seq<Event>, o: nat, n: nat)
  {
    exists r: nat :: r < |log| && log[r] == DidRegister(o, n) && Undisturbed(log, r, |log|, o)
  }

  /** Some reader registered with `n`, and after that some put looked the notification
      up before any deletion forgot it. */
  ghost predicate Answered(log: seq<Event>, o: nat, n: nat)
  {
    exists r: nat, m: nat ::
      r < m < |log| && log[r] == DidRegister(o, n) && log[m] == DidLook(o) && Undisturbed(log, r, m, o)
  }

  /** The flag of `n` is set, or a put has fetched it and is about to set it. */
  ghost predicate Taken(s: State, o: nat, n: nat)
  {
    n in s.ready || exists k :: k in s.threads && s.threads[k] == Signalling(o, n)
  }

  ghost predicate NotesInv(s: State)
  {
    forall o, n :: o in s.notes && s.notes[o] == n <==> Current(s.log, o, n)
  }

  /** Notifications are created fresh, and each belongs to one object. */
  ghost predicate IdsInv(s: State)
  {
    && (forall e :: e in s.log && e.DidRegister? ==> e.n < s.made)
    && (forall o :: o in s.notes ==> DidRegister(o, s.notes[o]) in s.log)
    && (forall e, e' | e in s.log && e' in s.log && e.DidRegister? && e'.DidRegister? :: e.n == e'.n ==> e.o == e'.o)
  }

  ghost predicate AnswerInv(s: State)
  {
    forall e :: e in s.log && e.DidRegister? ==> (Taken(s, e.o, e.n) <==> Answered(s.log, e.o, e.n))
  }

  predicate HoldsNote(th: Thread)
  {
    th.DoubleChecking? || th.Waiting? || th.Signalling?
  }

  /** Threads only hold notifications that were registered for their object. */
  ghost predicate HoldInv(s: State)
  {
    forall k :: k in s.threads && HoldsNote(s.threads[k]) ==>
      DidRegister(s.threads[k].o, s.threads[k].n) in s.log
  }

  ghost predicate StoreInv(s: State)
  {
    IdsInv(s) && HoldInv(s) && NotesInv(s) && AnswerInv(s)
  }

  lemma CurrentAppend(log: seq<Event>, e: Event, o: nat, n: nat)
    ensures Current(log + [e], o, n) <==> e == DidRegister(o, n) || (e != DidDiscard(o) && Current(log, o, n))
  {
    var log' := log + [e];
    if e == DidRegister(o, n) {
      assert log'[|log|] == e && Undisturbed(log', |log|, |log'|, o);
    } else {
      if Current(log', o, n) {
        var r: nat :| r < |log'| && log'[r] == DidRegister(o, n) && Undisturbed(log', r, |log'|, o);
        assert log[r] == log'[r] && log'[|log|] == e;
        assert forall i :: r < i < |log| ==> log[i] == log'[i];
        assert Undisturbed(log, r, |log|, o);
      }
      if e != DidDiscard(o) && Current(log, o, n) {
        var r: nat :| r < |log| && log[r] == DidRegister(o, n) && Undisturbed(log, r, |log|, o);
        assert log'[r] == log[r];
        assert Undisturbed(log', r, |log'|, o);
      }
    }
  }

  lemma AnsweredAppend(log: seq<Event>, e: Event, o: nat, n: nat)
    ensures Answered(log + [e], o, n) <==> Answered(log, o, n) || (e == DidLook(o) && Current(log, o, n))
  {
    var log' := log + [e];
    if Answered(log', o, n) {
      var r: nat, m: nat :|
        r < m < |log'| && log'[r] == DidRegister(o, n) && log'[m] == DidLook(o) && Undisturbed(log', r, m, o);
      assert forall i :: 0 <= i < |log| ==> log[i] == log'[i];
      assert Undisturbed(log, r, m, o);
    }
    if Answered(log, o, n) {
      var r: nat, m: nat :|
        r < m < |log| && log[r] == DidRegister(o, n) && log[m] == DidLook(o) && Undisturbed(log, r, m, o);
      assert log'[r] == log[r] && log'[m] == log[m];
      assert Undisturbed(log', r, m, o);
    }
    if e == DidLook(o) && Current(log, o, n) {
      var r: nat :| r < |log| && log[r] == DidRegister(o, n) && Undisturbed(log, r, |log|, o);
      assert log'[r] == log[r] && log'[|log|] == e;
      assert Undisturbed(log', r, |log|, o);
    }
  }

  /** The one event a step may add to the log. */
  function NewEvent(s: State, l: Label): Option<Event>
    requires Enabled(s, l)
  {
    if !l.Step? then None
    else match s.threads[l.k]
      case Registering(o) => Some(DidRegister(o, NoteFor(s, o)))
      case Inserting(o, v) => Some(DidInsert(o, v))
      case Looking(o) => Some(DidLook(o))
      case Removing(o) => Some(DidRemove(o))
      case Discarding(o) => Some(DidDiscard(o))
      case _ => None
  }

  lemma LogStep(s: State, l: Label)
    requires Enabled(s, l)
    ensures NewEvent(s, l).None? ==> Next(s, l).log == s.log
    ensures NewEvent(s, l).Some? ==> Next(s, l).log == s.log + [NewEvent(s, l).value]
    ensures forall e :: e in s.log ==> e in Next(s, l).log
  {
    hide Moved;
  }

  lemma ThreadOrigin(s: State, l: Label, k: nat)
    requires Enabled(s, l)
    ensures l.k in Next(s, l).threads && Next(s, l).threads[l.k] == Moved(s, l)
    ensures k != l.k ==> (k in s.threads <==> k in Next(s, l).threads)
    ensures k != l.k && k in s.threads ==> Next(s, l).threads[k] == s.threads[k]
  {
    hide Moved;
  }

  lemma IdsStep(s: State, l: Label)
    requires IdsInv(s) && Enabled(s, l)
    ensures IdsInv(Next(s, l))
  {
    hide Moved;
    LogStep(s, l);
    if NewEvent(s, l).Some? {
      var e := NewEvent(s, l).value;
      assert e in Next(s, l).log by { assert (s.log + [e])[|s.log|] == e; }
    }
  }

  lemma HoldStep(s: State, l: Label)
    requires IdsInv(s) && HoldInv(s) && Enabled(s, l)
    ensures HoldInv(Next(s, l))
  {
    LogStep(s, l);
    var s' := Next(s, l);
    if NewEvent(s, l).Some? {
      var e := NewEvent(s, l).value;
      assert e in s'.log by { assert (s.log + [e])[|s.log|] == e; }
    }
    forall k | k in s'.threads && (s'.threads[k].DoubleChecking? || s'.threads[k].Waiting? || s'.threads[k].Signalling?)
      ensures DidRegister(s'.threads[k].o, s'.threads[k].n) in s'.log
    {
      ThreadOrigin(s, l, k);
      hide Next;
    }
  }

  lemma NotesStep(s: State, l: Label)
    requires IdsInv(s) && NotesInv(s) && Enabled(s, l)
    ensures NotesInv(Next(s, l))
  {
    hide Current, Moved;
    var s' := Next(s, l);
    LogStep(s, l);
    forall o, n
      ensures o in s'.notes && s'.notes[o] == n <==> Current(s'.log, o, n)
    {
      if NewEvent(s, l).Some? {
        CurrentAppend(s.log, NewEvent(s, l).value, o, n);
      }
    }
  }

  /** What a step does to a flag that is set or about to be. */
  lemma TakenStep(s: State, l: Label, o: nat, n: nat)
    requires IdsInv(s) && HoldInv(s) && Enabled(s, l) && DidRegister(o, n) in s.log
    ensures Taken(Next(s, l), o, n) <==>
      Taken(s, o, n) || (NewEvent(s, l) == Some(DidLook(o)) && o in s.notes && s.notes[o] == n)
  {
    var s' := Next(s, l);
    hide NoteFor;
    if l.Step? && s.threads[l.k].Signalling? {
      assert s.threads[l.k].n == n ==> s.threads[l.k].o == o;
    }
    if k :| k in s.threads && s.threads[k] == Signalling(o, n) {
      ThreadOrigin(s, l, k);
      assert k != l.k ==> s'.threads[k] == Signalling(o, n);
    }
    if k :| k in s'.threads && s'.threads[k] == Signalling(o, n) {
      ThreadOrigin(s, l, k);
    }
    if NewEvent(s, l) == Some(DidLook(o)) && o in s.notes && s.notes[o] == n {
      assert s'.threads[l.k] == Signalling(o, n);
    }
  }

  /** A notification that is registered for the first time is in nobody's hands. */
  lemma FreshNotTaken(s: State, o: nat, n: nat)
    requires IdsInv(s) && HoldInv(s) && ReadyInv(s) && n >= s.made
    ensures !Taken(s, o, n) && !Answered(s.log, o, n) && !Current(s.log, o, n)
  {
    assert !Taken(s, o, n) by {
      forall k | k in s.threads && s.threads[k].Signalling?
        ensures s.threads[k] != Signalling(o, n)
      {
        assert DidRegister(s.threads[k].o, s.threads[k].n) in s.log;
      }
    }
  }

  /** Only notifications that exist have their flag set. */
  ghost predicate ReadyInv(s: State)
  {
    forall n :: n in s.ready ==> n < s.made
  }

  lemma ReadyStep(s: State, l: Label)
    requires IdsInv(s) && HoldInv(s) && ReadyInv(s) && Enabled(s, l)
    ensures ReadyInv(Next(s, l))
  {
    hide Moved;
  }

  lemma AnswerStep(s: State, l: Label)
    requires StoreInv(s) && ReadyInv(s) && Enabled(s, l)
    ensures AnswerInv(Next(s, l))
  {
    hide Current, Answered, Taken, Next, Undisturbed, Moved;
    var s' := Next(s, l);
    LogStep(s, l);
    forall e | e in s'.log && e.DidRegister?
      ensures Taken(s', e.o, e.n) <==> Answered(s'.log, e.o, e.n)
    {
      if e in s.log {
        TakenStep(s, l, e.o, e.n);
        if NewEvent(s, l).Some? {
          AnsweredAppend(s.log, NewEvent(s, l).value, e.o, e.n);
        }
      } else {
        assert NewEvent(s, l) == Some(e);
        AnsweredAppend(s.log, e, e.o, e.n);
        NewNote(s, l, e);
      }
    }
  }

  lemma NewNote(s: State, l: Label, e: Event)
    requires StoreInv(s) && ReadyInv(s) && Enabled(s, l) && NewEvent(s, l) == Some(e) && e.DidRegister? && e !in s.log
    ensures !Taken(Next(s, l), e.o, e.n) && !Answered(s.log, e.o, e.n)
  {
    hide NotesInv, AnswerInv, Answered;
    FreshNotTaken(s, e.o, e.n);
    forall k | k in Next(s, l).threads
      ensures Next(s, l).threads[k] != Signalling(e.o, e.n)
    {
      ThreadOrigin(s, l, k);
    }
  }

  // ------------------------------------------------------- what is stored

  ghost predicate WasPut(log: seq<Event>, o: nat, v: Value)
  {
    DidInsert(o, v) in log
  }

  ghost predicate WasDeleted(log: seq<Event>, o: nat)
  {
    DidRemove(o) in log
  }

  /** Objects and returned values come from puts; a look-up and a discarding follow the
      insertion and the removal of the same call. */
  ghost predicate ValueInv(s: State)
  {
    && (forall o :: o in s.objects ==> WasPut(s.log, o, s.objects[o]))
    && (forall k :: k in s.threads && s.threads[k].Returned? ==> WasPut(s.log, s.threads[k].o, s.threads[k].v))
  }

  ghost predicate DeleteInv(s: State)
  {
    && (forall k :: k in s.threads && s.threads[k].Discarding? ==> WasDeleted(s.log, s.threads[k].o))
    && (forall o :: DidDiscard(o) in s.log ==> WasDeleted(s.log, o))
  }

  /** What holds of an object that was never deleted. */
  ghost predicate KeptInv(s: State)
  {
    && (forall o, v :: WasPut(s.log, o, v) && !WasDeleted(s.log, o) ==> o in s.objects)
    && (forall o :: DidLook(o) in s.log && !WasDeleted(s.log, o) ==> o in s.objects)
    && (forall k :: k in s.threads && (s.threads[k].Looking? || s.threads[k].Reading?) ==>
          s.threads[k].o in s.objects || WasDeleted(s.log, s.threads[k].o))
    && (forall k :: k in s.threads && s.threads[k].Disappeared? ==> WasDeleted(s.log, s.threads[k].o))
  }

  /** A reader that waits although its object is stored and was never deleted. */
  ghost predicate WaitsForStored(s: State, th: Thread)
  {
    th.Waiting? && th.o in s.objects && !WasDeleted(s.log, th.o)
  }

  /** A reader waits for a stored object only while some put is about to set its flag. */
  ghost predicate WakeInv(s: State)
  {
    forall k :: k in s.threads && WaitsForStored(s, s.threads[k]) ==>
      Taken(s, s.threads[k].o, s.threads[k].n) || SomeoneLooks(s, s.threads[k].o)
  }

  ghost predicate SomeoneLooks(s: State, o: nat)
  {
    exists k :: k in s.threads && s.threads[k] == Looking(o)
  }

  ghost predicate Inv(s: State)
  {
    StoreInv(s) && ReadyInv(s) && ValueInv(s) && DeleteInv(s) && KeptInv(s) && WakeInv(s)
  }

  lemma ValueStep(s: State, l: Label)
    requires ValueInv(s) && Enabled(s, l)
    ensures ValueInv(Next(s, l))
  {
    LogStep(s, l);
    var s' := Next(s, l);
    if NewEvent(s, l).Some? {
      var e := NewEvent(s, l).value;
      assert e in s'.log by { assert (s.log + [e])[|s.log|] == e; }
    }
    forall k | k in s'.threads && s'.threads[k].Returned?
      ensures WasPut(s'.log, s'.threads[k].o, s'.threads[k].v)
    {
      ThreadOrigin(s, l, k);
      hide Next;
    }
    hide Moved;
  }

  lemma DeleteStep(s: State, l: Label)
    requires DeleteInv(s) && Enabled(s, l)
    ensures DeleteInv(Next(s, l))
  {
    LogStep(s, l);
    var s' := Next(s, l);
    if NewEvent(s, l).Some? {
      var e := NewEvent(s, l).value;
      assert e in s'.log by { assert (s.log + [e])[|s.log|] == e; }
    }
    forall k | k in s'.threads && s'.threads[k].Discarding?
      ensures WasDeleted(s'.log, s'.threads[k].o)
    {
      ThreadOrigin(s, l, k);
      hide Next;
    }
    hide Moved, Next;
  }

  /** What a step does to the stored objects. */
  lemma ObjectsStep(s: State, l: Label, o: nat)
    requires Enabled(s, l)
    ensures o in Next(s, l).objects <==>
      || (o in s.objects && NewEvent(s, l) != Some(DidRemove(o)))
      || (l.Step? && s.threads[l.k].Inserting? && s.threads[l.k].o == o)
    ensures WasDeleted(Next(s, l).log, o) <==> WasDeleted(s.log, o) || NewEvent(s, l) == Some(DidRemove(o))
  {
    hide Moved;
    LogStep(s, l);
    if NewEvent(s, l).Some? {
      var e := NewEvent(s, l).value;
      assert e in Next(s, l).log by { assert (s.log + [e])[|s.log|] == e; }
    }
  }

  /** A flag that is set answers for a stored object, unless there were deletions. */
  lemma TakenIsStored(s: State, o: nat, n: nat)
    requires StoreInv(s) && KeptInv(s) && DidRegister(o, n) in s.log && Taken(s, o, n) && !WasDeleted(s.log, o)
    ensures o in s.objects
  {
    hide NotesInv, Taken;
    assert Answered(s.log, o, n);
    assert DidLook(o) in s.log;
  }

  lemma KeptThread(s: State, l: Label, k: nat)
    requires Inv(s) && Enabled(s, l) && k in Next(s, l).threads
    ensures var s' := Next(s, l);
      var th := s'.threads[k];
      && (th.Looking? || th.Reading? ==> th.o in s'.objects || WasDeleted(s'.log, th.o))
      && (th.Disappeared? ==> WasDeleted(s'.log, th.o))
  {
    hide AnswerInv, NotesInv, IdsInv, ReadyInv, ValueInv, DeleteInv, WakeInv, Taken;
    ThreadOrigin(s, l, k);
    var th := Next(s, l).threads[k];
    if th.Looking? || th.Reading? || th.Disappeared? {
      ObjectsStep(s, l, th.o);
      if k == l.k && th.Reading? {
        assert Taken(s, th.o, s.threads[k].n) by {
          hide *;
          WaitingIsTaken(s, k);
        }
        if !WasDeleted(s.log, th.o) {
          TakenIsStored(s, th.o, s.threads[k].n);
        }
      }
    }
    hide Next, WasDeleted, NewEvent;
  }

  lemma WaitingIsTaken(s: State, k: nat)
    requires k in s.threads && s.threads[k].Waiting? && CanStep(s, s.threads[k])
    ensures Taken(s, s.threads[k].o, s.threads[k].n)
  {
  }

  lemma KeptStep(s: State, l: Label)
    requires Inv(s) && Enabled(s, l)
    ensures KeptInv(Next(s, l))
  {
    var s' := Next(s, l);
    forall k | k in s'.threads
      ensures s'.threads[k].Looking? || s'.threads[k].Reading? ==>
        s'.threads[k].o in s'.objects || WasDeleted(s'.log, s'.threads[k].o)
      ensures s'.threads[k].Disappeared? ==> WasDeleted(s'.log, s'.threads[k].o)
    {
      KeptThread(s, l, k);
    }
    hide StoreInv, ReadyInv, ValueInv, DeleteInv, WakeInv, Moved;
    LogStep(s, l);
    forall o, v | WasPut(s'.log, o, v) && !WasDeleted(s'.log, o)
      ensures o in s'.objects
    {
      ObjectsStep(s, l, o);
      assert WasPut(s.log, o, v) || (l.Step? && s.threads[l.k] == Inserting(o, v));
    }
    forall o | DidLook(o) in s'.log && !WasDeleted(s'.log, o)
      ensures o in s'.objects
    {
      ObjectsStep(s, l, o);
      assert DidLook(o) in s.log || (l.Step? && s.threads[l.k] == Looking(o));
    }
    hide Next;
  }

  lemma WakeThread(s: State, l: Label, k: nat)
    requires Inv(s) && Enabled(s, l) && k in Next(s, l).threads
    requires WaitsForStored(Next(s, l), Next(s, l).threads[k])
    ensures var s' := Next(s, l);
      Taken(s', s'.threads[k].o, s'.threads[k].n) || SomeoneLooks(s', s'.threads[k].o)
  {
    var s' := Next(s, l);
    var o, n := s'.threads[k].o, s'.threads[k].n;
    ObjectsStep(s, l, o);
    ThreadOrigin(s, l, k);
    hide StoreInv, ReadyInv, ValueInv, DeleteInv, KeptInv, Taken, WasDeleted;
    if l.Step? && s.threads[l.k].Inserting? && s.threads[l.k].o == o {
      assert s'.threads[l.k] == Looking(o);
    } else if k != l.k {
      hide Next, Moved;
      KeepsAwake(s, l, k);
    }
  }

  lemma KeepsAwake(s: State, l: Label, k: nat)
    requires Inv(s) && Enabled(s, l) && k in s.threads && s.threads[k].Waiting? && k != l.k
    requires s.threads[k].o in s.objects && !WasDeleted(s.log, s.threads[k].o)
    ensures Taken(Next(s, l), s.threads[k].o, s.threads[k].n) || SomeoneLooks(Next(s, l), s.threads[k].o)
  {
    hide AnswerInv, ReadyInv, ValueInv, KeptInv, Taken, Moved, Next;
    var o, n := s.threads[k].o, s.threads[k].n;
    TakenStep(s, l, o, n);
    if !Taken(s, o, n) {
      var j :| j in s.threads && s.threads[j] == Looking(o);
      if l.Step? && l.k == j {
        NoteStays(s, o, n);
      } else {
        ThreadOrigin(s, l, j);
      }
    }
    hide IdsInv, NotesInv, HoldInv, WakeInv;
  }

  /** Without deletions a registered notification stays the current one. */
  lemma NoteStays(s: State, o: nat, n: nat)
    requires NotesInv(s) && DeleteInv(s) && DidRegister(o, n) in s.log && !WasDeleted(s.log, o)
    ensures o in s.notes && s.notes[o] == n
  {
    var r: nat :| r < |s.log| && s.log[r] == DidRegister(o, n);
    assert Undisturbed(s.log, r, |s.log|, o);
    assert Current(s.log, o, n);
  }

  lemma InvStep(s: State, l: Label)
    requires Inv(s) && Enabled(s, l)
    ensures Inv(Next(s, l))
  {
    var s' := Next(s, l);
    assert WakeInv(s') by {
      forall k | k in s'.threads && WaitsForStored(s', s'.threads[k])
        ensures Taken(s', s'.threads[k].o, s'.threads[k].n) || SomeoneLooks(s', s'.threads[k].o)
      {
        WakeThread(s, l, k);
      }
    }
    hide IdsInv, HoldInv, NotesInv, AnswerInv, ReadyInv, ValueInv, DeleteInv, KeptInv, WakeInv, Next, Enabled;
    IdsStep(s, l);
    HoldStep(s, l);
    NotesStep(s, l);
    AnswerStep(s, l);
    ReadyStep(s, l);
    ValueStep(s, l);
    DeleteStep(s, l);
    KeptStep(s, l);
  }

  lemma {:induction false} InvAlways(run: seq<State>, labels: seq<Label>, i: nat)
    requires IsRun(run, labels) && i < |run|
    ensures Inv(run[i])
    decreases i
  {
    if i > 0 {
      hide Inv, Next, Enabled;
      InvAlways(run, labels, i - 1);
      InvStep(run[i - 1], labels[i - 1]);
    }
  }

  // ------------------------------------------------------- main results

  /** Nothing that reads, writes or deletes `o` can move. */
  ghost predicate Settled(s: State, o: nat)
  {
    forall k :: k in s.threads && CanStep(s, s.threads[k]) ==> s.threads[k].o != o
  }

  /** The reader's and writer's part of a call on `o` that can no longer move is over,
      or it waits for its flag. */
  ghost predicate Finished(th: Thread)
  {
    th.Returned? || th.Disappeared? || th.GaveUp? || th.Done?
  }

  /**
    No lost wakeup.  In every reachable state in which `o` was never deleted: no reader
    of `o` ever meets the "disappeared" error; a reader that waits although `o` has been
    put has its flag set, or a put of `o` is still on its way to setting it; and when
    no call on `o` can move and `o` has been put, every reader of `o` is through.
   */
  lemma NoLostWakeup(run: seq<State>, labels: seq<Label>, i: nat, o: nat, k: nat)
    requires IsRun(run, labels) && i < |run| && !WasDeleted(run[i].log, o)
    requires k in run[i].threads && !run[i].threads[k].Done? && run[i].threads[k].o == o
    ensures !run[i].threads[k].Disappeared?
    ensures run[i].threads[k].Waiting? && (exists v :: WasPut(run[i].log, o, v)) ==>
      Taken(run[i], o, run[i].threads[k].n) || SomeoneLooks(run[i], o)
    ensures Settled(run[i], o) && (exists v :: WasPut(run[i].log, o, v)) ==> Finished(run[i].threads[k])
  {
    InvAlways(run, labels, i);
    hide IsRun, StoreInv, ReadyInv, ValueInv, DeleteInv, WasPut, WasDeleted;
  }

  /** A reader returns only values that were put under its id, deletions or not. */
  lemma ReturnsWhatWasPut(run: seq<State>, labels: seq<Label>, i: nat, k: nat)
    requires IsRun(run, labels) && i < |run| && k in run[i].threads && run[i].threads[k].Returned?
    ensures WasPut(run[i].log, run[i].threads[k].o, run[i].threads[k].v)
  {
    InvAlways(run, labels, i);
    hide IsRun, StoreInv, ReadyInv, DeleteInv, KeptInv, WakeInv;
  }

  /**
    Which put answers which reader, deletions included.  The flag a reader waits for is
    set, or about to be, exactly when some put looked the notification up after a reader
    had registered with it and before a deletion forgot it.
   */
  lemma WokenIffAnswered(run: seq<State>, labels: seq<Label>, i: nat, k: nat)
    requires IsRun(run, labels) && i < |run| && k in run[i].threads && run[i].threads[k].Waiting?
    ensures var o, n := run[i].threads[k].o, run[i].threads[k].n;
      Taken(run[i], o, n) <==> Answered(run[i].log, o, n)
  {
    InvAlways(run, labels, i);
    hide IsRun, ReadyInv, ValueInv, DeleteInv, KeptInv, WakeInv, Taken, Answered, NotesInv;
  }

  /** A reader that registered at `r` is an orphan of the put that looked at `m` only if
      a deletion of its object forgot its notification in between. */
  lemma OrphanedOnlyByDelete(run: seq<State>, labels: seq<Label>, i: nat, k: nat, r: nat, m: nat)
    requires IsRun(run, labels) && i < |run| && k in run[i].threads && run[i].threads[k].Waiting?
    requires r < m < |run[i].log| && run[i].log[m] == DidLook(run[i].threads[k].o)
    requires run[i].log[r] == DidRegister(run[i].threads[k].o, run[i].threads[k].n)
    requires !Taken(run[i], run[i].threads[k].o, run[i].threads[k].n)
    ensures exists j :: r < j < m && run[i].log[j] == DidDiscard(run[i].threads[k].o)
  {
    WokenIffAnswered(run, labels, i, k);
    hide IsRun, Taken;
    assert !Undisturbed(run[i].log, r, m, run[i].threads[k].o);
  }

  /** How many steps a call has left at most. */
  function StepsLeft(th: Thread): nat
  {
    match th
    case Checking(_) => 5
    case Registering(_) => 4
    case DoubleChecking(_, _) => 3
    case Waiting(_, _) => 2
    case Reading(_) => 1
    case Inserting(_, _) => 3
    case Looking(_) => 2
    case Signalling(_, _) => 1
    case Removing(_) => 2
    case Discarding(_) => 1
    case _ => 0
  }

  function StepsOf(labels: seq<Label>, k: nat): nat
  {
    if labels == [] then 0 else StepsOf(labels[..|labels| - 1], k) + if labels[|labels| - 1].k == k then 1 else 0
  }

  /** No call ever runs in circles: whatever the others do, it takes at most six steps.
      With `NoLostWakeup`, readers of an object that is put and not deleted return. */
  lemma {:induction false} CallsAreShort(run: seq<State>, labels: seq<Label>, i: nat, k: nat)
    requires IsRun(run, labels) && i < |run|
    ensures k !in run[i].threads ==> StepsOf(labels[..i], k) == 0
    ensures k in run[i].threads ==> StepsOf(labels[..i], k) + StepsLeft(run[i].threads[k]) <= 6
    decreases i
  {
    if i > 0 {
      CallsAreShort(run, labels, i - 1, k);
      assert labels[..i][..i - 1] == labels[..i - 1] && labels[..i][i - 1] == labels[i - 1];
      assert Enabled(run[i - 1], labels[i - 1]);
      ThreadOrigin(run[i - 1], labels[i - 1], k);
      hide Next;
    }
  }

  // ------------------------------------------------------- when an object is there

  predicate Inserts(e: Event, o: nat)
  {
    e.DidInsert? && e.o == o
  }

  /** Some insertion of `o` has not been followed by a removal. */
  ghost predicate Present(log: seq<Event>, o: nat)
  {
    exists r: nat :: r < |log| && Inserts(log[r], o) && forall m :: r < m < |log| ==> log[m] != DidRemove(o)
  }

  /** Some removal of `o` has not been followed by an insertion. */
  ghost predicate RemovedLast(log: seq<Event>, o: nat)
  {
    exists r: nat :: r < |log| && log[r] == DidRemove(o) && forall m :: r < m < |log| ==> !Inserts(log[m], o)
  }

  lemma PresentAppend(log: seq<Event>, e: Event, o: nat)
    ensures Present(log + [e], o) <==> Inserts(e, o) || (Present(log, o) && e != DidRemove(o))
  {
    var log' := log + [e];
    if Inserts(e, o) {
      assert log'[|log|] == e;
    } else if Present(log, o) && e != DidRemove(o) {
      var r: nat :| r < |log| && Inserts(log[r], o) && forall m :: r < m < |log| ==> log[m] != DidRemove(o);
      assert log'[r] == log[r];
    }
    if Present(log', o) {
      var r: nat :| r < |log'| && Inserts(log'[r], o) && forall m :: r < m < |log'| ==> log'[m] != DidRemove(o);
      assert forall m :: 0 <= m < |log| ==> log'[m] == log[m];
      assert r < |log| ==> log'[|log|] == e;
    }
  }

  lemma RemovedLastAppend(log: seq<Event>, e: Event, o: nat)
    ensures RemovedLast(log + [e], o) <==> e == DidRemove(o) || (RemovedLast(log, o) && !Inserts(e, o))
  {
    var log' := log + [e];
    if e == DidRemove(o) {
      assert log'[|log|] == e;
    } else if RemovedLast(log, o) && !Inserts(e, o) {
      var r: nat :| r < |log| && log[r] == DidRemove(o) && forall m :: r < m < |log| ==> !Inserts(log[m], o);
      assert log'[r] == log[r];
    }
    if RemovedLast(log', o) {
      var r: nat :| r < |log'| && log'[r] == DidRemove(o) && forall m :: r < m < |log'| ==> !Inserts(log'[m], o);
      assert forall m :: 0 <= m < |log| ==> log'[m] == log[m];
      assert r < |log| ==> log'[|log|] == e;
    }
  }

  /** An object is there exactly if its last insertion was not followed by a removal; one
      that was removed at some time is missing exactly if the removal came last. */
  ghost predicate PresenceInv(s: State)
  {
    forall o ::
      && (o in s.objects <==> Present(s.log, o))
      && (RemovedLast(s.log, o) <==> o !in s.objects && WasDeleted(s.log, o))
  }

  lemma PresenceStep(s: State, l: Label)
    requires PresenceInv(s) && Enabled(s, l)
    ensures PresenceInv(Next(s, l))
  {
    hide Present, RemovedLast, Moved;
    var s' := Next(s, l);
    LogStep(s, l);
    forall o
      ensures o in s'.objects <==> Present(s'.log, o)
      ensures RemovedLast(s'.log, o) <==> o !in s'.objects && WasDeleted(s'.log, o)
    {
      ObjectsStep(s, l, o);
      if NewEvent(s, l).Some? {
        PresentAppend(s.log, NewEvent(s, l).value, o);
        RemovedLastAppend(s.log, NewEvent(s, l).value, o);
      }
      hide WasDeleted, Next;
    }
  }

  lemma {:induction false} PresenceAlways(run: seq<State>, labels: seq<Label>, i: nat)
    requires IsRun(run, labels) && i < |run|
    ensures PresenceInv(run[i])
    decreases i
  {
    if i > 0 {
      hide PresenceInv, Next, Enabled;
      PresenceAlways(run, labels, i - 1);
      PresenceStep(run[i - 1], labels[i - 1]);
    }
  }

  /** In every run, an object is in the store exactly if some put inserted it and no
      deletion has removed it since. */
  lemma StoredIffNotRemovedSince(run: seq<State>, labels: seq<Label>, i: nat, o: nat)
    requires IsRun(run, labels) && i < |run|
    ensures o in run[i].objects <==> Present(run[i].log, o)
  {
    PresenceAlways(run, labels, i);
    hide IsRun, Present, RemovedLast, WasDeleted;
  }

  /** When a woken reader meets the "disappeared" error, exactly: when its object has been
      removed and not inserted again since. */
  lemma DisappearsIffRemovedLast(run: seq<State>, labels: seq<Label>, i: nat, k: nat)
    requires IsRun(run, labels) && i < |run| && k in run[i].threads && run[i].threads[k].Reading?
    ensures Next(run[i], Step(k)).threads[k].Disappeared? <==> RemovedLast(run[i].log, run[i].threads[k].o)
  {
    hide IsRun, Present, RemovedLast, WasDeleted, StoreInv, ReadyInv, ValueInv, DeleteInv, WakeInv, NewEvent;
    PresenceAlways(run, labels, i);
    InvAlways(run, labels, i);
    RereadFails(run[i], k);
  }

  lemma RereadFails(s: State, k: nat)
    requires k in s.threads && s.threads[k].Reading?
    ensures Next(s, Step(k)).threads[k].Disappeared? <==> s.threads[k].o !in s.objects
  {
  }
}
