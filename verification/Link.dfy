/**
  One connection shared by several threads, as in `RemoteRuntime._send_recv` and
  `WorkerNode._send_to_head`: a thread takes the lock, sends its request, takes the next
  response off the connection and gives the lock back.  The head answers requests in the
  order in which they arrive, one response each.  Neither side puts anything into a
  message that would say which request a response belongs to.

  The connection may be dropped at any moment.  What is under way may then be lost.  A
  thread that sends into a dropped connection gets an exception, or notices nothing and the
  request vanishes; one that waits for a response gets an exception or None.  A message
  that is too large is refused before anything is sent, dropped connection or not.

  `sent` and `served` are histories: who sent what, and every response, in order.
 */
module Link {
  import opened Wrappers
  import opened Dag

  datatype Request =
    | RegisterWorker
    | SubmitTask(payload: Value)
    | GetObject(o: nat)
    | ContainsObject(o: nat)
    | PollTask
    | TaskResult(t: nat)
    | Unknown(command: string)

  datatype Response =
    | Ok
    | ObjectId(o: nat)
    | ObjectValue(v: Value)
    | Contains(b: bool)
    | Task(t: nat)
    | NoTask
    | Ack
    | Error(message: string)

  /** `HeadService._dispatch`: which responses a request can get. */
  predicate Suits(q: Request, r: Response)
  {
    match q
    case RegisterWorker => r.Ok?
    case SubmitTask(_) => r.ObjectId?
    case GetObject(_) => r.ObjectValue?
    case ContainsObject(_) => r.Contains?
    case PollTask => r.Task? || r.NoTask?
    case TaskResult(_) => r.Ack?
    case Unknown(_) => r.Error?
  }

  /** Where a thread is in its call; `n` says as which request of the connection it went out. */
  datatype Phase =
    | Idle
    | Wants(q: Request)
    | Holding(q: Request)                 // has the lock
    | Awaiting(q: Request, n: nat)        // has sent
    | Received(q: Request, n: nat, r: Response)
    | Cut(q: Request, why: Failure)              // got an exception, or None
    | Finished(q: Request, n: nat, r: Response)  // has given the lock back
    | Broken(q: Request, why: Failure)           // has given the lock back after a failure

  /** None instead of a response, an exception the loops of a node name, or another one. */
  datatype Failure = NoAnswer | ConnectionError | OtherError

  datatype Sent = Sent(sender: nat, q: Request)

  datatype State = State(
    open: bool,
    lock: Option<nat>,
    phases: map<nat, Phase>,
    toHead: seq<Request>,
    handling: Option<Request>,
    toClient: seq<Response>,
    sent: seq<Sent>,
    served: seq<Response>)

  datatype Label =
    | Start(k: nat, q: Request)
    | Acquire(k: nat)
    | Send(k: nat)
    | Take                      // the head receives a request
    | Respond(r: Response)
    | Receive(k: nat)
    | Release(k: nat)
    | Return(k: nat)
    | Drop
    | LoseRequest
    | LoseResponse
    | SendFails(k: nat)
    | Refuse(k: nat)            // send_msg: message too large
    | ReceiveFails(k: nat, why: Failure)

  const INIT := State(true, None, map[], [], None, [], [], [])

  function PhaseOf(s: State, k: nat): Phase
  {
    if k in s.phases then s.phases[k] else Idle
  }

  predicate Enabled(s: State, l: Label)
  {
    match l
    case Start(k, _) => PhaseOf(s, k).Idle?
    case Acquire(k) => PhaseOf(s, k).Wants? && s.lock.None?
    case Send(k) => PhaseOf(s, k).Holding?
    case Take => s.handling.None? && s.toHead != []
    case Respond(r) => s.handling.Some? && Suits(s.handling.value, r)
    case Receive(k) => PhaseOf(s, k).Awaiting? && s.toClient != []
    case Release(k) => PhaseOf(s, k).Received? || PhaseOf(s, k).Cut?
    case Return(k) => PhaseOf(s, k).Finished? || PhaseOf(s, k).Broken?
    case Drop => s.open
    case LoseRequest => !s.open && s.toHead != []
    case LoseResponse => !s.open && s.toClient != []
    case SendFails(k) => PhaseOf(s, k).Holding? && !s.open
    case Refuse(k) => PhaseOf(s, k).Holding?
    case ReceiveFails(k, why) => PhaseOf(s, k).Awaiting? && !s.open && s.toClient == [] && !why.OtherError?
  }

  function Next(s: State, l: Label): State
    requires Enabled(s, l)
  {
    match l
    case Start(k, q) => s.(phases := s.phases[k := Wants(q)])
    case Acquire(k) => s.(lock := Some(k), phases := s.phases[k := Holding(s.phases[k].q)])
    case Send(k) =>
      var q := s.phases[k].q;
      s.(toHead := if s.open then s.toHead + [q] else s.toHead,
         sent := s.sent + [Sent(k, q)],
         phases := s.phases[k := Awaiting(q, |s.sent|)])
    case Take => s.(handling := Some(s.toHead[0]), toHead := s.toHead[1..])
    case Respond(r) =>
      s.(handling := None, toClient := if s.open then s.toClient + [r] else s.toClient, served := s.served + [r])
    case Receive(k) =>
      var p := s.phases[k];
      s.(phases := s.phases[k := Received(p.q, p.n, s.toClient[0])], toClient := s.toClient[1..])
    case Release(k) =>
      var p := s.phases[k];
      s.(lock := None, phases := s.phases[k := if p.Cut? then Broken(p.q, p.why) else Finished(p.q, p.n, p.r)])
    case Return(k) => s.(phases := s.phases[k := Idle])
    case Drop => s.(open := false)
    case LoseRequest => s.(toHead := s.toHead[1..])
    case LoseResponse => s.(toClient := s.toClient[1..])
    case SendFails(k) => s.(phases := s.phases[k := Cut(s.phases[k].q, ConnectionError)])
    case Refuse(k) => s.(phases := s.phases[k := Cut(s.phases[k].q, OtherError)])
    case ReceiveFails(k, why) => s.(phases := s.phases[k := Cut(s.phases[k].q, why)])
  }

  ghost predicate IsRun(run: seq<State>, labels: seq<Label>)
  {
    && |run| == |labels| + 1
    && run[0] == INIT
    && forall i :: 0 <= i < |labels| ==> Enabled(run[i], labels[i]) && run[i + 1] == Next(run[i], labels[i])
  }

  // ------------------------------------------------------- pairing

  predicate InLock(p: Phase)
  {
    p.Holding? || p.Awaiting? || p.Received? || p.Cut?
  }

  /** Nothing is on its way. */
  predicate Nothing(s: State)
  {
    s.toHead == [] && s.handling == None && s.toClient == []
  }

  /** The last request is on its way to the head or at the head. */
  predicate Unanswered(s: State, q: Request)
  {
    && |s.served| == |s.sent| - 1 && s.toClient == []
    && ((s.toHead == [q] && s.handling == None) || (s.toHead == [] && s.handling == Some(q)))
  }

  /** The response to the last request is on its way back. */
  predicate Answered(s: State)
  {
    && |s.served| == |s.sent| && s.sent != []
    && s.toHead == [] && s.handling == None && s.toClient == [s.served[|s.served| - 1]]
  }

  /** Every request has been answered. */
  predicate Settled(s: State)
  {
    Nothing(s) && |s.served| == |s.sent|
  }

  /** How many requests are on their way to the head or at the head. */
  function Inbound(s: State): nat
  {
    |s.toHead| + if s.handling.Some? then 1 else 0
  }

  /** On a dropped connection, no response will come any more. */
  predicate Dead(s: State)
  {
    !s.open && s.toClient == [] && Inbound(s) <= 1 && |s.served| + Inbound(s) <= |s.sent|
  }

  /** The last request, which is `q`, is under way, or lost. */
  predicate OneUnderWay(s: State, q: Request)
  {
    Unanswered(s, q) || (Answered(s) && Suits(q, s.served[|s.served| - 1])) || Dead(s)
  }

  /** What a connection carries that nobody waits on. */
  predicate Leftover(s: State)
  {
    Settled(s) || Dead(s)
  }

  /** What `k` has received is the response to what it sent. */
  predicate Paired(s: State, k: nat, p: Phase)
  {
    p.Received? || p.Finished? ==>
      p.n < |s.sent| && p.n < |s.served| && s.sent[p.n] == Sent(k, p.q) && s.served[p.n] == p.r && Suits(p.q, p.r)
  }

  ghost predicate LockInv(s: State)
  {
    && (forall k :: k in s.phases && InLock(s.phases[k]) ==> s.lock == Some(k))
    && (s.lock.Some? ==> s.lock.value in s.phases && InLock(s.phases[s.lock.value]))
  }

  /** The connection as its threads see it: whether one waits, and for what. */
  function Waiting(s: State): Option<Request>
  {
    if s.lock.Some? && PhaseOf(s, s.lock.value).Awaiting? then Some(PhaseOf(s, s.lock.value).q) else None
  }

  ghost predicate WireInv(s: State)
  {
    match Waiting(s)
    case None => Leftover(s)
    case Some(q) =>
      && s.sent != [] && PhaseOf(s, s.lock.value).n == |s.sent| - 1
      && s.sent[|s.sent| - 1] == Sent(s.lock.value, q) && OneUnderWay(s, q)
  }

  ghost predicate PairInv(s: State)
  {
    forall k :: k in s.phases ==> Paired(s, k, s.phases[k])
  }

  ghost predicate Inv(s: State)
  {
    LockInv(s) && WireInv(s) && PairInv(s)
  }

  lemma LockStep(s: State, l: Label)
    requires Inv(s) && Enabled(s, l)
    ensures LockInv(Next(s, l))
  {
    hide PairInv, Leftover, OneUnderWay, Suits;
  }

  /** Only the holder of the lock can send, receive or fail. */
  lemma WhoMoves(s: State, l: Label)
    requires LockInv(s) && Enabled(s, l)
    ensures l.Send? || l.Receive? || l.Release? || l.SendFails? || l.Refuse? || l.ReceiveFails? ==> s.lock == Some(l.k)
    ensures l.Start? || l.Return? ==> s.lock != Some(l.k)
  {
  }

  lemma HeadMoves(s: State, l: Label)
    requires WireInv(s) && Enabled(s, l)
    requires l.Take? || l.Respond? || l.Drop? || l.LoseRequest? || l.LoseResponse?
    ensures WireInv(Next(s, l))
  {
    var s' := Next(s, l);
    assert s'.lock == s.lock && s'.phases == s.phases && s'.sent == s.sent;
    match Waiting(s) {
      case Some(q) => HeadMovesFor(s, l, q);
      case None => HeadMovesOn(s, l);
    }
    hide Next, Leftover, OneUnderWay;
  }

  lemma HeadMovesFor(s: State, l: Label, q: Request)
    requires OneUnderWay(s, q) && Enabled(s, l)
    requires l.Take? || l.Respond? || l.Drop? || l.LoseRequest? || l.LoseResponse?
    ensures OneUnderWay(Next(s, l), q)
  {
  }

  lemma HeadMovesOn(s: State, l: Label)
    requires Leftover(s) && Enabled(s, l)
    requires l.Take? || l.Respond? || l.Drop? || l.LoseRequest? || l.LoseResponse?
    ensures Leftover(Next(s, l))
  {
    hide Suits;
  }

  lemma WireStep(s: State, l: Label)
    requires Inv(s) && Enabled(s, l)
    ensures WireInv(Next(s, l))
  {
    if l.Take? || l.Respond? || l.Drop? || l.LoseRequest? || l.LoseResponse? {
      HeadMoves(s, l);
    } else {
      ThreadMoves(s, l);
    }
    hide Inv, Next;
  }

  lemma ThreadMoves(s: State, l: Label)
    requires Inv(s) && Enabled(s, l)
    requires !(l.Take? || l.Respond? || l.Drop? || l.LoseRequest? || l.LoseResponse?)
    ensures WireInv(Next(s, l))
  {
    WhoMoves(s, l);
    hide PairInv, LockInv, Suits;
    var s' := Next(s, l);
    if l.Send? {
      assert if s.open then Unanswered(s', s.phases[l.k].q) else Dead(s');
    } else if l.Receive? {
      assert Settled(s');
    } else if l.ReceiveFails? {
      assert Dead(s');
    } else {
      assert Waiting(s') == Waiting(s);
      hide Settled, Answered, Unanswered, Dead;
      SameWire(s, s');
    }
  }

  lemma SameWire(s: State, s': State)
    requires s'.(lock := s.lock, phases := s.phases) == s
    ensures Leftover(s') <==> Leftover(s)
    ensures forall q :: OneUnderWay(s', q) <==> OneUnderWay(s, q)
  {
  }

  lemma PairStep(s: State, l: Label)
    requires Inv(s) && Enabled(s, l)
    ensures PairInv(Next(s, l))
  {
    WhoMoves(s, l);
    var s' := Next(s, l);
    forall k | k in s'.phases
      ensures Paired(s', k, s'.phases[k])
    {
      assert k in s.phases ==> Paired(s, k, s.phases[k]);
      hide LockInv, PairInv, Suits;
    }
  }

  lemma InvStep(s: State, l: Label)
    requires Inv(s) && Enabled(s, l)
    ensures Inv(Next(s, l))
  {
    LockStep(s, l);
    WireStep(s, l);
    PairStep(s, l);
    hide LockInv, WireInv, PairInv, Next, Enabled;
  }

  lemma {:induction false} InvAlways(run: seq<State>, labels: seq<Label>, i: nat)
    requires IsRun(run, labels) && i < |run|
    ensures Inv(run[i])
    decreases i
  {
    if i > 0 {
      hide Inv, Next, Enabled;
      InvAlways(run, labels, i - 1);
      InvStep(run[i - 1], labels[i - 1]);
    }
  }

  /**
    Pairing.  Whatever the threads do and however their calls interleave: the response a
    caller gets is the one the head gave to that caller's own request, the `n`-th of the
    connection, and it is of the kind that request calls for.
   */
  lemma OwnResponse(run: seq<State>, labels: seq<Label>, i: nat, k: nat)
    requires IsRun(run, labels) && i < |run| && k in run[i].phases && run[i].phases[k].Finished?
    ensures var p := run[i].phases[k];
      && p.n < |run[i].sent| && p.n < |run[i].served|
      && run[i].sent[p.n] == Sent(k, p.q) && run[i].served[p.n] == p.r && Suits(p.q, p.r)
  {
    InvAlways(run, labels, i);
    hide IsRun, LockInv, WireInv;
  }

  /** The connection never carries more than one request or response, and while it stands
      at most the last request is without a response. */
  lemma OneAtATime(run: seq<State>, labels: seq<Label>, i: nat)
    requires IsRun(run, labels) && i < |run|
    ensures |run[i].toHead| + |run[i].toClient| + (if run[i].handling.Some? then 1 else 0) <= 1
    ensures |run[i].served| <= |run[i].sent|
    ensures run[i].open ==> |run[i].sent| <= |run[i].served| + 1
  {
    InvAlways(run, labels, i);
    hide IsRun, PairInv, LockInv, Suits;
    AtMostOne(run[i]);
  }

  lemma AtMostOne(s: State)
    requires WireInv(s)
    ensures |s.toHead| + |s.toClient| + (if s.handling.Some? then 1 else 0) <= 1
    ensures |s.served| <= |s.sent|
    ensures s.open ==> |s.sent| <= |s.served| + 1
  {
    hide Suits;
  }
}
