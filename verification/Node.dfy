/**
  A worker node: a poller that fetches tasks from the head, workers, and a reporter that
  returns results, poller and reporter sharing one connection that may be dropped.  None or a
  connection error ends the poller, any other exception makes it try again.  Any exception
  ends the reporter; None instead of an acknowledgement goes unnoticed.

  `given` and `returned` are what the head has given to this node and got back.  `lost` is
  what was under way when the connection was dropped, and what the reporter sent in vain,
  failed to send or was refused to send; `vain` counts the reports sent into a dropped
  connection without an error.
 */
module Node {
  import opened Wrappers
  import Link

  const POLLER: nat := 0
  const REPORTER: nat := 1

  datatype State = State(
    link: Link.State,
    taskQueue: seq<nat>,
    running: multiset<nat>,
    resultQueue: seq<nat>,
    pollerStopped: bool,
    reporterStopped: bool,
    given: multiset<nat>,
    returned: multiset<nat>,
    lost: multiset<nat>,
    vain: nat)

  const INIT := State(Link.INIT, [], multiset{}, [], false, false, multiset{}, multiset{}, multiset{}, 0)

  datatype Label =
    | Poll                      // ("poll_task",)
    | Report                    // takes the next result
    | OnLink(l: Link.Label)     // lock, send, the head, receive, unlock
    | PollDone
    | ReportDone
    | WorkerTakes
    | WorkerReports(t: nat)

  predicate Enabled(s: State, l: Label)
  {
    match l
    case Poll => !s.pollerStopped && Link.Enabled(s.link, Link.Start(POLLER, Link.PollTask))
    case Report =>
      && !s.reporterStopped && s.resultQueue != []
      && Link.Enabled(s.link, Link.Start(REPORTER, Link.TaskResult(s.resultQueue[0])))
    case OnLink(m) => !m.Start? && !m.Return? && Link.Enabled(s.link, m)
    case PollDone => Link.Enabled(s.link, Link.Return(POLLER))
    case ReportDone => Link.Enabled(s.link, Link.Return(REPORTER))
    case WorkerTakes => s.taskQueue != []
    case WorkerReports(t) => t in s.running
  }

  /** The task a step of the connection loses. */
  function LostBy(k: Link.State, m: Link.Label): multiset<nat>
    requires Link.Enabled(k, m)
  {
    match m
    case Respond(r) => if !k.open && r.Task? then multiset{r.t} else multiset{}
    case LoseRequest => if k.toHead[0].TaskResult? then multiset{k.toHead[0].t} else multiset{}
    case LoseResponse => if k.toClient[0].Task? then multiset{k.toClient[0].t} else multiset{}
    case Send(j) => if !k.open && k.phases[j].q.TaskResult? then multiset{k.phases[j].q.t} else multiset{}
    case SendFails(j) => if k.phases[j].q.TaskResult? then multiset{k.phases[j].q.t} else multiset{}
    case Refuse(j) => if k.phases[j].q.TaskResult? then multiset{k.phases[j].q.t} else multiset{}
    case _ => multiset{}
  }

  /** The step sends a report that will never arrive. */
  predicate InVain(k: Link.State, m: Link.Label)
    requires Link.Enabled(k, m)
  {
    m.Send? && !k.open && k.phases[m.k].q.TaskResult?
  }

  function Next(s: State, l: Label): State
    requires Enabled(s, l)
  {
    match l
    case Poll => s.(link := Link.Next(s.link, Link.Start(POLLER, Link.PollTask)))
    case Report =>
      s.(link := Link.Next(s.link, Link.Start(REPORTER, Link.TaskResult(s.resultQueue[0]))),
         resultQueue := s.resultQueue[1..])
    case OnLink(m) =>
      var s' := s.(link := Link.Next(s.link, m), lost := s.lost + LostBy(s.link, m),
                   vain := if InVain(s.link, m) then s.vain + 1 else s.vain);
      if !m.Respond? then s'
      else if m.r.Task? then s'.(given := s.given + multiset{m.r.t})
      else if s.link.handling.value.TaskResult? then s'.(returned := s.returned + multiset{s.link.handling.value.t})
      else s'
    case PollDone =>
      var p := s.link.phases[POLLER];
      var s' := s.(link := Link.Next(s.link, Link.Return(POLLER)));
      if p.Broken? then (if p.why.OtherError? then s' else s'.(pollerStopped := true))
      else if p.r.Task? then s'.(taskQueue := s.taskQueue + [p.r.t])
      else s'
    case ReportDone =>
      var p := s.link.phases[REPORTER];
      var s' := s.(link := Link.Next(s.link, Link.Return(REPORTER)));
      if p.Broken? && !p.why.NoAnswer? then s'.(reporterStopped := true) else s'
    case WorkerTakes => s.(taskQueue := s.taskQueue[1..], running := s.running + multiset{s.taskQueue[0]})
    case WorkerReports(t) => s.(running := s.running - multiset{t}, resultQueue := s.resultQueue + [t])
  }

  ghost predicate IsRun(run: seq<State>, labels: seq<Label>)
  {
    && |run| == |labels| + 1
    && run[0] == INIT
    && forall i :: 0 <= i < |labels| ==> Enabled(run[i], labels[i]) && run[i + 1] == Next(run[i], labels[i])
  }

  // ------------------------------------------------------- where a task can be

  function OfRequest(q: Link.Request, t: nat): nat
  {
    if q == Link.TaskResult(t) then 1 else 0
  }

  function OfResponse(r: Link.Response, t: nat): nat
  {
    if r == Link.Task(t) then 1 else 0
  }

  /** How often a thread has `t` in its hands. */
  function InHand(p: Link.Phase, t: nat): nat
  {
    match p
    case Wants(q) => OfRequest(q, t)
    case Holding(q) => OfRequest(q, t)
    case Received(_, _, r) => OfResponse(r, t)
    case Finished(_, _, r) => OfResponse(r, t)
    case _ => 0
  }

  function InHands(phases: map<nat, Link.Phase>, t: nat): nat
  {
    (if POLLER in phases then InHand(phases[POLLER], t) else 0)
    + (if REPORTER in phases then InHand(phases[REPORTER], t) else 0)
  }

  function Requests(qs: seq<Link.Request>, t: nat): nat
  {
    if qs == [] then 0 else OfRequest(qs[0], t) + Requests(qs[1..], t)
  }

  function Responses(rs: seq<Link.Response>, t: nat): nat
  {
    if rs == [] then 0 else OfResponse(rs[0], t) + Responses(rs[1..], t)
  }

  /** How often `t` is on the connection or in the hands of poller and reporter. */
  function OnTheWay(k: Link.State, t: nat): nat
  {
    InHands(k.phases, t) + Requests(k.toHead, t)
    + (if k.handling.Some? then OfRequest(k.handling.value, t) else 0) + Responses(k.toClient, t)
  }

  /** How often the node has `t`. */
  function Here(s: State, t: nat): nat
  {
    OnTheWay(s.link, t) + multiset(s.taskQueue)[t] + s.running[t] + multiset(s.resultQueue)[t]
  }

  predicate AsksFor(p: Link.Phase, poller: bool)
  {
    p.Idle? || (if poller then p.q.PollTask? else p.q.TaskResult?)
  }

  /** Poller and reporter are the only threads, and each asks for its own kind. */
  ghost predicate RoleInv(k: Link.State)
  {
    && k.phases.Keys <= {POLLER, REPORTER}
    && AsksFor(Link.PhaseOf(k, POLLER), true)
    && AsksFor(Link.PhaseOf(k, REPORTER), false)
  }

  ghost predicate Inv(s: State)
  {
    Link.Inv(s.link) && RoleInv(s.link) && forall t :: s.given[t] == s.returned[t] + Here(s, t) + s.lost[t]
  }

  lemma RoleStep(k: Link.State, m: Link.Label)
    requires RoleInv(k) && Link.Enabled(k, m)
    requires m.Start? ==> (m.k == POLLER && m.q.PollTask?) || (m.k == REPORTER && m.q.TaskResult?)
    ensures RoleInv(Link.Next(k, m))
  {
    hide Link.Suits;
  }

  /** What a step of the node does to the connection. */
  function LinkMove(s: State, l: Label): Option<Link.Label>
    requires Enabled(s, l)
  {
    match l
    case Poll => Some(Link.Start(POLLER, Link.PollTask))
    case Report => Some(Link.Start(REPORTER, Link.TaskResult(s.resultQueue[0])))
    case OnLink(m) => Some(m)
    case PollDone => Some(Link.Return(POLLER))
    case ReportDone => Some(Link.Return(REPORTER))
    case _ => None
  }

  lemma LinkMoves(s: State, l: Label)
    requires Enabled(s, l)
    ensures LinkMove(s, l).None? ==> Next(s, l).link == s.link
    ensures LinkMove(s, l).Some? ==>
      Link.Enabled(s.link, LinkMove(s, l).value) && Next(s, l).link == Link.Next(s.link, LinkMove(s, l).value)
  {
    hide Link.Next;
  }

  lemma LinkSteps(s: State, l: Label)
    requires Link.Inv(s.link) && RoleInv(s.link) && Enabled(s, l)
    ensures Link.Inv(Next(s, l).link) && RoleInv(Next(s, l).link)
  {
    hide Link.Inv, RoleInv, Next, Link.Next, Link.Enabled;
    LinkMoves(s, l);
    if LinkMove(s, l).Some? {
      Link.InvStep(s.link, LinkMove(s, l).value);
      RoleStep(s.link, LinkMove(s, l).value);
    }
  }

  lemma {:induction false} RequestsAppend(qs: seq<Link.Request>, q: Link.Request, t: nat)
    ensures Requests(qs + [q], t) == Requests(qs, t) + OfRequest(q, t)
  {
    if qs == [] {
      assert qs + [q] == [q];
    } else {
      assert (qs + [q])[1..] == qs[1..] + [q];
      RequestsAppend(qs[1..], q, t);
    }
  }

  lemma {:induction false} ResponsesAppend(rs: seq<Link.Response>, r: Link.Response, t: nat)
    ensures Responses(rs + [r], t) == Responses(rs, t) + OfResponse(r, t)
  {
    if rs == [] {
      assert rs + [r] == [r];
    } else {
      assert (rs + [r])[1..] == rs[1..] + [r];
      ResponsesAppend(rs[1..], r, t);
    }
  }

  lemma HandsChange(phases: map<nat, Link.Phase>, j: nat, p: Link.Phase, t: nat)
    requires j == POLLER || j == REPORTER
    ensures InHands(phases[j := p], t) ==
      InHands(phases, t) - (if j in phases then InHand(phases[j], t) else 0) + InHand(p, t)
  {
    hide InHand;
  }

  /** How often `t` is what a step of the connection loses. */
  function LostCount(k: Link.State, m: Link.Label, t: nat): nat
    requires Link.Enabled(k, m)
  {
    match m
    case Respond(r) => if k.open then 0 else OfResponse(r, t)
    case LoseRequest => OfRequest(k.toHead[0], t)
    case LoseResponse => OfResponse(k.toClient[0], t)
    case Send(j) => if k.open then 0 else OfRequest(k.phases[j].q, t)
    case SendFails(j) => OfRequest(k.phases[j].q, t)
    case Refuse(j) => OfRequest(k.phases[j].q, t)
    case _ => 0
  }

  lemma LostCounts(k: Link.State, m: Link.Label, t: nat)
    requires Link.Enabled(k, m)
    ensures LostBy(k, m)[t] == LostCount(k, m, t)
  {
  }

  /** What a step of the connection does to the tasks on it: the head's side. */
  lemma HeadSideStep(k: Link.State, m: Link.Label, t: nat)
    requires Link.Enabled(k, m) && HeadSide(m)
    ensures OnTheWay(Link.Next(k, m), t) + LostCount(k, m, t) ==
      OnTheWay(k, t) + if m.Respond? then OfResponse(m.r, t) - OfRequest(k.handling.value, t) else 0
  {
    hide Link.Suits, InHands, OfRequest, OfResponse;
    if m.Respond? {
      ResponsesAppend(k.toClient, m.r, t);
    }
  }

  /** A thread's own step. */
  lemma ThreadSideStep(k: Link.State, m: Link.Label, t: nat)
    requires RoleInv(k) && Link.Enabled(k, m) && !HeadSide(m) && !m.Start? && !m.Return?
    ensures OnTheWay(Link.Next(k, m), t) + LostCount(k, m, t) == OnTheWay(k, t)
  {
    hide Link.Suits, InHands, OfRequest, OfResponse;
    HandsChange(k.phases, m.k, Link.Next(k, m).phases[m.k], t);
    if m.Send? {
      RequestsAppend(k.toHead, k.phases[m.k].q, t);
    }
  }

  lemma OnTheWayStep(k: Link.State, m: Link.Label, t: nat)
    requires RoleInv(k) && Link.Enabled(k, m) && !m.Start? && !m.Return?
    ensures OnTheWay(Link.Next(k, m), t) + LostCount(k, m, t) ==
      OnTheWay(k, t) + if m.Respond? then OfResponse(m.r, t) - OfRequest(k.handling.value, t) else 0
  {
    hide RoleInv, Link.Next, OnTheWay, LostCount, OfRequest, OfResponse;
    if HeadSide(m) {
      HeadSideStep(k, m, t);
    } else {
      ThreadSideStep(k, m, t);
    }
    hide Link.Enabled;
  }

  lemma StartStep(k: Link.State, j: nat, q: Link.Request, t: nat)
    requires (j == POLLER || j == REPORTER) && Link.Enabled(k, Link.Start(j, q))
    ensures OnTheWay(Link.Next(k, Link.Start(j, q)), t) == OnTheWay(k, t) + OfRequest(q, t)
  {
    HandsChange(k.phases, j, Link.Wants(q), t);
    hide InHands, OfRequest;
  }

  lemma ReturnStep(k: Link.State, j: nat, t: nat)
    requires (j == POLLER || j == REPORTER) && Link.Enabled(k, Link.Return(j))
    ensures OnTheWay(Link.Next(k, Link.Return(j)), t) ==
      OnTheWay(k, t) - if k.phases[j].Finished? then OfResponse(k.phases[j].r, t) else 0
  {
    HandsChange(k.phases, j, Link.Idle, t);
    hide InHands, OfResponse;
  }

  /** The reporter's response is an acknowledgement. */
  lemma ReporterGetsAck(s: State)
    requires Link.Inv(s.link) && RoleInv(s.link) && Link.PhaseOf(s.link, REPORTER).Finished?
    ensures s.link.phases[REPORTER].r.Ack?
  {
    hide Link.LockInv, Link.WireInv;
    assert Link.Paired(s.link, REPORTER, s.link.phases[REPORTER]);
  }

  lemma LinkConserves(s: State, m: Link.Label, t: nat)
    requires Inv(s) && Enabled(s, OnLink(m))
    ensures var s' := Next(s, OnLink(m)); s'.given[t] == s'.returned[t] + Here(s', t) + s'.lost[t]
  {
    OnTheWayStep(s.link, m, t);
    LostCounts(s.link, m, t);
    assert m.Respond? && m.r.Task? ==> !s.link.handling.value.TaskResult?;
    assert m.Respond? && s.link.handling.value.TaskResult? ==> m.r.Ack?;
    hide Link.Inv, RoleInv, Link.Next, OnTheWay, Link.Enabled, LostBy, LostCount;
  }

  /** Taking the front of a queue. */
  lemma FrontCount(q: seq<nat>, t: nat)
    requires q != []
    ensures multiset(q)[t] == multiset(q[1..])[t] + if q[0] == t then 1 else 0
  {
    assert q == [q[0]] + q[1..];
  }

  lemma BackCount(q: seq<nat>, u: nat, t: nat)
    ensures multiset(q + [u])[t] == multiset(q)[t] + if u == t then 1 else 0
  {
  }

  lemma WhoReturns(k: Link.State, j: nat)
    requires Link.Enabled(k, Link.Return(j))
    ensures j in k.phases && (k.phases[j].Finished? || k.phases[j].Broken?)
  {
  }

  /** What the end of a poll does besides returning the thread. */
  lemma PollEffect(s: State, t: nat)
    requires Enabled(s, PollDone) && POLLER in s.link.phases
    requires s.link.phases[POLLER].Finished? || s.link.phases[POLLER].Broken?
    ensures var p, s' := s.link.phases[POLLER], Next(s, PollDone);
      && s'.link == Link.Next(s.link, Link.Return(POLLER))
      && s'.given == s.given && s'.returned == s.returned && s'.lost == s.lost
      && s'.running == s.running && s'.resultQueue == s.resultQueue
      && multiset(s'.taskQueue)[t] == multiset(s.taskQueue)[t] + if p.Finished? then OfResponse(p.r, t) else 0
  {
    hide Link.Next, Link.Enabled;
    var p := s.link.phases[POLLER];
    if p.Finished? && p.r.Task? {
      BackCount(s.taskQueue, p.r.t, t);
      assert Next(s, PollDone).taskQueue == s.taskQueue + [p.r.t];
    } else {
      assert Next(s, PollDone).taskQueue == s.taskQueue;
    }
  }

  lemma PollConserves(s: State, t: nat)
    requires Enabled(s, PollDone) && s.given[t] == s.returned[t] + Here(s, t) + s.lost[t]
    ensures Next(s, PollDone).given[t] ==
      Next(s, PollDone).returned[t] + Here(Next(s, PollDone), t) + Next(s, PollDone).lost[t]
  {
    hide Next, Link.Next, OnTheWay, OfResponse, Link.Enabled;
    WhoReturns(s.link, POLLER);
    PollEffect(s, t);
    ReturnStep(s.link, POLLER, t);
  }

  lemma ReportConserves(s: State, t: nat)
    requires Enabled(s, ReportDone) && s.given[t] == s.returned[t] + Here(s, t) + s.lost[t]
    requires s.link.phases[REPORTER].Finished? ==> s.link.phases[REPORTER].r.Ack?
    ensures Next(s, ReportDone).given[t] ==
      Next(s, ReportDone).returned[t] + Here(Next(s, ReportDone), t) + Next(s, ReportDone).lost[t]
  {
    hide Link.Next, OnTheWay;
    ReturnStep(s.link, REPORTER, t);
    hide Link.Enabled;
  }

  lemma ConservedStep(s: State, l: Label, t: nat)
    requires Inv(s) && Enabled(s, l)
    ensures Next(s, l).given[t] == Next(s, l).returned[t] + Here(Next(s, l), t) + Next(s, l).lost[t]
  {
    hide Link.Inv, RoleInv, Link.Next, OnTheWay;
    match l {
      case OnLink(m) => LinkConserves(s, m, t);
      case Poll => StartStep(s.link, POLLER, Link.PollTask, t);
      case Report =>
        FrontCount(s.resultQueue, t);
        StartStep(s.link, REPORTER, Link.TaskResult(s.resultQueue[0]), t);
      case WorkerTakes => FrontCount(s.taskQueue, t);
      case WorkerReports(u) => BackCount(s.resultQueue, u, t);
      case PollDone => PollConserves(s, t);
      case ReportDone =>
        if s.link.phases[REPORTER].Finished? {
          ReporterGetsAck(s);
        }
        ReportConserves(s, t);
    }
    hide Link.Enabled;
  }

  lemma InvStep(s: State, l: Label)
    requires Inv(s) && Enabled(s, l)
    ensures Inv(Next(s, l))
  {
    LinkSteps(s, l);
    forall t
      ensures Next(s, l).given[t] == Next(s, l).returned[t] + Here(Next(s, l), t) + Next(s, l).lost[t]
    {
      ConservedStep(s, l, t);
    }
    hide Link.Inv, RoleInv, Here, Next, Enabled;
  }

  lemma {:induction false} InvAlways(run: seq<State>, labels: seq<Label>, i: nat)
    requires IsRun(run, labels) && i < |run|
    ensures Inv(run[i])
    decreases i
  {
    if i > 0 {
      hide Inv, Next, Enabled;
      InvAlways(run, labels, i - 1);
      InvStep(run[i - 1], labels[i - 1]);
    }
  }

  /**
    A worker node neither loses nor duplicates a task by itself.  At every moment of every
    run, the tasks the head has given to it are those it has returned, those that are on
    the connection, with poller or reporter, queued or running, and those that were lost
    with the connection or in reporting, counted with multiplicity.
   */
  lemma NodeConservesTasks(run: seq<State>, labels: seq<Label>, i: nat)
    requires IsRun(run, labels) && i < |run|
    ensures forall t :: run[i].given[t] == run[i].returned[t] + Here(run[i], t) + run[i].lost[t]
  {
    InvAlways(run, labels, i);
    hide IsRun, Link.Inv, RoleInv, Here;
  }

  // ------------------------------------------------------- what can be lost

  /** The reporter may still take a result it cannot deliver. */
  predicate ReporterAlive(s: State)
  {
    var p := Link.PhaseOf(s.link, REPORTER);
    !s.reporterStopped && !((p.Cut? || p.Broken?) && !p.why.NoAnswer?)
  }

  function UnderWay(k: Link.State): nat
  {
    |k.toHead| + |k.toClient| + if k.handling.Some? then 1 else 0
  }

  function Alive(s: State): nat
  {
    if ReporterAlive(s) then 1 else 0
  }

  /** While the connection stands only a refused report is lost, and that ends the reporter;
      once it is dropped, what is under way and one failing report, besides those sent in
      vain. */
  ghost predicate RiskInv(s: State)
  {
    && (s.link.open ==> s.vain == 0 && |s.lost| + Alive(s) <= 1)
    && (!s.link.open ==> |s.lost| + UnderWay(s.link) + Alive(s) <= 2 + s.vain)
    && s.vain <= |s.lost|
    && (s.reporterStopped ==> Link.PhaseOf(s.link, REPORTER).Idle?)
  }

  predicate HeadSide(m: Link.Label)
  {
    m.Take? || m.Respond? || m.LoseRequest? || m.LoseResponse? || m.Drop?
  }

  lemma HeadSideRisk(k: Link.State, m: Link.Label)
    requires Link.Enabled(k, m) && HeadSide(m)
    ensures var k' := Link.Next(k, m);
      && k'.phases == k.phases && !InVain(k, m)
      && (k'.open ==> k.open && LostBy(k, m) == multiset{})
      && (!k'.open ==> |LostBy(k, m)| + UnderWay(k') <= UnderWay(k))
  {
    hide Link.Suits;
  }

  lemma ThreadSideRisk(k: Link.State, m: Link.Label)
    requires Link.Enabled(k, m) && !HeadSide(m)
    ensures Link.Next(k, m).open == k.open && (!k.open ==> UnderWay(Link.Next(k, m)) <= UnderWay(k))
    ensures |LostBy(k, m)| == if InVain(k, m) || Fails(k, m) then 1 else 0
    ensures InVain(k, m) ==> !k.open
  {
    hide Link.Suits;
  }

  /** The step is a report that ends in an exception before anything is sent. */
  predicate Fails(k: Link.State, m: Link.Label)
    requires Link.Enabled(k, m)
  {
    (m.SendFails? || m.Refuse?) && k.phases[m.k].q.TaskResult?
  }

  /** A reporter that has failed is not alive again. */
  lemma AliveFalls(s: State, m: Link.Label)
    requires RoleInv(s.link) && Enabled(s, OnLink(m)) && !HeadSide(m)
    requires s.reporterStopped ==> Link.PhaseOf(s.link, REPORTER).Idle?
    ensures ReporterAlive(Next(s, OnLink(m))) ==> ReporterAlive(s)
    ensures Fails(s.link, m) ==> ReporterAlive(s) && !ReporterAlive(Next(s, OnLink(m)))
  {
    hide Link.Suits, LostBy;
  }

  lemma StoppedIsIdle(s: State, m: Link.Label)
    requires RoleInv(s.link) && Enabled(s, OnLink(m)) && Link.PhaseOf(s.link, REPORTER).Idle?
    ensures Link.PhaseOf(Next(s, OnLink(m)).link, REPORTER).Idle?
  {
    hide Link.Suits, LostBy;
  }

  lemma LinkRisk(s: State, m: Link.Label)
    requires RoleInv(s.link) && RiskInv(s) && Enabled(s, OnLink(m))
    requires UnderWay(s.link) <= 1
    ensures RiskInv(Next(s, OnLink(m)))
  {
    hide RoleInv, Link.Enabled, Link.Next, UnderWay, LostBy, Fails, InVain;
    var s' := Next(s, OnLink(m));
    assert s'.link == Link.Next(s.link, m) && s'.reporterStopped == s.reporterStopped;
    assert |s'.lost| == |s.lost| + |LostBy(s.link, m)|;
    assert s'.vain == if InVain(s.link, m) then s.vain + 1 else s.vain;
    if s.reporterStopped {
      StoppedIsIdle(s, m);
    }
    if HeadSide(m) {
      HeadSideRisk(s.link, m);
      assert ReporterAlive(s') == ReporterAlive(s);
    } else {
      ThreadSideRisk(s.link, m);
      AliveFalls(s, m);
    }
    hide Next, ReporterAlive;
  }

  lemma StartOrReturnKeeps(k: Link.State, m: Link.Label)
    requires Link.Enabled(k, m) && (m.Start? || m.Return?)
    ensures Link.Next(k, m).open == k.open && UnderWay(Link.Next(k, m)) == UnderWay(k)
  {
    hide Link.Suits;
  }

  lemma OtherKeeps(s: State, l: Label)
    requires Enabled(s, l) && !l.OnLink?
    ensures var s' := Next(s, l);
      && s'.link.open == s.link.open && UnderWay(s'.link) == UnderWay(s.link)
      && s'.lost == s.lost && s'.vain == s.vain
  {
    hide Link.Next, Link.Enabled, UnderWay;
    LinkMoves(s, l);
    if LinkMove(s, l).Some? {
      StartOrReturnKeeps(s.link, LinkMove(s, l).value);
    }
  }

  lemma OtherAlive(s: State, l: Label)
    requires Enabled(s, l) && !l.OnLink? && (s.reporterStopped ==> Link.PhaseOf(s.link, REPORTER).Idle?)
    ensures var s' := Next(s, l);
      && (ReporterAlive(s') ==> ReporterAlive(s))
      && (s'.reporterStopped ==> Link.PhaseOf(s'.link, REPORTER).Idle?)
  {
    hide Link.Suits;
  }

  lemma OtherRisk(s: State, l: Label)
    requires RiskInv(s) && Enabled(s, l) && !l.OnLink?
    ensures RiskInv(Next(s, l))
  {
    hide Enabled, Next, UnderWay, ReporterAlive;
    OtherKeeps(s, l);
    OtherAlive(s, l);
  }

  lemma RiskStep(s: State, l: Label)
    requires Inv(s) && RiskInv(s) && Enabled(s, l)
    ensures RiskInv(Next(s, l))
  {
    hide Here, Next, RiskInv, Link.LockInv, Link.WireInv, Link.PairInv, RoleInv;
    if l.OnLink? {
      Link.AtMostOne(s.link);
      LinkRisk(s, l.l);
    } else {
      OtherRisk(s, l);
    }
  }

  lemma {:induction false} RiskAlways(run: seq<State>, labels: seq<Label>, i: nat)
    requires IsRun(run, labels) && i < |run|
    ensures RiskInv(run[i])
    decreases i
  {
    if i > 0 {
      hide Inv, RiskInv, Next, Enabled;
      RiskAlways(run, labels, i - 1);
      InvAlways(run, labels, i - 1);
      RiskStep(run[i - 1], labels[i - 1]);
    }
  }

  /**
    What can be lost.  Nothing while the connection stands and the reporter has not died;
    one refused report if it has.  Once the connection is dropped, the reports sent into it
    without an error, and besides them at most two tasks: the one under way and one the
    reporter failed to send.
   */
  lemma LossesAreBounded(run: seq<State>, labels: seq<Label>, i: nat)
    requires IsRun(run, labels) && i < |run|
    ensures run[i].link.open ==> |run[i].lost| <= 1 && run[i].vain == 0
    ensures run[i].link.open && ReporterAlive(run[i]) ==> run[i].lost == multiset{}
    ensures run[i].vain <= |run[i].lost| <= 2 + run[i].vain
  {
    RiskAlways(run, labels, i);
    hide IsRun;
  }

  /** The poller never gets an acknowledgement and the reporter never gets a task. */
  lemma NoMixUp(run: seq<State>, labels: seq<Label>, i: nat)
    requires IsRun(run, labels) && i < |run|
    ensures var p := Link.PhaseOf(run[i].link, POLLER); p.Finished? ==> p.r.Task? || p.r.NoTask?
    ensures var p := Link.PhaseOf(run[i].link, REPORTER); p.Finished? ==> p.r.Ack?
  {
    InvAlways(run, labels, i);
    hide IsRun, Here, Link.LockInv, Link.WireInv;
    var link := run[i].link;
    assert POLLER in link.phases ==> Link.Paired(link, POLLER, link.phases[POLLER]);
    assert REPORTER in link.phases ==> Link.Paired(link, REPORTER, link.phases[REPORTER]);
  }
}
