/**
  How much a node can lose: the bound of `Node.LossesAreBounded` is reached for every number
  of reports sent in vain, so there is no bound that does not count them.
 */
module NodeWitness {
  import opened Wrappers
  import Link
  import opened Node

  ghost predicate Reaches(s: State)
  {
    exists run, labels :: IsRun(run, labels) && run[|labels|] == s
  }

  lemma Then(s: State, l: Label)
    requires Reaches(s) && Enabled(s, l)
    ensures Reaches(Next(s, l))
  {
    var run, labels :| IsRun(run, labels) && run[|labels|] == s;
    hide Next, Enabled;
    assert IsRun(run + [Next(s, l)], labels + [l]);
  }

  predicate Quiet(k: Link.State)
  {
    k.toHead == [] && k.handling == None && k.toClient == []
  }

  /** The node holds nothing but `n` results, and nothing has gone wrong. */
  predicate Calm(s: State, n: nat)
  {
    && s.link.open && s.link.lock == None && Quiet(s.link)
    && Link.PhaseOf(s.link, POLLER).Idle? && Link.PhaseOf(s.link, REPORTER).Idle?
    && s.taskQueue == [] && s.running == multiset{} && |s.resultQueue| == n
    && !s.pollerStopped && !s.reporterStopped && s.lost == multiset{} && s.vain == 0
  }

  /** The same, while the head is handling a poll. */
  predicate Asked(s: State, n: nat)
  {
    && s.link.open && s.link.lock == Some(POLLER)
    && s.link.toHead == [] && s.link.handling == Some(Link.PollTask) && s.link.toClient == []
    && Link.PhaseOf(s.link, POLLER).Awaiting? && Link.PhaseOf(s.link, REPORTER).Idle?
    && s.taskQueue == [] && s.running == multiset{} && |s.resultQueue| == n
    && !s.pollerStopped && !s.reporterStopped && s.lost == multiset{} && s.vain == 0
  }

  /** The connection is gone, `n` results are left, `v` reports were sent in vain, and
      besides them one task is lost. */
  predicate Down(s: State, n: nat, v: nat)
  {
    && !s.link.open && s.link.lock == None && Quiet(s.link)
    && Link.PhaseOf(s.link, REPORTER).Idle? && !s.reporterStopped
    && |s.resultQueue| == n && |s.lost| == 1 + v && s.vain == v
  }

  lemma InitIsCalm()
    ensures Reaches(INIT) && Calm(INIT, 0)
  {
    assert IsRun([INIT], []);
  }

  lemma Ask(s: State, n: nat) returns (s': State)
    requires Reaches(s) && Calm(s, n)
    ensures Reaches(s') && Asked(s', n)
  {
    hide Reaches;
    Then(s, Poll);
    var s1 := Next(s, Poll);
    Then(s1, OnLink(Link.Acquire(POLLER)));
    var s2 := Next(s1, OnLink(Link.Acquire(POLLER)));
    Then(s2, OnLink(Link.Send(POLLER)));
    var s3 := Next(s2, OnLink(Link.Send(POLLER)));
    Then(s3, OnLink(Link.Take));
    s' := Next(s3, OnLink(Link.Take));
  }

  /** The head gives a task, and the poller queues it. */
  lemma Get(s: State, n: nat, t: nat) returns (s': State)
    requires Reaches(s) && Asked(s, n)
    ensures Reaches(s') && s'.taskQueue == [t] && Calm(s'.(taskQueue := []), n)
  {
    hide Reaches;
    Then(s, OnLink(Link.Respond(Link.Task(t))));
    var s1 := Next(s, OnLink(Link.Respond(Link.Task(t))));
    Then(s1, OnLink(Link.Receive(POLLER)));
    var s2 := Next(s1, OnLink(Link.Receive(POLLER)));
    Then(s2, OnLink(Link.Release(POLLER)));
    var s3 := Next(s2, OnLink(Link.Release(POLLER)));
    Then(s3, PollDone);
    s' := Next(s3, PollDone);
  }

  /** A worker executes it. */
  lemma Work(s: State, n: nat, t: nat) returns (s': State)
    requires Reaches(s) && s.taskQueue == [t] && Calm(s.(taskQueue := []), n)
    ensures Reaches(s') && Calm(s', n + 1)
  {
    hide Reaches;
    Then(s, WorkerTakes);
    var s1 := Next(s, WorkerTakes);
    assert s1.running == multiset{t} && s1.taskQueue == [];
    Then(s1, WorkerReports(t));
    s' := Next(s1, WorkerReports(t));
    assert s'.running == multiset{};
  }

  lemma {:induction false} Fetch(n: nat) returns (s: State)
    ensures Reaches(s) && Calm(s, n)
  {
    hide Reaches, Calm, Asked;
    if n == 0 {
      s := INIT;
      InitIsCalm();
    } else {
      s := Fetch(n - 1);
      s := Ask(s, n - 1);
      s := Get(s, n - 1, n);
      s := Work(s, n - 1, n);
    }
  }

  /** The connection breaks around a poll: the task popped for it is lost. */
  lemma BreakAroundPoll(s: State, n: nat, t: nat) returns (s': State)
    requires Reaches(s) && Asked(s, n)
    ensures Reaches(s') && Down(s', n, 0)
  {
    hide Reaches;
    Then(s, OnLink(Link.Drop));
    var s1 := Next(s, OnLink(Link.Drop));
    Then(s1, OnLink(Link.Respond(Link.Task(t))));
    var s2 := Next(s1, OnLink(Link.Respond(Link.Task(t))));
    assert s2.lost == multiset{t};
    Then(s2, OnLink(Link.ReceiveFails(POLLER, Link.NoAnswer)));
    var s3 := Next(s2, OnLink(Link.ReceiveFails(POLLER, Link.NoAnswer)));
    Then(s3, OnLink(Link.Release(POLLER)));
    s' := Next(s3, OnLink(Link.Release(POLLER)));
  }

  /** The reporter takes a result and the lock. */
  lemma TakeResult(s: State, n: nat, v: nat) returns (s': State)
    requires Reaches(s) && Down(s, n, v) && n > 0
    ensures Reaches(s') && REPORTER in s'.link.phases && s'.link.phases[REPORTER].Holding?
    ensures s'.link.phases[REPORTER].q.TaskResult? && s'.link.lock == Some(REPORTER)
    ensures !s'.link.open && Quiet(s'.link) && !s'.reporterStopped
    ensures |s'.resultQueue| == n - 1 && |s'.lost| == 1 + v && s'.vain == v
  {
    hide Reaches;
    Then(s, Report);
    var s1 := Next(s, Report);
    Then(s1, OnLink(Link.Acquire(REPORTER)));
    s' := Next(s1, OnLink(Link.Acquire(REPORTER)));
  }

  /** The send goes through, None comes back, and the loop goes on. */
  lemma ReportInVain(s: State, n: nat, v: nat) returns (s': State)
    requires Reaches(s) && Down(s, n, v) && n > 0
    ensures Reaches(s') && Down(s', n - 1, v + 1)
  {
    hide Reaches;
    var s1 := TakeResult(s, n, v);
    Then(s1, OnLink(Link.Send(REPORTER)));
    var s2 := Next(s1, OnLink(Link.Send(REPORTER)));
    Then(s2, OnLink(Link.ReceiveFails(REPORTER, Link.NoAnswer)));
    var s3 := Next(s2, OnLink(Link.ReceiveFails(REPORTER, Link.NoAnswer)));
    Then(s3, OnLink(Link.Release(REPORTER)));
    var s4 := Next(s3, OnLink(Link.Release(REPORTER)));
    Then(s4, ReportDone);
    s' := Next(s4, ReportDone);
  }

  lemma {:induction false} ReportAllInVain(s: State, n: nat, v: nat) returns (s': State)
    requires Reaches(s) && Down(s, n + 1, v)
    ensures Reaches(s') && Down(s', 1, v + n)
    decreases n
  {
    hide Reaches, Down;
    s' := s;
    if n > 0 {
      s' := ReportInVain(s, n + 1, v);
      s' := ReportAllInVain(s', n - 1, v + 1);
    }
  }

  /** For every `n` there is a run in which `n` reports are sent in vain and `n` plus two
      tasks are lost: the one popped around the break, the `n` reports, and the one whose
      send at last raises. */
  lemma LossesReachBound(n: nat) returns (s: State)
    ensures Reaches(s) && s.vain == n && |s.lost| == 2 + n
  {
    hide Reaches;
    s := Fetch(n + 1);
    s := Ask(s, n + 1);
    s := BreakAroundPoll(s, n + 1, 0);
    s := ReportAllInVain(s, n, 0);
    s := TakeResult(s, 1, n);
    Then(s, OnLink(Link.SendFails(REPORTER)));
    s := Next(s, OnLink(Link.SendFails(REPORTER)));
  }

  /** And a result that is too large to send is lost although the connection stands. */
  lemma RefusedReportIsLost() returns (s: State)
    ensures Reaches(s) && s.link.open && |s.lost| == 1
  {
    hide Reaches;
    var s0 := Fetch(1);
    Then(s0, Report);
    var s1 := Next(s0, Report);
    Then(s1, OnLink(Link.Acquire(REPORTER)));
    var s2 := Next(s1, OnLink(Link.Acquire(REPORTER)));
    Then(s2, OnLink(Link.Refuse(REPORTER)));
    s := Next(s2, OnLink(Link.Refuse(REPORTER)));
  }
}
