/** A run in which the pool counts no client for a worker that serves a session: a release names the profile only. */
module WorkerPoolOrphans {
  import opened Wrappers
  import opened WorkerPool
  import opened WorkerPoolProofs
  import opened WorkerPoolSafety
  import opened WorkerPoolService
  import opened WorkerPoolSessions

  /** The call finds the recorded worker dead, forgets it and looks again. */
  function Forget(t: TaskId): seq<Label> {
    [Decide(t), ProbeWorker(t, false), BuryWorker(t), CheckCapacity(t)]
  }

  function Forgotten(s: State, t: TaskId): State
    requires t in s.tasks && s.tasks[t].Acquire?
  {
    Goto(s.(workers := s.workers - {Profile(s, t)}), t, Deciding)
  }

  lemma OneLess(workers: map<ProfileId, Record>, p: ProfileId)
    requires p in workers
    ensures |workers - {p}| == |workers| - 1
  {
    assert (workers - {p}).Keys == workers.Keys - {p};
    assert |workers - {p}| == |(workers - {p}).Keys| && |workers| == |workers.Keys|;
  }

  lemma ForgetBegins(cfg: Config, s: State, t: TaskId)
    requires At(s, t, Deciding) && Profile(s, t) in s.workers && !s.workers[Profile(s, t)].retiring
    ensures Steps(cfg, s, [Decide(t), ProbeWorker(t, false)]) == Some(Goto(s, t, Burying))
  {
    hide SweepStep, Steps, Pending;
    var w := s.workers[Profile(s, t)].worker;
    GotoTwice(s, t, Probing(w), Burying);
    TwoSteps(cfg, s, Decide(t), Goto(s, t, Probing(w)), ProbeWorker(t, false), Goto(s, t, Burying));
  }

  lemma ForgetEnds(cfg: Config, s: State, t: TaskId)
    requires t in s.tasks && s.tasks[t].Acquire? && Profile(s, t) in s.workers && Pending(s) <= cfg.maxWorkers
    ensures Steps(cfg, Goto(s, t, Burying), [BuryWorker(t), CheckCapacity(t)]) == Some(Forgotten(s, t))
  {
    hide SweepStep, Steps;
    var p := Profile(s, t);
    OneLess(s.workers, p);
    var left := s.(workers := s.workers - {p});
    GotoTwice(left, t, Burying, Checking);
    GotoTwice(left, t, Checking, Deciding);
    TwoSteps(cfg, Goto(s, t, Burying), BuryWorker(t), Goto(left, t, Checking), CheckCapacity(t), Forgotten(s, t));
  }

  lemma ForgetSteps(cfg: Config, s: State, t: TaskId)
    requires At(s, t, Deciding) && Profile(s, t) in s.workers && !s.workers[Profile(s, t)].retiring
        && Pending(s) <= cfg.maxWorkers
    ensures Steps(cfg, s, Forget(t)) == Some(Forgotten(s, t))
  {
    hide Next, Steps, Forgotten, Pending;
    ForgetBegins(cfg, s, t);
    ForgetEnds(cfg, s, t);
    StepsConcat(cfg, s, [Decide(t), ProbeWorker(t, false)], Goto(s, t, Burying), [BuryWorker(t), CheckCapacity(t)]);
    assert Forget(t) == [Decide(t), ProbeWorker(t, false)] + [BuryWorker(t), CheckCapacity(t)];
  }

  /** From every reachable state, a call that finds the recorded worker dead replaces it: by a launch with
      a session for the call, and without the clients that the old record counted. */
  lemma DeadWorkerReplaced(cfg: Config, labels: seq<Label>, s: State, t: TaskId) returns (next: State)
    requires After(cfg, labels) == Some(s) && At(s, t, Deciding) && Profile(s, t) in s.workers
    requires !s.workers[Profile(s, t)].retiring && Pending(s) <= cfg.maxWorkers
    ensures After(cfg, labels + Forget(t) + Launch(t)) == Some(next) && At(next, t, Returning)
    ensures var p := Profile(s, t);
            && Profile(next, t) == p && p in next.workers && next.workers[p].clients == 1 && !next.workers[p].retiring
            && next.workers[p].worker == s.nextWorker && next.sessions == s.sessions + multiset{p}
  {
    hide After, Steps;
    var p := Profile(s, t);
    ForgetSteps(cfg, s, t);
    AfterSteps(cfg, labels, Forget(t), s);
    OneLess(s.workers, p);
    LaunchSteps(cfg, Forgotten(s, t), t);
    AfterSteps(cfg, labels + Forget(t), Launch(t), Forgotten(s, t));
    next := LaunchedState(Forgotten(s, t), t);
  }

  lemma ReleaseSteps(cfg: Config, s: State, p: ProfileId)
    requires p in s.sessions && p in s.workers
    ensures Next(cfg, s, Release(p)) == Some(s.(sessions := s.sessions - multiset{p}, usage := s.usage + 1,
                                                workers := s.workers[p := ReleasedRecord(s, s.workers[p])]))
  {
    hide SweepStep, ReleasedRecord;
  }

  /** The first release that follows, be it of a session on the dead worker, makes the new worker look
      unused, though the profile then has as many sessions as before. */
  lemma ReplacementMiscounted(cfg: Config, labels: seq<Label>, s: State, t: TaskId) returns (next: State)
    requires After(cfg, labels) == Some(s) && At(s, t, Deciding) && Profile(s, t) in s.workers
    requires !s.workers[Profile(s, t)].retiring && Pending(s) <= cfg.maxWorkers
    ensures After(cfg, labels + Forget(t) + Launch(t) + [Release(Profile(s, t))]) == Some(next)
    ensures var p := Profile(s, t);
            p in next.workers && IsCandidate(next.workers[p]) && next.workers[p].worker == s.nextWorker
            && next.sessions[p] == s.sessions[p]
  {
    var served := DeadWorkerReplaced(cfg, labels, s, t);
    var p := Profile(s, t);
    hide After, Next, Pending;
    Extend(cfg, labels + Forget(t) + Launch(t), Release(p));
    ReleaseSteps(cfg, served, p);
    next := Next(cfg, served, Release(p)).value;
  }

  /** In a pool of any size at least one there is a run after which the pool counts no client for a worker that serves a
      session. */
  lemma MiscountReachable(cfg: Config, p: ProfileId) returns (labels: seq<Label>, s: State)
    requires cfg.maxWorkers >= 1
    ensures After(cfg, labels) == Some(s) && p in s.workers && IsCandidate(s.workers[p]) && s.sessions[p] == 1
  {
    hide Steps, Whole, Enter, Launch, Forget;
    var first := CallServes(cfg, [], INITIAL, 0, p);
    labels := [] + Whole(INITIAL, 0, p);
    EnterStep(cfg, first, 1, p);
    AfterSteps(cfg, labels, Enter(1, p), first);
    labels := labels + Enter(1, p);
    var entered := Entered(first, 1, p, Deciding);
    assert first.workers.Keys == {p};
    assert |first.workers| == |first.workers.Keys| == 1;
    s := ReplacementMiscounted(cfg, labels, entered, 1);
    labels := labels + Forget(1) + Launch(1) + [Release(p)];
  }
}
