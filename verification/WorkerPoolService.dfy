/** What a call gets from the pool: how it reaches a session, and the only ways in which it ends without one. */
module WorkerPoolService {
  import opened Wrappers
  import opened WorkerPool
  import opened WorkerPoolProofs
  import opened WorkerPoolSafety

  // ----- the steps of one call -----

  /** The call's own steps from its start to the decision. */
  function Enter(t: TaskId, p: ProfileId): seq<Label> {
    [Call(t, p), Lock(t), CheckCapacity(t)]
  }

  function Reuse(t: TaskId): seq<Label> {
    [Decide(t), ProbeWorker(t, true), Lease(t)]
  }

  function Launch(t: TaskId): seq<Label> {
    [Decide(t), LaunchSucceeds(t), Insert(t), DropReservation(t)]
  }

  /** The call is at the given place, holding the lock of its profile. */
  function Entered(s: State, t: TaskId, p: ProfileId, pc: Pc): State {
    s.(tasks := s.tasks[t := Acquire(p, pc)], locks := s.locks[p := t])
  }

  lemma TwoSteps(cfg: Config, s: State, a: Label, m: State, b: Label, e: State)
    requires Next(cfg, s, a) == Some(m) && Next(cfg, m, b) == Some(e)
    ensures Steps(cfg, s, [a, b]) == Some(e)
  {
    hide Next;
    assert [a, b][1..] == [b] && [b][1..] == [];
    assert Steps(cfg, m, [b]) == Some(e);
  }

  lemma EnterStep(cfg: Config, s: State, t: TaskId, p: ProfileId)
    requires t !in s.tasks && p !in s.locks && (p in s.workers || Pending(s) < cfg.maxWorkers)
    ensures Steps(cfg, s, Enter(t, p)) == Some(Entered(s, t, p, Deciding))
  {
    hide SweepStep, Steps;
    var called := s.(tasks := s.tasks[t := Acquire(p, WantLock)]);
    var locked := Entered(s, t, p, Checking);
    assert called.tasks[t := Acquire(p, Checking)] == locked.tasks;
    TwoSteps(cfg, s, Call(t, p), called, Lock(t), locked);
    assert locked.tasks[t := Acquire(p, Deciding)] == Entered(s, t, p, Deciding).tasks;
    assert Next(cfg, locked, CheckCapacity(t)) == Some(Entered(s, t, p, Deciding));
    hide Next;
    StepThen(cfg, locked, CheckCapacity(t), Entered(s, t, p, Deciding), []);
    StepsConcat(cfg, s, [Call(t, p), Lock(t)], locked, [CheckCapacity(t)]);
    assert [CheckCapacity(t)] + [] == [CheckCapacity(t)];
    assert Enter(t, p) == [Call(t, p), Lock(t)] + [CheckCapacity(t)];
    NoSteps(cfg, Entered(s, t, p, Deciding));
  }

  lemma NoSteps(cfg: Config, s: State)
    ensures Steps(cfg, s, []) == Some(s)
  {
  }

  lemma GotoTwice(s: State, t: TaskId, a: Pc, b: Pc)
    requires t in s.tasks && s.tasks[t].Acquire?
    ensures Goto(Goto(s, t, a), t, b) == Goto(s, t, b)
  {
    var x := Goto(s, t, a);
    assert x.tasks[t := Acquire(s.tasks[t].profile, b)] == s.tasks[t := Acquire(s.tasks[t].profile, b)];
  }

  /** The state after a lease of the recorded worker. */
  function LeasedState(s: State, t: TaskId): State
    requires t in s.tasks && s.tasks[t].Acquire? && Profile(s, t) in s.workers
  {
    var p := Profile(s, t);
    Goto(s.(workers := s.workers[p := LeasedRecord(s, s.workers[p])], usage := s.usage + 1,
            sessions := s.sessions + multiset{p}), t, Returning)
  }

  lemma LeaseSteps(cfg: Config, s: State, t: TaskId, w: WorkerId)
    requires At(s, t, Leasing(w))
    requires Profile(s, t) in s.workers && !s.workers[Profile(s, t)].retiring && s.workers[Profile(s, t)].worker == w
    ensures Next(cfg, s, Lease(t)) == Some(LeasedState(s, t))
  {
    hide SweepStep, LeasedRecord;
  }

  lemma ReuseSteps(cfg: Config, s: State, t: TaskId)
    requires At(s, t, Deciding) && Profile(s, t) in s.workers && !s.workers[Profile(s, t)].retiring
    ensures Steps(cfg, s, Reuse(t)) == Some(LeasedState(s, t))
  {
    hide SweepStep, Steps, LeasedRecord, LeaseStep, Pending;
    var w := s.workers[Profile(s, t)].worker;
    var probing, leasing := Goto(s, t, Probing(w)), Goto(s, t, Leasing(w));
    GotoTwice(s, t, Probing(w), Leasing(w));
    TwoSteps(cfg, s, Decide(t), probing, ProbeWorker(t, true), leasing);
    LeaseSteps(cfg, leasing, t, w);
    hide Next;
    var mid := s.(workers := LeasedState(s, t).workers, usage := s.usage + 1, sessions := LeasedState(s, t).sessions);
    GotoTwice(mid, t, Leasing(w), Returning);
    SameLeasedRecord(s, leasing, s.workers[Profile(s, t)]);
    assert LeasedState(leasing, t) == Goto(Goto(mid, t, Leasing(w)), t, Returning);
    StepThen(cfg, leasing, Lease(t), LeasedState(s, t), []);
    NoSteps(cfg, LeasedState(s, t));
    StepsConcat(cfg, s, [Decide(t), ProbeWorker(t, true)], leasing, [Lease(t)]);
    assert [Lease(t)] + [] == [Lease(t)];
    assert Reuse(t) == [Decide(t), ProbeWorker(t, true)] + [Lease(t)];
  }

  /** The state after a launch. */
  function LaunchedState(s: State, t: TaskId): State
    requires t in s.tasks && s.tasks[t].Acquire?
  {
    var p := Profile(s, t);
    Goto(s.(workers := s.workers[p := NewRecord(s, s.nextWorker)], usage := s.usage + 1, nextWorker := s.nextWorker + 1,
            sessions := s.sessions + multiset{p}), t, Returning)
  }

  lemma LaunchSteps(cfg: Config, s: State, t: TaskId)
    requires At(s, t, Deciding) && Profile(s, t) !in s.workers && Pending(s) < cfg.maxWorkers
    ensures Steps(cfg, s, Launch(t)) == Some(LaunchedState(s, t))
  {
    hide Next, Steps, NewRecord, LaunchedState;
    var begun := Goto(s.(launching := s.launching + 1, nextWorker := s.nextWorker + 1), t, Launched(s.nextWorker));
    LaunchBegins(cfg, s, t);
    LaunchEnds(cfg, s, t, begun);
    StepsConcat(cfg, s, [Decide(t), LaunchSucceeds(t)], begun, [Insert(t), DropReservation(t)]);
    assert Launch(t) == [Decide(t), LaunchSucceeds(t)] + [Insert(t), DropReservation(t)];
  }

  lemma LaunchBegins(cfg: Config, s: State, t: TaskId)
    requires At(s, t, Deciding) && Profile(s, t) !in s.workers && Pending(s) < cfg.maxWorkers
    ensures Steps(cfg, s, [Decide(t), LaunchSucceeds(t)])
            == Some(Goto(s.(launching := s.launching + 1, nextWorker := s.nextWorker + 1), t, Launched(s.nextWorker)))
  {
    hide Next, Steps, Pending, Goto;
    var w := s.nextWorker;
    var reserved := s.(launching := s.launching + 1);
    var launching := Goto(reserved, t, Launching);
    DecideReserves(cfg, s, t);
    LaunchNumbers(cfg, reserved, t);
    TwoSteps(cfg, s, Decide(t), launching, LaunchSucceeds(t), Goto(reserved.(nextWorker := w + 1), t, Launched(w)));
  }

  lemma DecideReserves(cfg: Config, s: State, t: TaskId)
    requires At(s, t, Deciding) && Profile(s, t) !in s.workers && Pending(s) < cfg.maxWorkers
    ensures Next(cfg, s, Decide(t)) == Some(Goto(s.(launching := s.launching + 1), t, Launching))
  {
    hide SweepStep, Goto, Leave;
  }

  lemma LaunchNumbers(cfg: Config, s: State, t: TaskId)
    requires t in s.tasks && s.tasks[t].Acquire?
    ensures Next(cfg, Goto(s, t, Launching), LaunchSucceeds(t))
            == Some(Goto(s.(nextWorker := s.nextWorker + 1), t, Launched(s.nextWorker)))
  {
    hide SweepStep, DecideStep;
    GotoTwice(s.(nextWorker := s.nextWorker + 1), t, Launching, Launched(s.nextWorker));
  }

  lemma LaunchEnds(cfg: Config, s: State, t: TaskId, begun: State)
    requires t in s.tasks && s.tasks[t].Acquire?
    requires begun == Goto(s.(launching := s.launching + 1, nextWorker := s.nextWorker + 1), t, Launched(s.nextWorker))
    ensures Steps(cfg, begun, [Insert(t), DropReservation(t)]) == Some(LaunchedState(s, t))
  {
    hide SweepStep, Steps, NewRecord;
    var w, p := s.nextWorker, Profile(s, t);
    var recorded := s.(launching := s.launching + 1, nextWorker := w + 1, workers := s.workers[p := NewRecord(s, w)],
        usage := s.usage + 1, sessions := s.sessions + multiset{p});
    GotoTwice(recorded, t, Launched(w), Inserted);
    SameNewRecord(s, begun, w);
    GotoTwice(recorded.(launching := s.launching), t, Inserted, Returning);
    TwoSteps(cfg, begun, Insert(t), Goto(recorded, t, Inserted), DropReservation(t), LaunchedState(s, t));
  }

  lemma SameLeasedRecord(a: State, b: State, r: Record)
    requires a.usage == b.usage
    ensures LeasedRecord(a, r) == LeasedRecord(b, r)
  {
  }

  lemma SameNewRecord(a: State, b: State, w: WorkerId)
    requires a.now == b.now && a.usage == b.usage
    ensures NewRecord(a, w) == NewRecord(b, w)
  {
  }

  // ----- a call is served -----

  /** One more session for p, one more client on its record, and no other record changed. */
  predicate Served(s: State, next: State, p: ProfileId) {
    && next.sessions == s.sessions + multiset{p}
    && next.workers.Keys == s.workers.Keys + {p}
    && !next.workers[p].retiring
    && next.workers[p].clients == (if p in s.workers then s.workers[p].clients else 0) + 1
    && (p in s.workers ==> next.workers[p].worker == s.workers[p].worker)
    && (forall q :: q in s.workers && q != p ==> next.workers[q] == s.workers[q])
    && next.launching == s.launching
  }

  /** From every reachable state, a call that finds an unmarked record decides for it and, if the worker
      answers, ends up with a session on that worker. */
  lemma ReuseServes(cfg: Config, labels: seq<Label>, s: State, t: TaskId) returns (next: State)
    requires After(cfg, labels) == Some(s) && At(s, t, Deciding)
    requires Profile(s, t) in s.workers && !s.workers[Profile(s, t)].retiring
    ensures After(cfg, labels + Reuse(t)) == Some(next)
    ensures At(next, t, Returning) && Profile(next, t) == Profile(s, t) && Served(s, next, Profile(s, t))
  {
    hide After, Steps;
    ReuseSteps(cfg, s, t);
    AfterSteps(cfg, labels, Reuse(t), s);
    next := LeasedState(s, t);
  }

  /** From every reachable state, a call that finds no record and room for one reserves it and, if the
      launch works, ends up with a session on the new worker. */
  lemma LaunchServes(cfg: Config, labels: seq<Label>, s: State, t: TaskId) returns (next: State)
    requires After(cfg, labels) == Some(s) && At(s, t, Deciding)
    requires Profile(s, t) !in s.workers && Pending(s) < cfg.maxWorkers
    ensures After(cfg, labels + Launch(t)) == Some(next)
    ensures At(next, t, Returning) && Profile(next, t) == Profile(s, t) && Served(s, next, Profile(s, t))
  {
    hide After, Steps;
    LaunchSteps(cfg, s, t);
    AfterSteps(cfg, labels, Launch(t), s);
    next := LaunchedState(s, t);
  }

  /** The whole of a call that meets an answering worker or launches one. */
  function Whole(s: State, t: TaskId, p: ProfileId): seq<Label> {
    Enter(t, p) + (if p in s.workers then Reuse(t) else Launch(t)) + [Return(t)]
  }

  lemma ReturnSteps(cfg: Config, s: State, t: TaskId)
    requires At(s, t, Returning)
    ensures Steps(cfg, s, [Return(t)]) == Some(Leave(s, t))
  {
    assert Next(cfg, s, Return(t)) == Some(Leave(s, t)) by { hide SweepStep; }
    hide Next;
    assert [Return(t)][1..] == [];
  }

  /** From every reachable state, a new call for a free profile that is recorded unmarked, or unrecorded
      while there is room, can run to its end and leaves the pool with one more session of that profile
      and otherwise as it was. */
  lemma CallServes(cfg: Config, labels: seq<Label>, s: State, t: TaskId, p: ProfileId) returns (next: State)
    requires After(cfg, labels) == Some(s) && t !in s.tasks && p !in s.locks
    requires if p in s.workers then !s.workers[p].retiring else Pending(s) < cfg.maxWorkers
    ensures After(cfg, labels + Whole(s, t, p)) == Some(next)
    ensures Served(s, next, p) && next.tasks == s.tasks && p !in next.locks && next.sweep == s.sweep
        && next.now == s.now
  {
    hide After, Steps, Served, Pending;
    var entered := Entered(s, t, p, Deciding);
    EnterStep(cfg, s, t, p);
    AfterSteps(cfg, labels, Enter(t, p), s);
    SamePending(s, entered);
    var start := labels + Enter(t, p);
    var more := if p in s.workers then Reuse(t) else Launch(t);
    var served: State;
    if p in s.workers {
      served := ReuseServes(cfg, start, entered, t);
      ReuseSteps(cfg, entered, t);
    } else {
      served := LaunchServes(cfg, start, entered, t);
      LaunchSteps(cfg, entered, t);
    }
    AfterSteps(cfg, start, more, entered);
    ReturnSteps(cfg, served, t);
    AfterSteps(cfg, start + more, [Return(t)], served);
    next := Leave(served, t);
    assert labels + Whole(s, t, p) == start + more + [Return(t)];
    SameServed(s, entered, served, next, p);
    assert next.tasks == s.tasks;
  }

  lemma SamePending(a: State, b: State)
    requires a.workers == b.workers && a.launching == b.launching
    ensures Pending(a) == Pending(b)
  {
  }

  lemma SameServed(s: State, entered: State, served: State, next: State, p: ProfileId)
    requires Served(entered, served, p) && entered.workers == s.workers && entered.sessions == s.sessions
    requires entered.launching == s.launching && next.launching == served.launching
    requires next.workers == served.workers && next.sessions == served.sessions
    ensures Served(s, next, p)
  {
  }

  // ----- how a call ends -----

  /** A call ends only by returning its session, by a failed launch, by cancellation before it has a
      session, by a decision that finds its profile unrecorded and the pool full, or by its own sweep
      failing. */
  lemma CallEndsOnly(cfg: Config, s: State, l: Label, next: State, t: TaskId)
    requires Next(cfg, s, l) == Some(next) && t in s.tasks && s.tasks[t].Acquire? && t !in next.tasks
    ensures || (l == Return(t) && At(s, t, Returning))
            || (l == LaunchFails(t) && At(s, t, Launching))
            || (l == Cancel(t) && !At(s, t, Inserted) && !At(s, t, Returning))
            || (l == Decide(t) && At(s, t, Deciding) && Profile(s, t) !in s.workers && Pending(s) >= cfg.maxWorkers)
            || (l == EndSweep && At(s, t, InSweep) && s.sweep.Some? && s.sweep.value.owner == t
                && s.sweep.value.phase == Done(false))
  {
    hide Next, SweepStep, Pending;
    if IsSweepLabel(l) {
      SweepLabels(cfg, s, l);
      SweepEndsOnly(cfg, s, l, next, t);
    } else if l.Return? || l.LaunchFails? || l.Cancel? {
      LeavesOnly(cfg, s, l, next, t);
    } else if l.Decide? {
      DecideEndsOnly(cfg, s, l, next, t);
    } else if l.Lease? || l.Insert? {
      SessionGoesOn(cfg, s, l, next, t);
      assert false;
    } else {
      OthersGoOn(cfg, s, l, next, t);
      assert false;
    }
  }

  lemma LeavesOnly(cfg: Config, s: State, l: Label, next: State, t: TaskId)
    requires Next(cfg, s, l) == Some(next) && t in s.tasks && s.tasks[t].Acquire? && t !in next.tasks
    requires l.Return? || l.LaunchFails? || l.Cancel?
    ensures || (l == Return(t) && At(s, t, Returning))
            || (l == LaunchFails(t) && At(s, t, Launching))
            || (l == Cancel(t) && !At(s, t, Inserted) && !At(s, t, Returning))
  {
    hide SweepStep, DecideStep;
  }

  lemma DecideEndsOnly(cfg: Config, s: State, l: Label, next: State, t: TaskId)
    requires Next(cfg, s, l) == Some(next) && t in s.tasks && s.tasks[t].Acquire? && t !in next.tasks && l.Decide?
    ensures l == Decide(t) && At(s, t, Deciding) && Profile(s, t) !in s.workers && Pending(s) >= cfg.maxWorkers
  {
    hide SweepStep, Dropped, LeaseStep, InsertStep;
  }

  lemma SessionGoesOn(cfg: Config, s: State, l: Label, next: State, t: TaskId)
    requires Next(cfg, s, l) == Some(next) && t in s.tasks && (l.Lease? || l.Insert?)
    ensures t in next.tasks
  {
    hide SweepStep, LeasedRecord, NewRecord;
  }

  lemma OthersGoOn(cfg: Config, s: State, l: Label, next: State, t: TaskId)
    requires Next(cfg, s, l) == Some(next) && t in s.tasks && !IsSweepLabel(l) && !l.Lease? && !l.Insert?
    requires !l.Return? && !l.LaunchFails? && !l.Cancel? && !l.Decide?
    ensures t in next.tasks
  {
    hide SweepStep, LeaseStep, InsertStep, ReleasedRecord, DecideStep, Dropped, Leave;
  }

  lemma SweepEndsOnly(cfg: Config, s: State, l: Label, next: State, t: TaskId)
    requires s.sweep.Some? && SweepStep(cfg, s, l) == Some(next) && t in s.tasks && s.tasks[t].Acquire?
        && t !in next.tasks
    ensures l == EndSweep && At(s, t, InSweep) && s.sweep.value.owner == t && s.sweep.value.phase == Done(false)
  {
    hide Lists, ListsIdle, Pending, Observed;
  }
}
