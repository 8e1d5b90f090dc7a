/** A run in which a cancelled call leaves a record marked for ever, in a pool of one worker. */
module WorkerPoolStranding {
  import opened Wrappers
  import opened WorkerPool
  import opened WorkerPoolProofs
  import opened WorkerPoolSafety
  import opened WorkerPoolRetirement
  import opened WorkerPoolEviction

  const CFG := Config(1, 0, 0)

  /** A call for "a" launches its worker, and the session ends. */
  const LAUNCH: seq<Label> :=
    [Call(0, "a"), Lock(0), CheckCapacity(0), Decide(0), LaunchSucceeds(0), Insert(0), DropReservation(0), Return(0),
        Release("a")]

  /** A call for "b" finds the pool full and sweeps. */
  const SWEEP: seq<Label> := [Call(1, "b"), Lock(1), CheckCapacity(1), BeginSweep(1)]

  /** The sweep finds "a" idle and starts to stop it; then the call for "b" is cancelled. */
  const STOP: seq<Label> :=
    [TakeCandidates([Candidate("a", 0)]), ProbeCandidate(true, CanRetire), UpdateCandidate,
     ProbeCandidate(true, CanRetire), TakeUnreachable([]), MarkUnreachable, ReadClock,
     TakeIdle([IdleEntry("a", 0, 2)]), PlanEviction, MarkIdle, Cancel(1)]

  const IDLE := Record(0, 0, 0, 2, true, 0, false, [Leased], 0)
  const NEW := Record(0, 1, 0, 1, true, 0, false, [Leased], 0)
  const RESTED := Record(0, 0, 0, 2, false, 0, false, [Leased, Settled], 0)

  const MARKED := RESTED.(retiring := true)
  const QUIET := State(map["a" := IDLE], 0, 3, 0, 1, map[], map[], None, multiset{})
  const LOST := State(map["a" := MARKED], 0, 3, 0, 1, map[], map[], None, multiset{})

  function Sweeping(phase: Phase): Option<Sweep> {
    Some(Sweep(1, true, phase))
  }

  function Waiting(r: Record, pc: Pc, sweep: Option<Sweep>): State {
    State(map["a" := r], 0, 3, 0, 1, map["b" := 1], map[1 := Acquire("b", pc)], sweep, multiset{})
  }

  function Solo(workers: map<ProfileId, Record>, launching: nat, usage: nat, nextWorker: nat, pc: Pc,
      sessions: multiset<ProfileId>): State {
    State(workers, launching, usage, 0, nextWorker, map["a" := 0], map[0 := Acquire("a", pc)], None, sessions)
  }

  /** One step of the call for "a", which is alone in the pool. */
  lemma Moves<K, V>(k: K, a: V, b: V)
    ensures map[k := a][k := b] == map[k := b] && map[k := a] - {k} == map[] && |map[k := a]| == 1
  {
    assert map[k := a].Keys == {k};
    assert |map[k := a]| == |map[k := a].Keys|;
  }

  lemma LaunchCalls()
    ensures Steps(CFG, INITIAL, LAUNCH) == Steps(CFG, Solo(map[], 0, 1, 0, Checking, multiset{}), LAUNCH[2..])
  {
    hide SweepStep, Steps;
    Moves(0, Acquire("a", WantLock), Acquire("a", Checking));
    var called := INITIAL.(tasks := map[0 := Acquire("a", WantLock)]);
    assert LAUNCH == [Call(0, "a")] + LAUNCH[1..];
    StepThen(CFG, INITIAL, Call(0, "a"), called, LAUNCH[1..]);
    assert LAUNCH[1..] == [Lock(0)] + LAUNCH[2..];
    StepThen(CFG, called, Lock(0), Solo(map[], 0, 1, 0, Checking, multiset{}), LAUNCH[2..]);
  }

  lemma LaunchBegins()
    ensures Steps(CFG, Solo(map[], 0, 1, 0, Checking, multiset{}), LAUNCH[2..])
         == Steps(CFG, Solo(map[], 0, 1, 0, Deciding, multiset{}), LAUNCH[3..])
  {
    hide SweepStep, Steps;
    Moves(0, Acquire("a", Checking), Acquire("a", Deciding));
    assert LAUNCH[2..] == [CheckCapacity(0)] + LAUNCH[3..];
    StepThen(CFG, Solo(map[], 0, 1, 0, Checking, multiset{}), CheckCapacity(0),
        Solo(map[], 0, 1, 0, Deciding, multiset{}), LAUNCH[3..]);
  }

  lemma LaunchReserves()
    ensures Steps(CFG, Solo(map[], 0, 1, 0, Deciding, multiset{}), LAUNCH[3..])
         == Steps(CFG, Solo(map[], 1, 1, 0, Launching, multiset{}), LAUNCH[4..])
  {
    hide SweepStep, Steps;
    Moves(0, Acquire("a", Deciding), Acquire("a", Launching));
    assert LAUNCH[3..] == [Decide(0)] + LAUNCH[4..];
    StepThen(CFG, Solo(map[], 0, 1, 0, Deciding, multiset{}), Decide(0), Solo(map[], 1, 1, 0, Launching, multiset{}),
        LAUNCH[4..]);
  }

  lemma LaunchWorks()
    ensures Steps(CFG, Solo(map[], 1, 1, 0, Launching, multiset{}), LAUNCH[4..])
         == Steps(CFG, Solo(map[], 1, 1, 1, Launched(0), multiset{}), LAUNCH[5..])
  {
    hide SweepStep, Steps;
    Moves(0, Acquire("a", Launching), Acquire("a", Launched(0)));
    assert LAUNCH[4..] == [LaunchSucceeds(0)] + LAUNCH[5..];
    StepThen(CFG, Solo(map[], 1, 1, 0, Launching, multiset{}), LaunchSucceeds(0),
        Solo(map[], 1, 1, 1, Launched(0), multiset{}), LAUNCH[5..]);
  }

  lemma LaunchInserts()
    ensures Steps(CFG, Solo(map[], 1, 1, 1, Launched(0), multiset{}), LAUNCH[5..])
         == Steps(CFG, Solo(map["a" := NEW], 1, 2, 1, Inserted, multiset{"a"}), LAUNCH[6..])
  {
    hide SweepStep, Steps;
    Moves(0, Acquire("a", Launched(0)), Acquire("a", Inserted));
    var s := Solo(map[], 1, 1, 1, Launched(0), multiset{});
    assert s.workers["a" := NEW] == map["a" := NEW] && s.sessions + multiset{"a"} == multiset{"a"};
    assert LAUNCH[5..] == [Insert(0)] + LAUNCH[6..];
    StepThen(CFG, Solo(map[], 1, 1, 1, Launched(0), multiset{}), Insert(0),
        Solo(map["a" := NEW], 1, 2, 1, Inserted, multiset{"a"}), LAUNCH[6..]);
  }

  lemma LaunchSettles()
    ensures Steps(CFG, Solo(map["a" := NEW], 1, 2, 1, Inserted, multiset{"a"}), LAUNCH[6..])
         == Steps(CFG, Solo(map["a" := NEW], 0, 2, 1, Returning, multiset{"a"}), LAUNCH[7..])
  {
    hide SweepStep, Steps;
    Moves(0, Acquire("a", Inserted), Acquire("a", Returning));
    assert LAUNCH[6..] == [DropReservation(0)] + LAUNCH[7..];
    StepThen(CFG, Solo(map["a" := NEW], 1, 2, 1, Inserted, multiset{"a"}), DropReservation(0),
        Solo(map["a" := NEW], 0, 2, 1, Returning, multiset{"a"}), LAUNCH[7..]);
  }

  lemma LaunchReturns()
    ensures Steps(CFG, Solo(map["a" := NEW], 0, 2, 1, Returning, multiset{"a"}), LAUNCH[7..])
         == Steps(CFG, State(map["a" := NEW], 0, 2, 0, 1, map[], map[], None, multiset{"a"}), LAUNCH[8..])
  {
    hide SweepStep, Steps;
    Moves(0, Acquire("a", Returning), Acquire("a", Returning));
    assert (map p | p in map["a" := 0] && map["a" := 0][p] != 0 :: map["a" := 0][p]) == map[];
    assert LAUNCH[7..] == [Return(0)] + LAUNCH[8..];
    StepThen(CFG, Solo(map["a" := NEW], 0, 2, 1, Returning, multiset{"a"}), Return(0),
        State(map["a" := NEW], 0, 2, 0, 1, map[], map[], None, multiset{"a"}), LAUNCH[8..]);
  }

  lemma SessionEnds()
    ensures Steps(CFG, State(map["a" := NEW], 0, 2, 0, 1, map[], map[], None, multiset{"a"}), LAUNCH[8..])
         == Steps(CFG, QUIET, LAUNCH[9..])
  {
    hide SweepStep, Steps;
    Moves("a", NEW, IDLE);
    assert LAUNCH[8..] == [Release("a")] + LAUNCH[9..];
    StepThen(CFG, State(map["a" := NEW], 0, 2, 0, 1, map[], map[], None, multiset{"a"}), Release("a"), QUIET,
        LAUNCH[9..]);
  }

  lemma SweepCalls()
    ensures Steps(CFG, QUIET, SWEEP) == Steps(CFG, Waiting(IDLE, Checking, None), SWEEP[2..])
  {
    hide SweepStep, Steps;
    Moves(1, Acquire("b", WantLock), Acquire("b", Checking));
    assert SWEEP == [Call(1, "b")] + SWEEP[1..];
    StepThen(CFG, QUIET, Call(1, "b"), QUIET.(tasks := map[1 := Acquire("b", WantLock)]), SWEEP[1..]);
    assert SWEEP[1..] == [Lock(1)] + SWEEP[2..];
    StepThen(CFG, QUIET.(tasks := map[1 := Acquire("b", WantLock)]), Lock(1), Waiting(IDLE, Checking, None),
        SWEEP[2..]);
  }

  lemma SweepChecks()
    ensures Steps(CFG, Waiting(IDLE, Checking, None), SWEEP[2..]) ==
        Steps(CFG, Waiting(IDLE, WantSweep, None), SWEEP[3..])
  {
    hide SweepStep, Steps;
    Moves(1, Acquire("b", Checking), Acquire("b", WantSweep));
    Moves("a", IDLE, IDLE);
    assert SWEEP[2..] == [CheckCapacity(1)] + SWEEP[3..];
    StepThen(CFG, Waiting(IDLE, Checking, None), CheckCapacity(1), Waiting(IDLE, WantSweep, None), SWEEP[3..]);
  }

  lemma SweepBegins()
    ensures Steps(CFG, Waiting(IDLE, WantSweep, None), SWEEP[3..]) ==
        Steps(CFG, Waiting(IDLE, InSweep, Sweeping(Snapshot)), SWEEP[4..])
  {
    hide SweepStep, Steps;
    Moves(1, Acquire("b", WantSweep), Acquire("b", InSweep));
    assert SWEEP[3..] == [BeginSweep(1)] + SWEEP[4..];
    StepThen(CFG, Waiting(IDLE, WantSweep, None), BeginSweep(1), Waiting(IDLE, InSweep, Sweeping(Snapshot)),
        SWEEP[4..]);
  }

  lemma SweepLists()
    ensures Steps(CFG, Waiting(IDLE, InSweep, Sweeping(Snapshot)), STOP)
         == Steps(CFG, Waiting(IDLE, InSweep, Sweeping(Probe([Candidate("a", 0)]))), STOP[1..])
  {
    hide Next, Steps, At, Goto, Leave, Pending, ListsIdle;
    assert STOP == [TakeCandidates([Candidate("a", 0)])] + STOP[1..];
    SweepLabels(CFG, Waiting(IDLE, InSweep, Sweeping(Snapshot)), TakeCandidates([Candidate("a", 0)]));
    StepThen(CFG, Waiting(IDLE, InSweep, Sweeping(Snapshot)), TakeCandidates([Candidate("a", 0)]),
        Waiting(IDLE, InSweep, Sweeping(Probe([Candidate("a", 0)]))), STOP[1..]);
  }

  lemma SweepAsks()
    ensures Steps(CFG, Waiting(IDLE, InSweep, Sweeping(Probe([Candidate("a", 0)]))), STOP[1..])
         == Steps(CFG, Waiting(IDLE, InSweep, Sweeping(Update("a", CanRetire, []))), STOP[2..])
  {
    hide Next, Steps, At, Goto, Leave, Pending, Lists, ListsIdle;
    assert [Candidate("a", 0)][1..] == [];
    assert STOP[1..] == [ProbeCandidate(true, CanRetire)] + STOP[2..];
    SweepLabels(CFG, Waiting(IDLE, InSweep, Sweeping(Probe([Candidate("a", 0)]))), ProbeCandidate(true, CanRetire));
    StepThen(CFG, Waiting(IDLE, InSweep, Sweeping(Probe([Candidate("a", 0)]))), ProbeCandidate(true, CanRetire),
        Waiting(IDLE, InSweep, Sweeping(Update("a", CanRetire, []))), STOP[2..]);
  }

  lemma SweepNotes()
    ensures Steps(CFG, Waiting(IDLE, InSweep, Sweeping(Update("a", CanRetire, []))), STOP[2..])
         == Steps(CFG, Waiting(RESTED, InSweep, Sweeping(Probe([]))), STOP[3..])
  {
    hide Next, Steps, SweepStep;
    var s := Waiting(IDLE, InSweep, Sweeping(Update("a", CanRetire, [])));
    SweepLabels(CFG, s, UpdateCandidate);
    UpdateSteps(CFG, s, "a", CanRetire, []);
    Moves("a", IDLE, RESTED);
    assert [Leased] + [Settled] == [Leased, Settled];
    assert STOP[2..] == [UpdateCandidate] + STOP[3..];
    StepThen(CFG, s, UpdateCandidate, Waiting(RESTED, InSweep, Sweeping(Probe([]))), STOP[3..]);
  }

  lemma SweepMovesOn()
    ensures Steps(CFG, Waiting(RESTED, InSweep, Sweeping(Probe([]))), STOP[3..])
         == Steps(CFG, Waiting(RESTED, InSweep, Sweeping(FindUnreachable)), STOP[4..])
  {
    hide Next, Steps, At, Goto, Leave, Pending, Lists, ListsIdle;
    assert STOP[3..] == [ProbeCandidate(true, CanRetire)] + STOP[4..];
    SweepLabels(CFG, Waiting(RESTED, InSweep, Sweeping(Probe([]))), ProbeCandidate(true, CanRetire));
    StepThen(CFG, Waiting(RESTED, InSweep, Sweeping(Probe([]))), ProbeCandidate(true, CanRetire),
        Waiting(RESTED, InSweep, Sweeping(FindUnreachable)), STOP[4..]);
  }

  lemma SweepFindsNoneLost()
    ensures Steps(CFG, Waiting(RESTED, InSweep, Sweeping(FindUnreachable)), STOP[4..])
         == Steps(CFG, Waiting(RESTED, InSweep, Sweeping(Cull([]))), STOP[5..])
  {
    hide Next, Steps, At, Goto, Leave, Pending, ListsIdle;
    assert STOP[4..] == [TakeUnreachable([])] + STOP[5..];
    SweepLabels(CFG, Waiting(RESTED, InSweep, Sweeping(FindUnreachable)), TakeUnreachable([]));
    StepThen(CFG, Waiting(RESTED, InSweep, Sweeping(FindUnreachable)), TakeUnreachable([]),
        Waiting(RESTED, InSweep, Sweeping(Cull([]))), STOP[5..]);
  }

  lemma SweepCullsNone()
    ensures Steps(CFG, Waiting(RESTED, InSweep, Sweeping(Cull([]))), STOP[5..])
         == Steps(CFG, Waiting(RESTED, InSweep, Sweeping(FindIdle)), STOP[6..])
  {
    hide Next, Steps, At, Goto, Leave, Pending, Lists, ListsIdle;
    assert STOP[5..] == [MarkUnreachable] + STOP[6..];
    SweepLabels(CFG, Waiting(RESTED, InSweep, Sweeping(Cull([]))), MarkUnreachable);
    StepThen(CFG, Waiting(RESTED, InSweep, Sweeping(Cull([]))), MarkUnreachable,
        Waiting(RESTED, InSweep, Sweeping(FindIdle)), STOP[6..]);
  }

  lemma SweepReadsClock()
    ensures Steps(CFG, Waiting(RESTED, InSweep, Sweeping(FindIdle)), STOP[6..])
         == Steps(CFG, Waiting(RESTED, InSweep, Sweeping(Collect(0))), STOP[7..])
  {
    hide Next, Steps, At, Goto, Leave, Pending, Lists, ListsIdle;
    assert STOP[6..] == [ReadClock] + STOP[7..];
    SweepLabels(CFG, Waiting(RESTED, InSweep, Sweeping(FindIdle)), ReadClock);
    StepThen(CFG, Waiting(RESTED, InSweep, Sweeping(FindIdle)), ReadClock,
        Waiting(RESTED, InSweep, Sweeping(Collect(0))), STOP[7..]);
  }

  lemma SweepFindsIdle()
    ensures Steps(CFG, Waiting(RESTED, InSweep, Sweeping(Collect(0))), STOP[7..])
         == Steps(CFG, Waiting(RESTED, InSweep, Sweeping(Plan(0, [IdleEntry("a", 0, 2)]))), STOP[8..])
  {
    hide Next, Steps, At, Goto, Leave, Pending, Lists;
    assert STOP[7..] == [TakeIdle([IdleEntry("a", 0, 2)])] + STOP[8..];
    SweepLabels(CFG, Waiting(RESTED, InSweep, Sweeping(Collect(0))), TakeIdle([IdleEntry("a", 0, 2)]));
    StepThen(CFG, Waiting(RESTED, InSweep, Sweeping(Collect(0))), TakeIdle([IdleEntry("a", 0, 2)]),
        Waiting(RESTED, InSweep, Sweeping(Plan(0, [IdleEntry("a", 0, 2)]))), STOP[8..]);
  }

  lemma PlanSteps(cfg: Config, s: State, since: nat, idle: seq<IdleEntry>, count: nat)
    requires s.sweep.Some? && s.sweep.value == Sweep(s.sweep.value.owner, true, Plan(since, idle))
    requires count == |idle| - cfg.maxIdle >= 1
    ensures SweepStep(cfg, s, PlanEviction) == Some(SetPhase(s, Evict(since, idle, 0, count)))
  {
    hide Pending, Lists, ListsIdle, At;
  }

  lemma SweepPlans()
    ensures Steps(CFG, Waiting(RESTED, InSweep, Sweeping(Plan(0, [IdleEntry("a", 0, 2)]))), STOP[8..])
         == Steps(CFG, Waiting(RESTED, InSweep, Sweeping(Evict(0, [IdleEntry("a", 0, 2)], 0, 1))), STOP[9..])
  {
    hide Next, Steps, SweepStep;
    var s := Waiting(RESTED, InSweep, Sweeping(Plan(0, [IdleEntry("a", 0, 2)])));
    SweepLabels(CFG, s, PlanEviction);
    PlanSteps(CFG, s, 0, [IdleEntry("a", 0, 2)], 1);
    assert STOP[8..] == [PlanEviction] + STOP[9..];
    StepThen(CFG, s, PlanEviction, Waiting(RESTED, InSweep, Sweeping(Evict(0, [IdleEntry("a", 0, 2)], 0, 1))),
        STOP[9..]);
  }

  lemma SweepMarks()
    ensures Steps(CFG, Waiting(RESTED, InSweep, Sweeping(Evict(0, [IdleEntry("a", 0, 2)], 0, 1))), STOP[9..])
         == Steps(CFG, Waiting(MARKED, InSweep, Sweeping(EvictStop(0, "a", [], 0, 1))), STOP[10..])
  {
    hide Next, Steps, SweepStep;
    Moves("a", RESTED, MARKED);
    assert [IdleEntry("a", 0, 2)][1..] == [];
    assert STOP[9..] == [MarkIdle] + STOP[10..];
    var s := Waiting(RESTED, InSweep, Sweeping(Evict(0, [IdleEntry("a", 0, 2)], 0, 1)));
    MarkStep(CFG, s, 0, [IdleEntry("a", 0, 2)], 0, 1);
    StepThen(CFG, s, MarkIdle, Waiting(MARKED, InSweep, Sweeping(EvictStop(0, "a", [], 0, 1))), STOP[10..]);
  }

  lemma CallIsCancelled()
    ensures Steps(CFG, Waiting(MARKED, InSweep, Sweeping(EvictStop(0, "a", [], 0, 1))), STOP[10..])
         == Steps(CFG, LOST, STOP[11..])
  {
    hide SweepStep, Steps, Pending;
    Moves(1, Acquire("b", InSweep), Acquire("b", InSweep));
    assert (map p | p in map["b" := 1] && map["b" := 1][p] != 1 :: map["b" := 1][p]) == map[];
    assert STOP[10..] == [Cancel(1)] + STOP[11..];
    StepThen(CFG, Waiting(MARKED, InSweep, Sweeping(EvictStop(0, "a", [], 0, 1))), Cancel(1), LOST, STOP[11..]);
  }

  lemma AfterLaunch()
    ensures After(CFG, LAUNCH) == Some(QUIET)
  {
    hide Next, After, Steps, Solo;
    AfterNothing();
    LaunchCalls(); LaunchBegins(); LaunchReserves(); LaunchWorks(); LaunchInserts(); LaunchSettles(); LaunchReturns();
    SessionEnds();
    StepsNone(QUIET);
    AfterSteps(CFG, [], LAUNCH, INITIAL);
    assert [] + LAUNCH == LAUNCH && LAUNCH[9..] == [];
  }

  lemma AfterSweep()
    ensures After(CFG, LAUNCH + SWEEP) == Some(Waiting(IDLE, InSweep, Sweeping(Snapshot)))
  {
    hide Next, After, Steps, Waiting;
    AfterLaunch();
    SweepCalls(); SweepChecks(); SweepBegins();
    StepsNone(Waiting(IDLE, InSweep, Sweeping(Snapshot)));
    AfterSteps(CFG, LAUNCH, SWEEP, QUIET);
    assert SWEEP[4..] == [];
  }

  lemma Reached()
    ensures After(CFG, LAUNCH + SWEEP + STOP) == Some(LOST)
  {
    hide Next, After, Steps, Waiting, Sweeping;
    AfterSweep();
    SweepLists(); SweepAsks(); SweepNotes(); SweepMovesOn(); SweepFindsNoneLost(); SweepCullsNone();
    SweepReadsClock(); SweepFindsIdle(); SweepPlans(); SweepMarks(); CallIsCancelled();
    StepsNone(LOST);
    AfterSteps(CFG, LAUNCH + SWEEP, STOP, Waiting(IDLE, InSweep, Sweeping(Snapshot)));
    assert STOP[11..] == [];
  }

  lemma AfterNothing()
    ensures After(CFG, []) == Some(INITIAL)
  {
  }

  lemma StepsNone(s: State)
    ensures Steps(CFG, s, []) == Some(s)
  {
  }

  /** After the cancellation no run without a shutdown serves "a" again or frees the pool's only place. */
  lemma CancelledSweepLosesThePool(more: seq<Label>, next: State)
    requires Shutdown !in more && After(CFG, LAUNCH + SWEEP + STOP + more) == Some(next)
    ensures "a" in next.workers && next.workers["a"].retiring && |next.workers| == CFG.maxWorkers
  {
    hide After, Capacity, SweepOwns;
    Reached();
    StrandedForever(CFG, LAUNCH + SWEEP + STOP, more, LOST, next, "a");
    CapacityNeverExceeded(CFG, LAUNCH + SWEEP + STOP + more, next);
    assert {"a"} <= next.workers.Keys;
    assert next.workers.Keys == {"a"} + (next.workers.Keys - {"a"});
    assert |next.workers| == |next.workers.Keys|;
  }
}
