/** What every interleaving of the worker pool keeps. */
module WorkerPoolProofs {
  import opened Wrappers
  import opened WorkerPool

  // ----- the invariant -----

  /** The call holds a launch reservation. */
  predicate Reserves(task: Task) {
    task.Acquire? && (task.pc.Launching? || task.pc.Launched? || task.pc.Inserted?)
  }

  /** The call holds a reservation for a worker that the pool does not record yet. */
  predicate Awaits(task: Task) {
    task.Acquire? && (task.pc.Launching? || task.pc.Launched?)
  }

  function Reserved(s: State): set<TaskId> {
    set t | t in s.tasks && Reserves(s.tasks[t])
  }

  function Awaited(s: State): set<TaskId> {
    set t | t in s.tasks && Awaits(s.tasks[t])
  }

  /** The number of failures at the end of a record's history. */
  function Streak(notes: seq<Note>): nat {
    if notes == [] || notes[|notes| - 1] != Unhealthy then 0 else 1 + Streak(notes[..|notes| - 1])
  }

  /** The last that is known of the worker is its own word that it may retire. */
  predicate SaysSettled(notes: seq<Note>) {
    notes != [] && notes[|notes| - 1] == Settled
  }

  predicate Capacity(cfg: Config, s: State) {
    && s.launching == |Reserved(s)|
    && |s.workers| + |Awaited(s)| <= cfg.maxWorkers
  }

  predicate LocksHeld(s: State) {
    forall t :: t in s.tasks && s.tasks[t].Acquire? && !s.tasks[t].pc.WantLock? ==>
      s.tasks[t].profile in s.locks && s.locks[s.tasks[t].profile] == t
  }

  predicate LaunchesAbsent(s: State) {
    forall t :: t in s.tasks && Awaits(s.tasks[t]) ==> s.tasks[t].profile !in s.workers
  }

  predicate RecordOk(now: nat, usage: nat, r: Record) {
    && (r.retiring ==> r.clients == 0)
    && r.lastIdle <= now
    && r.inUseUntil <= now
    && (r.clients == 0 && !r.busy ==> r.inUseUntil <= r.lastIdle)
    && r.lastUsed < usage
    && r.failures == Streak(r.notes)
    && (r.busy <==> !SaysSettled(r.notes))
  }

  predicate RecordsOk(now: nat, usage: nat, workers: map<ProfileId, Record>) {
    forall p :: p in workers ==> RecordOk(now, usage, workers[p])
  }

  predicate UsesDistinct(workers: map<ProfileId, Record>) {
    forall p, q :: p in workers && q in workers && p != q ==> workers[p].lastUsed != workers[q].lastUsed
  }

  predicate PhaseOk(now: nat, phase: Phase) {
    match phase
    case Collect(since) => since <= now
    case Plan(since, _) => since <= now
    case Evict(since, _, _, _) => since <= now
    case EvictStop(since, _, _, _, _) => since <= now
    case EvictBury(since, _, _, _, _) => since <= now
    case _ => true
  }

  /** The sweep's clock reading lies in the past. */
  predicate ClockOk(s: State) {
    s.sweep.Some? ==> PhaseOk(s.now, s.sweep.value.phase)
  }

  predicate Inv(cfg: Config, s: State) {
    && Capacity(cfg, s)
    && LocksHeld(s)
    && LaunchesAbsent(s)
    && RecordsOk(s.now, s.usage, s.workers)
    && UsesDistinct(s.workers)
    && ClockOk(s)
  }

  // ----- sweeping edits records and removes them, and touches no reservation -----

  /** Why a worker may be marked for retirement. */
  predicate MayRetire(cfg: Config, now: nat, r: Record) {
    && r.clients == 0
    && ((!r.busy && PastGrace(cfg, now, r.lastIdle)) || Streak(r.notes) >= ACTIVITY_FAILURE_LIMIT)
  }

  predicate SweepEdit(cfg: Config, s: State, r: Record, after: Record) {
    || after == r
    || after == r.(retiring := false)
    || (IsCandidate(r) && exists a :: after == Observed(s, r, a))
    || (MayRetire(cfg, s.now, r) && after == r.(retiring := true))
  }

  predicate SweepEdits(cfg: Config, s: State, workers: map<ProfileId, Record>) {
    forall p :: p in workers ==> p in s.workers && SweepEdit(cfg, s, s.workers[p], workers[p])
  }

  /** Every sweep step but the last: some records edited or removed, a new phase, all else alike. */
  predicate Swept(cfg: Config, s: State, next: State) {
    && SweepEdits(cfg, s, next.workers)
    && next == s.(workers := next.workers, sweep := next.sweep)
    && ClockOk(next)
  }

  lemma SetPhaseSwept(cfg: Config, s: State, workers: map<ProfileId, Record>, phase: Phase)
    requires s.sweep.Some? && SweepEdits(cfg, s, workers) && PhaseOk(s.now, phase)
    ensures Swept(cfg, s, SetPhase(s.(workers := workers), phase))
  {
  }

  lemma RemovalEdits(cfg: Config, s: State, p: ProfileId)
    ensures SweepEdits(cfg, s, s.workers) && SweepEdits(cfg, s, s.workers - {p})
  {
  }

  lemma EditEdits(cfg: Config, s: State, p: ProfileId, r: Record)
    requires p in s.workers && SweepEdit(cfg, s, s.workers[p], r)
    ensures SweepEdits(cfg, s, s.workers[p := r])
  {
  }

  lemma UpdateEdits(cfg: Config, s: State, p: ProfileId, a: Activity)
    ensures SweepEdits(cfg, s, UpdateStep(s, p, a).workers)
    ensures UpdateStep(s, p, a) == s.(workers := UpdateStep(s, p, a).workers)
  {
    RemovalEdits(cfg, s, p);
    if p in s.workers && IsCandidate(s.workers[p]) {
      assert SweepEdit(cfg, s, s.workers[p], Observed(s, s.workers[p], a));
      EditEdits(cfg, s, p, Observed(s, s.workers[p], a));
    }
  }

  lemma UnmarkEdits(cfg: Config, s: State, p: ProfileId)
    ensures SweepEdits(cfg, s, UnmarkStep(s, p).workers)
    ensures UnmarkStep(s, p) == s.(workers := UnmarkStep(s, p).workers)
  {
    RemovalEdits(cfg, s, p);
    if p in s.workers {
      EditEdits(cfg, s, p, s.workers[p].(retiring := false));
    }
  }

  lemma MarkEdits(cfg: Config, s: State, p: ProfileId)
    requires p in s.workers && MayRetire(cfg, s.now, s.workers[p])
    ensures SweepEdits(cfg, s, MarkRetiring(s, p).workers)
    ensures MarkRetiring(s, p) == s.(workers := MarkRetiring(s, p).workers)
  {
    EditEdits(cfg, s, p, s.workers[p].(retiring := true));
  }

  lemma CullMarks(cfg: Config, s: State, todo: seq<Candidate>, next: State)
    requires RecordsOk(s.now, s.usage, s.workers) && s.sweep.Some? && s.sweep.value.phase == Cull(todo)
    requires SweepStep(cfg, s, MarkUnreachable) == Some(next)
    ensures Swept(cfg, s, next)
  {
    hide Swept, SweepEdits, Streak, Lists, ListsIdle, Pending, At;
    RemovalEdits(cfg, s, "");
    SetPhaseSwept(cfg, s, s.workers, FindIdle);
    if todo != [] {
      var p := todo[0].profile;
      SetPhaseSwept(cfg, s, s.workers, Cull(todo[1..]));
      if p in s.workers && IsUnreachable(s.workers[p]) {
        assert RecordOk(s.now, s.usage, s.workers[p]);
        MarkEdits(cfg, s, p);
        SetPhaseSwept(cfg, s, MarkRetiring(s, p).workers, CullStop(p, todo[1..]));
      }
    }
  }

  lemma EvictMarks(cfg: Config, s: State, since: nat, idle: seq<IdleEntry>, evicted: nat, count: nat, next: State)
    requires s.sweep.Some? && s.sweep.value.phase == Evict(since, idle, evicted, count) && since <= s.now
    requires SweepStep(cfg, s, MarkIdle) == Some(next)
    ensures Swept(cfg, s, next)
  {
    hide Swept, SweepEdits, Streak, Lists, ListsIdle, Pending, At;
    RemovalEdits(cfg, s, "");
    SetPhaseSwept(cfg, s, s.workers, Done(true));
    if idle != [] {
      var p := idle[0].profile;
      SetPhaseSwept(cfg, s, s.workers, Evict(since, idle[1..], evicted, count));
      if p in s.workers && IsIdle(s.workers[p]) && PastGrace(cfg, since, s.workers[p].lastIdle) {
        MarkEdits(cfg, s, p);
        SetPhaseSwept(cfg, s, MarkRetiring(s, p).workers, EvictStop(since, p, idle[1..], evicted, count));
      }
    }
  }

  /** The steps that leave the records alone. */
  lemma PhaseOnly(cfg: Config, s: State, l: Label, next: State)
    requires s.sweep.Some? && ClockOk(s) && SweepStep(cfg, s, l) == Some(next)
    requires !l.EndSweep? && !l.MarkUnreachable? && !l.MarkIdle? && !l.UpdateCandidate? && !l.UnmarkFailed?
    requires !l.BuryCandidate? && !l.BuryUnreachable? && !l.BuryIdle?
    ensures Swept(cfg, s, next)
  {
    hide SweepEdits, Lists, ListsIdle, Pending, At;
    RemovalEdits(cfg, s, "");
    assert next.sweep.Some? && next == SetPhase(s, next.sweep.value.phase);
  }

  lemma BurySwept(cfg: Config, s: State, l: Label, next: State)
    requires s.sweep.Some? && ClockOk(s) && SweepStep(cfg, s, l) == Some(next)
    requires l.BuryCandidate? || l.BuryUnreachable? || l.BuryIdle?
    ensures Swept(cfg, s, next)
  {
    hide SweepEdits, Lists, ListsIdle, Pending, At;
    var p := s.sweep.value.phase.profile;
    RemovalEdits(cfg, s, p);
    assert next.sweep.Some? && next == SetPhase(s.(workers := s.workers - {p}), next.sweep.value.phase);
  }

  lemma EditSwept(cfg: Config, s: State, l: Label, next: State)
    requires s.sweep.Some? && ClockOk(s) && SweepStep(cfg, s, l) == Some(next)
    requires l.UpdateCandidate? || l.UnmarkFailed?
    ensures Swept(cfg, s, next)
  {
    hide SweepEdits, Lists, ListsIdle, Pending, At, UpdateStep, UnmarkStep;
    match (s.sweep.value.phase, l)
    case (Update(p, a, todo), UpdateCandidate) =>
      UpdateEdits(cfg, s, p, a);
      SetPhaseSwept(cfg, s, UpdateStep(s, p, a).workers, Probe(todo));
    case (Unmark(p), UnmarkFailed) =>
      UnmarkEdits(cfg, s, p);
      SetPhaseSwept(cfg, s, UnmarkStep(s, p).workers, Done(false));
    case _ =>
  }

  lemma SweepStepEdits(cfg: Config, s: State, l: Label, next: State)
    requires RecordsOk(s.now, s.usage, s.workers) && ClockOk(s) && s.sweep.Some? && SweepStep(cfg, s, l) == Some(next)
    ensures l.EndSweep? || Swept(cfg, s, next)
  {
    hide Swept, SweepEdits, Lists, ListsIdle, Pending, At, RecordsOk;
    match l
    case EndSweep =>
    case MarkUnreachable => CullMarks(cfg, s, s.sweep.value.phase.todo, next);
    case MarkIdle =>
      var e := s.sweep.value.phase;
      EvictMarks(cfg, s, e.since, e.idle, e.evicted, e.count, next);
    case UpdateCandidate => EditSwept(cfg, s, l, next);
    case UnmarkFailed => EditSwept(cfg, s, l, next);
    case BuryCandidate => BurySwept(cfg, s, l, next);
    case BuryUnreachable => BurySwept(cfg, s, l, next);
    case BuryIdle => BurySwept(cfg, s, l, next);
    case _ => PhaseOnly(cfg, s, l, next);
  }

  lemma {:induction false} ObservedOk(cfg: Config, s: State, r: Record, a: Activity)
    requires RecordOk(s.now, s.usage, r) && IsCandidate(r)
    ensures RecordOk(s.now, s.usage, Observed(s, r, a)) && Observed(s, r, a).lastUsed == r.lastUsed
  {
    var after := Observed(s, r, a);
    assert after.notes[..|after.notes| - 1] == r.notes;
  }

  lemma EditOk(cfg: Config, s: State, r: Record, after: Record)
    requires RecordOk(s.now, s.usage, r) && SweepEdit(cfg, s, r, after)
    ensures RecordOk(s.now, s.usage, after) && after.lastUsed == r.lastUsed
  {
    if IsCandidate(r) && exists a :: after == Observed(s, r, a) {
      var a :| after == Observed(s, r, a);
      ObservedOk(cfg, s, r, a);
    }
  }

  lemma FewerKeys<K, V>(less: map<K, V>, more: map<K, V>)
    requires less.Keys <= more.Keys
    ensures |less| <= |more|
  {
    assert |less| == |less.Keys| && |more| == |more.Keys|;
    var rest := more.Keys - less.Keys;
    assert more.Keys == less.Keys + rest;
  }

  lemma SweptKeeps(cfg: Config, s: State, next: State)
    requires Inv(cfg, s) && Swept(cfg, s, next)
    ensures Inv(cfg, next)
  {
    forall p | p in next.workers
      ensures p in s.workers && RecordOk(s.now, s.usage, next.workers[p])
          && next.workers[p].lastUsed == s.workers[p].lastUsed
    {
      EditOk(cfg, s, s.workers[p], next.workers[p]);
    }
    FewerKeys(next.workers, s.workers);
    assert Reserved(next) == Reserved(s) && Awaited(next) == Awaited(s);
  }

  // ----- what a step does to the calls -----

  /** Only call t may change, and it neither gains nor loses a reservation. */
  predicate SameReservations(s: State, next: State) {
    && Reserved(next) == Reserved(s)
    && Awaited(next) == Awaited(s)
  }

  lemma GotoReserves(s: State, t: TaskId, pc: Pc)
    requires t in s.tasks && s.tasks[t].Acquire?
    ensures Reserved(Goto(s, t, pc)) == if Reserves(Acquire(s.tasks[t].profile, pc)) then Reserved(s) + {t}
        else Reserved(s) - {t}
    ensures Awaited(Goto(s, t, pc)) == if Awaits(Acquire(s.tasks[t].profile, pc)) then Awaited(s) + {t}
        else Awaited(s) - {t}
  {
  }

  lemma LeaveReserves(s: State, t: TaskId)
    requires t in s.tasks
    ensures Reserved(Leave(s, t)) == Reserved(s) - {t} && Awaited(Leave(s, t)) == Awaited(s) - {t}
  {
  }

  /** Locks stay held when one call moves on, provided it holds its own. */
  lemma GotoLocks(s: State, t: TaskId, pc: Pc)
    requires LocksHeld(s) && t in s.tasks && s.tasks[t].Acquire? && !s.tasks[t].pc.WantLock?
    ensures LocksHeld(Goto(s, t, pc))
  {
  }

  lemma LeaveLocks(s: State, t: TaskId)
    requires LocksHeld(s) && t in s.tasks
    ensures LocksHeld(Leave(s, t))
  {
  }

  lemma GotoSame(s: State, t: TaskId, pc: Pc)
    requires t in s.tasks && s.tasks[t].Acquire?
    requires Reserves(s.tasks[t]) == Reserves(Acquire(s.tasks[t].profile, pc))
    requires Awaits(s.tasks[t]) == Awaits(Acquire(s.tasks[t].profile, pc))
    ensures SameReservations(s, Goto(s, t, pc))
  {
    GotoReserves(s, t, pc);
  }

  lemma GotoAbsent(s: State, t: TaskId, pc: Pc)
    requires LaunchesAbsent(s) && t in s.tasks && s.tasks[t].Acquire?
    requires Awaits(s.tasks[t]) == Awaits(Acquire(s.tasks[t].profile, pc))
    ensures LaunchesAbsent(Goto(s, t, pc))
  {
  }

  /** A call that is not about to launch moves on without touching workers or reservations. */
  lemma GotoKeeps(cfg: Config, s: State, t: TaskId, pc: Pc)
    requires Inv(cfg, s) && t in s.tasks && s.tasks[t].Acquire? && !s.tasks[t].pc.WantLock?
    requires Reserves(s.tasks[t]) == Reserves(Acquire(s.tasks[t].profile, pc))
    requires Awaits(s.tasks[t]) == Awaits(Acquire(s.tasks[t].profile, pc))
    ensures Inv(cfg, Goto(s, t, pc))
  {
    hide RecordsOk, UsesDistinct, PhaseOk, At, LocksHeld, LaunchesAbsent, Reserved, Awaited, Reserves, Awaits;
    GotoSame(s, t, pc);
    GotoLocks(s, t, pc);
    GotoAbsent(s, t, pc);
  }

  lemma LeaveKeeps(cfg: Config, s: State, t: TaskId)
    requires Inv(cfg, s) && t in s.tasks && !Reserves(s.tasks[t])
    ensures Inv(cfg, Leave(s, t))
  {
    LeaveReserves(s, t);
    LeaveLocks(s, t);
    assert SameReservations(s, Leave(s, t));
    assert ClockOk(Leave(s, t));
  }

  /** Dropping the frame of a call gives back its reservation, if it holds one. */
  lemma DroppedKeeps(cfg: Config, s: State, t: TaskId)
    requires Inv(cfg, s) && t in s.tasks && !At(s, t, Inserted)
    ensures Inv(cfg, Dropped(s, t))
  {
    LeaveReserves(s, t);
    LeaveLocks(s, t);
    var left, next := Leave(s, t), Dropped(s, t);
    assert Reserved(next) == Reserved(left) && Awaited(next) == Awaited(left);
    assert LocksHeld(next);
    assert Reserves(s.tasks[t]) == Awaits(s.tasks[t]) == (t in Reserved(s)) == (t in Awaited(s));
  }

  lemma DecideKeeps(cfg: Config, s: State, t: TaskId)
    requires Inv(cfg, s) && At(s, t, Deciding)
    ensures Inv(cfg, DecideStep(cfg, s, t))
  {
    var p := Profile(s, t);
    if p in s.workers {
      GotoKeeps(cfg, s, t, Sleeping);
      GotoKeeps(cfg, s, t, Probing(s.workers[p].worker));
    } else if Pending(s) < cfg.maxWorkers {
      ReserveKeeps(cfg, s, t);
    } else {
      LeaveKeeps(cfg, s, t);
    }
  }

  lemma AwaitedIsReserved(s: State)
    ensures Awaited(s) <= Reserved(s) && |Awaited(s)| <= |Reserved(s)|
  {
    var rest := Reserved(s) - Awaited(s);
    assert Reserved(s) == Awaited(s) + rest;
  }

  lemma ReserveKeeps(cfg: Config, s: State, t: TaskId)
    requires Inv(cfg, s) && At(s, t, Deciding) && Profile(s, t) !in s.workers && Pending(s) < cfg.maxWorkers
    ensures Inv(cfg, Goto(s.(launching := s.launching + 1), t, Launching))
  {
    var mid := s.(launching := s.launching + 1);
    var next := Goto(mid, t, Launching);
    assert Reserved(mid) == Reserved(s) && Awaited(mid) == Awaited(s);
    GotoReserves(mid, t, Launching);
    GotoLocks(mid, t, Launching);
    AwaitedIsReserved(s);
    assert t !in Reserved(s) && t !in Awaited(s);
    assert Capacity(cfg, next);
  }

  lemma LeaseKeeps(cfg: Config, s: State, t: TaskId)
    requires Inv(cfg, s) && t in s.tasks && s.tasks[t].Acquire? && s.tasks[t].pc.Leasing?
    ensures Inv(cfg, LeaseStep(s, t))
  {
    var p, w := Profile(s, t), s.tasks[t].pc.worker;
    if p !in s.workers || s.workers[p].retiring || s.workers[p].worker != w {
      GotoKeeps(cfg, s, t, Checking);
    } else {
      var mid := s.(workers := s.workers[p := LeasedRecord(s, s.workers[p])], usage := s.usage + 1,
          sessions := s.sessions + multiset{p});
      UseKeeps(cfg, s, p, LeasedRecord(s, s.workers[p]), mid);
      GotoKeeps(cfg, mid, t, Returning);
    }
  }

  /** One record is used: it takes the next usage number. */
  lemma UseKeeps(cfg: Config, s: State, p: ProfileId, r: Record, next: State)
    requires Inv(cfg, s) && p in s.workers && RecordOk(s.now, s.usage + 1, r) && r.lastUsed == s.usage
    requires next == s.(workers := s.workers[p := r], usage := s.usage + 1, sessions := next.sessions)
    ensures Inv(cfg, next)
  {
    assert SameReservations(s, next);
    assert next.workers.Keys == s.workers.Keys;
    FewerKeys(next.workers, s.workers);
    assert RecordsOk(next.now, next.usage, next.workers);
    assert UsesDistinct(next.workers) by {
      forall q | q in s.workers ensures s.workers[q].lastUsed < s.usage {
        assert RecordOk(s.now, s.usage, s.workers[q]);
      }
    }
  }

  lemma InsertKeeps(cfg: Config, s: State, t: TaskId)
    requires Inv(cfg, s) && t in s.tasks && s.tasks[t].Acquire? && s.tasks[t].pc.Launched?
    ensures Inv(cfg, InsertStep(s, t))
  {
    hide Capacity, LocksHeld, LaunchesAbsent, RecordsOk, UsesDistinct, PhaseOk, NewRecord;
    InsertCapacity(cfg, s, t);
    InsertRecords(s, Profile(s, t), s.tasks[t].pc.worker);
    InsertAbsent(s, t);
  }

  /** The reservation stays while its worker moves from awaited to recorded. */
  lemma InsertCapacity(cfg: Config, s: State, t: TaskId)
    requires Capacity(cfg, s) && LaunchesAbsent(s) && t in s.tasks && s.tasks[t].Acquire? && s.tasks[t].pc.Launched?
    ensures Capacity(cfg, InsertStep(s, t))
  {
    var p, next := Profile(s, t), InsertStep(s, t);
    var mid := s.(workers := next.workers, usage := s.usage + 1, sessions := next.sessions);
    assert t in Reserved(s) && t in Awaited(s);
    assert p !in s.workers;
    assert SameReservations(s, mid);
    GotoReserves(mid, t, Inserted);
    InsertCounts(s.workers, p, NewRecord(s, s.tasks[t].pc.worker));
    assert Reserved(s) + {t} == Reserved(s);
    hide Reserved, Awaited, LaunchesAbsent, NewRecord;
  }

  lemma InsertAbsent(s: State, t: TaskId)
    requires LocksHeld(s) && LaunchesAbsent(s) && t in s.tasks && s.tasks[t].Acquire? && s.tasks[t].pc.Launched?
    ensures LocksHeld(InsertStep(s, t)) && LaunchesAbsent(InsertStep(s, t))
  {
    hide NewRecord;
  }

  lemma InsertCounts(workers: map<ProfileId, Record>, p: ProfileId, r: Record)
    requires p !in workers
    ensures |workers[p := r]| == |workers| + 1
  {
    assert workers[p := r].Keys == workers.Keys + {p};
    assert |workers[p := r]| == |workers[p := r].Keys| && |workers| == |workers.Keys|;
  }

  lemma InsertRecords(s: State, p: ProfileId, w: WorkerId)
    requires RecordsOk(s.now, s.usage, s.workers) && UsesDistinct(s.workers)
    ensures RecordsOk(s.now, s.usage + 1, s.workers[p := NewRecord(s, w)])
        && UsesDistinct(s.workers[p := NewRecord(s, w)])
  {
    assert [Leased][0] == Leased;
    forall q | q in s.workers ensures s.workers[q].lastUsed < s.usage {
      assert RecordOk(s.now, s.usage, s.workers[q]);
    }
  }

  /** At most one launch is in flight for a profile. */
  lemma OneLaunch(cfg: Config, s: State)
    requires Inv(cfg, s)
    ensures forall t, u :: t in Reserved(s) && u in Reserved(s) && s.tasks[t].profile == s.tasks[u].profile ==> t == u
  {
  }

  lemma ReleaseKeeps(cfg: Config, s: State, p: ProfileId, next: State)
    requires Inv(cfg, s) && p in s.sessions
    requires next == if p in s.workers
                     then s.(workers := s.workers[p := ReleasedRecord(s, s.workers[p])], usage := s.usage + 1,
                         sessions := next.sessions)
                     else s.(sessions := next.sessions)
    ensures Inv(cfg, next)
  {
    if p in s.workers {
      assert RecordOk(s.now, s.usage, s.workers[p]);
      UseKeeps(cfg, s, p, ReleasedRecord(s, s.workers[p]), next);
    } else {
      assert SameReservations(s, next);
    }
  }

  lemma RemoveKeeps(cfg: Config, s: State, next: State)
    requires Inv(cfg, s) && next == s.(workers := next.workers)
    requires forall p :: p in next.workers ==> p in s.workers && next.workers[p] == s.workers[p]
    ensures Inv(cfg, next)
  {
    assert SweepEdits(cfg, s, next.workers);
    SweptKeeps(cfg, s, next);
  }

  lemma LockHolds(s: State, t: TaskId, next: State)
    requires LocksHeld(s) && LaunchesAbsent(s) && At(s, t, WantLock) && Profile(s, t) !in s.locks
    requires next == Goto(s.(locks := s.locks[Profile(s, t) := t]), t, Checking)
    ensures LocksHeld(next) && LaunchesAbsent(next)
  {
  }

  lemma LockKeeps(cfg: Config, s: State, t: TaskId, next: State)
    requires Inv(cfg, s) && At(s, t, WantLock) && Profile(s, t) !in s.locks
    requires next == Goto(s.(locks := s.locks[Profile(s, t) := t]), t, Checking)
    ensures Inv(cfg, next)
  {
    var mid := s.(locks := s.locks[Profile(s, t) := t]);
    LockHolds(s, t, next);
    assert SameReservations(s, mid);
    GotoSame(mid, t, Checking);
    hide LocksHeld, LaunchesAbsent, RecordsOk, UsesDistinct, PhaseOk, Reserved, Awaited, Reserves, Awaits, At;
  }

  lemma CallKeeps(cfg: Config, s: State, t: TaskId, task: Task, next: State)
    requires Inv(cfg, s) && t !in s.tasks && (task.Acquire? ==> task.pc == WantLock)
    requires next == s.(tasks := s.tasks[t := task], sweep := next.sweep) && ClockOk(next)
    ensures Inv(cfg, next)
  {
    assert SameReservations(s, next);
  }

  lemma DropSets(s: State, t: TaskId, next: State)
    requires At(s, t, Inserted) && next == Goto(s.(launching := next.launching), t, Returning)
    ensures t in Reserved(s) && Reserved(next) == Reserved(s) - {t} && Awaited(next) == Awaited(s)
  {
  }

  lemma DropCapacity(cfg: Config, s: State, t: TaskId, mid: State)
    requires Capacity(cfg, s) && At(s, t, Inserted) && s.launching > 0 && mid == s.(launching := s.launching - 1)
    ensures Capacity(cfg, Goto(mid, t, Returning))
  {
    hide Reserved, Awaited;
    DropSets(s, t, Goto(mid, t, Returning));
    assert |Reserved(s) - {t}| == |Reserved(s)| - 1;
  }

  lemma DropReservationKeeps(cfg: Config, s: State, t: TaskId, next: State)
    requires Inv(cfg, s) && At(s, t, Inserted) && s.launching > 0
    requires next == Goto(s.(launching := s.launching - 1), t, Returning)
    ensures Inv(cfg, next)
  {
    hide Capacity, RecordsOk, UsesDistinct, PhaseOk, Reserved, Awaited;
    var mid := s.(launching := s.launching - 1);
    DropCapacity(cfg, s, t, mid);
    GotoLocks(mid, t, Returning);
    DropAbsent(s, mid, t);
  }

  lemma DropAbsent(s: State, mid: State, t: TaskId)
    requires LaunchesAbsent(s) && At(s, t, Inserted) && mid == s.(launching := mid.launching)
    ensures LaunchesAbsent(Goto(mid, t, Returning))
  {
  }

  lemma CheckKeeps(cfg: Config, s: State, t: TaskId, next: State)
    requires Inv(cfg, s) && Next(cfg, s, CheckCapacity(t)) == Some(next)
    ensures Inv(cfg, next)
  {
    hide Inv, Pending, Goto;
    GotoKeeps(cfg, s, t, WantSweep);
    GotoKeeps(cfg, s, t, Deciding);
  }

  lemma SweepPhaseKeeps(cfg: Config, s: State, sweep: Option<Sweep>)
    requires Inv(cfg, s) && (sweep.Some? ==> PhaseOk(s.now, sweep.value.phase))
    ensures Inv(cfg, s.(sweep := sweep))
  {
    assert SameReservations(s, s.(sweep := sweep));
  }

  lemma BeginSweepKeeps(cfg: Config, s: State, t: TaskId, next: State)
    requires Inv(cfg, s) && Next(cfg, s, BeginSweep(t)) == Some(next)
    ensures Inv(cfg, next)
  {
    hide Inv, Goto;
    var begun := Some(Sweep(t, true, Snapshot));
    SweepPhaseKeeps(cfg, s, begun);
    GotoKeeps(cfg, s.(sweep := begun), t, InSweep);
  }

  lemma EndSweepKeeps(cfg: Config, s: State, next: State)
    requires Inv(cfg, s) && s.sweep.Some? && SweepStep(cfg, s, EndSweep) == Some(next)
    ensures Inv(cfg, next)
  {
    hide Inv, Goto, Leave;
    var owner, idle := s.sweep.value.owner, s.(sweep := None);
    SweepPhaseKeeps(cfg, s, None);
    if At(s, owner, InSweep) {
      GotoKeeps(cfg, idle, owner, Deciding);
      LeaveKeeps(cfg, idle, owner);
    } else if owner in s.tasks && s.tasks[owner].Sweeper? {
      LeaveKeeps(cfg, idle, owner);
    }
  }

  // ----- every step keeps the invariant -----

  lemma AcquireKeeps(cfg: Config, s: State, t: TaskId, l: Label, next: State)
    requires Inv(cfg, s) && Next(cfg, s, l) == Some(next)
    requires l == Wake(t) || l == Decide(t) || l == Lease(t) || l == Insert(t) || l == Return(t)
        || l == LaunchFails(t) || l == Cancel(t)
    ensures Inv(cfg, next)
  {
    hide Inv, Goto, Leave, Dropped, DecideStep, LeaseStep, InsertStep;
    match l
    case Wake(_) => GotoKeeps(cfg, s, t, Checking);
    case Decide(_) => DecideKeeps(cfg, s, t);
    case Lease(_) => LeaseKeeps(cfg, s, t);
    case Insert(_) => InsertKeeps(cfg, s, t);
    case Return(_) => LeaveKeeps(cfg, s, t);
    case _ => DroppedKeeps(cfg, s, t);
  }

  lemma BuryKeeps(cfg: Config, s: State, t: TaskId)
    requires Inv(cfg, s) && At(s, t, Burying)
    ensures Inv(cfg, Goto(s.(workers := s.workers - {Profile(s, t)}), t, Checking))
  {
    hide Inv, Goto;
    var buried := s.(workers := s.workers - {Profile(s, t)});
    RemoveKeeps(cfg, s, buried);
    GotoKeeps(cfg, buried, t, Checking);
  }

  lemma LaunchedKeeps(cfg: Config, s: State, t: TaskId)
    requires Inv(cfg, s) && At(s, t, Launching)
    ensures Inv(cfg, Goto(s.(nextWorker := s.nextWorker + 1), t, Launched(s.nextWorker)))
  {
    hide Inv, Goto;
    var numbered := s.(nextWorker := s.nextWorker + 1);
    NumberKeeps(cfg, s, numbered);
    GotoKeeps(cfg, numbered, t, Launched(s.nextWorker));
  }

  lemma ProbeKeeps(cfg: Config, s: State, t: TaskId, l: Label, next: State)
    requires Inv(cfg, s) && Next(cfg, s, l) == Some(next)
    requires l.ProbeWorker? || l.BuryWorker? || l.LaunchSucceeds?
    requires t == l.task
    ensures Inv(cfg, next)
  {
    hide Inv, Goto;
    match l
    case ProbeWorker(_, _) =>
      GotoKeeps(cfg, s, t, Leasing(s.tasks[t].pc.worker));
      GotoKeeps(cfg, s, t, Burying);
    case BuryWorker(_) => BuryKeeps(cfg, s, t);
    case LaunchSucceeds(_) => LaunchedKeeps(cfg, s, t);
  }

  lemma NumberKeeps(cfg: Config, s: State, next: State)
    requires Inv(cfg, s) && next == s.(nextWorker := s.nextWorker + 1)
    ensures Inv(cfg, next)
  {
    assert SameReservations(s, next);
  }

  lemma TickKeeps(cfg: Config, s: State)
    requires Inv(cfg, s)
    ensures Inv(cfg, s.(now := s.now + 1))
  {
    var next := s.(now := s.now + 1);
    assert SameReservations(s, next);
    forall p | p in s.workers ensures RecordOk(next.now, s.usage, s.workers[p]) {
      assert RecordOk(s.now, s.usage, s.workers[p]);
    }
  }

  lemma SweepKeeps(cfg: Config, s: State, l: Label, next: State)
    requires Inv(cfg, s) && s.sweep.Some? && SweepStep(cfg, s, l) == Some(next)
    ensures Inv(cfg, next)
  {
    hide SweepStep, Swept, Capacity, LocksHeld, LaunchesAbsent, RecordsOk, UsesDistinct, ClockOk;
    if l.EndSweep? {
      EndSweepKeeps(cfg, s, next);
    } else {
      SweepStepEdits(cfg, s, l, next);
      SweptKeeps(cfg, s, next);
    }
  }

  lemma CallerKeeps(cfg: Config, s: State, l: Label, next: State)
    requires Inv(cfg, s) && Next(cfg, s, l) == Some(next)
    requires l.Call? || l.StartBackgroundSweep? || l.Release? || l.Shutdown? || l.Tick?
    ensures Inv(cfg, next)
  {
    hide Capacity, LocksHeld, LaunchesAbsent, RecordsOk, UsesDistinct, ReleasedRecord;
    match l
    case Tick => TickKeeps(cfg, s);
    case Call(t, p) => CallKeeps(cfg, s, t, Acquire(p, WantLock), next);
    case StartBackgroundSweep(t) => CallKeeps(cfg, s, t, Sweeper, next);
    case Release(p) => ReleaseKeeps(cfg, s, p, next);
    case Shutdown => RemoveKeeps(cfg, s, next);
  }

  lemma LockStepKeeps(cfg: Config, s: State, l: Label, next: State)
    requires Inv(cfg, s) && Next(cfg, s, l) == Some(next)
    requires l.Lock? || l.DropReservation?
    ensures Inv(cfg, next)
  {
    hide Inv, Goto;
    match l
    case Lock(t) => LockKeeps(cfg, s, t, next);
    case DropReservation(t) => DropReservationKeeps(cfg, s, t, next);
  }

  predicate IsSweepLabel(l: Label) {
    || l.TakeCandidates? || l.ProbeCandidate? || l.BuryCandidate? || l.UpdateCandidate? || l.TakeUnreachable?
    || l.MarkUnreachable? || l.StopUnreachable? || l.BuryUnreachable? || l.ReadClock? || l.TakeIdle? || l.PlanEviction?
    || l.MarkIdle? || l.StopIdle? || l.BuryIdle? || l.UnmarkFailed? || l.EndSweep?
  }

  lemma SweepLabels(cfg: Config, s: State, l: Label)
    requires IsSweepLabel(l)
    ensures Next(cfg, s, l) == if s.sweep.Some? then SweepStep(cfg, s, l) else None
  {
    hide SweepStep;
  }

  lemma NextKeeps(cfg: Config, s: State, l: Label, next: State)
    requires Inv(cfg, s) && Next(cfg, s, l) == Some(next)
    ensures Inv(cfg, next)
  {
    hide Inv, Next, SweepStep;
    match l
    case CheckCapacity(t) => CheckKeeps(cfg, s, t, next);
    case BeginSweep(t) => BeginSweepKeeps(cfg, s, t, next);
    case ProbeWorker(t, _) => ProbeKeeps(cfg, s, t, l, next);
    case BuryWorker(t) => ProbeKeeps(cfg, s, t, l, next);
    case LaunchSucceeds(t) => ProbeKeeps(cfg, s, t, l, next);
    case Decide(t) => AcquireKeeps(cfg, s, t, l, next);
    case Wake(t) => AcquireKeeps(cfg, s, t, l, next);
    case Lease(t) => AcquireKeeps(cfg, s, t, l, next);
    case LaunchFails(t) => AcquireKeeps(cfg, s, t, l, next);
    case Insert(t) => AcquireKeeps(cfg, s, t, l, next);
    case Return(t) => AcquireKeeps(cfg, s, t, l, next);
    case Cancel(t) => AcquireKeeps(cfg, s, t, l, next);
    case Lock(t) => LockStepKeeps(cfg, s, l, next);
    case DropReservation(t) => LockStepKeeps(cfg, s, l, next);
    case _ =>
      if IsSweepLabel(l) {
        SweepLabels(cfg, s, l);
        SweepKeeps(cfg, s, l, next);
      } else {
        CallerKeeps(cfg, s, l, next);
      }
  }

  /** The invariant holds after every run, whatever the interleaving and whichever calls are cancelled. */
  lemma {:induction false} AlwaysInv(cfg: Config, labels: seq<Label>)
    ensures After(cfg, labels).Some? ==> Inv(cfg, After(cfg, labels).value)
    decreases |labels|
  {
    hide Next, Inv;
    if labels == [] {
      InitialInv(cfg);
    } else {
      var before := After(cfg, labels[..|labels| - 1]);
      AlwaysInv(cfg, labels[..|labels| - 1]);
      if before.Some? && After(cfg, labels).Some? {
        NextKeeps(cfg, before.value, labels[|labels| - 1], After(cfg, labels).value);
      }
    }
  }

  lemma InitialInv(cfg: Config)
    ensures Inv(cfg, INITIAL)
  {
    assert Reserved(INITIAL) == {} && Awaited(INITIAL) == {};
  }
}
