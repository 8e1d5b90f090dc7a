/** The pool's guarantees over every run: capacity, launches, use order and retirement. */
module WorkerPoolSafety {
  import opened Wrappers
  import opened WorkerPool
  import opened WorkerPoolProofs

  /** Recorded workers plus reserved launches never exceed the limit, and the counter counts the reservations. */
  lemma CapacityNeverExceeded(cfg: Config, labels: seq<Label>, s: State)
    requires After(cfg, labels) == Some(s)
    ensures s.launching == |Reserved(s)|
    ensures |s.workers| + |Awaited(s)| <= cfg.maxWorkers
  {
    AlwaysInv(cfg, labels);
  }

  /** At most one launch per profile is in flight, and never for a recorded profile. */
  lemma OneLaunchPerProfile(cfg: Config, labels: seq<Label>, s: State)
    requires After(cfg, labels) == Some(s)
    ensures forall t, u :: t in Reserved(s) && u in Reserved(s) && s.tasks[t].profile == s.tasks[u].profile ==> t == u
    ensures forall t :: t in Awaited(s) ==> s.tasks[t].profile !in s.workers
  {
    AlwaysInv(cfg, labels);
    OneLaunch(cfg, s);
  }

  /** An insert adds one record and replaces none. */
  lemma InsertNeverOverwrites(cfg: Config, labels: seq<Label>, t: TaskId, s: State, next: State)
    requires After(cfg, labels) == Some(s) && After(cfg, labels + [Insert(t)]) == Some(next)
    ensures t in s.tasks && s.tasks[t].Acquire? && s.tasks[t].profile !in s.workers
    ensures next.workers.Keys == s.workers.Keys + {s.tasks[t].profile}
    ensures forall p :: p in s.workers ==> next.workers[p] == s.workers[p]
  {
    hide SweepStep;
    AlwaysInv(cfg, labels);
    Extend(cfg, labels, Insert(t));
    assert next == InsertStep(s, t);
  }

  lemma Extend(cfg: Config, labels: seq<Label>, l: Label)
    ensures After(cfg, labels + [l]) ==
            if After(cfg, labels).Some? then Next(cfg, After(cfg, labels).value, l) else None
  {
    hide Next;
    var more := labels + [l];
    assert more[..|more| - 1] == labels;
  }

  /** The steps in turn, from a given state. */
  function Steps(cfg: Config, s: State, labels: seq<Label>): Option<State>
    decreases |labels|
  {
    if labels == [] then Some(s)
    else match Next(cfg, s, labels[0])
      case Some(next) => Steps(cfg, next, labels[1..])
      case None => None
  }

  lemma {:induction false} AfterSteps(cfg: Config, labels: seq<Label>, more: seq<Label>, s: State)
    requires After(cfg, labels) == Some(s)
    ensures After(cfg, labels + more) == Steps(cfg, s, more)
    decreases |more|
  {
    hide Next;
    if more == [] {
      assert labels + more == labels;
    } else {
      Extend(cfg, labels, more[0]);
      assert labels + more == labels + [more[0]] + more[1..];
      match Next(cfg, s, more[0])
      case Some(next) => AfterSteps(cfg, labels + [more[0]], more[1..], next);
      case None => NoneStays(cfg, labels + [more[0]], more[1..]);
    }
  }

  lemma {:induction false} NoneStays(cfg: Config, labels: seq<Label>, more: seq<Label>)
    requires After(cfg, labels) == None
    ensures After(cfg, labels + more) == None
    decreases |more|
  {
    hide Next;
    if more == [] {
      assert labels + more == labels;
    } else {
      Extend(cfg, labels, more[0]);
      assert labels + more == labels + [more[0]] + more[1..];
      NoneStays(cfg, labels + [more[0]], more[1..]);
    }
  }

  lemma StepThen(cfg: Config, s: State, l: Label, next: State, rest: seq<Label>)
    requires Next(cfg, s, l) == Some(next)
    ensures Steps(cfg, s, [l] + rest) == Steps(cfg, next, rest)
  {
    hide Next;
  }

  lemma {:induction false} StepsConcat(cfg: Config, s: State, a: seq<Label>, m: State, b: seq<Label>)
    requires Steps(cfg, s, a) == Some(m)
    ensures Steps(cfg, s, a + b) == Steps(cfg, m, b)
    decreases |a|
  {
    hide Next;
    if a == [] {
      assert a + b == b;
    } else {
      assert (a + b)[1..] == a[1..] + b;
      StepsConcat(cfg, Next(cfg, s, a[0]).value, a[1..], m, b);
    }
  }

  /** No two records were used at the same instant, so least recently used is well defined. */
  lemma UsesNeverTie(cfg: Config, labels: seq<Label>, s: State, p: ProfileId, q: ProfileId)
    requires After(cfg, labels) == Some(s) && p in s.workers && q in s.workers && p != q
    ensures s.workers[p].lastUsed != s.workers[q].lastUsed
  {
    AlwaysInv(cfg, labels);
  }

  // ----- what one step can do to the records -----

  predicate Evolves(cfg: Config, s: State, r: Record, after: Record) {
    || SweepEdit(cfg, s, r, after)
    || after == ReleasedRecord(s, r)
    || (!r.retiring && after == LeasedRecord(s, r))
  }

  predicate StepOnRecords(cfg: Config, s: State, next: State) {
    forall p :: p in next.workers ==>
      if p in s.workers then Evolves(cfg, s, s.workers[p], next.workers[p])
      else next.workers[p] == NewRecord(s, next.workers[p].worker)
  }

  lemma AcquireRecords(cfg: Config, s: State, l: Label, next: State)
    requires Next(cfg, s, l) == Some(next) && !IsSweepLabel(l)
    requires !l.Lease? && !l.Insert? && !l.Release? && !l.Shutdown? && !l.BuryWorker?
    ensures next.workers == s.workers
  {
    hide SweepStep, Pending;
  }

  lemma InsertRecorded(cfg: Config, s: State, t: TaskId)
    requires LaunchesAbsent(s) && t in s.tasks && s.tasks[t].Acquire? && s.tasks[t].pc.Launched?
    ensures StepOnRecords(cfg, s, InsertStep(s, t))
  {
    hide NewRecord, MayRetire, Observed, LeasedRecord, ReleasedRecord;
    assert Profile(s, t) !in s.workers;
    InsertedWorker(s, s.tasks[t].pc.worker);
  }

  lemma SharedRecords(cfg: Config, s: State, l: Label, next: State)
    requires LaunchesAbsent(s) && Next(cfg, s, l) == Some(next)
    requires l.Lease? || l.Insert? || l.Release? || l.Shutdown? || l.BuryWorker?
    ensures StepOnRecords(cfg, s, next)
  {
    hide SweepStep, Pending, LeasedRecord, ReleasedRecord, NewRecord, MayRetire, Observed, InsertStep;
    match l
    case Insert(t) => InsertRecorded(cfg, s, t);
    case _ =>
  }

  lemma InsertedWorker(s: State, w: WorkerId)
    ensures NewRecord(s, w).worker == w
  {
  }

  lemma NextRecords(cfg: Config, s: State, l: Label, next: State)
    requires Inv(cfg, s) && Next(cfg, s, l) == Some(next)
    ensures StepOnRecords(cfg, s, next)
  {
    hide Next, SweepStep, MayRetire, Observed, ReleasedRecord, LeasedRecord, NewRecord;
    if IsSweepLabel(l) {
      SweepLabels(cfg, s, l);
      if l.EndSweep? {
        EndSweepRecords(cfg, s, next);
      } else {
        SweepStepEdits(cfg, s, l, next);
      }
    } else if l.Lease? || l.Insert? || l.Release? || l.Shutdown? || l.BuryWorker? {
      SharedRecords(cfg, s, l, next);
    } else {
      AcquireRecords(cfg, s, l, next);
    }
  }

  lemma EndSweepRecords(cfg: Config, s: State, next: State)
    requires s.sweep.Some? && SweepStep(cfg, s, EndSweep) == Some(next)
    ensures next.workers == s.workers
  {
    hide Pending, Lists, ListsIdle;
  }

  /** Why a record may be marked: it has no client, and its worker has said last that it may retire and
      has neither had a client nor been known busy for the whole grace period, or its history ends in
      three failures. */
  predicate RetireReason(cfg: Config, now: nat, r: Record) {
    && r.clients == 0
    && ((SaysSettled(r.notes) && PastGrace(cfg, now, r.inUseUntil)) || Streak(r.notes) >= ACTIVITY_FAILURE_LIMIT)
  }

  /** What one step does to a marked record, and when it marks one. */
  lemma EvolvesSafely(cfg: Config, s: State, r: Record, after: Record)
    requires RecordOk(s.now, s.usage, r) && Evolves(cfg, s, r, after)
    ensures r.retiring ==> after.clients == 0 && after.worker == r.worker
    ensures after.retiring && !r.retiring ==> RetireReason(cfg, s.now, r)
  {
    hide Streak;
  }

  /** Retirement is safe in every run: a marked record has no client, keeps its worker and gains no client
      while marked; and a step marks only a clientless record that has had no client and has not been
      known busy for the whole grace period, or whose history ends in three failures with no success and
      no lease among them. */
  lemma RetirementSafe(cfg: Config, labels: seq<Label>, l: Label, s: State, next: State, p: ProfileId)
    requires After(cfg, labels) == Some(s) && Next(cfg, s, l) == Some(next)
    requires p in next.workers
    ensures next.workers[p].retiring ==> next.workers[p].clients == 0
    ensures p in s.workers && s.workers[p].retiring ==>
              next.workers[p].clients == 0 && next.workers[p].worker == s.workers[p].worker
    ensures next.workers[p].retiring && !(p in s.workers && s.workers[p].retiring) ==>
              p in s.workers && RetireReason(cfg, s.now, s.workers[p])
  {
    hide Next, After, Evolves, RetireReason, Capacity, LocksHeld, LaunchesAbsent, UsesDistinct, ClockOk, Streak;
    AlwaysInv(cfg, labels);
    NextKeeps(cfg, s, l, next);
    NextRecords(cfg, s, l, next);
    assert RecordOk(next.now, next.usage, next.workers[p]);
    if p in s.workers {
      assert RecordOk(s.now, s.usage, s.workers[p]);
      EvolvesSafely(cfg, s, s.workers[p], next.workers[p]);
    }
  }

  /** The failure count on a record is the run of failures since its last success or lease, so a worker reaches
      the limit only after that many unanswered probes with nothing good between. */
  lemma FailuresAreInARow(cfg: Config, labels: seq<Label>, s: State, p: ProfileId)
    requires After(cfg, labels) == Some(s) && p in s.workers
    ensures var notes, n := s.workers[p].notes, s.workers[p].failures;
            && n == Streak(notes) <= |notes|
            && (forall i :: |notes| - n <= i < |notes| ==> notes[i] == Unhealthy)
            && (n < |notes| ==> notes[|notes| - 1 - n] != Unhealthy)
  {
    hide After, Capacity, LocksHeld, LaunchesAbsent, UsesDistinct, ClockOk, Streak;
    AlwaysInv(cfg, labels);
    assert RecordOk(s.now, s.usage, s.workers[p]);
    StreakIsMaximal(s.workers[p].notes);
  }

  /** The streak is the longest run of failures at the end. */
  lemma {:induction false} StreakIsMaximal(notes: seq<Note>)
    ensures Streak(notes) <= |notes|
    ensures forall i :: |notes| - Streak(notes) <= i < |notes| ==> notes[i] == Unhealthy
    ensures Streak(notes) < |notes| ==> notes[|notes| - 1 - Streak(notes)] != Unhealthy
  {
    if notes == [] || notes[|notes| - 1] != Unhealthy {
    } else {
      var front := notes[..|notes| - 1];
      StreakIsMaximal(front);
    }
  }

  // ----- a cancelled sweep strands the record it was stopping -----

  /** The sweep step in progress, or one already planned, acts on profile p. */
  predicate SweepOwns(phase: Phase, p: ProfileId) {
    match phase
    case Probe(todo) => exists c :: c in todo && c.profile == p
    case BuryDead(q, todo) => q == p || exists c :: c in todo && c.profile == p
    case Update(_, _, todo) => exists c :: c in todo && c.profile == p
    case CullStop(q, _) => q == p
    case CullBury(q, _) => q == p
    case EvictStop(_, q, _, _, _) => q == p
    case EvictBury(_, q, _, _, _) => q == p
    case Unmark(q) => q == p
    case _ => false
  }

  /** No call is probing or removing the worker of p. */
  predicate CallsAway(tasks: map<TaskId, Task>, p: ProfileId) {
    forall t :: t in tasks && tasks[t].Acquire? && tasks[t].profile == p ==>
        !tasks[t].pc.Probing? && !tasks[t].pc.Burying?
  }

  /** Record p is marked, and neither a sweep nor a call that saw it unmarked is still acting on it. */
  predicate Stranded(s: State, p: ProfileId) {
    && p in s.workers && s.workers[p].retiring
    && (s.sweep.Some? ==> !SweepOwns(s.sweep.value.phase, p))
    && CallsAway(s.tasks, p)
  }

  lemma ProbeLeavesStranded(cfg: Config, s: State, l: Label, next: State, p: ProfileId)
    requires s.sweep.Some? && SweepStep(cfg, s, l) == Some(next) && Stranded(s, p)
    requires l.TakeCandidates? || l.ProbeCandidate? || l.BuryCandidate? || l.UpdateCandidate?
    ensures next.sweep.Some? && !SweepOwns(next.sweep.value.phase, p)
    ensures p in next.workers && next.workers[p].retiring && next.tasks == s.tasks
  {
    hide Pending, ListsIdle, At, Observed, PastGrace, CallsAway;
    match (s.sweep.value.phase, l)
    case (Probe(todo), ProbeCandidate(running, activity)) =>
      if todo != [] {
        assert todo[0] in todo;
        assert forall c :: c in todo[1..] ==> c in todo;
      }
    case _ =>
  }

  lemma CullLeavesStranded(cfg: Config, s: State, l: Label, next: State, p: ProfileId)
    requires s.sweep.Some? && SweepStep(cfg, s, l) == Some(next) && Stranded(s, p)
    requires l.TakeUnreachable? || l.MarkUnreachable? || l.StopUnreachable? || l.BuryUnreachable? || l.UnmarkFailed?
    ensures next.sweep.Some? && !SweepOwns(next.sweep.value.phase, p)
    ensures p in next.workers && next.workers[p].retiring && next.tasks == s.tasks
  {
    hide Pending, Lists, ListsIdle, At, UpdateStep, PastGrace, CallsAway;
  }

  lemma PlanLeavesStranded(cfg: Config, s: State, l: Label, next: State, p: ProfileId)
    requires s.sweep.Some? && SweepStep(cfg, s, l) == Some(next) && Stranded(s, p)
    requires l.ReadClock? || l.TakeIdle? || l.PlanEviction?
    ensures next.sweep.Some? && !SweepOwns(next.sweep.value.phase, p)
    ensures p in next.workers && next.workers[p].retiring && next.tasks == s.tasks
  {
    hide Pending, Lists, ListsIdle, At, UpdateStep, UnmarkStep, MarkRetiring, PastGrace, CallsAway, IsUnreachable;
  }

  lemma EvictLeavesStranded(cfg: Config, s: State, l: Label, next: State, p: ProfileId)
    requires s.sweep.Some? && SweepStep(cfg, s, l) == Some(next) && Stranded(s, p)
    requires l.MarkIdle? || l.StopIdle? || l.BuryIdle?
    ensures next.sweep.Some? && !SweepOwns(next.sweep.value.phase, p)
    ensures p in next.workers && next.workers[p].retiring && next.tasks == s.tasks
  {
    hide Pending, Lists, ListsIdle, At, UpdateStep, UnmarkStep, PastGrace, CallsAway, IsUnreachable;
  }

  lemma SweepLeavesStranded(cfg: Config, s: State, l: Label, next: State, p: ProfileId)
    requires IsSweepLabel(l) && s.sweep.Some? && SweepStep(cfg, s, l) == Some(next) && Stranded(s, p) && !l.EndSweep?
    ensures next.sweep.Some? && !SweepOwns(next.sweep.value.phase, p)
    ensures p in next.workers && next.workers[p].retiring && next.tasks == s.tasks
  {
    hide SweepStep, SweepOwns, CallsAway;
    if l.TakeCandidates? || l.ProbeCandidate? || l.BuryCandidate? || l.UpdateCandidate? {
      ProbeLeavesStranded(cfg, s, l, next, p);
    } else if l.TakeUnreachable? || l.MarkUnreachable? || l.StopUnreachable? || l.BuryUnreachable? || l.UnmarkFailed? {
      CullLeavesStranded(cfg, s, l, next, p);
    } else if l.ReadClock? || l.TakeIdle? || l.PlanEviction? {
      PlanLeavesStranded(cfg, s, l, next, p);
    } else {
      EvictLeavesStranded(cfg, s, l, next, p);
    }
  }

  /** A call that reads a marked record does not probe it, and no call is probing it already. */
  lemma ReaderLeavesStranded(cfg: Config, s: State, l: Label, next: State, p: ProfileId)
    requires Next(cfg, s, l) == Some(next) && Stranded(s, p) && (l.Decide? || l.ProbeWorker? || l.Lease? || l.Insert?)
    ensures CallsAway(next.tasks, p)
  {
    hide SweepStep, SweepOwns, Pending, NewRecord, LeasedRecord, ReleasedRecord;
  }

  lemma CallLeavesStranded(cfg: Config, s: State, l: Label, next: State, p: ProfileId)
    requires Next(cfg, s, l) == Some(next) && Stranded(s, p) && (!IsSweepLabel(l) || l.EndSweep?)
    ensures CallsAway(next.tasks, p)
  {
    hide SweepStep, SweepOwns, Pending, NewRecord, LeasedRecord, ReleasedRecord, DecideStep, LeaseStep, InsertStep;
    if l.EndSweep? {
      EndSweepTasks(cfg, s, next);
    } else if l.Decide? || l.ProbeWorker? || l.Lease? || l.Insert? {
      ReaderLeavesStranded(cfg, s, l, next, p);
    } else {
      OtherCalls(cfg, s, l, next);
    }
  }

  /** The remaining steps start a call, end one, or move one to a place where it probes nothing. */
  lemma OtherCalls(cfg: Config, s: State, l: Label, next: State)
    requires Next(cfg, s, l) == Some(next) && !IsSweepLabel(l) && !l.Decide? && !l.ProbeWorker? && !l.Lease?
        && !l.Insert?
    ensures forall t :: t in next.tasks ==>
      (t in s.tasks && next.tasks[t] == s.tasks[t])
      || (next.tasks[t].Acquire? ==> !next.tasks[t].pc.Probing? && !next.tasks[t].pc.Burying?)
  {
    hide SweepStep, Pending, NewRecord, LeasedRecord, ReleasedRecord, DecideStep, LeaseStep, InsertStep;
  }

  lemma EndSweepTasks(cfg: Config, s: State, next: State)
    requires s.sweep.Some? && SweepStep(cfg, s, EndSweep) == Some(next)
    ensures next.sweep.None?
    ensures forall t :: t in next.tasks ==>
        t in s.tasks && (next.tasks[t] == s.tasks[t] || next.tasks[t] == Acquire(s.tasks[t].profile, Deciding))
  {
    hide Pending, Lists, ListsIdle;
  }

  /** A call leaves the sweep alone, drops it or begins one. */
  lemma CallSweeps(cfg: Config, s: State, l: Label, next: State)
    requires Next(cfg, s, l) == Some(next) && !IsSweepLabel(l)
    ensures next.sweep == s.sweep || next.sweep.None? || next.sweep.value.phase == Snapshot
  {
    hide SweepStep, Pending, NewRecord, LeasedRecord, ReleasedRecord;
  }

  lemma CallLeavesMarked(cfg: Config, s: State, l: Label, next: State, p: ProfileId)
    requires LaunchesAbsent(s)
    requires Next(cfg, s, l) == Some(next) && Stranded(s, p) && !IsSweepLabel(l) && !l.Shutdown?
    ensures p in next.workers && next.workers[p].retiring
    ensures next.sweep.Some? ==> !SweepOwns(next.sweep.value.phase, p)
  {
    CallSweeps(cfg, s, l, next);
    if l.Lease? || l.Insert? || l.Release? || l.BuryWorker? {
      SharedLeavesMarked(cfg, s, l, next, p);
    } else {
      AcquireRecords(cfg, s, l, next);
    }
    hide Next;
  }

  lemma SharedLeavesMarked(cfg: Config, s: State, l: Label, next: State, p: ProfileId)
    requires LaunchesAbsent(s) && (l.Lease? || l.Insert? || l.Release? || l.BuryWorker?)
    requires Next(cfg, s, l) == Some(next) && Stranded(s, p)
    ensures p in next.workers && next.workers[p].retiring
  {
    hide SweepStep, Pending, SweepOwns;
    match l
    case Insert(t) => assert Profile(s, t) != p;
    case _ =>
  }

  /** Nothing but shutting the pool down touches a stranded record. */
  lemma StrandedStep(cfg: Config, s: State, l: Label, next: State, p: ProfileId)
    requires LaunchesAbsent(s) && Next(cfg, s, l) == Some(next) && Stranded(s, p) && !l.Shutdown?
    ensures Stranded(next, p)
  {
    hide Next, SweepStep, SweepOwns, CallsAway, LaunchesAbsent;
    if IsSweepLabel(l) {
      SweepLabels(cfg, s, l);
      if l.EndSweep? {
        assert next.sweep.None? by { EndSweepTasks(cfg, s, next); }
        CallLeavesStranded(cfg, s, l, next, p);
        EndSweepRecords(cfg, s, next);
      } else {
        SweepLeavesStranded(cfg, s, l, next, p);
      }
    } else {
      CallLeavesStranded(cfg, s, l, next, p);
      CallLeavesMarked(cfg, s, l, next, p);
    }
  }

  lemma {:induction false} StrandedForever(cfg: Config, labels: seq<Label>, more: seq<Label>, s: State, next: State,
      p: ProfileId)
    requires After(cfg, labels) == Some(s) && After(cfg, labels + more) == Some(next)
    requires Stranded(s, p) && Shutdown !in more
    ensures Stranded(next, p) && next.workers[p].clients == 0
    decreases |more|
  {
    hide Next, Stranded;
    if more == [] {
      assert labels + more == labels;
    } else {
      var n := |more| - 1;
      assert labels + more == labels + more[..n] + [more[n]];
      Extend(cfg, labels + more[..n], more[n]);
      var mid := After(cfg, labels + more[..n]).value;
      StrandedForever(cfg, labels, more[..n], s, mid, p);
      AlwaysInv(cfg, labels + more[..n]);
      StrandedStep(cfg, mid, more[n], next, p);
    }
    AlwaysInv(cfg, labels + more);
    StrandedIdle(cfg, next, p);
  }

  lemma StrandedIdle(cfg: Config, s: State, p: ProfileId)
    requires Inv(cfg, s) && Stranded(s, p)
    ensures p in s.workers && s.workers[p].clients == 0
  {
    assert RecordOk(s.now, s.usage, s.workers[p]);
  }

  /** The sweep has marked p and is stopping its worker, removing its record or taking the mark off again. */
  predicate Acting(phase: Phase, p: ProfileId) {
    || (phase.CullStop? && phase.profile == p)
    || (phase.CullBury? && phase.profile == p)
    || (phase.EvictStop? && phase.profile == p)
    || (phase.EvictBury? && phase.profile == p)
    || (phase.Unmark? && phase.profile == p)
  }

  /** Cancelling the task whose sweep is acting on p strands p exactly when its record is marked and no
      other call is at that moment between reading the record and acting on it. */
  lemma CancelStrandsIff(cfg: Config, labels: seq<Label>, s: State, p: ProfileId, t: TaskId, next: State)
    requires After(cfg, labels) == Some(s) && s.sweep.Some? && Acting(s.sweep.value.phase, p)
        && s.sweep.value.owner == t
    requires Next(cfg, s, Cancel(t)) == Some(next)
    ensures Stranded(next, p) <==> p in s.workers && s.workers[p].retiring && CallsAway(s.tasks - {t}, p)
  {
    hide SweepStep, CallsAway;
  }
}
