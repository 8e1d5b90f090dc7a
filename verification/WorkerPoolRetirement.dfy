/** When a marked record is sure to be stopped or unmarked: exactly which cancellations break it, and
    for which records it stays broken. */
module WorkerPoolRetirement {
  import opened Wrappers
  import opened WorkerPool
  import opened WorkerPoolProofs
  import opened WorkerPoolSafety

  predicate Marked(s: State, p: ProfileId) {
    p in s.workers && s.workers[p].retiring
  }

  /** Every marked record is the one that the sweep in progress is acting on. */
  ghost predicate MarksOwned(s: State) {
    forall p :: Marked(s, p) ==> s.sweep.Some? && Acting(s.sweep.value.phase, p)
  }

  /** The sweep belongs to a live task that is in it. */
  predicate OwnerOk(s: State) {
    s.sweep.Some? ==>
      s.sweep.value.owner in s.tasks
      && (s.tasks[s.sweep.value.owner].Sweeper? || s.tasks[s.sweep.value.owner].pc.InSweep?)
  }

  /** The step cancels the task whose sweep is acting on a record that is marked. */
  ghost predicate StrandingCancel(s: State, l: Label) {
    && l.Cancel? && s.sweep.Some? && s.sweep.value.owner == l.task
    && exists p :: Marked(s, p) && Acting(s.sweep.value.phase, p)
  }

  // ----- the owner of a sweep -----

  lemma SweepKeepsOwner(cfg: Config, s: State, l: Label, next: State)
    requires OwnerOk(s) && s.sweep.Some? && SweepStep(cfg, s, l) == Some(next)
    ensures OwnerOk(next)
  {
    hide Lists, ListsIdle, Pending, PastGrace, IsUnreachable, IsCandidate, Observed;
  }

  /** Outside the sweep, only cancelling its owner ends one. */
  lemma CallKeepsSweep(cfg: Config, s: State, l: Label, next: State)
    requires OwnerOk(s) && !IsSweepLabel(l) && Next(cfg, s, l) == Some(next)
    ensures next.sweep == s.sweep || s.sweep.None?
            || (l.Cancel? && s.sweep.value.owner == l.task && next.sweep.None?)
  {
    hide SweepStep, Pending, NewRecord, LeasedRecord, ReleasedRecord;
  }

  /** A sweep begins with its owner in it. */
  lemma BeginKeepsOwner(cfg: Config, s: State, l: Label, next: State)
    requires s.sweep.None? && !IsSweepLabel(l) && Next(cfg, s, l) == Some(next)
    ensures OwnerOk(next)
  {
    hide SweepStep, Pending, NewRecord, LeasedRecord, ReleasedRecord;
  }

  lemma ReaderLeavesOwner(cfg: Config, s: State, l: Label, next: State)
    requires OwnerOk(s) && Next(cfg, s, l) == Some(next) && s.sweep.Some? && next.sweep == s.sweep
    requires l.Decide? || l.Lease? || l.Insert? || l.LaunchFails? || l.Cancel?
    ensures OwnerOk(next)
  {
    hide SweepStep, Pending, NewRecord, LeasedRecord, ReleasedRecord;
  }

  /** A call that is not in a sweep moves without disturbing the one who is. */
  lemma OwnerUntouched(cfg: Config, s: State, l: Label, next: State)
    requires OwnerOk(s) && !IsSweepLabel(l) && Next(cfg, s, l) == Some(next)
    requires s.sweep.Some? && next.sweep == s.sweep
    ensures OwnerOk(next)
  {
    hide SweepStep, Pending, NewRecord, LeasedRecord, ReleasedRecord, DecideStep, LeaseStep, InsertStep, Dropped;
    if l.Decide? || l.Lease? || l.Insert? || l.LaunchFails? || l.Cancel? {
      ReaderLeavesOwner(cfg, s, l, next);
    }
  }

  lemma CallKeepsOwner(cfg: Config, s: State, l: Label, next: State)
    requires OwnerOk(s) && !IsSweepLabel(l) && Next(cfg, s, l) == Some(next)
    ensures OwnerOk(next)
    ensures next.sweep == s.sweep || s.sweep.None?
            || (l.Cancel? && s.sweep.value.owner == l.task && next.sweep.None?)
  {
    hide Next;
    CallKeepsSweep(cfg, s, l, next);
    if s.sweep.None? {
      BeginKeepsOwner(cfg, s, l, next);
    } else if next.sweep == s.sweep {
      OwnerUntouched(cfg, s, l, next);
    }
  }

  lemma NextKeepsOwner(cfg: Config, s: State, l: Label, next: State)
    requires OwnerOk(s) && Next(cfg, s, l) == Some(next)
    ensures OwnerOk(next)
  {
    hide Next, SweepStep, OwnerOk;
    if IsSweepLabel(l) {
      SweepLabels(cfg, s, l);
      SweepKeepsOwner(cfg, s, l, next);
    } else {
      CallKeepsOwner(cfg, s, l, next);
    }
  }

  lemma {:induction false} AlwaysOwned(cfg: Config, labels: seq<Label>)
    ensures After(cfg, labels).Some? ==> OwnerOk(After(cfg, labels).value)
    decreases |labels|
  {
    hide Next, OwnerOk;
    if labels == [] {
      assert OwnerOk(INITIAL) by { InitialOwned(); }
    } else {
      var before := After(cfg, labels[..|labels| - 1]);
      AlwaysOwned(cfg, labels[..|labels| - 1]);
      if before.Some? && After(cfg, labels).Some? {
        NextKeepsOwner(cfg, before.value, labels[|labels| - 1], After(cfg, labels).value);
      }
    }
  }

  lemma InitialOwned()
    ensures OwnerOk(INITIAL) && MarksOwned(INITIAL)
  {
  }

  // ----- marks -----

  lemma ProbeOwns(cfg: Config, s: State, l: Label, next: State, p: ProfileId)
    requires MarksOwned(s) && s.sweep.Some? && SweepStep(cfg, s, l) == Some(next)
    requires l.TakeCandidates? || l.ProbeCandidate? || l.BuryCandidate? || l.UpdateCandidate?
    ensures Marked(next, p) ==> next.sweep.Some? && Acting(next.sweep.value.phase, p)
  {
    hide Lists, ListsIdle, Pending, PastGrace, At;
    assert Marked(s, p) ==> Acting(s.sweep.value.phase, p);
  }

  lemma CullOwns(cfg: Config, s: State, l: Label, next: State, p: ProfileId)
    requires MarksOwned(s) && s.sweep.Some? && SweepStep(cfg, s, l) == Some(next)
    requires l.TakeUnreachable? || l.MarkUnreachable? || l.StopUnreachable? || l.BuryUnreachable? || l.UnmarkFailed?
    ensures Marked(next, p) ==> next.sweep.Some? && Acting(next.sweep.value.phase, p)
  {
    hide Lists, ListsIdle, Pending, PastGrace, At, UpdateStep, IsUnreachable;
    assert Marked(s, p) ==> Acting(s.sweep.value.phase, p);
  }

  lemma EvictOwns(cfg: Config, s: State, l: Label, next: State, p: ProfileId)
    requires MarksOwned(s) && s.sweep.Some? && SweepStep(cfg, s, l) == Some(next)
    requires l.ReadClock? || l.TakeIdle? || l.PlanEviction? || l.MarkIdle? || l.StopIdle? || l.BuryIdle? || l.EndSweep?
    ensures Marked(next, p) ==> next.sweep.Some? && Acting(next.sweep.value.phase, p)
  {
    hide Lists, ListsIdle, Pending, PastGrace, UpdateStep, UnmarkStep, IsUnreachable, IsIdle;
    assert Marked(s, p) ==> Acting(s.sweep.value.phase, p);
  }

  lemma SweepOwnsMarks(cfg: Config, s: State, l: Label, next: State)
    requires MarksOwned(s) && s.sweep.Some? && IsSweepLabel(l) && SweepStep(cfg, s, l) == Some(next)
    ensures MarksOwned(next)
  {
    hide SweepStep, Marked, Acting;
    forall p
      ensures Marked(next, p) ==> next.sweep.Some? && Acting(next.sweep.value.phase, p)
    {
      if l.TakeCandidates? || l.ProbeCandidate? || l.BuryCandidate? || l.UpdateCandidate? {
        ProbeOwns(cfg, s, l, next, p);
      } else if l.TakeUnreachable? || l.MarkUnreachable? || l.StopUnreachable? || l.BuryUnreachable?
          || l.UnmarkFailed? {
        CullOwns(cfg, s, l, next, p);
      } else {
        EvictOwns(cfg, s, l, next, p);
      }
    }
  }

  /** Outside the sweep no step marks a record, and a cancellation leaves every mark. */
  lemma CallMarks(cfg: Config, s: State, l: Label, next: State, p: ProfileId)
    requires !IsSweepLabel(l) && Next(cfg, s, l) == Some(next)
    ensures Marked(next, p) ==> Marked(s, p)
    ensures l.Cancel? ==> next.workers == s.workers
  {
    hide SweepStep, Pending;
    if !(l.Lease? || l.Insert? || l.Release? || l.Shutdown? || l.BuryWorker?) {
      AcquireRecords(cfg, s, l, next);
      hide Next;
    }
  }

  /** From a state whose marks are owned, a step leads to one unless it is a stranding cancellation. */
  lemma StepOwnsIff(cfg: Config, s: State, l: Label, next: State)
    requires OwnerOk(s) && MarksOwned(s) && Next(cfg, s, l) == Some(next)
    ensures MarksOwned(next) <==> !StrandingCancel(s, l)
  {
    hide Next, SweepStep, OwnerOk, Marked, Acting;
    if IsSweepLabel(l) {
      SweepLabels(cfg, s, l);
      SweepOwnsMarks(cfg, s, l, next);
    } else {
      CallKeepsOwner(cfg, s, l, next);
      forall p
        ensures Marked(next, p) ==> Marked(s, p)
        ensures l.Cancel? ==> (Marked(next, p) <==> Marked(s, p))
      {
        CallMarks(cfg, s, l, next, p);
        MarkedSame(s, next, p);
      }
      if StrandingCancel(s, l) {
        CancelEnds(cfg, s, l, next);
      }
    }
  }

  lemma MarkedSame(s: State, next: State, p: ProfileId)
    ensures next.workers == s.workers ==> (Marked(next, p) <==> Marked(s, p))
  {
  }

  lemma CancelEnds(cfg: Config, s: State, l: Label, next: State)
    requires Next(cfg, s, l) == Some(next) && l.Cancel? && s.sweep.Some? && s.sweep.value.owner == l.task
    ensures next.sweep.None?
  {
    hide SweepStep;
  }

  /** The state that the k-th step of a run meets. */
  function StateAt(cfg: Config, labels: seq<Label>, k: nat): Option<State>
    requires k <= |labels|
  {
    After(cfg, labels[..k])
  }

  /** Throughout the run every marked record is being stopped, removed or unmarked by the sweep in progress. */
  ghost predicate OwnedThroughout(cfg: Config, labels: seq<Label>) {
    forall k :: 0 <= k <= |labels| && StateAt(cfg, labels, k).Some? ==> MarksOwned(StateAt(cfg, labels, k).value)
  }

  ghost predicate CancelsSafely(cfg: Config, labels: seq<Label>) {
    forall k :: 0 <= k < |labels| && StateAt(cfg, labels, k).Some? ==>
        !StrandingCancel(StateAt(cfg, labels, k).value, labels[k])
  }

  lemma SplitRun(cfg: Config, labels: seq<Label>)
    requires labels != []
    ensures var front := labels[..|labels| - 1];
            && (OwnedThroughout(cfg, labels) <==>
                  OwnedThroughout(cfg, front) && (After(cfg, labels).Some? ==> MarksOwned(After(cfg, labels).value)))
            && (CancelsSafely(cfg, labels) <==>
                  CancelsSafely(cfg, front)
                  && (After(cfg, front).Some? ==> !StrandingCancel(After(cfg, front).value, labels[|labels| - 1])))
  {
    hide After, MarksOwned, StrandingCancel;
    var n := |labels| - 1;
    var front := labels[..n];
    forall k | 0 <= k <= n
      ensures StateAt(cfg, labels, k) == StateAt(cfg, front, k)
    {
      assert labels[..k] == front[..k];
    }
    assert labels[..n + 1] == labels && front[..n] == front;
    assert StateAt(cfg, labels, n + 1) == After(cfg, labels) && StateAt(cfg, front, n) == After(cfg, front);
  }

  /** The exact condition: in a run every marked record stays owned by a sweep if and only if no step
      cancels the task of a sweep that is acting on a marked record. */
  lemma {:induction false} MarksOwnedIff(cfg: Config, labels: seq<Label>)
    requires After(cfg, labels).Some?
    ensures OwnedThroughout(cfg, labels) <==> CancelsSafely(cfg, labels)
    decreases |labels|
  {
    hide Next, MarksOwned, OwnerOk, StrandingCancel, OwnedThroughout, CancelsSafely;
    if labels == [] {
      NoSteps(cfg);
    } else {
      var front := labels[..|labels| - 1];
      SplitRun(cfg, labels);
      MarksOwnedIff(cfg, front);
      AlwaysOwned(cfg, front);
      OwnedAtEnd(cfg, front);
      if OwnedThroughout(cfg, front) {
        StepOwnsIff(cfg, After(cfg, front).value, labels[|labels| - 1], After(cfg, labels).value);
      }
    }
  }

  lemma NoSteps(cfg: Config)
    ensures OwnedThroughout(cfg, []) && CancelsSafely(cfg, [])
  {
    InitialOwned();
  }

  lemma OwnedAtEnd(cfg: Config, labels: seq<Label>)
    ensures OwnedThroughout(cfg, labels) && After(cfg, labels).Some? ==> MarksOwned(After(cfg, labels).value)
  {
    assert labels[..|labels|] == labels;
    assert StateAt(cfg, labels, |labels|) == After(cfg, labels);
  }

  // ----- what is not stranded can recover -----

  /** From the end of the run, some steps without a shutdown lead to a state in which p is not marked. */
  ghost predicate Recovers(cfg: Config, labels: seq<Label>, p: ProfileId) {
    exists more :: Frees(cfg, labels, more, p)
  }

  ghost predicate Frees(cfg: Config, labels: seq<Label>, more: seq<Label>, p: ProfileId) {
    Shutdown !in more && After(cfg, labels + more).Some? && !Marked(After(cfg, labels + more).value, p)
  }

  lemma RecoversNow(cfg: Config, labels: seq<Label>, s: State, p: ProfileId)
    requires After(cfg, labels) == Some(s) && !Marked(s, p)
    ensures Recovers(cfg, labels, p)
  {
    hide After;
    assert labels + [] == labels;
    assert Frees(cfg, labels, [], p);
  }

  lemma RecoversLater(cfg: Config, labels: seq<Label>, s: State, l: Label, next: State, p: ProfileId)
    requires After(cfg, labels) == Some(s) && Next(cfg, s, l) == Some(next) && !l.Shutdown?
    ensures After(cfg, labels + [l]) == Some(next)
    ensures Recovers(cfg, labels + [l], p) ==> Recovers(cfg, labels, p)
    ensures !Marked(next, p) ==> Recovers(cfg, labels, p)
  {
    hide After, Next, Marked;
    Extend(cfg, labels, l);
    if !Marked(next, p) {
      RecoversNow(cfg, labels + [l], next, p);
    }
    if Recovers(cfg, labels + [l], p) {
      var more :| Frees(cfg, labels + [l], more, p);
      assert labels + [l] + more == labels + ([l] + more);
      assert Frees(cfg, labels, [l] + more, p);
    }
  }

  /** A call that found the record unmarked and its worker dead removes the record. */
  lemma BuryingRecovers(cfg: Config, labels: seq<Label>, s: State, t: TaskId, p: ProfileId)
    requires After(cfg, labels) == Some(s) && At(s, t, Burying) && Profile(s, t) == p
    ensures Recovers(cfg, labels, p)
  {
    hide After, SweepStep, Recovers;
    var next := Goto(s.(workers := s.workers - {p}), t, Checking);
    assert Next(cfg, s, BuryWorker(t)) == Some(next);
    RecoversLater(cfg, labels, s, BuryWorker(t), next, p);
  }

  lemma ProbingRecovers(cfg: Config, labels: seq<Label>, s: State, t: TaskId, p: ProfileId)
    requires After(cfg, labels) == Some(s) && t in s.tasks && s.tasks[t].Acquire? && s.tasks[t].pc.Probing?
        && Profile(s, t) == p
    ensures Recovers(cfg, labels, p)
  {
    hide After, SweepStep, Recovers, Marked;
    var next := Goto(s, t, Burying);
    assert Next(cfg, s, ProbeWorker(t, false)) == Some(next);
    RecoversLater(cfg, labels, s, ProbeWorker(t, false), next, p);
    BuryingRecovers(cfg, labels + [ProbeWorker(t, false)], next, t, p);
  }

  /** One step of the sweep. */
  lemma SweepRecovers(cfg: Config, labels: seq<Label>, s: State, l: Label, next: State, p: ProfileId)
    requires After(cfg, labels) == Some(s) && s.sweep.Some? && IsSweepLabel(l) && SweepStep(cfg, s, l) == Some(next)
    ensures After(cfg, labels + [l]) == Some(next)
    ensures Recovers(cfg, labels + [l], p) ==> Recovers(cfg, labels, p)
    ensures !Marked(next, p) ==> Recovers(cfg, labels, p)
  {
    hide After, Next, SweepStep, Recovers;
    SweepLabels(cfg, s, l);
    RecoversLater(cfg, labels, s, l, next, p);
  }

  /** The last step of the sweep on p. */
  lemma FinishRecovers(cfg: Config, labels: seq<Label>, s: State, p: ProfileId)
    requires After(cfg, labels) == Some(s) && s.sweep.Some?
    requires var phase := s.sweep.value.phase;
             (phase.BuryDead? || phase.CullBury? || phase.EvictBury? || phase.Unmark?) && phase.profile == p
    ensures Recovers(cfg, labels, p)
  {
    hide After, Recovers, Lists, ListsIdle, Pending, At;
    var l := match s.sweep.value.phase
      case BuryDead(_, _) => BuryCandidate
      case CullBury(_, _) => BuryUnreachable
      case EvictBury(_, _, _, _, _) => BuryIdle
      case _ => UnmarkFailed;
    var next := SweepStep(cfg, s, l).value;
    SweepRecovers(cfg, labels, s, l, next, p);
  }

  /** The worker stops. */
  lemma StopRecovers(cfg: Config, labels: seq<Label>, s: State, p: ProfileId)
    requires After(cfg, labels) == Some(s) && s.sweep.Some?
    requires var phase := s.sweep.value.phase; (phase.CullStop? || phase.EvictStop?) && phase.profile == p
    ensures Recovers(cfg, labels, p)
  {
    hide After, Recovers, Lists, ListsIdle, Pending, At, Marked;
    var l := if s.sweep.value.phase.CullStop? then StopUnreachable(true) else StopIdle(true);
    var next := SweepStep(cfg, s, l).value;
    SweepRecovers(cfg, labels, s, l, next, p);
    FinishRecovers(cfg, labels + [l], next, p);
  }

  predicate Lined(todo: seq<Candidate>, p: ProfileId) {
    exists c :: c in todo && c.profile == p
  }

  lemma LinedRest(todo: seq<Candidate>, p: ProfileId)
    requires Lined(todo, p) && todo[0].profile != p
    ensures Lined(todo[1..], p)
  {
    var c :| c in todo && c.profile == p;
    assert c in todo[1..];
  }

  lemma ProbeSteps(cfg: Config, s: State, todo: seq<Candidate>, running: bool)
    requires s.sweep.Some? && s.sweep.value.phase == Probe(todo) && todo != []
    ensures SweepStep(cfg, s, ProbeCandidate(running, CanRetire)) ==
            Some(SetPhase(s, if running then Update(todo[0].profile, CanRetire, todo[1..])
                else BuryDead(todo[0].profile, todo[1..])))
  {
    hide Lists, ListsIdle, Pending, At;
  }

  lemma UpdateSteps(cfg: Config, s: State, q: ProfileId, a: Activity, todo: seq<Candidate>)
    requires s.sweep.Some? && s.sweep.value.phase == Update(q, a, todo)
    ensures SweepStep(cfg, s, UpdateCandidate) == Some(SetPhase(UpdateStep(s, q, a), Probe(todo)))
    ensures UpdateStep(s, q, a).sweep == s.sweep
  {
    hide Lists, ListsIdle, Pending, At;
  }

  /** The sweep has p on its list of candidates from before it was marked: it finds the others alive and p dead. */
  lemma {:induction false} LinedRecovers(cfg: Config, labels: seq<Label>, s: State, todo: seq<Candidate>, p: ProfileId)
    requires After(cfg, labels) == Some(s) && s.sweep.Some? && s.sweep.value.phase == Probe(todo) && Lined(todo, p)
    ensures Recovers(cfg, labels, p)
    decreases |todo|, 0
  {
    hide After, Recovers, SweepStep, Marked, UpdateStep;
    var dead := todo[0].profile == p;
    ProbeSteps(cfg, s, todo, !dead);
    var l := ProbeCandidate(!dead, CanRetire);
    var next := SweepStep(cfg, s, l).value;
    SweepRecovers(cfg, labels, s, l, next, p);
    if dead {
      FinishRecovers(cfg, labels + [l], next, p);
    } else {
      LinedRest(todo, p);
      UpdateRecovers(cfg, labels + [l], next, todo[0].profile, CanRetire, todo[1..], p);
    }
  }

  lemma {:induction false} UpdateRecovers(
    cfg: Config, labels: seq<Label>, s: State, q: ProfileId, a: Activity, todo: seq<Candidate>, p: ProfileId)
    requires After(cfg, labels) == Some(s) && s.sweep.Some? && s.sweep.value.phase == Update(q, a, todo)
        && Lined(todo, p)
    ensures Recovers(cfg, labels, p)
    decreases |todo|, 1
  {
    hide After, Recovers, SweepStep, Marked, UpdateStep;
    UpdateSteps(cfg, s, q, a, todo);
    var next := SetPhase(UpdateStep(s, q, a), Probe(todo));
    SweepRecovers(cfg, labels, s, UpdateCandidate, next, p);
    LinedRecovers(cfg, labels + [UpdateCandidate], next, todo, p);
  }

  lemma BuriedThenRecovers(cfg: Config, labels: seq<Label>, s: State, q: ProfileId, todo: seq<Candidate>, p: ProfileId)
    requires After(cfg, labels) == Some(s) && s.sweep.Some? && s.sweep.value.phase == BuryDead(q, todo)
        && Lined(todo, p)
    ensures Recovers(cfg, labels, p)
  {
    hide After, Recovers, Lists, ListsIdle, Pending, At, Marked;
    var next := SweepStep(cfg, s, BuryCandidate).value;
    SweepRecovers(cfg, labels, s, BuryCandidate, next, p);
    LinedRecovers(cfg, labels + [BuryCandidate], next, todo, p);
  }

  /** A marked record that is not stranded can still be removed or unmarked without a shutdown. */
  lemma UnstrandedRecovers(cfg: Config, labels: seq<Label>, s: State, p: ProfileId)
    requires After(cfg, labels) == Some(s) && Marked(s, p) && !Stranded(s, p)
    ensures Recovers(cfg, labels, p)
  {
    hide After, Recovers;
    if s.sweep.Some? && SweepOwns(s.sweep.value.phase, p) {
      match s.sweep.value.phase
      case Probe(todo) => LinedRecovers(cfg, labels, s, todo, p);
      case Update(q, a, todo) => UpdateRecovers(cfg, labels, s, q, a, todo, p);
      case BuryDead(q, todo) =>
        if q == p {
          FinishRecovers(cfg, labels, s, p);
        } else {
          BuriedThenRecovers(cfg, labels, s, q, todo, p);
        }
      case CullStop(_, _) => StopRecovers(cfg, labels, s, p);
      case EvictStop(_, _, _, _, _) => StopRecovers(cfg, labels, s, p);
      case _ => FinishRecovers(cfg, labels, s, p);
    } else {
      var t :| t in s.tasks && s.tasks[t].Acquire? && s.tasks[t].profile == p
          && (s.tasks[t].pc.Probing? || s.tasks[t].pc.Burying?);
      if s.tasks[t].pc.Probing? {
        ProbingRecovers(cfg, labels, s, t, p);
      } else {
        BuryingRecovers(cfg, labels, s, t, p);
      }
    }
  }

  /** Stranded is exactly lost: a marked record stays marked in every continuation without a shutdown if
      and only if it is stranded. */
  lemma StrandedIff(cfg: Config, labels: seq<Label>, s: State, p: ProfileId)
    requires After(cfg, labels) == Some(s) && Marked(s, p)
    ensures Stranded(s, p) <==> !Recovers(cfg, labels, p)
  {
    hide After, SweepOwns, CallsAway;
    if !Stranded(s, p) {
      UnstrandedRecovers(cfg, labels, s, p);
    } else {
      forall more | Shutdown !in more && After(cfg, labels + more).Some?
        ensures Marked(After(cfg, labels + more).value, p)
      {
        StrandedForever(cfg, labels, more, s, After(cfg, labels + more).value, p);
      }
    }
  }
}
