/** Sessions against calls and against the client counts of the records, over every run. */
module WorkerPoolSessions {
  import opened Wrappers
  import opened WorkerPool
  import opened WorkerPoolProofs
  import opened WorkerPoolSafety
  import opened WorkerPoolRetirement

  // ----- what one step does to the sessions and to the client counts -----

  /** The clients that the pool counts for a profile. */
  function Counted(s: State, p: ProfileId): nat {
    if p in s.workers then s.workers[p].clients else 0
  }

  /** The step gives a call for p its session. */
  predicate Grants(s: State, l: Label, p: ProfileId) {
    || (l.Insert? && l.task in s.tasks && s.tasks[l.task].Acquire? && Profile(s, l.task) == p)
    || (l.Lease? && l.task in s.tasks && s.tasks[l.task].Acquire? && s.tasks[l.task].pc.Leasing?
        && Profile(s, l.task) == p && p in s.workers && !s.workers[p].retiring
        && s.workers[p].worker == s.tasks[l.task].pc.worker)
  }

  /** The step takes the record of p away: because its worker does not answer, was stopped, or the pool shuts down. */
  predicate Removes(s: State, l: Label, p: ProfileId) {
    match l
    case BuryWorker(t) => t in s.tasks && s.tasks[t].Acquire? && Profile(s, t) == p
    case BuryCandidate => s.sweep.Some? && s.sweep.value.phase.BuryDead? && s.sweep.value.phase.profile == p
    case BuryUnreachable => s.sweep.Some? && s.sweep.value.phase.CullBury? && s.sweep.value.phase.profile == p
    case BuryIdle => s.sweep.Some? && s.sweep.value.phase.EvictBury? && s.sweep.value.phase.profile == p
    case Shutdown => true
    case _ => false
  }

  function One(b: bool): nat {
    if b then 1 else 0
  }

  /** Sessions come with a grant and go with a release. */
  predicate SessionsMove(s: State, l: Label, next: State, p: ProfileId) {
    next.sessions[p] + One(l == Release(p)) == s.sessions[p] + One(Grants(s, l, p))
  }

  /** The count follows the sessions, except that it is lost with the record and never drops below zero. */
  predicate CountsMove(s: State, l: Label, next: State, p: ProfileId) {
    Counted(next, p) ==
      if Removes(s, l, p) then 0
      else if l == Release(p) && Counted(s, p) > 0 then Counted(s, p) - 1
      else Counted(s, p) + One(Grants(s, l, p))
  }

  predicate IsServing(l: Label) {
    l.Lease? || l.Insert? || l.Release?
  }

  lemma ServingMoves(cfg: Config, s: State, l: Label, next: State, p: ProfileId)
    requires LaunchesAbsent(s) && Next(cfg, s, l) == Some(next) && IsServing(l)
    ensures SessionsMove(s, l, next, p) && CountsMove(s, l, next, p)
  {
    hide SweepStep, Pending;
  }

  lemma OtherCallMoves(cfg: Config, s: State, l: Label, next: State, p: ProfileId)
    requires Next(cfg, s, l) == Some(next) && !IsSweepLabel(l) && !IsServing(l)
    ensures SessionsMove(s, l, next, p) && CountsMove(s, l, next, p)
  {
    hide SweepStep, Pending, LeaseStep, InsertStep, ReleasedRecord;
  }

  predicate Buries(l: Label) {
    l.BuryCandidate? || l.BuryUnreachable? || l.BuryIdle?
  }

  predicate Edits(l: Label) {
    l.UpdateCandidate? || l.MarkUnreachable? || l.MarkIdle? || l.UnmarkFailed?
  }

  lemma BuryMoves(cfg: Config, s: State, l: Label, next: State, p: ProfileId)
    requires s.sweep.Some? && SweepStep(cfg, s, l) == Some(next) && Buries(l)
    ensures SessionsMove(s, l, next, p) && CountsMove(s, l, next, p)
  {
    hide Lists, ListsIdle, Pending, Observed, UpdateStep, UnmarkStep, MarkRetiring, PastGrace;
  }

  lemma EditMoves(cfg: Config, s: State, l: Label, next: State, p: ProfileId)
    requires s.sweep.Some? && SweepStep(cfg, s, l) == Some(next) && Edits(l)
    ensures SessionsMove(s, l, next, p) && CountsMove(s, l, next, p)
  {
    hide Lists, ListsIdle, Pending, PastGrace;
  }

  lemma ScanMoves(cfg: Config, s: State, l: Label, next: State, p: ProfileId)
    requires s.sweep.Some? && SweepStep(cfg, s, l) == Some(next) && IsSweepLabel(l) && !Buries(l) && !Edits(l)
    ensures SessionsMove(s, l, next, p) && CountsMove(s, l, next, p)
  {
    assert next.workers == s.workers && next.sessions == s.sessions by {
      hide Lists, ListsIdle, Pending, Observed, UpdateStep, UnmarkStep, MarkRetiring, PastGrace;
    }
    hide SweepStep;
  }

  /** A sweep touches no session, and no count but by removing a record. */
  lemma SweepMoves(cfg: Config, s: State, l: Label, next: State, p: ProfileId)
    requires s.sweep.Some? && SweepStep(cfg, s, l) == Some(next) && IsSweepLabel(l)
    ensures SessionsMove(s, l, next, p) && CountsMove(s, l, next, p)
  {
    hide SweepStep, SessionsMove, CountsMove;
    if Buries(l) {
      BuryMoves(cfg, s, l, next, p);
    } else if Edits(l) {
      EditMoves(cfg, s, l, next, p);
    } else {
      ScanMoves(cfg, s, l, next, p);
    }
  }

  lemma StepMoves(cfg: Config, s: State, l: Label, next: State, p: ProfileId)
    requires Inv(cfg, s) && Next(cfg, s, l) == Some(next)
    ensures SessionsMove(s, l, next, p) && CountsMove(s, l, next, p)
  {
    hide SessionsMove, CountsMove, Next, SweepStep, Capacity, LocksHeld, LaunchesAbsent, RecordsOk, UsesDistinct,
        ClockOk;
    if IsSweepLabel(l) {
      SweepLabels(cfg, s, l);
      SweepMoves(cfg, s, l, next, p);
    } else if IsServing(l) {
      ServingMoves(cfg, s, l, next, p);
    } else {
      OtherCallMoves(cfg, s, l, next, p);
    }
  }

  // ----- sessions and calls -----

  /** The call for p has its session and has not returned it yet. */
  predicate Holds(task: Task, p: ProfileId) {
    task.Acquire? && task.profile == p && (task.pc.Inserted? || task.pc.Returning?)
  }

  function Holding(s: State, p: ProfileId): set<TaskId> {
    set t | t in s.tasks && Holds(s.tasks[t], p)
  }

  predicate Returns(s: State, l: Label, p: ProfileId) {
    l.Return? && At(s, l.task, Returning) && Profile(s, l.task) == p
  }

  /** A call starts to hold a session with its grant and stops with its return. */
  predicate HoldingMoves(s: State, l: Label, next: State, p: ProfileId) {
    && (Grants(s, l, p) ==> l.task !in Holding(s, p) && Holding(next, p) == Holding(s, p) + {l.task})
    && (Returns(s, l, p) ==> l.task in Holding(s, p) && Holding(next, p) == Holding(s, p) - {l.task})
    && (!Grants(s, l, p) && !Returns(s, l, p) ==> Holding(next, p) == Holding(s, p))
  }

  /** Calls but t are as they were, and t holds no session of p on either side. */
  ghost predicate Aside(s: State, next: State, t: TaskId, p: ProfileId) {
    && (forall u :: u != t ==> (u in s.tasks <==> u in next.tasks))
    && (forall u :: u != t && u in s.tasks && u in next.tasks ==> next.tasks[u] == s.tasks[u])
    && (t in s.tasks ==> !Holds(s.tasks[t], p)) && (t in next.tasks ==> !Holds(next.tasks[t], p))
  }

  lemma AsideHolds(s: State, next: State, t: TaskId, p: ProfileId)
    requires Aside(s, next, t, p)
    ensures Holding(next, p) == Holding(s, p)
  {
  }

  predicate IsHandling(l: Label) {
    l.Lease? || l.Insert? || l.DropReservation? || l.Return?
  }

  lemma HandlingMoves(cfg: Config, s: State, l: Label, next: State, p: ProfileId)
    requires Next(cfg, s, l) == Some(next) && IsHandling(l)
    ensures HoldingMoves(s, l, next, p)
  {
    hide SweepStep, Pending, LeasedRecord, NewRecord;
  }

  predicate Moves(l: Label) {
    || l.Lock? || l.CheckCapacity? || l.BeginSweep? || l.Wake? || l.ProbeWorker? || l.BuryWorker? || l.LaunchSucceeds?
  }

  predicate StartsOrEnds(l: Label) {
    l.Call? || l.StartBackgroundSweep? || l.Decide? || l.LaunchFails? || l.Cancel?
  }

  lemma MoveAside(cfg: Config, s: State, l: Label, next: State, p: ProfileId)
    requires Next(cfg, s, l) == Some(next) && Moves(l)
    ensures Aside(s, next, l.task, p)
  {
    hide SweepStep, Pending;
  }

  lemma EndAside(cfg: Config, s: State, l: Label, next: State, p: ProfileId)
    requires Next(cfg, s, l) == Some(next) && StartsOrEnds(l)
    ensures Aside(s, next, l.task, p)
  {
    hide SweepStep, Pending;
    if l.Decide? {
      hide Next;
      DecideNext(cfg, s, l.task);
      DecideAside(cfg, s, l.task, p);
    }
  }

  lemma DecideNext(cfg: Config, s: State, t: TaskId)
    requires Next(cfg, s, Decide(t)).Some?
    ensures At(s, t, Deciding) && Next(cfg, s, Decide(t)) == Some(DecideStep(cfg, s, t))
  {
    hide SweepStep, DecideStep;
  }

  lemma DecideAside(cfg: Config, s: State, t: TaskId, p: ProfileId)
    requires At(s, t, Deciding)
    ensures Aside(s, DecideStep(cfg, s, t), t, p)
  {
    hide Pending;
  }

  lemma EndSweepAside(cfg: Config, s: State, next: State, p: ProfileId)
    requires s.sweep.Some? && SweepStep(cfg, s, EndSweep) == Some(next)
    ensures Holding(next, p) == Holding(s, p)
  {
    hide Lists, ListsIdle, Pending;
    var owner := s.sweep.value.owner;
    if At(s, owner, InSweep) || (owner in s.tasks && s.tasks[owner].Sweeper?) {
      assert Aside(s, next, owner, p);
      AsideHolds(s, next, owner, p);
    }
  }

  lemma SameTasks(cfg: Config, s: State, l: Label, next: State)
    requires Next(cfg, s, l) == Some(next) && (l.Tick? || l.Release? || l.Shutdown?)
    ensures next.tasks == s.tasks
  {
    hide SweepStep, ReleasedRecord;
  }

  lemma StepHolds(cfg: Config, s: State, l: Label, next: State, p: ProfileId)
    requires Inv(cfg, s) && Next(cfg, s, l) == Some(next)
    ensures HoldingMoves(s, l, next, p)
  {
    hide Next, SweepStep, Capacity, LocksHeld, LaunchesAbsent, UsesDistinct, Aside, Holds, Swept, RecordsOk, ClockOk;
    if IsSweepLabel(l) {
      SweepLabels(cfg, s, l);
      if l.EndSweep? {
        EndSweepAside(cfg, s, next, p);
      } else {
        SweepStepEdits(cfg, s, l, next);
        SweptTasks(cfg, s, next);
      }
    } else if IsHandling(l) {
      HandlingMoves(cfg, s, l, next, p);
    } else if Moves(l) {
      MoveAside(cfg, s, l, next, p);
      AsideHolds(s, next, l.task, p);
    } else if StartsOrEnds(l) {
      EndAside(cfg, s, l, next, p);
      AsideHolds(s, next, l.task, p);
    } else {
      SameTasks(cfg, s, l, next);
    }
  }

  lemma SweptTasks(cfg: Config, s: State, next: State)
    requires Swept(cfg, s, next)
    ensures next.tasks == s.tasks
  {
  }

  /** The sessions of p that calls have returned so far. */
  ghost function Returned(cfg: Config, labels: seq<Label>, p: ProfileId): nat
    decreases |labels|
  {
    if labels == [] then 0
    else
      var front, l := labels[..|labels| - 1], labels[|labels| - 1];
      var before := After(cfg, front);
      Returned(cfg, front, p) + One(before.Some? && Returns(before.value, l, p))
  }

  /** The sessions of p released so far. */
  function Released(labels: seq<Label>, p: ProfileId): nat {
    if labels == [] then 0 else Released(labels[..|labels| - 1], p) + One(labels[|labels| - 1] == Release(p))
  }

  /** Conservation: in every run the sessions of a profile that are not released are those its calls have
      returned, and one for each of its calls that is about to return. */
  lemma {:induction false} SessionsConserved(cfg: Config, labels: seq<Label>, s: State, p: ProfileId)
    requires After(cfg, labels) == Some(s)
    ensures s.sessions[p] + Released(labels, p) == Returned(cfg, labels, p) + |Holding(s, p)|
    decreases |labels|
  {
    hide Next, Inv, Grants, Returns, Holding;
    if labels == [] {
      NobodyHolds(p);
    } else {
      var front, l := labels[..|labels| - 1], labels[|labels| - 1];
      var before := After(cfg, front).value;
      SessionsConserved(cfg, front, before, p);
      AlwaysInv(cfg, front);
      StepMoves(cfg, before, l, s, p);
      StepHolds(cfg, before, l, s, p);
      NotBoth(before, l, p);
    }
  }

  lemma NobodyHolds(p: ProfileId)
    ensures Holding(INITIAL, p) == {}
  {
  }

  lemma NotBoth(s: State, l: Label, p: ProfileId)
    ensures !Grants(s, l, p) || !Returns(s, l, p)
  {
  }

  // ----- sessions and client counts -----

  /** The pool counts as clients of a profile exactly its sessions. */
  ghost predicate Exact(s: State) {
    forall p :: Counted(s, p) == s.sessions[p]
  }

  /** The step removes a record that still has clients. */
  ghost predicate Orphans(s: State, l: Label) {
    exists p :: Removes(s, l, p) && Counted(s, p) > 0
  }

  /** In every reachable state the pool counts no more clients of a profile than it has sessions. */
  lemma {:induction false} NeverOvercounts(cfg: Config, labels: seq<Label>, s: State, p: ProfileId)
    requires After(cfg, labels) == Some(s)
    ensures Counted(s, p) <= s.sessions[p]
    decreases |labels|
  {
    hide Next, Inv, Grants, Removes, Counted;
    if labels == [] {
      NobodyCounted(p);
    } else {
      var front, l := labels[..|labels| - 1], labels[|labels| - 1];
      var before := After(cfg, front).value;
      NeverOvercounts(cfg, front, before, p);
      AlwaysInv(cfg, front);
      StepMoves(cfg, before, l, s, p);
      RemovesOnly(before, l, p);
    }
  }

  lemma NobodyCounted(p: ProfileId)
    ensures Counted(INITIAL, p) == 0
  {
  }

  /** From exact counts a step leads to exact counts if and only if it orphans no session. */
  lemma ExactStepIff(cfg: Config, s: State, l: Label, next: State)
    requires Inv(cfg, s) && Next(cfg, s, l) == Some(next) && Exact(s)
    ensures Exact(next) <==> !Orphans(s, l)
  {
    hide Next, Inv, Grants, Removes, Counted;
    forall p
      ensures Removes(s, l, p) && Counted(s, p) > 0 ==> Counted(next, p) != next.sessions[p]
      ensures !(Removes(s, l, p) && Counted(s, p) > 0) ==> Counted(next, p) == next.sessions[p]
    {
      StepMoves(cfg, s, l, next, p);
      RemovesOnly(s, l, p);
    }
  }

  lemma RemovesOnly(s: State, l: Label, p: ProfileId)
    ensures Removes(s, l, p) ==> l != Release(p) && !Grants(s, l, p)
    ensures l == Release(p) ==> !Grants(s, l, p)
  {
  }

  ghost predicate ExactThroughout(cfg: Config, labels: seq<Label>) {
    forall k :: 0 <= k <= |labels| && StateAt(cfg, labels, k).Some? ==> Exact(StateAt(cfg, labels, k).value)
  }

  ghost predicate OrphansNobody(cfg: Config, labels: seq<Label>) {
    forall k :: 0 <= k < |labels| && StateAt(cfg, labels, k).Some? ==>
        !Orphans(StateAt(cfg, labels, k).value, labels[k])
  }

  lemma SplitExact(cfg: Config, labels: seq<Label>)
    requires labels != []
    ensures var front := labels[..|labels| - 1];
            && (ExactThroughout(cfg, labels) <==>
                  ExactThroughout(cfg, front) && (After(cfg, labels).Some? ==> Exact(After(cfg, labels).value)))
            && (OrphansNobody(cfg, labels) <==>
                  OrphansNobody(cfg, front)
                  && (After(cfg, front).Some? ==> !Orphans(After(cfg, front).value, labels[|labels| - 1])))
  {
    hide After, Exact, Orphans;
    var n := |labels| - 1;
    var front := labels[..n];
    forall k | 0 <= k <= n
      ensures StateAt(cfg, labels, k) == StateAt(cfg, front, k)
    {
      assert labels[..k] == front[..k];
    }
    assert labels[..n + 1] == labels && front[..n] == front;
    assert StateAt(cfg, labels, n + 1) == After(cfg, labels) && StateAt(cfg, front, n) == After(cfg, front);
  }

  lemma ExactAtEnd(cfg: Config, labels: seq<Label>)
    ensures ExactThroughout(cfg, labels) && After(cfg, labels).Some? ==> Exact(After(cfg, labels).value)
  {
    assert labels[..|labels|] == labels;
    assert StateAt(cfg, labels, |labels|) == After(cfg, labels);
  }

  lemma ExactAtFirst(cfg: Config)
    ensures ExactThroughout(cfg, []) && OrphansNobody(cfg, [])
  {
  }

  /** The exact condition: throughout a run the pool counts as clients exactly the sessions if and only if
      no step of the run removes a record that has clients. */
  lemma {:induction false} ExactIff(cfg: Config, labels: seq<Label>)
    requires After(cfg, labels).Some?
    ensures ExactThroughout(cfg, labels) <==> OrphansNobody(cfg, labels)
    decreases |labels|
  {
    hide Next, Inv, Exact, Orphans, ExactThroughout, OrphansNobody;
    if labels == [] {
      ExactAtFirst(cfg);
    } else {
      var front := labels[..|labels| - 1];
      SplitExact(cfg, labels);
      ExactIff(cfg, front);
      AlwaysInv(cfg, front);
      ExactAtEnd(cfg, front);
      if ExactThroughout(cfg, front) {
        ExactStepIff(cfg, After(cfg, front).value, labels[|labels| - 1], After(cfg, labels).value);
      }
    }
  }

  /** In such a run a worker marked for retirement serves no session. */
  lemma RetiresUnused(cfg: Config, labels: seq<Label>, s: State, p: ProfileId)
    requires After(cfg, labels) == Some(s) && OrphansNobody(cfg, labels) && p in s.workers && s.workers[p].retiring
    ensures s.sessions[p] == 0
  {
    hide After, OrphansNobody, ExactThroughout;
    ExactIff(cfg, labels);
    ExactAtEnd(cfg, labels);
    AlwaysInv(cfg, labels);
    assert RecordOk(s.now, s.usage, s.workers[p]);
    assert Counted(s, p) == s.sessions[p];
  }
}
