/** The broker's worker pool as a transition system.  Each label is one critical section, one await or
    one atomic operation of `WorkerPool`; tasks interleave freely and may be cancelled at any await. */
module WorkerPool {
  import opened Wrappers

  type ProfileId = string
  type TaskId = nat
  type WorkerId = nat

  const ACTIVITY_FAILURE_LIMIT: nat := 3

  datatype Config = Config(maxWorkers: nat, maxIdle: nat, grace: nat)

  /** What happened to a record: a lease, or a probe answered that the worker may retire, answered that it
      may not, or not answered. */
  datatype Note = Leased | Settled | Active | Unhealthy

  /** The pool's record of a worker. The last two fields are history that no step reads: what happened to
      the record, and when it last had a client or was known busy, up to the moment that ended. */
  datatype Record = Record(
    worker: WorkerId, clients: nat, lastIdle: nat, lastUsed: nat, busy: bool, failures: nat, retiring: bool,
    notes: seq<Note>, inUseUntil: nat)

  datatype Activity = CanRetire | Working | Unreachable

  /** Where an `acquire_client` call is. */
  datatype Pc =
    | WantLock
    | Checking
    | WantSweep
    | InSweep
    | Deciding
    | Sleeping
    | Probing(worker: WorkerId)
    | Burying
    | Leasing(worker: WorkerId)
    | Launching
    | Launched(worker: WorkerId)
    | Inserted
    | Returning

  datatype Task = Acquire(profile: ProfileId, pc: Pc) | Sweeper

  datatype Candidate = Candidate(profile: ProfileId, worker: WorkerId)
  datatype IdleEntry = IdleEntry(profile: ProfileId, lastIdle: nat, lastUsed: nat)

  /** Where the sweep that holds the sweep lock is. */
  datatype Phase =
    | Snapshot
    | Probe(todo: seq<Candidate>)
    | BuryDead(profile: ProfileId, todo: seq<Candidate>)
    | Update(profile: ProfileId, activity: Activity, todo: seq<Candidate>)
    | FindUnreachable
    | Cull(todo: seq<Candidate>)
    | CullStop(profile: ProfileId, todo: seq<Candidate>)
    | CullBury(profile: ProfileId, todo: seq<Candidate>)
    | FindIdle
    | Collect(since: nat)
    | Plan(since: nat, idle: seq<IdleEntry>)
    | Evict(since: nat, idle: seq<IdleEntry>, evicted: nat, count: nat)
    | EvictStop(since: nat, profile: ProfileId, idle: seq<IdleEntry>, evicted: nat, count: nat)
    | EvictBury(since: nat, profile: ProfileId, idle: seq<IdleEntry>, evicted: nat, count: nat)
    | Unmark(profile: ProfileId)
    | Done(ok: bool)

  datatype Sweep = Sweep(owner: TaskId, pressure: bool, phase: Phase)

  datatype State = State(
    workers: map<ProfileId, Record>, launching: nat, usage: nat, now: nat, nextWorker: WorkerId,
    locks: map<ProfileId, TaskId>, tasks: map<TaskId, Task>, sweep: Option<Sweep>, sessions: multiset<ProfileId>)

  const INITIAL := State(map[], 0, 1, 0, 0, map[], map[], None, multiset{})

  datatype Label =
    | Tick
      // acquire_client
    | Call(task: TaskId, profile: ProfileId)
    | Lock(task: TaskId)
    | CheckCapacity(task: TaskId)
    | BeginSweep(task: TaskId)
    | Decide(task: TaskId)
    | Wake(task: TaskId)
    | ProbeWorker(task: TaskId, running: bool)
    | BuryWorker(task: TaskId)
    | Lease(task: TaskId)
    | LaunchSucceeds(task: TaskId)
    | LaunchFails(task: TaskId)
    | Insert(task: TaskId)
    | DropReservation(task: TaskId)
    | Return(task: TaskId)
    | Cancel(task: TaskId)
      // sessions
    | Release(profile: ProfileId)
      // sweeping
    | StartBackgroundSweep(task: TaskId)
    | TakeCandidates(found: seq<Candidate>)
    | ProbeCandidate(running: bool, activity: Activity)
    | BuryCandidate
    | UpdateCandidate
    | TakeUnreachable(found: seq<Candidate>)
    | MarkUnreachable
    | StopUnreachable(ok: bool)
    | BuryUnreachable
    | ReadClock
    | TakeIdle(entries: seq<IdleEntry>)
    | PlanEviction
    | MarkIdle
    | StopIdle(ok: bool)
    | BuryIdle
    | UnmarkFailed
    | EndSweep
    | Shutdown

  // ----- pieces -----

  function Pending(s: State): nat {
    |s.workers| + s.launching
  }

  predicate At(s: State, t: TaskId, pc: Pc) {
    t in s.tasks && s.tasks[t].Acquire? && s.tasks[t].pc == pc
  }

  function Profile(s: State, t: TaskId): ProfileId
    requires t in s.tasks && s.tasks[t].Acquire?
  {
    s.tasks[t].profile
  }

  function Goto(s: State, t: TaskId, pc: Pc): State
    requires t in s.tasks && s.tasks[t].Acquire?
  {
    s.(tasks := s.tasks[t := Acquire(s.tasks[t].profile, pc)])
  }

  /** The call ends: its launch lock is released with its frame. */
  function Leave(s: State, t: TaskId): State
    requires t in s.tasks
  {
    s.(tasks := s.tasks - {t}, locks := map p | p in s.locks && s.locks[p] != t :: s.locks[p])
  }

  function NewRecord(s: State, w: WorkerId): Record {
    Record(w, 1, s.now, s.usage, true, 0, false, [Leased], s.now)
  }

  function LeasedRecord(s: State, r: Record): Record {
    r.(clients := r.clients + 1, busy := true, failures := 0, lastUsed := s.usage, notes := r.notes + [Leased])
  }

  function ReleasedRecord(s: State, r: Record): Record {
    var left := if r.clients == 0 then 0 else r.clients - 1;
    r.(clients := left, lastIdle := if left == 0 then s.now else r.lastIdle, lastUsed := s.usage,
       inUseUntil := if r.clients > 0 then s.now else r.inUseUntil)
  }

  /** The activity update of the sweep. */
  function Observed(s: State, r: Record, a: Activity): Record {
    match a
    case CanRetire =>
      r.(failures := 0, lastIdle := if r.busy then s.now else r.lastIdle, busy := false, notes := r.notes + [Settled],
         inUseUntil := if r.busy then s.now else r.inUseUntil)
    case Working => r.(failures := 0, busy := true, lastIdle := s.now, notes := r.notes + [Active])
    case Unreachable =>
      r.(failures := r.failures + 1, busy := true, lastIdle := if r.failures == 0 then s.now else r.lastIdle,
         notes := r.notes + [Unhealthy])
  }

  predicate IsCandidate(r: Record) {
    r.clients == 0 && !r.retiring
  }

  predicate IsUnreachable(r: Record) {
    r.clients == 0 && !r.retiring && r.failures >= ACTIVITY_FAILURE_LIMIT
  }

  predicate IsIdle(r: Record) {
    r.clients == 0 && !r.busy && !r.retiring
  }

  predicate PastGrace(cfg: Config, since: nat, lastIdle: nat) {
    since >= lastIdle + cfg.grace || (cfg.grace == 0)
  }

  /** A listing of the records that satisfy the filter, in hash order. */
  predicate Lists(s: State, found: seq<Candidate>, keep: Record -> bool) {
    && (forall i, j :: 0 <= i < j < |found| ==> found[i].profile != found[j].profile)
    && (forall c :: c in found ==>
        c.profile in s.workers && s.workers[c.profile].worker == c.worker && keep(s.workers[c.profile]))
    && (forall p :: p in s.workers && keep(s.workers[p]) ==> Candidate(p, s.workers[p].worker) in found)
  }

  /** The idle records, least recently used first. */
  predicate ListsIdle(s: State, entries: seq<IdleEntry>) {
    && (forall e :: e in entries ==>
          e.profile in s.workers && IsIdle(s.workers[e.profile])
          && e.lastIdle == s.workers[e.profile].lastIdle && e.lastUsed == s.workers[e.profile].lastUsed)
    && (forall p :: p in s.workers && IsIdle(s.workers[p]) ==>
          IdleEntry(p, s.workers[p].lastIdle, s.workers[p].lastUsed) in entries)
    && (forall i, j :: 0 <= i < j < |entries| ==>
          entries[i].profile != entries[j].profile && entries[i].lastUsed <= entries[j].lastUsed)
  }

  function SetPhase(s: State, phase: Phase): State
    requires s.sweep.Some?
  {
    s.(sweep := Some(s.sweep.value.(phase := phase)))
  }

  function MarkRetiring(s: State, p: ProfileId): State
    requires p in s.workers
  {
    s.(workers := s.workers[p := s.workers[p].(retiring := true)])
  }

  /** Cancelling a call drops its frame: lock, reservation and, if it was sweeping, the sweep lock. */
  function Dropped(s: State, t: TaskId): State
    requires t in s.tasks
  {
    var reserved := s.tasks[t].Acquire? && (s.tasks[t].pc.Launching? || s.tasks[t].pc.Launched?);
    var s1 := Leave(s, t);
    s1.(launching := if reserved && s.launching > 0 then s.launching - 1 else s.launching,
        sweep := if s.sweep.Some? && s.sweep.value.owner == t then None else s.sweep)
  }

  // ----- the critical section of acquire_client that reserves, reuses or gives up -----

  function DecideStep(cfg: Config, s: State, t: TaskId): State
    requires At(s, t, Deciding)
  {
    var p := Profile(s, t);
    if p in s.workers then
      if s.workers[p].retiring then Goto(s, t, Sleeping) else Goto(s, t, Probing(s.workers[p].worker))
    else if Pending(s) < cfg.maxWorkers then Goto(s.(launching := s.launching + 1), t, Launching)
    else Leave(s, t)
  }

  function LeaseStep(s: State, t: TaskId): State
    requires t in s.tasks && s.tasks[t].Acquire? && s.tasks[t].pc.Leasing?
  {
    var p, w := Profile(s, t), s.tasks[t].pc.worker;
    if p !in s.workers || s.workers[p].retiring || s.workers[p].worker != w then Goto(s, t, Checking)
    else
      Goto(s.(workers := s.workers[p := LeasedRecord(s, s.workers[p])], usage := s.usage + 1,
              sessions := s.sessions + multiset{p}), t, Returning)
  }

  function InsertStep(s: State, t: TaskId): State
    requires t in s.tasks && s.tasks[t].Acquire? && s.tasks[t].pc.Launched?
  {
    var p := Profile(s, t);
    Goto(s.(workers := s.workers[p := NewRecord(s, s.tasks[t].pc.worker)], usage := s.usage + 1,
            sessions := s.sessions + multiset{p}), t, Inserted)
  }

  // ----- sweep steps -----

  function UpdateStep(s: State, p: ProfileId, a: Activity): State {
    if p !in s.workers || !IsCandidate(s.workers[p]) then s
    else s.(workers := s.workers[p := Observed(s, s.workers[p], a)])
  }

  function UnmarkStep(s: State, p: ProfileId): State {
    if p in s.workers then s.(workers := s.workers[p := s.workers[p].(retiring := false)]) else s
  }

  function SweepStep(cfg: Config, s: State, l: Label): Option<State>
    requires s.sweep.Some?
  {
    match (s.sweep.value.phase, l)
    case (Snapshot, TakeCandidates(found)) =>
      if Lists(s, found, IsCandidate) then Some(SetPhase(s, Probe(found))) else None
    case (Probe(todo), ProbeCandidate(running, activity)) =>
      if todo == [] then Some(SetPhase(s, FindUnreachable))
      else if running then Some(SetPhase(s, Update(todo[0].profile, activity, todo[1..])))
      else Some(SetPhase(s, BuryDead(todo[0].profile, todo[1..])))
    case (BuryDead(p, todo), BuryCandidate) => Some(SetPhase(s.(workers := s.workers - {p}), Probe(todo)))
    case (Update(p, a, todo), UpdateCandidate) => Some(SetPhase(UpdateStep(s, p, a), Probe(todo)))
    case (FindUnreachable, TakeUnreachable(found)) =>
      if Lists(s, found, IsUnreachable) then Some(SetPhase(s, Cull(found))) else None
    case (Cull(todo), MarkUnreachable) =>
      if todo == [] then Some(SetPhase(s, FindIdle))
      else
        var c := todo[0];
        if c.profile !in s.workers || !IsUnreachable(s.workers[c.profile]) || s.workers[c.profile].worker != c.worker
        then Some(SetPhase(s, Cull(todo[1..])))
        else Some(SetPhase(MarkRetiring(s, c.profile), CullStop(c.profile, todo[1..])))
    case (CullStop(p, todo), StopUnreachable(ok)) =>
      Some(SetPhase(s, if ok then CullBury(p, todo) else Unmark(p)))
    case (CullBury(p, todo), BuryUnreachable) => Some(SetPhase(s.(workers := s.workers - {p}), Cull(todo)))
    case (FindIdle, ReadClock) => Some(SetPhase(s, Collect(s.now)))
    case (Collect(since), TakeIdle(entries)) =>
      if ListsIdle(s, entries) then Some(SetPhase(s, Plan(since, entries))) else None
    case (Plan(since, idle), PlanEviction) =>
      var excess := if |idle| > cfg.maxIdle then |idle| - cfg.maxIdle else 0;
      var needed := if s.sweep.value.pressure && Pending(s) >= cfg.maxWorkers then 1 else 0;
      Some(SetPhase(s, Evict(since, idle, 0, if excess > needed then excess else needed)))
    case (Evict(since, idle, evicted, count), MarkIdle) =>
      if idle == [] || evicted >= count then Some(SetPhase(s, Done(true)))
      else
        var e := idle[0];
        if !PastGrace(cfg, since, e.lastIdle) || e.profile !in s.workers || !IsIdle(s.workers[e.profile])
           || !PastGrace(cfg, since, s.workers[e.profile].lastIdle)
        then Some(SetPhase(s, Evict(since, idle[1..], evicted, count)))
        else Some(SetPhase(MarkRetiring(s, e.profile), EvictStop(since, e.profile, idle[1..], evicted, count)))
    case (EvictStop(since, p, idle, evicted, count), StopIdle(ok)) =>
      Some(SetPhase(s, if ok then EvictBury(since, p, idle, evicted, count) else Unmark(p)))
    case (EvictBury(since, p, idle, evicted, count), BuryIdle) =>
      Some(SetPhase(s.(workers := s.workers - {p}), Evict(since, idle, evicted + 1, count)))
    case (Unmark(p), UnmarkFailed) => Some(SetPhase(UnmarkStep(s, p), Done(false)))
    case (Done(ok), EndSweep) =>
      var owner := s.sweep.value.owner;
      var s1 := s.(sweep := None);
      if At(s, owner, InSweep) then Some(if ok then Goto(s1, owner, Deciding) else Leave(s1, owner))
      else if owner in s.tasks && s.tasks[owner].Sweeper? then Some(Leave(s1, owner))
      else Some(s1)
    case _ => None
  }

  /** One step of the pool; None when the label is not enabled. */
  function Next(cfg: Config, s: State, l: Label): Option<State> {
    match l
    case Tick => Some(s.(now := s.now + 1))
    case Call(t, p) => if t in s.tasks then None else Some(s.(tasks := s.tasks[t := Acquire(p, WantLock)]))
    case Lock(t) =>
      if At(s, t, WantLock) && Profile(s, t) !in s.locks
      then Some(Goto(s.(locks := s.locks[Profile(s, t) := t]), t, Checking)) else None
    case CheckCapacity(t) =>
      if At(s, t, Checking)
      then Some(Goto(s, t, if Profile(s, t) !in s.workers && Pending(s) >= cfg.maxWorkers then WantSweep else Deciding))
      else None
    case BeginSweep(t) =>
      if At(s, t, WantSweep) && s.sweep.None?
      then Some(Goto(s.(sweep := Some(Sweep(t, true, Snapshot))), t, InSweep)) else None
    case Decide(t) => if At(s, t, Deciding) then Some(DecideStep(cfg, s, t)) else None
    case Wake(t) => if At(s, t, Sleeping) then Some(Goto(s, t, Checking)) else None
    case ProbeWorker(t, running) =>
      if t in s.tasks && s.tasks[t].Acquire? && s.tasks[t].pc.Probing?
      then Some(Goto(s, t, if running then Leasing(s.tasks[t].pc.worker) else Burying)) else None
    case BuryWorker(t) =>
      if At(s, t, Burying) then Some(Goto(s.(workers := s.workers - {Profile(s, t)}), t, Checking)) else None
    case Lease(t) =>
      if t in s.tasks && s.tasks[t].Acquire? && s.tasks[t].pc.Leasing? then Some(LeaseStep(s, t)) else None
    case LaunchSucceeds(t) =>
      if At(s, t, Launching) then Some(Goto(s.(nextWorker := s.nextWorker + 1), t, Launched(s.nextWorker))) else None
    case LaunchFails(t) => if At(s, t, Launching) then Some(Dropped(s, t)) else None
    case Insert(t) =>
      if t in s.tasks && s.tasks[t].Acquire? && s.tasks[t].pc.Launched? then Some(InsertStep(s, t)) else None
    case DropReservation(t) =>
      if At(s, t, Inserted) && s.launching > 0 then Some(Goto(s.(launching := s.launching - 1), t, Returning)) else None
    case Return(t) => if At(s, t, Returning) then Some(Leave(s, t)) else None
    case Cancel(t) =>
      if t in s.tasks && !At(s, t, Inserted) && !At(s, t, Returning) then Some(Dropped(s, t)) else None
    case Release(p) =>
      if p !in s.sessions then None
      else
        var s1 := s.(sessions := s.sessions - multiset{p});
        Some(if p in s.workers then s1.(workers := s.workers[p := ReleasedRecord(s, s.workers[p])],
            usage := s.usage + 1) else s1)
    case StartBackgroundSweep(t) =>
      if t !in s.tasks && s.sweep.None?
      then Some(s.(tasks := s.tasks[t := Sweeper], sweep := Some(Sweep(t, false, Snapshot)))) else None
    case Shutdown => if s.sweep.None? then Some(s.(workers := map[])) else None
    case _ => if s.sweep.Some? then SweepStep(cfg, s, l) else None
  }

  /** The state after a sequence of steps from the initial one; None if one was not enabled. */
  function After(cfg: Config, labels: seq<Label>): Option<State>
    decreases |labels|
  {
    if labels == [] then Some(INITIAL)
    else match After(cfg, labels[..|labels| - 1])
      case Some(s) => Next(cfg, s, labels[|labels| - 1])
      case None => None
  }
}
