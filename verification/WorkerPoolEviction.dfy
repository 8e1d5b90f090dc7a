/** The idle-eviction pass of a sweep that nothing interrupts is least-recently-used eviction. */
module WorkerPoolEviction {
  import opened Wrappers
  import opened WorkerPool
  import opened WorkerPoolProofs
  import opened WorkerPoolSafety

  /** Clientless, not known busy, not marked, and idle for the grace period at the sweep's clock reading. */
  predicate MayEvict(cfg: Config, since: nat, r: Record) {
    IsIdle(r) && PastGrace(cfg, since, r.lastIdle)
  }

  function Eligible(cfg: Config, since: nat, workers: map<ProfileId, Record>): set<ProfileId> {
    set p | p in workers && MayEvict(cfg, since, workers[p])
  }

  function Idle(workers: map<ProfileId, Record>): set<ProfileId> {
    set p | p in workers && IsIdle(workers[p])
  }

  /** How many workers the sweep sets out to evict. */
  function Quota(cfg: Config, s: State): nat
    requires s.sweep.Some?
  {
    var excess := if |Idle(s.workers)| > cfg.maxIdle then |Idle(s.workers)| - cfg.maxIdle else 0;
    var needed := if s.sweep.value.pressure && Pending(s) >= cfg.maxWorkers then 1 else 0;
    if excess > needed then excess else needed
  }

  /** From `before` to `after`, `count` workers go, or all that may if fewer may: the least recently used of those. */
  predicate EvictsLru(cfg: Config, since: nat, before: map<ProfileId, Record>, after: map<ProfileId, Record>,
      count: nat) {
    var gone := before.Keys - after.Keys;
    && after == before - gone
    && gone <= Eligible(cfg, since, before)
    && |gone| == (if count < |Eligible(cfg, since, before)| then count else |Eligible(cfg, since, before)|)
    && forall p, q :: p in gone && q in Eligible(cfg, since, before) && q !in gone ==>
         before[p].lastUsed < before[q].lastUsed
  }

  /** With distinct use numbers there is only one way to do that. */
  lemma LruIsUnique(
    cfg: Config, since: nat, before: map<ProfileId, Record>, one: map<ProfileId, Record>, two: map<ProfileId, Record>,
        count: nat)
    requires EvictsLru(cfg, since, before, one, count) && EvictsLru(cfg, since, before, two, count)
    ensures one == two
  {
    hide Eligible;
    var a, b := before.Keys - one.Keys, before.Keys - two.Keys;
    assert forall p, q :: p in a && q in b && q !in a ==> p in b;
    if a <= b {
      SameSize(a, b);
    } else {
      SameSize(b, a);
    }
  }

  lemma SameSize<T>(a: set<T>, b: set<T>)
    requires |a| == |b| && a <= b
    ensures a == b
  {
    assert b == a + (b - a);
  }

  predicate AllPastGrace(cfg: Config, since: nat, workers: map<ProfileId, Record>) {
    forall p :: p in Idle(workers) ==> PastGrace(cfg, since, workers[p].lastIdle)
  }

  /** If every idle worker is past its grace period, the pass leaves no more idle workers than allowed. */
  lemma IdleBounded(cfg: Config, since: nat, before: map<ProfileId, Record>, after: map<ProfileId, Record>, count: nat)
    requires EvictsLru(cfg, since, before, after, count) && count + cfg.maxIdle >= |Idle(before)|
    requires AllPastGrace(cfg, since, before)
    ensures |Idle(after)| <= cfg.maxIdle
  {
    hide PastGrace, IsIdle;
    var gone := before.Keys - after.Keys;
    assert Idle(before) == Eligible(cfg, since, before);
    IdleLeft(before, gone);
    Fewer(Idle(before), gone);
    hide Idle, Eligible;
  }

  lemma IdleLeft(before: map<ProfileId, Record>, gone: set<ProfileId>)
    ensures Idle(before - gone) == Idle(before) - gone
  {
    hide IsIdle;
  }

  lemma Fewer<T>(a: set<T>, b: set<T>)
    requires b <= a
    ensures |a - b| == |a| - |b|
  {
    assert a == (a - b) + b;
  }

  // ----- the loop -----

  /** The eligible workers among the first k entries. */
  function Passed(cfg: Config, since: nat, workers: map<ProfileId, Record>, entries: seq<IdleEntry>,
      k: nat): set<ProfileId>
    requires k <= |entries|
  {
    set j | 0 <= j < k && entries[j].profile in Eligible(cfg, since, workers) :: entries[j].profile
  }

  lemma PassedMore(cfg: Config, since: nat, s: State, entries: seq<IdleEntry>, k: nat)
    requires ListsIdle(s, entries) && k < |entries|
    ensures var p := entries[k].profile;
            p !in Passed(cfg, since, s.workers, entries, k)
            && Passed(cfg, since, s.workers, entries, k + 1)
               == if p in Eligible(cfg, since, s.workers) then Passed(cfg, since, s.workers, entries, k) + {p}
                  else Passed(cfg, since, s.workers, entries, k)
  {
    hide PastGrace, IsIdle, Eligible;
  }

  function Firsts(entries: seq<IdleEntry>, k: nat): set<ProfileId>
    requires k <= |entries|
  {
    set j | 0 <= j < k :: entries[j].profile
  }

  lemma {:induction false} FirstsCount(entries: seq<IdleEntry>, k: nat)
    requires k <= |entries| && forall i, j :: 0 <= i < j < |entries| ==> entries[i].profile != entries[j].profile
    ensures |Firsts(entries, k)| == k
  {
    if k == 0 {
    } else {
      FirstsCount(entries, k - 1);
      assert entries[k - 1].profile !in Firsts(entries, k - 1);
      assert Firsts(entries, k) == Firsts(entries, k - 1) + {entries[k - 1].profile};
    }
  }

  lemma ListedAll(s: State, entries: seq<IdleEntry>)
    requires ListsIdle(s, entries)
    ensures |entries| == |Idle(s.workers)|
    ensures forall p :: p in Idle(s.workers) ==> exists j :: 0 <= j < |entries| && entries[j].profile == p
  {
    FirstsCount(entries, |entries|);
    forall p | p in Idle(s.workers) ensures exists j :: 0 <= j < |entries| && entries[j].profile == p {
      assert IdleEntry(p, s.workers[p].lastIdle, s.workers[p].lastUsed) in entries;
    }
    assert Firsts(entries, |entries|) == Idle(s.workers);
  }

  /** The passed workers were used before every other eligible one. */
  lemma PassedFirst(cfg: Config, since: nat, s: State, entries: seq<IdleEntry>, k: nat, p: ProfileId, q: ProfileId)
    requires ListsIdle(s, entries) && k <= |entries| && UsesDistinct(s.workers)
    requires p in Passed(cfg, since, s.workers, entries, k) && q in Eligible(cfg, since, s.workers)
    requires q !in Passed(cfg, since, s.workers, entries, k)
    ensures p in s.workers && s.workers[p].lastUsed < s.workers[q].lastUsed
  {
    hide PastGrace;
    ListedAll(s, entries);
    var i :| 0 <= i < k && entries[i].profile == p;
    assert q in Idle(s.workers);
    var j :| 0 <= j < |entries| && entries[j].profile == q;
    assert k <= j;
  }

  lemma PassedAll(cfg: Config, since: nat, s: State, entries: seq<IdleEntry>)
    requires ListsIdle(s, entries)
    ensures Passed(cfg, since, s.workers, entries, |entries|) == Eligible(cfg, since, s.workers)
  {
    hide PastGrace;
    ListedAll(s, entries);
    forall q | q in Eligible(cfg, since, s.workers) ensures q in Passed(cfg, since, s.workers, entries, |entries|) {
      assert q in Idle(s.workers);
    }
  }

  lemma PassedEligible(cfg: Config, since: nat, workers: map<ProfileId, Record>, entries: seq<IdleEntry>, k: nat)
    requires k <= |entries|
    ensures Passed(cfg, since, workers, entries, k) <= Eligible(cfg, since, workers) <= workers.Keys
  {
    hide MayEvict;
  }

  /** Stopping after k entries, because the quota is met or the list is done, has evicted the right number. */
  lemma PassedCount(cfg: Config, since: nat, s: State, entries: seq<IdleEntry>, k: nat, count: nat)
    requires ListsIdle(s, entries) && k <= |entries|
    requires |Passed(cfg, since, s.workers, entries, k)| <= count
    requires k == |entries| || |Passed(cfg, since, s.workers, entries, k)| == count
    ensures var n := |Eligible(cfg, since, s.workers)|;
            |Passed(cfg, since, s.workers, entries, k)| == if count < n then count else n
  {
    hide Passed, Eligible, ListsIdle;
    PassedEligible(cfg, since, s.workers, entries, k);
    if k == |entries| {
      PassedAll(cfg, since, s, entries);
    } else {
      Fewer(Eligible(cfg, since, s.workers), Passed(cfg, since, s.workers, entries, k));
    }
  }

  /** ... and the right workers. */
  lemma PassedIsLru(cfg: Config, since: nat, s: State, entries: seq<IdleEntry>, k: nat, count: nat)
    requires ListsIdle(s, entries) && k <= |entries| && UsesDistinct(s.workers)
    requires |Passed(cfg, since, s.workers, entries, k)| <= count
    requires k == |entries| || |Passed(cfg, since, s.workers, entries, k)| == count
    ensures EvictsLru(cfg, since, s.workers, s.workers - Passed(cfg, since, s.workers, entries, k), count)
  {
    hide Passed, Eligible, ListsIdle, UsesDistinct;
    var passed, eligible := Passed(cfg, since, s.workers, entries, k), Eligible(cfg, since, s.workers);
    PassedEligible(cfg, since, s.workers, entries, k);
    PassedCount(cfg, since, s, entries, k, count);
    assert s.workers.Keys - (s.workers - passed).Keys == passed;
    forall p, q | p in passed && q in eligible && q !in passed
      ensures s.workers[p].lastUsed < s.workers[q].lastUsed
    {
      PassedFirst(cfg, since, s, entries, k, p, q);
    }
  }

  /** The labels of a pass that nothing interrupts and whose stops succeed. */
  predicate Quiet(l: Label) {
    l == PlanEviction || l == MarkIdle || l == StopIdle(true) || l == BuryIdle || l.TakeIdle?
  }

  /** Where the pass stands after k entries. */
  predicate Passing(cfg: Config, since: nat, s: State, cur: State, entries: seq<IdleEntry>, k: nat, evicted: nat,
      count: nat)
    requires s.sweep.Some?
  {
    && k <= |entries|
    && evicted == |Passed(cfg, since, s.workers, entries, k)| <= count
    && cur == SetPhase(s.(workers := s.workers - Passed(cfg, since, s.workers, entries, k)),
        Evict(since, entries[k..], evicted, count))
  }

  lemma PassLists(cfg: Config, since: nat, s: State, entries: seq<IdleEntry>)
    requires s.sweep.Some? && s.sweep.value.phase == Collect(since) && ListsIdle(s, entries)
    ensures Next(cfg, s, TakeIdle(entries)) == Some(SetPhase(s, Plan(since, entries)))
  {
    hide ListsIdle, Lists, At, Pending;
  }

  lemma PassPlans(cfg: Config, since: nat, s: State, entries: seq<IdleEntry>, planned: State, next: State)
    requires s.sweep.Some? && ListsIdle(s, entries) && planned == SetPhase(s, Plan(since, entries))
    requires next == SetPhase(s, Evict(since, entries, 0, Quota(cfg, s)))
    ensures Next(cfg, planned, PlanEviction) == Some(next)
  {
    ListedAll(s, entries);
    hide ListsIdle, Lists, At;
  }

  lemma PassBegins(cfg: Config, since: nat, s: State, entries: seq<IdleEntry>, next: State)
    requires s.sweep.Some? && next == SetPhase(s, Evict(since, entries, 0, Quota(cfg, s)))
    ensures Passing(cfg, since, s, next, entries, 0, 0, Quota(cfg, s))
  {
    hide Quota, Eligible;
    assert Passed(cfg, since, s.workers, entries, 0) == {};
    assert s.workers - {} == s.workers;
    assert entries[0..] == entries;
  }

  lemma PassSkips(cfg: Config, since: nat, s: State, cur: State, entries: seq<IdleEntry>, k: nat, evicted: nat,
      count: nat)
    requires s.sweep.Some? && ListsIdle(s, entries) && Passing(cfg, since, s, cur, entries, k, evicted, count)
    requires k < |entries| && evicted < count && entries[k].profile !in Eligible(cfg, since, s.workers)
    ensures Next(cfg, cur, MarkIdle).Some?
        && Passing(cfg, since, s, Next(cfg, cur, MarkIdle).value, entries, k + 1, evicted, count)
  {
    hide PastGrace, Lists, At, Pending;
    PassedMore(cfg, since, s, entries, k);
    assert entries[k] in entries;
    assert entries[k..][1..] == entries[k + 1..];
  }

  /** An eligible worker not passed yet is still recorded as it was. */
  lemma StillThere(cfg: Config, since: nat, s: State, cur: State, entries: seq<IdleEntry>, k: nat, evicted: nat,
      count: nat)
    requires s.sweep.Some? && ListsIdle(s, entries) && Passing(cfg, since, s, cur, entries, k, evicted, count)
    requires k < |entries| && entries[k].profile in Eligible(cfg, since, s.workers)
    ensures var p := entries[k].profile;
            p in cur.workers && MayEvict(cfg, since, cur.workers[p]) && entries[k].lastIdle == cur.workers[p].lastIdle
  {
    hide PastGrace, IsIdle;
    PassedMore(cfg, since, s, entries, k);
    assert entries[k] in entries;
  }

  lemma MarkStep(cfg: Config, cur: State, since: nat, idle: seq<IdleEntry>, evicted: nat, count: nat)
    requires cur.sweep.Some? && cur.sweep.value.phase == Evict(since, idle, evicted, count)
    requires idle != [] && evicted < count && idle[0].profile in cur.workers
    requires MayEvict(cfg, since, cur.workers[idle[0].profile])
        && idle[0].lastIdle == cur.workers[idle[0].profile].lastIdle
    ensures Next(cfg, cur, MarkIdle)
         == Some(SetPhase(MarkRetiring(cur, idle[0].profile),
             EvictStop(since, idle[0].profile, idle[1..], evicted, count)))
  {
    hide PastGrace, Lists, ListsIdle, At, Pending;
  }

  lemma PassStops(cfg: Config, marked: State, since: nat, p: ProfileId, idle: seq<IdleEntry>, evicted: nat, count: nat)
    requires marked.sweep.Some? && marked.sweep.value.phase == EvictStop(since, p, idle, evicted, count)
    ensures var stopped := SetPhase(marked, EvictBury(since, p, idle, evicted, count));
            Next(cfg, marked, StopIdle(true)) == Some(stopped)
            && Next(cfg, stopped, BuryIdle) ==
                Some(SetPhase(marked.(workers := marked.workers - {p}), Evict(since, idle, evicted + 1, count)))
  {
    hide Next, SweepStep;
    StopStep(cfg, marked, since, p, idle, evicted, count);
    BuryStep(cfg, SetPhase(marked, EvictBury(since, p, idle, evicted, count)), since, p, idle, evicted, count);
  }

  lemma StopStep(cfg: Config, cur: State, since: nat, p: ProfileId, idle: seq<IdleEntry>, evicted: nat, count: nat)
    requires cur.sweep.Some? && cur.sweep.value.phase == EvictStop(since, p, idle, evicted, count)
    ensures Next(cfg, cur, StopIdle(true)) == Some(SetPhase(cur, EvictBury(since, p, idle, evicted, count)))
  {
    hide ListsIdle, Lists, At, Pending, PastGrace, UpdateStep, UnmarkStep, MarkRetiring;
    SweepLabels(cfg, cur, StopIdle(true));
    hide Next;
  }

  lemma MarkThenBury(workers: map<ProfileId, Record>, gone: set<ProfileId>, p: ProfileId, r: Record)
    ensures (workers - gone)[p := r] - {p} == workers - (gone + {p})
  {
  }

  lemma PassBuries(cfg: Config, since: nat, s: State, cur: State, entries: seq<IdleEntry>, k: nat, evicted: nat,
      count: nat)
    requires s.sweep.Some? && ListsIdle(s, entries) && Passing(cfg, since, s, cur, entries, k, evicted, count)
    requires k < |entries| && evicted < count && entries[k].profile in Eligible(cfg, since, s.workers)
        && entries[k].profile in cur.workers
    ensures Passing(cfg, since, s, Buried(cur, entries[k].profile, since, entries[k + 1..], evicted, count), entries,
        k + 1, evicted + 1, count)
  {
    PassedMore(cfg, since, s, entries, k);
    hide ListsIdle, Eligible, Passed;
    var p := entries[k].profile;
    MarkThenBury(s.workers, Passed(cfg, since, s.workers, entries, k), p, MarkRetiring(cur, p).workers[p]);
  }

  function Buried(cur: State, p: ProfileId, since: nat, rest: seq<IdleEntry>, evicted: nat, count: nat): State
    requires cur.sweep.Some? && p in cur.workers
  {
    SetPhase(cur.(workers := MarkRetiring(cur, p).workers - {p}), Evict(since, rest, evicted + 1, count))
  }

  /** The three steps that evict the next entry. */
  method EvictNext(
    cfg: Config, before: seq<Label>, labels: seq<Label>, since: nat, s: State, cur: State, entries: seq<IdleEntry>,
        k: nat, evicted: nat, count: nat)
    returns (more: seq<Label>, next: State)
    requires s.sweep.Some? && ListsIdle(s, entries) && Passing(cfg, since, s, cur, entries, k, evicted, count)
    requires k < |entries| && evicted < count && entries[k].profile in Eligible(cfg, since, s.workers)
    requires After(cfg, before + labels) == Some(cur) && forall l :: l in labels ==> Quiet(l)
    ensures After(cfg, before + more) == Some(next) && forall l :: l in more ==> Quiet(l)
    ensures Passing(cfg, since, s, next, entries, k + 1, evicted + 1, count)
  {
    hide Next, After, ListsIdle, Eligible, Passed, MayEvict, EvictsLru;
    var p, rest := entries[k].profile, entries[k + 1..];
    assert entries[k..][0] == entries[k] && entries[k..][1..] == rest;
    StillThere(cfg, since, s, cur, entries, k, evicted, count);
    MarkStep(cfg, cur, since, entries[k..], evicted, count);
    var marked := SetPhase(MarkRetiring(cur, p), EvictStop(since, p, rest, evicted, count));
    PassStops(cfg, marked, since, p, rest, evicted, count);
    var stopped := SetPhase(marked, EvictBury(since, p, rest, evicted, count));
    next := Buried(cur, p, since, rest, evicted, count);
    PassBuries(cfg, since, s, cur, entries, k, evicted, count);
    hide Passing;
    more := Follow(cfg, before, labels, cur, MarkIdle, marked);
    more := Follow(cfg, before, more, marked, StopIdle(true), stopped);
    more := Follow(cfg, before, more, stopped, BuryIdle, next);
  }

  method SkipNext(
    cfg: Config, before: seq<Label>, labels: seq<Label>, since: nat, s: State, cur: State, entries: seq<IdleEntry>,
        k: nat, evicted: nat, count: nat)
    returns (more: seq<Label>, next: State)
    requires s.sweep.Some? && ListsIdle(s, entries) && Passing(cfg, since, s, cur, entries, k, evicted, count)
    requires k < |entries| && evicted < count && entries[k].profile !in Eligible(cfg, since, s.workers)
    requires After(cfg, before + labels) == Some(cur) && forall l :: l in labels ==> Quiet(l)
    ensures After(cfg, before + more) == Some(next) && forall l :: l in more ==> Quiet(l)
    ensures Passing(cfg, since, s, next, entries, k + 1, evicted, count)
  {
    hide Next, After, ListsIdle, Eligible, Passing, EvictsLru;
    PassSkips(cfg, since, s, cur, entries, k, evicted, count);
    next := Next(cfg, cur, MarkIdle).value;
    more := Follow(cfg, before, labels, cur, MarkIdle, next);
  }

  lemma PassingEnds(cfg: Config, since: nat, s: State, cur: State, entries: seq<IdleEntry>, k: nat, evicted: nat,
      count: nat)
    requires s.sweep.Some? && ListsIdle(s, entries) && Passing(cfg, since, s, cur, entries, k, evicted, count)
        && UsesDistinct(s.workers)
    requires k == |entries| || evicted == count
    ensures EvictsLru(cfg, since, s.workers, cur.workers, count)
    ensures cur.sweep.Some? && SetPhase(cur, Done(true)) == SetPhase(s.(workers := cur.workers), Done(true))
  {
    hide EvictsLru, ListsIdle, UsesDistinct, Passed;
    PassedIsLru(cfg, since, s, entries, k, count);
  }

  lemma PassDone(cfg: Config, since: nat, s: State, cur: State, entries: seq<IdleEntry>, k: nat, evicted: nat,
      count: nat)
    requires s.sweep.Some? && Passing(cfg, since, s, cur, entries, k, evicted, count)
    requires k == |entries| || evicted == count
    ensures Next(cfg, cur, MarkIdle) == Some(SetPhase(cur, Done(true)))
  {
    hide ListsIdle, Lists, At, Pending, Passed;
  }

  // ----- every pass that nothing interrupts -----

  /** The pass has taken up entry k, which is eligible. */
  ghost predicate Midway(
    cfg: Config, since: nat, s: State, was: State, entries: seq<IdleEntry>, k: nat, p: ProfileId, evicted: nat,
        count: nat)
    requires s.sweep.Some?
  {
    && Passing(cfg, since, s, was, entries, k, evicted, count)
    && k < |entries| && evicted < count && entries[k].profile == p && p in Eligible(cfg, since, s.workers)
        && p in was.workers
  }

  /** Where a pass that nothing interrupts can be. */
  ghost predicate QuietAt(cfg: Config, since: nat, s: State, cur: State)
    requires s.sweep.Some?
  {
    && cur.sweep.Some?
    && match cur.sweep.value.phase
       case Collect(_) => cur == s
       case Plan(_, entries) => ListsIdle(s, entries) && cur == SetPhase(s, Plan(since, entries))
       case Evict(_, _, evicted, count) =>
         count == Quota(cfg, s)
         && exists entries, k: nat :: ListsIdle(s, entries) && Passing(cfg, since, s, cur, entries, k, evicted, count)
       case EvictStop(_, p, _, evicted, count) =>
         count == Quota(cfg, s)
         && exists entries, k: nat, was ::
              ListsIdle(s, entries) && Midway(cfg, since, s, was, entries, k, p, evicted, count)
              && cur == SetPhase(MarkRetiring(was, p), EvictStop(since, p, entries[k + 1..], evicted, count))
       case EvictBury(_, p, _, evicted, count) =>
         count == Quota(cfg, s)
         && exists entries, k: nat, was ::
              ListsIdle(s, entries) && Midway(cfg, since, s, was, entries, k, p, evicted, count)
              && cur == SetPhase(MarkRetiring(was, p), EvictBury(since, p, entries[k + 1..], evicted, count))
       case Done(ok) =>
         ok && cur == SetPhase(s.(workers := cur.workers), Done(true))
         && EvictsLru(cfg, since, s.workers, cur.workers, Quota(cfg, s))
       case _ => false
  }

  /** Each quiet label is enabled in one phase only. */
  lemma QuietLabels(cfg: Config, cur: State, l: Label)
    requires Quiet(l) && cur.sweep.Some? && Next(cfg, cur, l).Some?
    ensures var phase := cur.sweep.value.phase;
            && (l.TakeIdle? <==> phase.Collect?) && (l == PlanEviction <==> phase.Plan?)
                && (l == MarkIdle <==> phase.Evict?)
            && (l == StopIdle(true) <==> phase.EvictStop?) && (l == BuryIdle <==> phase.EvictBury?)
            && (phase.Collect? || phase.Plan? || phase.Evict? || phase.EvictStop? || phase.EvictBury?)
    ensures l.TakeIdle? ==> ListsIdle(cur, l.entries)
  {
    hide ListsIdle, Lists, At, Pending;
  }

  lemma QuietMark(
    cfg: Config, since: nat, s: State, cur: State, entries: seq<IdleEntry>, k: nat, evicted: nat, count: nat,
        next: State)
    requires s.sweep.Some? && ListsIdle(s, entries) && UsesDistinct(s.workers) && count == Quota(cfg, s)
    requires Passing(cfg, since, s, cur, entries, k, evicted, count) && Next(cfg, cur, MarkIdle) == Some(next)
    ensures QuietAt(cfg, since, s, next)
  {
    hide Next, ListsIdle, UsesDistinct, Quota, EvictsLru, Eligible, Passed;
    if k == |entries| || evicted == count {
      PassDone(cfg, since, s, cur, entries, k, evicted, count);
      PassingEnds(cfg, since, s, cur, entries, k, evicted, count);
    } else if entries[k].profile !in Eligible(cfg, since, s.workers) {
      PassSkips(cfg, since, s, cur, entries, k, evicted, count);
      assert Passing(cfg, since, s, next, entries, k + 1, evicted, count);
    } else {
      var p := entries[k].profile;
      StillThere(cfg, since, s, cur, entries, k, evicted, count);
      assert entries[k..][0] == entries[k] && entries[k..][1..] == entries[k + 1..];
      MarkStep(cfg, cur, since, entries[k..], evicted, count);
      assert Midway(cfg, since, s, cur, entries, k, p, evicted, count);
    }
  }

  lemma QuietStop(cfg: Config, since: nat, s: State, cur: State, next: State)
    requires s.sweep.Some? && QuietAt(cfg, since, s, cur) && cur.sweep.value.phase.EvictStop?
    requires Next(cfg, cur, StopIdle(true)) == Some(next)
    ensures QuietAt(cfg, since, s, next)
  {
    hide Next, ListsIdle, Quota, Midway, MarkRetiring;
    var phase := cur.sweep.value.phase;
    PassStops(cfg, cur, phase.since, phase.profile, phase.idle, phase.evicted, phase.count);
  }

  lemma BuryPasses(
    cfg: Config, since: nat, s: State, was: State, entries: seq<IdleEntry>, k: nat, p: ProfileId, evicted: nat,
    count: nat, cur: State, next: State)
    requires s.sweep.Some? && ListsIdle(s, entries) && Midway(cfg, since, s, was, entries, k, p, evicted, count)
    requires was.sweep.Some?
    requires cur == SetPhase(MarkRetiring(was, p), EvictBury(since, p, entries[k + 1..], evicted, count))
    requires Next(cfg, cur, BuryIdle) == Some(next)
    ensures Passing(cfg, since, s, next, entries, k + 1, evicted + 1, count)
    ensures next.sweep.Some? && next.sweep.value.phase == Evict(since, entries[k + 1..], evicted + 1, count)
  {
    hide Next, ListsIdle, Eligible, Passed, Passing;
    BuryStep(cfg, cur, since, p, entries[k + 1..], evicted, count);
    PassBuries(cfg, since, s, was, entries, k, evicted, count);
    assert next == Buried(was, p, since, entries[k + 1..], evicted, count);
  }

  lemma QuietBury(cfg: Config, since: nat, s: State, cur: State, next: State)
    requires s.sweep.Some? && QuietAt(cfg, since, s, cur) && cur.sweep.value.phase.EvictBury?
    requires Next(cfg, cur, BuryIdle) == Some(next)
    ensures QuietAt(cfg, since, s, next)
  {
    hide Next, ListsIdle, Quota, Eligible, Passed;
    var phase := cur.sweep.value.phase;
    var p, evicted, count := phase.profile, phase.evicted, phase.count;
    var entries, k: nat, was :|
      ListsIdle(s, entries) && Midway(cfg, since, s, was, entries, k, p, evicted, count)
      && cur == SetPhase(MarkRetiring(was, p), EvictBury(since, p, entries[k + 1..], evicted, count));
    BuryPasses(cfg, since, s, was, entries, k, p, evicted, count, cur, next);
  }

  lemma BuryStep(cfg: Config, cur: State, since: nat, p: ProfileId, idle: seq<IdleEntry>, evicted: nat, count: nat)
    requires cur.sweep.Some? && cur.sweep.value.phase == EvictBury(since, p, idle, evicted, count)
    ensures Next(cfg, cur, BuryIdle) ==
        Some(SetPhase(cur.(workers := cur.workers - {p}), Evict(since, idle, evicted + 1, count)))
  {
    hide ListsIdle, Lists, At, Pending, PastGrace, UpdateStep, UnmarkStep, MarkRetiring;
    SweepLabels(cfg, cur, BuryIdle);
    hide Next;
  }

  lemma QuietPlan(cfg: Config, since: nat, s: State, entries: seq<IdleEntry>, next: State)
    requires s.sweep.Some? && ListsIdle(s, entries)
    requires Next(cfg, SetPhase(s, Plan(since, entries)), PlanEviction) == Some(next)
    ensures QuietAt(cfg, since, s, next)
  {
    hide Next, ListsIdle, Quota;
    var begun := SetPhase(s, Evict(since, entries, 0, Quota(cfg, s)));
    PassPlans(cfg, since, s, entries, SetPhase(s, Plan(since, entries)), begun);
    PassBegins(cfg, since, s, entries, begun);
  }

  /** One quiet step. */
  lemma QuietStep(cfg: Config, since: nat, s: State, cur: State, l: Label, next: State)
    requires s.sweep.Some? && s.sweep.value.phase == Collect(since) && UsesDistinct(s.workers)
    requires QuietAt(cfg, since, s, cur) && Quiet(l) && Next(cfg, cur, l) == Some(next)
    ensures QuietAt(cfg, since, s, next)
  {
    hide Next, ListsIdle, Quota, UsesDistinct, Passing, Midway, EvictsLru;
    QuietLabels(cfg, cur, l);
    match cur.sweep.value.phase
    case Collect(_) => PassLists(cfg, since, s, l.entries);
    case Plan(_, entries) => QuietPlan(cfg, since, s, entries, next);
    case Evict(_, _, evicted, count) =>
      var entries, k: nat :| ListsIdle(s, entries) && Passing(cfg, since, s, cur, entries, k, evicted, count);
      QuietMark(cfg, since, s, cur, entries, k, evicted, count, next);
    case EvictStop(_, _, _, _, _) => QuietStop(cfg, since, s, cur, next);
    case EvictBury(_, _, _, _, _) => QuietBury(cfg, since, s, cur, next);
    case _ =>
  }

  lemma {:induction false} QuietRun(cfg: Config, before: seq<Label>, s: State, labels: seq<Label>, cur: State)
    requires After(cfg, before) == Some(s) && s.sweep.Some? && s.sweep.value.phase.Collect?
    requires After(cfg, before + labels) == Some(cur) && forall l :: l in labels ==> Quiet(l)
    ensures QuietAt(cfg, s.sweep.value.phase.since, s, cur)
    decreases |labels|
  {
    hide Next, After, QuietAt, Capacity, LocksHeld, LaunchesAbsent, RecordsOk, UsesDistinct, ClockOk, Quiet;
    var since := s.sweep.value.phase.since;
    if labels == [] {
      assert before + labels == before;
      QuietStart(cfg, since, s);
    } else {
      var n := |labels| - 1;
      assert before + labels == before + labels[..n] + [labels[n]];
      Extend(cfg, before + labels[..n], labels[n]);
      var mid := After(cfg, before + labels[..n]).value;
      QuietRun(cfg, before, s, labels[..n], mid);
      AlwaysInv(cfg, before);
      QuietStep(cfg, since, s, mid, labels[n], cur);
    }
  }

  lemma QuietStart(cfg: Config, since: nat, s: State)
    requires s.sweep.Some? && s.sweep.value.phase == Collect(since)
    ensures QuietAt(cfg, since, s, s)
  {
  }

  /** MAIN THEOREM on eviction. From any reachable state in which a sweep is about to list its idle
      workers, every run of the pass that nothing interrupts and whose stops succeed evicts exactly the
      sweep's quota of eligible workers, or all of them, the least recently used first, and changes
      nothing else; and if every idle worker was past its grace period, at most the allowed number are
      left idle. */
  lemma QuietPassEvictsLru(cfg: Config, before: seq<Label>, s: State, labels: seq<Label>, done: State)
    requires After(cfg, before) == Some(s) && s.sweep.Some? && s.sweep.value.phase.Collect?
    requires After(cfg, before + labels) == Some(done) && forall l :: l in labels ==> Quiet(l)
    requires done.sweep.Some? && done.sweep.value.phase.Done?
    ensures EvictsLru(cfg, s.sweep.value.phase.since, s.workers, done.workers, Quota(cfg, s))
    ensures done == SetPhase(s.(workers := done.workers), Done(true))
    ensures AllPastGrace(cfg, s.sweep.value.phase.since, s.workers) ==> |Idle(done.workers)| <= cfg.maxIdle
  {
    hide After, Quiet, EvictsLru, Idle, AllPastGrace;
    QuietRun(cfg, before, s, labels, done);
    if AllPastGrace(cfg, s.sweep.value.phase.since, s.workers) {
      IdleBounded(cfg, s.sweep.value.phase.since, s.workers, done.workers, Quota(cfg, s));
    }
  }

  /** Such a run exists from any reachable state and for any order in which the idle workers are listed:
      the loop of the sweep, driven step by step. */
  method QuietEviction(cfg: Config, before: seq<Label>, s: State, entries: seq<IdleEntry>)
      returns (labels: seq<Label>, done: State)
    requires After(cfg, before) == Some(s)
    requires s.sweep.Some? && s.sweep.value.phase.Collect? && ListsIdle(s, entries)
    ensures After(cfg, before + labels) == Some(done) && forall l :: l in labels ==> Quiet(l)
    ensures EvictsLru(cfg, s.sweep.value.phase.since, s.workers, done.workers, Quota(cfg, s))
    ensures done == SetPhase(s.(workers := done.workers), Done(true))
  {
    hide Next, After, ListsIdle, Quota, EvictsLru, Passing, Capacity, LocksHeld, LaunchesAbsent, RecordsOk,
        UsesDistinct, ClockOk;
    var since, count := s.sweep.value.phase.since, Quota(cfg, s);
    AlwaysInv(cfg, before);
    var planned, cur := SetPhase(s, Plan(since, entries)), SetPhase(s, Evict(since, entries, 0, count));
    PassLists(cfg, since, s, entries);
    PassPlans(cfg, since, s, entries, planned, cur);
    assert before + [] == before;
    labels := Follow(cfg, before, [], s, TakeIdle(entries), planned);
    labels := Follow(cfg, before, labels, planned, PlanEviction, cur);
    PassBegins(cfg, since, s, entries, cur);
    var k, evicted := 0, 0;
    while k < |entries| && evicted < count
      invariant k <= |entries| && evicted <= count
      invariant Passing(cfg, since, s, cur, entries, k, evicted, count)
      invariant After(cfg, before + labels) == Some(cur) && forall l :: l in labels ==> Quiet(l)
    {
      if entries[k].profile in Eligible(cfg, since, s.workers) {
        labels, cur := EvictNext(cfg, before, labels, since, s, cur, entries, k, evicted, count);
        evicted := evicted + 1;
      } else {
        labels, cur := SkipNext(cfg, before, labels, since, s, cur, entries, k, evicted, count);
      }
      k := k + 1;
    }
    PassingEnds(cfg, since, s, cur, entries, k, evicted, count);
    PassDone(cfg, since, s, cur, entries, k, evicted, count);
    done := SetPhase(cur, Done(true));
    labels := Follow(cfg, before, labels, cur, MarkIdle, done);
  }

  method Follow(cfg: Config, before: seq<Label>, labels: seq<Label>, s: State, l: Label, next: State)
      returns (more: seq<Label>)
    requires After(cfg, before + labels) == Some(s) && Next(cfg, s, l) == Some(next)
    requires Quiet(l) && forall k :: k in labels ==> Quiet(k)
    ensures After(cfg, before + more) == Some(next) && forall k :: k in more ==> Quiet(k)
  {
    hide Next, After;
    more := labels + [l];
    assert before + more == before + labels + [l];
    Extend(cfg, before + labels, l);
  }
}
