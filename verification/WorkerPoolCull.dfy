/** The part of a sweep that removes unreachable workers: an uninterrupted pass removes them all and no other. */
module WorkerPoolCull {
  import opened Wrappers
  import opened WorkerPool
  import opened WorkerPoolProofs
  import opened WorkerPoolSafety

  /** A step of the pass whose stops succeed. */
  predicate Culls(l: Label) {
    l == MarkUnreachable || l == StopUnreachable(true) || l == BuryUnreachable
  }

  function Named(found: seq<Candidate>, k: nat): set<ProfileId>
    requires k <= |found|
  {
    set i | 0 <= i < k :: found[i].profile
  }

  lemma NamedMore(found: seq<Candidate>, k: nat)
    requires k < |found|
    ensures Named(found, k + 1) == Named(found, k) + {found[k].profile}
  {
  }

  /** The record of the k-th found worker, marked, among those not removed yet. */
  predicate Stopping(s: State, found: seq<Candidate>, cur: State, k: nat, p: ProfileId, todo: seq<Candidate>) {
    && k < |found| && p == found[k].profile && p in s.workers && todo == found[k + 1..]
    && cur.workers == (s.workers - Named(found, k))[p := s.workers[p].(retiring := true)]
  }

  /** The pass that started in s is at the k-th found worker. */
  predicate Culling(s: State, found: seq<Candidate>, cur: State, k: nat) {
    && k <= |found| && s.sweep.Some? && cur.sweep.Some?
    && cur == s.(workers := cur.workers, sweep := Some(s.sweep.value.(phase := cur.sweep.value.phase)))
    && match cur.sweep.value.phase
       case Cull(todo) => todo == found[k..] && cur.workers == s.workers - Named(found, k)
       case CullStop(p, todo) => Stopping(s, found, cur, k, p, todo)
       case CullBury(p, todo) => Stopping(s, found, cur, k, p, todo)
       case FindIdle => k == |found| && cur.workers == s.workers - Named(found, k)
       case _ => false
  }

  lemma StillUnreachable(s: State, found: seq<Candidate>, k: nat)
    requires Lists(s, found, IsUnreachable) && k < |found|
    ensures var c := found[k];
            c.profile in s.workers && c.profile !in Named(found, k) && IsUnreachable(s.workers[c.profile])
            && s.workers[c.profile].worker == c.worker
  {
    hide IsUnreachable;
    assert found[k] in found;
  }

  lemma MarkCulls(cfg: Config, s: State, found: seq<Candidate>, cur: State, k: nat, next: State) returns (k': nat)
    requires Lists(s, found, IsUnreachable) && Culling(s, found, cur, k)
        && SweepStep(cfg, cur, MarkUnreachable) == Some(next)
    ensures Culling(s, found, next, k')
  {
    hide Lists, ListsIdle, Pending, At, IsUnreachable, Named;
    k' := k;
    if k < |found| {
      StillUnreachable(s, found, k);
      assert found[k..][0] == found[k] && found[k..][1..] == found[k + 1..];
      assert cur.workers[found[k].profile] == s.workers[found[k].profile];
    }
  }

  lemma StopCulls(cfg: Config, s: State, found: seq<Candidate>, cur: State, k: nat, l: Label, next: State)
      returns (k': nat)
    requires Culling(s, found, cur, k) && SweepStep(cfg, cur, l) == Some(next)
    requires l == StopUnreachable(true) || l == BuryUnreachable
    ensures Culling(s, found, next, k')
  {
    hide Lists, ListsIdle, Pending, At, Named;
    k' := k;
    if l == BuryUnreachable {
      var p := found[k].profile;
      NamedMore(found, k);
      BuryMarked(s.workers, Named(found, k), p, s.workers[p].(retiring := true));
      k' := k + 1;
    }
  }

  lemma BuryMarked(workers: map<ProfileId, Record>, gone: set<ProfileId>, p: ProfileId, r: Record)
    ensures (workers - gone)[p := r] - {p} == workers - (gone + {p})
  {
  }

  lemma CullStep(cfg: Config, s: State, found: seq<Candidate>, cur: State, k: nat, l: Label, next: State)
      returns (k': nat)
    requires Lists(s, found, IsUnreachable) && Culling(s, found, cur, k) && Culls(l) && Next(cfg, cur, l) == Some(next)
    ensures Culling(s, found, next, k')
  {
    hide Next, SweepStep, Lists, Culling;
    SweepLabels(cfg, cur, l);
    if l == MarkUnreachable {
      k' := MarkCulls(cfg, s, found, cur, k, next);
    } else {
      k' := StopCulls(cfg, s, found, cur, k, l, next);
    }
  }

  /** Every state of an uninterrupted pass. */
  lemma {:induction false} CullRun(cfg: Config, s: State, found: seq<Candidate>, cur: State, k: nat, labels: seq<Label>,
      done: State) returns (k': nat)
    requires Lists(s, found, IsUnreachable) && Culling(s, found, cur, k)
    requires (forall l :: l in labels ==> Culls(l)) && Steps(cfg, cur, labels) == Some(done)
    ensures Culling(s, found, done, k')
    decreases |labels|
  {
    hide Next, Lists, Culling, Culls;
    if labels == [] {
      k' := k;
    } else {
      var next := Next(cfg, cur, labels[0]).value;
      var k1 := CullStep(cfg, s, found, cur, k, labels[0], next);
      k' := CullRun(cfg, s, found, next, k1, labels[1..], done);
    }
  }

  lemma NamedAll(s: State, found: seq<Candidate>)
    requires Lists(s, found, IsUnreachable)
    ensures s.workers - Named(found, |found|) == map p | p in s.workers && !IsUnreachable(s.workers[p]) :: s.workers[p]
  {
    hide IsUnreachable;
    forall p | p in s.workers
      ensures p in Named(found, |found|) <==> IsUnreachable(s.workers[p])
    {
      if IsUnreachable(s.workers[p]) {
        var i :| 0 <= i < |found| && found[i] == Candidate(p, s.workers[p].worker);
      }
    }
  }

  /** An uninterrupted pass, in whatever order the records are listed, removes exactly the workers that
      are unreachable when it begins, and changes nothing else. */
  lemma CullRemovesUnreachable(cfg: Config, s: State, found: seq<Candidate>, labels: seq<Label>, done: State)
    requires s.sweep.Some? && s.sweep.value.phase == FindUnreachable && (forall l :: l in labels ==> Culls(l))
    requires Steps(cfg, s, [TakeUnreachable(found)] + labels) == Some(done) && done.sweep.Some?
    requires done.sweep.value.phase == FindIdle
    ensures done == s.(workers := map p | p in s.workers && !IsUnreachable(s.workers[p]) :: s.workers[p],
                       sweep := Some(s.sweep.value.(phase := FindIdle)))
  {
    hide IsUnreachable, Culls;
    var all := [TakeUnreachable(found)] + labels;
    assert all[1..] == labels;
    SweepLabels(cfg, s, TakeUnreachable(found));
    hide Next;
    TakenLists(cfg, s, found);
    hide SweepStep, Lists;
    var taken := SetPhase(s, Cull(found));
    assert found[0..] == found;
    assert s.workers - Named(found, 0) == s.workers;
    var k := CullRun(cfg, s, found, taken, 0, labels, done);
    NamedAll(s, found);
  }

  lemma TakenLists(cfg: Config, s: State, found: seq<Candidate>)
    requires s.sweep.Some? && s.sweep.value.phase == FindUnreachable && SweepStep(cfg, s, TakeUnreachable(found)).Some?
    ensures Lists(s, found, IsUnreachable)
        && SweepStep(cfg, s, TakeUnreachable(found)) == Some(SetPhase(s, Cull(found)))
  {
    hide ListsIdle, Pending, At, IsUnreachable, PastGrace;
  }

  // ----- such a pass exists -----

  /** The three steps that remove the next worker. */
  lemma CullNext(cfg: Config, s: State, found: seq<Candidate>, cur: State, k: nat) returns (next: State)
    requires Lists(s, found, IsUnreachable) && Culling(s, found, cur, k) && cur.sweep.value.phase == Cull(found[k..])
    requires k < |found|
    ensures Steps(cfg, cur, [MarkUnreachable, StopUnreachable(true), BuryUnreachable]) == Some(next)
    ensures Culling(s, found, next, k + 1) && next.sweep.value.phase == Cull(found[k + 1..])
  {
    hide Next, Lists, IsUnreachable, Named;
    var p := found[k].profile;
    StillUnreachable(s, found, k);
    var stop, bury := CullStop(p, found[k + 1..]), CullBury(p, found[k + 1..]);
    var marked := SetPhase(MarkRetiring(cur, p), stop);
    assert found[k..][0] == found[k] && found[k..][1..] == found[k + 1..];
    assert p in cur.workers && cur.workers[p] == s.workers[p];
    MarkEnabled(cfg, cur, found[k..]);
    StopEnabled(cfg, marked, p, found[k + 1..]);
    next := SetPhase(cur.(workers := marked.workers - {p}), Cull(found[k + 1..]));
    var steps := [MarkUnreachable, StopUnreachable(true), BuryUnreachable];
    assert steps == [MarkUnreachable] + [StopUnreachable(true), BuryUnreachable];
    StepThen(cfg, cur, MarkUnreachable, marked, [StopUnreachable(true), BuryUnreachable]);
    NamedMore(found, k);
    BuryMarked(s.workers, Named(found, k), p, s.workers[p].(retiring := true));
  }

  lemma MarkEnabled(cfg: Config, cur: State, todo: seq<Candidate>)
    requires cur.sweep.Some? && cur.sweep.value.phase == Cull(todo) && todo != []
    requires todo[0].profile in cur.workers && IsUnreachable(cur.workers[todo[0].profile])
        && cur.workers[todo[0].profile].worker == todo[0].worker
    ensures Next(cfg, cur, MarkUnreachable)
            == Some(SetPhase(MarkRetiring(cur, todo[0].profile), CullStop(todo[0].profile, todo[1..])))
  {
    hide Lists, ListsIdle, Pending, At, IsUnreachable;
    SweepLabels(cfg, cur, MarkUnreachable);
    hide Next;
  }

  lemma StopEnabled(cfg: Config, marked: State, p: ProfileId, todo: seq<Candidate>)
    requires marked.sweep.Some? && marked.sweep.value.phase == CullStop(p, todo)
    ensures Steps(cfg, marked, [StopUnreachable(true), BuryUnreachable])
            == Some(SetPhase(marked.(workers := marked.workers - {p}), Cull(todo)))
  {
    hide Lists, ListsIdle, Pending, At, IsUnreachable;
    var stopped := SetPhase(marked, CullBury(p, todo));
    SweepLabels(cfg, marked, StopUnreachable(true));
    SweepLabels(cfg, stopped, BuryUnreachable);
    hide Next;
    var end := SetPhase(stopped.(workers := marked.workers - {p}), Cull(todo));
    assert [StopUnreachable(true), BuryUnreachable] == [StopUnreachable(true)] + [BuryUnreachable];
    StepThen(cfg, marked, StopUnreachable(true), stopped, [BuryUnreachable]);
    assert [BuryUnreachable] == [BuryUnreachable] + [];
    StepThen(cfg, stopped, BuryUnreachable, end, []);
  }

  lemma {:induction false} CullGoesOn(cfg: Config, s: State, found: seq<Candidate>, cur: State, k: nat)
      returns (labels: seq<Label>, done: State)
    requires Lists(s, found, IsUnreachable) && Culling(s, found, cur, k) && cur.sweep.value.phase == Cull(found[k..])
    ensures (forall l :: l in labels ==> Culls(l)) && Steps(cfg, cur, labels) == Some(done)
    ensures done.sweep.Some? && done.sweep.value.phase == FindIdle
    decreases |found| - k
  {
    hide Next, Lists, IsUnreachable, Named;
    if k == |found| {
      labels, done := [MarkUnreachable], SetPhase(cur, FindIdle);
      LastEnabled(cfg, cur);
      assert labels == [MarkUnreachable] + [];
      StepThen(cfg, cur, MarkUnreachable, done, []);
    } else {
      var steps := [MarkUnreachable, StopUnreachable(true), BuryUnreachable];
      var next := CullNext(cfg, s, found, cur, k);
      hide Culling;
      var rest, end := CullGoesOn(cfg, s, found, next, k + 1);
      labels, done := steps + rest, end;
      StepsConcat(cfg, cur, steps, next, rest);
    }
  }

  lemma LastEnabled(cfg: Config, cur: State)
    requires cur.sweep.Some? && cur.sweep.value.phase == Cull([])
    ensures Next(cfg, cur, MarkUnreachable) == Some(SetPhase(cur, FindIdle))
  {
    hide Lists, ListsIdle, Pending, At, IsUnreachable;
    SweepLabels(cfg, cur, MarkUnreachable);
    hide Next;
  }

  /** From every state in which a sweep looks for unreachable workers there is an uninterrupted pass, for
      every order in which they can be listed. */
  lemma CullPasses(cfg: Config, s: State, found: seq<Candidate>) returns (labels: seq<Label>, done: State)
    requires s.sweep.Some? && s.sweep.value.phase == FindUnreachable && Lists(s, found, IsUnreachable)
    ensures (forall l :: l in labels ==> Culls(l)) && Steps(cfg, s, [TakeUnreachable(found)] + labels) == Some(done)
    ensures done.sweep.Some? && done.sweep.value.phase == FindIdle
  {
    var taken := SetPhase(s, Cull(found));
    TakeEnabled(cfg, s, found);
    hide Next, Lists, IsUnreachable;
    assert found[0..] == found;
    assert s.workers - Named(found, 0) == s.workers;
    labels, done := CullGoesOn(cfg, s, found, taken, 0);
    StepThen(cfg, s, TakeUnreachable(found), taken, labels);
  }

  lemma TakeEnabled(cfg: Config, s: State, found: seq<Candidate>)
    requires s.sweep.Some? && s.sweep.value.phase == FindUnreachable && Lists(s, found, IsUnreachable)
    ensures Next(cfg, s, TakeUnreachable(found)) == Some(SetPhase(s, Cull(found)))
  {
    hide Lists, ListsIdle, Pending, At, IsUnreachable;
    SweepLabels(cfg, s, TakeUnreachable(found));
    hide Next;
  }
}
