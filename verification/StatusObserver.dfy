/** The observer object, method by method, and its runs. */
module StatusObserver {
  import opened Wrappers
  import opened Observer

  class BridgeStatusObserver {
    var desired: map<ProfileId, Target>
    var entries: map<ProfileId, Entry>
    var failureCounts: map<ProfileId, nat>
    var retryTasks: map<ProfileId, Retry>
    var live: set<Connection>
    var nextConnection: Connection

    ghost function State(): View
      reads this
    {
      View(desired, entries, failureCounts, retryTasks, live, nextConnection)
    }

    constructor ()
      ensures State() == START
    {
      desired, entries, failureCounts, retryTasks, live, nextConnection := map[], map[], map[], map[], {}, 0;
    }

    /** Take a profile's connection out and cancel it. */
    method CancelEntry(p: ProfileId)
      modifies this`entries, this`live
      ensures State() == Disconnect(old(State()), p)
    {
      if p in entries {
        assert Connections(entries, {p}) == {entries[p].connection};
        live := live - {entries[p].connection};
      }
      entries := entries - {p};
    }

    method ForgetProfile(p: ProfileId)
      modifies this`entries, this`live, this`retryTasks, this`failureCounts
      ensures State() == Forget(old(State()), {p})
    {
      CancelEntry(p);
      retryTasks := retryTasks - {p};
      failureCounts := failureCounts - {p};
    }

    method ConnectionDidClose(target: Target)
      modifies this`entries, this`live, this`retryTasks, this`failureCounts
      ensures State() == DidClose(old(State()), target)
    {
      hide Delay, Disconnect;
      var p := target.profile;
      CancelEntry(p);
      assert Disconnect(old(State()), p).failures == old(failureCounts) by { DisconnectFrame(old(State()), p); }
      assert Disconnect(old(State()), p).retries == old(retryTasks) by { DisconnectFrame(old(State()), p); }
      if p !in desired || desired[p] != target {
        return;
      }
      var failures := (if p in failureCounts then failureCounts[p] else 0) + 1;
      failures := if failures < MAX_FAILURES then failures else MAX_FAILURES;
      failureCounts := failureCounts[p := failures];
      retryTasks := retryTasks[p := Retry(target, Delay(failures))];
    }

    method ConnectTarget(target: Target, works: bool)
      modifies this`entries, this`live, this`retryTasks, this`failureCounts, this`nextConnection
      ensures State() == Connect(old(State()), target, works)
    {
      hide Delay, DidClose;
      if target.profile !in desired || desired[target.profile] != target {
        return;
      }
      if !works {
        ConnectionDidClose(target);
        return;
      }
      entries := entries[target.profile := Entry(target, nextConnection)];
      live := live + {nextConnection};
      nextConnection := nextConnection + 1;
    }

    method SynchronizeTargets(targets: seq<Target>, works: Target -> bool)
      requires DistinctProfiles(targets)
      modifies this
      ensures State() == Synchronize(old(State()), targets, works)
    {
      hide Connect, Forget, DistinctProfiles, ConnectAll;
      var next := Dictionary(targets);
      ghost var v := State();
      DropUnwanted(next);
      ForgetFrame(v, Unwanted(v, next));
      DropMoved(targets, Unwanted(v, next), v);
      OutdatedSplits(v, next, targets);
      desired := next;
      ConnectTargets(targets, works);
    }

    /** Forget the profiles whose target has changed; those in `done` were forgotten before. */
    method DropMoved(targets: seq<Target>, ghost done: set<ProfileId>, ghost v: View)
      requires State() == Forget(v, done) && desired == v.desired
      modifies this`entries, this`live, this`retryTasks, this`failureCounts
      ensures State() == Forget(v, done + Moved(v, targets))
    {
      hide Forget;
      var i := 0;
      assert done + Moved(v, targets[..0]) == done;
      while i < |targets|
        invariant i <= |targets| && desired == v.desired
        invariant State() == Forget(v, done + Moved(v, targets[..i]))
      {
        var t := targets[i];
        MovedMore(v, targets, i);
        if t.profile in desired && desired[t.profile] != t {
          ForgetMore(v, done + Moved(v, targets[..i]), t.profile);
          ForgetProfile(t.profile);
          assert done + Moved(v, targets[..i + 1]) == done + Moved(v, targets[..i]) + {t.profile};
        }
        i := i + 1;
      }
      assert targets[..i] == targets;
    }

    /** Connect the targets that have neither connection nor retry. */
    method ConnectTargets(targets: seq<Target>, works: Target -> bool)
      modifies this`entries, this`live, this`retryTasks, this`failureCounts, this`nextConnection
      ensures State() == ConnectAll(old(State()), targets, works)
    {
      hide Connect;
      ghost var v := State();
      var i := 0;
      assert targets[..0] == [];
      while i < |targets|
        invariant i <= |targets| && State() == ConnectAll(v, targets[..i], works)
      {
        assert targets[..i + 1][..i] == targets[..i];
        if targets[i].profile !in entries && targets[i].profile !in retryTasks {
          ConnectTarget(targets[i], works(targets[i]));
        }
        i := i + 1;
      }
      assert targets[..i] == targets;
    }

    /** Forget the profiles that are no longer wanted, met in any order. */
    method DropUnwanted(next: map<ProfileId, Target>)
      modifies this`entries, this`live, this`retryTasks, this`failureCounts
      ensures State() == Forget(old(State()), Unwanted(old(State()), next))
    {
      hide Forget;
      ghost var v := State();
      var rest := desired.Keys;
      ForgetNone(v);
      ghost var done: set<ProfileId> := {};
      while rest != {}
        invariant rest <= v.desired.Keys && desired == v.desired && nextConnection == v.next
        invariant done == Unwanted(v, next) - rest
        invariant State() == Forget(v, done)
        decreases |rest|
      {
        var p: ProfileId :| p in rest;
        rest := rest - {p};
        if p !in next {
          ForgetMore(v, done, p);
          ForgetProfile(p);
          done := done + {p};
        }
      }
      assert done == Unwanted(v, next);
    }

    method StopAll()
      modifies this
      ensures State() == Stop(old(State()))
    {
      desired := map[];
      var rest := entries.Keys;
      while rest != {}
        invariant rest <= entries.Keys && entries == old(entries) && nextConnection == old(nextConnection)
            && desired == map[]
        invariant live == old(live) - Connections(entries, entries.Keys - rest)
        decreases |rest|
      {
        var p: ProfileId :| p in rest;
        ConnectionsMore(entries, entries.Keys - rest, p);
        live := live - {entries[p].connection};
        rest := rest - {p};
        assert entries.Keys - rest == (entries.Keys - rest - {p}) + {p};
      }
      entries, retryTasks, failureCounts := map[], map[], map[];
    }

    /** The callback of a live connection. */
    method HealthArrived(p: ProfileId)
      modifies this`failureCounts
      ensures State() == Healthy(old(State()), p)
    {
      failureCounts := failureCounts[p := 0];
    }

    /** The end of a retry task that was not cancelled. */
    method RetryWakes(p: ProfileId, works: bool)
      requires p in retryTasks
      modifies this`entries, this`live, this`retryTasks, this`failureCounts, this`nextConnection
      ensures State() == RetryFires(old(State()), p, works)
    {
      hide Connect;
      var target := retryTasks[p].target;
      retryTasks := retryTasks - {p};
      ConnectTarget(target, works);
    }
  }

  // ----- the pieces of a synchronisation -----

  function Unwanted(v: View, next: map<ProfileId, Target>): set<ProfileId> {
    set p | p in v.desired && p !in next
  }

  function Moved(v: View, targets: seq<Target>): set<ProfileId> {
    set t | t in targets && t.profile in v.desired && v.desired[t.profile] != t :: t.profile
  }

  lemma DisconnectFrame(v: View, p: ProfileId)
    ensures Disconnect(v, p).failures == v.failures && Disconnect(v, p).retries == v.retries
  {
  }

  lemma ForgetFrame(v: View, ps: set<ProfileId>)
    ensures Forget(v, ps).desired == v.desired && Forget(v, ps).next == v.next
  {
  }

  lemma ForgetNone(v: View)
    ensures Forget(v, {}) == v
  {
    assert Connections(v.entries, {}) == {};
    assert v.entries - {} == v.entries && v.retries - {} == v.retries && v.failures - {} == v.failures;
  }

  lemma ConnectionsMore(entries: map<ProfileId, Entry>, ps: set<ProfileId>, p: ProfileId)
    requires p in entries
    ensures Connections(entries, ps + {p}) == Connections(entries, ps) + {entries[p].connection}
  {
  }

  lemma ForgetMore(v: View, ps: set<ProfileId>, p: ProfileId)
    ensures Forget(Forget(v, ps), {p}) == Forget(v, ps + {p})
  {
    var f := Forget(v, ps);
    assert f.entries - {p} == v.entries - (ps + {p});
    assert f.retries - {p} == v.retries - (ps + {p});
    assert f.failures - {p} == v.failures - (ps + {p});
    assert Connections(v.entries, ps + {p}) == Connections(v.entries, ps) + Connections(f.entries, {p});
  }

  lemma MovedMore(v: View, targets: seq<Target>, i: nat)
    requires i < |targets|
    ensures var t := targets[i];
            Moved(v, targets[..i + 1]) ==
            if t.profile in v.desired && v.desired[t.profile] != t then Moved(v, targets[..i]) + {t.profile}
                else Moved(v, targets[..i])
  {
    assert targets[..i + 1] == targets[..i] + [targets[i]];
  }

  lemma OutdatedSplits(v: View, next: map<ProfileId, Target>, targets: seq<Target>)
    requires DistinctProfiles(targets) && next == Dictionary(targets)
    ensures Unwanted(v, next) + Moved(v, targets) == Outdated(v, next)
  {
    DictionaryIs(targets);
    hide Dictionary;
    forall p | p in Outdated(v, next) ensures p in Unwanted(v, next) + Moved(v, targets) {
      if p in next {
        assert next[p] in targets;
      }
    }
  }

  // ----- runs -----

  datatype Happening =
    | Synchronized(targets: seq<Target>, works: Target -> bool)
    | Stopped
    | Reported(profile: ProfileId)
    | Closed(profile: ProfileId)
    | Woke(profile: ProfileId, connects: bool)

  /** Connections that were cancelled and retries that were cancelled stay silent. */
  ghost function React(v: View, h: Happening): View {
    match h
    case Synchronized(targets, works) => if DistinctProfiles(targets) then Synchronize(v, targets, works) else v
    case Stopped => Stop(v)
    case Reported(p) => if p in v.entries then Healthy(v, p) else v
    case Closed(p) => if p in v.entries then DidClose(v, v.entries[p].target) else v
    case Woke(p, connects) => if p in v.retries then RetryFires(v, p, connects) else v
  }

  ghost function Run(hs: seq<Happening>): View {
    if hs == [] then START else React(Run(hs[..|hs| - 1]), hs[|hs| - 1])
  }

  /** A new observer, driven through any happenings, is in the specified state. */
  method Drive(hs: seq<Happening>) returns (v: View)
    ensures v == Run(hs)
  {
    hide Synchronize, Stop, DidClose, RetryFires, Healthy, DistinctProfiles;
    var observer := new BridgeStatusObserver();
    for i := 0 to |hs|
      invariant observer.State() == Run(hs[..i])
    {
      assert hs[..i + 1][..i] == hs[..i];
      match hs[i] {
        case Synchronized(targets, works) =>
          if DistinctProfiles(targets) {
            observer.SynchronizeTargets(targets, works);
          }
        case Stopped => observer.StopAll();
        case Reported(p) =>
          if p in observer.entries {
            observer.HealthArrived(p);
          }
        case Closed(p) =>
          if p in observer.entries {
            observer.ConnectionDidClose(observer.entries[p].target);
          }
        case Woke(p, connects) =>
          if p in observer.retryTasks {
            observer.RetryWakes(p, connects);
          }
      }
    }
    assert hs[..|hs|] == hs;
    v := View(observer.desired, observer.entries, observer.failureCounts, observer.retryTasks, observer.live,
              observer.nextConnection);
  }

  /** In every run, between happenings, the observer is valid. */
  lemma {:induction false} AlwaysValid(hs: seq<Happening>)
    ensures Valid(Run(hs))
  {
    hide Valid, Synchronize, Stop, DidClose, RetryFires, Healthy;
    if hs == [] {
      StartValid();
    } else {
      var v := Run(hs[..|hs| - 1]);
      AlwaysValid(hs[..|hs| - 1]);
      match hs[|hs| - 1]
      case Synchronized(targets, works) =>
        if DistinctProfiles(targets) {
          SynchronizeKeeps(v, targets, works);
        }
      case Stopped => StopKeeps(v);
      case Reported(p) =>
        if p in v.entries {
          HealthyKeeps(v, p);
        }
      case Closed(p) =>
        if p in v.entries {
          ClosedKeeps(v, p);
        }
      case Woke(p, connects) =>
        if p in v.retries {
          RetryKeeps(v, p, connects);
        }
    }
  }

  lemma StartValid()
    ensures Valid(START)
  {
  }

  /** So in every run each desired profile has exactly one of a live connection and a pending retry, other
      profiles have neither, and every retry waits one of six delays. */
  lemma OneLinkEach(hs: seq<Happening>, p: ProfileId)
    ensures var v := Run(hs);
            && (p in v.desired <==> p in v.entries || p in v.retries) && !(p in v.entries && p in v.retries)
            && (p in v.entries ==> v.entries[p].target == v.desired[p] && v.entries[p].connection in v.live)
            && (p in v.retries ==> v.retries[p].target == v.desired[p] && v.retries[p].delay in {1, 2, 4, 8, 16, 30})
            && (p in v.failures ==> v.failures[p] <= MAX_FAILURES)
            && |v.live| == |v.entries|
  {
    hide Run, Valid;
    AlwaysValid(hs);
    ValidMeans(Run(hs), p);
  }
}
