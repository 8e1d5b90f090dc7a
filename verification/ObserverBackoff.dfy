/** How long the observer waits: the delay of a retry follows from the failures in a row, over every run. */
module ObserverBackoff {
  import opened Wrappers
  import opened Observer
  import opened StatusObserver

  /** The target that a profile is given anew. */
  predicate GivenAnew(v: View, target: Target) {
    !(target.profile in v.desired && v.desired[target.profile] == target)
  }

  /** The failures of a profile in a row: attempts that did not connect and connections that closed, since
      the last report and since its target was last given anew. */
  ghost function InARow(hs: seq<Happening>, p: ProfileId): nat {
    if hs == [] then 0
    else
      var front := hs[..|hs| - 1];
      var v, before := Run(front), InARow(front, p);
      match hs[|hs| - 1]
      case Synchronized(targets, works) =>
        if !DistinctProfiles(targets) then before
        else if !(exists t :: t in targets && t.profile == p) then 0
        else
          var t :| t in targets && t.profile == p;
          if !GivenAnew(v, t) then before else if works(t) then 0 else 1
      case Stopped => 0
      case Reported(q) => if q == p && p in v.entries then 0 else before
      case Closed(q) => if q == p && p in v.entries then before + 1 else before
      case Woke(q, connects) => if q == p && p in v.retries && !connects then before + 1 else before
  }

  function Capped(n: nat): nat {
    if n < MAX_FAILURES then n else MAX_FAILURES
  }

  function Recorded(v: View, p: ProfileId): nat {
    if p in v.failures then v.failures[p] else 0
  }

  lemma ClosedCounts(v: View, target: Target, p: ProfileId)
    requires Wanted(v, target)
    ensures Recorded(DidClose(v, target), p) == if p == target.profile then Capped(Recorded(v, p) + 1)
        else Recorded(v, p)
  {
    hide Delay;
  }

  lemma SynchronizedCounts(v: View, targets: seq<Target>, works: Target -> bool, p: ProfileId)
    requires Valid(v) && DistinctProfiles(targets)
    ensures var w := Synchronize(v, targets, works);
            && ((forall t :: t in targets ==> t.profile != p) ==> Recorded(w, p) == 0)
            && (forall t :: t in targets && t.profile == p ==>
                  Recorded(w, p) == if !GivenAnew(v, t) then Recorded(v, p) else if works(t) then 0 else 1)
  {
    hide Synchronize, KeysOk, EntriesOk, RetriesOk, LiveOk, Covered;
    var w := Synchronize(v, targets, works);
    SynchronizeKeeps(v, targets, works);
    DictionaryIs(targets);
    hide Dictionary;
    forall t | t in targets && t.profile == p
      ensures Recorded(w, p) == if !GivenAnew(v, t) then Recorded(v, p) else if works(t) then 0 else 1
    {
      assert Wanted(v, t) == !GivenAnew(v, t);
      if Wanted(v, t) {
        assert LinkOf(w, p).failures == LinkOf(v, p).failures;
      } else {
        assert Begun(LinkOf(w, p), t, works(t), v.next);
      }
    }
  }

  lemma WokeCounts(v: View, q: ProfileId, connects: bool, p: ProfileId)
    requires Valid(v) && q in v.retries
    ensures Recorded(RetryFires(v, q, connects), p)
            == if p == q && !connects then Capped(Recorded(v, p) + 1) else Recorded(v, p)
  {
    hide DidClose, Delay, LiveOk, Covered;
    var target := v.retries[q].target;
    assert q in v.desired && v.desired[q] == target && target.profile == q;
    var w := v.(retries := v.retries - {q});
    assert Wanted(w, target);
    if !connects {
      ClosedCounts(w, target, p);
    }
  }

  lemma EntryWanted(v: View, p: ProfileId)
    requires Valid(v) && p in v.entries
    ensures Wanted(v, v.entries[p].target) && v.entries[p].target.profile == p
  {
    hide LiveOk, RetriesOk, FailuresOk, Covered;
  }

  /** In every run the failures recorded for a profile are those in a row, counted up to six. */
  lemma {:induction false} RecordedIsInARow(hs: seq<Happening>, p: ProfileId)
    ensures Recorded(Run(hs), p) == Capped(InARow(hs, p))
  {
    hide Valid, Synchronize, DidClose, RetryFires, DistinctProfiles, GivenAnew;
    if hs == [] {
    } else {
      var front := hs[..|hs| - 1];
      var v := Run(front);
      AlwaysValid(front);
      RecordedIsInARow(front, p);
      match hs[|hs| - 1]
      case Synchronized(targets, works) =>
        if DistinctProfiles(targets) {
          SynchronizedCounts(v, targets, works, p);
        }
      case Stopped =>
      case Reported(q) =>
      case Closed(q) =>
        if q in v.entries {
          EntryWanted(v, q);
          ClosedCounts(v, v.entries[q].target, p);
        }
      case Woke(q, connects) =>
        if q in v.retries {
          WokeCounts(v, q, connects, p);
        }
    }
  }

  /** So a retry waits 1 second after one failure, then 2, 4, 8, 16 and 30 seconds from the sixth on. */
  lemma RetryDelay(hs: seq<Happening>, p: ProfileId)
    requires p in Run(hs).retries
    ensures InARow(hs, p) >= 1
    ensures Run(hs).retries[p].delay == [1, 2, 4, 8, 16, 30][Capped(InARow(hs, p)) - 1]
  {
    hide Run, InARow, LiveOk, KeysOk, EntriesOk, Covered;
    AlwaysValid(hs);
    RecordedIsInARow(hs, p);
    DelayTable(Run(hs).failures[p]);
  }
}
