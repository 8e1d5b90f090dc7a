/** The macOS status observer: one connection or one pending retry for every desired profile. */
module Observer {
  import opened Wrappers

  type ProfileId = string
  type Connection = nat

  datatype Target = Target(profile: ProfileId, payload: string)
  datatype Entry = Entry(target: Target, connection: Connection)
  datatype Retry = Retry(target: Target, delay: nat)

  /** The observer's dictionaries, the connections started and not cancelled, and the name of the next connection. */
  datatype View = View(
    desired: map<ProfileId, Target>, entries: map<ProfileId, Entry>, failures: map<ProfileId, nat>,
        retries: map<ProfileId, Retry>,
    live: set<Connection>, next: Connection)

  const START := View(map[], map[], map[], map[], {}, 0)

  const MAX_FAILURES: nat := 6

  function Power(n: nat): nat {
    if n == 0 then 1 else 2 * Power(n - 1)
  }

  /** Seconds to wait after that many failures in a row. */
  function Delay(failures: nat): nat
    requires failures >= 1
  {
    if Power(failures - 1) < 30 then Power(failures - 1) else 30
  }

  // ----- steps -----

  /** The connections of some profiles. */
  function Connections(entries: map<ProfileId, Entry>, ps: set<ProfileId>): set<Connection> {
    set p | p in ps && p in entries :: entries[p].connection
  }

  /** Cancel and forget everything about some profiles. */
  function Forget(v: View, ps: set<ProfileId>): View {
    v.(entries := v.entries - ps, retries := v.retries - ps, failures := v.failures - ps,
        live := v.live - Connections(v.entries, ps))
  }

  function Disconnect(v: View, p: ProfileId): View {
    v.(entries := v.entries - {p}, live := v.live - Connections(v.entries, {p}))
  }

  predicate Wanted(v: View, target: Target) {
    target.profile in v.desired && v.desired[target.profile] == target
  }

  function FailuresAfter(v: View, p: ProfileId): (n: nat)
    ensures 1 <= n <= MAX_FAILURES
  {
    var n := (if p in v.failures then v.failures[p] else 0) + 1;
    if n < MAX_FAILURES then n else MAX_FAILURES
  }

  /** The connection of a target ended, or could not be made. */
  function DidClose(v: View, target: Target): View {
    var d := Disconnect(v, target.profile);
    if !Wanted(v, target) then d
    else
      var n := FailuresAfter(v, target.profile);
      d.(failures := v.failures[target.profile := n], retries := v.retries[target.profile := Retry(target, Delay(n))])
  }

  /** Connect; `works` says whether the factory makes a connection. */
  function Connect(v: View, target: Target, works: bool): View {
    if !Wanted(v, target) then v
    else if !works then DidClose(v, target)
    else v.(entries := v.entries[target.profile := Entry(target, v.next)], live := v.live + {v.next},
        next := v.next + 1)
  }

  function Healthy(v: View, p: ProfileId): View {
    v.(failures := v.failures[p := 0])
  }

  function RetryFires(v: View, p: ProfileId, works: bool): View
    requires p in v.retries
  {
    Connect(v.(retries := v.retries - {p}), v.retries[p].target, works)
  }

  predicate DistinctProfiles(targets: seq<Target>) {
    forall i, j :: 0 <= i < j < |targets| ==> targets[i].profile != targets[j].profile
  }

  /** The dictionary built from the targets, whose profiles must be distinct. */
  function Dictionary(targets: seq<Target>): map<ProfileId, Target> {
    if targets == [] then map[]
    else Dictionary(targets[..|targets| - 1])[targets[|targets| - 1].profile := targets[|targets| - 1]]
  }

  /** Profiles that are no longer wanted, or wanted at another target. */
  function Outdated(v: View, next: map<ProfileId, Target>): set<ProfileId> {
    set p | p in v.desired && (p !in next || next[p] != v.desired[p])
  }

  function ConnectMissing(v: View, target: Target, works: bool): View {
    if target.profile in v.entries || target.profile in v.retries then v else Connect(v, target, works)
  }

  function ConnectAll(v: View, targets: seq<Target>, works: Target -> bool): View {
    if targets == [] then v
    else
      var last := |targets| - 1;
      ConnectMissing(ConnectAll(v, targets[..last], works), targets[last], works(targets[last]))
  }

  function Synchronize(v: View, targets: seq<Target>, works: Target -> bool): View {
    var next := Dictionary(targets);
    ConnectAll(Forget(v, Outdated(v, next)).(desired := next), targets, works)
  }

  function Stop(v: View): View {
    View(map[], map[], map[], map[], v.live - Connections(v.entries, v.entries.Keys), v.next)
  }

  // ----- the invariant -----

  predicate KeysOk(v: View) {
    forall p :: p in v.desired ==> v.desired[p].profile == p
  }

  predicate EntriesOk(v: View) {
    forall p :: p in v.entries ==> p in v.desired && v.entries[p].target == v.desired[p] && p !in v.retries
  }

  predicate RetriesOk(v: View) {
    forall p :: p in v.retries ==>
      p in v.desired && v.retries[p].target == v.desired[p] && p in v.failures && 1 <= v.failures[p]
          && v.retries[p].delay == Delay(v.failures[p])
  }

  predicate FailuresOk(v: View) {
    forall p :: p in v.failures ==> p in v.desired && v.failures[p] <= MAX_FAILURES
  }

  /** The live connections are those of the entries, one each: none is leaked and none is shared. */
  ghost predicate LiveOk(v: View) {
    && v.live == Connections(v.entries, v.entries.Keys)
    && (forall c :: c in v.live ==> c < v.next)
    && (forall p, q :: p in v.entries && q in v.entries && p != q ==>
        v.entries[p].connection != v.entries[q].connection)
  }

  /** What holds even while a synchronisation is half done. */
  ghost predicate Consistent(v: View) {
    KeysOk(v) && EntriesOk(v) && RetriesOk(v) && FailuresOk(v) && LiveOk(v)
  }

  predicate Covered(v: View) {
    forall p :: p in v.desired ==> p in v.entries || p in v.retries
  }

  ghost predicate Valid(v: View) {
    Consistent(v) && Covered(v)
  }

  /** What validity means for a desired profile: exactly one of a live connection and a pending retry, for
      its current target, and a retry waits 1, 2, 4, 8, 16 or 30 seconds; and for any other profile:
      neither. */
  lemma ValidMeans(v: View, p: ProfileId)
    requires Valid(v)
    ensures p in v.desired ==> (p in v.entries) != (p in v.retries)
    ensures p in v.entries ==>
              p in v.desired && v.entries[p].target == v.desired[p] && v.entries[p].connection in v.live
    ensures p in v.retries ==>
              p in v.desired && v.retries[p].target == v.desired[p] && v.retries[p].delay in {1, 2, 4, 8, 16, 30}
    ensures p in v.failures ==> v.failures[p] <= MAX_FAILURES
    ensures |v.live| == |v.entries|
  {
    if p in v.retries {
      DelayTable(v.failures[p]);
    }
    LiveCount(v.entries);
  }

  lemma DelayTable(failures: nat)
    requires 1 <= failures <= MAX_FAILURES
    ensures Delay(failures) == [1, 2, 4, 8, 16, 30][failures - 1]
  {
    assert Power(0) == 1 && Power(1) == 2 && Power(2) == 4 && Power(3) == 8 && Power(4) == 16 && Power(5) == 32;
  }

  lemma {:induction false} LiveCount(entries: map<ProfileId, Entry>)
    requires forall p, q :: p in entries && q in entries && p != q ==> entries[p].connection != entries[q].connection
    ensures |Connections(entries, entries.Keys)| == |entries|
    decreases |entries.Keys|
  {
    if entries == map[] {
    } else {
      var p :| p in entries;
      var rest := entries - {p};
      LiveCount(rest);
      assert entries.Keys == rest.Keys + {p};
      assert Connections(entries, entries.Keys) == Connections(rest, rest.Keys) + {entries[p].connection};
      assert |entries| == |entries.Keys| && |rest| == |rest.Keys|;
    }
  }

  // ----- every step keeps it -----

  lemma ForgetLive(v: View, ps: set<ProfileId>)
    requires LiveOk(v)
    ensures LiveOk(Forget(v, ps))
  {
    var w := Forget(v, ps);
    assert forall p :: p in v.entries ==> v.entries[p].connection in v.live;
    forall c ensures c in w.live <==> c in Connections(w.entries, w.entries.Keys) {
      if c in w.live {
        var p :| p in v.entries && v.entries[p].connection == c;
        assert p !in ps && p in w.entries && w.entries[p].connection == c;
      }
    }
  }

  lemma ForgetKeeps(v: View, ps: set<ProfileId>)
    requires Consistent(v)
    ensures Consistent(Forget(v, ps))
  {
    ForgetLive(v, ps);
    hide LiveOk;
  }

  lemma DisconnectKeeps(v: View, p: ProfileId)
    requires Consistent(v)
    ensures Consistent(Disconnect(v, p))
  {
    ForgetLive(v, {p});
    assert LiveOk(Disconnect(v, p));
    hide LiveOk;
  }

  lemma DidCloseKeeps(v: View, target: Target)
    requires Consistent(v)
    ensures Consistent(DidClose(v, target))
    ensures Wanted(v, target) ==> target.profile in DidClose(v, target).retries
  {
    var d, w := Disconnect(v, target.profile), DidClose(v, target);
    DisconnectKeeps(v, target.profile);
    assert LiveOk(w);
    hide LiveOk, Delay;
    assert target.profile !in d.entries;
  }

  lemma ConnectLive(v: View, p: ProfileId, target: Target)
    requires LiveOk(v) && p !in v.entries
    ensures LiveOk(v.(entries := v.entries[p := Entry(target, v.next)], live := v.live + {v.next}, next := v.next + 1))
  {
    var entries := v.entries[p := Entry(target, v.next)];
    assert forall q :: q in v.entries ==> v.entries[q].connection in v.live;
    assert entries[p].connection == v.next;
    forall c ensures c in Connections(entries, entries.Keys) <==> c in v.live || c == v.next {
      if c in v.live {
        var q :| q in v.entries && v.entries[q].connection == c;
        assert q in entries && entries[q].connection == c;
      }
    }
  }

  lemma ConnectKeeps(v: View, target: Target, works: bool)
    requires Consistent(v) && target.profile !in v.entries && target.profile !in v.retries
    ensures Consistent(Connect(v, target, works))
    ensures Wanted(v, target) ==>
              var w := Connect(v, target, works); target.profile in w.entries || target.profile in w.retries
  {
    if Wanted(v, target) {
      if works {
        ConnectLive(v, target.profile, target);
        hide LiveOk;
      } else {
        DidCloseKeeps(v, target);
      }
    }
  }

  lemma HealthyKeeps(v: View, p: ProfileId)
    requires Valid(v) && p in v.entries
    ensures Valid(Healthy(v, p))
  {
    hide Delay;
    var w := Healthy(v, p);
    assert LiveOk(w);
    hide LiveOk;
    assert p in v.desired && p !in v.retries;
    assert KeysOk(w) && EntriesOk(w) && Covered(w);
    hide KeysOk, EntriesOk, Covered;
  }

  lemma ClosedKeeps(v: View, p: ProfileId)
    requires Valid(v) && p in v.entries
    ensures Valid(DidClose(v, v.entries[p].target))
  {
    DidCloseKeeps(v, v.entries[p].target);
  }

  lemma RetryKeeps(v: View, p: ProfileId, works: bool)
    requires Valid(v) && p in v.retries
    ensures Valid(RetryFires(v, p, works))
  {
    var w, target := v.(retries := v.retries - {p}), v.retries[p].target;
    assert Consistent(w) by {
      assert LiveOk(w);
      hide LiveOk;
    }
    ConnectKeeps(w, target, works);
    hide Consistent;
    assert Wanted(w, target);
  }

  lemma StopKeeps(v: View)
    requires Valid(v)
    ensures Valid(Stop(v)) && Stop(v).live == {}
  {
  }

  // ----- synchronising -----

  lemma {:induction false} DictionaryIs(targets: seq<Target>)
    requires DistinctProfiles(targets)
    ensures forall t :: t in targets ==> t.profile in Dictionary(targets) && Dictionary(targets)[t.profile] == t
    ensures forall p :: p in Dictionary(targets) ==>
        Dictionary(targets)[p] in targets && Dictionary(targets)[p].profile == p
  {
    if targets == [] {
    } else {
      var last := |targets| - 1;
      DictionaryIs(targets[..last]);
      assert targets == targets[..last] + [targets[last]];
      forall t | t in targets ensures t.profile in Dictionary(targets) && Dictionary(targets)[t.profile] == t {
        var i :| 0 <= i < |targets| && targets[i] == t;
        assert i < last ==> t in targets[..last];
      }
    }
  }

  /** What a profile has. */
  datatype Link = Link(entry: Option<Entry>, retry: Option<Retry>, failures: Option<nat>)

  function Get<V>(m: map<ProfileId, V>, p: ProfileId): Option<V> {
    if p in m then Some(m[p]) else None
  }

  function LinkOf(v: View, p: ProfileId): Link {
    Link(Get(v.entries, p), Get(v.retries, p), Get(v.failures, p))
  }

  /** Connecting touches the one profile only. */
  lemma ConnectIsLocal(v: View, target: Target, works: bool, p: ProfileId)
    requires p != target.profile
    ensures LinkOf(ConnectMissing(v, target, works), p) == LinkOf(v, p)
    ensures ConnectMissing(v, target, works).desired == v.desired
  {
    hide Delay;
  }

  lemma {:induction false} ConnectAllKeeps(v: View, targets: seq<Target>, works: Target -> bool)
    requires Consistent(v)
    ensures Consistent(ConnectAll(v, targets, works)) && ConnectAll(v, targets, works).desired == v.desired
    ensures forall t :: t in targets && Wanted(v, t) ==> Linked(ConnectAll(v, targets, works), t.profile)
    ensures forall p :: Linked(v, p) ==> LinkOf(ConnectAll(v, targets, works), p) == LinkOf(v, p)
  {
    hide Consistent, ConnectMissing, LinkOf, Linked;
    if targets == [] {
    } else {
      var last := |targets| - 1;
      var before, t := ConnectAll(v, targets[..last], works), targets[last];
      ConnectAllKeeps(v, targets[..last], works);
      MissingKeeps(before, t, works(t));
      assert targets == targets[..last] + [t];
      forall p
        ensures Linked(before, p) ==> LinkOf(ConnectMissing(before, t, works(t)), p) == LinkOf(before, p)
        ensures Linked(before, p) ==> Linked(ConnectMissing(before, t, works(t)), p)
        ensures Linked(v, p) ==> Linked(before, p)
      {
        MissingKeepsLinks(before, t, works(t), p);
        LinkedSame(v, before, p);
      }
    }
  }

  /** The profile has a connection or a retry. */
  predicate Linked(v: View, p: ProfileId) {
    p in v.entries || p in v.retries
  }

  lemma LinkedSame(v: View, w: View, p: ProfileId)
    requires LinkOf(w, p) == LinkOf(v, p) || !Linked(v, p)
    ensures Linked(v, p) ==> Linked(w, p)
  {
  }

  /** Connecting what is missing leaves every profile alone that has a connection or a retry. */
  lemma MissingKeepsLinks(v: View, t: Target, works: bool, p: ProfileId)
    ensures Linked(v, p) ==> LinkOf(ConnectMissing(v, t, works), p) == LinkOf(v, p)
    ensures Linked(v, p) ==> Linked(ConnectMissing(v, t, works), p)
  {
    hide Connect;
    if p != t.profile {
      ConnectIsLocal(v, t, works, p);
      LinkedSame(v, ConnectMissing(v, t, works), p);
    }
  }

  lemma MissingKeeps(v: View, t: Target, works: bool)
    requires Consistent(v)
    ensures var w := ConnectMissing(v, t, works);
            && Consistent(w) && w.desired == v.desired
            && (Wanted(v, t) ==> Linked(w, t.profile))
            && (t.profile in v.entries || t.profile in v.retries ==> w == v)
  {
    hide Consistent, Delay;
    if t.profile !in v.entries && t.profile !in v.retries {
      ConnectKeeps(v, t, works);
    }
  }

  lemma ForgetOutdated(v: View, next: map<ProfileId, Target>)
    requires Valid(v) && forall p :: p in next ==> next[p].profile == p
    ensures Consistent(Forget(v, Outdated(v, next)).(desired := next))
  {
    var f := Forget(v, Outdated(v, next));
    ForgetKeeps(v, Outdated(v, next));
    assert LiveOk(f.(desired := next));
    hide LiveOk, Delay;
  }

  /** A profile that starts with nothing gets a new connection, or its first retry. */
  predicate Begun(link: Link, t: Target, works: bool, next: Connection) {
    if works then link.entry.Some? && link.entry.value.target == t && link.entry.value.connection >= next
        && link.retry.None? && link.failures.None?
    else link == Link(None, Some(Retry(t, 1)), Some(1))
  }

  lemma ConnectBegins(v: View, t: Target, works: bool)
    requires LinkOf(v, t.profile) == Link(None, None, None) && Wanted(v, t)
    ensures Begun(LinkOf(ConnectMissing(v, t, works), t.profile), t, works, v.next)
  {
    assert Delay(1) == 1;
  }

  lemma {:induction false} ConnectAllNext(v: View, targets: seq<Target>, works: Target -> bool)
    ensures ConnectAll(v, targets, works).next >= v.next && ConnectAll(v, targets, works).desired == v.desired
  {
    if targets == [] {
    } else {
      ConnectAllNext(v, targets[..|targets| - 1], works);
    }
  }

  lemma {:induction false} ConnectAllBegins(v: View, targets: seq<Target>, works: Target -> bool, p: ProfileId)
    requires DistinctProfiles(targets) && LinkOf(v, p) == Link(None, None, None)
    ensures var link := LinkOf(ConnectAll(v, targets, works), p);
            && ((forall t :: t in targets ==> t.profile != p) ==> link == LinkOf(v, p))
            && (forall t :: t in targets && t.profile == p && Wanted(v, t) ==> Begun(link, t, works(t), v.next))
  {
    hide Connect;
    if targets == [] {
    } else {
      var last := |targets| - 1;
      var before, t := ConnectAll(v, targets[..last], works), targets[last];
      ConnectAllBegins(v, targets[..last], works, p);
      ConnectAllNext(v, targets[..last], works);
      assert targets == targets[..last] + [t];
      if t.profile == p {
        assert forall u :: u in targets[..last] ==> u.profile != p;
        if Wanted(v, t) {
          ConnectBegins(before, t, works(t));
        }
      } else {
        ConnectIsLocal(before, t, works(t), p);
      }
    }
  }

  /** Synchronising leaves the profiles alone whose target is unchanged, drops the ones no longer wanted,
      and starts the new and the changed ones afresh. */
  lemma SynchronizeKeeps(v: View, targets: seq<Target>, works: Target -> bool)
    requires Valid(v) && DistinctProfiles(targets)
    ensures var w := Synchronize(v, targets, works);
            && Valid(w) && w.desired == Dictionary(targets)
            && (forall t :: t in targets && Wanted(v, t) ==> LinkOf(w, t.profile) == LinkOf(v, t.profile))
            && (forall t :: t in targets && !Wanted(v, t) ==> Begun(LinkOf(w, t.profile), t, works(t), v.next))
  {
    hide Consistent, Begun;
    var next := Dictionary(targets);
    var f := Forget(v, Outdated(v, next)).(desired := next);
    DictionaryIs(targets);
    ForgetOutdated(v, next);
    ConnectAllKeeps(f, targets, works);
    forall t | t in targets
      ensures Wanted(v, t) ==> LinkOf(ConnectAll(f, targets, works), t.profile) == LinkOf(v, t.profile)
      ensures !Wanted(v, t) ==> Begun(LinkOf(ConnectAll(f, targets, works), t.profile), t, works(t), v.next)
    {
      if Wanted(v, t) {
        UnchangedStays(v, next, t.profile);
      } else {
        ChangedCleared(v, next, t.profile);
        ConnectAllBegins(f, targets, works, t.profile);
      }
    }
  }

  lemma UnchangedStays(v: View, next: map<ProfileId, Target>, p: ProfileId)
    requires Valid(v) && p in v.desired && p in next && next[p] == v.desired[p]
    ensures var f := Forget(v, Outdated(v, next));
            LinkOf(f, p) == LinkOf(v, p) && (p in f.entries || p in f.retries)
  {
    hide Consistent;
  }

  lemma ChangedCleared(v: View, next: map<ProfileId, Target>, p: ProfileId)
    requires Valid(v) && p in next && !(p in v.desired && v.desired[p] == next[p])
    ensures LinkOf(Forget(v, Outdated(v, next)), p) == Link(None, None, None)
  {
    hide LiveOk, Delay;
  }
}
