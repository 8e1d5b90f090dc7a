/** The upgrade to a shared endpoint: independent of profile order, losing no endpoint, and done once. */
module ConfigMigration {
  import opened Wrappers
  import opened Ordering
  import opened ConfigStore

  predicate DistinctIds(profiles: seq<Profile>) {
    forall i, j :: 0 <= i < j < |profiles| ==> profiles[i].id != profiles[j].id
  }

  lemma IdOrder()
    ensures StrictOrder(IdLess)
  {
    forall x: Profile, y: Profile, z: Profile
      ensures !IdLess(x, x)
      ensures IdLess(x, y) && IdLess(y, z) ==> IdLess(x, z)
      ensures IdLess(x, z) ==> IdLess(x, y) || IdLess(y, z)
    {
      StringOrder(x.id, y.id, z.id);
    }
  }

  lemma EndpointOrder()
    ensures StrictOrder(EndpointLess) && Total(EndpointLess)
  {
    hide StringLess;
    forall x: Endpoint, y: Endpoint, z: Endpoint
      ensures !EndpointLess(x, x)
      ensures EndpointLess(x, y) && EndpointLess(y, z) ==> EndpointLess(x, z)
      ensures EndpointLess(x, z) ==> EndpointLess(x, y) || EndpointLess(y, z)
      ensures x == y || EndpointLess(x, y) || EndpointLess(y, x)
    {
      StringOrder(x.host, y.host, z.host);
      StringIrreflexive(y.host);
      StringTotal(x.host, y.host);
      StringTotal(y.host, z.host);
    }
  }

  // ----- order -----

  /** A profile before the first of an increasing list goes in front. */
  lemma PrependIncreases(p: Profile, s: seq<Profile>)
    requires Increasing(IdLess, s) && (s != [] ==> IdLess(p, s[0]))
    ensures Increasing(IdLess, [p] + s)
  {
    hide StringLess;
    forall j | 0 <= j < |s|
      ensures IdLess(p, s[j])
    {
      if j > 0 {
        assert IdLess(s[0], s[j]);
        StringTrans(p.id, s[0].id, s[j].id);
      }
    }
  }

  /** What an insertion puts first comes from the list or is the profile inserted. */
  lemma InsertedFirst(p: Profile, s: seq<Profile>)
    ensures InsertBy(IdLess, p, s) != []
    ensures InsertBy(IdLess, p, s)[0] == p || (s != [] && InsertBy(IdLess, p, s)[0] == s[0])
  {
    hide StringLess;
  }

  lemma {:induction false} InsertIncreases(p: Profile, s: seq<Profile>)
    requires Increasing(IdLess, s) && forall q :: q in s ==> q.id != p.id
    ensures Increasing(IdLess, InsertBy(IdLess, p, s))
  {
    hide StringLess;
    if s == [] {
    } else if IdLess(s[0], p) {
      var rest := InsertBy(IdLess, p, s[1..]);
      InsertIncreases(p, s[1..]);
      InsertedFirst(p, s[1..]);
      hide Increasing;
      assert IdLess(s[0], rest[0]) by { SecondIsLater(s); }
      PrependIncreases(s[0], rest);
    } else {
      assert s[0] in s;
      StringTotal(s[0].id, p.id);
      PrependIncreases(p, s);
    }
  }

  lemma SecondIsLater(s: seq<Profile>)
    requires Increasing(IdLess, s)
    ensures |s| > 1 ==> IdLess(s[0], s[1..][0])
  {
  }

  lemma {:induction false} SortIncreases(profiles: seq<Profile>)
    requires DistinctIds(profiles)
    ensures Increasing(IdLess, SortBy(IdLess, profiles))
  {
    if profiles == [] {
    } else {
      SortIncreases(profiles[1..]);
      SortElements(IdLess, profiles[1..]);
      InsertIncreases(profiles[0], SortBy(IdLess, profiles[1..]));
    }
  }

  lemma LegacyTakes(p: Profile, profiles: seq<Profile>)
    ensures TakenFrom(FromLegacyProfile(p, profiles), p)
    ensures FromLegacyProfile(p, profiles).autoStart <==> exists q :: q in profiles && q.autoStart
  {
  }

  // ----- endpoints -----

  lemma {:induction false} OthersExact(own: Endpoint, profiles: seq<Profile>, e: Endpoint)
    ensures e in OtherEndpoints(own, profiles) <==> e != own && exists p :: p in profiles && At(p) == e
  {
    if profiles == [] {
    } else {
      OthersExact(own, profiles[1..], e);
      assert forall p :: p in profiles <==> p == profiles[0] || p in profiles[1..];
    }
  }

  /** No profile's id comes before p's. */
  predicate Least(p: Profile, profiles: seq<Profile>) {
    forall q :: q in profiles ==> !IdLess(q, p)
  }

  /** The broker is at the endpoint of the profile, with its ports and URLs. */
  predicate TakenFrom(b: Broker, p: Profile) {
    && Canonical(b) == At(p) && b.networkMode == p.networkMode && b.previewPort == p.previewPort
    && b.connectUrl == p.connectUrl && b.previewUrl == p.previewUrl
  }

  /** The broker of the upgrade: its endpoint is that of the profile with the first id, and its legacy
      listeners are exactly the other endpoints the profiles listened on, sorted and without duplicates; it
      starts by itself if any profile did. */
  lemma UpgradeCovers(c: Config)
    requires c.profiles != []
    ensures var u := Upgraded(c);
            && u.broker.Some?
            && Increasing(EndpointLess, u.broker.value.legacy)
            && Canonical(u.broker.value) !in u.broker.value.legacy
            && Reachable(u.broker.value) == (set p | p in c.profiles :: At(p))
            && (u.broker.value.autoStart <==> exists p :: p in c.profiles && p.autoStart)
    ensures exists p :: p in c.profiles && TakenFrom(Upgraded(c).broker.value, p) && Least(p, c.profiles)
  {
    hide SortBy, FromLegacyProfile, Least, EndpointLess;
    var sorted := SortBy(IdLess, c.profiles);
    SortedFirst(c.profiles);
    var b := FromLegacyProfile(sorted[0], sorted);
    LegacyExact(sorted[0], sorted);
    LegacyTakes(sorted[0], sorted);
    ReachableExact(b, sorted, c.profiles);
  }

  lemma SortedFirst(profiles: seq<Profile>)
    requires profiles != []
    ensures var sorted := SortBy(IdLess, profiles);
            sorted != [] && SameElements(sorted, profiles) && sorted[0] in profiles && Least(sorted[0], profiles)
  {
    hide StringLess;
    var sorted := SortBy(IdLess, profiles);
    SortElements(IdLess, profiles);
    IdOrder();
    SortOrders(IdLess, profiles);
    assert sorted[0] in sorted;
    forall q | q in profiles ensures !IdLess(q, sorted[0]) {
      assert q in sorted;
    }
  }

  lemma ReachableExact(b: Broker, sorted: seq<Profile>, profiles: seq<Profile>)
    requires sorted != [] && SameElements(sorted, profiles) && Canonical(b) == At(sorted[0])
    requires forall e :: e in b.legacy <==> e != At(sorted[0]) && exists q :: q in sorted && At(q) == e
    ensures Reachable(b) == set p | p in profiles :: At(p)
  {
    var all := set p | p in profiles :: At(p);
    assert sorted[0] in profiles;
    assert forall e :: e in Reachable(b) ==> e in all;
    assert forall e :: e in all ==> e in Reachable(b);
  }

  lemma LegacyExact(p: Profile, profiles: seq<Profile>)
    ensures var b := FromLegacyProfile(p, profiles);
            && Increasing(EndpointLess, b.legacy)
            && forall e :: e in b.legacy <==> e != At(p) && exists q :: q in profiles && At(q) == e
  {
    hide SortBy, Dedup, EndpointLess;
    var others := OtherEndpoints(At(p), profiles);
    EndpointOrder();
    SortDedup(EndpointLess, others);
    forall e ensures e in others <==> e != At(p) && exists q :: q in profiles && At(q) == e {
      OthersExact(At(p), profiles, e);
    }
  }

  /** The profile is reached at the broker, and its previews at its own port there. */
  predicate PointsAt(p: Profile, b: Broker) {
    && At(p) == Canonical(b) && p.networkMode == b.networkMode && p.connectUrl == b.connectUrl
    && p.previewUrl == Url(b.host, p.previewPort)
  }

  /** Every profile keeps its id, its preview port, its start setting and its details, takes the shared
      endpoint, and none is added or lost. */
  lemma UpgradeKeepsProfiles(c: Config)
    ensures var u := Upgraded(c);
            && |u.profiles| == |c.profiles|
            && (u.broker.Some? <==> c.profiles != [])
            && exists sorted: seq<Profile> ::
                 && multiset(sorted) == multiset(c.profiles) && |sorted| == |u.profiles|
                 && forall i :: 0 <= i < |sorted| ==>
                      && u.profiles[i].id == sorted[i].id && u.profiles[i].previewPort == sorted[i].previewPort
                      && u.profiles[i].autoStart == sorted[i].autoStart && u.profiles[i].details == sorted[i].details
                      && PointsAt(u.profiles[i], u.broker.value)
  {
    hide SortBy, FromLegacyProfile;
    var sorted, u := SortBy(IdLess, c.profiles), Upgraded(c);
    SortPermutes(IdLess, c.profiles);
    SortElements(IdLess, c.profiles);
    assert forall i :: 0 <= i < |sorted| ==>
      && u.profiles[i].id == sorted[i].id && u.profiles[i].previewPort == sorted[i].previewPort
      && u.profiles[i].autoStart == sorted[i].autoStart && u.profiles[i].details == sorted[i].details
      && PointsAt(u.profiles[i], u.broker.value);
  }

  /** A migrated configuration passes the strict reads and is not migrated again. */
  lemma MigratesOnce(c: Config)
    requires Migrate(c).Migrated?
    ensures Migrate(Migrate(c).config) == Unchanged && ConfigOk(Migrate(c).config)
  {
  }
}
