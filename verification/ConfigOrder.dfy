/** Exactly when the upgrade depends on the order in which the profiles are stored. */
module ConfigOrder {
  import opened Wrappers
  import opened Ordering
  import opened ConfigStore
  import opened ConfigMigration

  /** The profiles agree on what the shared endpoint does not overwrite. */
  predicate KeepsAlike(p: Profile, q: Profile) {
    p.previewPort == q.previewPort && p.autoStart == q.autoStart && p.details == q.details
  }

  /** Profiles that share an id are equal, or their id is not the first and they agree on what the upgrade keeps. */
  predicate Interchangeable(profiles: seq<Profile>) {
    forall p, q :: p in profiles && q in profiles && p.id == q.id ==>
      p == q || (!Least(p, profiles) && KeepsAlike(p, q))
  }

  ghost predicate OrderFree(c: Config) {
    forall d: Config :: multiset(d.profiles) == multiset(c.profiles) ==> Upgraded(d) == Upgraded(c)
  }

  // ----- sorted ids do not depend on the order -----

  function Ids(profiles: seq<Profile>): (r: seq<string>)
    ensures |r| == |profiles|
  {
    seq(|profiles|, i requires 0 <= i < |profiles| => profiles[i].id)
  }

  function Sans(profiles: seq<Profile>, i: nat): (r: seq<Profile>)
    requires i < |profiles|
    ensures |r| == |profiles| - 1
  {
    profiles[..i] + profiles[i + 1..]
  }

  lemma WithoutOne(profiles: seq<Profile>, i: nat)
    requires i < |profiles|
    ensures multiset(profiles) == multiset(Sans(profiles, i)) + multiset{profiles[i]}
  {
    assert profiles == profiles[..i] + [profiles[i]] + profiles[i + 1..];
  }

  lemma IdsWithoutOne(profiles: seq<Profile>, i: nat)
    requires i < |profiles|
    ensures multiset(Ids(profiles)) == multiset(Ids(Sans(profiles, i))) + multiset{profiles[i].id}
  {
    assert Ids(profiles) == Ids(profiles[..i]) + [profiles[i].id] + Ids(profiles[i + 1..]);
    assert Ids(Sans(profiles, i)) == Ids(profiles[..i]) + Ids(profiles[i + 1..]);
  }

  lemma {:induction false} IdsPermute(a: seq<Profile>, b: seq<Profile>)
    requires multiset(a) == multiset(b)
    ensures multiset(Ids(a)) == multiset(Ids(b))
    decreases |a|
  {
    hide Ids, Sans;
    MultisetElements(a, b);
    if a == [] {
      assert b == [];
    } else {
      assert a[0] in b;
      var i :| 0 <= i < |b| && b[i] == a[0];
      WithoutOne(a, 0);
      WithoutOne(b, i);
      assert multiset(Sans(a, 0)) == multiset(a) - multiset{a[0]};
      assert multiset(Sans(b, i)) == multiset(b) - multiset{b[i]};
      IdsPermute(Sans(a, 0), Sans(b, i));
      IdsWithoutOne(a, 0);
      IdsWithoutOne(b, i);
    }
  }

  lemma SortedIdsAgree(a: seq<Profile>, b: seq<Profile>)
    requires multiset(a) == multiset(b)
    ensures Ids(SortBy(IdLess, a)) == Ids(SortBy(IdLess, b))
  {
    hide StringLess, SortBy;
    IdOrder();
    SortOrders(IdLess, a);
    SortOrders(IdLess, b);
    SortPermutes(IdLess, a);
    SortPermutes(IdLess, b);
    IdsPermute(SortBy(IdLess, a), SortBy(IdLess, b));
    IdsOrdered(SortBy(IdLess, a));
    IdsOrdered(SortBy(IdLess, b));
    OrderedStringsUnique(Ids(SortBy(IdLess, a)), Ids(SortBy(IdLess, b)));
  }

  lemma IdsOrdered(profiles: seq<Profile>)
    requires Ordered(IdLess, profiles)
    ensures Ordered(StringLess, Ids(profiles))
  {
    hide StringLess;
    forall i, j | 0 <= i < j < |profiles|
      ensures !StringLess(Ids(profiles)[j], Ids(profiles)[i])
    {
      assert !IdLess(profiles[j], profiles[i]);
    }
  }

  /** The broker made from a profile depends on the other profiles as a set. */
  lemma BrokerOfSet(p: Profile, a: seq<Profile>, b: seq<Profile>)
    requires SameElements(a, b)
    ensures FromLegacyProfile(p, a) == FromLegacyProfile(p, b)
  {
    hide SortBy, Dedup, EndpointLess;
    LegacyExact(p, a);
    LegacyExact(p, b);
    EndpointOrder();
    IncreasingIsUnique(EndpointLess, FromLegacyProfile(p, a).legacy, FromLegacyProfile(p, b).legacy);
  }

  // ----- interchangeable profiles: the order does not matter -----

  lemma PlacesAgree(profiles: seq<Profile>, b: Broker, one: seq<Profile>, two: seq<Profile>)
    requires Interchangeable(profiles) && SameElements(one, profiles) && SameElements(two, profiles)
    requires Ids(one) == Ids(two)
    ensures ApplyAll(b, one) == ApplyAll(b, two)
  {
    hide Least, Url;
    assert |one| == |Ids(one)| == |two|;
    forall i | 0 <= i < |one|
      ensures ApplyEndpoint(b, one[i]) == ApplyEndpoint(b, two[i])
    {
      assert one[i].id == Ids(one)[i] == Ids(two)[i] == two[i].id;
      assert one[i] in profiles && two[i] in profiles;
    }
  }

  lemma InterchangeableIsOrderFree(c: Config, d: Config)
    requires Interchangeable(c.profiles) && multiset(d.profiles) == multiset(c.profiles)
    ensures Upgraded(d) == Upgraded(c)
  {
    hide SortBy, FromLegacyProfile, ApplyAll, Interchangeable, Least;
    var one, two := SortBy(IdLess, c.profiles), SortBy(IdLess, d.profiles);
    SortedIdsAgree(c.profiles, d.profiles);
    MultisetElements(c.profiles, d.profiles);
    SortElements(IdLess, c.profiles);
    SortElements(IdLess, d.profiles);
    if c.profiles == [] {
      assert one == [] && two == [];
    } else {
      SortedFirst(c.profiles);
      assert two[0] in d.profiles && one[0].id == Ids(one)[0] == Ids(two)[0] == two[0].id;
      LeastIsOne(c.profiles, one[0], two[0]);
      BrokerOfSet(one[0], one, two);
      PlacesAgree(c.profiles, FromLegacyProfile(one[0], one), one, two);
    }
  }

  lemma LeastIsOne(profiles: seq<Profile>, p: Profile, q: Profile)
    requires Interchangeable(profiles) && p in profiles && q in profiles && p.id == q.id && Least(p, profiles)
    ensures p == q
  {
    hide Least;
  }

  // ----- profiles that are not: an order that shows it -----

  /** How many profiles have an id before the given one. */
  function CountBelow(id: string, profiles: seq<Profile>): nat {
    if profiles == [] then 0
    else (if StringLess(profiles[0].id, id) then 1 else 0) + CountBelow(id, profiles[1..])
  }

  lemma {:induction false} NoneBelow(id: string, profiles: seq<Profile>)
    requires forall q :: q in profiles ==> !StringLess(q.id, id)
    ensures CountBelow(id, profiles) == 0
  {
    if profiles == [] {
    } else {
      NoneBelow(id, profiles[1..]);
    }
  }

  lemma {:induction false} CountInserted(id: string, p: Profile, s: seq<Profile>)
    ensures CountBelow(id, InsertBy(IdLess, p, s)) == CountBelow(id, s) + if StringLess(p.id, id) then 1 else 0
  {
    hide StringLess;
    if s == [] || !IdLess(s[0], p) {
      assert ([p] + s)[1..] == s;
    } else {
      var rest := InsertBy(IdLess, p, s[1..]);
      assert ([s[0]] + rest)[1..] == rest;
      CountInserted(id, p, s[1..]);
    }
  }

  lemma {:induction false} CountSorted(id: string, profiles: seq<Profile>)
    ensures CountBelow(id, SortBy(IdLess, profiles)) == CountBelow(id, profiles)
  {
    if profiles == [] {
    } else {
      CountSorted(id, profiles[1..]);
      CountInserted(id, profiles[0], SortBy(IdLess, profiles[1..]));
    }
  }

  /** An insertion puts the profile before all others with its id. */
  lemma {:induction false} InsertedAt(p: Profile, s: seq<Profile>)
    requires Ordered(IdLess, s)
    ensures var r, k := InsertBy(IdLess, p, s), CountBelow(p.id, s); k < |r| && r[k] == p
  {
    hide StringLess;
    if s == [] {
    } else if !IdLess(s[0], p) {
      forall q | q in s
        ensures !StringLess(q.id, p.id)
      {
        var j :| 0 <= j < |s| && s[j] == q;
        assert j > 0 ==> !IdLess(s[j], s[0]);
        StringOrder(q.id, s[0].id, p.id);
      }
      NoneBelow(p.id, s);
    } else {
      InsertedAt(p, s[1..]);
    }
  }

  /** The first stored of the profiles with its id comes out at the place given by the ids before it. */
  lemma FirstStored(p: Profile, rest: seq<Profile>)
    ensures var sorted, k := SortBy(IdLess, [p] + rest), CountBelow(p.id, rest); k < |sorted| && sorted[k] == p
  {
    hide InsertBy;
    assert ([p] + rest)[1..] == rest;
    IdOrder();
    SortOrders(IdLess, rest);
    InsertedAt(p, SortBy(IdLess, rest));
    CountSorted(p.id, rest);
  }

  lemma PullOne(profiles: seq<Profile>, p: Profile) returns (rest: seq<Profile>)
    requires p in profiles
    ensures multiset(profiles) == multiset([p] + rest)
  {
    var i :| 0 <= i < |profiles| && profiles[i] == p;
    rest := Sans(profiles, i);
    WithoutOne(profiles, i);
  }

  /** Two different profiles can be stored first and second, either way round. */
  lemma PullTwo(profiles: seq<Profile>, p: Profile, q: Profile) returns (rest: seq<Profile>)
    requires p in profiles && q in profiles && p != q
    ensures multiset(profiles) == multiset([p, q] + rest) == multiset([q, p] + rest)
  {
    var without := PullOne(profiles, p);
    MultisetElements(profiles, [p] + without);
    assert q in [p] + without && q in without;
    rest := PullOne(without, q);
    assert [p, q] + rest == [p] + ([q] + rest) && [q, p] + rest == [q] + ([p] + rest);
  }

  /** Where the pair comes out, and that the one stored first is there. */
  lemma PairPlaces(p: Profile, q: Profile, rest: seq<Profile>)
    requires p.id == q.id
    ensures var sorted, k := SortBy(IdLess, [p, q] + rest), CountBelow(p.id, rest); k < |sorted| && sorted[k] == p
  {
    hide SortBy, StringLess;
    assert [p, q] + rest == [p] + ([q] + rest);
    FirstStored(p, [q] + rest);
    StringIrreflexive(p.id);
    assert ([q] + rest)[1..] == rest;
  }

  lemma KeptDiffers(p: Profile, q: Profile, one: Config, two: Config, k: nat)
    requires !KeepsAlike(p, q)
    requires k < |SortBy(IdLess, one.profiles)| && SortBy(IdLess, one.profiles)[k] == p
    requires k < |SortBy(IdLess, two.profiles)| && SortBy(IdLess, two.profiles)[k] == q
    ensures Upgraded(one) != Upgraded(two)
  {
    hide SortBy, FromLegacyProfile, Url;
    assert KeepsAlike(Upgraded(one).profiles[k], p) && KeepsAlike(Upgraded(two).profiles[k], q);
  }

  lemma FirstDiffers(p: Profile, q: Profile, one: Config, two: Config)
    requires p != q && p.id == q.id && KeepsAlike(p, q)
    requires SortBy(IdLess, one.profiles) != [] && SortBy(IdLess, one.profiles)[0] == p
    requires SortBy(IdLess, two.profiles) != [] && SortBy(IdLess, two.profiles)[0] == q
    ensures Upgraded(one) != Upgraded(two)
  {
    hide SortBy, ApplyAll, Dedup;
    var b, d := Upgraded(one).broker.value, Upgraded(two).broker.value;
    assert (b.networkMode, b.host, b.bridgePort, b.connectUrl, b.previewUrl)
        == (p.networkMode, p.host, p.bridgePort, p.connectUrl, p.previewUrl);
    assert (d.networkMode, d.host, d.bridgePort, d.connectUrl, d.previewUrl)
        == (q.networkMode, q.host, q.bridgePort, q.connectUrl, q.previewUrl);
  }

  /** Profiles that are not interchangeable can be stored in two orders that upgrade differently. */
  lemma OrderShows(c: Config, p: Profile, q: Profile) returns (one: Config, two: Config)
    requires p in c.profiles && q in c.profiles && p.id == q.id && p != q
    requires Least(p, c.profiles) || !KeepsAlike(p, q)
    ensures multiset(one.profiles) == multiset(c.profiles) == multiset(two.profiles) && Upgraded(one) != Upgraded(two)
  {
    hide SortBy, Upgraded;
    var rest := PullTwo(c.profiles, p, q);
    one, two := c.(profiles := [p, q] + rest), c.(profiles := [q, p] + rest);
    PairPlaces(p, q, rest);
    PairPlaces(q, p, rest);
    if !KeepsAlike(p, q) {
      KeptDiffers(p, q, one, two, CountBelow(p.id, rest));
    } else {
      MultisetElements(c.profiles, one.profiles);
      assert forall r :: r in rest ==> r in one.profiles;
      forall r | r in rest
        ensures !StringLess(r.id, p.id)
      {
        assert !IdLess(r, p);
      }
      NoneBelow(p.id, rest);
      FirstDiffers(p, q, one, two);
    }
  }

  /** The upgrade gives the same result for every order of the stored profiles if and only if profiles
      that share an id are interchangeable. */
  lemma OrderFreeIff(c: Config)
    ensures OrderFree(c) <==> Interchangeable(c.profiles)
  {
    hide Upgraded, Least, KeepsAlike;
    if Interchangeable(c.profiles) {
      forall d: Config | multiset(d.profiles) == multiset(c.profiles)
        ensures Upgraded(d) == Upgraded(c)
      {
        InterchangeableIsOrderFree(c, d);
      }
    } else {
      var p, q :| p in c.profiles && q in c.profiles && p.id == q.id && p != q
          && (Least(p, c.profiles) || !KeepsAlike(p, q));
      var one, two := OrderShows(c, p, q);
      assert Upgraded(one) != Upgraded(c) || Upgraded(two) != Upgraded(c);
    }
  }

  /** Distinct ids are enough, for the upgrade and for the migration. */
  lemma UpgradeIgnoresOrder(c: Config, d: Config)
    requires DistinctIds(c.profiles) && multiset(c.profiles) == multiset(d.profiles)
    ensures Upgraded(c) == Upgraded(d)
    ensures c.version == d.version ==> Migrate(c) == Migrate(d)
  {
    hide Upgraded, Least, KeepsAlike;
    assert Interchangeable(c.profiles);
    InterchangeableIsOrderFree(c, d);
  }
}
