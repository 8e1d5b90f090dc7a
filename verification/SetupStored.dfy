/** What a successful setup leaves in the configuration: the profile and the endpoint that were asked for. */
module SetupStored {
  import opened Wrappers
  import opened Ordering
  import opened ConfigStore
  import opened ConfigMigration
  import opened Ports
  import opened Setup
  import opened SetupProofs

  /** The profiles agree on what belongs to the profile rather than to the broker. */
  predicate SameOwn(p: Profile, q: Profile) {
    p.id == q.id && p.previewPort == q.previewPort && p.autoStart == q.autoStart && p.details == q.details
  }

  /** Both lists hold the same profiles, up to what the broker decides. */
  ghost predicate SameOwns(a: seq<Profile>, b: seq<Profile>) {
    && (forall p :: p in a ==> exists q :: q in b && SameOwn(p, q))
    && (forall q :: q in b ==> exists p :: p in a && SameOwn(p, q))
  }

  lemma ApplyAllOwns(b: Broker, profiles: seq<Profile>)
    ensures SameOwns(ApplyAll(b, profiles), profiles)
    ensures forall p :: p in ApplyAll(b, profiles) ==> PointsAt(p, b)
  {
    hide Url;
    var all := ApplyAll(b, profiles);
    forall q | q in profiles
      ensures exists p :: p in all && SameOwn(p, q)
    {
      var i :| 0 <= i < |profiles| && profiles[i] == q;
      assert all[i] in all && SameOwn(all[i], q);
    }
    forall p | p in all
      ensures exists q :: q in profiles && SameOwn(p, q)
      ensures PointsAt(p, b)
    {
      var i :| 0 <= i < |all| && all[i] == p;
      assert profiles[i] in profiles && SameOwn(p, profiles[i]);
    }
  }

  lemma OwnsRefl(profiles: seq<Profile>)
    ensures SameOwns(profiles, profiles)
  {
    forall p | p in profiles
      ensures SameOwn(p, p)
    {
    }
  }

  /** Settling the broker leaves every profile its own fields. */
  lemma SettledOwns(c: Config, req: Request, probe: Probe, mid: Config)
    requires WithBroker(c, req, probe) == Some(mid)
    ensures SameOwns(mid.profiles, c.profiles)
  {
    hide ApplyAll, Replacement, BrokerOk, SameOwns, NewPort;
    if c.broker.Some? && EndpointChanged(req, c.broker.value) {
      ApplyAllOwns(Replacement(req, c.broker.value, NewPort(c, req, probe).value), c.profiles);
    } else {
      OwnsRefl(c.profiles);
    }
  }

  /** The broker after a setup is at the endpoint asked for, with the settings it had. */
  ghost predicate AsAsked(before: Option<Broker>, req: Request, b: Broker) {
    && b.host == req.host && b.networkMode == req.networkMode && (req.port.Some? ==> b.bridgePort == req.port.value)
    && (before.Some? ==>
          && b.autoStart == before.value.autoStart && b.maxWorkers == before.value.maxWorkers
          && b.maxIdleWorkers == before.value.maxIdleWorkers && b.idleGraceMs == before.value.idleGraceMs
          && b.startTimeoutMs == before.value.startTimeoutMs)
    && (before.None? || EndpointChanged(req, before.value) ==>
          && b.previewPort == b.bridgePort + 1
          && b.connectUrl == Url(b.host, b.bridgePort) && b.previewUrl == Url(b.host, b.previewPort))
    && (before.Some? && !EndpointChanged(req, before.value) ==> b == before.value)
  }

  lemma SettledAsAsked(c: Config, req: Request, probe: Probe, mid: Config)
    requires Acceptable(req) && WithBroker(c, req, probe) == Some(mid)
    ensures mid.broker.Some? && AsAsked(c.broker, req, mid.broker.value)
  {
    hide BrokerOk, Url, SortBy, Dedup, FirstPair, FreePair, ApplyAll;
    if req.port.Some? && NewPort(c, req, probe).Some? {
      assert NewPort(c, req, probe) == req.port;
    }
  }

  /** The profile that a setup stores. */
  ghost predicate AsRequested(c: Config, req: Request, b: Broker, p: Profile) {
    && p.id == req.id && p.details == req.details && PointsAt(p, b)
    && (forall o :: o in c.profiles && o.id == req.id ==> p.previewPort == o.previewPort && p.autoStart == o.autoStart)
    && ((forall o :: o in c.profiles ==> o.id != req.id) ==> !p.autoStart)
  }

  lemma NewProfileAsRequested(c: Config, mid: Config, req: Request, bindable: nat -> bool, preview: nat)
    requires mid.broker.Some? && mid.broker.value.previewPort <= MAX_PORT && SameOwns(mid.profiles, c.profiles)
    requires PreviewPort(mid, req.id, bindable, mid.broker.value.previewPort) == Some(preview)
    requires DistinctIds(c.profiles)
    ensures AsRequested(c, req, mid.broker.value, NewProfile(mid, req, mid.broker.value, preview))
  {
    hide LeastFree, Url, SameOwns, SameOwn, Find, DistinctIds;
    FoundOwns(c.profiles, mid.profiles, req.id);
    forall o | o in c.profiles && o.id == req.id
      ensures Find(mid.profiles, req.id).Some?
      ensures preview == o.previewPort && Find(mid.profiles, req.id).value.autoStart == o.autoStart
    {
      OwnFields(Find(mid.profiles, req.id).value, o);
    }
  }

  lemma OwnFields(p: Profile, q: Profile)
    requires SameOwn(p, q)
    ensures p.id == q.id && p.previewPort == q.previewPort && p.autoStart == q.autoStart
  {
  }

  lemma OneOfId(profiles: seq<Profile>, p: Profile, q: Profile)
    requires DistinctIds(profiles) && p in profiles && q in profiles && p.id == q.id
    ensures p == q
  {
  }

  /** The profile found by its id is the one from before, up to what the broker decides. */
  lemma FoundOwns(before: seq<Profile>, mid: seq<Profile>, id: string)
    requires SameOwns(mid, before) && DistinctIds(before)
    ensures forall o :: o in before && o.id == id ==> Find(mid, id).Some? && SameOwn(Find(mid, id).value, o)
    ensures (forall o :: o in before ==> o.id != id) ==> Find(mid, id).None?
  {
    hide SameOwn, Find, DistinctIds;
    FindIs(mid, id);
    if Find(mid, id).Some? {
      var found := Find(mid, id).value;
      var from :| from in before && SameOwn(found, from);
      OwnFields(found, from);
      forall o | o in before && o.id == id
        ensures SameOwn(found, o)
      {
        OneOfId(before, from, o);
      }
    } else {
      forall o | o in before
        ensures o.id != id
      {
        var q :| q in mid && SameOwn(q, o);
        OwnFields(q, o);
      }
    }
  }

  /** After a successful setup the broker is as asked; exactly one profile has the request's id, and it is
      as requested, keeping preview port and start setting of the one it replaces; and the other profiles
      are those of before with their own fields. */
  lemma SetUpStores(c: Config, req: Request, probe: Probe, d: Config) returns (p: Profile)
    requires Inv(c) && PortsFit(c) && SetUp(c, req, probe) == Some(d)
    ensures d.broker.Some? && AsAsked(c.broker, req, d.broker.value)
    ensures p in d.profiles && AsRequested(c, req, d.broker.value, p)
    ensures forall q :: q in d.profiles && q.id == req.id ==> q == p
    ensures forall q :: q in d.profiles && q.id != req.id ==> exists o :: o in c.profiles && SameOwn(q, o)
    ensures forall o :: o in c.profiles && o.id != req.id ==> exists q :: q in d.profiles && SameOwn(q, o)
  {
    hide Inv, WithBroker, IdLess, EndpointLess, Stored, PreviewPort, ConfigOk, AsAsked, AsRequested, Upserted, SameOwn;
    var mid := WithBroker(c, req, probe).value;
    BrokerSettled(c, req, probe);
    SettledOwns(c, req, probe, mid);
    SettledAsAsked(c, req, probe, mid);
    WithBrokerSettles(c, req, probe, mid);
    var b := mid.broker.value;
    var preview := PreviewPort(mid, req.id, On(probe, b.host), b.previewPort).value;
    InvDistinct(c);
    NewProfileAsRequested(c, mid, req, On(probe, b.host), preview);
    p := NewProfile(mid, req, b, preview);
    IncreasingIds(mid.profiles);
    UpsertedIs(mid.profiles, p);
    StoredIs(mid.(profiles := Upserted(mid.profiles, p)));
    OthersStored(c.profiles, mid.profiles, d.profiles, p);
  }

  lemma InvDistinct(c: Config)
    requires Inv(c)
    ensures DistinctIds(c.profiles)
  {
    IncreasingIds(c.profiles);
  }

  lemma OthersStored(before: seq<Profile>, mid: seq<Profile>, after: seq<Profile>, p: Profile)
    requires SameOwns(mid, before) && forall q :: q in after <==> q == p || (q in mid && q.id != p.id)
    ensures forall q :: q in after && q.id != p.id ==> exists o :: o in before && SameOwn(q, o)
    ensures forall o :: o in before && o.id != p.id ==> exists q :: q in after && SameOwn(q, o)
  {
    hide SameOwn;
    forall q | q in after && q.id != p.id
      ensures exists o :: o in before && SameOwn(q, o)
    {
      assert q in mid;
    }
    forall o | o in before && o.id != p.id
      ensures exists q :: q in after && SameOwn(q, o)
    {
      var q :| q in mid && SameOwn(q, o);
      OwnFields(q, o);
      assert q in after;
    }
  }

  // ----- every profile points at the broker -----

  ghost predicate AllPoint(broker: Option<Broker>, profiles: seq<Profile>) {
    forall p :: p in profiles ==> broker.Some? && PointsAt(p, broker.value)
  }

  lemma SettledPoint(c: Config, req: Request, probe: Probe, mid: Config)
    requires WithBroker(c, req, probe) == Some(mid) && Inv(c) && AllPoint(c.broker, c.profiles)
    ensures AllPoint(mid.broker, mid.profiles)
  {
    hide ApplyAll, Replacement, BrokerOk, NewPort, NewBroker, PointsAt, BrokerFits, PreviewsApart;
    if c.broker.Some? && EndpointChanged(req, c.broker.value) {
      ApplyAllOwns(Replacement(req, c.broker.value, NewPort(c, req, probe).value), c.profiles);
    }
  }

  lemma SetUpPoints(c: Config, req: Request, probe: Probe, d: Config)
    requires Inv(c) && PortsFit(c) && AllPoint(c.broker, c.profiles) && SetUp(c, req, probe) == Some(d)
    ensures AllPoint(d.broker, d.profiles)
  {
    hide Inv, WithBroker, IdLess, EndpointLess, Stored, PreviewPort, ConfigOk, Upserted, Url;
    var mid := WithBroker(c, req, probe).value;
    BrokerSettled(c, req, probe);
    SettledPoint(c, req, probe, mid);
    WithBrokerSettles(c, req, probe, mid);
    var b := mid.broker.value;
    var preview := PreviewPort(mid, req.id, On(probe, b.host), b.previewPort).value;
    var p := NewProfile(mid, req, b, preview);
    IncreasingIds(mid.profiles);
    UpsertedIs(mid.profiles, p);
    StoredIs(mid.(profiles := Upserted(mid.profiles, p)));
  }

  lemma TakeAwayPoints(c: Config, id: string, d: Config)
    requires Inv(c) && AllPoint(c.broker, c.profiles) && TakeAway(c, id) == Some(d)
    ensures AllPoint(d.broker, d.profiles)
  {
    hide Inv, PointsAt, Stored, ConfigOk, Without;
    InvDistinct(c);
    WithoutIs(c.profiles, id);
    var left := Without(c.profiles, id);
    StoredIs(c.(profiles := left, broker := if left == [] then None else c.broker));
  }

  /** After any operations from an empty configuration every profile carries the broker's network mode,
      endpoint and connect URL, and the preview URL of its own preview port on the broker's host. */
  lemma {:induction false} ProfilesPoint(ops: seq<Op>)
    ensures AllPoint(RunOps(ops).broker, RunOps(ops).profiles)
  {
    hide Inv, SetUp, TakeAway, AllPoint;
    if ops == [] {
      NoneToPoint();
    } else {
      var c, op := RunOps(ops[..|ops| - 1]), ops[|ops| - 1];
      ProfilesPoint(ops[..|ops| - 1]);
      OpsKeep(ops[..|ops| - 1]);
      InvFits(c);
      match op
      case SetupOp(req, probe) =>
        if SetUp(c, req, probe).Some? {
          SetUpPoints(c, req, probe, SetUp(c, req, probe).value);
        }
      case RemoveOp(id) =>
        if TakeAway(c, id).Some? {
          TakeAwayPoints(c, id, TakeAway(c, id).value);
        }
    }
  }

  lemma NoneToPoint()
    ensures AllPoint(EMPTY.broker, EMPTY.profiles)
  {
  }

  // ----- when a setup succeeds -----

  /** Moving the endpoint has to be asked for, and no broker may be running there. */
  predicate MayMove(c: Config, req: Request) {
    c.broker.Some? && EndpointChanged(req, c.broker.value) ==> req.replace && !req.running
  }

  predicate NeedsPair(c: Config, req: Request) {
    c.broker.None? || EndpointChanged(req, c.broker.value)
  }

  /** The pair asked for is free, or some pair from the first bridge port on if none was asked for. */
  ghost predicate PairFree(c: Config, req: Request, probe: Probe) {
    var claimed, bindable := ClaimedByOthers(c, req.id), On(probe, req.host);
    if req.port.Some? then FreePair(claimed, bindable, req.port.value)
    else exists q: nat :: InStep(FIRST_BRIDGE_PORT, q) && q < MAX_PORT && FreePair(claimed, bindable, q)
  }

  /** The profile has a preview port or there is a free one. */
  ghost predicate PreviewFree(c: Config, mid: Config, req: Request, probe: Probe)
    requires mid.broker.Some?
  {
    var b := mid.broker.value;
    || (exists p :: p in c.profiles && p.id == req.id)
    || (exists q: nat :: b.previewPort <= q <= MAX_PORT && Free(Claimed(mid), On(probe, b.host), q))
  }

  lemma NewPortIff(c: Config, req: Request, probe: Probe)
    requires Acceptable(req)
    ensures NewPort(c, req, probe).Some? <==> PairFree(c, req, probe)
  {
    hide InStep, FreePair, ClaimedByOthers;
  }

  lemma UrlIsText(host: string, port: nat)
    ensures !Blank(Url(host, port))
  {
    hide Authority, Decimal;
    var url := Url(host, port);
    assert url[0] == 'h' && !IsSpace(url[0]);
  }

  lemma NewBrokerOk(req: Request, port: nat)
    requires Acceptable(req) && port >= 1
    ensures BrokerOk(NewBroker(req, port))
  {
    hide Url, Blank;
    UrlIsText(req.host, port);
    UrlIsText(req.host, port + 1);
  }

  lemma ReplacementOk(req: Request, b: Broker, port: nat)
    requires Acceptable(req) && port >= 1 && BrokerOk(b)
    ensures BrokerOk(Replacement(req, b, port))
  {
    hide Url, Blank, SortBy, Dedup, EndpointLess;
    UrlIsText(req.host, port);
    UrlIsText(req.host, port + 1);
    EndpointOrder();
    SortDedup(EndpointLess, b.legacy + [Canonical(b)]);
  }

  /** Exactly when the broker can be settled, and that its settings are then valid. */
  lemma SettlesIff(c: Config, req: Request, probe: Probe)
    requires Acceptable(req) && (c.broker.Some? ==> BrokerOk(c.broker.value))
    ensures WithBroker(c, req, probe).Some? <==> MayMove(c, req) && (NeedsPair(c, req) ==> PairFree(c, req, probe))
    ensures WithBroker(c, req, probe).Some? ==>
              WithBroker(c, req, probe).value.broker.Some? && BrokerOk(WithBroker(c, req, probe).value.broker.value)
  {
    hide Acceptable, BrokerOk, Replacement, NewBroker, ApplyAll, PairFree;
    NewPortIff(c, req, probe);
    if NewPort(c, req, probe).Some? {
      var port := NewPort(c, req, probe).value;
      NewBrokerOk(req, port);
      if c.broker.Some? {
        ReplacementOk(req, c.broker.value, port);
      }
    }
  }

  lemma PreviewIff(c: Config, mid: Config, req: Request, probe: Probe)
    requires mid.broker.Some? && 1 <= mid.broker.value.previewPort <= MAX_PORT && SameOwns(mid.profiles, c.profiles)
    ensures PreviewPort(mid, req.id, On(probe, mid.broker.value.host), mid.broker.value.previewPort).Some? <==>
            PreviewFree(c, mid, req, probe)
  {
    hide Free, Claimed;
    FindIs(mid.profiles, req.id);
    if Find(mid.profiles, req.id).Some? {
      var p := Find(mid.profiles, req.id).value;
      var o :| o in c.profiles && SameOwn(p, o);
    }
  }

  lemma OkPreview(b: Broker)
    requires BrokerOk(b)
    ensures b.previewPort >= 1
  {
  }

  /** A setup succeeds exactly when the request is acceptable, the endpoint stays or may move, a pair of
      ports is free for a new endpoint, and the profile has or finds a preview port. */
  lemma SetUpSucceedsIff(c: Config, req: Request, probe: Probe)
    requires Inv(c) && PortsFit(c) && ConfigOk(c)
    ensures SetUp(c, req, probe).Some? <==>
            && Acceptable(req) && MayMove(c, req) && (NeedsPair(c, req) ==> PairFree(c, req, probe))
            && var mid := WithBroker(c, req, probe);
            mid.Some? && mid.value.broker.Some? && PreviewFree(c, mid.value, req, probe)
  {
    hide Inv, WithBroker, PreviewPort, BrokerOk, Acceptable, PairFree, NeedsPair, MayMove, PreviewFree, SortBy,
        Upserted;
    if Acceptable(req) {
      SettlesIff(c, req, probe);
      if WithBroker(c, req, probe).Some? {
        var mid := WithBroker(c, req, probe).value;
        BrokerSettled(c, req, probe);
        SettledOwns(c, req, probe, mid);
        OkPreview(mid.broker.value);
        PreviewIff(c, mid, req, probe);
      }
    }
  }

  // ----- removing -----

  /** A removal from a valid configuration succeeds, takes away exactly the profile with that id, keeps
      the others as they are, and takes the broker with the last one. */
  lemma RemovalStores(c: Config, id: string)
    requires Inv(c) && ConfigOk(c)
    ensures TakeAway(c, id).Some?
    ensures var d := TakeAway(c, id).value;
            && (forall p :: p in d.profiles <==> p in c.profiles && p.id != id)
            && d.broker == if d.profiles == [] then None else c.broker
  {
    hide Inv, BrokerOk, SortBy, Without;
    InvDistinct(c);
    WithoutIs(c.profiles, id);
    var left := Without(c.profiles, id);
    SortElements(IdLess, left);
    if left == [] {
      assert SortBy(IdLess, left) == [] by { assert |SortBy(IdLess, left)| == 0; }
    } else {
      assert left[0] in c.profiles;
    }
    StoredIs(c.(profiles := left, broker := if left == [] then None else c.broker));
  }
}
