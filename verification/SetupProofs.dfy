/** What every sequence of setups and removals keeps. */
module SetupProofs {
  import opened Wrappers
  import opened Ordering
  import opened ConfigStore
  import opened ConfigMigration
  import opened Ports
  import opened Setup

  predicate PreviewsApart(profiles: seq<Profile>) {
    forall p, q :: p in profiles && q in profiles && p.id != q.id ==> p.previewPort != q.previewPort
  }

  predicate Shared(broker: Option<Broker>, profiles: seq<Profile>) {
    if broker.None? then profiles == []
    else profiles != [] && forall p :: p in profiles ==> At(p) == Canonical(broker.value)
  }

  predicate BrokerFits(broker: Option<Broker>) {
    broker.Some? ==> broker.value.previewPort <= MAX_PORT && Increasing(EndpointLess, broker.value.legacy)
  }

  predicate Inv(c: Config) {
    && c.version == CONFIG_VERSION
    && BrokerFits(c.broker)
    && Increasing(IdLess, c.profiles)
    && PreviewsApart(c.profiles)
    && Shared(c.broker, c.profiles)
  }

  lemma InvFits(c: Config)
    requires Inv(c)
    ensures PortsFit(c)
  {
  }

  lemma IncreasingIds(profiles: seq<Profile>)
    requires Increasing(IdLess, profiles)
    ensures DistinctIds(profiles)
  {
    hide StringLess;
    forall i, j | 0 <= i < j < |profiles| ensures profiles[i].id != profiles[j].id {
      assert IdLess(profiles[i], profiles[j]);
      StringIrreflexive(profiles[i].id);
    }
  }

  // ----- lists of profiles -----

  lemma {:induction false} FindIs(profiles: seq<Profile>, id: string)
    ensures match Find(profiles, id)
            case Some(p) => p in profiles && p.id == id
            case None => forall p :: p in profiles ==> p.id != id
  {
    if profiles == [] {
    } else {
      FindIs(profiles[1..], id);
    }
  }

  lemma {:induction false} UpsertedIs(profiles: seq<Profile>, p: Profile)
    requires DistinctIds(profiles)
    ensures DistinctIds(Upserted(profiles, p))
    ensures forall q :: q in Upserted(profiles, p) <==> q == p || (q in profiles && q.id != p.id)
  {
    if profiles == [] {
    } else {
      var rest := Upserted(profiles[1..], p);
      UpsertedIs(profiles[1..], p);
      assert forall q :: q in profiles <==> q == profiles[0] || q in profiles[1..];
      if profiles[0].id == p.id {
        assert forall q :: q in profiles[1..] ==> q.id != p.id;
      } else {
        assert forall q :: q in rest ==> q.id != profiles[0].id;
      }
    }
  }

  lemma {:induction false} WithoutIs(profiles: seq<Profile>, id: string)
    requires DistinctIds(profiles)
    ensures DistinctIds(Without(profiles, id))
    ensures forall q :: q in Without(profiles, id) <==> q in profiles && q.id != id
  {
    if profiles == [] {
    } else {
      WithoutIs(profiles[1..], id);
      assert forall q :: q in profiles <==> q == profiles[0] || q in profiles[1..];
      assert forall q :: q in Without(profiles[1..], id) ==> q.id != profiles[0].id;
    }
  }

  /** Storing sorts the profiles and changes nothing else. */
  lemma StoredIs(c: Config)
    requires DistinctIds(c.profiles) && Stored(c).Some?
    ensures var d := Stored(c).value;
            && d == c.(profiles := d.profiles) && Increasing(IdLess, d.profiles) && SameElements(d.profiles, c.profiles)
            && |d.profiles| == |c.profiles| && ConfigOk(d)
  {
    hide SortBy, ConfigOk;
    SortIncreases(c.profiles);
    SortElements(IdLess, c.profiles);
  }

  // ----- the broker -----

  lemma ApplyAllIs(b: Broker, profiles: seq<Profile>)
    requires Increasing(IdLess, profiles)
    ensures Increasing(IdLess, ApplyAll(b, profiles)) && |ApplyAll(b, profiles)| == |profiles|
    ensures forall p :: p in ApplyAll(b, profiles) ==> At(p) == Canonical(b)
    ensures forall p :: p in ApplyAll(b, profiles) ==>
        exists q :: q in profiles && q.id == p.id && q.previewPort == p.previewPort
    ensures forall q :: q in profiles ==>
        exists p :: p in ApplyAll(b, profiles) && q.id == p.id && q.previewPort == p.previewPort
  {
    hide StringLess, Url;
    var all := ApplyAll(b, profiles);
    forall i, j | 0 <= i < j < |all| ensures IdLess(all[i], all[j]) {
      assert IdLess(profiles[i], profiles[j]);
    }
    forall q | q in profiles ensures exists p :: p in all && q.id == p.id && q.previewPort == p.previewPort {
      var i :| 0 <= i < |profiles| && profiles[i] == q;
      assert all[i] in all;
    }
    forall p | p in all ensures exists q :: q in profiles && q.id == p.id && q.previewPort == p.previewPort {
      var i :| 0 <= i < |all| && all[i] == p;
      assert profiles[i] in profiles;
    }
  }

  /** Replacing the endpoint adds the new endpoint to the reachable ones and drops none. */
  lemma ReplacementReaches(req: Request, b: Broker, port: nat)
    ensures var r := Replacement(req, b, port);
            Reachable(r) == Reachable(b) + {Endpoint(req.host, port)} && Increasing(EndpointLess, r.legacy)
  {
    hide EndpointLess, Url, SortBy, Dedup;
    var before := b.legacy + [Canonical(b)];
    EndpointOrder();
    SortDedup(EndpointLess, before);
    assert forall e :: e in before <==> e in b.legacy || e == Canonical(b);
  }

  /** The same ids with the same preview ports. */
  ghost predicate SamePreviews(a: seq<Profile>, b: seq<Profile>) {
    && (forall p :: p in a ==> exists q :: q in b && q.id == p.id && q.previewPort == p.previewPort)
    && (forall q :: q in b ==> exists p :: p in a && q.id == p.id && q.previewPort == p.previewPort)
  }

  lemma PreviewsStayApart(a: seq<Profile>, b: seq<Profile>)
    requires SamePreviews(a, b) && PreviewsApart(b)
    ensures PreviewsApart(a)
  {
  }

  /** The configuration between settling the broker and adding the profile. */
  ghost predicate Settled(c: Config, mid: Config) {
    && mid.version == c.version && mid.broker.Some?
    && BrokerFits(mid.broker)
    && Increasing(IdLess, mid.profiles)
    && SamePreviews(mid.profiles, c.profiles)
    && forall p :: p in mid.profiles ==> At(p) == Canonical(mid.broker.value)
  }

  lemma ReplaceSettles(c: Config, req: Request, b: Broker, port: nat)
    requires Inv(c) && c.broker == Some(b) && port + 1 <= MAX_PORT
    ensures var r := Replacement(req, b, port);
            Settled(c, c.(broker := Some(r), profiles := ApplyAll(r, c.profiles)))
  {
    hide EndpointLess, IdLess, Replacement, ApplyAll, PreviewsApart, Canonical, Reachable;
    ReplacementReaches(req, b, port);
    ReplacementPorts(req, b, port);
    ApplyAllIs(Replacement(req, b, port), c.profiles);
  }

  lemma SameSettles(c: Config)
    requires Inv(c) && c.broker.Some?
    ensures Settled(c, c)
  {
    hide EndpointLess, IdLess;
  }

  lemma NewSettles(c: Config, req: Request, port: nat)
    requires Inv(c) && c.broker.None? && port + 1 <= MAX_PORT
    ensures Settled(c, c.(broker := Some(NewBroker(req, port))))
  {
    hide EndpointLess, IdLess, NewBroker;
    NewBrokerIs(req, port);
  }

  lemma WithBrokerSettles(c: Config, req: Request, probe: Probe, mid: Config)
    requires Inv(c) && WithBroker(c, req, probe) == Some(mid)
    ensures Settled(c, mid)
  {
    hide BrokerOk, Replacement, ApplyAll, Settled, Inv, NewBroker, Acceptable, EndpointChanged, FreePair;
    match c.broker
    case Some(b) =>
      if EndpointChanged(req, b) {
        ReplaceSettles(c, req, b, NewPort(c, req, probe).value);
      } else {
        SameSettles(c);
      }
    case None =>
      NewSettles(c, req, NewPort(c, req, probe).value);
  }

  lemma ReplacementPorts(req: Request, b: Broker, port: nat)
    ensures Replacement(req, b, port).previewPort == port + 1
        && Canonical(Replacement(req, b, port)) == Endpoint(req.host, port)
  {
  }

  lemma NewBrokerIs(req: Request, port: nat)
    ensures Increasing(EndpointLess, NewBroker(req, port).legacy)
        && Canonical(NewBroker(req, port)) == Endpoint(req.host, port)
    ensures NewBroker(req, port).previewPort == port + 1
  {
  }

  /** The preview port of the new or renewed profile belongs to no other profile. */
  lemma PreviewIsOwn(mid: Config, id: string, bindable: nat -> bool, start: nat, preview: nat)
    requires start <= MAX_PORT && PreviewPort(mid, id, bindable, start) == Some(preview) && PreviewsApart(mid.profiles)
    ensures forall q :: q in mid.profiles && q.id != id ==> q.previewPort != preview
  {
    FindIs(mid.profiles, id);
    if Find(mid.profiles, id).None? {
      assert preview !in Claimed(mid);
    }
  }

  lemma AddKeepsApart(before: seq<Profile>, p: Profile, after: seq<Profile>)
    requires PreviewsApart(before) && forall q :: q in before && q.id != p.id ==> q.previewPort != p.previewPort
    requires forall q :: q in after <==> q == p || (q in before && q.id != p.id)
    ensures PreviewsApart(after)
  {
  }

  lemma SetUpKeeps(c: Config, req: Request, probe: Probe, d: Config)
    requires Inv(c) && PortsFit(c) && SetUp(c, req, probe) == Some(d)
    ensures Inv(d) && ConfigOk(d)
  {
    hide WithBroker, EndpointLess, IdLess, Stored, PreviewPort, ConfigOk, Acceptable, PreviewsApart;
    var mid := WithBroker(c, req, probe).value;
    WithBrokerSettles(c, req, probe, mid);
    PreviewsStayApart(mid.profiles, c.profiles);
    var b := mid.broker.value;
    var preview := PreviewPort(mid, req.id, On(probe, b.host), b.previewPort).value;
    var p := NewProfile(mid, req, b, preview);
    PreviewIsOwn(mid, req.id, On(probe, b.host), b.previewPort, preview);
    AddKeeps(mid, p, d);
  }

  lemma AddKeeps(mid: Config, p: Profile, d: Config)
    requires mid.version == CONFIG_VERSION && mid.broker.Some? && BrokerFits(mid.broker)
        && Increasing(IdLess, mid.profiles)
    requires PreviewsApart(mid.profiles) && At(p) == Canonical(mid.broker.value)
    requires forall q :: q in mid.profiles ==> At(q) == Canonical(mid.broker.value)
    requires forall q :: q in mid.profiles && q.id != p.id ==> q.previewPort != p.previewPort
    requires Stored(mid.(profiles := Upserted(mid.profiles, p))) == Some(d)
    ensures Inv(d) && ConfigOk(d)
  {
    hide EndpointLess, IdLess, Stored, ConfigOk, PreviewsApart, Upserted;
    IncreasingIds(mid.profiles);
    UpsertedIs(mid.profiles, p);
    var added := Upserted(mid.profiles, p);
    StoredIs(mid.(profiles := added));
    AddKeepsApart(mid.profiles, p, d.profiles);
    assert p in d.profiles;
  }

  lemma TakeAwayKeeps(c: Config, id: string, d: Config)
    requires Inv(c) && TakeAway(c, id) == Some(d)
    ensures Inv(d) && ConfigOk(d)
  {
    hide EndpointLess, IdLess, Stored, ConfigOk, Without;
    IncreasingIds(c.profiles);
    WithoutIs(c.profiles, id);
    var left := Without(c.profiles, id);
    StoredIs(c.(profiles := left, broker := if left == [] then None else c.broker));
    assert SameElements(d.profiles, left);
    assert left != [] ==> left[0] in d.profiles;
    assert forall i :: 0 <= i < |d.profiles| ==> d.profiles[i] in left;
  }

  // ----- runs -----

  datatype Op = SetupOp(req: Request, probe: Probe) | RemoveOp(id: string)

  /** A failed operation leaves the stored configuration alone. */
  ghost function Apply(c: Config, op: Op): Config {
    match op
    case SetupOp(req, probe) => if PortsFit(c) then SetUp(c, req, probe).GetOr(c) else c
    case RemoveOp(id) => TakeAway(c, id).GetOr(c)
  }

  ghost function RunOps(ops: seq<Op>): Config {
    if ops == [] then EMPTY else Apply(RunOps(ops[..|ops| - 1]), ops[|ops| - 1])
  }

  lemma {:induction false} OpsKeep(ops: seq<Op>)
    ensures Inv(RunOps(ops))
  {
    hide Inv, SetUp, TakeAway;
    if ops == [] {
      EmptyInv();
    } else {
      var c, op := RunOps(ops[..|ops| - 1]), ops[|ops| - 1];
      OpsKeep(ops[..|ops| - 1]);
      InvFits(c);
      match op
      case SetupOp(req, probe) =>
        if SetUp(c, req, probe).Some? {
          SetUpKeeps(c, req, probe, SetUp(c, req, probe).value);
        }
      case RemoveOp(id) =>
        if TakeAway(c, id).Some? {
          TakeAwayKeeps(c, id, TakeAway(c, id).value);
        }
    }
  }

  lemma EmptyInv()
    ensures Inv(EMPTY)
  {
  }

  /** After any operations from an empty configuration, ids and preview ports are pairwise distinct, the
      profiles are sorted, and all of them share the broker's endpoint. */
  lemma IdsAndPortsDistinct(ops: seq<Op>, i: nat, j: nat)
    requires i < j < |RunOps(ops).profiles|
    ensures var c := RunOps(ops);
            && StringLess(c.profiles[i].id, c.profiles[j].id) && c.profiles[i].id != c.profiles[j].id
            && c.profiles[i].previewPort != c.profiles[j].previewPort
            && c.broker.Some? && At(c.profiles[i]) == At(c.profiles[j]) == Canonical(c.broker.value)
  {
    hide RunOps, StringLess;
    OpsKeep(ops);
    var profiles := RunOps(ops).profiles;
    IncreasingIds(profiles);
    assert IdLess(profiles[i], profiles[j]);
    assert profiles[i] in profiles && profiles[j] in profiles;
  }

  /** A setup keeps every endpoint reachable and adds its own, if it is new. */
  lemma SetUpReaches(c: Config, req: Request, probe: Probe, d: Config)
    requires Inv(c) && PortsFit(c) && c.broker.Some? && SetUp(c, req, probe) == Some(d)
    ensures d.broker.Some? && Reachable(d.broker.value) == Reachable(c.broker.value) + {Canonical(d.broker.value)}
  {
    hide PreviewPort, Acceptable, ConfigOk, SortBy, Upserted, Reachable, BrokerOk, Replacement;
    var mid := WithBroker(c, req, probe).value;
    var b := c.broker.value;
    if EndpointChanged(req, b) {
      var port := NewPort(c, req, probe).value;
      ReplacementReaches(req, b, port);
      ReplacementPorts(req, b, port);
    } else {
      ReachesSelf(b);
    }
  }

  lemma ReachesSelf(b: Broker)
    ensures Reachable(b) == Reachable(b) + {Canonical(b)}
  {
  }

  /** No operation that leaves profiles behind makes an endpoint unreachable. */
  lemma EndpointsOnlyGrow(ops: seq<Op>, op: Op)
    requires RunOps(ops).broker.Some? && RunOps(ops + [op]).broker.Some?
    ensures Reachable(RunOps(ops).broker.value) <= Reachable(RunOps(ops + [op]).broker.value)
  {
    hide Inv, SetUp, Reachable;
    var c := RunOps(ops);
    assert (ops + [op])[..|ops|] == ops;
    OpsKeep(ops);
    InvFits(c);
    if op.SetupOp? && SetUp(c, op.req, op.probe).Some? {
      SetUpReaches(c, op.req, op.probe, SetUp(c, op.req, op.probe).value);
    }
  }

  // ----- preview ports against the broker's own port -----

  /** No profile serves previews on the broker's port. */
  predicate Clear(broker: Option<Broker>, profiles: seq<Profile>) {
    broker.Some? ==> forall p :: p in profiles ==> p.previewPort != broker.value.bridgePort
  }

  /** The new endpoint takes the port that this very profile serves previews on: the allocator skips the
      ports of the other profiles only. */
  predicate TakesOwnPreview(c: Config, req: Request, probe: Probe) {
    && c.broker.Some? && EndpointChanged(req, c.broker.value)
    && exists p :: p in c.profiles && p.id == req.id && NewPort(c, req, probe) == Some(p.previewPort)
  }

  /** What a setup writes: the settled profiles with the new one in place. */
  lemma SetUpWrites(c: Config, req: Request, probe: Probe, d: Config, mid: Config, preview: nat)
    requires Inv(c) && PortsFit(c) && SetUp(c, req, probe) == Some(d) && WithBroker(c, req, probe) == Some(mid)
    requires mid.broker.Some? && mid.broker.value.previewPort <= MAX_PORT
    requires PreviewPort(mid, req.id, On(probe, mid.broker.value.host), mid.broker.value.previewPort) == Some(preview)
    ensures d.broker == mid.broker
    ensures Clear(d.broker, d.profiles) <==>
            preview != mid.broker.value.bridgePort
            && forall q :: q in mid.profiles && q.id != req.id ==> q.previewPort != mid.broker.value.bridgePort
  {
    hide WithBroker, EndpointLess, IdLess, Stored, PreviewPort, ConfigOk, Acceptable, PreviewsApart, Upserted, Inv;
    WithBrokerSettles(c, req, probe, mid);
    IncreasingIds(mid.profiles);
    var p := NewProfile(mid, req, mid.broker.value, preview);
    UpsertedIs(mid.profiles, p);
    StoredIs(mid.(profiles := Upserted(mid.profiles, p)));
    assert p in d.profiles;
  }

  /** A fresh preview port is never the broker's, when the profiles share the broker's port or start beyond it. */
  lemma FreshPreviewIsClear(mid: Config, id: string, bindable: nat -> bool, preview: nat)
    requires mid.broker.Some? && mid.broker.value.previewPort <= MAX_PORT && Find(mid.profiles, id).None?
    requires PreviewPort(mid, id, bindable, mid.broker.value.previewPort) == Some(preview)
    requires forall p :: p in mid.profiles ==> At(p) == Canonical(mid.broker.value)
    requires mid.profiles != [] || mid.broker.value.bridgePort < mid.broker.value.previewPort
    ensures preview != mid.broker.value.bridgePort
  {
    if mid.profiles != [] {
      assert mid.profiles[0] in mid.profiles;
      assert mid.profiles[0].bridgePort in Claimed(mid);
    }
  }

  /** The preview port that the profile ends up with. */
  lemma OwnPreview(mid: Config, c: Config, id: string, bindable: nat -> bool, start: nat, preview: nat)
    requires start <= MAX_PORT && PreviewPort(mid, id, bindable, start) == Some(preview) && Find(mid.profiles, id).Some?
    requires SamePreviews(mid.profiles, c.profiles) && PreviewsApart(c.profiles) && Increasing(IdLess, c.profiles)
    ensures exists p :: p in c.profiles && p.id == id
    ensures forall p :: p in c.profiles && p.id == id ==> p.previewPort == preview
  {
    hide IdLess;
    FindIs(mid.profiles, id);
    var own := Find(mid.profiles, id).value;
    IncreasingIds(c.profiles);
  }

  lemma OthersClear(c: Config, mid: Config, req: Request, probe: Probe)
    requires NewPort(c, req, probe).Some? && SamePreviews(mid.profiles, c.profiles)
    ensures forall q :: q in mid.profiles && q.id != req.id ==> q.previewPort != NewPort(c, req, probe).value
  {
    hide FirstPair;
    var port := NewPort(c, req, probe).value;
    assert port !in ClaimedByOthers(c, req.id);
    forall q | q in mid.profiles && q.id != req.id ensures q.previewPort != port {
      var p :| p in c.profiles && q.id == p.id && q.previewPort == p.previewPort;
    }
  }

  /** A setup that does not change the endpoint keeps the ports clear. */
  lemma SameEndpointClear(c: Config, req: Request, bindable: nat -> bool, preview: nat)
    requires Inv(c) && c.broker.Some? && Clear(c.broker, c.profiles)
    requires PreviewPort(c, req.id, bindable, c.broker.value.previewPort) == Some(preview)
    ensures preview != c.broker.value.bridgePort
    ensures forall q :: q in c.profiles ==> q.previewPort != c.broker.value.bridgePort
  {
    hide IdLess, EndpointLess, LeastFree;
    FindIs(c.profiles, req.id);
    if Find(c.profiles, req.id).None? {
      FreshPreviewIsClear(c, req.id, bindable, preview);
    }
  }

  /** What settling the broker leaves as its port. */
  lemma SettledPort(c: Config, req: Request, probe: Probe, mid: Config)
    requires WithBroker(c, req, probe) == Some(mid) && (c.broker.Some? ==> EndpointChanged(req, c.broker.value))
    ensures mid.broker.Some? && NewPort(c, req, probe) == Some(mid.broker.value.bridgePort)
    ensures mid.broker.value.previewPort == mid.broker.value.bridgePort + 1 <= MAX_PORT
    ensures |mid.profiles| == |c.profiles|
  {
    hide BrokerOk, Url, FreePair, EndpointChanged, SortBy, Dedup;
  }

  /** A setup with a new endpoint keeps them clear exactly when it does not take the profile's own preview port. */
  lemma NewEndpointClear(c: Config, req: Request, probe: Probe, mid: Config, preview: nat)
    requires Inv(c) && WithBroker(c, req, probe) == Some(mid) && Settled(c, mid)
    requires c.broker.Some? ==> EndpointChanged(req, c.broker.value)
    requires mid.broker.value.previewPort <= MAX_PORT
    requires PreviewPort(mid, req.id, On(probe, mid.broker.value.host), mid.broker.value.previewPort) == Some(preview)
    ensures preview != mid.broker.value.bridgePort <==> !TakesOwnPreview(c, req, probe)
  {
    hide WithBroker, IdLess, EndpointLess, NewPort, EndpointChanged, On, PreviewPort, PreviewsApart;
    SettledPort(c, req, probe, mid);
    var bindable := On(probe, mid.broker.value.host);
    FindIs(mid.profiles, req.id);
    if Find(mid.profiles, req.id).None? {
      FreshPreviewIsClear(mid, req.id, bindable, preview);
    } else {
      OwnPreview(mid, c, req.id, bindable, mid.broker.value.previewPort, preview);
    }
  }

  /** Preview ports stay off the broker's port exactly when the setup does not move the broker onto the
      preview port of the profile being set up. */
  lemma SetUpClearIff(c: Config, req: Request, probe: Probe, d: Config)
    requires Inv(c) && PortsFit(c) && Clear(c.broker, c.profiles) && SetUp(c, req, probe) == Some(d)
    ensures Clear(d.broker, d.profiles) <==> !TakesOwnPreview(c, req, probe)
  {
    hide Inv, Clear, NewPort, EndpointChanged, On, PreviewPort, Acceptable, Stored, Upserted, BrokerOk, Replacement,
        SamePreviews, TakesOwnPreview;
    var mid := WithBroker(c, req, probe).value;
    WithBrokerSettles(c, req, probe, mid);
    BrokerSettled(c, req, probe);
    var b := mid.broker.value;
    var preview := PreviewPort(mid, req.id, On(probe, b.host), b.previewPort).value;
    SetUpWrites(c, req, probe, d, mid, preview);
    if c.broker.Some? && !EndpointChanged(req, c.broker.value) {
      SameEndpointClear(c, req, On(probe, b.host), preview);
      NotTaken(c, req, probe);
    } else {
      hide WithBroker;
      SettledPort(c, req, probe, mid);
      OthersClear(c, mid, req, probe);
      NewEndpointClear(c, req, probe, mid, preview);
    }
  }

  lemma NotTaken(c: Config, req: Request, probe: Probe)
    requires c.broker.Some? && !EndpointChanged(req, c.broker.value)
    ensures !TakesOwnPreview(c, req, probe)
  {
  }

  // ----- clear throughout a run -----

  /** The operation is a setup that goes through and takes its profile's own preview port. */
  ghost predicate Clashes(c: Config, op: Op) {
    op.SetupOp? && PortsFit(c) && SetUp(c, op.req, op.probe).Some? && TakesOwnPreview(c, op.req, op.probe)
  }

  ghost predicate ClearAt(ops: seq<Op>, k: nat)
    requires k <= |ops|
  {
    Clear(RunOps(ops[..k]).broker, RunOps(ops[..k]).profiles)
  }

  ghost predicate ClashAt(ops: seq<Op>, k: nat)
    requires k < |ops|
  {
    Clashes(RunOps(ops[..k]), ops[k])
  }

  lemma TakeAwayClear(c: Config, id: string, d: Config)
    requires Inv(c) && Clear(c.broker, c.profiles) && TakeAway(c, id) == Some(d)
    ensures Clear(d.broker, d.profiles)
  {
    hide IdLess, EndpointLess, Stored, ConfigOk, Without, PreviewsApart;
    IncreasingIds(c.profiles);
    WithoutIs(c.profiles, id);
    var left := Without(c.profiles, id);
    StoredIs(c.(profiles := left, broker := if left == [] then None else c.broker));
  }

  /** One operation keeps the ports clear unless it clashes. */
  lemma ApplyClearIff(c: Config, op: Op)
    requires Inv(c) && Clear(c.broker, c.profiles)
    ensures Clear(Apply(c, op).broker, Apply(c, op).profiles) <==> !Clashes(c, op)
  {
    hide Inv, Clear, SetUp, TakeAway, TakesOwnPreview;
    InvFits(c);
    match op
    case SetupOp(req, probe) =>
      if SetUp(c, req, probe).Some? {
        SetUpClearIff(c, req, probe, SetUp(c, req, probe).value);
      }
    case RemoveOp(id) =>
      if TakeAway(c, id).Some? {
        TakeAwayClear(c, id, TakeAway(c, id).value);
      }
  }

  /** Preview ports stay off the broker's port throughout a run of setups and removals if and only if no
      setup of the run moves the broker onto the preview port of the profile it sets up. */
  lemma {:induction false} ClearThroughoutIff(ops: seq<Op>)
    ensures (forall k :: 0 <= k <= |ops| ==> ClearAt(ops, k)) <==> (forall k :: 0 <= k < |ops| ==> !ClashAt(ops, k))
    decreases |ops|
  {
    hide Inv, Clear, Apply, Clashes;
    if ops == [] {
      assert ClearAt(ops, 0) by { EmptyClear(); }
    } else {
      var n := |ops| - 1;
      var front := ops[..n];
      forall k | 0 <= k <= n
        ensures ClearAt(ops, k) == ClearAt(front, k) && (k < n ==> ClashAt(ops, k) == ClashAt(front, k))
      {
        assert ops[..k] == front[..k];
      }
      ClearThroughoutIff(front);
      assert front[..n] == front && ops[..n + 1] == ops;
      OpsKeep(front);
      assert RunOps(ops) == Apply(RunOps(front), ops[n]);
      if ClearAt(front, n) {
        ApplyClearIff(RunOps(front), ops[n]);
        assert ClearAt(ops, n + 1) <==> !ClashAt(ops, n);
      }
    }
  }

  lemma EmptyClear()
    ensures Clear(EMPTY.broker, EMPTY.profiles)
  {
  }

  /** A setup that asks for a port and goes through takes that port, so it clashes exactly when it asks
      for the port its own profile serves previews on. */
  lemma ExplicitClashIff(c: Config, req: Request, probe: Probe)
    requires Inv(c) && PortsFit(c) && SetUp(c, req, probe).Some? && req.port.Some?
    ensures TakesOwnPreview(c, req, probe) <==>
            c.broker.Some? && EndpointChanged(req, c.broker.value)
            && exists p :: p in c.profiles && p.id == req.id && p.previewPort == req.port.value
  {
    hide Inv, PreviewPort, Stored, BrokerOk, Replacement, ApplyAll, Upserted, FirstPair, FreePair;
    if c.broker.Some? && EndpointChanged(req, c.broker.value) {
      assert NewPort(c, req, probe) == Some(req.port.value);
    }
  }
}
