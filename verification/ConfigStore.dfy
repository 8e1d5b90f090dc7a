/** The desktop configuration: profiles, the shared broker endpoint, and the upgrade from one listener per profile. */
module ConfigStore {
  import opened Wrappers
  import opened Ordering

  const CONFIG_VERSION: nat := 2
  const LEGACY_CONFIG_VERSION: nat := 1
  const MAX_PORT: nat := 65535

  datatype Endpoint = Endpoint(host: string, port: nat)

  /** What a profile says about its agent and its workspace; the endpoint logic passes it through. */
  datatype Details = Details(workspace: string, agent: string, updatedAt: string)

  datatype Profile = Profile(
    id: string, networkMode: string, host: string, bridgePort: nat, previewPort: nat, connectUrl: string,
        previewUrl: string,
    autoStart: bool, details: Details)

  datatype Broker = Broker(
    networkMode: string, host: string, bridgePort: nat, previewPort: nat, connectUrl: string, previewUrl: string,
    legacy: seq<Endpoint>, autoStart: bool, maxWorkers: nat, maxIdleWorkers: nat, idleGraceMs: nat, startTimeoutMs: nat)

  datatype Config = Config(version: nat, broker: Option<Broker>, profiles: seq<Profile>)

  const EMPTY := Config(CONFIG_VERSION, None, [])

  // ----- text -----

  function Decimal(n: nat): string {
    if n < 10 then ['0' + n as char] else Decimal(n / 10) + Decimal(n % 10)
  }

  function Authority(host: string): string {
    if ':' in host && host[0] != '[' then "[" + host + "]" else host
  }

  function Url(host: string, port: nat): string {
    "http://" + Authority(host) + ":" + Decimal(port)
  }

  predicate IsSpace(c: char) {
    c in "\t\n\r " || c in "\U{b}\U{c}\U{85}\U{a0}\U{1680}\U{2028}\U{2029}\U{202f}\U{205f}\U{3000}"
        || '\U{2000}' <= c <= '\U{200a}'
  }

  predicate Blank(s: string) {
    forall i :: 0 <= i < |s| ==> IsSpace(s[i])
  }

  // ----- orders -----

  predicate IdLess(p: Profile, q: Profile) {
    StringLess(p.id, q.id)
  }

  predicate EndpointLess(a: Endpoint, b: Endpoint) {
    StringLess(a.host, b.host) || (a.host == b.host && a.port < b.port)
  }

  // ----- operations -----

  function At(p: Profile): Endpoint {
    Endpoint(p.host, p.bridgePort)
  }

  function Canonical(b: Broker): Endpoint {
    Endpoint(b.host, b.bridgePort)
  }

  /** Where the broker can be reached: its own endpoint and the listeners it keeps for old pairings. */
  function Reachable(b: Broker): set<Endpoint> {
    {Canonical(b)} + set e | e in b.legacy
  }

  function OtherEndpoints(own: Endpoint, profiles: seq<Profile>): seq<Endpoint> {
    if profiles == [] then []
    else (if At(profiles[0]) != own then [At(profiles[0])] else []) + OtherEndpoints(own, profiles[1..])
  }

  function FromLegacyProfile(p: Profile, profiles: seq<Profile>): Broker {
    Broker(p.networkMode, p.host, p.bridgePort, p.previewPort, p.connectUrl, p.previewUrl,
           Dedup(SortBy(EndpointLess, OtherEndpoints(At(p), profiles))), exists q :: q in profiles && q.autoStart,
           12, 2, 60_000, 60_000)
  }

  function ApplyEndpoint(b: Broker, p: Profile): Profile {
    p.(networkMode := b.networkMode, host := b.host, bridgePort := b.bridgePort, connectUrl := b.connectUrl,
       previewUrl := Url(b.host, p.previewPort))
  }

  function ApplyAll(b: Broker, profiles: seq<Profile>): seq<Profile> {
    seq(|profiles|, i requires 0 <= i < |profiles| => ApplyEndpoint(b, profiles[i]))
  }

  predicate BrokerOk(b: Broker) {
    && b.bridgePort != 0 && b.previewPort != 0 && b.bridgePort != b.previewPort
    && !Blank(b.host) && !Blank(b.connectUrl) && !Blank(b.previewUrl)
    && (forall e :: e in b.legacy ==> !Blank(e.host) && e.port != 0)
    && b.maxWorkers > 0 && b.maxIdleWorkers <= b.maxWorkers && b.idleGraceMs > 0 && b.startTimeoutMs > 0
  }

  predicate ConfigOk(c: Config) {
    && c.version == CONFIG_VERSION
    && (if c.broker.Some? then BrokerOk(c.broker.value) else c.profiles == [])
  }

  /** The upgrade before validation. */
  function Upgraded(c: Config): Config {
    var sorted := SortBy(IdLess, c.profiles);
    if sorted == [] then Config(CONFIG_VERSION, None, [])
    else
      var b := FromLegacyProfile(sorted[0], sorted);
      Config(CONFIG_VERSION, Some(b), ApplyAll(b, sorted))
  }

  datatype Migration = Migrated(config: Config) | Unchanged | Refused

  /** What `migrate_config` does with the stored configuration. */
  function Migrate(c: Config): Migration {
    if c.version == CONFIG_VERSION then Unchanged
    else if c.version != LEGACY_CONFIG_VERSION then Refused
    else if ConfigOk(Upgraded(c)) then Migrated(Upgraded(c)) else Refused
  }

  function Find(profiles: seq<Profile>, id: string): Option<Profile> {
    if profiles == [] then None else if profiles[0].id == id then Some(profiles[0]) else Find(profiles[1..], id)
  }

  /** Replace the first profile with that id, or add one at the end. */
  function Upserted(profiles: seq<Profile>, p: Profile): seq<Profile> {
    if profiles == [] then [p]
    else if profiles[0].id == p.id then [p] + profiles[1..]
    else [profiles[0]] + Upserted(profiles[1..], p)
  }

  /** The profile is replaced where it first occurs, or added at the end. */
  lemma {:induction false} UpsertedAt(profiles: seq<Profile>, p: Profile, i: nat)
    requires i <= |profiles| && forall k :: 0 <= k < i ==> profiles[k].id != p.id
    requires i < |profiles| ==> profiles[i].id == p.id
    ensures Upserted(profiles, p) == if i < |profiles| then profiles[i := p] else profiles + [p]
  {
    if i == 0 {
    } else {
      UpsertedAt(profiles[1..], p, i - 1);
    }
  }

  function Without(profiles: seq<Profile>, id: string): seq<Profile> {
    if profiles == [] then []
    else (if profiles[0].id != id then [profiles[0]] else []) + Without(profiles[1..], id)
  }

  /** Point every profile at the broker. */
  method ShareEndpoint(b: Broker, profiles: seq<Profile>) returns (shared: seq<Profile>)
    ensures shared == ApplyAll(b, profiles)
  {
    hide ApplyEndpoint;
    shared := profiles;
    var i := 0;
    while i < |shared|
      invariant i <= |shared| == |profiles|
      invariant forall k :: 0 <= k < i ==> shared[k] == ApplyEndpoint(b, profiles[k])
      invariant forall k :: i <= k < |shared| ==> shared[k] == profiles[k]
    {
      shared := shared[i := ApplyEndpoint(b, shared[i])];
      i := i + 1;
    }
  }

  // ----- the configuration object -----

  class AppConfig {
    var version: nat
    var broker: Option<Broker>
    var profiles: seq<Profile>

    ghost function State(): Config
      reads this
    {
      Config(version, broker, profiles)
    }

    constructor (c: Config)
      ensures State() == c
    {
      version, broker, profiles := c.version, c.broker, c.profiles;
    }

    method UpgradeFromV1() returns (ok: bool)
      modifies this
      ensures State() == Upgraded(old(State()))
      ensures ok == ConfigOk(State())
    {
      hide SortBy, FromLegacyProfile, ConfigOk;
      profiles := SortBy(IdLess, profiles);
      broker := None;
      if |profiles| > 0 {
        var b := FromLegacyProfile(profiles[0], profiles);
        broker := Some(b);
        profiles := ShareEndpoint(b, profiles);
      }
      version := CONFIG_VERSION;
      ok := ConfigOk(Config(version, broker, profiles));
    }

    method Upsert(p: Profile)
      modifies this
      ensures version == old(version) && profiles == Upserted(old(profiles), p)
      ensures broker == if old(broker).None? then Some(FromLegacyProfile(p, [p])) else old(broker)
    {
      if broker.None? {
        broker := Some(FromLegacyProfile(p, [p]));
      }
      var i := 0;
      while i < |profiles| && profiles[i].id != p.id
        invariant i <= |profiles| && forall k :: 0 <= k < i ==> profiles[k].id != p.id
      {
        i := i + 1;
      }
      UpsertedAt(profiles, p, i);
      profiles := if i < |profiles| then profiles[i := p] else profiles + [p];
    }

    method Remove(id: string) returns (removed: bool)
      modifies this
      ensures version == old(version) && profiles == Without(old(profiles), id)
      ensures removed <==> |profiles| != |old(profiles)|
      ensures broker == if profiles == [] then None else old(broker)
    {
      var before := |profiles|;
      var kept, i := [], 0;
      while i < |profiles|
        invariant i <= |profiles| && profiles == old(profiles) && version == old(version) && broker == old(broker)
        invariant Without(profiles, id) == kept + Without(profiles[i..], id)
      {
        var rest := Without(profiles[i + 1..], id);
        assert profiles[i..][1..] == profiles[i + 1..];
        assert kept + ([profiles[i]] + rest) == kept + [profiles[i]] + rest && kept + ([] + rest) == kept + rest;
        if profiles[i].id != id {
          kept := kept + [profiles[i]];
        }
        i := i + 1;
      }
      profiles := kept;
      removed := |profiles| != before;
      if profiles == [] {
        broker := None;
      }
    }
  }
}
