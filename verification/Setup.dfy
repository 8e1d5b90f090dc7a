/** Setting up and removing profiles: the endpoint and port part of `setup_profile` over the stored configuration. */
module Setup {
  import opened Wrappers
  import opened Ordering
  import opened ConfigStore
  import opened Ports

  /** A request after its host was normalised; `running` says whether a broker process owns the current endpoint. */
  datatype Request = Request(
    id: string, networkMode: string, host: string, port: Option<nat>, replace: bool, running: bool, details: Details)

  /** Which ports can be bound on which host at the moment of the call. */
  type Probe = (string, nat) -> bool

  function On(probe: Probe, host: string): nat -> bool {
    (port: nat) => probe(host, port)
  }

  predicate Acceptable(req: Request) {
    && !Blank(req.host) && (req.networkMode == "local" || req.networkMode == "tailscale")
    && (req.port.Some? ==> 0 < req.port.value < MAX_PORT)
  }

  function NewBroker(req: Request, port: nat): Broker {
    Broker(req.networkMode, req.host, port, port + 1, Url(req.host, port), Url(req.host, port + 1), [], false, 12, 2,
        60_000, 60_000)
  }

  predicate EndpointChanged(req: Request, b: Broker) {
    (req.port.Some? && req.port.value != b.bridgePort) || req.host != b.host || req.networkMode != b.networkMode
  }

  /** The new broker keeps the old settings and goes on listening on every old endpoint. */
  function Replacement(req: Request, b: Broker, port: nat): Broker {
    NewBroker(req, port).(
      autoStart := b.autoStart, maxWorkers := b.maxWorkers, maxIdleWorkers := b.maxIdleWorkers,
          idleGraceMs := b.idleGraceMs,
      startTimeoutMs := b.startTimeoutMs, legacy := Dedup(SortBy(EndpointLess, b.legacy + [Canonical(b)])))
  }

  /** The port that a setup with a new endpoint would take. */
  function NewPort(c: Config, req: Request, probe: Probe): Option<nat> {
    PairPort(c, req.id, On(probe, req.host), req.port, req.port.Some?)
  }

  /** The configuration with its broker settled. */
  function WithBroker(c: Config, req: Request, probe: Probe): Option<Config> {
    match c.broker
    case Some(b) =>
      if !EndpointChanged(req, b) then Some(c)
      else if !req.replace || req.running then None
      else (
        match NewPort(c, req, probe)
        case None => None
        case Some(port) =>
          if !BrokerOk(NewBroker(req, port)) then None
          else
            var r := Replacement(req, b, port);
            Some(c.(broker := Some(r), profiles := ApplyAll(r, c.profiles))))
    case None =>
      match NewPort(c, req, probe)
      case None => None
      case Some(port) =>
        if BrokerOk(NewBroker(req, port)) then Some(c.(broker := Some(NewBroker(req, port)))) else None
  }

  function NewProfile(c: Config, req: Request, b: Broker, preview: nat): Profile {
    Profile(req.id, b.networkMode, b.host, b.bridgePort, preview, b.connectUrl, Url(b.host, preview),
            match Find(c.profiles, req.id) case Some(p) => p.autoStart case None => false, req.details)
  }

  /** What is written back: the profiles sorted, if the whole is valid. */
  function Stored(c: Config): Option<Config> {
    var sorted := c.(profiles := SortBy(IdLess, c.profiles));
    if ConfigOk(sorted) then Some(sorted) else None
  }

  /** Ports in a stored configuration are 16-bit. */
  predicate PortsFit(c: Config) {
    c.broker.Some? ==> c.broker.value.previewPort <= MAX_PORT
  }

  /** The stored configuration after a setup; None when the setup fails and nothing is written. */
  function SetUp(c: Config, req: Request, probe: Probe): Option<Config>
    requires PortsFit(c)
  {
    if !Acceptable(req) then None
    else
      match WithBroker(c, req, probe)
      case None => None
      case Some(mid) =>
        assert mid.broker.Some? && mid.broker.value.previewPort <= MAX_PORT by { BrokerSettled(c, req, probe); }
        var b := mid.broker.value;
        match PreviewPort(mid, req.id, On(probe, b.host), b.previewPort)
        case None => None
        case Some(preview) => Stored(mid.(profiles := Upserted(mid.profiles, NewProfile(mid, req, b, preview))))
  }

  lemma BrokerSettled(c: Config, req: Request, probe: Probe)
    requires PortsFit(c) && WithBroker(c, req, probe).Some?
    ensures var mid := WithBroker(c, req, probe).value;
            mid.broker.Some? && mid.broker.value.previewPort <= MAX_PORT && mid.version == c.version
  {
  }

  function TakeAway(c: Config, id: string): Option<Config> {
    var left := Without(c.profiles, id);
    Stored(c.(profiles := left, broker := if left == [] then None else c.broker))
  }

  /** The configuration file; every update reads it, changes a copy and writes the copy back if it is valid. */
  class ConfigFile {
    var stored: Config

    constructor ()
      ensures stored == EMPTY
    {
      stored := EMPTY;
    }

    method SetupProfile(req: Request, probe: Probe) returns (done: bool)
      requires PortsFit(stored)
      modifies this
      ensures done <==> SetUp(old(stored), req, probe).Some?
      ensures stored == if done then SetUp(old(stored), req, probe).value else old(stored)
    {
      hide SortBy, Find, Upserted, LeastFree, FirstPair, Url, BrokerOk, ConfigOk;
      if !Acceptable(req) {
        return false;
      }
      var settled := SettleBroker(stored, req, probe);
      if settled.None? {
        return false;
      }
      BrokerSettled(stored, req, probe);
      var b := settled.value.broker.value;
      var preview := AllocatePreviewPort(settled.value, req.id, On(probe, b.host), b.previewPort);
      if preview.None? {
        return false;
      }
      var config := new AppConfig(settled.value);
      config.Upsert(NewProfile(settled.value, req, b, preview.value));
      var sorted := Config(config.version, config.broker, SortBy(IdLess, config.profiles));
      if !ConfigOk(sorted) {
        return false;
      }
      stored := sorted;
      return true;
    }

    method RemoveProfile(id: string) returns (done: bool, removed: bool)
      modifies this
      ensures done <==> TakeAway(old(stored), id).Some?
      ensures stored == if done then TakeAway(old(stored), id).value else old(stored)
      ensures removed <==> |Without(old(stored).profiles, id)| != |old(stored).profiles|
    {
      hide SortBy, Without, ConfigOk;
      var config := new AppConfig(stored);
      removed := config.Remove(id);
      var sorted := Config(config.version, config.broker, SortBy(IdLess, config.profiles));
      done := ConfigOk(sorted);
      if done {
        stored := sorted;
      }
    }
  }

  method SettleBroker(c: Config, req: Request, probe: Probe) returns (r: Option<Config>)
    ensures r == WithBroker(c, req, probe)
  {
    hide SortBy, Dedup, FirstPair, Url, BrokerOk;
    if c.broker.Some? && !EndpointChanged(req, c.broker.value) {
      return Some(c);
    }
    if c.broker.Some? && (!req.replace || req.running) {
      return None;
    }
    var pair := AllocatePortPair(c, req.id, On(probe, req.host), req.port, req.port.Some?);
    if pair.None? {
      return None;
    }
    var settings := NewBroker(req, pair.value.0);
    if !BrokerOk(settings) {
      return None;
    }
    if c.broker.None? {
      return Some(c.(broker := Some(settings)));
    }
    var replacement := Replacement(req, c.broker.value, pair.value.0);
    var shared := ShareEndpoint(replacement, c.profiles);
    return Some(c.(broker := Some(replacement), profiles := shared));
  }
}
