/** Two setups after which the broker and a profile's preview share a port. */
module SetupClash {
  import opened Wrappers
  import opened Ordering
  import opened ConfigStore
  import opened Ports
  import opened Setup
  import opened SetupProofs

  const DETAILS := Details("/w", "agent", "now")
  const FIRST := Request("a", "local", "h", None, false, false, DETAILS)
  const SECOND := Request("a", "local", "h", Some(8788), true, false, DETAILS)

  const EVERY_PORT: Probe := (host, port) => true

  function Only(b: Broker): Config {
    Config(CONFIG_VERSION, Some(b),
        [Profile("a", "local", "h", b.bridgePort, 8788, b.connectUrl, Url("h", 8788), false, DETAILS)])
  }

  lemma UrlsAreText(host: string, port: nat)
    ensures !Blank(Url(host, port))
  {
    hide Decimal, Authority;
    assert Url(host, port)[0] == 'h';
  }

  lemma NewBrokerOk(req: Request, port: nat)
    requires req.host == "h" && port != 0
    ensures BrokerOk(NewBroker(req, port))
  {
    hide Url;
    UrlsAreText("h", port);
    UrlsAreText("h", port + 1);
    assert "h"[0] == 'h';
  }

  lemma SortOne<T>(less: (T, T) -> bool, x: T)
    ensures SortBy(less, [x]) == [x]
  {
    assert [x][1..] == [];
    assert SortBy(less, [x][1..]) == [];
  }

  lemma StoredOne(b: Broker)
    requires BrokerOk(b)
    ensures Stored(Only(b)) == Some(Only(b))
  {
    hide BrokerOk, Url;
    SortOne(IdLess, Only(b).profiles[0]);
  }

  lemma FirstSetup()
    ensures SetUp(EMPTY, FIRST, EVERY_PORT) == Some(Only(NewBroker(FIRST, 8787)))
  {
    hide BrokerOk, Url, Stored;
    NewBrokerOk(FIRST, 8787);
    assert NewPort(EMPTY, FIRST, EVERY_PORT) == Some(8787);
    var b := NewBroker(FIRST, 8787);
    var mid := EMPTY.(broker := Some(b));
    assert WithBroker(EMPTY, FIRST, EVERY_PORT) == Some(mid);
    assert Claimed(mid) == {};
    assert PreviewPort(mid, "a", On(EVERY_PORT, "h"), 8788) == Some(8788);
    assert Upserted([], NewProfile(mid, FIRST, b, 8788)) == Only(b).profiles;
    assert mid.(profiles := Only(b).profiles) == Only(b);
    assert Acceptable(FIRST) by { assert "h"[0] == 'h'; }
    hide WithBroker, PreviewPort, Upserted, NewProfile, On, Acceptable, Only;
    assert SetUp(EMPTY, FIRST, EVERY_PORT) == Stored(Only(b));
    StoredOne(b);
  }

  lemma SecondSetup()
    ensures var b := NewBroker(FIRST, 8787);
            SetUp(Only(b), SECOND, EVERY_PORT) == Some(Only(Replacement(SECOND, b, 8788)))
  {
    hide BrokerOk, Url, Stored;
    var b := NewBroker(FIRST, 8787);
    var r := Replacement(SECOND, b, 8788);
    NewBrokerOk(SECOND, 8788);
    assert r.legacy == [Endpoint("h", 8787)] by {
      assert b.legacy + [Canonical(b)] == [Canonical(b)];
      SortOne(EndpointLess, Canonical(b));
    }
    ReplacementOk(b);
    var c := Only(b);
    assert ClaimedByOthers(c, "a") == {};
    assert NewPort(c, SECOND, EVERY_PORT) == Some(8788);
    var mid := c.(broker := Some(r), profiles := ApplyAll(r, c.profiles));
    assert WithBroker(c, SECOND, EVERY_PORT) == Some(mid);
    assert PreviewPort(mid, "a", On(EVERY_PORT, "h"), 8789) == Some(8788);
    assert Upserted(mid.profiles, NewProfile(mid, SECOND, r, 8788)) == Only(r).profiles;
    assert mid.(profiles := Only(r).profiles) == Only(r);
    assert Acceptable(SECOND) by { assert "h"[0] == 'h'; }
    assert r.host == "h" && r.previewPort == 8789;
    hide WithBroker, PreviewPort, Upserted, NewProfile, On, Acceptable, Only;
    assert SetUp(c, SECOND, EVERY_PORT) == Stored(Only(r));
    StoredOne(r);
  }

  lemma ReplacementOk(b: Broker)
    requires b == NewBroker(FIRST, 8787) && Replacement(SECOND, b, 8788).legacy == [Endpoint("h", 8787)]
    ensures BrokerOk(Replacement(SECOND, b, 8788))
  {
    hide Url, SortBy, Dedup;
    UrlsAreText("h", 8788);
    UrlsAreText("h", 8789);
    assert "h"[0] == 'h';
  }

  /** The first setup gives the profile preview port 8788; the second moves the broker to that port. */
  lemma ClashIsReachable()
    ensures var c := RunOps([SetupOp(FIRST, EVERY_PORT), SetupOp(SECOND, EVERY_PORT)]);
            c.broker.Some? && |c.profiles| == 1 && c.profiles[0].previewPort == c.broker.value.bridgePort == 8788
  {
    hide SetUp;
    var ops := [SetupOp(FIRST, EVERY_PORT), SetupOp(SECOND, EVERY_PORT)];
    FirstSetup();
    SecondSetup();
    assert ops[..1] == [ops[0]] && ops[..1][..0] == [];
    assert RunOps(ops[..1]) == Only(NewBroker(FIRST, 8787));
  }
}
