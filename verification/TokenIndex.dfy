/** The broker's credential index and what it authenticates. */
module TokenIndex {
  import opened Wrappers

  const MAX_CREDENTIAL_BYTES: nat := 4096

  datatype Profile = Profile(id: string, allowQueryToken: bool, details: string)

  /** Reading a profile's secret from the store. */
  datatype Lookup = Failed | Absent | Found(token: string)

  /** Both indexes of the registry cache; a digest that several profiles share maps to None. */
  datatype Cache = Cache(byDigest: map<string, Option<Profile>>, byId: map<string, Profile>)

  /** Text and hash functions: trimming, length in bytes and the token digest. */
  datatype Env = Env(trim: string -> string, bytes: string -> nat, digest: string -> string)

  // ----- the scan that the index must agree with -----

  predicate Owns(env: Env, secret: string -> Lookup, p: Profile, d: string) {
    secret(p.id).Found? && env.digest(secret(p.id).token) == d
  }

  /** The profiles whose stored secret has that digest, in configuration order. */
  function Owners(env: Env, secret: string -> Lookup, profiles: seq<Profile>, d: string): seq<Profile> {
    if profiles == [] then []
    else
      var last := |profiles| - 1;
      Owners(env, secret, profiles[..last], d) + if Owns(env, secret, profiles[last], d) then [profiles[last]] else []
  }

  /** The last profile with that id, among those with a secret. */
  function Latest(secret: string -> Lookup, profiles: seq<Profile>, id: string): Option<Profile> {
    if profiles == [] then None
    else
      var p := profiles[|profiles| - 1];
      if p.id == id && secret(p.id).Found? then Some(p) else Latest(secret, profiles[..|profiles| - 1], id)
  }

  /** What the index holds for a digest, going by its owners. */
  function Named(owners: seq<Profile>): Option<Profile> {
    if |owners| == 1 then Some(owners[0]) else None
  }

  ghost predicate DigestAgrees(byDigest: map<string, Option<Profile>>, owners: seq<Profile>, d: string) {
    && (d in byDigest <==> owners != [])
    && (d in byDigest ==> byDigest[d] == Named(owners))
  }

  ghost predicate IdAgrees(byId: map<string, Profile>, latest: Option<Profile>, id: string) {
    if id in byId then latest == Some(byId[id]) else latest.None?
  }

  ghost predicate Agrees(env: Env, secret: string -> Lookup, profiles: seq<Profile>, cache: Cache) {
    && (forall d :: DigestAgrees(cache.byDigest, Owners(env, secret, profiles, d), d))
    && (forall id :: IdAgrees(cache.byId, Latest(secret, profiles, id), id))
  }

  /** Loading fails if a secret cannot be read; otherwise both indexes agree with a scan of the profiles. */
  method LoadRegistryCache(env: Env, secret: string -> Lookup, profiles: seq<Profile>) returns (r: Option<Cache>)
    ensures r.None? <==> exists p :: p in profiles && secret(p.id).Failed?
    ensures r.Some? ==> Agrees(env, secret, profiles, r.value)
  {
    hide Agrees, Owners, Latest;
    var byDigest, byId := map[], map[];
    var i := 0;
    NothingIndexed(env, secret, profiles);
    while i < |profiles|
      invariant i <= |profiles|
      invariant forall j :: 0 <= j < i ==> !secret(profiles[j].id).Failed?
      invariant Agrees(env, secret, profiles[..i], Cache(byDigest, byId))
    {
      var p := profiles[i];
      match secret(p.id) {
        case Failed =>
          assert p in profiles;
          return None;
        case Absent =>
          Unindexed(env, secret, profiles, i, Cache(byDigest, byId));
        case Found(token) =>
          var d := env.digest(token);
          ghost var before := Cache(byDigest, byId);
          byDigest := byDigest[d := if d in byDigest then None else Some(p)];
          byId := byId[p.id := p];
          Indexed(env, secret, profiles, i, before, Cache(byDigest, byId));
      }
      i := i + 1;
    }
    assert profiles[..i] == profiles;
    return Some(Cache(byDigest, byId));
  }

  lemma NothingIndexed(env: Env, secret: string -> Lookup, profiles: seq<Profile>)
    ensures Agrees(env, secret, profiles[..0], Cache(map[], map[]))
  {
    assert profiles[..0] == [];
  }

  lemma OwnersMore(env: Env, secret: string -> Lookup, profiles: seq<Profile>, i: nat, d: string)
    requires i < |profiles|
    ensures Owners(env, secret, profiles[..i + 1], d)
         == Owners(env, secret, profiles[..i], d) + if Owns(env, secret, profiles[i], d) then [profiles[i]] else []
  {
    var more := profiles[..i + 1];
    assert more[..|more| - 1] == profiles[..i] && more[|more| - 1] == profiles[i];
  }

  lemma LatestMore(secret: string -> Lookup, profiles: seq<Profile>, i: nat, id: string)
    requires i < |profiles|
    ensures Latest(secret, profiles[..i + 1], id)
         == if profiles[i].id == id && secret(id).Found? then Some(profiles[i]) else Latest(secret, profiles[..i], id)
  {
    var more := profiles[..i + 1];
    assert more[..|more| - 1] == profiles[..i] && more[|more| - 1] == profiles[i];
  }

  /** One more profile without a secret. */
  lemma Unindexed(env: Env, secret: string -> Lookup, profiles: seq<Profile>, i: nat, cache: Cache)
    requires i < |profiles| && secret(profiles[i].id).Absent? && Agrees(env, secret, profiles[..i], cache)
    ensures Agrees(env, secret, profiles[..i + 1], cache)
  {
    hide Owners, Latest, DigestAgrees, IdAgrees;
    var more := profiles[..i + 1];
    forall d
      ensures DigestAgrees(cache.byDigest, Owners(env, secret, more, d), d)
    {
      OwnersMore(env, secret, profiles, i, d);
      assert Owners(env, secret, profiles[..i], d) + [] == Owners(env, secret, profiles[..i], d);
    }
    forall id
      ensures IdAgrees(cache.byId, Latest(secret, more, id), id)
    {
      LatestMore(secret, profiles, i, id);
    }
  }

  /** A digest gets one more owner, or keeps the ones it has. */
  lemma DigestIndexed(before: map<string, Option<Profile>>, owners: seq<Profile>, p: Profile, d: string, e: string)
    requires DigestAgrees(before, owners, e)
    ensures var after := before[d := if d in before then None else Some(p)];
            DigestAgrees(after, if e == d then owners + [p] else owners, e)
  {
  }

  lemma IdIndexed(before: map<string, Profile>, latest: Option<Profile>, p: Profile, id: string)
    requires IdAgrees(before, latest, id)
    ensures IdAgrees(before[p.id := p], if id == p.id then Some(p) else latest, id)
  {
  }

  /** One more profile with a secret. */
  lemma Indexed(env: Env, secret: string -> Lookup, profiles: seq<Profile>, i: nat, before: Cache, after: Cache)
    requires i < |profiles| && secret(profiles[i].id).Found? && Agrees(env, secret, profiles[..i], before)
    requires var p, d := profiles[i], env.digest(secret(profiles[i].id).token);
             after == Cache(before.byDigest[d := if d in before.byDigest then None else Some(p)],
                 before.byId[p.id := p])
    ensures Agrees(env, secret, profiles[..i + 1], after)
  {
    hide Owners, Latest, DigestAgrees, IdAgrees;
    var p, more := profiles[i], profiles[..i + 1];
    var d := env.digest(secret(p.id).token);
    forall e
      ensures DigestAgrees(after.byDigest, Owners(env, secret, more, e), e)
    {
      var owners := Owners(env, secret, profiles[..i], e);
      OwnersMore(env, secret, profiles, i, e);
      assert owners + [] == owners;
      DigestIndexed(before.byDigest, owners, p, d, e);
    }
    forall id
      ensures IdAgrees(after.byId, Latest(secret, more, id), id)
    {
      LatestMore(secret, profiles, i, id);
      IdIndexed(before.byId, Latest(secret, profiles[..i], id), p, id);
    }
  }

  /** Profile i is p, has the digest, and no other entry has it. */
  predicate SoleOwner(env: Env, secret: string -> Lookup, profiles: seq<Profile>, d: string, p: Profile, i: int) {
    && 0 <= i < |profiles| && profiles[i] == p && Owns(env, secret, p, d)
    && forall j :: 0 <= j < |profiles| && j != i ==> !Owns(env, secret, profiles[j], d)
  }

  /** A digest names a profile exactly when that profile alone has it; duplicates, however many, name nobody. */
  lemma DigestNamesUniqueOwner(env: Env, secret: string -> Lookup, profiles: seq<Profile>, cache: Cache, d: string,
      p: Profile)
    requires Agrees(env, secret, profiles, cache)
    ensures d in cache.byDigest && cache.byDigest[d] == Some(p) <==>
            exists i :: SoleOwner(env, secret, profiles, d, p, i)
  {
    OneOwner(env, secret, profiles, d, p);
  }

  lemma {:induction false} NoOwner(env: Env, secret: string -> Lookup, profiles: seq<Profile>, d: string)
    ensures Owners(env, secret, profiles, d) == [] <==> forall j :: 0 <= j < |profiles| ==>
        !Owns(env, secret, profiles[j], d)
  {
    if profiles == [] {
    } else {
      var last := |profiles| - 1;
      NoOwner(env, secret, profiles[..last], d);
      assert forall j :: 0 <= j < last ==> profiles[..last][j] == profiles[j];
    }
  }

  lemma {:induction false} OneOwner(env: Env, secret: string -> Lookup, profiles: seq<Profile>, d: string, p: Profile)
    ensures Owners(env, secret, profiles, d) == [p] <==>
            exists i :: SoleOwner(env, secret, profiles, d, p, i)
  {
    if profiles == [] {
    } else {
      var last := |profiles| - 1;
      var front := profiles[..last];
      OneOwner(env, secret, front, d, p);
      NoOwner(env, secret, front, d);
      assert forall j :: 0 <= j < last ==> front[j] == profiles[j];
      if Owners(env, secret, profiles, d) == [p] {
        if Owns(env, secret, profiles[last], d) {
          LastOwner(Owners(env, secret, front, d), profiles[last], p);
          assert SoleOwner(env, secret, profiles, d, p, last);
        } else {
          var i :| SoleOwner(env, secret, front, d, p, i);
          assert SoleOwner(env, secret, profiles, d, p, i);
        }
      }
      forall i | SoleOwner(env, secret, profiles, d, p, i) ensures Owners(env, secret, profiles, d) == [p] {
        if i < last {
          assert SoleOwner(env, secret, front, d, p, i);
        }
      }
    }
  }

  lemma LastOwner(front: seq<Profile>, q: Profile, p: Profile)
    requires front + [q] == [p]
    ensures front == [] && q == p
  {
    assert |front + [q]| == |front| + 1;
    assert (front + [q])[|front|] == q;
  }

  // ----- authentication -----

  /** The credentials and the claimed workspace of a request, from its headers and its query. */
  datatype Request = Request(bearer: Option<string>, queryToken: Option<string>, headerWorkspace: Option<string>,
      queryWorkspace: Option<string>)

  datatype Outcome = Granted(profile: Profile) | Unauthorized | Forbidden

  /** A value that is not empty once trimmed. */
  function Present(env: Env, value: Option<string>): Option<string> {
    if value.Some? && env.trim(value.value) != "" then Some(env.trim(value.value)) else None
  }

  /** The credential: a bearer token, even an empty one, hides the query token. */
  function Credential(env: Env, req: Request): Option<string> {
    Present(env, if req.bearer.Some? then req.bearer else req.queryToken)
  }

  function Claim(env: Env, req: Request): Option<string> {
    if Present(env, req.headerWorkspace).Some? then Present(env, req.headerWorkspace)
        else Present(env, req.queryWorkspace)
  }

  function Authenticate(env: Env, cache: Cache, req: Request): Outcome {
    match Credential(env, req)
    case None => Unauthorized
    case Some(token) =>
      if env.bytes(token) > MAX_CREDENTIAL_BYTES then Unauthorized
      else
        var d := env.digest(token);
        if d !in cache.byDigest || cache.byDigest[d].None? then Unauthorized
        else
          var p := cache.byDigest[d].value;
          if req.bearer.None? && !p.allowQueryToken then Unauthorized
          else if Claim(env, req).Some? && Claim(env, req).value != p.id then Forbidden
          else Granted(p)
  }

  // ----- what a request may do, from its fields -----

  /** The token, trimmed, is not empty, not too long, and the secret of p alone. */
  ghost predicate Stands(env: Env, secret: string -> Lookup, profiles: seq<Profile>, token: string, p: Profile) {
    && env.trim(token) != "" && env.bytes(env.trim(token)) <= MAX_CREDENTIAL_BYTES
    && exists i :: SoleOwner(env, secret, profiles, env.digest(env.trim(token)), p, i)
  }

  /** The request proves itself for p: by its bearer token if it has one, and only otherwise by its query
      token, if p allows those. */
  ghost predicate Entitled(env: Env, secret: string -> Lookup, profiles: seq<Profile>, req: Request, p: Profile) {
    match req.bearer
    case Some(token) => Stands(env, secret, profiles, token, p)
    case None => req.queryToken.Some? && Stands(env, secret, profiles, req.queryToken.value, p) && p.allowQueryToken
  }

  /** The workspace the request claims, in its header or else in its query, is p; a blank claim is none. */
  predicate ClaimFits(env: Env, req: Request, p: Profile) {
    if req.headerWorkspace.Some? && env.trim(req.headerWorkspace.value) != ""
    then env.trim(req.headerWorkspace.value) == p.id
    else req.queryWorkspace.Some? && env.trim(req.queryWorkspace.value) != "" ==>
           env.trim(req.queryWorkspace.value) == p.id
  }

  /** At most one profile is entitled. */
  lemma EntitledIsOne(env: Env, secret: string -> Lookup, profiles: seq<Profile>, req: Request, p: Profile, q: Profile)
    requires Entitled(env, secret, profiles, req, p) && Entitled(env, secret, profiles, req, q)
    ensures p == q
  {
    var token := if req.bearer.Some? then req.bearer.value else req.queryToken.value;
    var d := env.digest(env.trim(token));
    var i :| SoleOwner(env, secret, profiles, d, p, i);
    var j :| SoleOwner(env, secret, profiles, d, q, j);
  }

  /** Access is granted exactly to the profile that the request is entitled to and does not claim
      otherwise; an entitled request with another claim is forbidden; and every other request is
      unauthorized. */
  lemma AuthenticateIff(env: Env, secret: string -> Lookup, profiles: seq<Profile>, cache: Cache, req: Request,
      p: Profile)
    requires Agrees(env, secret, profiles, cache)
    ensures Authenticate(env, cache, req) == Granted(p) <==>
            Entitled(env, secret, profiles, req, p) && ClaimFits(env, req, p)
    ensures Entitled(env, secret, profiles, req, p) && !ClaimFits(env, req, p) ==>
            Authenticate(env, cache, req) == Forbidden
    ensures Authenticate(env, cache, req) == Unauthorized <==> forall q :: !Entitled(env, secret, profiles, req, q)
  {
    hide Agrees, SoleOwner, Owns;
    forall q
      ensures Entitled(env, secret, profiles, req, q) <==> Holder(env, cache, req) == Some(q)
    {
      HolderIsEntitled(env, secret, profiles, cache, req, q);
    }
    hide Entitled;
    match Holder(env, cache, req)
    case Some(q) => assert Entitled(env, secret, profiles, req, q);
    case None =>
  }

  /** The profile that the index finds for the request, before its claim is looked at. */
  function Holder(env: Env, cache: Cache, req: Request): Option<Profile> {
    match Credential(env, req)
    case None => None
    case Some(token) =>
      var d := env.digest(token);
      if env.bytes(token) > MAX_CREDENTIAL_BYTES || d !in cache.byDigest || cache.byDigest[d].None? then None
      else
        var p := cache.byDigest[d].value;
        if req.bearer.None? && !p.allowQueryToken then None else Some(p)
  }

  lemma HolderIsEntitled(env: Env, secret: string -> Lookup, profiles: seq<Profile>, cache: Cache, req: Request,
      p: Profile)
    requires Agrees(env, secret, profiles, cache)
    ensures Entitled(env, secret, profiles, req, p) <==> Holder(env, cache, req) == Some(p)
  {
    hide Agrees, SoleOwner;
    if Credential(env, req).Some? {
      DigestNamesUniqueOwner(env, secret, profiles, cache, env.digest(Credential(env, req).value), p);
    }
  }

  /** A bearer token, even a blank one, hides the query token. */
  lemma BearerHidesQuery(env: Env, cache: Cache, req: Request, token: Option<string>)
    requires req.bearer.Some?
    ensures Authenticate(env, cache, req) == Authenticate(env, cache, req.(queryToken := token))
  {
  }
}
