/** First-fit port allocation with checked 16-bit addition. */
module Ports {
  import opened Wrappers
  import opened ConfigStore

  const FIRST_BRIDGE_PORT: nat := 8787

  /** Checked addition of the source's 16-bit ports. */
  function CheckedAdd(port: nat, n: nat): (r: Option<nat>)
    ensures r.Some? <==> port + n <= MAX_PORT
  {
    if port + n <= MAX_PORT then Some(port + n) else None
  }

  function AtLeastOne(port: nat): nat {
    if port < 1 then 1 else port
  }

  // ----- preview ports -----

  /** Every port a profile or an old listener already claims. */
  function Claimed(c: Config): set<nat> {
    (set p | p in c.profiles :: p.bridgePort) + (set p | p in c.profiles :: p.previewPort)
    + if c.broker.Some? then set e | e in c.broker.value.legacy :: e.port else {}
  }

  predicate Free(claimed: set<nat>, bindable: nat -> bool, port: nat) {
    port !in claimed && bindable(port)
  }

  /** The least free port at or above a candidate. */
  function LeastFree(claimed: set<nat>, bindable: nat -> bool, candidate: nat): (r: Option<nat>)
    requires candidate <= MAX_PORT
    ensures r.Some? ==> candidate <= r.value <= MAX_PORT && Free(claimed, bindable, r.value)
    ensures forall q :: candidate <= q < (if r.Some? then r.value else MAX_PORT + 1) ==> !Free(claimed, bindable, q)
    decreases MAX_PORT - candidate
  {
    if Free(claimed, bindable, candidate) then Some(candidate)
    else if candidate + 1 <= MAX_PORT then LeastFree(claimed, bindable, candidate + 1)
    else None
  }

  function PreviewPort(c: Config, id: string, bindable: nat -> bool, start: nat): Option<nat>
    requires start <= MAX_PORT
  {
    match Find(c.profiles, id)
    case Some(p) => Some(p.previewPort)
    case None => LeastFree(Claimed(c), bindable, AtLeastOne(start))
  }

  method AllocatePreviewPort(c: Config, id: string, bindable: nat -> bool, start: nat) returns (r: Option<nat>)
    requires start <= MAX_PORT
    ensures r == PreviewPort(c, id, bindable, start)
    ensures Find(c.profiles, id).Some? ==> r == Some(Find(c.profiles, id).value.previewPort)
    ensures Find(c.profiles, id).None? && r.Some? ==>
              AtLeastOne(start) <= r.value <= MAX_PORT && Free(Claimed(c), bindable, r.value)
              && forall q :: AtLeastOne(start) <= q < r.value ==> !Free(Claimed(c), bindable, q)
    ensures Find(c.profiles, id).None? && r.None? ==>
              forall q :: AtLeastOne(start) <= q <= MAX_PORT ==> !Free(Claimed(c), bindable, q)
  {
    var existing := Find(c.profiles, id);
    if existing.Some? {
      return Some(existing.value.previewPort);
    }
    var claimed, candidate := Claimed(c), AtLeastOne(start);
    while !Free(claimed, bindable, candidate)
      invariant AtLeastOne(start) <= candidate <= MAX_PORT
      invariant LeastFree(claimed, bindable, AtLeastOne(start)) == LeastFree(claimed, bindable, candidate)
      decreases MAX_PORT - candidate
    {
      match CheckedAdd(candidate, 1) {
        case Some(next) => candidate := next;
        case None => return None;
      }
    }
    return Some(candidate);
  }

  // ----- port pairs -----

  /** Ports claimed by the other profiles. */
  function ClaimedByOthers(c: Config, id: string): set<nat> {
    (set p | p in c.profiles && p.id != id :: p.bridgePort) + (set p | p in c.profiles && p.id != id :: p.previewPort)
  }

  predicate FreePair(claimed: set<nat>, bindable: nat -> bool, port: nat) {
    Free(claimed, bindable, port) && Free(claimed, bindable, port + 1)
  }

  /** The port is start, start + 2, ... */
  predicate InStep(start: nat, port: nat) {
    start <= port && (port - start) % 2 == 0
  }

  /** The first free pair among candidate, candidate + 2, ... whose second port is still a port. */
  function FirstPair(claimed: set<nat>, bindable: nat -> bool, candidate: nat): (r: Option<nat>)
    ensures r.Some? ==> InStep(candidate, r.value) && r.value + 1 <= MAX_PORT && FreePair(claimed, bindable, r.value)
    ensures forall q: nat :: InStep(candidate, q) && q < (if r.Some? then r.value else MAX_PORT) ==>
        !FreePair(claimed, bindable, q)
    decreases MAX_PORT - candidate
  {
    if candidate + 1 > MAX_PORT then None
    else if FreePair(claimed, bindable, candidate) then Some(candidate)
    else if candidate + 2 > MAX_PORT then None
    else
      var r := FirstPair(claimed, bindable, candidate + 2);
      assert forall q: nat :: InStep(candidate, q) <==> q == candidate || InStep(candidate + 2, q);
      r
  }

  method FindPair(claimed: set<nat>, bindable: nat -> bool, start: nat) returns (r: Option<nat>)
    ensures r == FirstPair(claimed, bindable, start)
  {
    hide InStep;
    var candidate := start;
    while candidate + 1 <= MAX_PORT
      invariant FirstPair(claimed, bindable, start) == FirstPair(claimed, bindable, candidate)
      decreases MAX_PORT + 1 - candidate
    {
      var preview := CheckedAdd(candidate, 1).value;
      if candidate !in claimed && preview !in claimed && bindable(candidate) && bindable(preview) {
        return Some(candidate);
      }
      match CheckedAdd(candidate, 2) {
        case Some(next) => candidate := next;
        case None => return None;
      }
    }
    return None;
  }

  /** The bridge port of the pair the allocator picks. */
  function PairPort(c: Config, id: string, bindable: nat -> bool, requested: Option<nat>, only: bool): (r: Option<nat>)
    ensures r.Some? ==> 1 <= r.value < MAX_PORT && FreePair(ClaimedByOthers(c, id), bindable, r.value)
  {
    var start := AtLeastOne(requested.GetOr(FIRST_BRIDGE_PORT));
    var claimed := ClaimedByOthers(c, id);
    if only then (if start + 1 <= MAX_PORT && FreePair(claimed, bindable, start) then Some(start) else None)
    else FirstPair(claimed, bindable, start)
  }

  method AllocatePortPair(c: Config, id: string, bindable: nat -> bool, requested: Option<nat>, only: bool)
      returns (r: Option<(nat, nat)>)
    ensures r == match PairPort(c, id, bindable, requested,
        only) case Some(port) => Some((port, port + 1)) case None => None
    ensures r.Some? ==>
              r.value.1 == r.value.0 + 1 && 1 <= r.value.0 && r.value.1 <= MAX_PORT
              && r.value.0 !in ClaimedByOthers(c, id) && r.value.1 !in ClaimedByOthers(c, id)
              && bindable(r.value.0) && bindable(r.value.1)
    ensures var start, claimed := AtLeastOne(requested.GetOr(FIRST_BRIDGE_PORT)), ClaimedByOthers(c, id);
            && (only && r.Some? ==> r.value.0 == start)
            && (only && r.None? ==> start >= MAX_PORT || !FreePair(claimed, bindable, start))
            && (!only && r.Some? ==> InStep(start, r.value.0))
            && (!only && r.Some? ==>
                  forall q: nat :: InStep(start, q) && q < r.value.0 ==> !FreePair(claimed, bindable, q))
            && (!only && r.None? ==>
                  forall q: nat :: InStep(start, q) && q < MAX_PORT ==> !FreePair(claimed, bindable, q))
  {
    var start := AtLeastOne(requested.GetOr(FIRST_BRIDGE_PORT));
    var claimed := ClaimedByOthers(c, id);
    if only {
      match CheckedAdd(start, 1) {
        case None => return None;
        case Some(preview) =>
          hide FirstPair;
          if start in claimed || preview in claimed || !(bindable(start) && bindable(preview)) {
            return None;
          }
          return Some((start, preview));
      }
    }
    hide FirstPair;
    var found := FindPair(claimed, bindable, start);
    return match found case Some(port) => Some((port, port + 1)) case None => None;
  }
}
