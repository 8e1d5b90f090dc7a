/** The durable idempotency state: bounded queues of pending operations and results, and their
    compaction under a byte budget. */
module Dedupe {
  import opened Wrappers
  import opened Ordering

  const LIMIT: nat := 1024
  const MAX_BYTES: nat := 16 * 1024 * 1024
  const USIZE_MAX: nat := 0xFFFF_FFFF_FFFF_FFFF

  type Payload = string

  /** One kind of operation: its results and its pending requests, each with the order of arrival. The
      pending thread creations carry no payload. */
  datatype Lane = Lane(results: map<string, Payload>, order: seq<string>, pending: map<string, Payload>,
      pendingOrder: seq<string>)

  datatype State = State(create: Lane, fork: Lane, approval: Lane)

  const EMPTY_LANE := Lane(map[], [], map[], [])
  const EMPTY_STATE := State(EMPTY_LANE, EMPTY_LANE, EMPTY_LANE)

  // ----- sequences of keys -----

  predicate NoDup(s: seq<string>) {
    forall i, j :: 0 <= i < j < |s| ==> s[i] != s[j]
  }

  function Elements(s: seq<string>): set<string> {
    set x | x in s
  }

  function Keep(s: seq<string>, keys: set<string>): seq<string> {
    if s == [] then [] else (if s[0] in keys then [s[0]] else []) + Keep(s[1..], keys)
  }

  function Suffix(s: seq<string>, n: nat): seq<string> {
    if |s| <= n then s else s[|s| - n..]
  }

  /** The keys of a set in ascending order. */
  ghost function Ascending(keys: set<string>): seq<string> {
    if keys == {} then [] else
      var k :| k in keys;
      InsertBy(StringLess, k, Ascending(keys - {k}))
  }

  // ----- trimming -----

  /** Cut the queue to its last `limit` keys, forget the results of the keys cut and of keys not queued. */
  function TrimResults(l: Lane, limit: nat): Lane {
    var order := Suffix(l.order, limit);
    var cut := Elements(l.order[..|l.order| - |order|]);
    l.(order := order, results := map k | k in l.results && k in order && k !in cut :: l.results[k])
  }

  /** The queue with strangers removed and unqueued pending keys added in ascending order. */
  ghost function Repaired(l: Lane): seq<string> {
    var kept := Keep(l.pendingOrder, l.pending.Keys);
    kept + Ascending(l.pending.Keys - Elements(kept))
  }

  /** Repair the queue, cut it to its last `limit` keys and forget the pending operations cut. */
  ghost function TrimPending(l: Lane, limit: nat): Lane {
    var all := Repaired(l);
    var order := Suffix(all, limit);
    l.(pendingOrder := order, pending := l.pending - Elements(all[..|all| - |order|]))
  }

  ghost function Reserve(l: Lane, id: string, op: Payload): Lane {
    var queued := if id in l.pending then l.pendingOrder else l.pendingOrder + [id];
    TrimPending(l.(pending := l.pending[id := op], pendingOrder := queued), LIMIT)
  }

  function Release(l: Lane, id: string): Lane {
    l.(pending := l.pending - {id}, pendingOrder := Keep(l.pendingOrder, Elements(l.pendingOrder) - {id}))
  }

  /** Cut the queue to its last `limit` keys and forget the results of the keys cut. */
  function CutResults(l: Lane, limit: nat): Lane {
    var order := Suffix(l.order, limit);
    l.(order := order, results := l.results - Elements(l.order[..|l.order| - |order|]))
  }

  /** Record the result of an operation and release the operation; a known result is answered from memory instead. */
  function Complete(l: Lane, id: string, value: Payload): Lane {
    if id in l.results then l
    else Release(CutResults(l.(results := l.results[id := value], order := l.order + [id]), LIMIT), id)
  }

  // ----- compaction -----

  function PendingOnly(s: State): State {
    State(s.create.(results := map[], order := []), s.fork.(results := map[], order := []),
        s.approval.(results := map[], order := []))
  }

  function Count(s: State): nat {
    |s.create.order| + |s.fork.order| + |s.approval.order|
  }

  function PopOldest(l: Lane): Lane
    requires l.order != []
  {
    l.(order := l.order[1..], results := l.results - {l.order[0]})
  }

  /** Drop the oldest result: of a creation if there is one, else of a fork, else of an approval. */
  function DropOne(s: State): State {
    if s.create.order != [] then s.(create := PopOldest(s.create))
    else if s.fork.order != [] then s.(fork := PopOldest(s.fork))
    else if s.approval.order != [] then s.(approval := PopOldest(s.approval))
    else s
  }

  function Drop(s: State, n: nat): State {
    if n == 0 then s else DropOne(Drop(s, n - 1))
  }

  function SaturatingMul(a: nat, b: nat): nat {
    if a * b > USIZE_MAX then USIZE_MAX else a * b
  }

  function DivCeil(a: nat, b: nat): nat
    requires b > 0
  {
    a / b + if a % b > 0 then 1 else 0
  }

  /** How many results to drop in one round. */
  function BatchSize(count: nat, bytes: nat): nat
    requires bytes > MAX_BYTES
  {
    var share := DivCeil(SaturatingMul(count, bytes - MAX_BYTES), bytes);
    if share < 1 then 1 else share
  }

  /** A round drops at least one result and no more than there are: the share of the results that the
      excess has in the size, rounded up. */
  lemma BatchFits(count: nat, bytes: nat)
    requires bytes > MAX_BYTES && count > 0
    ensures 1 <= BatchSize(count, bytes) <= count
    ensures var excess := count * (bytes - MAX_BYTES);
            excess <= USIZE_MAX ==> (BatchSize(count, bytes) - 1) * bytes < excess <= BatchSize(count, bytes) * bytes
  {
    var product := SaturatingMul(count, bytes - MAX_BYTES);
    assert count * (bytes - MAX_BYTES) > 0 by { Positive(count, bytes - MAX_BYTES); }
    assert product <= count * bytes by {
      assert count * (bytes - MAX_BYTES) <= count * bytes;
    }
    CeilBound(product, bytes, count);
    CeilIs(product, bytes);
  }

  lemma Positive(a: nat, b: nat)
    requires a > 0 && b > 0
    ensures a * b > 0
  {
  }

  lemma CeilIs(a: nat, b: nat)
    requires a > 0 && b > 0
    ensures DivCeil(a, b) >= 1 && (DivCeil(a, b) - 1) * b < a <= DivCeil(a, b) * b
  {
    var q, r := a / b, a % b;
    assert a == q * b + r;
    assert (q + 1) * b == q * b + b && (q - 1) * b == q * b - b;
    if q == 0 {
      assert r > 0;
    }
  }

  lemma CeilBound(a: nat, b: nat, c: nat)
    requires b > 0 && a <= c * b
    ensures DivCeil(a, b) <= c
  {
    var q, r := a / b, a % b;
    assert a == q * b + r;
    assert (c - q) * b >= r;
    Factor(c - q, b);
  }

  lemma Factor(x: int, b: int)
    requires b > 0
    ensures (x * b >= 0 ==> x >= 0) && (x * b > 0 ==> x > 0)
  {
    if x < 0 {
      assert x * b <= -b;
    }
  }

  lemma {:induction false} DropCounts(s: State, n: nat)
    ensures Count(Drop(s, n)) == if n <= Count(s) then Count(s) - n else 0
  {
    if n == 0 {
    } else {
      DropCounts(s, n - 1);
    }
  }

  lemma {:induction false} DropAgain(s: State, m: nat, n: nat)
    ensures Drop(Drop(s, m), n) == Drop(s, m + n)
  {
    if n == 0 {
    } else {
      DropAgain(s, m, n - 1);
    }
  }

  /** Write the state, dropping results until it fits; None when even that does not help. */
  method Compact(size: State -> nat, s: State) returns (written: Option<State>, ghost dropped: nat)
    ensures written.Some? <==> size(PendingOnly(s)) <= MAX_BYTES && size(Drop(s, dropped)) <= MAX_BYTES
    ensures written.Some? ==> written.value == Drop(s, dropped)
    ensures written.Some? && dropped > 0 ==> size(s) > MAX_BYTES
    ensures written.Some? ==> size(written.value) <= MAX_BYTES && size(PendingOnly(s)) <= MAX_BYTES
    ensures size(s) <= MAX_BYTES && size(PendingOnly(s)) <= MAX_BYTES ==> written == Some(s)
    ensures dropped <= Count(s)
    ensures written.None? && size(PendingOnly(s)) <= MAX_BYTES ==> dropped == Count(s)
  {
    hide BatchSize, DropOne, Drop, Count, PendingOnly;
    var compact := s;
    dropped := 0;
    DropNone(s);
    if size(PendingOnly(s)) > MAX_BYTES {
      return None, 0;
    }
    while size(compact) > MAX_BYTES
      invariant compact == Drop(s, dropped) && dropped <= Count(s) && Count(compact) == Count(s) - dropped
      invariant dropped > 0 ==> size(s) > MAX_BYTES
      decreases Count(compact)
    {
      var count := Count(compact);
      if count == 0 {
        return None, dropped;
      }
      var batch := BatchSize(count, size(compact));
      BatchFits(count, size(compact));
      DropCounts(s, dropped + batch);
      DropAgain(s, dropped, batch);
      compact := DropBatch(compact, batch);
      dropped := dropped + batch;
    }
    return Some(compact), dropped;
  }

  lemma DropNone(s: State)
    ensures Drop(s, 0) == s
  {
  }

  method DropBatch(s: State, batch: nat) returns (compact: State)
    ensures compact == Drop(s, batch)
  {
    compact := s;
    for i := 0 to batch
      invariant compact == Drop(s, i)
    {
      if compact.create.order != [] {
        compact := compact.(create := PopOldest(compact.create));
      } else if compact.fork.order != [] {
        compact := compact.(fork := PopOldest(compact.fork));
      } else if compact.approval.order != [] {
        compact := compact.(approval := PopOldest(compact.approval));
      } else {
        DropEmpty(s, i, batch);
        break;
      }
    }
  }

  lemma {:induction false} DropEmpty(s: State, i: nat, n: nat)
    requires i <= n && DropOne(Drop(s, i)) == Drop(s, i)
    ensures Drop(s, n) == Drop(s, i)
    decreases n
  {
    if i >= n {
    } else {
      DropEmpty(s, i, n - 1);
    }
  }
}
