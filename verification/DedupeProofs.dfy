/** The queues stay consistent and bounded, and writing then reading the state loses only the oldest results. */
module DedupeProofs {
  import opened Wrappers
  import opened Ordering
  import opened Dedupe

  // ----- consistent lanes -----

  /** Results belong to queued keys. */
  predicate Covered(l: Lane) {
    l.results.Keys <= Elements(l.order)
  }

  /** The pending queue lists exactly the pending keys, once each. */
  predicate Listed(l: Lane) {
    NoDup(l.pendingOrder) && Elements(l.pendingOrder) == l.pending.Keys
  }

  predicate Good(l: Lane) {
    Covered(l) && Listed(l) && |l.order| <= LIMIT && |l.pendingOrder| <= LIMIT
  }

  predicate GoodState(s: State) {
    Good(s.create) && Good(s.fork) && Good(s.approval)
  }

  // ----- what dropping leaves -----

  function LaneDrop(l: Lane, n: nat): Lane
    requires n <= |l.order|
  {
    l.(order := l.order[n..], results := l.results - Elements(l.order[..n]))
  }

  function AtMost(n: nat, m: nat): nat {
    if n < m then n else m
  }

  function Beyond(n: nat, m: nat): nat {
    if n < m then 0 else n - m
  }

  /** Dropping n results takes them from the creations first, then the forks, then the approvals, oldest first. */
  function Dropped(s: State, n: nat): State {
    var c, f, a := |s.create.order|, |s.fork.order|, |s.approval.order|;
    State(LaneDrop(s.create, AtMost(n, c)), LaneDrop(s.fork, AtMost(Beyond(n, c), f)),
        LaneDrop(s.approval, AtMost(Beyond(n, c + f), a)))
  }

  lemma PopAfterDrop(l: Lane, n: nat)
    requires n < |l.order|
    ensures LaneDrop(l, n).order != [] && PopOldest(LaneDrop(l, n)) == LaneDrop(l, n + 1)
  {
    var d := LaneDrop(l, n);
    assert d.order[0] == l.order[n] && d.order[1..] == l.order[n + 1..];
    assert l.order[..n + 1] == l.order[..n] + [l.order[n]];
    assert Elements(l.order[..n + 1]) == Elements(l.order[..n]) + {l.order[n]};
    assert d.results - {l.order[n]} == l.results - Elements(l.order[..n + 1]);
  }

  lemma DropLaneNone(l: Lane)
    ensures LaneDrop(l, 0) == l
  {
    assert l.order[0..] == l.order && l.order[..0] == [];
    assert l.results - {} == l.results;
  }

  /** The step-by-step drop has that closed form: what is left of each queue is a suffix, and a fork goes
      only after every creation, an approval only after every fork. */
  lemma {:induction false} DropIsDropped(s: State, n: nat)
    ensures Drop(s, n) == Dropped(s, n)
  {
    hide LaneDrop, PopOldest;
    if n == 0 {
      DropLaneNone(s.create);
      DropLaneNone(s.fork);
      DropLaneNone(s.approval);
    } else {
      DropIsDropped(s, n - 1);
      DropStep(s, n - 1);
    }
  }

  lemma LaneDropOrder(l: Lane, n: nat)
    requires n <= |l.order|
    ensures |LaneDrop(l, n).order| == |l.order| - n
  {
  }

  lemma DropStep(s: State, n: nat)
    ensures DropOne(Dropped(s, n)) == Dropped(s, n + 1)
  {
    hide LaneDrop, PopOldest;
    var c, f, a := |s.create.order|, |s.fork.order|, |s.approval.order|;
    LaneDropOrder(s.create, AtMost(n, c));
    LaneDropOrder(s.fork, AtMost(Beyond(n, c), f));
    LaneDropOrder(s.approval, AtMost(Beyond(n, c + f), a));
    if n < c {
      PopAfterDrop(s.create, n);
    } else if n - c < f {
      PopAfterDrop(s.fork, n - c);
    } else if n - c - f < a {
      PopAfterDrop(s.approval, n - c - f);
    }
  }

  // ----- persisting succeeds -----

  lemma LaneDropAll(l: Lane)
    requires Covered(l)
    ensures LaneDrop(l, |l.order|) == l.(results := map[], order := [])
  {
    assert l.order[..|l.order|] == l.order && l.order[|l.order|..] == [];
    assert l.results - Elements(l.order) == map[];
  }

  /** With every result queued, dropping all of them leaves the pending operations alone, so the state can
      be written exactly when those fit. */
  lemma DropAll(s: State)
    requires Covered(s.create) && Covered(s.fork) && Covered(s.approval)
    ensures Drop(s, Count(s)) == PendingOnly(s)
  {
    hide LaneDrop, Covered;
    DropIsDropped(s, Count(s));
    LaneDropAll(s.create);
    LaneDropAll(s.fork);
    LaneDropAll(s.approval);
  }

  method Persist(size: State -> nat, s: State) returns (written: Option<State>)
    requires Covered(s.create) && Covered(s.fork) && Covered(s.approval)
    ensures written.Some? <==> size(PendingOnly(s)) <= MAX_BYTES
    ensures written.Some? ==> size(written.value) <= MAX_BYTES && exists n ::
        0 <= n <= Count(s) && written.value == Dropped(s, n)
    ensures size(s) <= MAX_BYTES && written.Some? ==> written.value == s
  {
    hide Dropped, Count, Covered, PendingOnly;
    ghost var n;
    written, n := Compact(size, s);
    DropAll(s);
    DropIsDropped(s, n);
    DropNone(s);
  }

  /** A result that no queue lists is why that is needed: no amount of dropping removes it. */
  lemma StrayResultStays(s: State, n: nat, k: string)
    requires k in s.create.results && k !in s.create.order
    ensures k in Drop(s, n).create.results
  {
    DropIsDropped(s, n);
  }

  // ----- trimming consistent lanes changes nothing -----

  lemma {:induction false} KeepMembers(s: seq<string>, keys: set<string>, x: string)
    ensures x in Keep(s, keys) <==> x in s && x in keys
  {
    if s == [] {
    } else {
      KeepMembers(s[1..], keys, x);
    }
  }

  lemma {:induction false} KeepOnce(s: seq<string>, keys: set<string>)
    requires NoDup(s)
    ensures NoDup(Keep(s, keys))
  {
    if s == [] {
    } else {
      KeepOnce(s[1..], keys);
      KeepMembers(s[1..], keys, s[0]);
      assert s[0] !in s[1..];
      Prepend(s[0], Keep(s[1..], keys));
    }
  }

  lemma Prepend(x: string, s: seq<string>)
    requires NoDup(s)
    ensures x !in s ==> NoDup([x] + s)
    ensures [] + s == s
  {
  }

  lemma {:induction false} KeepWhole(s: seq<string>, keys: set<string>)
    requires Elements(s) <= keys
    ensures Keep(s, keys) == s
  {
    if s == [] {
    } else {
      assert s[0] in Elements(s);
      assert forall x :: x in s[1..] ==> x in Elements(s);
      KeepWhole(s[1..], keys);
      assert s == [s[0]] + s[1..];
    }
  }

  lemma KeepIs(s: seq<string>, keys: set<string>)
    ensures Elements(Keep(s, keys)) == Elements(s) * keys
    ensures NoDup(s) ==> NoDup(Keep(s, keys))
    ensures Elements(s) <= keys ==> Keep(s, keys) == s
  {
    hide Keep, NoDup;
    forall x ensures x in Keep(s, keys) <==> x in s && x in keys {
      KeepMembers(s, keys, x);
    }
    if NoDup(s) {
      KeepOnce(s, keys);
    }
    if Elements(s) <= keys {
      KeepWhole(s, keys);
    }
  }

  lemma {:induction false} AscendingIs(keys: set<string>)
    ensures Elements(Ascending(keys)) == keys && NoDup(Ascending(keys)) && |Ascending(keys)| == |keys|
    ensures Ordered(StringLess, Ascending(keys))
  {
    if keys == {} {
    } else {
      var k: string :| k in keys && Ascending(keys) == InsertBy(StringLess, k, Ascending(keys - {k}));
      var rest := Ascending(keys - {k});
      AscendingIs(keys - {k});
      StringsOrdered();
      InsertOrders(StringLess, k, rest);
      InsertOnce(k, rest);
      assert keys == (keys - {k}) + {k};
    }
  }

  lemma {:induction false} InsertOnce(k: string, s: seq<string>)
    requires NoDup(s) && k !in s
    ensures NoDup(InsertBy(StringLess, k, s)) && Elements(InsertBy(StringLess, k, s)) == Elements(s) + {k}
    ensures |InsertBy(StringLess, k, s)| == |s| + 1
  {
    hide StringLess;
    if s == [] || !StringLess(s[0], k) {
    } else {
      InsertOnce(k, s[1..]);
      var rest := InsertBy(StringLess, k, s[1..]);
      assert Elements(s) == {s[0]} + Elements(s[1..]);
      assert s[0] !in s[1..];
      assert s[0] !in Elements(rest);
    }
  }

  lemma TrimResultsKeeps(l: Lane)
    requires Covered(l) && |l.order| <= LIMIT
    ensures TrimResults(l, LIMIT) == l
  {
    assert l.order[..0] == [];
    assert forall k :: k in l.results ==> k in Elements(l.order);
  }

  /** The repaired queue lists exactly the pending keys, once each, whatever the queue held before without
      repetition. */
  lemma RepairedIs(l: Lane)
    requires NoDup(l.pendingOrder)
    ensures NoDup(Repaired(l)) && Elements(Repaired(l)) == l.pending.Keys
    ensures Listed(l) ==> Repaired(l) == l.pendingOrder
  {
    hide Keep, Ascending, NoDup, Elements;
    var kept := Keep(l.pendingOrder, l.pending.Keys);
    var missing := l.pending.Keys - Elements(kept);
    KeepIs(l.pendingOrder, l.pending.Keys);
    AscendingIs(missing);
    Append(kept, Ascending(missing));
    if Listed(l) {
      assert missing == {};
      assert Ascending(missing) == [];
    }
  }

  lemma Append(a: seq<string>, b: seq<string>)
    requires NoDup(a) && NoDup(b) && Elements(a) !! Elements(b)
    ensures NoDup(a + b) && Elements(a + b) == Elements(a) + Elements(b)
  {
    forall i, j | 0 <= i < j < |a + b| ensures (a + b)[i] != (a + b)[j] {
      if i < |a| <= j {
        assert a[i] in Elements(a) && b[j - |a|] in Elements(b);
      }
    }
  }

  lemma TrimPendingKeeps(l: Lane)
    requires Listed(l) && |l.pendingOrder| <= LIMIT
    ensures TrimPending(l, LIMIT) == l
  {
    hide Repaired;
    RepairedIs(l);
    assert l.pendingOrder[..0] == [];
    assert l.pending - {} == l.pending;
  }

  /** Trimming a pending queue without repetition makes it list exactly the pending operations that are
      left, at most `limit` of them, and those are the most recent ones. */
  lemma TrimPendingListed(l: Lane, limit: nat)
    requires NoDup(l.pendingOrder)
    ensures Listed(TrimPending(l, limit)) && |TrimPending(l, limit).pendingOrder| <= limit
    ensures |Repaired(l)| <= limit ==> TrimPending(l, limit).pending == l.pending
  {
    hide Repaired, NoDup, Elements;
    RepairedIs(l);
    var all := Repaired(l);
    var order := Suffix(all, limit);
    CutApart(all, |all| - |order|);
    assert order == all[|all| - |order|..];
    assert l.pending.Keys == Elements(all);
    assert (l.pending - Elements(all[..|all| - |order|])).Keys == Elements(order);
    if |all| <= limit {
      assert all[..0] == [];
      NoElements();
      assert l.pending - {} == l.pending;
    }
  }

  lemma NoElements()
    ensures Elements([]) == {}
  {
  }

  lemma CutApart(all: seq<string>, n: nat)
    requires NoDup(all) && n <= |all|
    ensures NoDup(all[n..]) && NoDup(all[..n])
    ensures Elements(all) == Elements(all[..n]) + Elements(all[n..]) && Elements(all[..n]) !! Elements(all[n..])
  {
    assert all == all[..n] + all[n..];
  }

  // ----- writing, then reading -----

  ghost function LoadedLane(l: Lane): Lane {
    TrimPending(TrimResults(l, LIMIT), LIMIT)
  }

  /** What reading a written state gives. */
  ghost function Loaded(s: State): State {
    State(LoadedLane(s.create), LoadedLane(s.fork), LoadedLane(s.approval))
  }

  lemma LaneDropGood(l: Lane, n: nat)
    requires Good(l) && n <= |l.order|
    ensures Good(LaneDrop(l, n))
  {
    assert l.order == l.order[..n] + l.order[n..];
    forall k | k in LaneDrop(l, n).results
      ensures k in Elements(l.order[n..])
    {
      assert k in Elements(l.order) && k !in Elements(l.order[..n]);
    }
  }

  lemma GoodLoads(l: Lane)
    requires Good(l)
    ensures LoadedLane(l) == l
  {
    hide TrimPending, TrimResults, Covered, Listed;
    TrimResultsKeeps(l);
    TrimPendingKeeps(l);
  }

  /** Every result is queued, no key is queued twice and there is room for the pending operations; the
      pending queue may be out of step with them. */
  predicate Sound(l: Lane) {
    NoDup(l.order) && Covered(l) && NoDup(l.pendingOrder) && |l.pending| <= LIMIT
  }

  predicate SoundState(s: State) {
    Sound(s.create) && Sound(s.fork) && Sound(s.approval)
  }

  /** What is read back of a lane: every pending operation, listed once each, and the results of the last
      keys of its queue. */
  ghost predicate ReadBack(written: Lane, read: Lane) {
    && read.pending == written.pending && Listed(read)
    && read.order == Suffix(written.order, LIMIT)
    && read.results == map k | k in written.results && k in Suffix(written.order, LIMIT) :: written.results[k]
  }

  lemma {:induction false} OnceSize(s: seq<string>)
    requires NoDup(s)
    ensures |Elements(s)| == |s|
  {
    if s == [] {
    } else {
      OnceSize(s[1..]);
      assert s[0] !in s[1..];
      assert Elements(s) == {s[0]} + Elements(s[1..]);
    }
  }

  lemma TrimResultsIs(l: Lane)
    requires NoDup(l.order)
    ensures TrimResults(l, LIMIT).results == map k | k in l.results && k in Suffix(l.order, LIMIT) :: l.results[k]
  {
    hide Elements, NoDup;
    var order := Suffix(l.order, LIMIT);
    var n := |l.order| - |order|;
    CutApart(l.order, n);
    assert order == l.order[n..];
    forall k | k in order
      ensures k !in Elements(l.order[..n])
    {
      assert k in Elements(order) by { InElements(order, k); }
    }
  }

  lemma InElements(s: seq<string>, k: string)
    ensures k in Elements(s) <==> k in s
  {
  }

  lemma SoundLoads(l: Lane)
    requires Sound(l)
    ensures ReadBack(l, LoadedLane(l))
  {
    hide TrimPending, NoDup, Elements, Listed, Repaired;
    var t := TrimResults(l, LIMIT);
    TrimResultsIs(l);
    RepairedIs(t);
    OnceSize(Repaired(t));
    assert |t.pending.Keys| == |t.pending|;
    TrimPendingListed(t, LIMIT);
    TrimPendingFrame(t);
  }

  lemma TrimPendingFrame(l: Lane)
    ensures TrimPending(l, LIMIT).order == l.order && TrimPending(l, LIMIT).results == l.results
  {
  }

  lemma LaneDropSound(l: Lane, n: nat)
    requires Sound(l) && n <= |l.order|
    ensures Sound(LaneDrop(l, n))
  {
    hide NoDup, Elements;
    CutApart(l.order, n);
  }

  /** Reading a written state back gives every pending operation and, of each result queue, the last keys
      of the suffix that was written; a fork was dropped only if every creation was, and an approval only
      if every fork was. A state whose queues are in step and within their limits comes back as it was
      written. */
  lemma LoadAfterPersist(s: State, n: nat)
    requires SoundState(s)
    ensures var d, r := Dropped(s, n), Loaded(Dropped(s, n));
            && ReadBack(d.create, r.create) && ReadBack(d.fork, r.fork) && ReadBack(d.approval, r.approval)
            && r.create.pending == s.create.pending && r.fork.pending == s.fork.pending
            && r.approval.pending == s.approval.pending
            && (d.fork.order != s.fork.order ==> d.create.order == [])
            && (d.approval.order != s.approval.order ==> d.create.order == [] && d.fork.order == [])
    ensures GoodState(s) ==> GoodState(Dropped(s, n)) && Loaded(Dropped(s, n)) == Dropped(s, n)
  {
    hide Good, Sound, LoadedLane;
    var c, f, a := |s.create.order|, |s.fork.order|, |s.approval.order|;
    LaneAfterPersist(s.create, AtMost(n, c));
    LaneAfterPersist(s.fork, AtMost(Beyond(n, c), f));
    LaneAfterPersist(s.approval, AtMost(Beyond(n, c + f), a));
  }

  lemma LaneAfterPersist(l: Lane, n: nat)
    requires Sound(l) && n <= |l.order|
    ensures ReadBack(LaneDrop(l, n), LoadedLane(LaneDrop(l, n)))
    ensures Good(l) ==> Good(LaneDrop(l, n)) && LoadedLane(LaneDrop(l, n)) == LaneDrop(l, n)
  {
    hide Good, Sound, ReadBack, LoadedLane, LaneDrop;
    LaneDropSound(l, n);
    SoundLoads(LaneDrop(l, n));
    if Good(l) {
      LaneDropGood(l, n);
      GoodLoads(LaneDrop(l, n));
    }
  }

  /** A state whose queues are in step and within their limits comes back as it was written. */
  lemma GoodAfterPersist(s: State, n: nat)
    requires GoodState(s)
    ensures GoodState(Dropped(s, n)) && Loaded(Dropped(s, n)) == Dropped(s, n)
  {
    hide Good, LoadedLane, LaneDrop;
    var c, f, a := |s.create.order|, |s.fork.order|, |s.approval.order|;
    LaneDropGood(s.create, AtMost(n, c));
    LaneDropGood(s.fork, AtMost(Beyond(n, c), f));
    LaneDropGood(s.approval, AtMost(Beyond(n, c + f), a));
    GoodLoads(LaneDrop(s.create, AtMost(n, c)));
    GoodLoads(LaneDrop(s.fork, AtMost(Beyond(n, c), f)));
    GoodLoads(LaneDrop(s.approval, AtMost(Beyond(n, c + f), a)));
  }

  /** Reading any file whose pending queues list no key twice gives a state in step and within its limits. */
  lemma LoadedIsGood(l: Lane)
    requires NoDup(l.pendingOrder)
    ensures Good(LoadedLane(l))
  {
    hide TrimPending, NoDup, Listed, Repaired;
    var t := TrimResults(l, LIMIT);
    assert Covered(t) && |t.order| <= LIMIT;
    TrimPendingListed(t, LIMIT);
    TrimPendingFrame(t);
    CoveredSame(t, LoadedLane(l));
  }

  // ----- reserving, completing and releasing -----

  /** Reserving adds or renews the operation; when the queue is full it forgets the oldest one and no other. */
  lemma ReserveIs(l: Lane, id: string, op: Payload)
    requires Good(l)
    ensures Good(Reserve(l, id, op))
    ensures Reserve(l, id, op) ==
            if id in l.pending then l.(pending := l.pending[id := op])
            else if |l.pendingOrder| < LIMIT
                then l.(pending := l.pending[id := op], pendingOrder := l.pendingOrder + [id])
            else l.(pending := l.pending[id := op] - {l.pendingOrder[0]}, pendingOrder := l.pendingOrder[1..] + [id])
  {
    hide Repaired, Covered, TrimPending;
    if id in l.pending {
      var renewed := l.(pending := l.pending[id := op]);
      assert renewed.pending.Keys == l.pending.Keys;
      TrimPendingKeeps(renewed);
      CoveredSame(l, renewed);
    } else {
      var added := l.(pending := l.pending[id := op], pendingOrder := l.pendingOrder + [id]);
      ReserveListed(l, id, op);
      CoveredSame(l, added);
      if |l.pendingOrder| < LIMIT {
        TrimPendingKeeps(added);
      } else {
        TrimFull(added);
      }
    }
  }

  lemma CoveredSame(l: Lane, m: Lane)
    requires Covered(l) && m.order == l.order && m.results == l.results
    ensures Covered(m)
  {
  }

  lemma ReserveListed(l: Lane, id: string, op: Payload)
    requires Listed(l) && id !in l.pending
    ensures Listed(l.(pending := l.pending[id := op], pendingOrder := l.pendingOrder + [id]))
  {
    assert id !in Elements(l.pendingOrder);
    assert forall x :: x in l.pendingOrder ==> x in Elements(l.pendingOrder);
    assert Elements(l.pendingOrder + [id]) == Elements(l.pendingOrder) + {id};
  }

  /** Trimming a list that is one too long forgets its first key. */
  lemma TrimFull(l: Lane)
    requires Listed(l) && |l.pendingOrder| == LIMIT + 1 && Covered(l) && |l.order| <= LIMIT
    ensures TrimPending(l, LIMIT) == l.(pendingOrder := l.pendingOrder[1..], pending := l.pending - {l.pendingOrder[0]})
    ensures Good(TrimPending(l, LIMIT))
  {
    hide Repaired, NoDup, Covered;
    RepairedIs(l);
    TrimPendingListed(l, LIMIT);
    assert l.pendingOrder[..1] == [l.pendingOrder[0]];
    assert Elements(l.pendingOrder[..1]) == {l.pendingOrder[0]};
    CoveredSame(l, TrimPending(l, LIMIT));
  }

  lemma ReleaseIs(l: Lane, id: string)
    requires Good(l)
    ensures Good(Release(l, id)) && Release(l, id).pending == l.pending - {id}
  {
    hide Covered, Keep, NoDup;
    KeepIs(l.pendingOrder, Elements(l.pendingOrder) - {id});
    KeepShort(l.pendingOrder, Elements(l.pendingOrder) - {id});
    CoveredSame(l, Release(l, id));
  }

  lemma {:induction false} KeepShort(s: seq<string>, keys: set<string>)
    ensures |Keep(s, keys)| <= |s|
  {
    if s == [] {
    } else {
      KeepShort(s[1..], keys);
    }
  }

  /** Releasing undoes reserving, when there was room. */
  lemma ReleaseUndoesReserve(l: Lane, id: string, op: Payload)
    requires Good(l) && id !in l.pending && |l.pendingOrder| < LIMIT
    ensures Release(Reserve(l, id, op), id) == l
  {
    hide Reserve, Keep, Covered;
    ReserveIs(l, id, op);
    var r := Reserve(l, id, op);
    assert id !in Elements(l.pendingOrder);
    assert Elements(r.pendingOrder) - {id} == Elements(l.pendingOrder);
    KeepLast(l.pendingOrder, id, Elements(l.pendingOrder));
    assert l.pending[id := op] - {id} == l.pending;
  }

  lemma {:induction false} KeepLast(s: seq<string>, id: string, keys: set<string>)
    requires Elements(s) <= keys && id !in keys
    ensures Keep(s + [id], keys) == s
  {
    if s == [] {
      assert [id][1..] == [] && s + [id] == [id];
    } else {
      assert (s + [id])[1..] == s[1..] + [id];
      assert s[0] in Elements(s);
      assert forall x :: x in s[1..] ==> x in Elements(s);
      KeepLast(s[1..], id, keys);
      assert s == [s[0]] + s[1..];
    }
  }

  /** Completing an operation records its result, forgets at most the oldest results and releases the operation. */
  lemma CompleteIs(l: Lane, id: string, value: Payload)
    requires Good(l)
    ensures Good(Complete(l, id, value))
    ensures id !in l.results ==> Complete(l, id, value).pending == l.pending - {id}
    ensures id !in l.order ==>
              var after := Complete(l, id, value);
              && id in after.results && after.results[id] == value
              && after.order == Suffix(l.order + [id], LIMIT)
              && after.results == if |l.order| < LIMIT then l.results[id := value]
                                  else l.results[id := value] - {l.order[0]}
    ensures id in l.results ==> Complete(l, id, value) == l
  {
    hide Keep, NoDup, Covered, Listed;
    if id !in l.results {
      if id !in l.order {
        CompleteResults(l, id, value);
      }
      var cut := CutResults(l.(results := l.results[id := value], order := l.order + [id]), LIMIT);
      CutCovers(l, id, value);
      ListedSame(l, cut);
      ReleaseIs(cut, id);
    } else {
      assert id in l.order by { CoveredKey(l, id); }
    }
  }

  lemma CompleteResults(l: Lane, id: string, value: Payload)
    requires id !in l.order && id !in l.results && |l.order| <= LIMIT
    ensures var after := Complete(l, id, value);
            && id in after.results && after.results[id] == value
            && after.order == Suffix(l.order + [id], LIMIT)
            && after.results == if |l.order| < LIMIT then l.results[id := value]
                                else l.results[id := value] - {l.order[0]}
  {
    hide Keep;
    var all := l.order + [id];
    var order := Suffix(all, LIMIT);
    var cut := all[..|all| - |order|];
    assert cut == if |l.order| < LIMIT then [] else [l.order[0]];
    assert l.results[id := value] - {} == l.results[id := value];
  }

  lemma CoveredKey(l: Lane, id: string)
    requires Covered(l) && id in l.results
    ensures id in l.order
  {
    assert id in Elements(l.order);
  }

  lemma ListedSame(l: Lane, m: Lane)
    requires Listed(l) && m.pending == l.pending && m.pendingOrder == l.pendingOrder
    ensures Listed(m)
  {
  }

  lemma CutCovers(l: Lane, id: string, value: Payload)
    requires Covered(l) && |l.order| <= LIMIT && id !in l.results
    ensures var cut := CutResults(l.(results := l.results[id := value], order := l.order + [id]), LIMIT);
            Covered(cut) && |cut.order| <= LIMIT && (id in cut.results || id in l.order)
  {
    var all := l.order + [id];
    var kept := Suffix(all, LIMIT);
    var dropped := all[..|all| - |kept|];
    assert all == dropped + kept;
    assert Elements(all) == Elements(l.order) + {id};
    assert forall k :: k in Elements(dropped) ==> k in l.order;
  }
}
