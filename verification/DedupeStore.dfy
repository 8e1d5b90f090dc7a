/** The loops that trim the queues in place, and the store that keeps memory and file in step. */
module DedupeStore {
  import opened Wrappers
  import opened Ordering
  import opened Dedupe
  import opened DedupeProofs

  /** `trim_dedupe`: pop the oldest keys, then forget results of keys that are not queued. */
  method TrimDedupe(l: Lane, limit: nat) returns (r: Lane)
    ensures r == TrimResults(l, limit)
  {
    var results, order, n := l.results, l.order, 0;
    assert l.order[..0] == [];
    while |order| > limit
      invariant n <= |l.order| && order == l.order[n..] && (n == 0 || |order| >= limit)
      invariant results == l.results - Elements(l.order[..n])
    {
      CutOne(l.order, n);
      results := results - {order[0]};
      order := order[1..];
      n := n + 1;
    }
    assert order == Suffix(l.order, limit);
    results := map k | k in results && k in order :: results[k];
    r := l.(results := results, order := order);
    assert r.results == TrimResults(l, limit).results;
  }

  lemma CutOne(s: seq<string>, n: nat)
    requires n < |s|
    ensures Elements(s[..n + 1]) == Elements(s[..n]) + {s[n]}
  {
    assert s[..n + 1] == s[..n] + [s[n]];
  }

  /** The unqueued keys, met in an arbitrary order and then sorted. */
  method SortedKeys(keys: set<string>) returns (r: seq<string>)
    ensures r == Ascending(keys)
  {
    hide Ascending, StringLess;
    var rest, listing: seq<string> := keys, [];
    while rest != {}
      invariant rest <= keys && NoDup(listing) && Elements(listing) == keys - rest
      decreases |rest|
    {
      var k: string :| k in rest;
      assert k !in Elements(listing);
      assert Elements(listing + [k]) == Elements(listing) + {k};
      listing := listing + [k];
      rest := rest - {k};
    }
    assert Elements(listing) == keys;
    r := SortBy(StringLess, listing);
    SortedIsAscending(listing, keys);
  }

  lemma SortedIsAscending(listing: seq<string>, keys: set<string>)
    requires NoDup(listing) && Elements(listing) == keys
    ensures SortBy(StringLess, listing) == Ascending(keys)
  {
    hide Ascending, StringLess;
    var sorted, asc := SortBy(StringLess, listing), Ascending(keys);
    StringsOrdered();
    AscendingIs(keys);
    SortOrders(StringLess, listing);
    SortPermutes(StringLess, listing);
    SameMultiset(listing, asc);
    OrderedStringsUnique(asc, sorted);
  }

  lemma SameMultiset(a: seq<string>, b: seq<string>)
    requires NoDup(a) && NoDup(b) && Elements(a) == Elements(b)
    ensures multiset(a) == multiset(b)
  {
    OnceEach(a);
    OnceEach(b);
  }

  lemma {:induction false} OnceEach(s: seq<string>)
    requires NoDup(s)
    ensures multiset(s) == multiset(Elements(s))
  {
    if s == [] {
    } else {
      OnceEach(s[1..]);
      assert s == [s[0]] + s[1..];
      assert Elements(s) == {s[0]} + Elements(s[1..]);
      assert s[0] !in s[1..];
    }
  }

  method Retain(s: seq<string>, keys: set<string>) returns (kept: seq<string>)
    ensures kept == Keep(s, keys)
  {
    var i := 0;
    kept := [];
    while i < |s|
      invariant i <= |s| && Keep(s, keys) == kept + Keep(s[i..], keys)
    {
      var rest := Keep(s[i + 1..], keys);
      assert s[i..][1..] == s[i + 1..];
      assert kept + ([s[i]] + rest) == kept + [s[i]] + rest && kept + ([] + rest) == kept + rest;
      if s[i] in keys {
        kept := kept + [s[i]];
      }
      i := i + 1;
    }
  }

  /** `trim_pending_map`, and `trim_pending_set` where no operation carries a payload. */
  method TrimPendingQueue(l: Lane, limit: nat) returns (r: Lane)
    ensures r == TrimPending(l, limit)
  {
    hide Keep, Ascending;
    var kept := Retain(l.pendingOrder, l.pending.Keys);
    var missing := SortedKeys(l.pending.Keys - Elements(kept));
    var all := kept + missing;
    assert all == Repaired(l);
    hide Repaired;
    var order, pending, n := all, l.pending, 0;
    assert all[..0] == [] && l.pending - {} == l.pending;
    while |order| > limit
      invariant n <= |all| && order == all[n..] && (n == 0 || |order| >= limit)
      invariant pending == l.pending - Elements(all[..n])
    {
      CutOne(all, n);
      pending := pending - {order[0]};
      order := order[1..];
      n := n + 1;
    }
    assert order == Suffix(all, limit) && n == |all| - |order|;
    r := l.(pendingOrder := order, pending := pending);
  }

  method ReserveOperation(l: Lane, id: string, op: Payload) returns (r: Lane)
    ensures r == Reserve(l, id, op)
  {
    hide TrimPending;
    var queued := l.pendingOrder;
    if id !in l.pending {
      queued := queued + [id];
    }
    r := TrimPendingQueue(l.(pending := l.pending[id := op], pendingOrder := queued), LIMIT);
  }

  method ReleaseOperation(l: Lane, id: string) returns (r: Lane)
    ensures r == Release(l, id)
  {
    var kept := Retain(l.pendingOrder, Elements(l.pendingOrder) - {id});
    r := l.(pending := l.pending - {id}, pendingOrder := kept);
  }

  method Load(s: State) returns (r: State)
    ensures r == Loaded(s)
  {
    hide TrimResults, TrimPending;
    var create := TrimDedupe(s.create, LIMIT);
    var fork := TrimDedupe(s.fork, LIMIT);
    var approval := TrimDedupe(s.approval, LIMIT);
    create := TrimPendingQueue(create, LIMIT);
    fork := TrimPendingQueue(fork, LIMIT);
    approval := TrimPendingQueue(approval, LIMIT);
    r := State(create, fork, approval);
  }

  /** Record a result, cut the queue and release the operation, as the handlers do. */
  method CompleteOperation(l: Lane, id: string, value: Payload) returns (r: Lane)
    ensures r == Complete(l, id, value)
  {
    if id in l.results {
      return l;
    }
    var results, all := l.results[id := value], l.order + [id];
    var order, n := all, 0;
    assert all[..0] == [] && results - {} == results;
    while |order| > LIMIT
      invariant n <= |all| && order == all[n..] && (n == 0 || |order| >= LIMIT)
      invariant results == l.results[id := value] - Elements(all[..n])
    {
      CutOne(all, n);
      results := results - {order[0]};
      order := order[1..];
      n := n + 1;
    }
    assert order == Suffix(all, LIMIT) && n == |all| - |order|;
    r := ReleaseOperation(l.(results := results, order := order), id);
  }

  // ----- changes -----

  datatype Kind = Creation | Fork | Approval

  /** What the handlers do to the state. */
  datatype Change =
    | Reserving(kind: Kind, id: string, op: Payload)
    | Completing(kind: Kind, id: string, value: Payload)
    | Releasing(kind: Kind, id: string)

  function Get(s: State, kind: Kind): Lane {
    match kind case Creation => s.create case Fork => s.fork case Approval => s.approval
  }

  function Put(s: State, kind: Kind, l: Lane): State {
    match kind case Creation => s.(create := l) case Fork => s.(fork := l) case Approval => s.(approval := l)
  }

  ghost function Changed(s: State, change: Change): State {
    var l := Get(s, change.kind);
    Put(s, change.kind,
        match change
        case Reserving(_, id, op) => Reserve(l, id, op)
        case Completing(_, id, value) => Complete(l, id, value)
        case Releasing(_, id) => Release(l, id))
  }

  lemma ChangedIsGood(s: State, change: Change)
    requires GoodState(s)
    ensures GoodState(Changed(s, change))
  {
    hide Good, Reserve, Complete, Release;
    var l := Get(s, change.kind);
    match change
    case Reserving(_, id, op) => ReserveIs(l, id, op);
    case Completing(_, id, value) => CompleteIs(l, id, value);
    case Releasing(_, id) => ReleaseIs(l, id);
  }

  method MakeChange(s: State, change: Change) returns (r: State)
    ensures r == Changed(s, change)
  {
    hide Reserve, Complete, Release;
    var l := Get(s, change.kind);
    match change {
      case Reserving(_, id, op) => l := ReserveOperation(l, id, op);
      case Completing(_, id, value) => l := CompleteOperation(l, id, value);
      case Releasing(_, id) => l := ReleaseOperation(l, id);
    }
    r := Put(s, change.kind, l);
  }

  // ----- memory and file -----

  /** What a start finds; no file stands for the empty state. */
  ghost function Found(file: Option<State>): State {
    if file.None? then EMPTY_STATE else Loaded(file.value)
  }

  /** A start would find memory, short of some of its oldest results. */
  ghost predicate Recorded(file: Option<State>, memory: State) {
    exists n :: 0 <= n <= Count(memory) && Found(file) == Dropped(memory, n)
  }

  /** No pending queue of the file lists a key twice. */
  predicate Readable(file: Option<State>) {
    file.Some? ==>
      NoDup(file.value.create.pendingOrder) && NoDup(file.value.fork.pendingOrder)
      && NoDup(file.value.approval.pendingOrder)
  }

  predicate SamePending(a: State, b: State) {
    a.create.pending == b.create.pending && a.fork.pending == b.fork.pending && a.approval.pending == b.approval.pending
  }

  /** A start from a file in step with memory finds every pending operation again. */
  lemma RestartKeepsPending(file: Option<State>, memory: State)
    requires Recorded(file, memory)
    ensures SamePending(Found(file), memory)
  {
    hide Found, Count;
    var n :| 0 <= n <= Count(memory) && Found(file) == Dropped(memory, n);
  }

  lemma FoundIsGood(file: Option<State>)
    requires Readable(file)
    ensures GoodState(Found(file)) && Recorded(file, Found(file))
  {
    hide LoadedLane, Good, NoDup;
    if file.None? {
      EmptyIsGood();
    } else {
      LoadedIsGood(file.value.create);
      LoadedIsGood(file.value.fork);
      LoadedIsGood(file.value.approval);
    }
    var s := Found(file);
    DropLaneNone(s.create);
    DropLaneNone(s.fork);
    DropLaneNone(s.approval);
    assert Found(file) == Dropped(s, 0);
  }

  lemma EmptyIsGood()
    ensures GoodState(EMPTY_STATE)
  {
  }

  /** Writing a good state keeps file and memory in step, and the file readable. */
  lemma WrittenIsRecorded(memory: State, n: nat)
    requires GoodState(memory) && n <= Count(memory)
    ensures Recorded(Some(Dropped(memory, n)), memory) && Readable(Some(Dropped(memory, n)))
  {
    hide Loaded, Dropped, Count, GoodState, NoDup;
    GoodAfterPersist(memory, n);
    GoodIsReadable(Dropped(memory, n));
  }

  lemma GoodIsReadable(s: State)
    requires GoodState(s)
    ensures Readable(Some(s)) && Covered(s.create) && Covered(s.fork) && Covered(s.approval)
  {
    hide NoDup;
  }

  class OperationStore {
    const size: State -> nat
    var memory: State
    var file: Option<State>
    var dirty: bool

    /** Memory is in step with its queues and within its limits; the file can be read; and unless a write failed and
        none has succeeded since, a start would find what memory holds. */
    ghost predicate Valid()
      reads this
    {
      GoodState(memory) && Readable(file) && (!dirty ==> Recorded(file, memory))
    }

    /** Start from the file, if there is one, whatever it holds beyond readable queues. */
    constructor (encode: State -> nat, found: Option<State>)
      requires Readable(found)
      ensures Valid() && size == encode && file == found && !dirty && memory == Found(found)
    {
      hide GoodState, Loaded, Recorded, Readable;
      var start := EMPTY_STATE;
      if found.Some? {
        start := Load(found.value);
      }
      FoundIsGood(found);
      size, memory, file, dirty := encode, start, found, false;
    }

    /** Write memory to the file; `disk` says whether the write itself goes through. */
    method PersistLocked(disk: bool) returns (ok: bool)
      requires GoodState(memory) && Readable(file)
      modifies this`file, this`dirty
      ensures Valid() && dirty == !ok
      ensures ok <==> disk && size(PendingOnly(memory)) <= MAX_BYTES
      ensures ok ==> file.Some? && size(file.value) <= MAX_BYTES && (size(memory) <= MAX_BYTES ==> file == Some(memory))
      ensures !ok ==> file == old(file)
    {
      hide GoodState, Dropped, Count, PendingOnly, Recorded, Readable, Covered;
      GoodIsReadable(memory);
      var written := Persist(size, memory);
      ok := disk && written.Some?;
      if ok {
        ghost var n :| 0 <= n <= Count(memory) && written.value == Dropped(memory, n);
        WrittenIsRecorded(memory, n);
        file := written;
      }
      dirty := !ok;
    }

    /** Change the state and write it; if that fails, memory goes back to what it was and that is written instead. */
    method Update(change: Change, disk: bool, retry: bool) returns (ok: bool)
      requires Valid()
      modifies this
      ensures Valid()
      ensures ok <==> disk && size(PendingOnly(Changed(old(memory), change))) <= MAX_BYTES
      ensures memory == if ok then Changed(old(memory), change) else old(memory)
      ensures ok ==> !dirty
      ensures !ok && dirty ==> file == old(file)
    {
      hide Recorded, GoodState, PendingOnly, Changed, Readable;
      var previous := memory;
      ChangedIsGood(memory, change);
      memory := MakeChange(memory, change);
      ok := PersistLocked(disk);
      if !ok {
        memory := previous;
        var again := PersistLocked(retry);
      }
    }

    /** The process ends and starts again. */
    method Restart()
      requires Valid()
      modifies this
      ensures Valid() && !dirty && file == old(file) && memory == Found(file)
      ensures !old(dirty) ==> SamePending(memory, old(memory))
    {
      hide GoodState, Loaded, Recorded, Readable;
      if !dirty {
        RestartKeepsPending(file, memory);
      }
      FoundIsGood(file);
      memory := EMPTY_STATE;
      if file.Some? {
        memory := Load(file.value);
      }
      dirty := false;
    }
  }

  // ----- every sequence of changes, failing writes and restarts -----

  datatype Episode = Changing(change: Change, disk: bool, retry: bool) | Restarting

  /** Whatever happens to a store: its queues stay in step and bounded, the file can be read, and while no failed write
      is outstanding a restart would find every pending operation. */
  method Live(encode: State -> nat, found: Option<State>, episodes: seq<Episode>)
    returns (memory: State, file: Option<State>, dirty: bool)
    requires Readable(found)
    ensures GoodState(memory) && Readable(file)
    ensures !dirty ==> Recorded(file, memory) && SamePending(Found(file), memory)
  {
    hide GoodState, Recorded, Readable, Found, Changed, SamePending;
    var store := new OperationStore(encode, found);
    for i := 0 to |episodes|
      invariant store.Valid()
    {
      match episodes[i] {
        case Changing(change, disk, retry) => var _ := store.Update(change, disk, retry);
        case Restarting => store.Restart();
      }
    }
    memory, file, dirty := store.memory, store.file, store.dirty;
    if !dirty {
      RestartKeepsPending(file, memory);
    }
  }
}
