/** Messages snapshots: the list built from a session's timeline and its trimming under a byte limit. */
module Snapshot {
  import opened Wrappers

  /** A message, with the tool calls it makes and the call whose result it is. */
  datatype Message = Message(id: string, calls: seq<string>, resultOf: Option<string>, body: string)

  /** A timeline entry: plain text, a sub-agent card, or a tool with its three messages. */
  datatype Item = Text(id: string, body: string) | Card(id: string, body: string) | Tool(id: string, meta: string,
      result: string)

  function MetaMessage(item: Item): Message
    requires item.Tool?
  {
    Message("tool-meta:" + item.id, [], None, item.meta)
  }

  function CallMessage(item: Item): Message
    requires item.Tool?
  {
    Message("tool-call:" + item.id, [item.id], None, "")
  }

  function ResultMessage(item: Item): Message
    requires item.Tool?
  {
    Message("tool-result:" + item.id, [], Some(item.id), item.result)
  }

  function MessagesOf(item: Item): seq<Message> {
    match item
    case Text(id, body) => [Message(id, [], None, body)]
    case Card(id, body) => [Message("subagent:" + id, [], None, body)]
    case Tool(_, _, _) => [MetaMessage(item), CallMessage(item), ResultMessage(item)]
  }

  function Build(items: seq<Item>): seq<Message> {
    if items == [] then [] else MessagesOf(items[0]) + Build(items[1..])
  }

  predicate DistinctTools(items: seq<Item>) {
    forall i, j :: 0 <= i < j < |items| && items[i].Tool? && items[j].Tool? ==> items[i].id != items[j].id
  }

  // ----- removing the oldest group -----

  /** The message goes with the oldest one: it is the result of one of its calls, or makes the call it is
      the result of. */
  predicate GoesWith(oldest: Message, m: Message) {
    (m.resultOf.Some? && m.resultOf.value in oldest.calls)
        || (oldest.resultOf.Some? && oldest.resultOf.value in m.calls)
  }

  function Retained(oldest: Message, rest: seq<Message>): seq<Message> {
    if rest == [] then []
    else (if GoesWith(oldest, rest[0]) then [] else [rest[0]]) + Retained(oldest, rest[1..])
  }

  function RemoveOldest(messages: seq<Message>): (r: seq<Message>)
    requires messages != []
  {
    Retained(messages[0], messages[1..])
  }

  lemma {:induction false} RetainedShorter(oldest: Message, rest: seq<Message>)
    ensures |Retained(oldest, rest)| <= |rest|
  {
    if rest == [] {
    } else {
      RetainedShorter(oldest, rest[1..]);
    }
  }

  method RemoveOldestGroup(messages: seq<Message>) returns (r: seq<Message>)
    requires messages != []
    ensures r == RemoveOldest(messages) && |r| < |messages|
  {
    var oldest, rest := messages[0], messages[1..];
    var i := 0;
    r := [];
    RetainedShorter(oldest, rest);
    while i < |rest|
      invariant i <= |rest| && Retained(oldest, rest) == r + Retained(oldest, rest[i..])
    {
      var later := Retained(oldest, rest[i + 1..]);
      assert rest[i..][1..] == rest[i + 1..];
      assert r + ([rest[i]] + later) == r + [rest[i]] + later && r + ([] + later) == r + later;
      if !GoesWith(oldest, rest[i]) {
        r := r + [rest[i]];
      }
      i := i + 1;
    }
  }

  // ----- what trimming can leave -----

  /** The list after n removals. */
  function Trimmed(messages: seq<Message>, n: nat): seq<Message> {
    if n == 0 then messages
    else
      var before := Trimmed(messages, n - 1);
      if before == [] then [] else RemoveOldest(before)
  }

  /** The timeline from some entry on, or the call and result of that entry and what follows it. */
  ghost predicate CleanCut(items: seq<Item>, messages: seq<Message>) {
    exists k :: CutAt(items, messages, k)
  }

  predicate CutAt(items: seq<Item>, messages: seq<Message>, k: nat) {
    && k <= |items|
    && (messages == Build(items[k..])
        || (k < |items| && items[k].Tool?
            && messages == [CallMessage(items[k]), ResultMessage(items[k])] + Build(items[k + 1..])))
  }

  /** Messages that no earlier one pulls out stay. */
  lemma {:induction false} RetainedAll(oldest: Message, rest: seq<Message>)
    requires forall m :: m in rest ==> !GoesWith(oldest, m)
    ensures Retained(oldest, rest) == rest
  {
    if rest == [] {
    } else {
      RetainedAll(oldest, rest[1..]);
      assert rest == [rest[0]] + rest[1..];
    }
  }

  lemma {:induction false} BuildMembers(items: seq<Item>, m: Message)
    requires m in Build(items)
    ensures exists i :: 0 <= i < |items| && m in MessagesOf(items[i])
  {
    if items == [] || m in MessagesOf(items[0]) {
    } else {
      assert m in Build(items[1..]);
      BuildMembers(items[1..], m);
      var i :| 0 <= i < |items[1..]| && m in MessagesOf(items[1..][i]);
      assert m in MessagesOf(items[i + 1]);
    }
  }

  lemma OtherMessages(item: Item, other: Item, m: Message)
    requires item.Tool? && m in MessagesOf(other) && (other.Tool? ==> other.id != item.id)
    ensures !GoesWith(CallMessage(item), m)
  {
    assert m.resultOf.Some? ==> other.Tool? && m.resultOf.value == other.id;
  }

  /** A call pulls out nothing from the entries of other tools. */
  lemma OthersStay(item: Item, items: seq<Item>)
    requires item.Tool? && forall i :: 0 <= i < |items| && items[i].Tool? ==> items[i].id != item.id
    ensures Retained(CallMessage(item), Build(items)) == Build(items)
  {
    hide Build, Retained, GoesWith, MessagesOf, CallMessage;
    forall m | m in Build(items) ensures !GoesWith(CallMessage(item), m) {
      BuildMembers(items, m);
      var i :| 0 <= i < |items| && m in MessagesOf(items[i]);
      OtherMessages(item, items[i], m);
    }
    RetainedAll(CallMessage(item), Build(items));
  }

  lemma PlainStays(oldest: Message, rest: seq<Message>)
    requires oldest.calls == [] && oldest.resultOf.None?
    ensures Retained(oldest, rest) == rest
  {
    RetainedAll(oldest, rest);
  }

  lemma EmptyTail(items: seq<Item>)
    ensures Build(items[|items|..]) == []
  {
    assert items[|items|..] == [];
  }

  lemma BuildFrom(items: seq<Item>, k: nat)
    requires k < |items|
    ensures Build(items[k..]) == MessagesOf(items[k]) + Build(items[k + 1..])
  {
    assert items[k..][1..] == items[k + 1..];
  }

  /** Removing the oldest group from a clean cut leaves a clean cut. */
  lemma RemoveKeepsCut(items: seq<Item>, messages: seq<Message>, k: nat)
    requires DistinctTools(items) && CutAt(items, messages, k) && messages != []
    ensures CutAt(items, RemoveOldest(messages), k) || CutAt(items, RemoveOldest(messages), k + 1)
  {
    EmptyTail(items);
    var later := Build(items[k + 1..]);
    BuildFrom(items, k);
    if messages == Build(items[k..]) {
      var m := messages[0];
      assert messages[1..] == MessagesOf(items[k])[1..] + later;
      PlainStays(m, messages[1..]);
      if items[k].Tool? {
        assert MessagesOf(items[k])[1..] == [CallMessage(items[k]), ResultMessage(items[k])];
      } else {
        assert MessagesOf(items[k])[1..] + later == later;
      }
    } else {
      var rest := [ResultMessage(items[k])] + later;
      assert messages[1..] == rest;
      OthersStay(items[k], items[k + 1..]);
      assert rest[1..] == later;
      assert RemoveOldest(messages) == [] + later == later;
    }
  }

  lemma {:induction false} TrimmedIsCut(items: seq<Item>, n: nat)
    requires DistinctTools(items)
    ensures CleanCut(items, Trimmed(Build(items), n))
  {
    var before := Trimmed(Build(items), if n == 0 then 0 else n - 1);
    if n == 0 {
      assert items[0..] == items;
      assert CutAt(items, Build(items), 0);
    } else {
      TrimmedIsCut(items, n - 1);
      if before != [] {
        var k: nat :| CutAt(items, before, k);
        RemoveKeepsCut(items, before, k);
      } else {
        var k: nat :| CutAt(items, before, k);
      }
    }
  }

  // ----- a clean cut is a suffix that splits no call from its result -----

  predicate Suffix(a: seq<Message>, b: seq<Message>) {
    |a| <= |b| && a == b[|b| - |a|..]
  }

  predicate Calls(messages: seq<Message>, id: string) {
    exists m :: m in messages && id in m.calls
  }

  predicate Results(messages: seq<Message>, id: string) {
    exists m :: m in messages && m.resultOf == Some(id)
  }

  lemma {:induction false} BuildSplits(items: seq<Item>, k: nat)
    requires k <= |items|
    ensures Build(items) == Build(items[..k]) + Build(items[k..])
  {
    hide MessagesOf;
    if k == 0 {
      assert items[..0] == [] && items[0..] == items;
    } else {
      BuildSplits(items[1..], k - 1);
      assert items[..k][1..] == items[1..][..k - 1] && items[1..][k - 1..] == items[k..];
      assert items[..k] == [items[0]] + items[..k][1..];
    }
  }

  lemma EndIsSuffix(front: seq<Message>, end: seq<Message>)
    ensures Suffix(end, front + end)
  {
  }

  lemma CutIsSuffix(items: seq<Item>, messages: seq<Message>, k: nat)
    requires CutAt(items, messages, k)
    ensures Suffix(messages, Build(items))
  {
    hide Build, MessagesOf, Suffix;
    BuildSplits(items, k);
    var front := Build(items[..k]);
    if messages == Build(items[k..]) {
      EndIsSuffix(front, messages);
    } else {
      BuildFrom(items, k);
      var tool, later := items[k], Build(items[k + 1..]);
      assert Build(items) == front + [MetaMessage(tool)] + messages by {
        ToolMessages(tool);
        assert [MetaMessage(tool), CallMessage(tool), ResultMessage(tool)] + later == [MetaMessage(tool)] + messages;
      }
      EndIsSuffix(front + [MetaMessage(tool)], messages);
    }
  }

  lemma ToolMessages(tool: Item)
    requires tool.Tool?
    ensures MessagesOf(tool) == [MetaMessage(tool), CallMessage(tool), ResultMessage(tool)]
  {
  }

  /** Build pairs every call with its result. */
  lemma {:induction false} BuildPairs(items: seq<Item>, id: string)
    ensures Calls(Build(items), id) <==> exists i :: 0 <= i < |items| && items[i].Tool? && items[i].id == id
    ensures Results(Build(items), id) <==> exists i :: 0 <= i < |items| && items[i].Tool? && items[i].id == id
  {
    if items == [] {
    } else {
      BuildPairs(items[1..], id);
      ItemPairs(items[0], id);
      Joins(MessagesOf(items[0]), Build(items[1..]), id);
      assert forall i :: 1 <= i < |items| ==> items[i] == items[1..][i - 1];
    }
  }

  lemma ItemPairs(item: Item, id: string)
    ensures Calls(MessagesOf(item), id) <==> item.Tool? && item.id == id
    ensures Results(MessagesOf(item), id) <==> item.Tool? && item.id == id
  {
    if item.Tool? && item.id == id {
      assert CallMessage(item) in MessagesOf(item) && ResultMessage(item) in MessagesOf(item);
    }
  }

  lemma Joins(a: seq<Message>, b: seq<Message>, id: string)
    ensures Calls(a + b, id) <==> Calls(a, id) || Calls(b, id)
    ensures Results(a + b, id) <==> Results(a, id) || Results(b, id)
  {
    assert forall m :: m in a + b <==> m in a || m in b;
  }

  lemma CutPairs(items: seq<Item>, messages: seq<Message>, k: nat, id: string)
    requires CutAt(items, messages, k)
    ensures Calls(messages, id) <==> Results(messages, id)
  {
    hide Build;
    BuildPairs(items[k..], id);
    if messages != Build(items[k..]) {
      var tool := items[k];
      BuildPairs(items[k + 1..], id);
      Joins([CallMessage(tool), ResultMessage(tool)], Build(items[k + 1..]), id);
      var pair := [CallMessage(tool), ResultMessage(tool)];
      assert pair[0] in pair && pair[1] in pair;
      assert Calls(pair, id) <==> tool.id == id;
      assert Results(pair, id) <==> tool.id == id;
    }
  }

  /** Trim a snapshot: the result is the first of the successive removals that fits, or that leaves at
      most one message; it is a suffix of the snapshot, and holds a tool call exactly when it holds the
      call's result. */
  method TrimSnapshot(size: seq<Message> -> nat, limit: nat, items: seq<Item>)
      returns (r: seq<Message>, ghost removals: nat)
    requires DistinctTools(items)
    ensures size(r) <= limit || |r| <= 1
    ensures r == Trimmed(Build(items), removals)
    ensures forall n :: 0 <= n < removals ==> size(Trimmed(Build(items), n)) > limit && |Trimmed(Build(items), n)| > 1
    ensures Suffix(r, Build(items))
    ensures forall id :: Calls(r, id) <==> Results(r, id)
  {
    hide Build, RemoveOldest, Suffix, Calls, Results, DistinctTools;
    r := Build(items);
    removals := 0;
    while size(r) > limit && |r| > 1
      invariant r == Trimmed(Build(items), removals)
      invariant forall n :: 0 <= n < removals ==>
          size(Trimmed(Build(items), n)) > limit && |Trimmed(Build(items), n)| > 1
      decreases |r|
    {
      r := RemoveOldestGroup(r);
      removals := removals + 1;
    }
    TrimmedIsCut(items, removals);
    var k: nat :| CutAt(items, r, k);
    CutIsSuffix(items, r, k);
    forall id ensures Calls(r, id) <==> Results(r, id) {
      CutPairs(items, r, k, id);
    }
  }
}
