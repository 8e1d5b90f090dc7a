/** The client replays what a run emits and ends up holding exactly what the run state records. */
module AgUiRunProofs {
  import opened Wrappers
  import opened AgUiTypes
  import opened AgUiClient
  import opened AgUiRun
  import Utf8

  ghost predicate RevisionOk(ts: ToolState) {
    match ts.resultRevision
    case None => ts.result == ""
    case Some(r) => r == Sha256(ts.result)
  }

  /** The client's row (or card) agrees with the tool state. */
  ghost predicate ToolRel(ts: ToolState, tv: ToolView) {
    && ts.started && tv.card == ts.card && (tv.ended ==> tv.started)
    && (!ts.card ==> tv.started && tv.ended == ts.ended && tv.text == ts.result)
    && RevisionOk(ts)
  }

  function Open(id: Option<MessageId>): multiset<MessageId> {
    match id case Some(m) => multiset{m} case None => multiset{}
  }

  ghost predicate ToolsRel(tools: map<ToolId, ToolState>, views: map<ToolId, ToolView>) {
    tools.Keys == views.Keys && forall k :: k in tools ==> ToolRel(tools[k], views[k])
  }

  ghost predicate BytesRel(r: RunState, v: RunView) {
    forall id :: BytesUsed(r, id) == Utf8.Size(v.Delivered(id)) <= MAX_MESSAGE_TOTAL_BYTES
  }

  /** The client's view of a run agrees with the projector's run state. */
  ghost predicate RunRel(r: RunState, v: RunView) {
    && v.run == r.run
    && v.text == Open(r.user) + Open(r.message)
    && v.reasoning == r.reasoning
    && v.noticed == r.truncated
    && v.partial.None?
    && BytesRel(r, v)
    && ToolsRel(r.tools, v.tools)
  }

  lemma NewRunRel(run: RunId, turn: Option<TurnId>)
    ensures RunRel(NewRun(run, turn), NewView(run))
  {
  }

  // ----- sequencing -----

  /** The client in view v accepts `events`, all of v's run on thread t, and ends in view v'. */
  ghost predicate Plays(env: Env, t: ThreadId, v: RunView, events: seq<Event>, v': RunView) {
    AllBelong(events, t, v.run) && AcceptRunAll(env, v, events) == Some(v') && v'.run == v.run
  }

  lemma PlayNothing(env: Env, t: ThreadId, v: RunView)
    ensures Plays(env, t, v, [], v)
  {
  }

  lemma PlayOne(env: Env, t: ThreadId, v: RunView, e: Event, v': RunView)
    requires Belongs(e, t, v.run) && AcceptRun(env, v, e) == Some(v')
    ensures Plays(env, t, v, [e], v')
  {
    AcceptRunOne(env, v, e);
    AcceptRunKeepsId(env, v, e);
  }

  lemma Then(env: Env, t: ThreadId, v: RunView, a: seq<Event>, v1: RunView, b: seq<Event>, v2: RunView)
    requires Plays(env, t, v, a, v1) && Plays(env, t, v1, b, v2)
    ensures Plays(env, t, v, a + b, v2)
  {
    AcceptRunConcat(env, v, a, b);
  }

  // ----- structured payloads -----

  /** Whole or in chunks, a structured payload reaches the client intact. */
  lemma StructuredAccepted(env: Env, t: ThreadId, p: Payload, v: RunView, v': RunView)
    requires env.Valid() && v.partial.None? && ApplyPayload(v, p) == Some(v')
    ensures Plays(env, t, v, StructuredEvents(env, t, v.run, p), v')
  {
    var text := env.encode(p);
    if Utf8.Size(text) <= STRUCTURED_CHUNK_BYTES {
      PlayOne(env, t, v, Structured(t, v.run, p), v');
    } else {
      var parts := Utf8.Chunks(text, STRUCTURED_CHUNK_BYTES);
      Utf8.ChunksRoundTrip(text, STRUCTURED_CHUNK_BYTES);
      assert parts[0..] == parts;
      ChunksAccepted(env, t, p, parts, 0, "", v, v, v');
    }
  }

  /** `base` is the view without the partial payload, `v` the view holding the first `from` parts. */
  lemma {:induction false} ChunksAccepted(env: Env, t: ThreadId, p: Payload, parts: seq<string>, from: nat,
                                          got: string, base: RunView, v: RunView, v': RunView)
    requires env.Valid() && from < |parts| && base.partial.None? && ApplyPayload(base, p) == Some(v')
    requires got + Utf8.Concat(parts[from..]) == env.encode(p)
    requires forall q :: q in parts ==> q != ""
    requires v == if from == 0 then base
                  else base.(partial := Some(Partial(p.Name(), p.CanonicalId(), Sha256(env.encode(p)), |parts|, from,
                      got)))
    requires from == 0 ==> got == ""
    ensures Plays(env, t, v, ChunkEvents(t, v.run, p, Sha256(env.encode(p)), parts, from), v')
    decreases |parts| - from
  {
    hide Plays;
    var rev := Sha256(env.encode(p));
    var e := StructuredChunk(t, v.run, p.Name(), p.CanonicalId(), rev, from, |parts|, parts[from]);
    assert parts[from] in parts && parts[from..][0] == parts[from] && parts[from..][1..] == parts[from + 1..];
    var got' := got + parts[from];
    assert got' + Utf8.Concat(parts[from + 1..]) == env.encode(p);
    var v1 := if from + 1 < |parts|
              then base.(partial := Some(Partial(p.Name(), p.CanonicalId(), rev, |parts|, from + 1, got')))
              else v';
    if from + 1 < |parts| {
      PlayOne(env, t, v, e, v1);
      ChunksAccepted(env, t, p, parts, from + 1, got', base, v1, v');
    } else {
      assert parts[from + 1..] == [];
      assert got' == env.encode(p);
      assert v.(partial := None) == base;
      PlayOne(env, t, v, e, v1);
      PlayNothing(env, t, v1);
    }
    Then(env, t, v, [e], v1, ChunkEvents(t, v.run, p, rev, parts, from + 1), v');
  }

  // ----- messages -----

  function DeliverMore(v: RunView, id: MessageId, text: string): RunView {
    if text == "" then v else v.(delivered := v.delivered[id := v.Delivered(id) + text])
  }

  /** Content chunks of an open message append, in order, to what was delivered for it. */
  lemma {:induction false} ContentAccepted(env: Env, t: ThreadId, reasoning: bool, id: MessageId, parts: seq<string>,
      v: RunView)
    requires v.partial.None?
    requires if reasoning then v.reasoning == Some(id) else id in v.text
    requires forall p :: p in parts ==> p != ""
    requires Utf8.Size(v.Delivered(id) + Utf8.Concat(parts)) <= MAX_MESSAGE_TOTAL_BYTES
    ensures Plays(env, t, v, ContentEvents(t, v.run, reasoning, id, parts), DeliverMore(v, id, Utf8.Concat(parts)))
    decreases |parts|
  {
    hide Plays;
    if parts == [] {
      PlayNothing(env, t, v);
    } else {
      var head, tail := parts[0], parts[1..];
      var v1 := DeliverMore(v, id, head);
      assert head in parts;
      DeliverOne(env, t, reasoning, id, head, Utf8.Concat(tail), v);
      assert forall p :: p in tail ==> p in parts;
      ContentAccepted(env, t, reasoning, id, tail, v1);
      var e := if reasoning then ReasoningContent(t, v.run, id, head) else TextContent(t, v.run, id, head);
      Then(env, t, v, [e], v1, ContentEvents(t, v.run, reasoning, id, tail), DeliverMore(v1, id, Utf8.Concat(tail)));
    }
  }

  lemma DeliverOne(env: Env, t: ThreadId, reasoning: bool, id: MessageId, head: string, tail: string, v: RunView)
    requires v.partial.None? && head != ""
    requires if reasoning then v.reasoning == Some(id) else id in v.text
    requires Utf8.Size(v.Delivered(id) + (head + tail)) <= MAX_MESSAGE_TOTAL_BYTES
    ensures var e := if reasoning then ReasoningContent(t, v.run, id, head) else TextContent(t, v.run, id, head);
            Plays(env, t, v, [e], DeliverMore(v, id, head))
    ensures Utf8.Size(DeliverMore(v, id, head).Delivered(id) + tail) <= MAX_MESSAGE_TOTAL_BYTES
    ensures DeliverMore(DeliverMore(v, id, head), id, tail) == DeliverMore(v, id, head + tail)
  {
    var sofar := v.Delivered(id) + head;
    assert v.Delivered(id) + (head + tail) == sofar + tail;
    Utf8.SizeConcat(sofar, tail);
    var e := if reasoning then ReasoningContent(t, v.run, id, head) else TextContent(t, v.run, id, head);
    PlayOne(env, t, v, e, DeliverMore(v, id, head));
    if tail == "" {
      assert head + tail == head;
    } else {
      assert v.delivered[id := sofar][id := sofar + tail] == v.delivered[id := sofar + tail];
    }
  }

  /** The metering step, seen from the client: a notice is due at most once per message, exactly when
      something is first dropped or a truncated block is first seen. */
  lemma MeterRel(r: RunState, v: RunView, id: MessageId, content: string, block: Option<Block>)
    requires RunRel(r, v)
    ensures var (r1, notice) := Meter(r, id, content, block);
            var kept := LiveContent(r, id, content);
            var due := kept != content || (block.Some? && block.value.truncated);
            && notice == (due && id !in v.noticed)
            && r1.truncated == (if due then v.noticed + {id} else v.noticed)
            && r1 == r.(bytes := r1.bytes, truncated := r1.truncated)
            && Utf8.Size(v.Delivered(id) + kept) <= MAX_MESSAGE_TOTAL_BYTES
            && r1.bytes == r.bytes[id := Utf8.Size(v.Delivered(id) + kept)]
  {
    var kept := LiveContent(r, id, content);
    assert BytesUsed(r, id) == Utf8.Size(v.Delivered(id));
    Utf8.BoundedSize(content, MAX_MESSAGE_TOTAL_BYTES - BytesUsed(r, id));
    Utf8.SizeConcat(v.Delivered(id), kept);
  }

  lemma EndTextAccepted(env: Env, t: ThreadId, id: Option<MessageId>, v: RunView, text: multiset<MessageId>)
    requires v.partial.None? && v.text == text + Open(id)
    ensures Plays(env, t, v, EndText(t, v.run, id), v.(text := text))
  {
    match id
    case Some(m) =>
      assert v.text - multiset{m} == text;
      PlayOne(env, t, v, TextEnd(t, v.run, m), v.(text := text));
    case None =>
      assert v.text == text;
      PlayNothing(env, t, v);
  }

  lemma StartTextAccepted(env: Env, t: ThreadId, id: MessageId, role: Role, v: RunView)
    requires v.partial.None?
    ensures Plays(env, t, v, [TextStart(t, v.run, id, role)], v.(text := v.text + Open(Some(id))))
  {
    PlayOne(env, t, v, TextStart(t, v.run, id, role), v.(text := v.text + Open(Some(id))));
  }

  lemma EndReasoningAccepted(env: Env, t: ThreadId, v: RunView)
    requires v.partial.None?
    ensures Plays(env, t, v, EndReasoning(t, v.run, v.reasoning), v.(reasoning := None))
  {
    match v.reasoning
    case Some(m) => PlayOne(env, t, v, ReasoningEnd(t, v.run, m), v.(reasoning := None));
    case None => PlayNothing(env, t, v);
  }

  /** The client's open messages after a chunk opened its message. */
  function OpenView(v: RunView, o: RunState): RunView {
    v.(text := Open(o.user) + Open(o.message), reasoning := o.reasoning)
  }

  lemma OpenMessageAccepted(env: Env, t: ThreadId, r: RunState, v: RunView, role: Role, id: MessageId)
    requires v.run == r.run && v.partial.None? && OpenView(v, r) == v
    ensures var o := OpenMessage(t, r, role, id);
            && Plays(env, t, v, o.events, OpenView(v, o.run))
            && (if role.Thought? then o.run.reasoning == Some(id) else id in Open(o.run.user) + Open(o.run.message))
  {
    hide Plays;
    match role
    case Agent => OpenAgentAccepted(env, t, r, v, id);
    case Thought =>
      if r.reasoning == Some(id) {
        PlayNothing(env, t, v);
      } else {
        EndReasoningAccepted(env, t, v);
        var v1 := v.(reasoning := None);
        PlayOne(env, t, v1, ReasoningStart(t, r.run, id), v1.(reasoning := Some(id)));
        Then(env, t, v, EndReasoning(t, r.run, r.reasoning), v1, [ReasoningStart(t, r.run, id)],
            v1.(reasoning := Some(id)));
      }
    case User =>
      if r.user == Some(id) {
        PlayNothing(env, t, v);
      } else {
        assert v.text == Open(r.message) + Open(r.user);
        EndTextAccepted(env, t, r.user, v, Open(r.message));
        var v1 := v.(text := Open(r.message));
        StartTextAccepted(env, t, id, User, v1);
        assert Open(r.message) + Open(Some(id)) == Open(Some(id)) + Open(r.message);
        Then(env, t, v, EndText(t, r.run, r.user), v1, [TextStart(t, r.run, id, User)],
             v1.(text := v1.text + Open(Some(id))));
      }
  }

  lemma OpenAgentAccepted(env: Env, t: ThreadId, r: RunState, v: RunView, id: MessageId)
    requires v.run == r.run && v.partial.None? && OpenView(v, r) == v
    ensures var o := OpenMessage(t, r, Agent, id);
            && Plays(env, t, v, o.events, OpenView(v, o.run))
            && id in Open(o.run.user) + Open(o.run.message)
  {
    hide Plays;
    var closeUser := EndText(t, r.run, r.user);
    assert v.text == Open(r.message) + Open(r.user);
    EndTextAccepted(env, t, r.user, v, Open(r.message));
    var v1 := v.(text := Open(r.message));
    assert Open(None) + Open(Some(id)) == Open(Some(id));
    if r.message == Some(id) {
      assert closeUser + [] == closeUser;
    } else {
      assert v1.text == multiset{} + Open(r.message);
      EndTextAccepted(env, t, r.message, v1, multiset{});
      var v2 := v1.(text := multiset{});
      StartTextAccepted(env, t, id, Agent, v2);
      var v3 := v2.(text := v2.text + Open(Some(id)));
      var closeMessage := EndText(t, r.run, r.message);
      Then(env, t, v1, closeMessage, v2, [TextStart(t, r.run, id, Agent)], v3);
      Then(env, t, v, closeUser, v1, closeMessage + [TextStart(t, r.run, id, Agent)], v3);
    }
  }

  lemma OpenMessageFrame(t: ThreadId, r: RunState, role: Role, id: MessageId)
    ensures var o := OpenMessage(t, r, role, id).run;
            && o == r.(user := o.user, message := o.message, reasoning := o.reasoning)
            && o == OpenMessage("", r, role, id).run
            && (if role.Thought? then o.reasoning == Some(id) else id in Open(o.user) + Open(o.message))
  {
  }

  /** What the client holds after a message chunk. */
  ghost function ChunkView(r: RunState, v: RunView, role: Role, id: MessageId, content: string,
      block: Option<Block>): RunView {
    var (r1, _) := Meter(r, id, content, block);
    var o := OpenMessage("", r1, role, id).run;
    DeliverMore(OpenView(v.(noticed := r1.truncated), o), id, LiveContent(r, id, content))
  }

  lemma BlockAccepted(env: Env, t: ThreadId, v: RunView, id: MessageId, block: Option<Block>)
    requires env.Valid() && v.partial.None?
    ensures Plays(env, t, v, BlockEvents(env, t, v.run, id, block), v)
  {
    match block
    case Some(b) => StructuredAccepted(env, t, MessageBlock(id, b), v, v);
    case None => PlayNothing(env, t, v);
  }

  lemma NoticeAccepted(env: Env, t: ThreadId, v: RunView, id: MessageId, notice: bool, noticed: set<MessageId>)
    requires v.partial.None?
    requires if notice then id !in v.noticed && noticed == v.noticed + {id} else noticed == v.noticed
    ensures Plays(env, t, v, if notice then [Truncated(t, v.run, id)] else [], v.(noticed := noticed))
  {
    if notice {
      PlayOne(env, t, v, Truncated(t, v.run, id), v.(noticed := noticed));
    } else {
      PlayNothing(env, t, v);
    }
  }

  /** The structured block and the notice of a chunk. */
  lemma ChunkPreludePlays(env: Env, t: ThreadId, r: RunState, v: RunView, id: MessageId, content: string,
      block: Option<Block>)
    requires env.Valid() && RunRel(r, v)
    ensures var (r1, notice) := Meter(r, id, content, block);
            Plays(env, t, v, BlockEvents(env, t, r.run, id, block) + (if notice then [Truncated(t, r.run, id)] else []),
                  v.(noticed := r1.truncated))
  {
    hide Plays, BytesRel, ToolsRel, BlockEvents, Utf8.Size;
    MeterRel(r, v, id, content, block);
    var (r1, notice) := Meter(r, id, content, block);
    BlockAccepted(env, t, v, id, block);
    NoticeAccepted(env, t, v, id, notice, r1.truncated);
    Then(env, t, v, BlockEvents(env, t, r.run, id, block), v, if notice then [Truncated(t, r.run, id)]
        else [], v.(noticed := r1.truncated));
  }

  /** Opening the message of a chunk and delivering its text. */
  lemma ChunkTextPlays(env: Env, t: ThreadId, r: RunState, v: RunView, role: Role, id: MessageId, kept: string)
    requires v.run == r.run && v.partial.None? && OpenView(v, r) == v
    requires Utf8.Size(v.Delivered(id) + kept) <= MAX_MESSAGE_TOTAL_BYTES
    ensures var entry := OpenMessage(t, r, role, id);
            Plays(env, t, v, entry.events + ContentEvents(t, r.run, role.Thought?, id,
                Utf8.Chunks(kept, MESSAGE_CHUNK_BYTES)),
                  DeliverMore(OpenView(v, entry.run), id, kept))
  {
    hide Plays, ContentEvents, Utf8.Size, OpenMessage;
    var entry := OpenMessage(t, r, role, id);
    OpenMessageAccepted(env, t, r, v, role, id);
    var parts := Utf8.Chunks(kept, MESSAGE_CHUNK_BYTES);
    Utf8.ChunksRoundTrip(kept, MESSAGE_CHUNK_BYTES);
    var entered := OpenView(v, entry.run);
    ContentAccepted(env, t, role.Thought?, id, parts, entered);
    Then(env, t, v, entry.events, entered, ContentEvents(t, r.run, role.Thought?, id, parts),
        DeliverMore(entered, id, kept));
  }

  lemma ChunkEventsAccepted(env: Env, t: ThreadId, r: RunState, v: RunView, role: Role, id: MessageId,
      content: string, block: Option<Block>)
    requires env.Valid() && RunRel(r, v)
    ensures Plays(env, t, v, ChunkStep(env, t, r, role, id, content, block).events,
        ChunkView(r, v, role, id, content, block))
  {
    hide Plays, BytesRel, ToolsRel, ContentEvents, BlockEvents, Utf8.Size, Meter, LiveContent;
    var kept := LiveContent(r, id, content);
    var (r1, notice) := Meter(r, id, content, block);
    MeterRel(r, v, id, content, block);
    var v1 := v.(noticed := r1.truncated);
    var prelude := BlockEvents(env, t, r.run, id, block) + (if notice then [Truncated(t, r.run, id)] else []);
    var entry := OpenMessage(t, r1, role, id);
    var contents := ContentEvents(t, r.run, role.Thought?, id, Utf8.Chunks(kept, MESSAGE_CHUNK_BYTES));
    ChunkPreludePlays(env, t, r, v, id, content, block);
    ChunkTextPlays(env, t, r1, v1, role, id, kept);
    assert OpenMessage("", r1, role, id).run == entry.run;
    hide OpenMessage, OpenView, DeliverMore;
    Then(env, t, v, prelude, v1, entry.events + contents, ChunkView(r, v, role, id, content, block));
    assert prelude + (entry.events + contents) == prelude + entry.events + contents;
  }

  /** A message chunk is accepted by the client and keeps it in step with the run state. */
  lemma ChunkStepAccepted(env: Env, t: ThreadId, r: RunState, v: RunView, role: Role, id: MessageId, content: string,
      block: Option<Block>)
    requires env.Valid() && RunRel(r, v)
    ensures var o := ChunkStep(env, t, r, role, id, content, block);
            var v' := ChunkView(r, v, role, id, content, block);
            && Plays(env, t, v, o.events, v')
            && RunRel(o.run, v')
            && o.run.run == r.run && o.run.turn == r.turn
  {
    hide Plays, ToolsRel, Utf8.Size, Utf8.Chunks, StructuredEvents, ContentEvents, OpenMessage, Meter, LiveContent;
    ChunkEventsAccepted(env, t, r, v, role, id, content, block);
    MeterRel(r, v, id, content, block);
    var (r1, _) := Meter(r, id, content, block);
    OpenMessageFrame(t, r1, role, id);
    BytesAfter(r, v, r1, ChunkView(r, v, role, id, content, block), id, LiveContent(r, id, content));
  }

  /** What a chunk does to the client: the message grows by exactly the part of the content that the
      32 KiB budget leaves room for, no other message moves, and the client is told of a truncation
      the first time something is missing. */
  lemma ChunkEffect(r: RunState, v: RunView, role: Role, id: MessageId, content: string, block: Option<Block>)
    requires RunRel(r, v)
    ensures Utf8.Size(v.Delivered(id)) <= MAX_MESSAGE_TOTAL_BYTES
    ensures var v' := ChunkView(r, v, role, id, content, block);
            && v'.Delivered(id)
               == v.Delivered(id) + Utf8.Bounded(content, MAX_MESSAGE_TOTAL_BYTES - Utf8.Size(v.Delivered(id)))
            && (forall m :: m != id ==> v'.Delivered(m) == v.Delivered(m))
            && v'.noticed == (if v'.Delivered(id) != v.Delivered(id) + content || (block.Some? && block.value.truncated)
                              then v.noticed + {id} else v.noticed)
            && v'.tools == v.tools && v'.run == v.run
            && (if role.Thought? then v'.reasoning == Some(id) else id in v'.text)
  {
    hide ToolsRel, Utf8.Size, Meter, LiveContent, OpenMessage;
    MeterRel(r, v, id, content, block);
    var (r1, _) := Meter(r, id, content, block);
    OpenMessageFrame("", r1, role, id);
    DeliveredAfter(v, id, LiveContent(r, id, content), content, ChunkView(r, v, role, id, content, block));
    LiveContentIsBounded(r, v, id, content);
  }

  lemma LiveContentIsBounded(r: RunState, v: RunView, id: MessageId, content: string)
    requires BytesRel(r, v)
    ensures Utf8.Size(v.Delivered(id)) <= MAX_MESSAGE_TOTAL_BYTES
    ensures LiveContent(r, id, content) == Utf8.Bounded(content, MAX_MESSAGE_TOTAL_BYTES - Utf8.Size(v.Delivered(id)))
  {
    assert BytesUsed(r, id) == Utf8.Size(v.Delivered(id));
  }

  lemma DeliveredAfter(v: RunView, id: MessageId, kept: string, content: string, v': RunView)
    requires v'.delivered == DeliverMore(v, id, kept).delivered
    ensures v'.Delivered(id) == v.Delivered(id) + kept
    ensures forall m :: m != id ==> v'.Delivered(m) == v.Delivered(m)
    ensures v.Delivered(id) + kept == v.Delivered(id) + content <==> kept == content
  {
    assert kept == "" ==> v.Delivered(id) + kept == v.Delivered(id);
    assert (v.Delivered(id) + kept)[|v.Delivered(id)|..] == kept;
    assert (v.Delivered(id) + content)[|v.Delivered(id)|..] == content;
  }

  lemma BytesAfter(r: RunState, v: RunView, r': RunState, v': RunView, id: MessageId, kept: string)
    requires BytesRel(r, v)
    requires Utf8.Size(v.Delivered(id) + kept) <= MAX_MESSAGE_TOTAL_BYTES
    requires r'.bytes == r.bytes[id := Utf8.Size(v.Delivered(id) + kept)]
    requires v'.delivered == DeliverMore(v, id, kept).delivered
    ensures BytesRel(r', v')
  {
    hide Utf8.Size;
    DeliveredAfter(v, id, kept, "", v');
    forall m
      ensures BytesUsed(r', m) == Utf8.Size(v'.Delivered(m)) <= MAX_MESSAGE_TOTAL_BYTES
    {
      assert BytesUsed(r, m) == Utf8.Size(v.Delivered(m)) <= MAX_MESSAGE_TOTAL_BYTES;
    }
  }

  // ----- tools -----

  /** The view with the given row. */
  function Row(v: RunView, tool: ToolId, tv: ToolView): RunView {
    v.(tools := v.tools[tool := tv])
  }

  lemma RowAgain(v: RunView, tool: ToolId, a: ToolView, b: ToolView)
    ensures Row(Row(v, tool, a), tool, b) == Row(v, tool, b)
  {
    assert v.tools[tool := a][tool := b] == v.tools[tool := b];
  }

  lemma RowSame(v: RunView, tool: ToolId)
    requires tool in v.tools
    ensures Row(v, tool, v.tools[tool]) == v
  {
    assert v.tools[tool := v.tools[tool]] == v.tools;
  }

  /** The client has not seen the tool yet, or its row agrees with the state. */
  ghost predicate SlotRel(ts: ToolState, v: RunView, tool: ToolId) {
    if tool in v.tools then ToolRel(ts, v.tools[tool]) else ts == NEW_TOOL
  }

  /** The row after TOOL_CALL_START/END and the classification by the update itself. */
  ghost function AnnouncedView(env: Env, ts: ToolState, v: RunView, u: ToolUpdate): ToolView {
    var old0 := if u.tool in v.tools then v.tools[u.tool] else ToolView(false, false, false, "");
    var card := ts.card || env.isTaskTool(u.kind, u.title) || UpdateHasTask(env, u.content);
    if card then old0.(card := true)
    else ToolView(true, ts.ended || u.status.IsTerminal(), false, old0.text)
  }

  lemma AnnounceAccepted(env: Env, t: ThreadId, ts: ToolState, v: RunView, u: ToolUpdate)
    requires v.partial.None? && SlotRel(ts, v, u.tool)
    ensures Plays(env, t, v, Announce(env, t, v.run, ts, u).1, Row(v, u.tool, AnnouncedView(env, ts, v, u)))
  {
    hide Plays;
    var card := ts.card || env.isTaskTool(u.kind, u.title) || UpdateHasTask(env, u.content);
    var events := Announce(env, t, v.run, ts, u).1;
    var v' := Row(v, u.tool, AnnouncedView(env, ts, v, u));
    if card {
      if ts.card {
        RowSame(v, u.tool);
        PlayNothing(env, t, v);
        assert events == [];
      } else {
        PlayOne(env, t, v, Classified(t, v.run, u.tool), v');
        assert events == [Classified(t, v.run, u.tool)];
      }
    } else {
      AnnounceRowAccepted(env, t, ts, v, u);
      assert events == RowEvents(t, v.run, ts, u);
    }
  }

  function RowEvents(t: ThreadId, run: RunId, ts: ToolState, u: ToolUpdate): seq<Event> {
    (if ts.started then [] else [ToolStart(t, run, u.tool), ToolArgs(t, run, u.tool)])
    + if u.status.IsTerminal() && !ts.ended then [ToolEnd(t, run, u.tool)] else []
  }

  lemma AnnounceRowAccepted(env: Env, t: ThreadId, ts: ToolState, v: RunView, u: ToolUpdate)
    requires v.partial.None? && SlotRel(ts, v, u.tool) && !ts.card
    ensures var text := if u.tool in v.tools then v.tools[u.tool].text else "";
            Plays(env, t, v, RowEvents(t, v.run, ts, u),
                  Row(v, u.tool, ToolView(true, ts.ended || u.status.IsTerminal(), false, text)))
  {
    hide Plays;
    var text := if u.tool in v.tools then v.tools[u.tool].text else "";
    var v1 := Row(v, u.tool, ToolView(true, ts.ended, false, text));
    var start := if ts.started then [] else [ToolStart(t, v.run, u.tool), ToolArgs(t, v.run, u.tool)];
    if ts.started {
      RowSame(v, u.tool);
      PlayNothing(env, t, v);
    } else {
      PlayOne(env, t, v, ToolStart(t, v.run, u.tool), v1);
      PlayOne(env, t, v1, ToolArgs(t, v.run, u.tool), v1);
      Then(env, t, v, [ToolStart(t, v.run, u.tool)], v1, [ToolArgs(t, v.run, u.tool)], v1);
      assert start == [ToolStart(t, v.run, u.tool)] + [ToolArgs(t, v.run, u.tool)];
    }
    if u.status.IsTerminal() && !ts.ended {
      var v2 := Row(v1, u.tool, ToolView(true, true, false, text));
      PlayOne(env, t, v1, ToolEnd(t, v.run, u.tool), v2);
      Then(env, t, v, start, v1, [ToolEnd(t, v.run, u.tool)], v2);
      RowAgain(v, u.tool, ToolView(true, ts.ended, false, text), ToolView(true, true, false, text));
    } else {
      assert start + [] == start;
    }
  }

  /** The stored text is the 64 KiB-bounded result of the update, and a change is noticed exactly when
      the text differs. */
  lemma ApplyTextRel(ts: ToolState, u: ToolUpdate)
    requires RevisionOk(ts)
    ensures var (ts', previous) := ApplyText(ts, u);
            && ts'.result == ApplyUpdate(ts.result, u.content)
            && RevisionOk(ts')
            && previous == (if ts'.result == ts.result then None else Some(ts.result))
            && ts' == ts.(result := ts'.result, resultRevision := ts'.resultRevision)
  {
    hide Utf8.Bounded;
  }

  lemma ShowCardAccepted(env: Env, t: ThreadId, run: RunId, tool: ToolId, ts: ToolState, child: Option<ThreadId>,
                         status: string, preview: Option<string>, latest: Option<string>, v: RunView)
    ensures var (ts', cards) := ShowCard(t, run, tool, ts, child, status, preview, latest);
            && Plays(env, t, v, cards, v)
            && ts' == ts.(cardRevision := ts'.cardRevision)
  {
    PlayNothing(env, t, v);
    PlayOne(env, t, v, Card(t, run, tool, child, status, latest), v);
  }

  /** Cards leave the client's row alone except that it becomes a card when the tool is classified. */
  lemma LinkedCardAccepted(env: Env, t: ThreadId, ts: ToolState, v: RunView, u: ToolUpdate, task: Task, child: ThreadId)
    requires v.partial.None? && u.tool in v.tools && v.tools[u.tool].card == ts.card
    ensures var o := LinkedCard(env, t, v.run, ts, u, task, child);
            && Plays(env, t, v, o.events, Row(v, u.tool, v.tools[u.tool].(card := true)))
            && o.tool.card && o.tool.started == ts.started
            && o.tool.result == ts.result && o.tool.resultRevision == ts.resultRevision
  {
    hide Plays;
    var v1 := Row(v, u.tool, v.tools[u.tool].(card := true));
    var mark := if ts.card then [] else [Classified(t, v.run, u.tool)];
    if ts.card {
      RowSame(v, u.tool);
      PlayNothing(env, t, v);
    } else {
      PlayOne(env, t, v, Classified(t, v.run, u.tool), v1);
    }
    var remembered := RememberedFailure(env, ts);
    var stale := u.status.IsTerminal() && !env.isTerminal(task.state) && remembered.Some?;
    var status := if stale then remembered.value else SnapshotStatus(env, u.status, task.state);
    var ts1 := ts.(card := true, child := Some(child));
    var ts2 := if env.isTerminal(task.state) then ts1.(terminalStatus := Some(task.state))
               else if !stale then ts1.(terminalStatus := None, ended := false)
               else ts1;
    var preview := env.preview(ts.result);
    ShowCardAccepted(env, t, v.run, u.tool, ts2, Some(child), status, preview, preview, v1);
    var (ts3, cards) := ShowCard(t, v.run, u.tool, ts2, Some(child), status, preview, preview);
    Then(env, t, v, mark, v1, cards, v1);
  }

  lemma UnlinkedCardAccepted(env: Env, t: ThreadId, ts: ToolState, v: RunView, u: ToolUpdate)
    ensures var o := UnlinkedCard(env, t, v.run, ts, u);
            && Plays(env, t, v, o.events, v)
            && o.tool == ts.(cardRevision := o.tool.cardRevision)
  {
    hide Plays, ShowCard;
    var preview := env.preview(ts.result);
    PlayNothing(env, t, v);
    ShowCardAccepted(env, t, v.run, u.tool, ts, ts.child, "running", preview, preview, v);
    var status := RememberedFailure(env, ts).GetOr(if u.status.Failed? then "failed" else "completed");
    var latest := if preview.Some? then preview else Some("Task finished");
    ShowCardAccepted(env, t, v.run, u.tool, ts, ts.child, status, preview, latest, v);
  }

  lemma {:induction false} ResultAccepted(env: Env, t: ThreadId, tool: ToolId, parts: seq<string>, v: RunView)
    requires v.partial.None? && v.IsRow(tool)
    requires forall p :: p in parts ==> p != ""
    ensures Plays(env, t, v, ResultEvents(t, v.run, tool, parts),
                  Row(v, tool, v.tools[tool].(text := v.tools[tool].text + Utf8.Concat(parts))))
    decreases |parts|
  {
    hide Plays;
    var tv := v.tools[tool];
    if parts == [] {
      assert tv.text + "" == tv.text;
      RowSame(v, tool);
      PlayNothing(env, t, v);
    } else {
      assert parts[0] in parts;
      assert forall p :: p in parts[1..] ==> p in parts;
      var tv1 := tv.(text := tv.text + parts[0]);
      var v1 := Row(v, tool, tv1);
      PlayOne(env, t, v, ToolResult(t, v.run, tool, parts[0]), v1);
      ResultAccepted(env, t, tool, parts[1..], v1);
      var tv2 := tv.(text := tv.text + Utf8.Concat(parts));
      assert tv1.text + Utf8.Concat(parts[1..]) == tv2.text;
      RowAgain(v, tool, tv1, tv2);
      Then(env, t, v, [ToolResult(t, v.run, tool, parts[0])], v1, ResultEvents(t, v.run, tool, parts[1..]),
          Row(v, tool, tv2));
    }
  }

  /** Replacing on tool-text and appending on TOOL_CALL_RESULT leaves the client with the new text. */
  lemma TextAccepted(env: Env, t: ThreadId, ts: ToolState, v: RunView, u: ToolUpdate, previous: Option<string>)
    requires env.Valid() && v.partial.None? && u.tool in v.tools && v.tools[u.tool].card == ts.card
    requires !ts.card ==> v.IsRow(u.tool) && v.tools[u.tool].text == previous.GetOr(ts.result)
    ensures Plays(env, t, v, TextEvents(env, t, v.run, ts, u, previous),
                  if ts.card then v else Row(v, u.tool, v.tools[u.tool].(text := ts.result)))
  {
    hide Plays, StructuredEvents, ResultEvents, Utf8.Chunks, Utf8.Concat;
    if ts.card || previous.None? {
      RowSame(v, u.tool);
      PlayNothing(env, t, v);
    } else if u.status.IsTerminal() && previous.value <= ts.result && ts.result != "" {
      var suffix := ts.result[|previous.value|..];
      Utf8.ChunksRoundTrip(suffix, TOOL_RESULT_CHUNK_BYTES);
      ResultAccepted(env, t, u.tool, Utf8.Chunks(suffix, TOOL_RESULT_CHUNK_BYTES), v);
      assert previous.value + suffix == ts.result;
    } else {
      StructuredAccepted(env, t, ToolText(u.tool, ts.result), v, Row(v, u.tool, v.tools[u.tool].(text := ts.result)));
    }
  }

  /** A tool update is accepted: START and END at most once and in order, nothing once the tool is a
      card, and a row's text in step with the bounded fold of the updates. */
  lemma ToolStepAccepted(env: Env, t: ThreadId, ts: ToolState, v: RunView, u: ToolUpdate) returns (tv: ToolView)
    requires env.Valid() && v.partial.None? && SlotRel(ts, v, u.tool)
    ensures var o := ToolStep(env, t, v.run, ts, u);
            && Plays(env, t, v, o.events, Row(v, u.tool, tv))
            && ToolRel(o.tool, tv)
            && o.tool.result == ApplyUpdate(ts.result, u.content)
            && (ts.card ==> o.tool.card)
            && (!o.tool.card ==> o.tool.ended == (ts.ended || u.status.IsTerminal()))
            && (ts.card || NamesTask(env, u) ==>
                  o.tool.card && tv.started == (u.tool in v.tools && v.tools[u.tool].started))
  {
    hide Plays, ApplyText, ApplyUpdate, TextEvents, LinkedCard, UnlinkedCard;
    var (ts1, announced) := Announce(env, t, v.run, ts, u);
    AnnounceAccepted(env, t, ts, v, u);
    var tv1 := AnnouncedView(env, ts, v, u);
    var v1 := Row(v, u.tool, tv1);
    assert RevisionOk(ts1);
    ApplyTextRel(ts1, u);
    var (ts2, previous) := ApplyText(ts1, u);
    var carded := match Subagent(env, u.agent, ts2.result)
      case Some(s) => LinkedCard(env, t, v.run, ts2, u, s.0, s.1)
      case None => UnlinkedCard(env, t, v.run, ts2, u);
    match Subagent(env, u.agent, ts2.result) {
      case Some(s) => LinkedCardAccepted(env, t, ts2, v1, u, s.0, s.1);
      case None => UnlinkedCardAccepted(env, t, ts2, v1, u);
        RowSame(v1, u.tool);
    }
    var tv2 := tv1.(card := carded.tool.card);
    var v2 := Row(v1, u.tool, tv2);
    TextAccepted(env, t, carded.tool, v2, u, previous);
    tv := if carded.tool.card then tv2 else tv2.(text := carded.tool.result);
    RowAgain(v, u.tool, tv1, tv2);
    RowAgain(v, u.tool, tv2, tv);
    Then(env, t, v, announced, v1, carded.events, v2);
    Then(env, t, v, announced + carded.events, v2, TextEvents(env, t, v.run, carded.tool, u, previous),
        Row(v, u.tool, tv));
  }

  // ----- closing -----

  /** Ends of tools in `keys` that are rows still open. */
  ghost function EndedTools(r: RunState, keys: set<ToolId>, views: map<ToolId, ToolView>): map<ToolId, ToolView>
    requires keys <= r.tools.Keys
  {
    map k | k in views :: if k in keys && !r.tools[k].ended && !r.tools[k].card then views[k].(ended := true)
        else views[k]
  }

  /** The view once tool k has ended, if it was due. */
  ghost function EndedView(r: RunState, v: RunView, k: ToolId): RunView
    requires k in r.tools && k in v.tools
  {
    if !r.tools[k].ended && !r.tools[k].card then Row(v, k, v.tools[k].(ended := true)) else v
  }

  lemma EndedToolsMore(r: RunState, keys: set<ToolId>, v: RunView, k: ToolId)
    requires keys <= r.tools.Keys && k in keys && k in v.tools
    ensures EndedTools(r, keys - {k}, EndedView(r, v, k).tools) == EndedTools(r, keys, v.tools)
  {
  }

  lemma ToolEndPlays(env: Env, t: ThreadId, r: RunState, v: RunView, k: ToolId)
    requires v.partial.None? && v.run == r.run && k in r.tools && k in v.tools && ToolRel(r.tools[k], v.tools[k])
    ensures var due := !r.tools[k].ended && !r.tools[k].card;
            Plays(env, t, v, if due then [ToolEnd(t, r.run, k)] else [], EndedView(r, v, k))
  {
    hide Plays;
    if !r.tools[k].ended && !r.tools[k].card {
      PlayOne(env, t, v, ToolEnd(t, r.run, k), EndedView(r, v, k));
    } else {
      PlayNothing(env, t, v);
    }
  }

  lemma {:induction false} ToolEndsAccepted(env: Env, t: ThreadId, r: RunState, keys: set<ToolId>, clock: nat,
      v: RunView)
    requires env.Valid() && v.partial.None? && v.run == r.run && keys <= r.tools.Keys
    requires forall k :: k in keys ==> k in v.tools && ToolRel(r.tools[k], v.tools[k])
    ensures Plays(env, t, v, ToolEnds(env, t, r, keys, clock), v.(tools := EndedTools(r, keys, v.tools)))
    decreases keys
  {
    hide Plays, ToolRel;
    if keys == {} {
      assert EndedTools(r, keys, v.tools) == v.tools;
      PlayNothing(env, t, v);
    } else {
      var k := env.pick(clock, keys);
      var rest, w := keys - {k}, EndedView(r, v, k);
      ToolEndPlays(env, t, r, v, k);
      EndedToolsMore(r, keys, v, k);
      hide EndedTools;
      ToolEndsAccepted(env, t, r, rest, clock + 1, w);
      Then(env, t, v, if !r.tools[k].ended && !r.tools[k].card then [ToolEnd(t, r.run, k)] else [], w,
           ToolEnds(env, t, r, rest, clock + 1), v.(tools := EndedTools(r, keys, v.tools)));
    }
  }

  /** Closing a run leaves nothing open at the client: every message has ended, and so has every tool
      that was not classified as a sub-agent. */
  lemma CloseAccepted(env: Env, t: ThreadId, r: RunState, clock: nat, v: RunView) returns (v': RunView)
    requires env.Valid() && RunRel(r, v)
    ensures Plays(env, t, v, CloseEvents(env, t, r, clock), v')
    ensures v'.Settled()
  {
    hide Plays, BytesRel;
    assert v.text == Open(r.message) + Open(r.user);
    EndTextAccepted(env, t, r.user, v, Open(r.message));
    var v1 := v.(text := Open(r.message));
    assert v1.text == multiset{} + Open(r.message);
    EndTextAccepted(env, t, r.message, v1, multiset{});
    var v2 := v1.(text := multiset{});
    EndReasoningAccepted(env, t, v2);
    var v3 := v2.(reasoning := None);
    ToolEndsAccepted(env, t, r, r.tools.Keys, clock, v3);
    v' := v3.(tools := EndedTools(r, r.tools.Keys, v3.tools));
    var a, b, c := EndText(t, r.run, r.user), EndText(t, r.run, r.message), EndReasoning(t, r.run, r.reasoning);
    Then(env, t, v, a, v1, b, v2);
    Then(env, t, v, a + b, v2, c, v3);
    Then(env, t, v, a + b + c, v3, ToolEnds(env, t, r, r.tools.Keys, clock), v');
  }
}
