/** What the projector does inside one open run: message chunks, tool updates and closing the run. */
module AgUiRun {
  import opened Wrappers
  import opened AgUiTypes
  import Utf8

  // ----- structured payloads (push_structured_chunks) -----

  function StructuredEvents(env: Env, t: ThreadId, run: RunId, p: Payload): seq<Event> {
    var text := env.encode(p);
    if Utf8.Size(text) <= STRUCTURED_CHUNK_BYTES then [Structured(t, run, p)]
    else ChunkEvents(t, run, p, Sha256(text), Utf8.Chunks(text, STRUCTURED_CHUNK_BYTES), 0)
  }

  function ChunkEvents(t: ThreadId, run: RunId, p: Payload, revision: Revision, parts: seq<string>,
      from: nat): seq<Event>
    requires from <= |parts|
    decreases |parts| - from
  {
    if from == |parts| then []
    else [StructuredChunk(t, run, p.Name(), p.CanonicalId(), revision, from, |parts|, parts[from])]
         + ChunkEvents(t, run, p, revision, parts, from + 1)
  }

  // ----- message chunks -----

  /** push_message_chunks */
  function ContentEvents(t: ThreadId, run: RunId, reasoning: bool, id: MessageId, parts: seq<string>): seq<Event> {
    if parts == [] then []
    else [if reasoning then ReasoningContent(t, run, id, parts[0]) else TextContent(t, run, id, parts[0])]
         + ContentEvents(t, run, reasoning, id, parts[1..])
  }

  function BytesUsed(r: RunState, id: MessageId): nat {
    if id in r.bytes then r.bytes[id] else 0
  }

  /** What bounded_live_content lets through of a chunk. */
  function LiveContent(r: RunState, id: MessageId, content: string): string {
    var used := BytesUsed(r, id);
    Utf8.Bounded(content, if used <= MAX_MESSAGE_TOTAL_BYTES then MAX_MESSAGE_TOTAL_BYTES - used else 0)
  }

  /** bounded_live_content followed by the truncation notice; the last component says whether a
      notice is due. */
  function Meter(r: RunState, id: MessageId, content: string, block: Option<Block>): (RunState, bool) {
    var kept := LiveContent(r, id, content);
    var cut := Utf8.Size(kept) < Utf8.Size(content);
    var newlyCut := cut && id !in r.truncated;
    var r1 := r.(bytes := r.bytes[id := BytesUsed(r, id) + Utf8.Size(kept)],
                 truncated := if cut then r.truncated + {id} else r.truncated);
    var blockCut := block.Some? && block.value.truncated;
    if newlyCut then (r1, true)
    else if blockCut then (r1.(truncated := r1.truncated + {id}), id !in r1.truncated)
    else (r1, false)
  }

  function BlockEvents(env: Env, t: ThreadId, run: RunId, id: MessageId, block: Option<Block>): seq<Event> {
    match block
    case Some(b) => StructuredEvents(env, t, run, MessageBlock(id, b))
    case None => []
  }

  function EndText(t: ThreadId, run: RunId, id: Option<MessageId>): seq<Event> {
    match id case Some(m) => [TextEnd(t, run, m)] case None => []
  }

  function EndReasoning(t: ThreadId, run: RunId, id: Option<MessageId>): seq<Event> {
    match id case Some(m) => [ReasoningEnd(t, run, m)] case None => []
  }

  /** Opens the message a chunk belongs to, closing what its role displaces. */
  function OpenMessage(t: ThreadId, r: RunState, role: Role, id: MessageId): RunOut {
    match role
    case Agent =>
      RunOut(r.(user := None, message := Some(id)),
             EndText(t, r.run, r.user)
             + if r.message == Some(id) then []
               else EndText(t, r.run, r.message) + [TextStart(t, r.run, id, Agent)])
    case Thought =>
      RunOut(r.(reasoning := Some(id)),
             if r.reasoning == Some(id) then []
             else EndReasoning(t, r.run, r.reasoning) + [ReasoningStart(t, r.run, id)])
    case User =>
      RunOut(r.(user := Some(id)),
             if r.user == Some(id) then []
             else EndText(t, r.run, r.user) + [TextStart(t, r.run, id, User)])
  }

  /** The MessageChunk arm once the run is found. */
  function ChunkStep(env: Env, t: ThreadId, r: RunState, role: Role, id: MessageId, content: string,
      block: Option<Block>): RunOut {
    var kept := LiveContent(r, id, content);
    var (r1, notice) := Meter(r, id, content, block);
    var entry := OpenMessage(t, r1, role, id);
    RunOut(entry.run,
           BlockEvents(env, t, r.run, id, block)
           + (if notice then [Truncated(t, r.run, id)] else [])
           + entry.events
           + ContentEvents(t, r.run, role.Thought?, id, Utf8.Chunks(kept, MESSAGE_CHUNK_BYTES)))
  }

  // ----- tool updates -----

  datatype ToolOut = ToolOut(tool: ToolState, events: seq<Event>, finished: Option<ThreadId>, linked: Option<ThreadId>)

  /** The bounded text of a tool after an update. */
  function ApplyUpdate(text: string, update: FieldUpdate): string {
    match update
    case Set(value) => Utf8.Bounded(value, MAX_TOOL_TOTAL_BYTES)
    case Append(value) => Utf8.Bounded(text + value, MAX_TOOL_TOTAL_BYTES)
    case Clear => ""
    case Unchanged => text
  }

  function UpdateHasTask(env: Env, update: FieldUpdate): bool {
    (update.Set? || update.Append?) && env.parseTask(update.value).Some?
  }

  /** The update by itself marks the tool as a sub-agent. */
  predicate NamesTask(env: Env, u: ToolUpdate) {
    env.isTaskTool(u.kind, u.title) || UpdateHasTask(env, u.content)
  }

  /** Classification by the update itself, then TOOL_CALL_START/ARGS and TOOL_CALL_END. */
  function Announce(env: Env, t: ThreadId, run: RunId, ts: ToolState, u: ToolUpdate): (ToolState, seq<Event>) {
    var card := ts.card || env.isTaskTool(u.kind, u.title) || UpdateHasTask(env, u.content);
    var mark := if card && !ts.card then [Classified(t, run, u.tool)] else [];
    var start := if ts.started || card then [] else [ToolStart(t, run, u.tool), ToolArgs(t, run, u.tool)];
    var end := if u.status.IsTerminal() && !ts.ended && !card then [ToolEnd(t, run, u.tool)] else [];
    (ts.(card := card, started := true, ended := ts.ended || u.status.IsTerminal()), mark + start + end)
  }

  /** Applies the text update; the second component is the previous text when it changed. */
  function ApplyText(ts: ToolState, u: ToolUpdate): (ToolState, Option<string>) {
    if u.content.Unchanged? then (ts, None)
    else
      var content := ApplyUpdate(ts.result, u.content);
      if content == "" && ts.resultRevision.None? then (ts, None)
      else if ts.resultRevision == Some(Sha256(content)) then (ts, None)
      else (ts.(result := content, resultRevision := Some(Sha256(content))), Some(ts.result))
  }

  /** The sub-agent a tool's accumulated text names, with the thread it runs on. */
  function Subagent(env: Env, agent: string, text: string): Option<(Task, ThreadId)> {
    match env.parseTask(text)
    case Some(task) =>
      (match env.childThread(agent, task.session)
       case Some(child) => Some((task, child))
       case None => None)
    case None => None
  }

  function SnapshotStatus(env: Env, status: ToolStatus, child: string): string {
    if status.Completed? then (if env.isFailed(child) then child else "completed")
    else if status.Failed? then (if env.isFailed(child) then child else "failed")
    else child
  }

  function RememberedFailure(env: Env, ts: ToolState): Option<string> {
    if ts.terminalStatus.Some? && env.isFailed(ts.terminalStatus.value) then ts.terminalStatus else None
  }

  /** Emits a card unless the same card was the last one shown. */
  function ShowCard(t: ThreadId, run: RunId, tool: ToolId, ts: ToolState, child: Option<ThreadId>, status: string,
                    preview: Option<string>, latest: Option<string>): (ToolState, seq<Event>)
  {
    var key := CardKey(child, status, preview.GetOr(""));
    if ts.cardRevision == Some(key) then (ts, [])
    else (ts.(cardRevision := Some(key)), [Card(t, run, tool, child, status, latest)])
  }

  /** The update's text names a sub-agent: classify the tool, show its card, and say whether the
      child is finished or (re)linked. */
  function LinkedCard(env: Env, t: ThreadId, run: RunId, ts: ToolState, u: ToolUpdate, task: Task,
      child: ThreadId): ToolOut {
    var remembered := RememberedFailure(env, ts);
    var stale := u.status.IsTerminal() && !env.isTerminal(task.state) && remembered.Some?;
    var status := if stale then remembered.value else SnapshotStatus(env, u.status, task.state);
    var mark := if ts.card then [] else [Classified(t, run, u.tool)];
    var ts1 := ts.(card := true, child := Some(child));
    var ts2 := if env.isTerminal(task.state) then ts1.(terminalStatus := Some(task.state))
               else if !stale then ts1.(terminalStatus := None, ended := false)
               else ts1;
    var preview := env.preview(ts.result);
    var (ts3, cards) := ShowCard(t, run, u.tool, ts2, Some(child), status, preview, preview);
    if env.isTerminal(task.state) || stale then ToolOut(ts3, mark + cards, Some(child), None)
    else ToolOut(ts3, mark + cards, None, Some(child))
  }

  /** No sub-agent is named: a card still mirrors running output or settles. */
  function UnlinkedCard(env: Env, t: ThreadId, run: RunId, ts: ToolState, u: ToolUpdate): ToolOut {
    var preview := env.preview(ts.result);
    if !ts.card then ToolOut(ts, [], None, None)
    else if !u.status.IsTerminal() then
      if preview.None? then ToolOut(ts, [], None, None)
      else
        var (ts1, cards) := ShowCard(t, run, u.tool, ts, ts.child, "running", preview, preview);
        ToolOut(ts1, cards, None, None)
    else
      var status := RememberedFailure(env, ts).GetOr(if u.status.Failed? then "failed" else "completed");
      var latest := if preview.Some? then preview else Some("Task finished");
      var (ts1, cards) := ShowCard(t, run, u.tool, ts, ts.child, status, preview, latest);
      var childDone := ts.terminalStatus.Some? && env.isTerminal(ts.terminalStatus.value);
      ToolOut(ts1, cards, if childDone || u.status.Failed? then ts.child else None, None)
  }

  function ResultEvents(t: ThreadId, run: RunId, tool: ToolId, parts: seq<string>): seq<Event> {
    if parts == [] then []
    else [ToolResult(t, run, tool, parts[0])] + ResultEvents(t, run, tool, parts[1..])
  }

  /** TOOL_CALL_RESULT for what a terminal update appended, otherwise the whole text again. */
  function TextEvents(env: Env, t: ThreadId, run: RunId, ts: ToolState, u: ToolUpdate,
      previous: Option<string>): seq<Event> {
    if previous.None? || ts.card then []
    else if u.status.IsTerminal() && previous.value <= ts.result && ts.result != "" then
      ResultEvents(t, run, u.tool, Utf8.Chunks(ts.result[|previous.value|..], TOOL_RESULT_CHUNK_BYTES))
    else StructuredEvents(env, t, run, ToolText(u.tool, ts.result))
  }

  /** The Tool arm on one tool's state, once the run is found. */
  function ToolStep(env: Env, t: ThreadId, run: RunId, ts: ToolState, u: ToolUpdate): ToolOut {
    var (ts1, announced) := Announce(env, t, run, ts, u);
    var (ts2, previous) := ApplyText(ts1, u);
    var carded := match Subagent(env, u.agent, ts2.result)
      case Some(s) => LinkedCard(env, t, run, ts2, u, s.0, s.1)
      case None => UnlinkedCard(env, t, run, ts2, u);
    carded.(events := announced + carded.events + TextEvents(env, t, run, carded.tool, u, previous))
  }

  function ToolAt(r: RunState, tool: ToolId): ToolState {
    if tool in r.tools then r.tools[tool] else NEW_TOOL
  }

  // ----- closing -----

  /** TOOL_CALL_END for every tool row still open, in hash order. */
  function ToolEnds(env: Env, t: ThreadId, r: RunState, keys: set<ToolId>, clock: nat): seq<Event>
    requires env.Valid() && keys <= r.tools.Keys
    decreases keys
  {
    if keys == {} then []
    else
      var k := env.pick(clock, keys);
      (if !r.tools[k].ended && !r.tools[k].card then [ToolEnd(t, r.run, k)] else [])
      + ToolEnds(env, t, r, keys - {k}, clock + 1)
  }

  /** close_run without its optional RUN_ERROR. */
  function CloseEvents(env: Env, t: ThreadId, r: RunState, clock: nat): seq<Event>
    requires env.Valid()
  {
    EndText(t, r.run, r.user) + EndText(t, r.run, r.message) + EndReasoning(t, r.run, r.reasoning)
    + ToolEnds(env, t, r, r.tools.Keys, clock)
  }
}
