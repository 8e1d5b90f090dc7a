/** Vocabulary of the AG-UI projector: canonical agent events in, AG-UI stream events out. */
module AgUiTypes {
  import opened Wrappers

  type ThreadId = string
  type RunId = string
  type TurnId = string
  type MessageId = string
  type ToolId = string
  type Generation = n: int | 0 <= n < 0x1_0000_0000_0000_0000

  const MAX_GENERATION: Generation := 0xFFFF_FFFF_FFFF_FFFF

  const CLOSED_THREAD_CAPACITY: nat := 2048
  const OBSERVED_RUN_CAPACITY: nat := 256
  const SUBAGENT_LINK_CAPACITY: nat := 2048
  const SUBAGENT_PROGRESS_CAPACITY: nat := 1024
  const SUBAGENT_RUNNING_TOOL_CAPACITY: nat := 16
  const MESSAGE_CHUNK_BYTES: nat := 32 * 1024
  const TOOL_RESULT_CHUNK_BYTES: nat := 16 * 1024
  const STRUCTURED_CHUNK_BYTES: nat := 16 * 1024
  const MAX_MESSAGE_TOTAL_BYTES: nat := 32 * 1024
  const MAX_TOOL_TOTAL_BYTES: nat := 64 * 1024

  /** Id of the implicit run opened for a thread no client prompted. */
  function ObservedRunId(t: ThreadId): RunId {
    t + "::observed"
  }

  function SessionRunId(t: ThreadId): RunId {
    t + "::session"
  }

  // ----- canonical input -----

  datatype Role = User | Agent | Thought

  datatype ToolStatus = Pending | InProgress | Completed | Failed {
    predicate IsTerminal() {
      Completed? || Failed?
    }
  }

  datatype FieldUpdate = Unchanged | Clear | Set(value: string) | Append(value: string)

  /** An opaque structured message block; only its `truncated` flag is inspected. */
  datatype Block = Block(body: string, truncated: bool)

  datatype ToolUpdate = ToolUpdate(
    agent: string, tool: ToolId, kind: string, status: ToolStatus, title: string, content: FieldUpdate)

  datatype Canonical =
    | RunStarted(thread: ThreadId, run: RunId, turn: TurnId, generation: Generation)
    | RunFinished(thread: ThreadId, run: RunId, turn: TurnId, generation: Generation, cancelled: bool)
    | RunFailed(thread: ThreadId, run: RunId, turn: TurnId, generation: Generation, message: string)
    | MessageChunk(thread: ThreadId, runRef: Option<RunId>, turnRef: Option<TurnId>, generationRef: Option<Generation>,
                   role: Role, id: MessageId, content: string, block: Option<Block>)
    | Tool(thread: ThreadId, runRef: Option<RunId>, turnRef: Option<TurnId>, generationRef: Option<Generation>,
           update: ToolUpdate)
    | Plan(thread: ThreadId)
    | PermissionRequested(thread: ThreadId)
    | ElicitationRequested(thread: ThreadId)
      // Usage, TurnTokenUsage, Mode, Config, SessionInfo and Commands: one custom event each.
    | SessionUpdate(thread: ThreadId)
      // PermissionResolved, ElicitationResolved and Ignored: no stream event.
    | Silent(silentThread: Option<ThreadId>)
  {
    function Thread(): Option<ThreadId> {
      if Silent? then silentThread else Some(thread)
    }
  }

  // ----- projected output -----

  /** A SHA-256 revision of some text; equal revisions mean equal text. */
  datatype Revision = Sha256(of: string)

  datatype Payload =
    | ToolText(tool: ToolId, content: string)
    | MessageBlock(id: MessageId, block: Block)
  {
    function Name(): string {
      if ToolText? then "dappercode.dev/tool-text" else "dappercode.dev/message-content"
    }

    function CanonicalId(): string {
      if ToolText? then tool else id
    }
  }

  datatype Outcome = Finished | Errored | Superseded

  datatype Event =
    | RunOpened(thread: ThreadId, run: RunId)
    | RunClosed(thread: ThreadId, run: RunId, outcome: Outcome)
    | TextStart(thread: ThreadId, run: RunId, id: MessageId, role: Role)
    | TextContent(thread: ThreadId, run: RunId, id: MessageId, delta: string)
    | TextEnd(thread: ThreadId, run: RunId, id: MessageId)
    | ReasoningStart(thread: ThreadId, run: RunId, id: MessageId)
    | ReasoningContent(thread: ThreadId, run: RunId, id: MessageId, delta: string)
    | ReasoningEnd(thread: ThreadId, run: RunId, id: MessageId)
    | ToolStart(thread: ThreadId, run: RunId, tool: ToolId)
    | ToolArgs(thread: ThreadId, run: RunId, tool: ToolId)
    | ToolEnd(thread: ThreadId, run: RunId, tool: ToolId)
    | ToolResult(thread: ThreadId, run: RunId, tool: ToolId, delta: string)
    | Structured(thread: ThreadId, run: RunId, payload: Payload)
    | StructuredChunk(thread: ThreadId, run: RunId, name: string, canonicalId: string, revision: Revision,
                      index: nat, count: nat, data: string)
    | Truncated(thread: ThreadId, run: RunId, id: MessageId)
      // Sub-agent activity snapshot on a parent's tool call.
    | Card(thread: ThreadId, run: RunId, tool: ToolId, child: Option<ThreadId>, status: string, latest: Option<string>)
      // Plan, usage, mode and the other session-level notifications.
    | Custom(thread: ThreadId, run: RunId)
      // Not sent: records in the trace that a tool call became a sub-agent card.
    | Classified(thread: ThreadId, run: RunId, tool: ToolId)

  // ----- what the projector calls but this model does not open up -----

  datatype Task = Task(session: string, state: string)

  /** Text classifiers, the JSON codec, and the iteration order of Rust's hash maps.  Every theorem
      holds for every choice of these functions that is `Valid`. */
  datatype Env = Env(
    parseTask: string -> Option<Task>,
    childThread: (string, string) -> Option<ThreadId>,
    isTaskTool: (string, string) -> bool,
    preview: string -> Option<string>,
    isTerminal: string -> bool,
    isFailed: string -> bool,
    isBlank: string -> bool,
    encode: Payload -> string,
    decode: string -> Option<Payload>,
    pick: (nat, set<string>) -> string)
  {
    /** A hash map yields one of its keys; decoding undoes encoding; "running" is not terminal. */
    ghost predicate Valid() {
      var valid :=
        && (forall n, keys :: keys != {} ==> pick(n, keys) in keys)
        && (forall p :: decode(encode(p)) == Some(p))
        && !isTerminal("running");
      valid
    }
  }

  // ----- such functions exist -----

  /** The length of a text in unary, then the text. */
  function Framed(s: string): string {
    seq(|s|, _ => 'a') + "b" + s
  }

  function EncodePayload(p: Payload): string {
    match p
    case ToolText(tool, content) => "t" + Framed(tool) + content
    case MessageBlock(id, block) => "m" + Framed(id) + EncodeBlock(block)
  }

  lemma FramedInjective(a: string, s: string, b: string, t: string)
    requires Framed(a) + s == Framed(b) + t
    ensures a == b && s == t
  {
    var x, y := Framed(a) + s, Framed(b) + t;
    assert x[|a|] == 'b' && y[|b|] == 'b';
    assert forall i :: 0 <= i < |a| ==> x[i] == 'a';
    assert forall i :: 0 <= i < |b| ==> y[i] == 'a';
    assert |a| == |b|;
    assert a == x[|a| + 1..2 * |a| + 1] && b == y[|b| + 1..2 * |b| + 1];
    assert s == x[2 * |a| + 1..] && t == y[2 * |b| + 1..];
  }

  lemma EncodeTextInjective(p: Payload, q: Payload)
    requires EncodePayload(p) == EncodePayload(q) && p.ToolText? && q.ToolText?
    ensures p == q
  {
    hide Framed;
    assert EncodePayload(p)[1..] == Framed(p.tool) + p.content;
    assert EncodePayload(q)[1..] == Framed(q.tool) + q.content;
    FramedInjective(p.tool, p.content, q.tool, q.content);
  }

  function EncodeBlock(block: Block): string {
    (if block.truncated then "1" else "0") + block.body
  }

  lemma EncodeBlockInjective(a: Block, b: Block)
    requires EncodeBlock(a) == EncodeBlock(b)
    ensures a == b
  {
    assert EncodeBlock(a)[0] == EncodeBlock(b)[0];
    assert EncodeBlock(a)[1..] == a.body && EncodeBlock(b)[1..] == b.body;
  }

  lemma EncodeMessageInjective(p: Payload, q: Payload)
    requires EncodePayload(p) == EncodePayload(q) && p.MessageBlock? && q.MessageBlock?
    ensures p == q
  {
    hide Framed, EncodeBlock;
    assert EncodePayload(p)[1..] == Framed(p.id) + EncodeBlock(p.block);
    assert EncodePayload(q)[1..] == Framed(q.id) + EncodeBlock(q.block);
    FramedInjective(p.id, EncodeBlock(p.block), q.id, EncodeBlock(q.block));
    EncodeBlockInjective(p.block, q.block);
  }

  lemma EncodeInjective(p: Payload, q: Payload)
    requires EncodePayload(p) == EncodePayload(q)
    ensures p == q
  {
    assert EncodePayload(p)[0] == EncodePayload(q)[0];
    match p
    case ToolText(_, _) => EncodeTextInjective(p, q);
    case MessageBlock(_, _) => EncodeMessageInjective(p, q);
  }

  ghost function DecodePayload(s: string): Option<Payload> {
    if exists p :: EncodePayload(p) == s then
      var p :| EncodePayload(p) == s;
      Some(p)
    else None
  }

  ghost function AnyKey(n: nat, keys: set<string>): string {
    if keys == {} then "" else
      var k :| k in keys;
      k
  }

  /** The assumptions on the environment can be met. */
  lemma SomeEnvIsValid() returns (env: Env)
    ensures env.Valid()
  {
    env := Env(_ => None, (_, _) => None, (_, _) => false, _ => None, _ => false, _ => false, _ => false,
               EncodePayload, DecodePayload, AnyKey);
    forall p: Payload
      ensures env.decode(env.encode(p)) == Some(p)
    {
      EncodeInjective(p, DecodePayload(EncodePayload(p)).value);
    }
  }

  // ----- projector state -----

  datatype ToolState = ToolState(
    started: bool, ended: bool, card: bool, child: Option<ThreadId>, terminalStatus: Option<string>,
    result: string, resultRevision: Option<Revision>, cardRevision: Option<CardKey>)

  /** The `child \0 status \0 preview` key that keeps identical cards silent. */
  datatype CardKey = CardKey(child: Option<ThreadId>, status: string, latest: string)

  const NEW_TOOL := ToolState(false, false, false, None, None, "", None, None)

  datatype RunState = RunState(
    run: RunId, turn: Option<TurnId>,
    user: Option<MessageId>, message: Option<MessageId>, reasoning: Option<MessageId>,
    bytes: map<MessageId, nat>, truncated: set<MessageId>, tools: map<ToolId, ToolState>)

  function NewRun(run: RunId, turn: Option<TurnId>): RunState {
    RunState(run, turn, None, None, None, map[], {}, map[])
  }

  datatype Link = Link(
    parentThread: ThreadId, parentRun: RunId, tool: ToolId, child: ThreadId,
    childRun: Option<RunId>, generation: Option<Generation>, floor: Option<Generation>,
    revisions: set<string>, running: seq<(ToolId, string)>, rendered: Option<(string, string)>)

  /** The fields of `AgUiProjector`.  `clock` counts hash-order choices made so far. */
  datatype Core = Core(
    runs: map<ThreadId, RunState>, closed: set<ThreadId>, links: map<ThreadId, Link>,
    observed: seq<ThreadId>, clock: nat)

  const EMPTY_CORE := Core(map[], {}, map[], [], 0)

  datatype Out = Out(core: Core, events: seq<Event>)

  datatype RunOut = RunOut(run: RunState, events: seq<Event>)
}
