/** The reference client: it replays an AG-UI stream and rejects it at the first event that breaks
    the protocol.  It is defined on the stream alone and knows nothing of the projector. */
module AgUiClient {
  import opened Wrappers
  import opened AgUiTypes
  import Utf8

  datatype ToolView = ToolView(started: bool, ended: bool, card: bool, text: string)

  /** Structured chunks received so far of a payload that is not complete yet. */
  datatype Partial = Partial(name: string, canonicalId: string, revision: Revision, count: nat, next: nat, data: string)

  /** What the client holds for the open run of a thread. */
  datatype RunView = RunView(
    run: RunId,
    text: multiset<MessageId>,
    reasoning: Option<MessageId>,
    delivered: map<MessageId, string>,
    noticed: set<MessageId>,
    tools: map<ToolId, ToolView>,
    partial: Option<Partial>)
  {
    function Delivered(id: MessageId): string {
      if id in delivered then delivered[id] else ""
    }

    /** A tool row that may still receive tool events. */
    predicate IsRow(tool: ToolId) {
      tool in tools && tools[tool].started && !tools[tool].card
    }

    /** Nothing is open: every message is closed and every tool row has ended. */
    predicate Settled() {
      && text == multiset{} && reasoning.None? && partial.None?
      && forall tool :: tool in tools && tools[tool].started && !tools[tool].card ==> tools[tool].ended
    }
  }

  function NewView(run: RunId): RunView {
    RunView(run, multiset{}, None, map[], {}, map[], None)
  }

  /** Threads with an open run. */
  type Client = map<ThreadId, RunView>

  function Deliver(v: RunView, id: MessageId, delta: string): Option<RunView> {
    var text := v.Delivered(id) + delta;
    if delta != "" && Utf8.Size(text) <= MAX_MESSAGE_TOTAL_BYTES
    then Some(v.(delivered := v.delivered[id := text]))
    else None
  }

  function ApplyPayload(v: RunView, p: Payload): Option<RunView> {
    match p
    case ToolText(tool, content) =>
      if v.IsRow(tool) then Some(v.(tools := v.tools[tool := v.tools[tool].(text := content)])) else None
    case MessageBlock(_, _) => Some(v)
  }

  function AcceptChunk(env: Env, v: RunView, e: Event): Option<RunView>
    requires e.StructuredChunk?
  {
    var before := match v.partial
      case None => Partial(e.name, e.canonicalId, e.revision, e.count, 0, "")
      case Some(p) => p;
    if e.name != before.name || e.canonicalId != before.canonicalId || e.revision != before.revision
       || e.count != before.count || e.index != before.next || e.index >= e.count || e.data == "" then None
    else
      var after := before.(next := before.next + 1, data := before.data + e.data);
      if after.next < after.count then Some(v.(partial := Some(after)))
      else if Sha256(after.data) != after.revision then None
      else match env.decode(after.data)
        case Some(p) =>
          if p.Name() == after.name && p.CanonicalId() == after.canonicalId
          then ApplyPayload(v.(partial := None), p) else None
        case None => None
  }

  /** One event of the open run. */
  function AcceptRun(env: Env, v: RunView, e: Event): Option<RunView> {
    if e.Card? then Some(v)
    else if e.StructuredChunk? then AcceptChunk(env, v, e)
    else if v.partial.Some? then None
    else match e
      case TextStart(_, _, id, _) => Some(v.(text := v.text + multiset{id}))
      case TextContent(_, _, id, delta) => if id in v.text then Deliver(v, id, delta) else None
      case TextEnd(_, _, id) => if id in v.text then Some(v.(text := v.text - multiset{id})) else None
      case ReasoningStart(_, _, id) => if v.reasoning.None? then Some(v.(reasoning := Some(id))) else None
      case ReasoningContent(_, _, id, delta) => if v.reasoning == Some(id) then Deliver(v, id, delta) else None
      case ReasoningEnd(_, _, id) => if v.reasoning == Some(id) then Some(v.(reasoning := None)) else None
      case ToolStart(_, _, tool) =>
        if tool in v.tools then None
        else Some(v.(tools := v.tools[tool := ToolView(true, false, false, "")]))
      case ToolArgs(_, _, tool) =>
        if v.IsRow(tool) && !v.tools[tool].ended then Some(v) else None
      case ToolEnd(_, _, tool) =>
        if v.IsRow(tool) && !v.tools[tool].ended
        then Some(v.(tools := v.tools[tool := v.tools[tool].(ended := true)])) else None
      case ToolResult(_, _, tool, delta) =>
        if v.IsRow(tool) && delta != ""
        then Some(v.(tools := v.tools[tool := v.tools[tool].(text := v.tools[tool].text + delta)])) else None
      case Structured(_, _, p) => ApplyPayload(v, p)
      case Truncated(_, _, id) =>
        if id in v.noticed then None else Some(v.(noticed := v.noticed + {id}))
      case Classified(_, _, tool) =>
        if tool !in v.tools then Some(v.(tools := v.tools[tool := ToolView(false, false, true, "")]))
        else if v.tools[tool].card then None
        else Some(v.(tools := v.tools[tool := v.tools[tool].(card := true)]))
      case _ => None
  }

  /** One event of the stream. */
  function Accept1(env: Env, c: Client, e: Event): Option<Client> {
    match e
    case Card(_, _, _, _, _, _) => Some(c)
    case Custom(_, _) => Some(c)
    case RunOpened(t, run) => if t in c then None else Some(c[t := NewView(run)])
    case RunClosed(t, run, _) =>
      if t in c && c[t].run == run && c[t].Settled() then Some(c - {t}) else None
    case _ =>
      if e.thread in c && c[e.thread].run == e.run then
        match AcceptRun(env, c[e.thread], e)
        case Some(v) => Some(c[e.thread := v])
        case None => None
      else None
  }

  /** A whole stream; None as soon as one event is rejected. */
  function Accept(env: Env, c: Client, events: seq<Event>): Option<Client>
    decreases |events|
  {
    if events == [] then Some(c)
    else match Accept1(env, c, events[0])
      case Some(c1) => Accept(env, c1, events[1..])
      case None => None
  }

  function AcceptRunAll(env: Env, v: RunView, events: seq<Event>): Option<RunView>
    decreases |events|
  {
    if events == [] then Some(v)
    else match AcceptRun(env, v, events[0])
      case Some(v1) => AcceptRunAll(env, v1, events[1..])
      case None => None
  }

  // ----- composition -----

  lemma {:induction false} AcceptConcat(env: Env, c: Client, a: seq<Event>, b: seq<Event>)
    ensures Accept(env, c, a + b)
         == match Accept(env, c, a) case Some(c1) => Accept(env, c1, b) case None => None
    decreases |a|
  {
    if a == [] {
      assert a + b == b;
    } else {
      assert (a + b)[1..] == a[1..] + b;
      match Accept1(env, c, a[0])
      case Some(c1) => AcceptConcat(env, c1, a[1..], b);
      case None =>
    }
  }

  lemma {:induction false} AcceptRunConcat(env: Env, v: RunView, a: seq<Event>, b: seq<Event>)
    ensures AcceptRunAll(env, v, a + b)
         == match AcceptRunAll(env, v, a) case Some(v1) => AcceptRunAll(env, v1, b) case None => None
    decreases |a|
  {
    if a == [] {
      assert a + b == b;
    } else {
      assert (a + b)[1..] == a[1..] + b;
      match AcceptRun(env, v, a[0])
      case Some(v1) => AcceptRunConcat(env, v1, a[1..], b);
      case None =>
    }
  }

  lemma AcceptRunOne(env: Env, v: RunView, e: Event)
    ensures AcceptRunAll(env, v, [e]) == AcceptRun(env, v, e)
  {
    match AcceptRun(env, v, e)
    case Some(v1) => assert AcceptRunAll(env, v1, [e][1..]) == Some(v1);
    case None =>
  }

  lemma AcceptOne(env: Env, c: Client, e: Event)
    ensures Accept(env, c, [e]) == Accept1(env, c, e)
  {
    match Accept1(env, c, e)
    case Some(c1) => assert Accept(env, c1, [e][1..]) == Some(c1);
    case None =>
  }

  /** The event belongs to run `run` of thread t (a card may belong to any). */
  predicate Belongs(e: Event, t: ThreadId, run: RunId) {
    e.Card? || (!e.Custom? && !e.RunOpened? && !e.RunClosed? && e.thread == t && e.run == run)
  }

  predicate AllBelong(events: seq<Event>, t: ThreadId, run: RunId) {
    forall e :: e in events ==> Belongs(e, t, run)
  }

  lemma AcceptRunKeepsId(env: Env, v: RunView, e: Event)
    ensures AcceptRun(env, v, e).Some? ==> AcceptRun(env, v, e).value.run == v.run
  {
  }

  /** Events of one run move only that run's view. */
  lemma {:induction false} AcceptLift(env: Env, c: Client, t: ThreadId, events: seq<Event>, v': RunView)
    requires t in c && AllBelong(events, t, c[t].run)
    requires AcceptRunAll(env, c[t], events) == Some(v')
    ensures Accept(env, c, events) == Some(c[t := v'])
    ensures v'.run == c[t].run
    decreases |events|
  {
    if events == [] {
      assert c[t := v'] == c;
    } else {
      var e := events[0];
      assert Belongs(e, t, c[t].run);
      AcceptRunKeepsId(env, c[t], e);
      var v1 := AcceptRun(env, c[t], e).value;
      var c1 := c[t := v1];
      assert Accept1(env, c, e) == Some(c1) by {
        if e.Card? { assert c1 == c; }
      }
      AcceptLift(env, c1, t, events[1..], v');
      assert c1[t := v'] == c[t := v'];
    }
  }

  /** Cards and session notifications never change what the client holds. */
  lemma {:induction false} AcceptInert(env: Env, c: Client, events: seq<Event>)
    requires forall e :: e in events ==> e.Card? || e.Custom?
    ensures Accept(env, c, events) == Some(c)
    decreases |events|
  {
    if events == [] {
    } else {
      assert events[0] in events;
      AcceptInert(env, c, events[1..]);
    }
  }
}
