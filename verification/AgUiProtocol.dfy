/** What the reference client's acceptance says about the stream itself, in plain counts of events. */
module AgUiProtocol {
  import opened Wrappers
  import opened AgUiTypes
  import opened AgUiClient
  import opened AgUiRunProofs
  import opened AgUiCore
  import opened AgUiStream
  import Utf8

  // ----- counting -----

  datatype Kind =
    | StartTool | ArgsTool | EndTool | ResultTool
    | StartText | EndText | StartReasoning | EndReasoning
    | Notice | Mark

  /** The event is of that kind and about that message or tool. */
  predicate Is(e: Event, kind: Kind, id: string) {
    match kind
    case StartTool => e.ToolStart? && e.tool == id
    case ArgsTool => e.ToolArgs? && e.tool == id
    case EndTool => e.ToolEnd? && e.tool == id
    case ResultTool => e.ToolResult? && e.tool == id
    case StartText => e.TextStart? && e.id == id
    case EndText => e.TextEnd? && e.id == id
    case StartReasoning => e.ReasoningStart? && e.id == id
    case EndReasoning => e.ReasoningEnd? && e.id == id
    case Notice => e.Truncated? && e.id == id
    case Mark => e.Classified? && e.tool == id
  }

  function Count(events: seq<Event>, kind: Kind, id: string): nat {
    if events == [] then 0
    else Count(events[..|events| - 1], kind, id) + if Is(events[|events| - 1], kind, id) then 1 else 0
  }

  /** The text that the events deliver for a message. */
  function Delivery(events: seq<Event>, id: MessageId): string {
    if events == [] then ""
    else
      var e := events[|events| - 1];
      Delivery(events[..|events| - 1], id) + if (e.TextContent? || e.ReasoningContent?) && e.id == id then e.delta
          else ""
  }

  function One(b: bool): nat {
    if b then 1 else 0
  }

  /** The view of a run is an account of the run's events. */
  ghost predicate ToolsCounted(v: RunView, events: seq<Event>) {
    forall id ::
      && Count(events, StartTool, id) == One(id in v.tools && v.tools[id].started)
      && Count(events, EndTool, id) == One(id in v.tools && v.tools[id].ended)
      && Count(events, Mark, id) == One(id in v.tools && v.tools[id].card)
      && (id in v.tools && v.tools[id].ended ==> v.tools[id].started)
  }

  ghost predicate TextCounted(v: RunView, events: seq<Event>) {
    forall id :: Count(events, StartText, id) == Count(events, EndText, id) + v.text[id]
  }

  ghost predicate ReasoningCounted(v: RunView, events: seq<Event>) {
    forall id :: Count(events, StartReasoning, id) == Count(events, EndReasoning, id) + One(v.reasoning == Some(id))
  }

  ghost predicate BudgetCounted(v: RunView, events: seq<Event>) {
    forall id ::
      && Count(events, Notice, id) == One(id in v.noticed)
      && Delivery(events, id) == v.Delivered(id) && Utf8.Size(v.Delivered(id)) <= MAX_MESSAGE_TOTAL_BYTES
  }

  ghost predicate Accounts(v: RunView, events: seq<Event>) {
    ToolsCounted(v, events) && TextCounted(v, events) && ReasoningCounted(v, events) && BudgetCounted(v, events)
  }

  /** One event more. */
  lemma CountMore(events: seq<Event>, e: Event, kind: Kind, id: string)
    ensures Count(events + [e], kind, id) == Count(events, kind, id) + One(Is(e, kind, id))
  {
    assert (events + [e])[..|events|] == events;
  }

  lemma DeliveryMore(events: seq<Event>, e: Event, id: MessageId)
    ensures Delivery(events + [e], id)
         == Delivery(events, id) + if (e.TextContent? || e.ReasoningContent?) && e.id == id then e.delta else ""
  {
    assert (events + [e])[..|events|] == events;
  }

  /** The two views differ in the text of rows at most. */
  ghost predicate SameButText(v: RunView, w: RunView, id: string) {
    && (id in w.tools <==> id in v.tools)
    && (id in v.tools ==> w.tools[id] == v.tools[id].(text := w.tools[id].text))
    && w.text == v.text && w.reasoning == v.reasoning && w.noticed == v.noticed && w.delivered == v.delivered
  }

  lemma PayloadMoves(v: RunView, p: Payload, w: RunView, id: string)
    requires ApplyPayload(v, p) == Some(w)
    ensures SameButText(v, w, id)
  {
  }

  /** A payload, whole or in chunks, changes the text of a row and nothing else. */
  lemma ChunkMoves(env: Env, v: RunView, e: Event, w: RunView, id: string)
    requires e.StructuredChunk? && AcceptChunk(env, v, e) == Some(w)
    ensures SameButText(v, w, id)
  {
    hide ApplyPayload;
    if w.partial.None? || w != v.(partial := w.partial) {
      var before := match v.partial
        case None => Partial(e.name, e.canonicalId, e.revision, e.count, 0, "")
        case Some(p) => p;
      PayloadMoves(v.(partial := None), env.decode(before.data + e.data).value, w, id);
    }
  }

  lemma DeliverMoves(v: RunView, id: MessageId, delta: string)
    requires Deliver(v, id, delta).Some?
    ensures Deliver(v, id, delta).value.tools == v.tools
  {
  }

  /** The tools of a view move only with tool events, and a payload never starts or ends one. */
  lemma ToolMoves(env: Env, v: RunView, e: Event, w: RunView, id: ToolId)
    requires AcceptRun(env, v, e) == Some(w)
    ensures One(id in w.tools && w.tools[id].started) ==
        One(id in v.tools && v.tools[id].started) + One(Is(e, StartTool, id))
    ensures One(id in w.tools && w.tools[id].ended) == One(id in v.tools && v.tools[id].ended) + One(Is(e, EndTool, id))
    ensures (id in v.tools && v.tools[id].ended ==> v.tools[id].started) ==>
        (id in w.tools && w.tools[id].ended ==> w.tools[id].started)
  {
    hide AcceptChunk, Deliver, Utf8.Size;
    if e.StructuredChunk? {
      ChunkMoves(env, v, e, w, id);
    } else if e.TextContent? || e.ReasoningContent? {
      DeliverMoves(v, e.id, e.delta);
    }
  }

  lemma MarkMoves(env: Env, v: RunView, e: Event, w: RunView, id: ToolId)
    requires AcceptRun(env, v, e) == Some(w)
    ensures One(id in w.tools && w.tools[id].card) == One(id in v.tools && v.tools[id].card) + One(Is(e, Mark, id))
  {
    hide AcceptChunk, Deliver, Utf8.Size;
    if e.StructuredChunk? {
      ChunkMoves(env, v, e, w, id);
    } else if e.TextContent? || e.ReasoningContent? {
      DeliverMoves(v, e.id, e.delta);
    }
  }

  lemma TextMoves(env: Env, v: RunView, e: Event, w: RunView, id: MessageId)
    requires AcceptRun(env, v, e) == Some(w)
    ensures w.text[id] + One(Is(e, EndText, id)) == v.text[id] + One(Is(e, StartText, id))
  {
    hide AcceptChunk;
    if e.StructuredChunk? {
      ChunkMoves(env, v, e, w, id);
    }
  }

  lemma ReasoningMoves(env: Env, v: RunView, e: Event, w: RunView, id: MessageId)
    requires AcceptRun(env, v, e) == Some(w)
    ensures One(w.reasoning == Some(id)) + One(Is(e, EndReasoning, id)) ==
        One(v.reasoning == Some(id)) + One(Is(e, StartReasoning, id))
  {
    hide AcceptChunk;
    if e.StructuredChunk? {
      ChunkMoves(env, v, e, w, id);
    }
  }

  lemma BudgetMoves(env: Env, v: RunView, e: Event, w: RunView, id: MessageId)
    requires AcceptRun(env, v, e) == Some(w) && Utf8.Size(v.Delivered(id)) <= MAX_MESSAGE_TOTAL_BYTES
    ensures One(id in w.noticed) == One(id in v.noticed) + One(Is(e, Notice, id))
    ensures w.Delivered(id) == v.Delivered(id) + if (e.TextContent? || e.ReasoningContent?) && e.id == id
        then e.delta else ""
    ensures Utf8.Size(w.Delivered(id)) <= MAX_MESSAGE_TOTAL_BYTES
  {
    hide AcceptChunk;
    if e.StructuredChunk? {
      ChunkMoves(env, v, e, w, id);
    }
    hide Utf8.Size;
    assert v.Delivered(id) + "" == v.Delivered(id);
  }

  lemma ToolsMore(env: Env, v: RunView, events: seq<Event>, e: Event, w: RunView)
    requires ToolsCounted(v, events) && AcceptRun(env, v, e) == Some(w)
    ensures ToolsCounted(w, events + [e])
  {
    hide AcceptRun, Is;
    forall id: string
      ensures Count(events + [e], StartTool, id) == One(id in w.tools && w.tools[id].started)
      ensures Count(events + [e], EndTool, id) == One(id in w.tools && w.tools[id].ended)
      ensures Count(events + [e], Mark, id) == One(id in w.tools && w.tools[id].card)
      ensures id in w.tools && w.tools[id].ended ==> w.tools[id].started
    {
      ToolMoves(env, v, e, w, id);
      MarkMoves(env, v, e, w, id);
      CountMore(events, e, StartTool, id);
      CountMore(events, e, EndTool, id);
      CountMore(events, e, Mark, id);
    }
  }

  lemma TextMore(env: Env, v: RunView, events: seq<Event>, e: Event, w: RunView)
    requires TextCounted(v, events) && ReasoningCounted(v, events) && AcceptRun(env, v, e) == Some(w)
    ensures TextCounted(w, events + [e]) && ReasoningCounted(w, events + [e])
  {
    hide AcceptRun, Is;
    forall id: string
      ensures Count(events + [e], StartText, id) == Count(events + [e], EndText, id) + w.text[id]
      ensures Count(events + [e], StartReasoning, id) ==
          Count(events + [e], EndReasoning, id) + One(w.reasoning == Some(id))
    {
      TextMoves(env, v, e, w, id);
      ReasoningMoves(env, v, e, w, id);
      CountMore(events, e, StartText, id);
      CountMore(events, e, EndText, id);
      CountMore(events, e, StartReasoning, id);
      CountMore(events, e, EndReasoning, id);
    }
  }

  lemma BudgetMore(env: Env, v: RunView, events: seq<Event>, e: Event, w: RunView)
    requires BudgetCounted(v, events) && AcceptRun(env, v, e) == Some(w)
    ensures BudgetCounted(w, events + [e])
  {
    hide AcceptRun, Is, Utf8.Size;
    forall id: string
      ensures Count(events + [e], Notice, id) == One(id in w.noticed)
      ensures Delivery(events + [e], id) == w.Delivered(id) && Utf8.Size(w.Delivered(id)) <= MAX_MESSAGE_TOTAL_BYTES
    {
      BudgetMoves(env, v, e, w, id);
      CountMore(events, e, Notice, id);
      DeliveryMore(events, e, id);
    }
  }

  lemma NewAccounts(run: RunId)
    ensures Accounts(NewView(run), [])
  {
  }

  /** The events of one run, accepted from its start, are accounted for by the view they lead to. */
  lemma {:induction false} RunAccounts(env: Env, run: RunId, events: seq<Event>, v: RunView)
    requires AcceptRunAll(env, NewView(run), events) == Some(v)
    ensures Accounts(v, events)
    decreases |events|
  {
    hide AcceptRun, AcceptRunAll, ToolsCounted, TextCounted, ReasoningCounted, BudgetCounted;
    if events == [] {
      NewAccounts(run);
      AcceptRunNone(env, NewView(run));
    } else {
      var front, e := events[..|events| - 1], events[|events| - 1];
      assert events == front + [e];
      AcceptRunConcat(env, NewView(run), front, [e]);
      var u := AcceptRunAll(env, NewView(run), front).value;
      AcceptRunOne(env, u, e);
      RunAccounts(env, run, front, u);
      ToolsMore(env, u, front, e, v);
      TextMore(env, u, front, e, v);
      BudgetMore(env, u, front, e, v);
    }
  }

  lemma AcceptRunNone(env: Env, v: RunView)
    ensures AcceptRunAll(env, v, []) == Some(v)
  {
  }

  // ----- the run that is open at the end of a stream -----

  /** The events, since its last RUN_STARTED, of the run that thread t has open at the end of the stream. */
  function OpenRunEvents(events: seq<Event>, t: ThreadId): seq<Event> {
    if events == [] then []
    else
      var front, e := events[..|events| - 1], events[|events| - 1];
      if e.thread != t || e.Card? || e.Custom? then OpenRunEvents(front, t)
      else if e.RunOpened? || e.RunClosed? then []
      else OpenRunEvents(front, t) + [e]
  }

  /** What the client holds for an open run is a replay of that run's own events. */
  lemma {:induction false} ReplaysRun(env: Env, events: seq<Event>, c: Client, t: ThreadId)
    requires Accept(env, map[], events) == Some(c) && t in c
    ensures AcceptRunAll(env, NewView(c[t].run), OpenRunEvents(events, t)) == Some(c[t])
    decreases |events|
  {
    hide AcceptRun, AcceptRunAll, Accept;
    if events == [] {
      AcceptNothing(env);
    } else {
      var front, e := events[..|events| - 1], events[|events| - 1];
      assert events == front + [e];
      AcceptConcat(env, map[], front, [e]);
      var b := Accept(env, map[], front).value;
      AcceptOne(env, b, e);
      if e.thread == t && !e.Card? && !e.Custom? {
        if e.RunOpened? {
          AcceptRunNone(env, NewView(c[t].run));
        } else {
          ReplaysRun(env, front, b, t);
          RunStays(env, b, e, c);
          AcceptRunConcat(env, NewView(c[t].run), OpenRunEvents(front, t), [e]);
          AcceptRunOne(env, b[t], e);
        }
      } else {
        OtherThread(env, b, e, c, t);
        ReplaysRun(env, front, b, t);
      }
    }
  }

  lemma AcceptNothing(env: Env)
    ensures Accept(env, map[], []) == Some(map[])
  {
  }

  lemma RunStays(env: Env, b: Client, e: Event, c: Client)
    requires Accept1(env, b, e) == Some(c) && !e.Card? && !e.Custom? && !e.RunOpened? && e.thread in c
    ensures !e.RunClosed? && e.thread in b && AcceptRun(env, b[e.thread], e) == Some(c[e.thread])
        && c[e.thread].run == b[e.thread].run
  {
    AcceptRunKeepsId(env, b[e.thread], e);
    hide AcceptRun;
  }

  lemma OtherThread(env: Env, b: Client, e: Event, c: Client, t: ThreadId)
    requires Accept1(env, b, e) == Some(c) && (e.thread != t || e.Card? || e.Custom?) && t in c
    ensures t in b && b[t] == c[t]
  {
    hide AcceptRun;
  }

  // ----- the projector's stream -----

  /** Every run of the stream is bracketed when it ends. */
  ghost predicate Bracketed(events: seq<Event>) {
    forall id ::
      && Count(events, StartTool, id) <= 1
      && Count(events, EndTool, id) <= Count(events, StartTool, id)
      && (Count(events, Mark, id) == 0 ==> Count(events, EndTool, id) == Count(events, StartTool, id))
      && Count(events, StartText, id) == Count(events, EndText, id)
      && Count(events, StartReasoning, id) == Count(events, EndReasoning, id)
      && Count(events, Notice, id) <= 1
      && Utf8.Size(Delivery(events, id)) <= MAX_MESSAGE_TOTAL_BYTES
  }

  lemma SettledIsBracketed(v: RunView, events: seq<Event>)
    requires Accounts(v, events) && v.Settled()
    ensures Bracketed(events)
  {
    hide Count, Delivery, Utf8.Size;
  }

  /** When the stream closes a run: the run it closes is the one its thread has open, every message that
      started has ended, every tool call started at most once and, unless it became a card, ended exactly
      as often as it started, and no message got more than its budget or more than one notice. */
  lemma RunsEndBracketed(env: Env, inputs: seq<Input>, k: nat)
    requires env.Valid() && NeverStale(env, inputs)
    requires k < |Run(env, inputs).events| && Run(env, inputs).events[k].RunClosed?
    ensures var events := Run(env, inputs).events;
            Bracketed(OpenRunEvents(events[..k], events[k].thread))
  {
    hide Run, Accept, AcceptRunAll, NeverStale, Accounts, Bracketed;
    var events := Run(env, inputs).events;
    StreamAcceptedIff(env, inputs);
    var front, e, rest := events[..k], events[k], events[k + 1..];
    assert events == front + ([e] + rest);
    AcceptConcat(env, map[], front, [e] + rest);
    var c := Accept(env, map[], front).value;
    AcceptConcat(env, c, [e], rest);
    AcceptOne(env, c, e);
    ReplaysRun(env, front, c, e.thread);
    RunAccounts(env, c[e.thread].run, OpenRunEvents(front, e.thread), c[e.thread]);
    SettledIsBracketed(c[e.thread], OpenRunEvents(front, e.thread));
  }

  /** The run that thread t has open at the end of the stream, going by RUN_STARTED and the terminal events alone. */
  function OpenRun(events: seq<Event>, t: ThreadId): Option<RunId> {
    if events == [] then None
    else
      var e := events[|events| - 1];
      if e.RunOpened? && e.thread == t then Some(e.run)
      else if e.RunClosed? && e.thread == t then None
      else OpenRun(events[..|events| - 1], t)
  }

  lemma {:induction false} ClientKnowsOpenRun(env: Env, events: seq<Event>, c: Client, t: ThreadId)
    requires Accept(env, map[], events) == Some(c)
    ensures OpenRun(events, t) == if t in c then Some(c[t].run) else None
    decreases |events|
  {
    hide AcceptRun, Accept;
    if events == [] {
      AcceptNothing(env);
    } else {
      var front, e := events[..|events| - 1], events[|events| - 1];
      assert events == front + [e];
      AcceptConcat(env, map[], front, [e]);
      var b := Accept(env, map[], front).value;
      AcceptOne(env, b, e);
      ClientKnowsOpenRun(env, front, b, t);
      if e.thread in b {
        AcceptRunKeepsId(env, b[e.thread], e);
      }
    }
  }

  /** On each thread, runs open and close in turn with matching ids, and every message and tool event
      carries the id of the run that is open. */
  lemma RunsAlternate(env: Env, inputs: seq<Input>, k: nat)
    requires env.Valid() && NeverStale(env, inputs) && k < |Run(env, inputs).events|
    ensures var events := Run(env, inputs).events;
            var e := events[k];
            var current := OpenRun(events[..k], e.thread);
            && (e.RunOpened? ==> current.None?)
            && (!e.RunOpened? && !e.Card? && !e.Custom? ==> current == Some(e.run))
  {
    hide Run, Accept, AcceptRun, NeverStale, OpenRun;
    var events := Run(env, inputs).events;
    StreamAcceptedIff(env, inputs);
    var front, e, rest := events[..k], events[k], events[k + 1..];
    assert events == front + ([e] + rest);
    AcceptConcat(env, map[], front, [e] + rest);
    var c := Accept(env, map[], front).value;
    AcceptConcat(env, c, [e], rest);
    AcceptOne(env, c, e);
    ClientKnowsOpenRun(env, front, c, e.thread);
  }

  /** The events of an open run, counted, against the projector's record of it: the messages started and
      not ended are the open user and agent messages, reasoning likewise; a tool that is not a card has
      started exactly once and ended exactly when the record says so; and no other tool has started. */
  lemma OpenRunExact(env: Env, inputs: seq<Input>, t: ThreadId, id: string)
    requires env.Valid() && NeverStale(env, inputs) && t in Run(env, inputs).core.runs
    ensures var r := Run(env, inputs).core.runs[t];
            var events := OpenRunEvents(Run(env, inputs).events, t);
            && Count(events, StartText, id) ==
                Count(events, EndText, id) + One(r.user == Some(id)) + One(r.message == Some(id))
            && Count(events, StartReasoning, id) == Count(events, EndReasoning, id) + One(r.reasoning == Some(id))
            && (id in r.tools && !r.tools[id].card ==>
                  Count(events, StartTool, id) == 1 && Count(events, EndTool, id) == One(r.tools[id].ended))
            && (id !in r.tools ==> Count(events, StartTool, id) == 0)
            && Count(events, Notice, id) == One(id in r.truncated)
  {
    hide Run, Accept, AcceptRunAll, NeverStale, RunRel, Count;
    var out := Run(env, inputs);
    ClientInStep(env, inputs);
    var c := Accept(env, map[], out.events).value;
    RunsRelAt(out.core.runs, c, t);
    ReplaysRun(env, out.events, c, t);
    RunAccounts(env, c[t].run, OpenRunEvents(out.events, t), c[t]);
    RecordExact(out.core.runs[t], c[t], OpenRunEvents(out.events, t), id);
  }

  lemma RecordExact(r: RunState, v: RunView, events: seq<Event>, id: string)
    requires RunRel(r, v) && Accounts(v, events)
    ensures Count(events, StartText, id) ==
        Count(events, EndText, id) + One(r.user == Some(id)) + One(r.message == Some(id))
    ensures Count(events, StartReasoning, id) == Count(events, EndReasoning, id) + One(r.reasoning == Some(id))
    ensures id in r.tools && !r.tools[id].card ==>
              Count(events, StartTool, id) == 1 && Count(events, EndTool, id) == One(r.tools[id].ended)
    ensures id !in r.tools ==> Count(events, StartTool, id) == 0
    ensures Count(events, Notice, id) == One(id in r.truncated)
  {
    hide Count, BytesRel, BudgetCounted;
    assert Count(events, Notice, id) == One(id in v.noticed) by { NoticesCounted(v, events, id); }
    if id in r.tools {
      assert ToolRel(r.tools[id], v.tools[id]);
    }
  }

  lemma NoticesCounted(v: RunView, events: seq<Event>, id: string)
    requires BudgetCounted(v, events)
    ensures Count(events, Notice, id) == One(id in v.noticed)
  {
    hide Count, Delivery;
  }

  // ----- at every point of the stream -----

  /** A thread without an open run has no run events pending. */
  lemma {:induction false} ClosedHasNoEvents(env: Env, events: seq<Event>, c: Client, t: ThreadId)
    requires Accept(env, map[], events) == Some(c) && t !in c
    ensures OpenRunEvents(events, t) == []
    decreases |events|
  {
    hide AcceptRun, Accept;
    if events == [] {
    } else {
      var front, e := events[..|events| - 1], events[|events| - 1];
      assert events == front + [e];
      AcceptConcat(env, map[], front, [e]);
      var b := Accept(env, map[], front).value;
      AcceptOne(env, b, e);
      if t !in b {
        ClosedHasNoEvents(env, front, b, t);
      }
    }
  }

  /** The events of the open run of t after any number of stream events, as the client has accepted them. */
  lemma PrefixAccepted(env: Env, inputs: seq<Input>, k: nat) returns (c: Client)
    requires env.Valid() && NeverStale(env, inputs) && k <= |Run(env, inputs).events|
    ensures var events := Run(env, inputs).events;
            && Accept(env, map[], events[..k]) == Some(c)
            && (k < |events| ==> Accept1(env, c, events[k]).Some?)
  {
    hide Run, Accept, Accept1, NeverStale;
    var events := Run(env, inputs).events;
    StreamAcceptedIff(env, inputs);
    assert events == events[..k] + events[k..];
    AcceptConcat(env, map[], events[..k], events[k..]);
    c := Accept(env, map[], events[..k]).value;
    if k < |events| {
      assert events[k..] == [events[k]] + events[k + 1..];
      AcceptConcat(env, c, [events[k]], events[k + 1..]);
      AcceptOne(env, c, events[k]);
    }
  }

  lemma OpenRunAccounts(env: Env, events: seq<Event>, c: Client, t: ThreadId)
    requires Accept(env, map[], events) == Some(c)
    ensures t in c ==> Accounts(c[t], OpenRunEvents(events, t))
    ensures t !in c ==> OpenRunEvents(events, t) == []
  {
    hide Accept, Accounts, AcceptRunAll, OpenRunEvents;
    if t in c {
      ReplaysRun(env, events, c, t);
      RunAccounts(env, c[t].run, OpenRunEvents(events, t), c[t]);
    } else {
      ClosedHasNoEvents(env, events, c, t);
    }
  }

  lemma AccountsInOrder(v: RunView, events: seq<Event>, id: string)
    requires Accounts(v, events)
    ensures Count(events, StartTool, id) <= 1 && Count(events, EndTool, id) <= Count(events, StartTool, id)
    ensures Count(events, EndText, id) <= Count(events, StartText, id)
    ensures Count(events, EndReasoning, id) <= Count(events, StartReasoning, id) <= Count(events, EndReasoning, id) + 1
  {
    hide Count, BudgetCounted;
  }

  /** At every point of the stream, and for every thread: no end comes before its start, and no tool call
      starts twice. */
  lemma NeverEndsBeforeStart(env: Env, inputs: seq<Input>, k: nat, t: ThreadId, id: string)
    requires env.Valid() && NeverStale(env, inputs) && k <= |Run(env, inputs).events|
    ensures var own := OpenRunEvents(Run(env, inputs).events[..k], t);
            && Count(own, StartTool, id) <= 1 && Count(own, EndTool, id) <= Count(own, StartTool, id)
            && Count(own, EndText, id) <= Count(own, StartText, id)
            && Count(own, EndReasoning, id) <= Count(own, StartReasoning, id) <= Count(own, EndReasoning, id) + 1
  {
    hide Run, Accept, NeverStale, Accounts, OpenRunEvents;
    var events := Run(env, inputs).events[..k];
    var c := PrefixAccepted(env, inputs, k);
    OpenRunAccounts(env, events, c, t);
    if t in c {
      AccountsInOrder(c[t], OpenRunEvents(events, t), id);
    }
  }

  /** The event is content or an end, and finds what it is about open. */
  ghost predicate FindsOpen(own: seq<Event>, e: Event) {
    && (e.TextContent? || e.TextEnd? ==> Count(own, StartText, e.id) > Count(own, EndText, e.id))
    && (e.ReasoningContent? || e.ReasoningEnd? ==> Count(own, StartReasoning, e.id) > Count(own, EndReasoning, e.id))
    && (e.ToolArgs? || e.ToolEnd? || e.ToolResult? ==> Count(own, StartTool, e.tool) == 1)
    && (e.ToolArgs? || e.ToolEnd? ==> Count(own, EndTool, e.tool) == 0)
  }

  lemma AcceptedFindsOpen(env: Env, v: RunView, own: seq<Event>, e: Event)
    requires Accounts(v, own) && AcceptRun(env, v, e).Some?
    ensures FindsOpen(own, e)
  {
    hide Count, BudgetCounted, AcceptChunk, Utf8.Size;
  }

  /** Content and ends target only what is open: a message that has started more often than it has ended,
      or a tool call that has started and, but for results, has not ended. */
  lemma ContentTargetsOpen(env: Env, inputs: seq<Input>, k: nat)
    requires env.Valid() && NeverStale(env, inputs) && k < |Run(env, inputs).events|
    ensures var events := Run(env, inputs).events;
            FindsOpen(OpenRunEvents(events[..k], events[k].thread), events[k])
  {
    hide Run, Accept, AcceptRun, NeverStale, Accounts, OpenRunEvents;
    var events := Run(env, inputs).events;
    var e := events[k];
    var c := PrefixAccepted(env, inputs, k);
    OpenRunAccounts(env, events[..k], c, e.thread);
    if !e.Card? && !e.Custom? && !e.RunOpened? && !e.RunClosed? {
      AcceptedFindsOpen(env, c[e.thread], OpenRunEvents(events[..k], e.thread), e);
    }
  }

  // ----- tools that are cards before they are rows -----

  /** Arguments, ends and results of a tool only ever follow its start. */
  lemma {:induction false} FedIsStarted(env: Env, run: RunId, events: seq<Event>, v: RunView, tool: ToolId)
    requires AcceptRunAll(env, NewView(run), events) == Some(v)
    ensures Count(events, StartTool, tool) == 0 ==>
              Count(events, ArgsTool, tool) == 0 && Count(events, EndTool, tool) == 0
                  && Count(events, ResultTool, tool) == 0
    decreases |events|
  {
    hide AcceptRun, AcceptRunAll, Accounts;
    if events == [] {
    } else {
      var front, e := events[..|events| - 1], events[|events| - 1];
      assert events == front + [e];
      AcceptRunConcat(env, NewView(run), front, [e]);
      var u := AcceptRunAll(env, NewView(run), front).value;
      AcceptRunOne(env, u, e);
      FedIsStarted(env, run, front, u, tool);
      RunAccounts(env, run, front, u);
      AcceptedFindsOpen(env, u, front, e);
    }
  }

  lemma UnstartedStays(env: Env, v: RunView, e: Event, w: RunView, tool: ToolId)
    requires AcceptRun(env, v, e) == Some(w) && tool in v.tools && !v.tools[tool].started
    ensures tool in w.tools && !w.tools[tool].started
  {
    hide AcceptChunk, Utf8.Size;
    if e.StructuredChunk? {
      ChunkMoves(env, v, e, w, tool);
    }
  }

  lemma {:induction false} NeverStarts(env: Env, v: RunView, events: seq<Event>, w: RunView, tool: ToolId)
    requires AcceptRunAll(env, v, events) == Some(w) && tool in v.tools && !v.tools[tool].started
    ensures tool in w.tools && !w.tools[tool].started
    decreases |events|
  {
    hide AcceptRun;
    if events == [] {
    } else {
      var u := AcceptRun(env, v, events[0]).value;
      UnstartedStays(env, v, events[0], u, tool);
      NeverStarts(env, u, events[1..], w, tool);
    }
  }

  lemma ToolsCountedAt(v: RunView, events: seq<Event>, tool: ToolId)
    requires Accounts(v, events)
    ensures Count(events, StartTool, tool) == One(tool in v.tools && v.tools[tool].started)
    ensures Count(events, EndTool, tool) == One(tool in v.tools && v.tools[tool].ended)
    ensures Count(events, Mark, tool) == One(tool in v.tools && v.tools[tool].card)
  {
    hide Count, TextCounted, ReasoningCounted, BudgetCounted;
  }

  /** Within one run: a tool marked as a card before it started never starts. */
  lemma MarkedFirstNeverStarts(env: Env, run: RunId, events: seq<Event>, v: RunView, j: nat, tool: ToolId)
    requires AcceptRunAll(env, NewView(run), events) == Some(v)
    requires j < |events| && Is(events[j], Mark, tool) && Count(events[..j], StartTool, tool) == 0
    ensures Count(events, StartTool, tool) == 0
  {
    hide AcceptRunAll, Accounts, Count;
    var a, b := events[..j + 1], events[j + 1..];
    assert events == a + b && a == events[..j] + [events[j]];
    AcceptRunConcat(env, NewView(run), a, b);
    var u := AcceptRunAll(env, NewView(run), a).value;
    RunAccounts(env, run, a, u);
    CountMore(events[..j], events[j], StartTool, tool);
    CountMore(events[..j], events[j], Mark, tool);
    ToolsCountedAt(u, a, tool);
    NeverStarts(env, u, b, v, tool);
    RunAccounts(env, run, events, v);
    ToolsCountedAt(v, events, tool);
  }

  /** No tool-call event of the tool. */
  predicate NoToolCall(events: seq<Event>, tool: ToolId) {
    && Count(events, StartTool, tool) == 0 && Count(events, ArgsTool, tool) == 0
    && Count(events, EndTool, tool) == 0 && Count(events, ResultTool, tool) == 0
  }

  /** At every point of the stream, and so also where the run closes: a tool that became a card before it
      started has emitted no tool-call event in its run. */
  lemma CardsStaySilent(env: Env, inputs: seq<Input>, k: nat, t: ThreadId, j: nat, tool: ToolId)
    requires env.Valid() && NeverStale(env, inputs) && k <= |Run(env, inputs).events|
    requires var own := OpenRunEvents(Run(env, inputs).events[..k], t);
             j < |own| && Is(own[j], Mark, tool) && Count(own[..j], StartTool, tool) == 0
    ensures NoToolCall(OpenRunEvents(Run(env, inputs).events[..k], t), tool)
  {
    hide Run, Accept, NeverStale, AcceptRunAll, OpenRunEvents, Count;
    var events := Run(env, inputs).events[..k];
    var c := PrefixAccepted(env, inputs, k);
    OpenRunAccounts(env, events, c, t);
    ReplaysRun(env, events, c, t);
    MarkedFirstNeverStarts(env, c[t].run, OpenRunEvents(events, t), c[t], j, tool);
    FedIsStarted(env, c[t].run, OpenRunEvents(events, t), c[t], tool);
  }
}
