/** Which calls can change what a client holds of one message or one tool: only those that name it. */
module AgUiCalm {
  import opened Wrappers
  import opened AgUiTypes
  import opened AgUiClient
  import opened AgUiRun
  import opened AgUiCore
  import opened AgUiStream
  import Utf8

  /** A message or a tool of a run. */
  datatype Subject = OfMessage(id: MessageId) | OfTool(tool: ToolId)

  const TOOL_TEXT: string := "dappercode.dev/tool-text"

  /** The event is about the subject, on thread t. */
  predicate Touches(e: Event, t: ThreadId, x: Subject) {
    && !e.Card? && !e.Custom? && e.thread == t
    && match x
       case OfMessage(id) => (e.TextContent? || e.ReasoningContent? || e.Truncated?) && e.id == id
       case OfTool(tool) =>
         || ((e.ToolStart? || e.ToolArgs? || e.ToolEnd? || e.ToolResult? || e.Classified?) && e.tool == tool)
         || (e.Structured? && e.payload.ToolText? && e.payload.tool == tool)
         || (e.StructuredChunk? && e.name == TOOL_TEXT && e.canonicalId == tool)
  }

  predicate Opens(events: seq<Event>, t: ThreadId) {
    exists e :: e in events && e.RunOpened? && e.thread == t
  }

  predicate Closes(events: seq<Event>, t: ThreadId) {
    exists e :: e in events && e.RunClosed? && e.thread == t
  }

  /** Nothing touches the subject but the end of a tool call, and that is followed by the end of the run. */
  predicate Calm(events: seq<Event>, t: ThreadId, x: Subject) {
    || events == []
    || ((Touches(events[0], t, x) ==> events[0].ToolEnd? && Closes(events[1..], t)) && Calm(events[1..], t, x))
  }

  /** Nothing touches the subject but the end of a tool call. */
  ghost predicate Mute(events: seq<Event>, t: ThreadId, x: Subject) {
    forall e :: e in events && Touches(e, t, x) ==> e.ToolEnd?
  }

  lemma {:induction false} CalmIsMute(events: seq<Event>, t: ThreadId, x: Subject)
    requires Calm(events, t, x)
    ensures Mute(events, t, x)
  {
    hide Touches;
    if events == [] {
    } else {
      CalmIsMute(events[1..], t, x);
    }
  }

  lemma {:induction false} CalmConcat(a: seq<Event>, b: seq<Event>, t: ThreadId, x: Subject)
    requires Calm(a, t, x) && Calm(b, t, x)
    ensures Calm(a + b, t, x)
  {
    hide Touches;
    if a == [] {
      assert a + b == b;
    } else {
      assert (a + b)[1..] == a[1..] + b;
      CalmConcat(a[1..], b, t, x);
    }
  }

  lemma {:induction false} UntouchedIsCalm(events: seq<Event>, t: ThreadId, x: Subject)
    requires forall e :: e in events ==> !Touches(e, t, x)
    ensures Calm(events, t, x)
  {
    hide Touches;
    if events == [] {
    } else {
      UntouchedIsCalm(events[1..], t, x);
    }
  }

  /** Ends of tool calls are calm if they end the run. */
  lemma {:induction false} EndingIsCalm(events: seq<Event>, closed: Event, t: ThreadId, x: Subject)
    requires closed.RunClosed? && closed.thread == t && Mute(events, t, x)
    ensures Calm(events + [closed], t, x)
  {
    hide Touches;
    if events == [] {
      assert events + [closed] == [closed] && [closed][1..] == [];
      assert !Touches(closed, t, x) by { ClosingTouchesNothing(closed, t, x); }
    } else {
      EndingIsCalm(events[1..], closed, t, x);
      var rest := events[1..] + [closed];
      assert (events + [closed])[1..] == rest;
      assert rest[|rest| - 1] in rest;
    }
  }

  lemma ClosingTouchesNothing(e: Event, t: ThreadId, x: Subject)
    requires e.RunClosed? || e.RunOpened?
    ensures !Touches(e, t, x)
  {
  }

  // ----- the client -----

  /** The two views hold the same of the subject. */
  ghost predicate SameOf(v: RunView, w: RunView, x: Subject) {
    match x
    case OfMessage(id) => w.Delivered(id) == v.Delivered(id) && (id in w.noticed <==> id in v.noticed)
    case OfTool(tool) => (tool in w.tools <==> tool in v.tools) && (tool in v.tools ==> w.tools[tool] == v.tools[tool])
  }

  /** The view holds nothing of the subject. */
  ghost predicate Blank(v: RunView, x: Subject) {
    match x
    case OfMessage(id) => v.Delivered(id) == "" && id !in v.noticed
    case OfTool(tool) => tool !in v.tools
  }

  lemma ChunkElsewhere(env: Env, v: RunView, e: Event, w: RunView, t: ThreadId, x: Subject)
    requires e.StructuredChunk? && AcceptChunk(env, v, e) == Some(w) && e.thread == t && !Touches(e, t, x)
    ensures SameOf(v, w, x)
  {
    assert |TOOL_TEXT| != |"dappercode.dev/message-content"|;
  }

  lemma EventElsewhere(env: Env, v: RunView, e: Event, w: RunView, t: ThreadId, x: Subject)
    requires AcceptRun(env, v, e) == Some(w) && e.thread == t && !Touches(e, t, x)
    ensures SameOf(v, w, x)
  {
    hide AcceptChunk, Utf8.Size;
    if e.StructuredChunk? {
      ChunkElsewhere(env, v, e, w, t, x);
    }
  }

  lemma ClientElsewhere(env: Env, c: Client, e: Event, c': Client, t: ThreadId, x: Subject)
    requires Accept1(env, c, e) == Some(c') && !Touches(e, t, x)
    requires t in c' && !(e.RunOpened? && e.thread == t)
    ensures t in c && !(e.RunClosed? && e.thread == t) && SameOf(c[t], c'[t], x)
  {
    hide AcceptRun, Touches;
    if e.thread == t && t in c && AcceptRun(env, c[t], e).Some? {
      EventElsewhere(env, c[t], e, AcceptRun(env, c[t], e).value, t, x);
    }
  }

  /** What the client holds of the subject after calm events: nothing, if they opened the run, and what it
      held before, if not. */
  lemma {:induction false} AcceptCalm(env: Env, c: Client, events: seq<Event>, c': Client, t: ThreadId, x: Subject)
    requires Accept(env, c, events) == Some(c') && Calm(events, t, x) && t in c'
    ensures Opens(events, t) ==> Blank(c'[t], x)
    ensures !Opens(events, t) ==> !Closes(events, t) && t in c && SameOf(c[t], c'[t], x)
    decreases |events|
  {
    hide Touches, SameOf, Blank, Accept1;
    if events == [] {
      SameRefl(c[t], x);
    } else {
      var e, rest := events[0], events[1..];
      var c1 := Accept1(env, c, e).value;
      AcceptCalm(env, c1, rest, c', t, x);
      assert forall d :: d in events <==> d == e || d in rest;
      if !Opens(rest, t) {
        if e.RunOpened? && e.thread == t {
          OpenedBlank(env, c, e, c1, x);
          SameBlank(c1[t], c'[t], x);
        } else {
          StaysInClient(env, c, e, c1, t);
          if !Closes(rest, t) {
            ClientElsewhere(env, c, e, c1, t, x);
            SameTrans(c[t], c1[t], c'[t], x);
          }
        }
      }
    }
  }

  lemma StaysInClient(env: Env, c: Client, e: Event, c': Client, t: ThreadId)
    requires Accept1(env, c, e) == Some(c') && t in c' && !(e.RunOpened? && e.thread == t)
    ensures t in c && !(e.RunClosed? && e.thread == t)
  {
    hide AcceptRun;
  }

  lemma OpenedBlank(env: Env, c: Client, e: Event, c': Client, x: Subject)
    requires Accept1(env, c, e) == Some(c') && e.RunOpened?
    ensures e.thread in c' && Blank(c'[e.thread], x)
  {
  }

  lemma SameRefl(v: RunView, x: Subject)
    ensures SameOf(v, v, x)
  {
  }

  lemma SameTrans(u: RunView, v: RunView, w: RunView, x: Subject)
    requires SameOf(u, v, x) && SameOf(v, w, x)
    ensures SameOf(u, w, x)
  {
  }

  lemma SameBlank(v: RunView, w: RunView, x: Subject)
    requires SameOf(v, w, x) && Blank(v, x)
    ensures Blank(w, x)
  {
  }

  /** The two views hold the same of the subject, but for the end of the tool call. */
  ghost predicate SameButEnd(v: RunView, w: RunView, x: Subject) {
    match x
    case OfMessage(_) => SameOf(v, w, x)
    case OfTool(tool) =>
      && (tool in w.tools <==> tool in v.tools)
      && (tool in v.tools ==> w.tools[tool] == v.tools[tool].(ended := w.tools[tool].ended))
  }

  lemma EndOnly(env: Env, v: RunView, e: Event, w: RunView, t: ThreadId, x: Subject)
    requires AcceptRun(env, v, e) == Some(w) && e.thread == t && (Touches(e, t, x) ==> e.ToolEnd?)
    ensures SameButEnd(v, w, x)
  {
    hide AcceptChunk, Utf8.Size;
    if !Touches(e, t, x) {
      EventElsewhere(env, v, e, w, t, x);
    }
  }

  lemma ClientEndOnly(env: Env, c: Client, e: Event, c': Client, t: ThreadId, x: Subject)
    requires Accept1(env, c, e) == Some(c') && (Touches(e, t, x) ==> e.ToolEnd?)
    requires t in c' && !(e.RunOpened? && e.thread == t)
    ensures t in c && SameButEnd(c[t], c'[t], x)
  {
    hide AcceptRun, Touches;
    if e.thread == t && t in c && AcceptRun(env, c[t], e).Some? {
      EndOnly(env, c[t], e, AcceptRun(env, c[t], e).value, t, x);
    }
  }

  lemma ButEndTrans(u: RunView, v: RunView, w: RunView, x: Subject)
    requires SameButEnd(u, v, x) && SameButEnd(v, w, x)
    ensures SameButEnd(u, w, x)
  {
  }

  lemma ButEndBlank(v: RunView, w: RunView, x: Subject)
    requires SameButEnd(v, w, x) && Blank(v, x)
    ensures Blank(w, x)
  {
  }

  lemma ButEndRefl(v: RunView, x: Subject)
    ensures SameButEnd(v, v, x)
  {
  }

  /** The same at any point within such events, where a tool call may have ended and the run not yet. */
  lemma {:induction false} AcceptMute(env: Env, c: Client, events: seq<Event>, c': Client, t: ThreadId, x: Subject)
    requires Accept(env, c, events) == Some(c') && Mute(events, t, x) && t in c'
    ensures Opens(events, t) ==> Blank(c'[t], x)
    ensures !Opens(events, t) ==> t in c && SameButEnd(c[t], c'[t], x)
    decreases |events|
  {
    hide Touches, SameButEnd, Blank, Accept1;
    if events == [] {
      ButEndRefl(c[t], x);
    } else {
      var e, rest := events[0], events[1..];
      var c1 := Accept1(env, c, e).value;
      AcceptMute(env, c1, rest, c', t, x);
      assert forall d :: d in events <==> d == e || d in rest;
      if !Opens(rest, t) {
        if e.RunOpened? && e.thread == t {
          OpenedBlank(env, c, e, c1, x);
          ButEndBlank(c1[t], c'[t], x);
        } else {
          ClientEndOnly(env, c, e, c1, t, x);
          ButEndTrans(c[t], c1[t], c'[t], x);
        }
      }
    }
  }

  // ----- the projector -----

  /** The call is a chunk of the message or an update of the tool. */
  predicate Names(i: Input, t: ThreadId, x: Subject) {
    i.Observe? && i.event.Thread() == Some(t) &&
    match x
    case OfMessage(id) => i.event.MessageChunk? && i.event.id == id
    case OfTool(tool) => i.event.Tool? && i.event.update.tool == tool
  }

  lemma ElsewhereIsCalm(events: seq<Event>, t: ThreadId, x: Subject)
    requires Elsewhere(events, t)
    ensures Calm(events, t, x)
  {
    UntouchedIsCalm(events, t, x);
  }

  lemma {:induction false} ToolEndsAreEnds(env: Env, t: ThreadId, r: RunState, keys: set<ToolId>, clock: nat)
    requires env.Valid() && keys <= r.tools.Keys
    ensures forall e :: e in ToolEnds(env, t, r, keys, clock) ==> e.ToolEnd?
    decreases keys
  {
    if keys == {} {
    } else {
      ToolEndsAreEnds(env, t, r, keys - {env.pick(clock, keys)}, clock + 1);
    }
  }

  lemma CloseEventsMute(env: Env, at: ThreadId, r: RunState, clock: nat, t: ThreadId, x: Subject)
    requires env.Valid()
    ensures Mute(CloseEvents(env, at, r, clock), t, x)
  {
    hide ToolEnds;
    ToolEndsAreEnds(env, at, r, r.tools.Keys, clock);
  }

  lemma TerminalCalm(env: Env, at: ThreadId, r: RunState, clock: nat, outcome: Outcome, t: ThreadId, x: Subject)
    requires env.Valid()
    ensures Calm(TerminalEvents(env, at, r, clock, outcome), t, x)
  {
    hide CloseEvents;
    if at == t {
      CloseEventsMute(env, at, r, clock, t, x);
      EndingIsCalm(CloseEvents(env, at, r, clock), RunClosed(at, r.run, outcome), t, x);
    } else {
      TerminalElsewhere(env, at, r, clock, outcome, t);
      ElsewhereIsCalm(TerminalEvents(env, at, r, clock, outcome), t, x);
    }
  }

  lemma CloseObservedCalm(env: Env, s: Core, at: ThreadId, t: ThreadId, x: Subject)
    requires env.Valid()
    ensures Calm(CloseObserved(env, s, at).events, t, x)
  {
    hide TerminalEvents;
    if HasObservedRun(s, at) {
      TerminalCalm(env, at, s.runs[at], s.clock, Finished, t, x);
    }
  }

  lemma {:induction false} CloseAllCalm(env: Env, s: Core, threads: seq<ThreadId>, t: ThreadId, x: Subject)
    requires env.Valid()
    ensures Calm(CloseAll(env, s, threads).events, t, x)
    decreases |threads|
  {
    hide CloseObserved;
    if threads == [] {
    } else {
      var o := CloseObserved(env, s, threads[0]);
      CloseObservedCalm(env, s, threads[0], t, x);
      CloseAllCalm(env, o.core, threads[1..], t, x);
      CalmConcat(o.events, CloseAll(env, o.core, threads[1..]).events, t, x);
    }
  }

  lemma {:induction false} EvictCalm(env: Env, s: Core, t: ThreadId, x: Subject)
    requires env.Valid()
    ensures Calm(Evict(env, s).events, t, x)
    decreases |s.observed|
  {
    hide CloseObserved;
    if |s.observed| <= OBSERVED_RUN_CAPACITY {
    } else {
      var oldest, s1 := s.observed[0], s.(observed := s.observed[1..]);
      CloseObservedShrinks(env, s1, oldest);
      CloseObservedCalm(env, s1, oldest, t, x);
      var o := if oldest in s1.runs && s1.runs[oldest].turn.None? then CloseObserved(env, s1, oldest) else Out(s1, []);
      EvictCalm(env, o.core, t, x);
      CalmConcat(o.events, Evict(env, o.core).events, t, x);
    }
  }

  lemma EnsureObservedCalm(
    env: Env, s: Core, at: ThreadId, runRef: Option<RunId>, turnRef: Option<TurnId>, t: ThreadId, x: Subject)
    requires env.Valid()
    ensures Calm(EnsureObserved(env, s, at, runRef, turnRef).events, t, x)
  {
    hide Evict;
    if Observes(s, at, runRef, turnRef) {
      var opening := s.(runs := s.runs[at := NewRun(ObservedRunId(at), None)], observed := s.observed + [at]);
      EvictCalm(env, opening, t, x);
      var last := [RunOpened(at, ObservedRunId(at))];
      UntouchedIsCalm(last, t, x);
      CalmConcat(Evict(env, opening).events, last, t, x);
    }
  }

  lemma {:induction false} TerminalizeShowsCards(
    env: Env, t: ThreadId, r: RunState, keys: set<ToolId>, fallback: string, clock: nat)
    requires env.Valid() && keys <= r.tools.Keys
    ensures forall e :: e in TerminalizeTools(env, t, r, keys, fallback, clock).events ==> e.Card?
    decreases keys
  {
    hide KnownTerminal;
    if keys == {} {
    } else {
      var k := env.pick(clock, keys);
      var ts := r.tools[k];
      if !ts.card || ts.ended {
        TerminalizeShowsCards(env, t, r, keys - {k}, fallback, clock + 1);
      } else {
        var status := KnownTerminal(env, ts).GetOr(fallback);
        var r1 := r.(tools := r.tools[k := ts.(terminalStatus := Some(status), ended := true)]);
        TerminalizeShowsCards(env, t, r1, keys - {k}, fallback, clock + 1);
      }
    }
  }

  lemma EndRunCalm(env: Env, s: Core, at: ThreadId, fallback: string, outcome: Outcome, t: ThreadId, x: Subject)
    requires env.Valid() && at in s.runs
    ensures Calm(EndRun(env, s, at, fallback, outcome).events, t, x)
  {
    hide TerminalizeTools, CloseAll, TerminalEvents;
    var term := SettleSubagents(env, s, at, fallback);
    TerminalizeShowsCards(env, at, s.runs[at], s.runs[at].tools.Keys, fallback, s.clock);
    UntouchedIsCalm(term.events, t, x);
    CloseAllCalm(env, TakeRun(s, at), term.children, t, x);
    var o := CloseChildren(env, s, at, term.children);
    CalmConcat(term.events, o.events, t, x);
    TerminalCalm(env, at, s.runs[at].(tools := term.tools), o.core.clock, outcome, t, x);
    CalmConcat(term.events + o.events,
               TerminalEvents(env, at, s.runs[at].(tools := term.tools), o.core.clock, outcome), t, x);
  }

  lemma ProgressCalm(env: Env, s: Core, e: Canonical, t: ThreadId, x: Subject)
    requires env.Valid()
    ensures Calm(ProjectProgress(env, s, e).events, t, x)
  {
    hide CloseObserved, Render, ProgressOf, Fences, SettleParent, Calm;
    var events := ProjectProgress(env, s, e).events;
    if forall d :: d in events ==> d.Card? {
      UntouchedIsCalm(events, t, x);
    } else {
      var child := e.Thread().value;
      var link, p := s.links[child], ProgressOf(env, e).value;
      var s1 := SettleParent(s, link, p.status).(links := s.links - {child});
      var closing := CloseObserved(env, s1, child).events;
      CloseObservedCalm(env, s1, child, t, x);
      var card := events[0];
      UntouchedIsCalm([card], t, x);
      CalmConcat([card], closing, t, x);
    }
  }

  /** Every event of a tool update is about that tool, or shows its card. */
  ghost predicate AboutTool(events: seq<Event>, t: ThreadId, tool: ToolId) {
    forall e :: e in events ==> e.Card? || Touches(e, t, OfTool(tool))
  }

  lemma {:induction false} ChunkEventsAbout(
    t: ThreadId, run: RunId, p: Payload, revision: Revision, parts: seq<string>, from: nat)
    requires from <= |parts|
    ensures forall e :: e in ChunkEvents(t, run, p, revision, parts, from) ==>
              e.StructuredChunk? && e.thread == t && e.name == p.Name() && e.canonicalId == p.CanonicalId()
    decreases |parts| - from
  {
    if from == |parts| {
    } else {
      ChunkEventsAbout(t, run, p, revision, parts, from + 1);
    }
  }

  lemma StructuredEventsAbout(env: Env, t: ThreadId, run: RunId, p: Payload)
    ensures forall e :: e in StructuredEvents(env, t, run, p) ==>
              && e.thread == t
              && ((e.Structured? && e.payload == p)
                  || (e.StructuredChunk? && e.name == p.Name() && e.canonicalId == p.CanonicalId()))
  {
    hide ChunkEvents;
    var text := env.encode(p);
    if Utf8.Size(text) > STRUCTURED_CHUNK_BYTES {
      ChunkEventsAbout(t, run, p, Sha256(text), Utf8.Chunks(text, STRUCTURED_CHUNK_BYTES), 0);
    }
  }

  lemma {:induction false} ResultEventsAbout(t: ThreadId, run: RunId, tool: ToolId, parts: seq<string>)
    ensures AboutTool(ResultEvents(t, run, tool, parts), t, tool)
  {
    if parts == [] {
    } else {
      ResultEventsAbout(t, run, tool, parts[1..]);
    }
  }

  lemma TextEventsAbout(env: Env, t: ThreadId, run: RunId, ts: ToolState, u: ToolUpdate, previous: Option<string>)
    ensures AboutTool(TextEvents(env, t, run, ts, u, previous), t, u.tool)
  {
    hide StructuredEvents, ResultEvents;
    StructuredEventsAbout(env, t, run, ToolText(u.tool, ts.result));
    if previous.Some? && previous.value <= ts.result {
      ResultEventsAbout(t, run, u.tool, Utf8.Chunks(ts.result[|previous.value|..], TOOL_RESULT_CHUNK_BYTES));
    }
  }

  lemma CardEventsAbout(env: Env, t: ThreadId, run: RunId, ts: ToolState, u: ToolUpdate)
    ensures AboutTool(UnlinkedCard(env, t, run, ts, u).events, t, u.tool)
    ensures forall task, child :: AboutTool(LinkedCard(env, t, run, ts, u, task, child).events, t, u.tool)
  {
    hide RememberedFailure, SnapshotStatus;
  }

  lemma ToolStepAbout(env: Env, t: ThreadId, run: RunId, ts: ToolState, u: ToolUpdate)
    ensures AboutTool(ToolStep(env, t, run, ts, u).events, t, u.tool)
  {
    hide LinkedCard, UnlinkedCard, TextEvents, ApplyText;
    var (ts1, announced) := Announce(env, t, run, ts, u);
    var (ts2, previous) := ApplyText(ts1, u);
    assert AboutTool(announced, t, u.tool);
    CardEventsAbout(env, t, run, ts2, u);
    var carded := match Subagent(env, u.agent, ts2.result)
      case Some(s) => LinkedCard(env, t, run, ts2, u, s.0, s.1)
      case None => UnlinkedCard(env, t, run, ts2, u);
    TextEventsAbout(env, t, run, carded.tool, u, previous);
    hide Announce;
  }

  /** No event of a chunk is about a tool or about another message, and none opens or closes a run. */
  ghost predicate AboutMessage(events: seq<Event>, t: ThreadId, id: MessageId) {
    forall e :: e in events ==>
      && !e.Card? && !e.Custom? && !e.RunOpened? && !e.RunClosed? && e.thread == t
      && (forall tool :: !Touches(e, t, OfTool(tool)))
      && (forall m :: m != id ==> !Touches(e, t, OfMessage(m)))
  }

  lemma {:induction false} ContentEventsAbout(t: ThreadId, run: RunId, reasoning: bool, id: MessageId,
      parts: seq<string>)
    ensures AboutMessage(ContentEvents(t, run, reasoning, id, parts), t, id)
  {
    if parts == [] {
    } else {
      ContentEventsAbout(t, run, reasoning, id, parts[1..]);
    }
  }

  lemma BlockEventsAbout(env: Env, t: ThreadId, run: RunId, id: MessageId, block: Option<Block>)
    ensures AboutMessage(BlockEvents(env, t, run, id, block), t, id)
  {
    hide StructuredEvents;
    if block.Some? {
      StructuredEventsAbout(env, t, run, MessageBlock(id, block.value));
      assert |TOOL_TEXT| != |"dappercode.dev/message-content"|;
    }
  }

  lemma OpenEventsAbout(t: ThreadId, r: RunState, role: Role, id: MessageId)
    ensures AboutMessage(OpenMessage(t, r, role, id).events, t, id)
  {
  }

  lemma ChunkStepAbout(
    env: Env, t: ThreadId, r: RunState, role: Role, id: MessageId, content: string, block: Option<Block>)
    ensures AboutMessage(ChunkStep(env, t, r, role, id, content, block).events, t, id)
  {
    hide BlockEvents, OpenMessage, ContentEvents, Meter, LiveContent, Utf8.Chunks;
    var kept := LiveContent(r, id, content);
    var (r1, notice) := Meter(r, id, content, block);
    BlockEventsAbout(env, t, r.run, id, block);
    OpenEventsAbout(t, r1, role, id);
    ContentEventsAbout(t, r.run, role.Thought?, id, Utf8.Chunks(kept, MESSAGE_CHUNK_BYTES));
    assert AboutMessage([Truncated(t, r.run, id)], t, id);
    hide Touches;
  }

  lemma OtherChunkCalm(events: seq<Event>, at: ThreadId, id: MessageId, t: ThreadId, x: Subject)
    requires AboutMessage(events, at, id) && (t != at || x != OfMessage(id))
    ensures Calm(events, t, x)
  {
    forall e | e in events
      ensures !Touches(e, t, x)
    {
      assert e.thread == at;
      match x
      case OfMessage(m) => assert t == at ==> !Touches(e, at, OfMessage(m));
      case OfTool(tool) => assert !Touches(e, at, OfTool(tool));
    }
    UntouchedIsCalm(events, t, x);
  }

  lemma OtherToolCalm(events: seq<Event>, at: ThreadId, tool: ToolId, t: ThreadId, x: Subject)
    requires AboutTool(events, at, tool) && (t != at || x != OfTool(tool))
    ensures Calm(events, t, x)
  {
    forall e | e in events
      ensures !Touches(e, t, x)
    {
      assert e.Card? || Touches(e, at, OfTool(tool));
    }
    UntouchedIsCalm(events, t, x);
  }

  lemma SettleChildCalm(
    env: Env, s: Core, at: ThreadId, run: RunId, tool: ToolId, out: ToolOut, t: ThreadId, x: Subject)
    requires env.Valid()
    ensures Calm(SettleChild(env, s, at, run, tool, out).events, t, x)
  {
    hide CloseObserved, Relink;
    if out.finished.Some? {
      CloseObservedCalm(env, s.(links := s.links - {out.finished.value}), out.finished.value, t, x);
    }
  }

  lemma ChunkArmCalm(env: Env, s: Core, e: Canonical, t: ThreadId, x: Subject)
    requires env.Valid() && e.MessageChunk? && !Names(Observe(e), t, x)
    ensures Calm(OnChunk(env, s, e).events, t, x)
  {
    hide EnsureObserved, ChunkStep, Calm;
    if e.content == "" && e.block.None? {
      UntouchedIsCalm([], t, x);
    } else {
      var o := EnsureObserved(env, s, e.thread, e.runRef, e.turnRef);
      EnsureObservedCalm(env, s, e.thread, e.runRef, e.turnRef, t, x);
      if Addresses(o.core, e.thread, e.runRef, e.turnRef) {
        var step := ChunkStep(env, e.thread, o.core.runs[e.thread], e.role, e.id, e.content, e.block);
        ChunkStepAbout(env, e.thread, o.core.runs[e.thread], e.role, e.id, e.content, e.block);
        OtherChunkCalm(step.events, e.thread, e.id, t, x);
        CalmConcat(o.events, step.events, t, x);
      }
    }
  }

  lemma ToolArmCalm(env: Env, s: Core, e: Canonical, t: ThreadId, x: Subject)
    requires env.Valid() && e.Tool? && !Names(Observe(e), t, x)
    ensures Calm(OnTool(env, s, e).events, t, x)
  {
    hide EnsureObserved, ToolStep, SettleChild, Calm;
    var at, u := e.thread, e.update;
    var o := EnsureObserved(env, s, at, e.runRef, e.turnRef);
    EnsureObservedCalm(env, s, at, e.runRef, e.turnRef, t, x);
    if Addresses(o.core, at, e.runRef, e.turnRef) {
      var r := o.core.runs[at];
      var step := ToolStep(env, at, r.run, ToolAt(r, u.tool), u);
      var s1 := o.core.(runs := o.core.runs[at := r.(tools := r.tools[u.tool := step.tool])]);
      ToolStepAbout(env, at, r.run, ToolAt(r, u.tool), u);
      OtherToolCalm(step.events, at, u.tool, t, x);
      CalmConcat(o.events, step.events, t, x);
      SettleChildCalm(env, s1, at, r.run, u.tool, step, t, x);
      CalmConcat(o.events + step.events, SettleChild(env, s1, at, r.run, u.tool, step).events, t, x);
    }
  }

  lemma RunStartedCalm(env: Env, s: Core, at: ThreadId, run: RunId, turn: TurnId, t: ThreadId, x: Subject)
    requires env.Valid()
    ensures Calm(OnRunStarted(env, s, at, run, turn).events, t, x)
  {
    hide EndRun, Calm;
    var s1 := s.(closed := s.closed - {at});
    var opening := [RunOpened(at, run)];
    UntouchedIsCalm(opening, t, x);
    if at in s1.runs {
      EndRunCalm(env, s1, at, "failed", Superseded, t, x);
      CalmConcat(EndRun(env, s1, at, "failed", Superseded).events, opening, t, x);
    } else {
      assert [] + opening == opening;
    }
  }

  lemma RunEndedCalm(
    env: Env, s: Core, at: ThreadId, run: RunId, fallback: string, outcome: Outcome, t: ThreadId, x: Subject)
    requires env.Valid()
    ensures Calm(OnRunEnded(env, s, at, run, fallback, outcome).events, t, x)
  {
    hide EndRun, MarkClosed, DropLinks;
    if at in s.runs && s.runs[at].run == run {
      EndRunCalm(env, s, at, fallback, outcome, t, x);
    }
  }

  lemma DispatchCalm(env: Env, s: Core, e: Canonical, t: ThreadId, x: Subject)
    requires env.Valid() && !Names(Observe(e), t, x)
    ensures Calm(Dispatch(env, s, e).events, t, x)
  {
    hide OnRunStarted, OnRunEnded, OnChunk, OnTool, Names, Calm;
    match e
    case RunStarted(at, run, turn, _) => RunStartedCalm(env, s, at, run, turn, t, x);
    case RunFinished(at, run, _, _, cancelled) =>
      RunEndedCalm(env, s, at, run, if cancelled then "cancelled" else "completed", Finished, t, x);
    case RunFailed(at, run, _, _, _) => RunEndedCalm(env, s, at, run, "failed", Errored, t, x);
    case MessageChunk(_, _, _, _, _, _, _, _) => ChunkArmCalm(env, s, e, t, x);
    case Tool(_, _, _, _, _) => ToolArmCalm(env, s, e, t, x);
    case _ => UntouchedIsCalm(Dispatch(env, s, e).events, t, x);
  }

  /** A call that does not name the subject leaves it alone. */
  lemma StepCalm(env: Env, s: Core, i: Input, t: ThreadId, x: Subject)
    requires env.Valid() && !Names(i, t, x)
    ensures Calm(Step(env, s, i).events, t, x)
  {
    hide ProjectProgress, Dispatch, LinkSubagent, Names, Calm;
    match i
    case LinkChild(_, _, _, _) => UntouchedIsCalm([], t, x);
    case Observe(e) =>
      var p := ProjectProgress(env, s, e);
      ProgressCalm(env, s, e, t, x);
      DispatchCalm(env, p.core, e, t, x);
      CalmConcat(p.events, Dispatch(env, p.core, e).events, t, x);
  }
}
