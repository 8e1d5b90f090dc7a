/** What a client holds of a message and of a tool of an open run, after every sequence of calls. */
module AgUiEffects {
  import opened Wrappers
  import opened AgUiTypes
  import opened AgUiClient
  import opened AgUiRun
  import opened AgUiRunProofs
  import opened AgUiCore
  import opened AgUiStream
  import opened AgUiCalm
  import opened AgUiProtocol
  import Utf8

  // ----- the live budget of a message -----

  /** What is let through of a sequence of chunks of one message. */
  function LetThrough(chunks: seq<string>): (r: string)
    ensures Utf8.Size(r) <= MAX_MESSAGE_TOTAL_BYTES
  {
    if chunks == [] then ""
    else
      var before := LetThrough(chunks[..|chunks| - 1]);
      var kept := Utf8.Bounded(chunks[|chunks| - 1], MAX_MESSAGE_TOTAL_BYTES - Utf8.Size(before));
      Utf8.BoundedSize(chunks[|chunks| - 1], MAX_MESSAGE_TOTAL_BYTES - Utf8.Size(before));
      Utf8.SizeConcat(before, kept);
      before + kept
  }

  function Joined(chunks: seq<string>): string {
    if chunks == [] then "" else Joined(chunks[..|chunks| - 1]) + chunks[|chunks| - 1]
  }

  lemma {:induction false} BoundedConcat(a: string, b: string, max: nat)
    ensures Utf8.Size(a) <= max ==> Utf8.Bounded(a + b, max) == a + Utf8.Bounded(b, max - Utf8.Size(a))
    ensures Utf8.Size(a) > max ==> Utf8.Bounded(a + b, max) == Utf8.Bounded(a, max)
  {
    if a == "" {
      assert a + b == b;
    } else {
      assert (a + b)[1..] == a[1..] + b;
      var w := Utf8.Width(a[0]);
      if w <= max {
        BoundedConcat(a[1..], b, max - w);
        assert Utf8.Bounded(a + b, max) == [a[0]] + Utf8.Bounded(a[1..] + b, max - w);
        assert Utf8.Bounded(a, max) == [a[0]] + Utf8.Bounded(a[1..], max - w);
      }
    }
  }

  /** The delivered text starts with everything up to the first dropped byte, and nothing is dropped
      exactly when the whole message fits in the budget. */
  lemma {:induction false} LetThroughUntilFirstDrop(chunks: seq<string>)
    ensures Utf8.Bounded(Joined(chunks), MAX_MESSAGE_TOTAL_BYTES) <= LetThrough(chunks)
    ensures LetThrough(chunks) == Joined(chunks) <==> Utf8.Size(Joined(chunks)) <= MAX_MESSAGE_TOTAL_BYTES
    decreases |chunks|
  {
    if chunks == [] {
    } else {
      var front, last := chunks[..|chunks| - 1], chunks[|chunks| - 1];
      LetThroughUntilFirstDrop(front);
      BoundedConcat(Joined(front), last, MAX_MESSAGE_TOTAL_BYTES);
      Utf8.SizeConcat(Joined(front), last);
      if Utf8.Size(Joined(front)) <= MAX_MESSAGE_TOTAL_BYTES {
        Utf8.BoundedAll(Joined(front), MAX_MESSAGE_TOTAL_BYTES);
        Utf8.BoundedIsLongestPrefix(last, MAX_MESSAGE_TOTAL_BYTES - Utf8.Size(LetThrough(front)));
        var kept := Utf8.Bounded(last, MAX_MESSAGE_TOTAL_BYTES - Utf8.Size(LetThrough(front)));
        assert (LetThrough(front) + kept)[|LetThrough(front)|..] == kept;
        assert (LetThrough(front) + last)[|LetThrough(front)|..] == last;
      } else {
        assert Utf8.Size(LetThrough(chunks)) <= MAX_MESSAGE_TOTAL_BYTES < Utf8.Size(Joined(chunks));
      }
    }
  }

  // ----- the calls that belong to a message or a tool -----

  /** The events that the run thread t has open has received for the subject: since the run was opened,
      those that name the subject and address the run, whatever came between. */
  ghost function Own(env: Env, inputs: seq<Input>, t: ThreadId, x: Subject): seq<Canonical>
    requires env.Valid()
    decreases |inputs|
  {
    if inputs == [] then []
    else
      var front, i := inputs[..|inputs| - 1], inputs[|inputs| - 1];
      var step := Step(env, Run(env, front).core, i);
      (if Opens(step.events, t) then [] else Own(env, front, t, x)) + Received(step.core, i, t, x)
  }

  /** The event of the call, if it names the subject and addresses the run that is open after it. */
  function Received(after: Core, i: Input, t: ThreadId, x: Subject): seq<Canonical> {
    if Names(i, t, x) && Addresses(after, t, i.event.runRef, i.event.turnRef) then [i.event] else []
  }

  function Contents(own: seq<Canonical>): (r: seq<string>)
    ensures |r| == |own|
  {
    seq(|own|, i requires 0 <= i < |own| => if own[i].MessageChunk? then own[i].content else "")
  }

  predicate BlockCut(e: Canonical) {
    e.MessageChunk? && e.block.Some? && e.block.value.truncated
  }

  predicate AnyBlockCut(own: seq<Canonical>) {
    exists e :: e in own && BlockCut(e)
  }

  /** The 64 KiB-bounded fold of tool updates. */
  function FoldUpdates(own: seq<Canonical>): string {
    if own == [] then ""
    else
      var before, e := FoldUpdates(own[..|own| - 1]), own[|own| - 1];
      if e.Tool? then ApplyUpdate(before, e.update.content) else before
  }

  /** What the updates say the text is: the last value set, or nothing after a clearing, and the values
      appended since, in order. */
  function ReceivedText(own: seq<Canonical>): string {
    if own == [] then ""
    else
      var before, e := ReceivedText(own[..|own| - 1]), own[|own| - 1];
      if !e.Tool? then before
      else match e.update.content
        case Set(value) => value
        case Clear => ""
        case Append(value) => before + value
        case Unchanged => before
  }

  /** The text is the received one up to the first byte that a bound cut off, and all of it exactly when that fits. */
  ghost predicate KeepsText(text: string, received: string, max: nat) {
    && Utf8.Size(text) <= max
    && Utf8.Bounded(received, max) <= text
    && (text == received <==> Utf8.Size(received) <= max)
  }

  lemma FoldKeepsText(own: seq<Canonical>)
    ensures KeepsText(FoldUpdates(own), ReceivedText(own), MAX_TOOL_TOTAL_BYTES)
  {
    FoldIsReceived(own);
  }

  lemma LetThroughKeepsText(chunks: seq<string>)
    ensures KeepsText(LetThrough(chunks), Joined(chunks), MAX_MESSAGE_TOTAL_BYTES)
  {
    LetThroughUntilFirstDrop(chunks);
  }

  /** The bounded fold is the received text up to the first byte that a bound cut off, and all of it
      exactly when that fits. */
  lemma {:induction false} FoldIsReceived(own: seq<Canonical>)
    ensures Utf8.Size(FoldUpdates(own)) <= MAX_TOOL_TOTAL_BYTES
    ensures Utf8.Bounded(ReceivedText(own), MAX_TOOL_TOTAL_BYTES) <= FoldUpdates(own)
    ensures FoldUpdates(own) == ReceivedText(own) <==> Utf8.Size(ReceivedText(own)) <= MAX_TOOL_TOTAL_BYTES
    decreases |own|
  {
    hide Utf8.Size, Utf8.Bounded;
    if own == [] {
      Utf8.BoundedIsLongestPrefix("", MAX_TOOL_TOTAL_BYTES);
      EmptyFits();
    } else {
      var front, e := own[..|own| - 1], own[|own| - 1];
      FoldIsReceived(front);
      if e.Tool? {
        match e.update.content
        case Set(value) => BoundedMeets(value, MAX_TOOL_TOTAL_BYTES);
        case Clear => EmptyFits();
        case Append(value) => AppendMeets(FoldUpdates(front), ReceivedText(front), value, MAX_TOOL_TOTAL_BYTES);
        case Unchanged =>
      }
    }
  }

  lemma EmptyFits()
    ensures Utf8.Size("") == 0 && Utf8.Bounded("", MAX_TOOL_TOTAL_BYTES) == ""
  {
  }

  /** A bounded text against the text. */
  lemma BoundedMeets(s: string, max: nat)
    ensures Utf8.Size(Utf8.Bounded(s, max)) <= max
    ensures Utf8.Bounded(s, max) == s <==> Utf8.Size(s) <= max
  {
    Utf8.BoundedIsLongestPrefix(s, max);
    Utf8.BoundedSize(s, max);
    if Utf8.Size(s) <= max {
      Utf8.BoundedAll(s, max);
    }
  }

  /** Appending to a text that has been kept within the bound. */
  lemma AppendMeets(kept: string, text: string, value: string, max: nat)
    requires Utf8.Size(kept) <= max && Utf8.Bounded(text, max) <= kept && (kept == text <==> Utf8.Size(text) <= max)
    ensures Utf8.Size(Utf8.Bounded(kept + value, max)) <= max
    ensures Utf8.Bounded(text + value, max) <= Utf8.Bounded(kept + value, max)
    ensures Utf8.Bounded(kept + value, max) == text + value <==> Utf8.Size(text + value) <= max
  {
    hide Utf8.Size, Utf8.Bounded;
    BoundedMeets(kept + value, max);
    BoundedConcat(text, value, max);
    BoundedConcat(kept, value, max);
    Utf8.SizeConcat(text, value);
  }

  predicate AnyTerminal(own: seq<Canonical>) {
    exists e :: e in own && e.Tool? && e.update.status.IsTerminal()
  }

  // ----- what the client holds of them -----

  ghost predicate HoldsMessage(v: RunView, id: MessageId, own: seq<Canonical>) {
    && v.Delivered(id) == LetThrough(Contents(own))
    && (id in v.noticed <==>
          (Utf8.Size(Joined(Contents(own))) > MAX_MESSAGE_TOTAL_BYTES || AnyBlockCut(own)))
  }

  /** A tool the run has heard of has a row or a card; a row holds the fold of the updates and has ended
      exactly when one of them was terminal; and a tool that its first update marks is a card that never
      started. */
  ghost predicate HoldsTool(env: Env, v: RunView, tool: ToolId, own: seq<Canonical>) {
    && (tool in v.tools <==> own != [])
    && (tool in v.tools && !v.tools[tool].card ==>
          v.tools[tool].started && v.tools[tool].text == FoldUpdates(own)
          && (v.tools[tool].ended <==> AnyTerminal(own)))
    && (tool in v.tools && MarkedAtFirst(env, own) ==> v.tools[tool].card && !v.tools[tool].started)
  }

  predicate MarkedAtFirst(env: Env, own: seq<Canonical>) {
    own != [] && own[0].Tool? && NamesTask(env, own[0].update)
  }

  ghost predicate Holds(env: Env, v: RunView, x: Subject, own: seq<Canonical>) {
    match x
    case OfMessage(id) => HoldsMessage(v, id, own)
    case OfTool(tool) => HoldsTool(env, v, tool, own)
  }

  lemma BlankHolds(env: Env, v: RunView, x: Subject)
    requires Blank(v, x)
    ensures Holds(env, v, x, [])
  {
  }

  lemma SameHolds(env: Env, v: RunView, w: RunView, x: Subject, own: seq<Canonical>)
    requires SameOf(v, w, x) && Holds(env, v, x, own)
    ensures Holds(env, w, x, own)
  {
    hide LetThrough, Joined, FoldUpdates, Utf8.Size;
  }

  /** After calm events: afresh if they opened the run, as before if not. */
  lemma CalmHolds(env: Env, c: Client, events: seq<Event>, c': Client, t: ThreadId, x: Subject, own: seq<Canonical>)
    requires Accept(env, c, events) == Some(c') && Calm(events, t, x) && t in c'
        && (t in c ==> Holds(env, c[t], x, own))
    ensures Holds(env, c'[t], x, if Opens(events, t) then [] else own)
  {
    hide Holds, Blank, SameOf, Calm, Accept;
    AcceptCalm(env, c, events, c', t, x);
    if Opens(events, t) {
      BlankHolds(env, c'[t], x);
    } else {
      SameHolds(env, c[t], c'[t], x, own);
    }
  }

  // ----- one more chunk of the message -----

  ghost function PieceView(r: RunState, v: RunView, e: Canonical): RunView
    requires e.MessageChunk?
  {
    if e.content == "" && e.block.None? then v else ChunkView(r, v, e.role, e.id, e.content, e.block)
  }

  /** What one chunk adds to the message and to the notices. */
  lemma PieceEffect(r: RunState, v: RunView, e: Canonical)
    requires RunRel(r, v) && e.MessageChunk?
    ensures Utf8.Size(v.Delivered(e.id)) <= MAX_MESSAGE_TOTAL_BYTES
    ensures var v' := PieceView(r, v, e);
            && v'.Delivered(e.id)
               == v.Delivered(e.id) + Utf8.Bounded(e.content, MAX_MESSAGE_TOTAL_BYTES - Utf8.Size(v.Delivered(e.id)))
            && (e.id in v'.noticed <==>
                  (e.id in v.noticed || v'.Delivered(e.id) != v.Delivered(e.id) + e.content || BlockCut(e)))
  {
    hide RunRel, ChunkView, Utf8.Size;
    ChunkEffect(r, v, e.role, e.id, e.content, e.block);
    if e.content == "" {
      assert Utf8.Bounded(e.content, MAX_MESSAGE_TOTAL_BYTES - Utf8.Size(v.Delivered(e.id))) == "";
      assert v.Delivered(e.id) + "" == v.Delivered(e.id);
    }
  }

  lemma ContentsMore(own: seq<Canonical>, e: Canonical)
    requires e.MessageChunk?
    ensures var all := Contents(own + [e]); all[..|all| - 1] == Contents(own) && all[|all| - 1] == e.content
    ensures AnyBlockCut(own + [e]) <==> AnyBlockCut(own) || BlockCut(e)
  {
    var all := Contents(own + [e]);
    assert all[..|own|] == Contents(own);
    assert forall d :: d in own + [e] <==> d in own || d == e;
  }

  lemma PieceHolds(r: RunState, v: RunView, e: Canonical, own: seq<Canonical>)
    requires RunRel(r, v) && e.MessageChunk? && HoldsMessage(v, e.id, own)
    ensures HoldsMessage(PieceView(r, v, e), e.id, own + [e])
  {
    hide RunRel, PieceView, LetThrough, Joined, Utf8.Size, Contents, AnyBlockCut;
    PieceEffect(r, v, e);
    ContentsMore(own, e);
    LetThroughOneMore(Contents(own + [e]));
  }

  /** One more chunk: what it adds, and when something is first dropped. */
  lemma LetThroughOneMore(chunks: seq<string>)
    requires chunks != []
    ensures var front, last := chunks[..|chunks| - 1], chunks[|chunks| - 1];
            && LetThrough(chunks)
               == LetThrough(front) + Utf8.Bounded(last, MAX_MESSAGE_TOTAL_BYTES - Utf8.Size(LetThrough(front)))
            && (Utf8.Size(Joined(chunks)) > MAX_MESSAGE_TOTAL_BYTES <==>
                  (Utf8.Size(Joined(front)) > MAX_MESSAGE_TOTAL_BYTES
                      || LetThrough(chunks) != LetThrough(front) + last))
  {
    var front, last := chunks[..|chunks| - 1], chunks[|chunks| - 1];
    LetThroughUntilFirstDrop(front);
    LetThroughUntilFirstDrop(chunks);
    Utf8.SizeConcat(Joined(front), last);
  }

  // ----- one more update of the tool -----

  lemma EditHolds(env: Env, v: RunView, e: Canonical, own: seq<Canonical>, ts: ToolState, after: ToolState,
      tv: ToolView)
    requires e.Tool? && HoldsTool(env, v, e.update.tool, own) && SlotRel(ts, v, e.update.tool)
    requires ToolRel(after, tv) && after.result == ApplyUpdate(ts.result, e.update.content) && (ts.card ==> after.card)
    requires !after.card ==> after.ended == (ts.ended || e.update.status.IsTerminal())
    requires ts.card || NamesTask(env, e.update) ==>
               after.card && tv.started == (e.update.tool in v.tools && v.tools[e.update.tool].started)
    ensures HoldsTool(env, Row(v, e.update.tool, tv), e.update.tool, own + [e])
  {
    hide ApplyUpdate, RevisionOk, NamesTask;
    var all := own + [e];
    assert all[..|all| - 1] == own && all[|all| - 1] == e;
    assert FoldUpdates(all) == ApplyUpdate(FoldUpdates(own), e.update.content);
    assert ts.result == "" || e.update.tool in v.tools;
    assert AnyTerminal(all) <==> AnyTerminal(own) || e.update.status.IsTerminal();
  }

  // ----- one call -----

  /** Progress and the implicit run come first; the client is then in step with the run the event finds, if any. */
  lemma Arrives(env: Env, s: Core, e: Canonical, c: Client) returns (c1: Client)
    requires env.Valid() && RunsRel(s.runs, c) && Inv(s) && !HitsStaleEntry(s, Observe(e))
    requires e.Tool? || (e.MessageChunk? && (e.content != "" || e.block.Some?))
    ensures var p := ProjectProgress(env, s, e);
            var o := EnsureObserved(env, p.core, e.thread, e.runRef, e.turnRef);
            Accept(env, c, p.events + o.events) == Some(c1) && RunsRel(o.core.runs, c1) && Inv(o.core)
  {
    hide Accept, RunsRel, Inv, ProjectProgress, EnsureObserved;
    var p := ProjectProgress(env, s, e);
    var c0 := ProjectProgressTracks(env, s, e, c);
    TracksInv(env, c, p, c0);
    ProgressKeepsRuns(env, s, e);
    var o := EnsureObserved(env, p.core, e.thread, e.runRef, e.turnRef);
    c1 := EnsureObservedTracks(env, p.core, e.thread, e.runRef, e.turnRef, c0);
    TracksInv(env, c0, o, c1);
    TracksAccept(env, c, p, c0);
    TracksAccept(env, c0, o, c1);
    AcceptConcat(env, c, p.events, o.events);
  }

  lemma ArrivesCalm(env: Env, s: Core, e: Canonical, t: ThreadId, x: Subject)
    requires env.Valid() && (e.Tool? || e.MessageChunk?)
    ensures var p := ProjectProgress(env, s, e);
            Calm(p.events + EnsureObserved(env, p.core, e.thread, e.runRef, e.turnRef).events, t, x)
  {
    hide ProjectProgress, EnsureObserved, Calm;
    var p := ProjectProgress(env, s, e);
    ProgressCalm(env, s, e, t, x);
    EnsureObservedCalm(env, p.core, e.thread, e.runRef, e.turnRef, t, x);
    CalmConcat(p.events, EnsureObserved(env, p.core, e.thread, e.runRef, e.turnRef).events, t, x);
  }

  lemma OpensConcat(a: seq<Event>, b: seq<Event>, t: ThreadId)
    ensures Opens(a + b, t) <==> Opens(a, t) || Opens(b, t)
  {
    assert forall e :: e in a + b <==> e in a || e in b;
  }

  /** A chunk that finds its run. */
  lemma ChunkLands(env: Env, s: Core, c: Client, e: Canonical, own: seq<Canonical>) returns (c': Client)
    requires env.Valid() && RunsRel(s.runs, c) && Inv(s) && e.MessageChunk? && (e.content != "" || e.block.Some?)
    requires Addresses(s, e.thread, e.runRef, e.turnRef) && e.thread in c && HoldsMessage(c[e.thread], e.id, own)
    ensures var step := ChunkStep(env, e.thread, s.runs[e.thread], e.role, e.id, e.content, e.block);
            && Accept(env, c, step.events) == Some(c') && !Opens(step.events, e.thread)
            && Addresses(s.(runs := s.runs[e.thread := step.run]), e.thread, e.runRef, e.turnRef)
    ensures e.thread in c' && HoldsMessage(c'[e.thread], e.id, own + [e])
  {
    hide Accept, RunRel, Plays, ChunkStep, HoldsMessage, ChunkView;
    var t := e.thread;
    var r, v := s.runs[t], c[t];
    RunsRelAt(s.runs, c, t);
    ChunkStepAccepted(env, t, r, v, e.role, e.id, e.content, e.block);
    ChunkStepAbout(env, t, r, e.role, e.id, e.content, e.block);
    var step, v' := ChunkStep(env, t, r, e.role, e.id, e.content, e.block), PieceView(r, v, e);
    LiftTracks(env, s, c, t, step.events, step.run, v');
    c' := c[t := v'];
    PieceHolds(r, v, e, own);
  }

  lemma RelinkRuns(env: Env, s: Core, t: ThreadId, run: RunId, tool: ToolId, child: ThreadId)
    requires env.Valid()
    ensures Relink(env, s, t, run, tool, child).runs == s.runs
  {
  }

  /** Settling a child opens no run and changes none that it does not close. */
  lemma SettleChildLeaves(env: Env, s: Core, at: ThreadId, run: RunId, tool: ToolId, out: ToolOut, t: ThreadId)
    requires env.Valid()
    ensures var o := SettleChild(env, s, at, run, tool, out);
            !Opens(o.events, t) && (t in o.core.runs ==> t in s.runs && o.core.runs[t] == s.runs[t])
  {
    hide ToolEnds, Relink;
    if out.linked.Some? {
      RelinkRuns(env, s, at, run, tool, out.linked.value);
    }
    if out.finished.Some? && HasObservedRun(s, out.finished.value) {
      var child := out.finished.value;
      ToolEndsAreEnds(env, child, s.runs[child], s.runs[child].tools.Keys, s.clock);
    }
  }

  lemma EditPlays(env: Env, t: ThreadId, r: RunState, v: RunView, e: Canonical, own: seq<Canonical>)
      returns (w: RunView)
    requires env.Valid() && RunRel(r, v) && e.Tool? && HoldsTool(env, v, e.update.tool, own)
    ensures var step := ToolStep(env, t, r.run, ToolAt(r, e.update.tool), e.update);
            Plays(env, t, v, step.events, w) && RunRel(r.(tools := r.tools[e.update.tool := step.tool]), w)
    ensures HoldsTool(env, w, e.update.tool, own + [e])
  {
    hide Plays, ToolStep, HoldsTool, ApplyUpdate, BytesRel, NamesTask;
    var u := e.update;
    var ts := ToolAt(r, u.tool);
    var tv := ToolStepAccepted(env, t, ts, v, u);
    w := Row(v, u.tool, tv);
    hide ToolRel, SlotRel;
    EditHolds(env, v, e, own, ts, ToolStep(env, t, r.run, ts, u).tool, tv);
    hide RunRel;
    ToolRunRel(r, v, u.tool, ToolStep(env, t, r.run, ts, u).tool, tv);
  }

  /** A tool update that finds its run. */
  lemma EditLands(env: Env, s: Core, c: Client, e: Canonical, own: seq<Canonical>) returns (c': Client)
    requires env.Valid() && RunsRel(s.runs, c) && Inv(s) && e.Tool?
    requires Addresses(s, e.thread, e.runRef, e.turnRef) && e.thread in c
        && HoldsTool(env, c[e.thread], e.update.tool, own)
    ensures var r := s.runs[e.thread];
            var step := ToolStep(env, e.thread, r.run, ToolAt(r, e.update.tool), e.update);
            Accept(env, c, step.events) == Some(c') && !Opens(step.events, e.thread)
    ensures e.thread in c' && HoldsTool(env, c'[e.thread], e.update.tool, own + [e])
  {
    hide Accept, Plays, ToolStep, HoldsTool, RunRel;
    var t, u := e.thread, e.update;
    var r := s.runs[t];
    RunsRelAt(s.runs, c, t);
    var w := EditPlays(env, t, r, c[t], e, own);
    var step := ToolStep(env, t, r.run, ToolAt(r, u.tool), u);
    ToolStepAbout(env, t, r.run, ToolAt(r, u.tool), u);
    LiftTracks(env, s, c, t, step.events, r.(tools := r.tools[u.tool := step.tool]), w);
    c' := c[t := w];
  }

  lemma ToolRunRel(r: RunState, v: RunView, tool: ToolId, ts: ToolState, tv: ToolView)
    requires RunRel(r, v) && ToolRel(ts, tv)
    ensures RunRel(r.(tools := r.tools[tool := ts]), Row(v, tool, tv))
  {
    hide ToolRel;
    ToolsRelPut(r.tools, v.tools, tool, ts, tv);
    var r', v' := r.(tools := r.tools[tool := ts]), Row(v, tool, tv);
    assert forall id :: BytesUsed(r', id) == BytesUsed(r, id) && v'.Delivered(id) == v.Delivered(id);
  }

  /** What is held after a call, from what was held before it. */
  ghost predicate Carries(env: Env, s: Core, i: Input, c': Client, t: ThreadId, x: Subject, own: seq<Canonical>)
    requires env.Valid()
  {
    var step := Step(env, s, i);
    t in c' ==> Holds(env, c'[t], x, (if Opens(step.events, t) then [] else own) + Received(step.core, i, t, x))
  }

  lemma OtherCarries(env: Env, s: Core, i: Input, c: Client, c': Client, t: ThreadId, x: Subject, own: seq<Canonical>)
    requires env.Valid() && Accept(env, c, Step(env, s, i).events) == Some(c') && !Names(i, t, x)
    requires t in c ==> Holds(env, c[t], x, own)
    ensures Carries(env, s, i, c', t, x, own)
  {
    hide Holds, Accept, Step, Names;
    StepCalm(env, s, i, t, x);
    if t in c' {
      CalmHolds(env, c, Step(env, s, i).events, c', t, x, own);
    }
    var base := if Opens(Step(env, s, i).events, t) then [] else own;
    assert base + [] == base;
  }

  lemma ChunkCarries(env: Env, s: Core, e: Canonical, c: Client, c': Client, own: seq<Canonical>)
    requires env.Valid() && RunsRel(s.runs, c) && Inv(s) && !HitsStaleEntry(s, Observe(e)) && e.MessageChunk?
    requires Accept(env, c, Step(env, s, Observe(e)).events) == Some(c')
    requires RunsRel(Step(env, s, Observe(e)).core.runs, c')
    requires e.thread in c ==> HoldsMessage(c[e.thread], e.id, own)
    ensures Carries(env, s, Observe(e), c', e.thread, OfMessage(e.id), own)
  {
    hide Accept, RunsRel, Inv, HoldsMessage, ProjectProgress, EnsureObserved, ChunkStep, Calm;
    var t, x := e.thread, OfMessage(e.id);
    var p := ProjectProgress(env, s, e);
    if e.content == "" && e.block.None? {
      EmptyChunkCarries(env, s, e, c, c', own);
    } else {
      var c1 := Arrives(env, s, e, c);
      ArrivesCalm(env, s, e, t, x);
      var o := EnsureObserved(env, p.core, t, e.runRef, e.turnRef);
      var base := if Opens(p.events + o.events, t) then [] else own;
      if t in c1 {
        CalmHolds(env, c, p.events + o.events, c1, t, x, own);
      }
      if !Addresses(o.core, t, e.runRef, e.turnRef) {
        assert base + [] == base;
      } else {
        InClient(o.core.runs, c1, t);
        var c2 := ChunkLands(env, o.core, c1, e, base);
        var step := ChunkStep(env, t, o.core.runs[t], e.role, e.id, e.content, e.block);
        assert p.events + (o.events + step.events) == p.events + o.events + step.events;
        AcceptConcat(env, c, p.events + o.events, step.events);
        OpensConcat(p.events + o.events, step.events, t);
      }
    }
  }

  lemma InClient(runs: map<ThreadId, RunState>, c: Client, t: ThreadId)
    requires RunsRel(runs, c)
    ensures t in runs <==> t in c
  {
    hide RunRel;
  }

  /** A chunk with neither text nor block changes nothing, whether or not it finds a run. */
  lemma EmptyChunkCarries(env: Env, s: Core, e: Canonical, c: Client, c': Client, own: seq<Canonical>)
    requires env.Valid() && e.MessageChunk? && e.content == "" && e.block.None?
    requires Accept(env, c, Step(env, s, Observe(e)).events) == Some(c')
    requires RunsRel(Step(env, s, Observe(e)).core.runs, c')
    requires e.thread in c ==> HoldsMessage(c[e.thread], e.id, own)
    ensures Carries(env, s, Observe(e), c', e.thread, OfMessage(e.id), own)
  {
    hide Accept, HoldsMessage, ProjectProgress, Calm, RunRel;
    var t, x := e.thread, OfMessage(e.id);
    var p := ProjectProgress(env, s, e);
    ProgressCalm(env, s, e, t, x);
    assert p.events + [] == p.events;
    if t in c' {
      CalmHolds(env, c, p.events, c', t, x, own);
      var base := if Opens(p.events, t) then [] else own;
      PieceHolds(p.core.runs[t], c'[t], e, base);
      assert base + [] == base;
    }
  }

  lemma EditCarries(env: Env, s: Core, e: Canonical, c: Client, c': Client, own: seq<Canonical>)
    requires env.Valid() && RunsRel(s.runs, c) && Inv(s) && !HitsStaleEntry(s, Observe(e)) && e.Tool?
    requires Accept(env, c, Step(env, s, Observe(e)).events) == Some(c')
    requires RunsRel(Step(env, s, Observe(e)).core.runs, c')
    requires e.thread in c ==> HoldsTool(env, c[e.thread], e.update.tool, own)
    ensures Carries(env, s, Observe(e), c', e.thread, OfTool(e.update.tool), own)
  {
    hide Accept, RunsRel, Inv, HoldsTool, ProjectProgress, EnsureObserved, ToolStep, SettleChild, Calm;
    var t, x, u := e.thread, OfTool(e.update.tool), e.update;
    var p := ProjectProgress(env, s, e);
    var c1 := Arrives(env, s, e, c);
    ArrivesCalm(env, s, e, t, x);
    var o := EnsureObserved(env, p.core, t, e.runRef, e.turnRef);
    var base := if Opens(p.events + o.events, t) then [] else own;
    if t in c1 {
      CalmHolds(env, c, p.events + o.events, c1, t, x, own);
    }
    if !Addresses(o.core, t, e.runRef, e.turnRef) {
      assert base + [] == base;
    } else {
      InClient(o.core.runs, c1, t);
      var r := o.core.runs[t];
      var c2 := EditLands(env, o.core, c1, e, base);
      var step := ToolStep(env, t, r.run, ToolAt(r, u.tool), u);
      var s1 := o.core.(runs := o.core.runs[t := r.(tools := r.tools[u.tool := step.tool])]);
      var settled := SettleChild(env, s1, t, r.run, u.tool, step);
      SettleChildLeaves(env, s1, t, r.run, u.tool, step, t);
      SettleChildCalm(env, s1, t, r.run, u.tool, step, t, x);
      assert p.events + (o.events + step.events + settled.events) ==
          p.events + o.events + (step.events + settled.events);
      AcceptConcat(env, c, p.events + o.events, step.events + settled.events);
      AcceptConcat(env, c1, step.events, settled.events);
      OpensConcat(p.events + o.events, step.events + settled.events, t);
      OpensConcat(step.events, settled.events, t);
      InClient(settled.core.runs, c', t);
      if t in c' {
        CalmHolds(env, c2, settled.events, c', t, x, base + [e]);
      }
    }
  }

  lemma StepCarries(env: Env, s: Core, i: Input, c: Client, c': Client, t: ThreadId, x: Subject, own: seq<Canonical>)
    requires env.Valid() && RunsRel(s.runs, c) && Inv(s) && !HitsStaleEntry(s, i)
    requires Tracks(env, c, Step(env, s, i), c')
    requires t in c ==> Holds(env, c[t], x, own)
    ensures Carries(env, s, i, c', t, x, own)
  {
    hide RunsRel, Inv, Accept, Carries, Step, HoldsMessage, HoldsTool;
    if !Names(i, t, x) {
      OtherCarries(env, s, i, c, c', t, x, own);
    } else {
      match x
      case OfMessage(_) => ChunkCarries(env, s, i.event, c, c', own);
      case OfTool(_) => EditCarries(env, s, i.event, c, c', own);
    }
  }

  // ----- every sequence of calls -----

  /** After any calls, what the client holds of a message or tool of an open run is what the run has received for it. */
  lemma {:induction false} RunHolds(env: Env, inputs: seq<Input>, t: ThreadId, x: Subject) returns (c: Client)
    requires env.Valid() && NeverStale(env, inputs)
    ensures Tracks(env, map[], Run(env, inputs), c)
    ensures t in c ==> Holds(env, c[t], x, Own(env, inputs, t, x))
    decreases |inputs|
  {
    hide Tracks, Step, HitsStaleEntry, NeverStale, Holds, Opens, Received;
    if inputs == [] {
      c := map[];
      TrackNothing(env, EMPTY_CORE, c);
    } else {
      NeverStaleSplit(env, inputs);
      var front, i := inputs[..|inputs| - 1], inputs[|inputs| - 1];
      var before := Run(env, front);
      var c1 := RunHolds(env, front, t, x);
      TracksInv(env, map[], before, c1);
      c := StepTracks(env, before.core, i, c1);
      TrackThen(env, map[], before, c1, Step(env, before.core, i), c);
      StepCarries(env, before.core, i, c1, c, t, x, Own(env, front, t, x));
    }
  }

  /** MAIN THEOREM on messages. After every sequence of calls, for every message of every open run: the
      deltas streamed for it add up to what the budget lets through of everything the run received for it,
      whatever was interleaved; they begin with the text up to the first dropped byte and are all of it
      exactly when it fits; and there has been one truncation notice if text was dropped or a truncated
      block seen, and none otherwise. */
  lemma LiveMessage(env: Env, inputs: seq<Input>, t: ThreadId, id: MessageId)
    requires env.Valid() && NeverStale(env, inputs) && t in Run(env, inputs).core.runs
    ensures var own := Own(env, inputs, t, OfMessage(id));
            var events := OpenRunEvents(Run(env, inputs).events, t);
            var text := Joined(Contents(own));
            && KeepsText(Delivery(events, id), text, MAX_MESSAGE_TOTAL_BYTES)
            && Delivery(events, id) == LetThrough(Contents(own))
            && Count(events, Notice, id) == One(Utf8.Size(text) > MAX_MESSAGE_TOTAL_BYTES || AnyBlockCut(own))
  {
    hide Run, Own, Accept, NeverStale, RunRel, Accounts, OpenRunEvents, Delivery, Count, LetThrough, Joined,
        Utf8.Size, KeepsText;
    var out := Run(env, inputs);
    var c := RunHolds(env, inputs, t, OfMessage(id));
    InClient(out.core.runs, c, t);
    OpenRunAccounts(env, out.events, c, t);
    BudgetCountedAt(c[t], OpenRunEvents(out.events, t), id);
    LetThroughKeepsText(Contents(Own(env, inputs, t, OfMessage(id))));
  }

  lemma BudgetCountedAt(v: RunView, events: seq<Event>, id: MessageId)
    requires Accounts(v, events)
    ensures Count(events, Notice, id) == One(id in v.noticed) && Delivery(events, id) == v.Delivered(id)
    ensures Utf8.Size(v.Delivered(id)) <= MAX_MESSAGE_TOTAL_BYTES
  {
    hide Count, Delivery, Utf8.Size, ToolsCounted, TextCounted, ReasoningCounted;
  }

  /** MAIN THEOREM on tools. After every sequence of calls, for every tool of an open run that is not a
      card: its text, in the projector and at a client that replaces on tool text and appends on results,
      is the bounded fold of all updates the run received for it, whatever was interleaved; it has started
      once, and ended exactly when one of them was terminal. */
  lemma LiveTool(env: Env, inputs: seq<Input>, t: ThreadId, tool: ToolId)
    requires env.Valid() && NeverStale(env, inputs) && t in Run(env, inputs).core.runs
    requires tool in Run(env, inputs).core.runs[t].tools && !Run(env, inputs).core.runs[t].tools[tool].card
    ensures var own := Own(env, inputs, t, OfTool(tool));
            var ts := Run(env, inputs).core.runs[t].tools[tool];
            var events := OpenRunEvents(Run(env, inputs).events, t);
            var client := Accept(env, map[], Run(env, inputs).events);
            && own != [] && KeepsText(ts.result, ReceivedText(own), MAX_TOOL_TOTAL_BYTES)
            && ts.result == FoldUpdates(own) && (ts.ended <==> AnyTerminal(own))
            && client.Some? && t in client.value && tool in client.value[t].tools
            && client.value[t].tools[tool].text == ts.result
            && Count(events, StartTool, tool) == 1 && Count(events, EndTool, tool) == One(AnyTerminal(own))
  {
    hide Run, Own, Accept, NeverStale, OpenRunEvents, Count, FoldUpdates, KeepsText;
    var out := Run(env, inputs);
    FoldKeepsText(Own(env, inputs, t, OfTool(tool)));
    var c := RunHolds(env, inputs, t, OfTool(tool));
    InClient(out.core.runs, c, t);
    RunsRelAt(out.core.runs, c, t);
    RowAgrees(out.core.runs[t], c[t], tool);
    OpenRunExact(env, inputs, t, tool);
    hide RunRel, RunsRel;
  }

  lemma RowAgrees(r: RunState, v: RunView, tool: ToolId)
    requires RunRel(r, v) && tool in r.tools
    ensures tool in v.tools && v.tools[tool].card == r.tools[tool].card
    ensures !r.tools[tool].card ==>
        v.tools[tool].text == r.tools[tool].result && v.tools[tool].ended == r.tools[tool].ended
  {
    assert ToolRel(r.tools[tool], v.tools[tool]);
  }

  // ----- classified at first sight -----

  /** A tool whose first update in the run already marks it as a sub-agent is a card and has emitted no
      tool-call event, however many updates followed. */
  lemma CardsAreSilent(env: Env, inputs: seq<Input>, t: ThreadId, tool: ToolId)
    requires env.Valid() && NeverStale(env, inputs) && t in Run(env, inputs).core.runs
    requires MarkedAtFirst(env, Own(env, inputs, t, OfTool(tool)))
    ensures NoToolCall(OpenRunEvents(Run(env, inputs).events, t), tool)
    ensures tool in Run(env, inputs).core.runs[t].tools && Run(env, inputs).core.runs[t].tools[tool].card
  {
    hide Run, Own, Accept, AcceptRunAll, NeverStale, OpenRunEvents, Count, FoldUpdates, MarkedAtFirst, Accounts;
    var out := Run(env, inputs);
    var events := OpenRunEvents(out.events, t);
    var c := RunHolds(env, inputs, t, OfTool(tool));
    InClient(out.core.runs, c, t);
    OpenRunAccounts(env, out.events, c, t);
    ToolsCountedAt(c[t], events, tool);
    ReplaysRun(env, out.events, c, t);
    FedIsStarted(env, c[t].run, events, c[t], tool);
    RunsRelAt(out.core.runs, c, t);
    assert tool in c[t].tools && c[t].tools[tool].card by { MarkedHasOwn(env, Own(env, inputs, t, OfTool(tool))); }
    RowKnown(out.core.runs[t], c[t], tool);
    RowAgrees(out.core.runs[t], c[t], tool);
  }

  lemma MarkedHasOwn(env: Env, own: seq<Canonical>)
    requires MarkedAtFirst(env, own)
    ensures own != []
  {
  }

  lemma RowKnown(r: RunState, v: RunView, tool: ToolId)
    requires RunRel(r, v)
    ensures tool in r.tools <==> tool in v.tools
  {
  }
}
