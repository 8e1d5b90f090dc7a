/** What a client holds of a message and of a tool at the moment their run closes. */
module AgUiClosing {
  import opened Wrappers
  import opened AgUiTypes
  import opened AgUiClient
  import opened AgUiRun
  import opened AgUiCore
  import opened AgUiStream
  import opened AgUiCalm
  import opened AgUiProtocol
  import opened AgUiEffects
  import Utf8

  /** The event of the call names the subject and finds a run. */
  ghost predicate Lands(env: Env, s: Core, i: Input, t: ThreadId, x: Subject)
    requires env.Valid()
  {
    && Names(i, t, x)
    && var p := ProjectProgress(env, s, i.event);
       Addresses(EnsureObserved(env, p.core, t, i.event.runRef, i.event.turnRef).core, t, i.event.runRef,
           i.event.turnRef)
  }

  /** What the run that the k-th event of a call closes has received for the subject. */
  ghost function OwnAtClose(env: Env, inputs: seq<Input>, i: Input, k: nat, t: ThreadId, x: Subject): seq<Canonical>
    requires env.Valid() && k <= |Step(env, Run(env, inputs).core, i).events|
  {
    var s := Run(env, inputs).core;
    (if Opens(Step(env, s, i).events[..k], t) then [] else Own(env, inputs, t, x))
    + (if Lands(env, s, i, t, x) then [i.event] else [])
  }

  /** The view of a settled run: as for an open one, and every row has ended. */
  ghost predicate HoldsAtEnd(env: Env, v: RunView, x: Subject, own: seq<Canonical>) {
    match x
    case OfMessage(id) => HoldsMessage(v, id, own)
    case OfTool(tool) =>
      && (tool in v.tools <==> own != [])
      && (tool in v.tools && !v.tools[tool].card ==>
            v.tools[tool].started && v.tools[tool].ended && v.tools[tool].text == FoldUpdates(own))
      && (tool in v.tools && MarkedAtFirst(env, own) ==> v.tools[tool].card && !v.tools[tool].started)
  }

  lemma MuteHolds(env: Env, v: RunView, w: RunView, x: Subject, own: seq<Canonical>)
    requires Holds(env, v, x, own) && SameButEnd(v, w, x) && w.Settled()
    ensures HoldsAtEnd(env, w, x, own)
  {
    hide LetThrough, Joined, FoldUpdates, Utf8.Size, MarkedAtFirst;
  }

  lemma BlankHoldsAtEnd(env: Env, v: RunView, x: Subject)
    requires Blank(v, x)
    ensures HoldsAtEnd(env, v, x, [])
  {
  }

  /** From what was held before mute events to what is held at the end of the run they lead to. */
  lemma MuteToEnd(env: Env, c: Client, events: seq<Event>, c': Client, t: ThreadId, x: Subject, own: seq<Canonical>)
    requires Accept(env, c, events) == Some(c') && Mute(events, t, x) && t in c' && c'[t].Settled()
    requires t in c ==> Holds(env, c[t], x, own)
    ensures HoldsAtEnd(env, c'[t], x, if Opens(events, t) then [] else own)
  {
    hide Accept, Mute, Holds, HoldsAtEnd, SameButEnd, Blank;
    AcceptMute(env, c, events, c', t, x);
    if Opens(events, t) {
      BlankHoldsAtEnd(env, c'[t], x);
    } else {
      MuteHolds(env, c[t], c'[t], x, own);
    }
  }

  // ----- where a call can close the run of its own thread -----

  predicate ClosesNot(events: seq<Event>, t: ThreadId) {
    forall e :: e in events ==> !(e.RunClosed? && e.thread == t)
  }

  lemma ProgressShowsCards(env: Env, s: Core, e: Canonical)
    requires env.Valid() && (e.MessageChunk? || e.Tool?)
    ensures forall d :: d in ProjectProgress(env, s, e).events ==> d.Card?
  {
    hide Render, CloseObserved, SettleParent, Fences;
  }

  lemma CloseObservedElsewhereOnly(env: Env, s: Core, at: ThreadId, t: ThreadId)
    requires env.Valid() && at != t
    ensures ClosesNot(CloseObserved(env, s, at).events, t)
  {
    hide TerminalEvents;
    if HasObservedRun(s, at) {
      TerminalElsewhere(env, at, s.runs[at], s.clock, Finished, t);
    }
  }

  /** Opening an implicit run closes another thread's run at most. */
  lemma EnsureObservedClosesOthers(env: Env, s: Core, t: ThreadId, runRef: Option<RunId>, turnRef: Option<TurnId>)
    requires env.Valid() && Inv(s) && !Stale(s, t, runRef, turnRef)
    ensures ClosesNot(EnsureObserved(env, s, t, runRef, turnRef).events, t)
  {
    hide Evict, CloseObserved;
    if Observes(s, t, runRef, turnRef) {
      EvictOne(env, s, t);
      if |s.observed| == OBSERVED_RUN_CAPACITY {
        var s1 := Opening(s, t).(observed := s.observed[1..] + [t]);
        CloseObservedElsewhereOnly(env, s1, s.observed[0], t);
      }
    }
  }

  /** The events up to and including the opening of an implicit run close nothing of the thread. */
  lemma ArrivesOpen(env: Env, s: Core, e: Canonical)
    requires env.Valid() && Inv(s) && !HitsStaleEntry(s, Observe(e))
    requires e.Tool? || (e.MessageChunk? && (e.content != "" || e.block.Some?))
    ensures var p := ProjectProgress(env, s, e);
            ClosesNot(p.events + EnsureObserved(env, p.core, e.thread, e.runRef, e.turnRef).events, e.thread)
  {
    hide ProjectProgress, EnsureObserved, ImplicitIds;
    ProgressShowsCards(env, s, e);
    ProgressKeepsRuns(env, s, e);
    EnsureObservedClosesOthers(env, ProjectProgress(env, s, e).core, e.thread, e.runRef, e.turnRef);
  }

  /** A chunk never closes the run of its thread. */
  lemma ChunkClosesNot(env: Env, s: Core, e: Canonical)
    requires env.Valid() && Inv(s) && !HitsStaleEntry(s, Observe(e)) && e.MessageChunk?
    ensures ClosesNot(Step(env, s, Observe(e)).events, e.thread)
  {
    hide ProjectProgress, EnsureObserved, ChunkStep, Inv, HitsStaleEntry;
    var p := ProjectProgress(env, s, e);
    ProgressShowsCards(env, s, e);
    if e.content != "" || e.block.Some? {
      ArrivesOpen(env, s, e);
      var o := EnsureObserved(env, p.core, e.thread, e.runRef, e.turnRef);
      if Addresses(o.core, e.thread, e.runRef, e.turnRef) {
        ChunkStepAbout(env, e.thread, o.core.runs[e.thread], e.role, e.id, e.content, e.block);
      }
    }
  }

  // ----- a tool update that closes the run of its own thread -----

  /** The events of a tool update that finds a run: what comes first, the update itself, and the settling of a child. */
  lemma ToolStepParts(env: Env, s: Core, e: Canonical)
    returns (first: seq<Event>, step: seq<Event>, settled: seq<Event>)
    requires env.Valid() && e.Tool?
    ensures var p := ProjectProgress(env, s, e);
            var o := EnsureObserved(env, p.core, e.thread, e.runRef, e.turnRef);
            && first == p.events + o.events
            && Step(env, s, Observe(e)).events == first + step + settled
            && (Addresses(o.core, e.thread, e.runRef, e.turnRef) ==>
                  step == ToolStep(env, e.thread, o.core.runs[e.thread].run,
                                   ToolAt(o.core.runs[e.thread], e.update.tool), e.update).events)
            && (!Addresses(o.core, e.thread, e.runRef, e.turnRef) ==> step == [] && settled == [])
    ensures AboutTool(step, e.thread, e.update.tool) && Calm(settled, e.thread, OfTool(e.update.tool))
    ensures !Opens(settled, e.thread)
  {
    hide ProjectProgress, EnsureObserved, ToolStep, SettleChild, Calm, Touches;
    var t, u := e.thread, e.update;
    var p := ProjectProgress(env, s, e);
    var o := EnsureObserved(env, p.core, t, e.runRef, e.turnRef);
    first, step, settled := p.events + o.events, [], [];
    if Addresses(o.core, t, e.runRef, e.turnRef) {
      var r := o.core.runs[t];
      var out := ToolStep(env, t, r.run, ToolAt(r, u.tool), u);
      var s1 := o.core.(runs := o.core.runs[t := r.(tools := r.tools[u.tool := out.tool])]);
      ToolStepAbout(env, t, r.run, ToolAt(r, u.tool), u);
      SettleChildCalm(env, s1, t, r.run, u.tool, out, t, OfTool(u.tool));
      SettleChildLeaves(env, s1, t, r.run, u.tool, out, t);
      step, settled := out.events, SettleChild(env, s1, t, r.run, u.tool, out).events;
      assert p.events + (o.events + step + settled) == first + step + settled;
    } else {
      UntouchedIsCalm([], t, OfTool(u.tool));
      assert first + [] + [] == first;
    }
  }

  lemma AboutToolCloses(events: seq<Event>, t: ThreadId, tool: ToolId)
    requires AboutTool(events, t, tool)
    ensures ClosesNot(events, t) && !Opens(events, t)
  {
  }

  /** An event that closes the run comes in the last of three parts if the first two close nothing. */
  lemma ClosingPart(a: seq<Event>, b: seq<Event>, d: seq<Event>, k: nat, t: ThreadId)
    requires k < |a + b + d| && (a + b + d)[k].RunClosed? && (a + b + d)[k].thread == t
    requires ClosesNot(a, t) && ClosesNot(b, t)
    ensures |a| + |b| <= k && k - |a| - |b| < |d|
    ensures (a + b + d)[..k] == a + (b + d[..k - |a| - |b|])
  {
    assert forall j :: 0 <= j < |a| ==> (a + b + d)[j] == a[j] && (a + b + d)[j] in a;
    assert forall j :: |a| <= j < |a| + |b| ==> (a + b + d)[j] == b[j - |a|] && (a + b + d)[j] in b;
  }

  lemma PrefixMute(events: seq<Event>, k: nat, t: ThreadId, x: Subject)
    requires Calm(events, t, x) && k <= |events|
    ensures Mute(events[..k], t, x)
    ensures !Opens(events, t) ==> !Opens(events[..k], t)
  {
    hide Calm, Touches;
    CalmIsMute(events, t, x);
    assert forall e :: e in events[..k] ==> e in events;
  }

  lemma ToolCloses(env: Env, s: Core, e: Canonical, c: Client, own: seq<Canonical>, k: nat, c': Client)
    requires env.Valid() && RunsRel(s.runs, c) && Inv(s) && !HitsStaleEntry(s, Observe(e)) && e.Tool?
    requires var events := Step(env, s, Observe(e)).events;
             && k < |events| && events[k].RunClosed? && events[k].thread == e.thread
             && Accept(env, c, events[..k]) == Some(c') && e.thread in c' && c'[e.thread].Settled()
    requires e.thread in c ==> HoldsTool(env, c[e.thread], e.update.tool, own)
    ensures var events := Step(env, s, Observe(e)).events;
            && Lands(env, s, Observe(e), e.thread, OfTool(e.update.tool))
            && HoldsAtEnd(env, c'[e.thread], OfTool(e.update.tool),
                          (if Opens(events[..k], e.thread) then [] else own) + [e])
  {
    hide Accept, RunsRel, Inv, HoldsTool, HoldsAtEnd, ProjectProgress, EnsureObserved, ToolStep, Step, Calm, Mute,
        AboutTool;
    var t, x := e.thread, OfTool(e.update.tool);
    var p := ProjectProgress(env, s, e);
    var o := EnsureObserved(env, p.core, t, e.runRef, e.turnRef);
    var first, step, settled := ToolStepParts(env, s, e);
    ArrivesOpen(env, s, e);
    AboutToolCloses(step, t, e.update.tool);
    ClosingPart(first, step, settled, k, t);
    var last := settled[..k - |first| - |step|];
    assert Addresses(o.core, t, e.runRef, e.turnRef);
    var c1 := Arrives(env, s, e, c);
    ArrivesCalm(env, s, e, t, x);
    InClient(o.core.runs, c1, t);
    CalmHolds(env, c, first, c1, t, x, own);
    var base := if Opens(first, t) then [] else own;
    var c2 := EditLands(env, o.core, c1, e, base);
    AcceptConcat(env, c, first, step + last);
    AcceptConcat(env, c1, step, last);
    PrefixMute(settled, |last|, t, x);
    OpensConcat(first, step + last, t);
    OpensConcat(step, last, t);
    MuteToEnd(env, c2, last, c', t, x, base + [e]);
  }

  // ----- every closing -----

  lemma ClosingSettles(env: Env, c: Client, events: seq<Event>, k: nat, c': Client) returns (b: Client)
    requires Accept(env, c, events) == Some(c') && k < |events| && events[k].RunClosed?
    ensures Accept(env, c, events[..k]) == Some(b)
    ensures events[k].thread in b && b[events[k].thread].Settled()
  {
    hide Accept;
    var front, e, rest := events[..k], events[k], events[k + 1..];
    assert events == front + ([e] + rest);
    AcceptConcat(env, c, front, [e] + rest);
    b := Accept(env, c, front).value;
    AcceptConcat(env, b, [e], rest);
    AcceptOne(env, b, e);
  }

  /** Whenever a call closes a run, what the client holds at that point of a message or tool of the run is
      what the run has received for it. */
  lemma CloseHolds(env: Env, inputs: seq<Input>, i: Input, k: nat, t: ThreadId, x: Subject) returns (b: Client)
    requires env.Valid() && NeverStale(env, inputs) && !HitsStaleEntry(Run(env, inputs).core, i)
    requires var events := Step(env, Run(env, inputs).core, i).events;
             k < |events| && events[k].RunClosed? && events[k].thread == t
    ensures Accept(env, map[], Run(env, inputs).events + Step(env, Run(env, inputs).core, i).events[..k]) == Some(b)
    ensures t in b && HoldsAtEnd(env, b[t], x, OwnAtClose(env, inputs, i, k, t, x))
  {
    hide Accept, Run, Step, NeverStale, HitsStaleEntry, RunsRel, Inv, HoldsMessage, HoldsTool, HoldsAtEnd, Own, Mute,
         Lands;
    var out := Run(env, inputs);
    var events := Step(env, out.core, i).events;
    var c := RunHolds(env, inputs, t, x);
    TracksInv(env, map[], out, c);
    var c' := StepTracks(env, out.core, i, c);
    TracksAccept(env, c, Step(env, out.core, i), c');
    b := ClosingSettles(env, c, events, k, c');
    AcceptConcat(env, map[], out.events, events[..k]);
    var own := Own(env, inputs, t, x);
    assert events[k] in events;
    if !Names(i, t, x) {
      StepCalm(env, out.core, i, t, x);
      PrefixMute(events, k, t, x);
      MuteToEnd(env, c, events[..k], b, t, x, own);
      assert !Lands(env, out.core, i, t, x) by { NamesToLand(env, out.core, i, t, x); }
      var base := if Opens(events[..k], t) then [] else own;
      assert base + [] == base;
    } else if x.OfMessage? {
      ChunkClosesNot(env, out.core, i.event);
      assert false;
    } else {
      ToolCloses(env, out.core, i.event, c, own, k, b);
    }
  }

  lemma NamesToLand(env: Env, s: Core, i: Input, t: ThreadId, x: Subject)
    requires env.Valid()
    ensures Lands(env, s, i, t, x) ==> Names(i, t, x)
  {
  }

  /** MAIN THEOREM on closed runs. Whenever a call closes a run: of each message the run has streamed what
      the budget lets through of all chunks it received, with one notice if text was dropped or a
      truncated block seen; each tool it has an update of and that is no card has started once and ended
      once, and the client holds the bounded fold of the updates; and a tool that its first update marked
      has emitted no tool-call event. */
  lemma ClosedRun(env: Env, inputs: seq<Input>, i: Input, k: nat, t: ThreadId, id: string)
    requires env.Valid() && NeverStale(env, inputs) && !HitsStaleEntry(Run(env, inputs).core, i)
    requires var events := Step(env, Run(env, inputs).core, i).events;
             k < |events| && events[k].RunClosed? && events[k].thread == t
    ensures var stream := Run(env, inputs).events + Step(env, Run(env, inputs).core, i).events[..k];
            var events := OpenRunEvents(stream, t);
            var pieces := OwnAtClose(env, inputs, i, k, t, OfMessage(id));
            var edits := OwnAtClose(env, inputs, i, k, t, OfTool(id));
            && KeepsText(Delivery(events, id), Joined(Contents(pieces)), MAX_MESSAGE_TOTAL_BYTES)
            && Delivery(events, id) == LetThrough(Contents(pieces))
            && Count(events, Notice, id)
               == One(Utf8.Size(Joined(Contents(pieces))) > MAX_MESSAGE_TOTAL_BYTES || AnyBlockCut(pieces))
            && (edits != [] && Count(events, Mark, id) == 0 ==>
                  Count(events, StartTool, id) == 1 && Count(events, EndTool, id) == 1
                  && Accept(env, map[], stream).Some? && t in Accept(env, map[], stream).value
                  && id in Accept(env, map[], stream).value[t].tools
                  && Accept(env, map[], stream).value[t].tools[id].text == FoldUpdates(edits)
                  && KeepsText(FoldUpdates(edits), ReceivedText(edits), MAX_TOOL_TOTAL_BYTES))
            && (MarkedAtFirst(env, edits) ==> NoToolCall(events, id))
  {
    hide Run, Step, OwnAtClose, Accept, AcceptRunAll, NeverStale, HitsStaleEntry, OpenRunEvents, Delivery, Count,
         LetThrough, Joined, Utf8.Size, FoldUpdates, Accounts, AnyBlockCut, KeepsText;
    LetThroughKeepsText(Contents(OwnAtClose(env, inputs, i, k, t, OfMessage(id))));
    FoldKeepsText(OwnAtClose(env, inputs, i, k, t, OfTool(id)));
    var stream := Run(env, inputs).events + Step(env, Run(env, inputs).core, i).events[..k];
    var events := OpenRunEvents(stream, t);
    var b := CloseHolds(env, inputs, i, k, t, OfMessage(id));
    var d := CloseHolds(env, inputs, i, k, t, OfTool(id));
    OpenRunAccounts(env, stream, b, t);
    BudgetCountedAt(b[t], events, id);
    ToolsCountedAt(b[t], events, id);
    ReplaysRun(env, stream, b, t);
    FedIsStarted(env, b[t].run, events, b[t], id);
  }
}
