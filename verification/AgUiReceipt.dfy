/** Which events a run receives, and what the end of a run tells about its cause. */
module AgUiReceipt {
  import opened Wrappers
  import opened AgUiTypes
  import opened AgUiRun
  import opened AgUiCore
  import opened AgUiStream
  import opened AgUiCalm
  import opened AgUiEffects
  import opened AgUiCards
  import Utf8

  // ----- which events an open run receives -----

  /** The event names no run or this one, and no turn or, if the run has a turn, that turn. */
  predicate Fits(r: RunState, e: Canonical)
    requires e.MessageChunk? || e.Tool?
  {
    (e.runRef == None || e.runRef == Some(r.run)) && (e.turnRef == None || r.turn == None || e.turnRef == r.turn)
  }

  /** Chunks and updates leave identity and turn of an open run alone and open no run on its thread. */
  lemma OpenRunStays(env: Env, s: Core, e: Canonical)
    requires env.Valid() && (e.MessageChunk? || e.Tool?) && e.thread in s.runs
    requires e.thread in Step(env, s, Observe(e)).core.runs
    ensures var step, t := Step(env, s, Observe(e)), e.thread;
            && step.core.runs[t].run == s.runs[t].run && step.core.runs[t].turn == s.runs[t].turn
            && !Opens(step.events, t)
  {
    hide ProjectProgress, OnChunk, OnTool;
    var p := ProjectProgress(env, s, e);
    ProgressKeepsRuns(env, s, e);
    ProgressOpensNone(env, s, e);
    if e.MessageChunk? {
      ChunkOpensNone(env, p.core, e);
    } else {
      ToolOpensNone(env, p.core, e);
    }
  }

  lemma ProgressOpensNone(env: Env, s: Core, e: Canonical)
    requires env.Valid() && (e.MessageChunk? || e.Tool?)
    ensures forall d :: d in ProjectProgress(env, s, e).events ==> d.Card?
  {
    hide Render, CloseObserved, SettleParent, Fences;
  }

  lemma ChunkOpensNone(env: Env, s: Core, e: Canonical)
    requires env.Valid() && e.MessageChunk? && e.thread in s.runs
    ensures var out, t := OnChunk(env, s, e), e.thread;
            && t in out.core.runs && out.core.runs[t].run == s.runs[t].run && out.core.runs[t].turn == s.runs[t].turn
            && !Opens(out.events, t)
  {
    hide ChunkStep;
    var t := e.thread;
    if Addresses(s, t, e.runRef, e.turnRef) {
      ChunkStepAbout(env, t, s.runs[t], e.role, e.id, e.content, e.block);
      ChunkStaysIn(env, t, s.runs[t], e);
    }
  }

  lemma ChunkStaysIn(env: Env, t: ThreadId, r: RunState, e: Canonical)
    requires e.MessageChunk?
    ensures var after := ChunkStep(env, t, r, e.role, e.id, e.content, e.block).run;
            after.run == r.run && after.turn == r.turn
  {
    hide BlockEvents, ContentEvents, LiveContent;
  }

  lemma ToolOpensNone(env: Env, s: Core, e: Canonical)
    requires env.Valid() && e.Tool? && e.thread in s.runs && e.thread in OnTool(env, s, e).core.runs
    ensures var out, t := OnTool(env, s, e), e.thread;
            && out.core.runs[t].run == s.runs[t].run && out.core.runs[t].turn == s.runs[t].turn
            && !Opens(out.events, t)
  {
    hide ToolStep, SettleChild;
    var t, u := e.thread, e.update;
    if Addresses(s, t, e.runRef, e.turnRef) {
      var r := s.runs[t];
      var step := ToolStep(env, t, r.run, ToolAt(r, u.tool), u);
      ToolStepAbout(env, t, r.run, ToolAt(r, u.tool), u);
      var s1 := s.(runs := s.runs[t := r.(tools := r.tools[u.tool := step.tool])]);
      SettleOpensNone(env, s1, t, r.run, u.tool, step);
    }
  }

  lemma SettleOpensNone(env: Env, s: Core, t: ThreadId, run: RunId, tool: ToolId, out: ToolOut)
    requires env.Valid()
    ensures var settled := SettleChild(env, s, t, run, tool, out);
            && !Opens(settled.events, t)
            && (t in settled.core.runs ==> t in s.runs && settled.core.runs[t] == s.runs[t])
  {
    hide TerminalEvents, Relink;
    if out.finished.Some? {
      var child := out.finished.value;
      var s1 := s.(links := s.links - {child});
      CloseObservedRuns(env, s1, child, t);
      if HasObservedRun(s1, child) {
        TerminalOpensNone(env, child, s1.runs[child], s1.clock, Finished, t);
      }
    } else if out.linked.Some? {
      RelinkRuns(env, s, t, run, tool, out.linked.value);
    }
  }

  lemma RelinkRuns(env: Env, s: Core, t: ThreadId, run: RunId, tool: ToolId, child: ThreadId)
    requires env.Valid()
    ensures Relink(env, s, t, run, tool, child).runs == s.runs
  {
  }

  lemma TerminalOpensNone(env: Env, at: ThreadId, r: RunState, clock: nat, outcome: Outcome, t: ThreadId)
    requires env.Valid()
    ensures !Opens(TerminalEvents(env, at, r, clock, outcome), t)
  {
    hide ToolEnds;
    ToolEndsAreEnds(env, at, r, r.tools.Keys, clock);
  }

  /** After every sequence of calls, while the run stays open, it receives an event for one of its
      messages or tools if and only if the event fits the run, and what it has received before stays. */
  lemma OpenRunReceivesIff(env: Env, inputs: seq<Input>, e: Canonical, x: Subject)
    requires env.Valid() && (e.MessageChunk? || e.Tool?) && Names(Observe(e), e.thread, x)
    requires e.thread in Run(env, inputs).core.runs && e.thread in Run(env, inputs + [Observe(e)]).core.runs
    ensures Own(env, inputs + [Observe(e)], e.thread, x)
            == Own(env, inputs, e.thread, x) + if Fits(Run(env, inputs).core.runs[e.thread], e) then [e] else []
  {
    hide Step, Opens, Names;
    var all := inputs + [Observe(e)];
    assert all[..|all| - 1] == inputs && all[|all| - 1] == Observe(e);
    OpenRunStays(env, Run(env, inputs).core, e);
  }

  // ----- which events open a run of their own -----

  /** The event carries something, names neither run nor turn, and its thread has not been closed. */
  predicate Unprompted(s: Core, e: Canonical) {
    && ((e.MessageChunk? && (e.content != "" || e.block.Some?)) || e.Tool?)
    && e.runRef == None && e.turnRef == None && e.thread !in s.closed
  }

  lemma {:induction false} EvictRuns(env: Env, s: Core, x: ThreadId)
    requires env.Valid()
    ensures x in Evict(env, s).core.runs ==> x in s.runs && Evict(env, s).core.runs[x] == s.runs[x]
    decreases |s.observed|
  {
    hide CloseObserved;
    if |s.observed| <= OBSERVED_RUN_CAPACITY {
    } else {
      var oldest := s.observed[0];
      var s1 := s.(observed := s.observed[1..]);
      CloseObservedShrinks(env, s1, oldest);
      CloseObservedRuns(env, s1, oldest, x);
      var rest := if oldest in s1.runs && s1.runs[oldest].turn.None? then CloseObserved(env, s1, oldest).core else s1;
      EvictRuns(env, rest, x);
    }
  }

  lemma EnsureOpens(env: Env, s: Core, e: Canonical)
    requires env.Valid() && (e.MessageChunk? || e.Tool?) && e.thread !in s.runs
    ensures var out, t := EnsureObserved(env, s, e.thread, e.runRef, e.turnRef), e.thread;
            && (Opens(out.events, t) <==> e.runRef == None && e.turnRef == None && t !in s.closed)
            && (t in out.core.runs ==> Opens(out.events, t) && out.core.runs[t] == NewRun(ObservedRunId(t), None))
  {
    hide Evict, ObservedRunId;
    var t := e.thread;
    if Observes(s, t, e.runRef, e.turnRef) {
      EvictRuns(env, s.(runs := s.runs[t := NewRun(ObservedRunId(t), None)], observed := s.observed + [t]), t);
      var out := EnsureObserved(env, s, t, e.runRef, e.turnRef);
      assert out.events[|out.events| - 1] == RunOpened(t, ObservedRunId(t));
    }
  }

  lemma IdleChunk(env: Env, s: Core, e: Canonical)
    requires env.Valid() && e.MessageChunk? && e.thread !in s.runs
    ensures var out, t := OnChunk(env, s, e), e.thread;
            && (Opens(out.events, t) <==> Unprompted(s, e))
            && (t in out.core.runs ==>
                  Unprompted(s, e) && out.core.runs[t].run == ObservedRunId(t) && out.core.runs[t].turn == None)
  {
    hide ChunkStep, EnsureObserved, ObservedRunId;
    var t := e.thread;
    EnsureOpens(env, s, e);
    var o := EnsureObserved(env, s, t, e.runRef, e.turnRef);
    if Addresses(o.core, t, e.runRef, e.turnRef) {
      ChunkStepAbout(env, t, o.core.runs[t], e.role, e.id, e.content, e.block);
      ChunkStaysIn(env, t, o.core.runs[t], e);
    }
  }

  lemma IdleTool(env: Env, s: Core, e: Canonical)
    requires env.Valid() && e.Tool? && e.thread !in s.runs
    ensures var out, t := OnTool(env, s, e), e.thread;
            && (Opens(out.events, t) <==> Unprompted(s, e))
            && (t in out.core.runs ==>
                  Unprompted(s, e) && out.core.runs[t].run == ObservedRunId(t) && out.core.runs[t].turn == None)
  {
    hide ToolStep, SettleChild, EnsureObserved, ObservedRunId;
    var t, u := e.thread, e.update;
    EnsureOpens(env, s, e);
    var o := EnsureObserved(env, s, t, e.runRef, e.turnRef);
    if Addresses(o.core, t, e.runRef, e.turnRef) {
      var r := o.core.runs[t];
      var step := ToolStep(env, t, r.run, ToolAt(r, u.tool), u);
      ToolStepAbout(env, t, r.run, ToolAt(r, u.tool), u);
      var s1 := o.core.(runs := o.core.runs[t := r.(tools := r.tools[u.tool := step.tool])]);
      SettleOpensNone(env, s1, t, r.run, u.tool, step);
    }
  }

  /** After every sequence of calls, an event on an idle thread opens the thread's implicit run if and
      only if it is unprompted; that run has received it and nothing else, and without it the thread stays
      idle. */
  lemma IdleThreadOpensIff(env: Env, inputs: seq<Input>, e: Canonical, x: Subject)
    requires env.Valid() && (e.MessageChunk? || e.Tool?) && Names(Observe(e), e.thread, x)
    requires e.thread !in Run(env, inputs).core.runs
    ensures var s, t := Run(env, inputs).core, e.thread;
            var step := Step(env, s, Observe(e));
            && (Opens(step.events, t) <==> Unprompted(s, e))
            && (t in step.core.runs ==>
                  && Unprompted(s, e) && step.core.runs[t].run == ObservedRunId(t)
                  && Own(env, inputs + [Observe(e)], t, x) == [e])
  {
    hide Run, ProjectProgress, OnChunk, OnTool, ObservedRunId, Names;
    var all := inputs + [Observe(e)];
    assert all[..|all| - 1] == inputs && all[|all| - 1] == Observe(e);
    var s := Run(env, inputs).core;
    ProgressKeepsRuns(env, s, e);
    ProgressOpensNone(env, s, e);
    var p := ProjectProgress(env, s, e);
    if e.MessageChunk? {
      IdleChunk(env, p.core, e);
    } else {
      IdleTool(env, p.core, e);
    }
  }

  // ----- how a run ends -----

  /** The outcome that the event gives to the open run of its thread. */
  function CauseOf(e: Canonical): Option<Outcome> {
    match e
    case RunStarted(_, _, _, _) => Some(Superseded)
    case RunFinished(_, _, _, _, _) => Some(Finished)
    case RunFailed(_, _, _, _, _) => Some(Errored)
    case _ => None
  }

  /** A run is closed by what happened to it, or, if it is implicit, as finished. */
  predicate EndsFor(e: Canonical, d: Event) {
    d.RunClosed? ==>
      || (CauseOf(e) == Some(d.outcome) && e.Thread() == Some(d.thread) && (!e.RunStarted? ==> d.run == e.run))
      || (d.outcome == Finished && d.run == ObservedRunId(d.thread))
  }

  /** Messages start and grow only by their own chunks, in the role these have. */
  predicate SaysFor(e: Canonical, d: Event) {
    match d
    case TextStart(t, _, id, role) => e.MessageChunk? && e.thread == t && e.id == id && e.role == role && !role.Thought?
    case TextContent(t, _, id, _) => e.MessageChunk? && e.thread == t && e.id == id && !e.role.Thought?
    case ReasoningStart(t, _, id) => e.MessageChunk? && e.thread == t && e.id == id && e.role.Thought?
    case ReasoningContent(t, _, id, _) => e.MessageChunk? && e.thread == t && e.id == id && e.role.Thought?
    case _ => true
  }

  predicate Explains(e: Canonical, d: Event) {
    EndsFor(e, d) && SaysFor(e, d)
  }

  lemma TerminalExplained(env: Env, e: Canonical, t: ThreadId, r: RunState, clock: nat, outcome: Outcome)
    requires env.Valid() && Explains(e, RunClosed(t, r.run, outcome))
    ensures forall d :: d in TerminalEvents(env, t, r, clock, outcome) ==> Explains(e, d)
  {
    hide ToolEnds, CauseOf;
    ToolEndsAreEnds(env, t, r, r.tools.Keys, clock);
  }

  lemma CloseObservedExplained(env: Env, s: Core, e: Canonical, t: ThreadId)
    requires env.Valid()
    ensures forall d :: d in CloseObserved(env, s, t).events ==> Explains(e, d)
  {
    hide TerminalEvents, CauseOf, ObservedRunId;
    if HasObservedRun(s, t) {
      TerminalExplained(env, e, t, s.runs[t], s.clock, Finished);
    }
  }

  lemma {:induction false} CloseAllExplained(env: Env, s: Core, e: Canonical, threads: seq<ThreadId>)
    requires env.Valid()
    ensures forall d :: d in CloseAll(env, s, threads).events ==> Explains(e, d)
    decreases |threads|
  {
    hide CloseObserved, Explains;
    if threads == [] {
    } else {
      CloseObservedExplained(env, s, e, threads[0]);
      CloseAllExplained(env, CloseObserved(env, s, threads[0]).core, e, threads[1..]);
    }
  }

  lemma {:induction false} EvictExplained(env: Env, s: Core, e: Canonical)
    requires env.Valid()
    ensures forall d :: d in Evict(env, s).events ==> Explains(e, d)
    decreases |s.observed|
  {
    hide CloseObserved, Explains;
    if |s.observed| <= OBSERVED_RUN_CAPACITY {
    } else {
      var oldest := s.observed[0];
      var s1 := s.(observed := s.observed[1..]);
      CloseObservedExplained(env, s1, e, oldest);
      CloseObservedShrinks(env, s1, oldest);
      EvictExplained(env, if oldest in s1.runs && s1.runs[oldest].turn.None? then CloseObserved(env, s1, oldest).core
          else s1, e);
    }
  }

  lemma EndRunExplained(env: Env, s: Core, e: Canonical, t: ThreadId, fallback: string, outcome: Outcome)
    requires env.Valid() && t in s.runs && Explains(e, RunClosed(t, s.runs[t].run, outcome))
    ensures forall d :: d in EndRun(env, s, t, fallback, outcome).events ==> Explains(e, d)
    ensures RunClosed(t, s.runs[t].run, outcome) in EndRun(env, s, t, fallback, outcome).events
  {
    hide TerminalizeTools, CloseAll, CauseOf, ObservedRunId;
    var term := SettleSubagents(env, s, t, fallback);
    TerminalizeShowsCards(env, t, s.runs[t], s.runs[t].tools.Keys, fallback, s.clock);
    CloseAllExplained(env, TakeRun(s, t), e, term.children);
    var o := CloseChildren(env, s, t, term.children);
    TerminalExplained(env, e, t, s.runs[t].(tools := term.tools), o.core.clock, outcome);
    var last := TerminalEvents(env, t, s.runs[t].(tools := term.tools), o.core.clock, outcome);
    assert last[|last| - 1] == RunClosed(t, s.runs[t].run, outcome);
    hide TerminalEvents, Explains;
  }

  lemma ProgressExplained(env: Env, s: Core, e: Canonical)
    requires env.Valid()
    ensures forall d :: d in ProjectProgress(env, s, e).events ==> Explains(e, d)
  {
    hide Render, ProgressOf, Fences, CauseOf, ObservedRunId, CloseObserved, SettleParent;
    if e.Thread().Some? && e.Thread().value in s.links && ProgressOf(env, e).Some? {
      var t := e.Thread().value;
      var s1 := SettleParent(s, s.links[t], ProgressOf(env, e).value.status).(links := s.links - {t});
      CloseObservedExplained(env, s1, e, t);
    }
  }

  /** Progress ends no run on the child's own thread but an implicit one of a linked child. */
  lemma ProgressSpares(env: Env, s: Core, e: Canonical, t: ThreadId)
    requires env.Valid() && e.Thread() == Some(t) && t in s.runs
    requires s.runs[t].run != ObservedRunId(t) || t !in s.links
    ensures var runs := ProjectProgress(env, s, e).core.runs;
            t in runs && runs[t].run == s.runs[t].run
  {
    hide Render, ProgressOf, Fences, ObservedRunId, CloseObserved, SettleParent;
    if t in s.links && ProgressOf(env, e).Some? {
      var s1 := SettleParent(s, s.links[t], ProgressOf(env, e).value.status).(links := s.links - {t});
      SettleParentRuns(s, s.links[t], ProgressOf(env, e).value.status, t);
      CloseObservedIdle(env, s1, t);
    }
  }

  lemma SettleParentRuns(s: Core, link: Link, status: string, t: ThreadId)
    requires t in s.runs
    ensures t in SettleParent(s, link, status).runs && SettleParent(s, link, status).runs[t].run == s.runs[t].run
  {
  }

  lemma EndedExplained(env: Env, s: Core, e: Canonical)
    requires env.Valid() && CauseOf(e).Some?
    ensures forall d :: d in Dispatch(env, s, e).events ==> Explains(e, d)
    ensures e.thread in s.runs && (e.RunStarted? || s.runs[e.thread].run == e.run) ==>
              RunClosed(e.thread, s.runs[e.thread].run, CauseOf(e).value) in Dispatch(env, s, e).events
  {
    hide EndRun, ObservedRunId, MarkClosed, DropLinks;
    var t := e.thread;
    if t in s.runs {
      match e
      case RunStarted(_, _, _, _) => EndRunExplained(env, s.(closed := s.closed - {t}), e, t, "failed", Superseded);
      case RunFinished(_, run, _, _, cancelled) =>
        if s.runs[t].run == run {
          EndRunExplained(env, s, e, t, if cancelled then "cancelled" else "completed", Finished);
        }
      case RunFailed(_, run, _, _, _) =>
        if s.runs[t].run == run { EndRunExplained(env, s, e, t, "failed", Errored); }
    }
  }

  lemma ChunkExplained(env: Env, s: Core, e: Canonical)
    requires env.Valid() && e.MessageChunk?
    ensures forall d :: d in OnChunk(env, s, e).events ==> Explains(e, d)
  {
    hide ChunkStep, EnsureObserved, ObservedRunId, SaysFor;
    var t := e.thread;
    EnsureExplained(env, s, e);
    var o := EnsureObserved(env, s, t, e.runRef, e.turnRef);
    if Addresses(o.core, t, e.runRef, e.turnRef) {
      ChunkStepAbout(env, t, o.core.runs[t], e.role, e.id, e.content, e.block);
      ChunkSays(env, o.core.runs[t], e);
    }
  }

  lemma ChunkSays(env: Env, r: RunState, e: Canonical)
    requires e.MessageChunk?
    ensures forall d :: d in ChunkStep(env, e.thread, r, e.role, e.id, e.content, e.block).events ==> SaysFor(e, d)
  {
    hide BlockEvents, ContentEvents, LiveContent, Meter, OpenMessage, Utf8.Chunks;
    var kept := LiveContent(r, e.id, e.content);
    var r1 := Meter(r, e.id, e.content, e.block).0;
    OpenSays(r1, e);
    ContentSays(e, r.run, Utf8.Chunks(kept, MESSAGE_CHUNK_BYTES));
    BlockSays(env, r.run, e);
    hide SaysFor;
  }

  lemma OpenSays(r: RunState, e: Canonical)
    requires e.MessageChunk?
    ensures forall d :: d in OpenMessage(e.thread, r, e.role, e.id).events ==> SaysFor(e, d)
  {
  }

  lemma BlockSays(env: Env, run: RunId, e: Canonical)
    requires e.MessageChunk?
    ensures forall d :: d in BlockEvents(env, e.thread, run, e.id, e.block) ==> SaysFor(e, d)
  {
    hide StructuredEvents;
    if e.block.Some? {
      StructuredEventsAbout(env, e.thread, run, MessageBlock(e.id, e.block.value));
    }
  }

  lemma {:induction false} ContentSays(e: Canonical, run: RunId, parts: seq<string>)
    requires e.MessageChunk?
    ensures forall d :: d in ContentEvents(e.thread, run, e.role.Thought?, e.id, parts) ==> SaysFor(e, d)
  {
    if parts == [] {
    } else {
      ContentSays(e, run, parts[1..]);
    }
  }

  lemma EnsureExplained(env: Env, s: Core, e: Canonical)
    requires env.Valid() && (e.MessageChunk? || e.Tool?)
    ensures forall d :: d in EnsureObserved(env, s, e.thread, e.runRef, e.turnRef).events ==> Explains(e, d)
  {
    hide Evict, ObservedRunId;
    var t := e.thread;
    EvictExplained(env, s.(runs := s.runs[t := NewRun(ObservedRunId(t), None)], observed := s.observed + [t]), e);
  }

  lemma ToolExplained(env: Env, s: Core, e: Canonical)
    requires env.Valid() && e.Tool?
    ensures forall d :: d in OnTool(env, s, e).events ==> Explains(e, d)
  {
    hide ToolStep, EnsureObserved, ObservedRunId, CloseObserved, Relink;
    var t, u := e.thread, e.update;
    EnsureExplained(env, s, e);
    var o := EnsureObserved(env, s, t, e.runRef, e.turnRef);
    if Addresses(o.core, t, e.runRef, e.turnRef) {
      var r := o.core.runs[t];
      var step := ToolStep(env, t, r.run, ToolAt(r, u.tool), u);
      ToolStepAbout(env, t, r.run, ToolAt(r, u.tool), u);
      var s1 := o.core.(runs := o.core.runs[t := r.(tools := r.tools[u.tool := step.tool])]);
      if step.finished.Some? {
        CloseObservedExplained(env, s1.(links := s1.links - {step.finished.value}), e, step.finished.value);
      }
    }
  }

  lemma DispatchExplained(env: Env, s: Core, e: Canonical)
    requires env.Valid()
    ensures forall d :: d in Dispatch(env, s, e).events ==> Explains(e, d)
  {
    hide Explains, OnChunk, OnTool, OnRunStarted, OnRunEnded;
    if CauseOf(e).Some? {
      EndedExplained(env, s, e);
    } else if e.MessageChunk? {
      ChunkExplained(env, s, e);
    } else if e.Tool? {
      ToolExplained(env, s, e);
    } else {
      NotifyExplained(env, s, e);
    }
  }

  lemma NotifyExplained(env: Env, s: Core, e: Canonical)
    requires env.Valid() && CauseOf(e).None? && !e.MessageChunk? && !e.Tool?
    ensures forall d :: d in Dispatch(env, s, e).events ==> Explains(e, d)
  {
    hide ObservedRunId, SessionRunId;
  }

  /** Messages start and grow only by their own chunks, in their role. A run closes as errored only
      because it failed, as superseded only because another starts on its thread, and as finished only
      because it finished or is implicit; and an event that ends the run a client started does close it
      so. */
  lemma EventsExplained(env: Env, s: Core, e: Canonical)
    requires env.Valid()
    ensures forall d :: d in Step(env, s, Observe(e)).events ==> Explains(e, d)
    ensures CauseOf(e).Some? && e.thread in s.runs && (e.RunStarted? || s.runs[e.thread].run == e.run)
            && (s.runs[e.thread].run != ObservedRunId(e.thread) || e.thread !in s.links) ==>
              RunClosed(e.thread, s.runs[e.thread].run, CauseOf(e).value) in Step(env, s, Observe(e)).events
  {
    hide Explains, ProjectProgress, Dispatch, ObservedRunId;
    var p := ProjectProgress(env, s, e);
    ProgressExplained(env, s, e);
    DispatchExplained(env, p.core, e);
    if CauseOf(e).Some? {
      EndedExplained(env, p.core, e);
      if e.thread in s.runs && (s.runs[e.thread].run != ObservedRunId(e.thread) || e.thread !in s.links) {
        ProgressSpares(env, s, e, e.thread);
      }
    }
  }
}
