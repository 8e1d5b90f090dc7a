/** Generation floors on sub-agent links: once a child has been re-tasked, what its earlier
    generations still emit can no longer reach the parent's card. */
module AgUiFence {
  import opened Wrappers
  import opened AgUiTypes
  import opened AgUiRun
  import opened AgUiCore

  /** Floors are ordered with "no floor" at the bottom. */
  predicate FloorLe(a: Option<Generation>, b: Option<Generation>) {
    a.Some? ==> b.Some? && a.value <= b.value
  }

  /** A recorded child generation is never below the floor. */
  ghost predicate FloorsHold(s: Core) {
    forall x :: x in s.links && s.links[x].generation.Some? ==>
      FloorLe(s.links[x].floor, s.links[x].generation)
  }

  /** The two links belong to the same tool invocation of the same run. */
  predicate SameInvocation(a: Link, b: Link) {
    a.parentRun == b.parentRun && a.tool == b.tool
  }

  // ----- what each function does to a link -----

  lemma RenderKeeps(link: Link, p: Progress)
    ensures var r := Render(link, p).0;
            r == link.(revisions := r.revisions, running := r.running, rendered := r.rendered)
  {
  }

  /** Progress keeps a link's floor and invocation; only an unfenced RunStarted sets its generation. */
  lemma ProgressOnLinks(env: Env, s: Core, e: Canonical, x: ThreadId)
    requires env.Valid() && x in ProjectProgress(env, s, e).core.links
    ensures x in s.links
    ensures var a, b := s.links[x], ProjectProgress(env, s, e).core.links[x];
            && b.floor == a.floor && SameInvocation(a, b) && b.parentThread == a.parentThread && b.child == a.child
            && (b.generation == a.generation || (e.RunStarted? && b.generation == Some(e.generation) && !Fences(a, e)))
  {
    hide CloseObserved, ProgressOf, Render, Fences, SettleParent;
    if e.Thread().Some? && e.Thread().value in s.links {
      var t := e.Thread().value;
      var link := s.links[t];
      var link1 := if e.RunStarted? then link.(childRun := Some(e.run), generation := Some(e.generation)) else link;
      if ProgressOf(env, e).Some? {
        var p := ProgressOf(env, e).value;
        RenderKeeps(link1, p);
        CloseObservedLinks(env, SettleParent(s, link, p.status).(links := s.links - {t}), t);
      }
    }
  }

  lemma CloseObservedLinks(env: Env, s: Core, t: ThreadId)
    requires env.Valid()
    ensures CloseObserved(env, s, t).core.links == s.links
  {
  }

  lemma {:induction false} CloseAllLinks(env: Env, s: Core, threads: seq<ThreadId>)
    requires env.Valid()
    ensures CloseAll(env, s, threads).core.links == s.links
    decreases |threads|
  {
    hide CloseObserved;
    if threads == [] {
    } else {
      CloseObservedLinks(env, s, threads[0]);
      CloseAllLinks(env, CloseObserved(env, s, threads[0]).core, threads[1..]);
    }
  }

  lemma {:induction false} EvictLinks(env: Env, s: Core)
    requires env.Valid()
    ensures Evict(env, s).core.links == s.links
    decreases |s.observed|
  {
    hide CloseObserved;
    if |s.observed| <= OBSERVED_RUN_CAPACITY {
    } else {
      var oldest := s.observed[0];
      var s1 := s.(observed := s.observed[1..]);
      CloseObservedLinks(env, s1, oldest);
      CloseObservedShrinks(env, s1, oldest);
      EvictLinks(env, if oldest in s1.runs && s1.runs[oldest].turn.None? then CloseObserved(env, s1, oldest).core
          else s1);
    }
  }

  /** The link a relinked child ends up with. */
  lemma RelinkOn(env: Env, s: Core, t: ThreadId, run: RunId, tool: ToolId, child: ThreadId, x: ThreadId)
    requires env.Valid() && x in s.links && x in Relink(env, s, t, run, tool, child).links
    ensures LinkStep(s.links[x], Relink(env, s, t, run, tool, child).links[x])
  {
    if x != child {
      assert Relink(env, s, t, run, tool, child).links[x] == s.links[x];
    }
  }

  /** Links are otherwise only removed or created. */
  lemma ToolArmOnLinks(env: Env, s: Core, e: Canonical, x: ThreadId)
    requires env.Valid() && e.Tool? && x in s.links && x in OnTool(env, s, e).core.links
    ensures LinkStep(s.links[x], OnTool(env, s, e).core.links[x])
  {
    hide ToolStep, CloseObserved, Evict, Relink;
    var o := EnsureObserved(env, s, e.thread, e.runRef, e.turnRef);
    EvictLinks(env, s.(runs := s.runs[e.thread := NewRun(ObservedRunId(e.thread), None)],
        observed := s.observed + [e.thread]));
    assert o.core.links == s.links;
    if Addresses(o.core, e.thread, e.runRef, e.turnRef) {
      var r := o.core.runs[e.thread];
      var step := ToolStep(env, e.thread, r.run, ToolAt(r, e.update.tool), e.update);
      var s1 := o.core.(runs := o.core.runs[e.thread := r.(tools := r.tools[e.update.tool := step.tool])]);
      if step.finished.Some? {
        CloseObservedLinks(env, s1.(links := s1.links - {step.finished.value}), step.finished.value);
      } else if step.linked.Some? {
        RelinkOn(env, s1, e.thread, r.run, e.update.tool, step.linked.value, x);
      }
    }
  }

  /** How a link may change while it persists. */
  ghost predicate LinkStep(a: Link, b: Link) {
    && FloorLe(a.floor, b.floor)
    && (SameInvocation(a, b) ==> b.generation == a.generation && b.floor == a.floor)
    && (!SameInvocation(a, b) ==> b.generation.None? && b.floor == NextFloor(a))
  }

  lemma EndRunLinks(env: Env, s: Core, t: ThreadId, fallback: string, outcome: Outcome)
    requires env.Valid() && t in s.runs
    ensures EndRun(env, s, t, fallback, outcome).core.links == s.links
  {
    hide SettleSubagents, CloseChildren, TerminalEvents;
    CloseChildrenLinks(env, s, t, SettleSubagents(env, s, t, fallback).children);
  }

  lemma CloseChildrenLinks(env: Env, s: Core, t: ThreadId, children: seq<ThreadId>)
    requires env.Valid() && t in s.runs
    ensures CloseChildren(env, s, t, children).core.links == s.links
  {
    hide CloseAll;
    CloseAllLinks(env, TakeRun(s, t), children);
  }

  lemma DispatchOnLinks(env: Env, s: Core, e: Canonical, x: ThreadId)
    requires env.Valid() && x in s.links && x in Dispatch(env, s, e).core.links
    ensures LinkStep(s.links[x], Dispatch(env, s, e).core.links[x])
  {
    hide EndRun, OnTool;
    match e
    case Tool(_, _, _, _, _) => ToolArmOnLinks(env, s, e, x);
    case RunStarted(t, _, _, _) =>
      if t in s.runs { EndRunLinks(env, s.(closed := s.closed - {t}), t, "failed", Superseded); }
    case RunFinished(t, _, _, _, cancelled) =>
      if t in s.runs { EndRunLinks(env, s, t, if cancelled then "cancelled" else "completed", Finished); }
    case RunFailed(t, _, _, _, _) =>
      if t in s.runs { EndRunLinks(env, s, t, "failed", Errored); }
    case MessageChunk(_, _, _, _, _, _, _, _) => ChunkArmLinks(env, s, e);
    case _ =>
  }

  lemma ChunkArmLinks(env: Env, s: Core, e: Canonical)
    requires env.Valid() && e.MessageChunk?
    ensures OnChunk(env, s, e).core.links == s.links
  {
    hide ChunkStep, Evict;
    EvictLinks(env, s.(runs := s.runs[e.thread := NewRun(ObservedRunId(e.thread), None)],
        observed := s.observed + [e.thread]));
  }

  // ----- one call -----

  /** A link created by a call starts without generation and floor. */
  lemma NewLinkIsBlank(env: Env, s: Core, i: Input, x: ThreadId)
    requires env.Valid() && x !in s.links && x in Step(env, s, i).core.links
    ensures Step(env, s, i).core.links[x].generation.None? && Step(env, s, i).core.links[x].floor.None?
  {
    match i
    case LinkChild(_, _, _, _) =>
    case Observe(e) =>
      hide ProjectProgress, Dispatch, OnTool, Fences;
      var s1 := ProjectProgress(env, s, e).core;
      assert x !in s1.links by {
        if x in s1.links { ProgressOnLinks(env, s, e, x); }
      }
      DispatchCreatesOnlyForTools(env, s1, e, x);
      DispatchTool(env, s1, e);
      NewToolLinkIsBlank(env, s1, e, x);
  }

  lemma DispatchTool(env: Env, s: Core, e: Canonical)
    requires env.Valid() && e.Tool?
    ensures Dispatch(env, s, e) == OnTool(env, s, e)
  {
    hide OnTool;
  }

  lemma NewToolLinkIsBlank(env: Env, s: Core, e: Canonical, x: ThreadId)
    requires env.Valid() && e.Tool? && x !in s.links && x in OnTool(env, s, e).core.links
    ensures OnTool(env, s, e).core.links[x].generation.None? && OnTool(env, s, e).core.links[x].floor.None?
  {
    hide ToolStep, CloseObserved, Evict;
    var o := EnsureObserved(env, s, e.thread, e.runRef, e.turnRef);
    EvictLinks(env, s.(runs := s.runs[e.thread := NewRun(ObservedRunId(e.thread), None)],
        observed := s.observed + [e.thread]));
    assert o.core.links == s.links;
    if Addresses(o.core, e.thread, e.runRef, e.turnRef) {
      var r := o.core.runs[e.thread];
      var step := ToolStep(env, e.thread, r.run, ToolAt(r, e.update.tool), e.update);
      var s1 := o.core.(runs := o.core.runs[e.thread := r.(tools := r.tools[e.update.tool := step.tool])]);
      if step.finished.Some? {
        CloseObservedLinks(env, s1.(links := s1.links - {step.finished.value}), step.finished.value);
      }
    }
  }

  /** While a link persists its floor never decreases, and replacing its invocation lifts the floor
      above every generation observed under the old one. */
  lemma FloorNeverDrops(env: Env, s: Core, i: Input, x: ThreadId)
    requires env.Valid() && x in s.links && x in Step(env, s, i).core.links
    ensures var a, b := s.links[x], Step(env, s, i).core.links[x];
            && FloorLe(a.floor, b.floor)
            && (!SameInvocation(a, b) && a.generation.Some? && a.generation.value < MAX_GENERATION ==>
                  b.floor.Some? && b.floor.value > a.generation.value)
  {
    match i
    case LinkChild(_, _, _, _) =>
    case Observe(e) =>
      hide ProjectProgress, Dispatch, Fences;
      var s1 := ProjectProgress(env, s, e).core;
      if x in s1.links {
        ProgressOnLinks(env, s, e, x);
        DispatchOnLinks(env, s1, e, x);
        if e.RunStarted? {
          RunStartedKeepsInvocation(env, s1, e, x);
        }
      } else {
        DispatchCreatesOnlyForTools(env, s1, e, x);
        ProgressKeepsToolLinks(env, s, e, x);
        assert false;
      }
  }

  lemma RunStartedKeepsInvocation(env: Env, s: Core, e: Canonical, x: ThreadId)
    requires env.Valid() && e.RunStarted? && x in s.links && x in Dispatch(env, s, e).core.links
    ensures Dispatch(env, s, e).core.links[x] == s.links[x]
  {
    hide EndRun;
    if e.thread in s.runs {
      EndRunLinks(env, s.(closed := s.closed - {e.thread}), e.thread, "failed", Superseded);
    }
  }

  lemma DispatchCreatesOnlyForTools(env: Env, s: Core, e: Canonical, x: ThreadId)
    requires env.Valid() && x !in s.links && x in Dispatch(env, s, e).core.links
    ensures e.Tool?
  {
    hide OnTool, EndRun;
    match e
    case RunStarted(t, _, _, _) =>
      if t in s.runs { EndRunLinks(env, s.(closed := s.closed - {t}), t, "failed", Superseded); }
    case RunFinished(t, _, _, _, cancelled) =>
      if t in s.runs { EndRunLinks(env, s, t, if cancelled then "cancelled" else "completed", Finished); }
    case RunFailed(t, _, _, _, _) =>
      if t in s.runs { EndRunLinks(env, s, t, "failed", Errored); }
    case MessageChunk(_, _, _, _, _, _, _, _) => ChunkArmLinks(env, s, e);
    case _ =>
  }

  /** A tool event of a child is never terminal progress. */
  lemma ProgressKeepsToolLinks(env: Env, s: Core, e: Canonical, x: ThreadId)
    requires env.Valid() && e.Tool? && x in s.links
    ensures x in ProjectProgress(env, s, e).core.links
  {
    hide Render, CloseObserved;
  }

  /** A recorded generation stays at or above the floor. */
  lemma FloorsHoldStep(env: Env, s: Core, i: Input)
    requires env.Valid() && FloorsHold(s)
    ensures FloorsHold(Step(env, s, i).core)
  {
    hide Step;
    forall x | x in Step(env, s, i).core.links && Step(env, s, i).core.links[x].generation.Some?
      ensures FloorLe(Step(env, s, i).core.links[x].floor, Step(env, s, i).core.links[x].generation)
    {
      if x in s.links {
        FloorHoldsOn(env, s, i, x);
      } else {
        NewLinkIsBlank(env, s, i, x);
      }
    }
  }

  lemma FloorHoldsOn(env: Env, s: Core, i: Input, x: ThreadId)
    requires env.Valid() && FloorsHold(s) && x in s.links && x in Step(env, s, i).core.links
    requires Step(env, s, i).core.links[x].generation.Some?
    ensures FloorLe(Step(env, s, i).core.links[x].floor, Step(env, s, i).core.links[x].generation)
  {
    match i
    case LinkChild(_, _, _, _) =>
    case Observe(e) =>
      hide ProjectProgress, Dispatch, Fences;
      var s1 := ProjectProgress(env, s, e).core;
      if x in s1.links {
        ProgressOnLinks(env, s, e, x);
        DispatchOnLinks(env, s1, e, x);
        if e.RunStarted? && !Fences(s.links[x], e) {
          UnfencedIsAbove(s.links[x], e);
        }
      } else {
        DispatchCreatesOnlyForTools(env, s1, e, x);
        ProgressKeepsToolLinks(env, s, e, x);
        assert false;
      }
  }

  lemma UnfencedIsAbove(link: Link, e: Canonical)
    requires e.RunStarted? && !Fences(link, e)
    ensures FloorLe(link.floor, Some(e.generation))
  {
  }

  /** In every reachable state. */
  lemma {:induction false} FloorsAlwaysHold(env: Env, inputs: seq<Input>)
    requires env.Valid()
    ensures FloorsHold(Run(env, inputs).core)
    decreases |inputs|
  {
    hide Step, FloorsHold;
    if inputs == [] {
      NoLinksNoFloors();
    } else {
      FloorsAlwaysHold(env, inputs[..|inputs| - 1]);
      FloorsHoldStep(env, Run(env, inputs[..|inputs| - 1]).core, inputs[|inputs| - 1]);
    }
  }

  lemma NoLinksNoFloors()
    ensures FloorsHold(EMPTY_CORE)
  {
  }

  // ----- ever after -----

  /** The state after more calls. */
  ghost function After(env: Env, s: Core, inputs: seq<Input>): Core
    requires env.Valid()
    decreases |inputs|
  {
    if inputs == [] then s
    else Step(env, After(env, s, inputs[..|inputs| - 1]), inputs[|inputs| - 1]).core
  }

  /** The child stays linked through all the calls. */
  ghost predicate StaysLinked(env: Env, s: Core, inputs: seq<Input>, child: ThreadId)
    requires env.Valid()
    decreases |inputs|
  {
    child in After(env, s, inputs).links
    && (inputs != [] ==> StaysLinked(env, s, inputs[..|inputs| - 1], child))
  }

  lemma {:induction false} FloorNeverDropsAfter(env: Env, s: Core, inputs: seq<Input>, child: ThreadId)
    requires env.Valid() && StaysLinked(env, s, inputs, child)
    ensures child in s.links && child in After(env, s, inputs).links
    ensures FloorLe(s.links[child].floor, After(env, s, inputs).links[child].floor)
    decreases |inputs|
  {
    hide Step;
    if inputs == [] {
    } else {
      var front := inputs[..|inputs| - 1];
      FloorNeverDropsAfter(env, s, front, child);
      FloorNeverDrops(env, After(env, s, front), inputs[|inputs| - 1], child);
    }
  }

  /** MAIN THEOREM.  A call replaces the invocation a child was linked under after generation g was
      observed; then, for as long as the child stays linked, an event of generation at most g on the
      child's thread neither shows a card nor changes anything through the link. */
  lemma StaleGenerationsFenced(env: Env, s: Core, retask: Input, later: seq<Input>, child: ThreadId, e: Canonical,
      g: Generation)
    requires env.Valid() && child in s.links && s.links[child].generation == Some(g) && g < MAX_GENERATION
    requires child in Step(env, s, retask).core.links
    requires !SameInvocation(s.links[child], Step(env, s, retask).core.links[child])
    requires StaysLinked(env, Step(env, s, retask).core, later, child)
    requires e.Thread() == Some(child) && EventGeneration(e).Some? && EventGeneration(e).value <= g
    ensures var now := After(env, Step(env, s, retask).core, later);
            ProjectProgress(env, now, e) == Out(now, [])
  {
    hide Step, After, StaysLinked;
    var s1 := Step(env, s, retask).core;
    FloorNeverDrops(env, s, retask, child);
    FloorNeverDropsAfter(env, s1, later, child);
    assert Fences(After(env, s1, later).links[child], e);
  }
}
