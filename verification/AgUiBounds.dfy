/** The projector's tables stay bounded over every run, and what the start and the end of a run leave in them. */
module AgUiBounds {
  import opened Wrappers
  import opened AgUiTypes
  import opened AgUiRun
  import opened AgUiCore
  import opened AgUiStream
  import opened AgUiFence
  import opened AgUiCards
  import opened AgUiProgress
  import opened AgUiReceipt

  // ----- bounded tables -----

  /** The bound on closed threads, and the one on implicit runs with so many more on the way. */
  predicate Fit(s: Core, more: nat) {
    |s.closed| <= CLOSED_THREAD_CAPACITY && |s.observed| <= OBSERVED_RUN_CAPACITY + more
  }

  lemma MarkClosedFits(env: Env, s: Core, t: ThreadId)
    requires env.Valid() && |s.closed| <= CLOSED_THREAD_CAPACITY
    ensures var after := MarkClosed(env, s, t);
            && |after.closed| <= CLOSED_THREAD_CAPACITY && t in after.closed
            && after == s.(closed := after.closed, clock := after.clock)
  {
    if t !in s.closed && |s.closed| >= CLOSED_THREAD_CAPACITY {
      var k := env.pick(s.clock, s.closed);
      assert s.closed != {};
      assert |s.closed - {k}| == |s.closed| - 1;
    }
  }

  lemma CloseObservedFits(env: Env, s: Core, t: ThreadId, more: nat)
    requires env.Valid() && Fit(s, more)
    ensures Fit(CloseObserved(env, s, t).core, more)
    ensures |CloseObserved(env, s, t).core.observed| <= |s.observed|
  {
    hide TerminalEvents, MarkClosed;
    if HasObservedRun(s, t) {
      MarkClosedFits(env, TakeRun(s, t).(observed := Without(s.observed, t)), t);
    }
  }

  lemma {:induction false} CloseAllFits(env: Env, s: Core, threads: seq<ThreadId>)
    requires env.Valid() && Fit(s, 0)
    ensures Fit(CloseAll(env, s, threads).core, 0)
    decreases |threads|
  {
    hide CloseObserved, Fit;
    if threads == [] {
    } else {
      CloseObservedFits(env, s, threads[0], 0);
      CloseAllFits(env, CloseObserved(env, s, threads[0]).core, threads[1..]);
    }
  }

  /** Evicting brings the queue back within its bound. */
  lemma {:induction false} EvictFits(env: Env, s: Core, more: nat)
    requires env.Valid() && Fit(s, more)
    ensures Fit(Evict(env, s).core, 0)
    decreases |s.observed|
  {
    hide CloseObserved;
    if |s.observed| <= OBSERVED_RUN_CAPACITY {
    } else {
      var oldest := s.observed[0];
      var s1 := s.(observed := s.observed[1..]);
      CloseObservedFits(env, s1, oldest, more);
      var rest := if oldest in s1.runs && s1.runs[oldest].turn.None? then CloseObserved(env, s1, oldest).core else s1;
      EvictFits(env, rest, more);
    }
  }

  lemma EnsureFits(env: Env, s: Core, t: ThreadId, runRef: Option<RunId>, turnRef: Option<TurnId>)
    requires env.Valid() && Fit(s, 0)
    ensures Fit(EnsureObserved(env, s, t, runRef, turnRef).core, 0)
  {
    hide Evict;
    if Observes(s, t, runRef, turnRef) {
      EvictFits(env, s.(runs := s.runs[t := NewRun(ObservedRunId(t), None)], observed := s.observed + [t]), 1);
    }
  }

  lemma EndRunFits(env: Env, s: Core, t: ThreadId, fallback: string, outcome: Outcome)
    requires env.Valid() && t in s.runs && Fit(s, 0)
    ensures Fit(EndRun(env, s, t, fallback, outcome).core, 0)
  {
    hide SettleSubagents, CloseAll, TerminalEvents;
    CloseAllFits(env, TakeRun(s, t), SettleSubagents(env, s, t, fallback).children);
  }

  lemma ProgressFits(env: Env, s: Core, e: Canonical)
    requires env.Valid() && Fit(s, 0)
    ensures Fit(ProjectProgress(env, s, e).core, 0)
  {
    hide CloseObserved, ProgressOf, Render, Fences;
    if e.Thread().Some? && e.Thread().value in s.links && ProgressOf(env, e).Some? {
      var t := e.Thread().value;
      var settled := SettleParent(s, s.links[t], ProgressOf(env, e).value.status);
      CloseObservedFits(env, settled.(links := s.links - {t}), t, 0);
    }
  }

  lemma ToolFits(env: Env, s: Core, e: Canonical)
    requires env.Valid() && e.Tool? && Fit(s, 0)
    ensures Fit(OnTool(env, s, e).core, 0)
  {
    hide EnsureObserved, ToolStep, CloseObserved;
    EnsureFits(env, s, e.thread, e.runRef, e.turnRef);
    var o := EnsureObserved(env, s, e.thread, e.runRef, e.turnRef);
    if Addresses(o.core, e.thread, e.runRef, e.turnRef) {
      var r := o.core.runs[e.thread];
      var step := ToolStep(env, e.thread, r.run, ToolAt(r, e.update.tool), e.update);
      var s1 := o.core.(runs := o.core.runs[e.thread := r.(tools := r.tools[e.update.tool := step.tool])]);
      SettleFits(env, s1, e.thread, r.run, e.update.tool, step);
    }
  }

  lemma SettleFits(env: Env, s: Core, t: ThreadId, run: RunId, tool: ToolId, out: ToolOut)
    requires env.Valid() && Fit(s, 0)
    ensures Fit(SettleChild(env, s, t, run, tool, out).core, 0)
  {
    hide CloseObserved;
    if out.finished.Some? {
      CloseObservedFits(env, s.(links := s.links - {out.finished.value}), out.finished.value, 0);
    } else if out.linked.Some? {
      Smaller(s.closed, out.linked.value);
    }
  }

  lemma Smaller(a: set<ThreadId>, x: ThreadId)
    ensures |a - {x}| <= |a|
  {
    if x in a {
      assert |a - {x}| == |a| - 1;
    } else {
      assert a - {x} == a;
    }
  }

  lemma DispatchFits(env: Env, s: Core, e: Canonical)
    requires env.Valid() && Fit(s, 0)
    ensures Fit(Dispatch(env, s, e).core, 0)
  {
    hide EndRun, OnTool, EnsureObserved, MarkClosed, DropLinks, ChunkStep;
    match e
    case RunStarted(t, _, _, _) =>
      Smaller(s.closed, t);
      if t in s.runs { EndRunFits(env, s.(closed := s.closed - {t}), t, "failed", Superseded); }
    case RunFinished(t, run, _, _, cancelled) =>
      EndedFits(env, s, t, run, if cancelled then "cancelled" else "completed", Finished);
    case RunFailed(t, run, _, _, _) => EndedFits(env, s, t, run, "failed", Errored);
    case MessageChunk(_, _, _, _, _, _, _, _) => EnsureFits(env, s, e.thread, e.runRef, e.turnRef);
    case Tool(_, _, _, _, _) => ToolFits(env, s, e);
    case _ =>
  }

  lemma EndedFits(env: Env, s: Core, t: ThreadId, run: RunId, fallback: string, outcome: Outcome)
    requires env.Valid() && Fit(s, 0)
    ensures Fit(OnRunEnded(env, s, t, run, fallback, outcome).core, 0)
  {
    hide EndRun, MarkClosed, DropLinks;
    if t in s.runs && s.runs[t].run == run {
      EndRunFits(env, s, t, fallback, outcome);
      MarkClosedFits(env, EndRun(env, s, t, fallback, outcome).core, t);
    }
  }

  // ----- bounded links -----

  lemma FewerLinks(a: map<ThreadId, Link>, b: map<ThreadId, Link>)
    requires a.Keys <= b.Keys
    ensures |a| <= |b|
  {
    assert |a| == |a.Keys| && |b| == |b.Keys|;
    var rest := b.Keys - a.Keys;
    assert b.Keys == a.Keys + rest;
  }

  /** Room is made before a link is added. */
  lemma AddFits(env: Env, s: Core, child: ThreadId, link: Link)
    requires env.Valid() && |s.links| <= SUBAGENT_LINK_CAPACITY
    ensures |MakeRoom(env, s, child).links[child := link]| <= SUBAGENT_LINK_CAPACITY
  {
    var room := MakeRoom(env, s, child).links;
    if child in s.links {
      assert room[child := link].Keys == s.links.Keys;
      FewerLinks(room[child := link], s.links);
    } else {
      assert room[child := link].Keys == room.Keys + {child};
      assert |room[child := link]| == |room[child := link].Keys| && |room| == |room.Keys|;
      if |s.links| >= SUBAGENT_LINK_CAPACITY {
        var k := env.pick(s.clock, s.links.Keys);
        assert |s.links| == |s.links.Keys|;
        assert s.links.Keys != {};
        assert room.Keys == s.links.Keys - {k};
      }
    }
  }

  lemma ToolLinksFit(env: Env, s: Core, e: Canonical)
    requires env.Valid() && e.Tool? && |s.links| <= SUBAGENT_LINK_CAPACITY
    ensures |OnTool(env, s, e).core.links| <= SUBAGENT_LINK_CAPACITY
  {
    hide ToolStep, CloseObserved, Evict, MakeRoom;
    var o := EnsureObserved(env, s, e.thread, e.runRef, e.turnRef);
    EvictLinks(env, s.(runs := s.runs[e.thread := NewRun(ObservedRunId(e.thread), None)],
        observed := s.observed + [e.thread]));
    assert o.core.links == s.links;
    if Addresses(o.core, e.thread, e.runRef, e.turnRef) {
      var r := o.core.runs[e.thread];
      var step := ToolStep(env, e.thread, r.run, ToolAt(r, e.update.tool), e.update);
      var s1 := o.core.(runs := o.core.runs[e.thread := r.(tools := r.tools[e.update.tool := step.tool])]);
      SettleLinksFit(env, s1, e.thread, r.run, e.update.tool, step);
    }
  }

  lemma SettleLinksFit(env: Env, s: Core, t: ThreadId, run: RunId, tool: ToolId, out: ToolOut)
    requires env.Valid() && |s.links| <= SUBAGENT_LINK_CAPACITY
    ensures |SettleChild(env, s, t, run, tool, out).core.links| <= SUBAGENT_LINK_CAPACITY
  {
    hide CloseObserved, MakeRoom, NextFloor;
    if out.finished.Some? {
      var child := out.finished.value;
      CloseObservedLinks(env, s.(links := s.links - {child}), child);
      FewerLinks(s.links - {child}, s.links);
    } else if out.linked.Some? {
      AddFits(env, s, out.linked.value, Relink(env, s, t, run, tool, out.linked.value).links[out.linked.value]);
    }
  }

  lemma LinksStayFit(env: Env, s: Core, i: Input)
    requires env.Valid() && |s.links| <= SUBAGENT_LINK_CAPACITY
    ensures |Step(env, s, i).core.links| <= SUBAGENT_LINK_CAPACITY
  {
    hide ProjectProgress, Dispatch, MakeRoom;
    match i
    case LinkChild(t, run, tool, child) =>
      AddFits(env, s, child, Link(t, run, tool, child, None, None, None, {}, [], None));
    case Observe(e) =>
      var s1 := ProjectProgress(env, s, e).core;
      forall x | x in s1.links
        ensures x in s.links
      {
        ProgressOnLinks(env, s, e, x);
      }
      FewerLinks(s1.links, s.links);
      if e.Tool? {
        DispatchTool(env, s1, e);
        ToolLinksFit(env, s1, e);
      } else {
        forall x | x in Dispatch(env, s1, e).core.links
          ensures x in s1.links
        {
          OtherArmLinks(env, s1, e, x);
        }
        FewerLinks(Dispatch(env, s1, e).core.links, s1.links);
      }
  }

  lemma StepFits(env: Env, s: Core, i: Input)
    requires env.Valid() && Fit(s, 0)
    ensures Fit(Step(env, s, i).core, 0)
  {
    hide ProjectProgress, Dispatch;
    match i
    case LinkChild(_, _, _, _) =>
    case Observe(e) =>
      ProgressFits(env, s, e);
      DispatchFits(env, ProjectProgress(env, s, e).core, e);
  }

  /** After every sequence of calls the projector remembers at most 2048 closed threads and 2048 links,
      lists at most 256 implicit runs, and keeps of a link at most 16 tools in flight and 1024 revisions. */
  lemma {:induction false} TablesBounded(env: Env, inputs: seq<Input>)
    requires env.Valid()
    ensures var s := Run(env, inputs).core;
            && |s.closed| <= 2048 && |s.links| <= 2048 && |s.observed| <= 256
            && forall x :: x in s.links ==> |s.links[x].running| <= 16 && |s.links[x].revisions| <= 1024
    decreases |inputs|
  {
    hide Step;
    LinksInUse(env, inputs);
    if inputs == [] {
    } else {
      var front := inputs[..|inputs| - 1];
      TablesBounded(env, front);
      StepFits(env, Run(env, front).core, inputs[|inputs| - 1]);
      LinksStayFit(env, Run(env, front).core, inputs[|inputs| - 1]);
    }
  }

  // ----- what the start and the end of a run leave -----

  /** A run that starts is open under its own name and turn, and its thread is not closed. */
  lemma StartOpens(env: Env, s: Core, e: Canonical)
    requires env.Valid() && e.RunStarted?
    ensures var after := Step(env, s, Observe(e)).core;
            e.thread in after.runs && after.runs[e.thread] == NewRun(e.run, Some(e.turn))
  {
    hide ProjectProgress, EndRun, DropLinks;
  }

  /** When the open run of a thread ends, it is gone and the thread is closed, so that nothing opens a run
      of its own there. */
  lemma EndCloses(env: Env, s: Core, e: Canonical)
    requires env.Valid() && Fit(s, 0) && (e.RunFinished? || e.RunFailed?) && e.thread in s.runs
    requires s.runs[e.thread].run == e.run && (e.run != ObservedRunId(e.thread) || e.thread !in s.links)
    ensures var after := Step(env, s, Observe(e)).core;
            e.thread !in after.runs && e.thread in after.closed
  {
    hide ProjectProgress, EndRun, DropLinks, MarkClosed, ObservedRunId, Fit;
    var t := e.thread;
    var s1 := ProjectProgress(env, s, e).core;
    ProgressFits(env, s, e);
    ProgressSpares(env, s, e, t);
    var fallback := EndStatus(e).value;
    var outcome := CauseOf(e).value;
    EndRunFits(env, s1, t, fallback, outcome);
    EndRunGone(env, s1, t, fallback, outcome);
    FitClosed(EndRun(env, s1, t, fallback, outcome).core);
    MarkClosedFits(env, EndRun(env, s1, t, fallback, outcome).core, t);
  }

  lemma FitClosed(s: Core)
    requires Fit(s, 0)
    ensures |s.closed| <= CLOSED_THREAD_CAPACITY
  {
  }

  lemma EndRunGone(env: Env, s: Core, t: ThreadId, fallback: string, outcome: Outcome)
    requires env.Valid() && t in s.runs
    ensures t !in EndRun(env, s, t, fallback, outcome).core.runs
  {
    hide SettleSubagents, CloseAll, TerminalEvents;
    CloseAllTakesOut(env, TakeRun(s, t), SettleSubagents(env, s, t, fallback).children, t, t);
  }

  /** A run that fails, is cancelled or is superseded takes the links of its tool calls with it; one that
      completes leaves them. */
  lemma EndDropsLinks(env: Env, s: Core, e: Canonical, x: ThreadId)
    requires env.Valid() && CauseOf(e).Some? && e.thread in s.runs && (e.RunStarted? || s.runs[e.thread].run == e.run)
    requires x in s.links
    ensures var hangs := s.links[x].parentThread == e.thread && s.links[x].parentRun == s.runs[e.thread].run;
            x in Dispatch(env, s, e).core.links <==> !hangs || EndStatus(e) == Some("completed")
  {
    hide EndRun, MarkClosed;
    var t := e.thread;
    match e
    case RunStarted(_, _, _, _) => EndRunLinks(env, s.(closed := s.closed - {t}), t, "failed", Superseded);
    case RunFinished(_, _, _, _, cancelled) =>
      EndRunLinks(env, s, t, if cancelled then "cancelled" else "completed", Finished);
      MarkClosedLinks(env, EndRun(env, s, t, if cancelled then "cancelled" else "completed", Finished).core, t);
    case RunFailed(_, _, _, _, _) =>
      EndRunLinks(env, s, t, "failed", Errored);
      MarkClosedLinks(env, EndRun(env, s, t, "failed", Errored).core, t);
  }

  lemma MarkClosedLinks(env: Env, s: Core, t: ThreadId)
    requires env.Valid()
    ensures MarkClosed(env, s, t).links == s.links
  {
  }

  // ----- the children of a closing run -----

  /** Closing the run finishes the child of the tool: its end is known, or the run failed. */
  predicate Finishes(env: Env, ts: ToolState, fallback: string, child: ThreadId) {
    ts.child == Some(child) && (KnownTerminal(env, ts).Some? || env.isFailed(fallback))
  }

  lemma {:induction false} ClosingFinishes(
    env: Env, t: ThreadId, r: RunState, keys: set<ToolId>, fallback: string, clock: nat, child: ThreadId)
    requires env.Valid() && keys <= r.tools.Keys
    ensures child in TerminalizeTools(env, t, r, keys, fallback, clock).children <==>
            exists k :: k in keys && Unsettled(r, k) && Finishes(env, r.tools[k], fallback, child)
    decreases keys
  {
    hide KnownTerminal;
    if keys == {} {
    } else {
      var k := env.pick(clock, keys);
      var r1 := if Unsettled(r, k) then r.(tools := r.tools[k := AsSettled(env, r.tools[k], fallback)]) else r;
      ClosingFinishes(env, t, r1, keys - {k}, fallback, clock + 1, child);
      assert forall x :: x in keys - {k} ==> (Unsettled(r1, x) <==> Unsettled(r, x)) && r1.tools[x] == r.tools[x];
      assert forall x :: x in keys <==> x == k || x in keys - {k};
    }
  }

  lemma {:induction false} CloseAllCloses(env: Env, s: Core, threads: seq<ThreadId>, child: ThreadId)
    requires env.Valid() && child in threads
    ensures !HasObservedRun(CloseAll(env, s, threads).core, child)
    decreases |threads|
  {
    hide TerminalEvents, MarkClosed, ObservedRunId;
    var s1 := CloseObserved(env, s, threads[0]).core;
    if child in threads[1..] {
      CloseAllCloses(env, s1, threads[1..], child);
    } else {
      assert child == threads[0];
      if HasObservedRun(s, child) {
        MarkClosedRuns(env, TakeRun(s, child).(observed := Without(s.observed, child)), child);
      }
      assert !HasObservedRun(s1, child);
      hide CloseObserved;
      CloseAllTakesOut(env, s1, threads[1..], child, child);
    }
  }

  lemma MarkClosedRuns(env: Env, s: Core, t: ThreadId)
    requires env.Valid()
    ensures MarkClosed(env, s, t).runs == s.runs
  {
  }

  /** When a run ends, the implicit runs of the children it finishes end with it. */
  lemma EndFinishesChildren(env: Env, s: Core, t: ThreadId, fallback: string, outcome: Outcome, k: ToolId,
      child: ThreadId)
    requires env.Valid() && t in s.runs && Unsettled(s.runs[t], k) && Finishes(env, s.runs[t].tools[k], fallback, child)
    ensures !HasObservedRun(EndRun(env, s, t, fallback, outcome).core, child)
  {
    hide TerminalizeTools, CloseAll, TerminalEvents, KnownTerminal, ObservedRunId, Finishes;
    ClosingFinishes(env, t, s.runs[t], s.runs[t].tools.Keys, fallback, s.clock, child);
    CloseAllCloses(env, TakeRun(s, t), SettleSubagents(env, s, t, fallback).children, child);
  }
}
