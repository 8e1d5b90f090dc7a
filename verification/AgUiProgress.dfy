/** What the progress of a linked child leaves behind: in its link, and in its parent's run when the child ends. */
module AgUiProgress {
  import opened Wrappers
  import opened AgUiTypes
  import opened AgUiRun
  import opened AgUiCore
  import opened AgUiFence
  import opened AgUiCards
  import Utf8

  // ----- the child's tools in flight -----

  lemma {:induction false} DropRunningIs(running: seq<(ToolId, string)>, tool: ToolId)
    ensures |DropRunning(running, tool)| <= |running|
    ensures forall x :: x in DropRunning(running, tool) <==> x in running && x.0 != tool
  {
    if running == [] {
    } else {
      DropRunningIs(running[1..], tool);
    }
  }

  /** No tool is listed twice. */
  predicate ToolsOnce(running: seq<(ToolId, string)>) {
    forall i, j :: 0 <= i < j < |running| ==> running[i].0 != running[j].0
  }

  lemma {:induction false} DropRunningOnce(running: seq<(ToolId, string)>, tool: ToolId)
    requires ToolsOnce(running)
    ensures ToolsOnce(DropRunning(running, tool))
  {
    if running == [] {
    } else {
      var rest := DropRunning(running[1..], tool);
      DropRunningOnce(running[1..], tool);
      DropRunningIs(running[1..], tool);
      forall j | 0 <= j < |rest|
        ensures rest[j].0 != running[0].0
      {
        assert rest[j] in rest;
      }
    }
  }

  /** A tool that starts or goes on is the latest one in flight, a settled one is in flight no more, and
      the others stay, except the oldest when there are too many. */
  lemma TrackIs(link: Link, p: Progress)
    requires ToolsOnce(link.running) && |link.running| <= SUBAGENT_RUNNING_TOOL_CAPACITY
    ensures var after := Track(link, p);
            && after == link.(running := after.running)
            && ToolsOnce(after.running) && |after.running| <= SUBAGENT_RUNNING_TOOL_CAPACITY
            && (p.source.RunningTool? ==>
                  after.running != [] && after.running[|after.running| - 1] == (p.source.tool, p.latest))
            && (p.source.SettledTool? ==> forall x :: x in after.running <==> x in link.running && x.0 != p.source.tool)
            && (p.source.RunningTool? ==> forall x :: x in after.running && x.0 != p.source.tool ==> x in link.running)
            && (p.source.RunningTool? && |link.running| < SUBAGENT_RUNNING_TOOL_CAPACITY ==>
                  forall x :: x in link.running && x.0 != p.source.tool ==> x in after.running)
            && (p.source.Narration? || p.source.Standalone? ==> after == link)
  {
    match p.source
    case RunningTool(tool) =>
      DropRunningIs(link.running, tool);
      DropRunningOnce(link.running, tool);
      RoomFor(DropRunning(link.running, tool), tool, p.latest);
    case SettledTool(tool) =>
      DropRunningIs(link.running, tool);
      DropRunningOnce(link.running, tool);
    case _ =>
  }

  lemma RoomFor(kept: seq<(ToolId, string)>, tool: ToolId, latest: string)
    requires ToolsOnce(kept) && (forall x :: x in kept ==> x.0 != tool)
    ensures var room := (if |kept| >= SUBAGENT_RUNNING_TOOL_CAPACITY then kept[1..] else kept) + [(tool, latest)];
            && ToolsOnce(room)
            && (forall x :: x in room ==> x in kept || x == (tool, latest))
            && (|kept| < SUBAGENT_RUNNING_TOOL_CAPACITY ==> forall x :: x in kept ==> x in room)
  {
    var room := (if |kept| >= SUBAGENT_RUNNING_TOOL_CAPACITY then kept[1..] else kept) + [(tool, latest)];
    assert forall i :: 0 <= i < |room| - 1 ==> room[i] in kept;
  }

  // ----- links in use -----

  /** What holds of every link: it shows a child at work, and what it remembers is bounded. */
  ghost predicate InUse(env: Env, link: Link) {
    && (link.rendered.Some? ==> !env.isTerminal(link.rendered.value.0))
    && ToolsOnce(link.running) && |link.running| <= SUBAGENT_RUNNING_TOOL_CAPACITY
    && |link.revisions| <= SUBAGENT_PROGRESS_CAPACITY
  }

  ghost predicate AllInUse(env: Env, links: map<ThreadId, Link>) {
    forall x :: x in links ==> InUse(env, links[x])
  }

  lemma RenderInUse(env: Env, link: Link, p: Progress)
    requires InUse(env, link) && (Render(link, p).1.None? || !env.isTerminal(p.status))
    ensures InUse(env, Render(link, p).0)
  {
    hide ToolsOnce, Track;
    TrackIs(link, p);
  }

  lemma ProgressInUse(env: Env, s: Core, e: Canonical)
    requires env.Valid() && AllInUse(env, s.links)
    ensures AllInUse(env, ProjectProgress(env, s, e).core.links)
  {
    hide CloseObserved, ProgressOf, Render, Fences, SettleParent, ToolsOnce;
    if e.Thread().Some? && e.Thread().value in s.links {
      var t := e.Thread().value;
      var link := s.links[t];
      var link1 := if e.RunStarted? then link.(childRun := Some(e.run), generation := Some(e.generation)) else link;
      if ProgressOf(env, e).Some? {
        var p := ProgressOf(env, e).value;
        assert InUse(env, link1);
        hide InUse;
        if Render(link1, p).1.None? || !env.isTerminal(p.status) {
          RenderInUse(env, link1, p);
        }
        CloseObservedLinks(env, SettleParent(s, link, p.status).(links := s.links - {t}), t);
      }
    }
  }

  lemma RelinkInUse(env: Env, s: Core, t: ThreadId, run: RunId, tool: ToolId, child: ThreadId)
    requires env.Valid() && AllInUse(env, s.links)
    ensures AllInUse(env, Relink(env, s, t, run, tool, child).links)
    ensures AllInUse(env, LinkSubagent(env, s, t, run, tool, child).links)
  {
    hide NextFloor;
  }

  lemma ToolArmInUse(env: Env, s: Core, e: Canonical)
    requires env.Valid() && e.Tool? && AllInUse(env, s.links)
    ensures AllInUse(env, OnTool(env, s, e).core.links)
  {
    hide ToolStep, CloseObserved, Evict, Relink, InUse;
    var o := EnsureObserved(env, s, e.thread, e.runRef, e.turnRef);
    EvictLinks(env, s.(runs := s.runs[e.thread := NewRun(ObservedRunId(e.thread), None)],
        observed := s.observed + [e.thread]));
    assert o.core.links == s.links;
    if Addresses(o.core, e.thread, e.runRef, e.turnRef) {
      var r := o.core.runs[e.thread];
      var step := ToolStep(env, e.thread, r.run, ToolAt(r, e.update.tool), e.update);
      var s1 := o.core.(runs := o.core.runs[e.thread := r.(tools := r.tools[e.update.tool := step.tool])]);
      if step.finished.Some? {
        CloseObservedLinks(env, s1.(links := s1.links - {step.finished.value}), step.finished.value);
      } else if step.linked.Some? {
        RelinkInUse(env, s1, e.thread, r.run, e.update.tool, step.linked.value);
      }
    }
  }

  lemma StepInUse(env: Env, s: Core, i: Input)
    requires env.Valid() && AllInUse(env, s.links)
    ensures AllInUse(env, Step(env, s, i).core.links)
  {
    hide ProjectProgress, Dispatch, LinkSubagent, InUse;
    match i
    case LinkChild(t, run, tool, child) => RelinkInUse(env, s, t, run, tool, child);
    case Observe(e) =>
      ProgressInUse(env, s, e);
      var s1 := ProjectProgress(env, s, e).core;
      if e.Tool? {
        DispatchTool(env, s1, e);
        ToolArmInUse(env, s1, e);
      } else {
        forall x | x in Dispatch(env, s1, e).core.links
          ensures InUse(env, Dispatch(env, s1, e).core.links[x])
        {
          OtherArmLinks(env, s1, e, x);
        }
      }
  }

  /** In every reachable state no link shows an ended child, and links stay bounded. */
  lemma {:induction false} LinksInUse(env: Env, inputs: seq<Input>)
    requires env.Valid()
    ensures AllInUse(env, Run(env, inputs).core.links)
    decreases |inputs|
  {
    hide Step, InUse;
    if inputs == [] {
    } else {
      LinksInUse(env, inputs[..|inputs| - 1]);
      StepInUse(env, Run(env, inputs[..|inputs| - 1]).core, inputs[|inputs| - 1]);
    }
  }

  // ----- progress of a child that goes on -----

  /** The event ends the child as the card shows it. */
  predicate Ends(env: Env, link: Link, e: Canonical) {
    Shown(env, link, e).Some? && env.isTerminal(Shown(env, link, e).value.status)
  }

  /** The link after an event of the child that does not end it. */
  predicate GoesOn(env: Env, a: Link, e: Canonical, b: Link) {
    && b.parentThread == a.parentThread && b.parentRun == a.parentRun && b.tool == a.tool && b.child == a.child
    && b.floor == a.floor
    && (if e.RunStarted? then b.childRun == Some(e.run) && b.generation == Some(e.generation)
        else b.childRun == a.childRun && b.generation == a.generation)
    && b.rendered == match Shown(env, a, e)
                     case Some(p) => Some((p.status, Label(a, p)))
                     case None => a.rendered
  }

  /** An event of another run or generation changes nothing; one that does not end the child changes its
      link alone, which remembers what is shown and follows the run that starts. */
  lemma ProgressGoesOn(env: Env, s: Core, e: Canonical, child: ThreadId)
    requires env.Valid() && e.Thread() == Some(child) && child in s.links && !Ends(env, s.links[child], e)
    ensures var out := ProjectProgress(env, s, e).core;
            && (!Follows(s.links[child], e) ==> out == s)
            && (Follows(s.links[child], e) ==>
                  && child in out.links && out == s.(links := s.links[child := out.links[child]])
                  && GoesOn(env, s.links[child], e, out.links[child]))
  {
    hide ProgressOf, CloseObserved, SettleParent, Render, News, Label;
    var link := s.links[child];
    assert Fences(link, e) <==> !Follows(link, e);
    var link1 := if e.RunStarted? then link.(childRun := Some(e.run), generation := Some(e.generation)) else link;
    if ProgressOf(env, e).Some? {
      var p := ProgressOf(env, e).value;
      RenderShows(link1, p);
      RenderKeeps(link1, p);
      SameNews(link, link1, p);
    }
    assert s.links[child := link] == s.links;
  }

  lemma RenderTracks(link: Link, p: Progress)
    ensures Render(link, p).0.running == Track(link, p).running
  {
    hide Track;
  }

  /** A tool of the child is in flight, as the latest, from an update that it is in progress until one
      that it has ended; narration and pending updates change nothing. */
  lemma ToolInFlight(env: Env, s: Core, e: Canonical, child: ThreadId)
    requires env.Valid() && (e.Tool? || e.MessageChunk?) && e.Thread() == Some(child) && child in s.links
    requires Follows(s.links[child], e) && InUse(env, s.links[child])
    ensures child in ProjectProgress(env, s, e).core.links
    ensures var before, after := s.links[child].running, ProjectProgress(env, s, e).core.links[child].running;
            && (e.Tool? && e.update.status.InProgress? ==> after != [] && after[|after| - 1].0 == e.update.tool)
            && (e.Tool? && e.update.status.IsTerminal() ==>
                  forall x :: x in after <==> x in before && x.0 != e.update.tool)
            && (e.MessageChunk? || e.update.status.Pending? ==> after == before)
  {
    hide CloseObserved, SettleParent, Render, Track, ToolsOnce;
    var link := s.links[child];
    assert Fences(link, e) <==> !Follows(link, e);
    if ProgressOf(env, e).Some? {
      var p := ProgressOf(env, e).value;
      RenderTracks(link, p);
      TrackIs(link, p);
    }
  }

  // ----- the end of a child -----

  /** How the child's run ended. */
  function EndStatus(e: Canonical): Option<string> {
    match e
    case RunFinished(_, _, _, _, cancelled) => Some(if cancelled then "cancelled" else "completed")
    case RunFailed(_, _, _, _, _) => Some("failed")
    case _ => None
  }

  lemma ProgressStatus(env: Env, e: Canonical)
    requires env.Valid()
    ensures EndStatus(e).Some? ==>
              ProgressOf(env, e).Some? && ProgressOf(env, e).value.status == EndStatus(e).value
              && ProgressOf(env, e).value.revision.None?
    ensures EndStatus(e).None? && ProgressOf(env, e).Some? ==> ProgressOf(env, e).value.status == "running"
  {
    hide Utf8.Bounded;
  }

  /** An event ends a link in use exactly when it is the end of the run that the link follows. */
  lemma EndsIff(env: Env, link: Link, e: Canonical)
    requires env.Valid() && InUse(env, link)
    ensures Ends(env, link, e) <==> Follows(link, e) && EndStatus(e).Some? && env.isTerminal(EndStatus(e).value)
    ensures Ends(env, link, e) ==> Shown(env, link, e).value.status == EndStatus(e).value
  {
    hide ProgressOf, EndStatus, Follows, Label, ToolsOnce;
    ProgressStatus(env, e);
  }

  /** The parent's run with the child's status recorded on its tool. */
  function Recorded(runs: map<ThreadId, RunState>, x: ThreadId, origin: Origin, status: string): RunState
    requires x in runs
  {
    var r := runs[x];
    if x == origin.thread && r.run == origin.run && origin.tool in r.tools
    then r.(tools := r.tools[origin.tool := r.tools[origin.tool].(terminalStatus := Some(status))])
    else r
  }

  /** Ending the child drops its link and records its status on the tool call it hangs on, if that run is still open. */
  lemma ProgressEnds(env: Env, s: Core, e: Canonical, child: ThreadId, origin: Origin, x: ThreadId)
    requires env.Valid() && e.Thread() == Some(child) && child in s.links && Hangs(s.links[child], origin, child)
    requires Ends(env, s.links[child], e)
    ensures var out := ProjectProgress(env, s, e).core;
            && out.links == s.links - {child}
            && (x in out.runs ==>
                  x in s.runs && out.runs[x] == Recorded(s.runs, x, origin, Shown(env, s.links[child], e).value.status))
            && (x in s.runs && x != child ==> x in out.runs)
  {
    hide ProgressOf, CloseObserved, Render, News, Label;
    var link := s.links[child];
    assert Fences(link, e) <==> !Follows(link, e);
    var p := ProgressOf(env, e).value;
    ProgressStatus(env, e);
    RenderShows(link, p);
    var s1 := SettleParent(s, link, p.status).(links := s.links - {child});
    CloseObservedLinks(env, s1, child);
    CloseObservedRuns(env, s1, child, x);
  }

  /** Runs are only taken out, and apart from t only implicit ones. */
  predicate OnlyTakenOut(before: map<ThreadId, RunState>, after: map<ThreadId, RunState>, t: ThreadId, x: ThreadId) {
    && (x in after ==> x in before && after[x] == before[x])
    && (x in before && x != t && before[x].run != ObservedRunId(x) ==> x in after)
  }

  lemma {:induction false} CloseAllTakesOut(env: Env, s: Core, threads: seq<ThreadId>, t: ThreadId, x: ThreadId)
    requires env.Valid()
    ensures OnlyTakenOut(s.runs, CloseAll(env, s, threads).core.runs, t, x)
    decreases |threads|
  {
    hide TerminalEvents, ObservedRunId, MarkClosed;
    if threads == [] {
    } else {
      CloseObservedTakesOut(env, s, threads[0], t, x);
      hide CloseObserved;
      CloseAllTakesOut(env, CloseObserved(env, s, threads[0]).core, threads[1..], t, x);
    }
  }

  lemma CloseObservedTakesOut(env: Env, s: Core, child: ThreadId, t: ThreadId, x: ThreadId)
    requires env.Valid()
    ensures OnlyTakenOut(s.runs, CloseObserved(env, s, child).core.runs, t, x)
  {
    hide TerminalEvents, ObservedRunId;
  }

  lemma EndTakesOut(env: Env, s: Core, e: Canonical, x: ThreadId)
    requires env.Valid() && EndStatus(e).Some?
    ensures OnlyTakenOut(s.runs, Dispatch(env, s, e).core.runs, e.thread, x)
  {
    hide TerminalEvents, CloseAll, SettleSubagents, ObservedRunId, DropLinks;
    var t := e.thread;
    if t in s.runs && s.runs[t].run == e.run {
      var fallback := EndStatus(e).value;
      CloseAllTakesOut(env, TakeRun(s, t), SettleSubagents(env, s, t, fallback).children, t, x);
    }
  }

  /** The tool call is on the open run of its thread. */
  predicate OnOpenRun(runs: map<ThreadId, RunState>, origin: Origin) {
    && origin.thread in runs && runs[origin.thread].run == origin.run
    && origin.tool in runs[origin.thread].tools
  }

  /** MAIN THEOREM. After every sequence of calls, when the run that a child's link follows ends, the card
      of the tool call that last linked the child shows how it ended, the link is gone, and if the run of
      that tool call is still open its tool has that status, which is then what its last card shows
      however the run closes. */
  lemma ChildEnds(env: Env, inputs: seq<Input>, e: Canonical, child: ThreadId)
    requires env.Valid() && e.Thread() == Some(child) && child in Run(env, inputs).core.links
    requires Follows(Run(env, inputs).core.links[child], e) && EndStatus(e).Some? && env.isTerminal(EndStatus(e).value)
    ensures LinkedBy(env, inputs, child).Some?
    ensures var s, origin, status := Run(env, inputs).core, LinkedBy(env, inputs, child).value, EndStatus(e).value;
            var step := Step(env, s, Observe(e));
            && step.events != [] && step.events[0].Card?
            && step.events[0] == Card(origin.thread, origin.run, origin.tool, Some(child), status,
                step.events[0].latest)
            && child !in step.core.links
            && (OnOpenRun(s.runs, origin) && origin.thread != child && origin.run != ObservedRunId(origin.thread) ==>
                  OnOpenRun(step.core.runs, origin))
            && (OnOpenRun(step.core.runs, origin) ==>
                  var ts := step.core.runs[origin.thread].tools[origin.tool];
                  ts.terminalStatus == Some(status) && forall fallback :: SettledStatus(env, ts, fallback) == status)
  {
    hide Run, LinkedBy, EndStatus, Follows, Ends, Hangs, InUse, ObservedRunId, ProjectProgress, Dispatch;
    var s := Run(env, inputs).core;
    LinksHang(env, inputs, child);
    var link, origin := s.links[child], LinkedBy(env, inputs, child).value;
    LinksInUse(env, inputs);
    EndsIff(env, link, e);
    var p := ProjectProgress(env, s, e);
    EndsShown(env, link, origin, child, e);
    var rest := ProgressCard(env, s, e, child, origin);
    ProgressEnds(env, s, e, child, origin, origin.thread);
    EndTakesOut(env, p.core, e, origin.thread);
    if child in Dispatch(env, p.core, e).core.links {
      EndIsNoTool(e);
      OtherArmLinks(env, p.core, e, child);
    }
  }

  lemma EndsShown(env: Env, link: Link, origin: Origin, child: ThreadId, e: Canonical)
    requires Ends(env, link, e)
    ensures Shown(env, link, e).Some?
    ensures var cards := ShownCard(env, link, origin, child, e);
            |cards| == 1 && cards[0].Card?
            && cards[0] == Card(origin.thread, origin.run, origin.tool, Some(child), Shown(env, link, e).value.status,
                                cards[0].latest)
  {
    hide ProgressOf, Label, News, Follows;
  }

  lemma EndIsNoTool(e: Canonical)
    requires EndStatus(e).Some?
    ensures !e.Tool?
  {
  }
}
