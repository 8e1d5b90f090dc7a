/** The projector as the bridge runs it: one object whose methods change its maps in place and push
    onto an event list.  Every method is proved to compute the transition function of `AgUiCore`, so
    the theorems about that function are theorems about this object. */
module AgUiProjector {
  import opened Wrappers
  import opened AgUiTypes
  import opened AgUiRun
  import opened AgUiCore
  import AgUiClient
  import AgUiStream

  class Projector {
    const env: Env
    var runs: map<ThreadId, RunState>
    var closedThreads: set<ThreadId>
    var links: map<ThreadId, Link>
    var observedRuns: seq<ThreadId>
    var clock: nat

    constructor (env: Env)
      ensures this.env == env && State() == EMPTY_CORE
    {
      this.env := env;
      runs, closedThreads, links, observedRuns, clock := map[], {}, map[], [], 0;
    }

    ghost function State(): Core
      reads this
    {
      Core(runs, closedThreads, links, observedRuns, clock)
    }

    /** One key of a hash map or set, in hash order. */
    method NextKey(keys: set<string>) returns (k: string)
      requires env.Valid() && keys != {}
      modifies this`clock
      ensures k == env.pick(old(clock), keys) && k in keys && clock == old(clock) + 1
    {
      k := env.pick(clock, keys);
      clock := clock + 1;
    }

    method MarkThreadClosed(t: ThreadId)
      requires env.Valid()
      modifies this`closedThreads, this`clock
      ensures State() == MarkClosed(env, old(State()), t)
    {
      if t !in closedThreads && |closedThreads| >= CLOSED_THREAD_CAPACITY {
        var oldest := NextKey(closedThreads);
        closedThreads := closedThreads - {oldest};
      }
      closedThreads := closedThreads + {t};
    }

    /** close_run, its terminal event included. */
    method CloseRun(t: ThreadId, r: RunState, outcome: Outcome) returns (events: seq<Event>)
      requires env.Valid()
      modifies this`clock
      ensures events == TerminalEvents(env, t, r, old(clock), outcome)
      ensures clock == old(clock) + |r.tools|
    {
      hide ToolEnds;
      events := EndText(t, r.run, r.user) + EndText(t, r.run, r.message) + EndReasoning(t, r.run, r.reasoning);
      ghost var opening := events;
      ghost var all := ToolEnds(env, t, r, r.tools.Keys, old(clock));
      var remaining := r.tools.Keys;
      while remaining != {}
        invariant remaining <= r.tools.Keys
        invariant clock == old(clock) + |r.tools.Keys| - |remaining|
        invariant opening + all == events + ToolEnds(env, t, r, remaining, clock)
        decreases |remaining|
      {
        ToolEndsUnfold(env, t, r, remaining, clock);
        var k := NextKey(remaining);
        ghost var rest := ToolEnds(env, t, r, remaining - {k}, clock);
        if !r.tools[k].ended && !r.tools[k].card {
          assert events + ([ToolEnd(t, r.run, k)] + rest) == events + [ToolEnd(t, r.run, k)] + rest;
          events := events + [ToolEnd(t, r.run, k)];
        } else {
          assert events + ([] + rest) == events + rest;
        }
        remaining := remaining - {k};
      }
      ToolEndsUnfold(env, t, r, remaining, clock);
      assert events == CloseEvents(env, t, r, old(clock));
      events := events + [RunClosed(t, r.run, outcome)];
    }

    static lemma ToolEndsUnfold(env: Env, t: ThreadId, r: RunState, keys: set<ToolId>, clock: nat)
      requires env.Valid() && keys <= r.tools.Keys
      ensures keys == {} ==> ToolEnds(env, t, r, keys, clock) == []
      ensures keys != {} ==>
                var k := env.pick(clock, keys);
                ToolEnds(env, t, r, keys, clock)
                  == (if !r.tools[k].ended && !r.tools[k].card then [ToolEnd(t, r.run, k)] else [])
                     + ToolEnds(env, t, r, keys - {k}, clock + 1)
    {
    }

    method CloseObservedRun(t: ThreadId) returns (events: seq<Event>)
      requires env.Valid()
      modifies this
      ensures State() == CloseObserved(env, old(State()), t).core
      ensures events == CloseObserved(env, old(State()), t).events
    {
      hide TerminalEvents, MarkClosed, Without;
      if t !in runs || runs[t].run != ObservedRunId(t) {
        return [];
      }
      var r := runs[t];
      runs := runs - {t};
      observedRuns := Without(observedRuns, t);
      events := CloseRun(t, r, Finished);
      assert State() == TakeRun(old(State()), t).(observed := Without(old(observedRuns), t));
      hide TakeRun;
      MarkThreadClosed(t);
    }

    method EnsureObservedRun(t: ThreadId, runRef: Option<RunId>, turnRef: Option<TurnId>) returns (events: seq<Event>)
      requires env.Valid()
      modifies this
      ensures State() == EnsureObserved(env, old(State()), t, runRef, turnRef).core
      ensures events == EnsureObserved(env, old(State()), t, runRef, turnRef).events
    {
      hide Evict, CloseObserved;
      if runRef.Some? || turnRef.Some? || t in runs || t in closedThreads {
        return [];
      }
      runs := runs[t := NewRun(ObservedRunId(t), None)];
      observedRuns := observedRuns + [t];
      events := [];
      ghost var target := Evict(env, State());
      while |observedRuns| > OBSERVED_RUN_CAPACITY
        invariant target.core == Evict(env, State()).core
        invariant target.events == events + Evict(env, State()).events
        decreases |observedRuns|
      {
        EvictUnfold(env, State());
        var oldest := observedRuns[0];
        observedRuns := observedRuns[1..];
        var closing := [];
        if oldest in runs && runs[oldest].turn.None? {
          CloseObservedShrinks(env, State(), oldest);
          closing := CloseObservedRun(oldest);
        }
        assert events + (closing + Evict(env, State()).events) == events + closing + Evict(env, State()).events;
        events := events + closing;
      }
      EvictUnfold(env, State());
      events := events + [RunOpened(t, ObservedRunId(t))];
    }

    static lemma EvictUnfold(env: Env, s: Core)
      requires env.Valid()
      ensures |s.observed| <= OBSERVED_RUN_CAPACITY ==> Evict(env, s) == Out(s, [])
      ensures |s.observed| > OBSERVED_RUN_CAPACITY ==>
                var s1 := s.(observed := s.observed[1..]);
                var o := if s.observed[0] in s.runs && s.runs[s.observed[0]].turn.None?
                         then CloseObserved(env, s1, s.observed[0]) else Out(s1, []);
                Evict(env, s) == Out(Evict(env, o.core).core, o.events + Evict(env, o.core).events)
    {
      hide CloseObserved;
    }

    /** The body of terminalize_run_subagents up to the deferred closing of children. */
    method TerminalizeTools(t: ThreadId, r: RunState, fallback: string)
      returns (tools: map<ToolId, ToolState>, events: seq<Event>, children: seq<ThreadId>)
      requires env.Valid()
      modifies this`clock
      ensures Terminalized(tools, events, children)
           == AgUiCore.TerminalizeTools(env, t, r, r.tools.Keys, fallback, old(clock))
      ensures clock == old(clock) + |r.tools|
    {
      hide AgUiCore.TerminalizeTools, Extends;
      tools, events, children := r.tools, [], [];
      var remaining := r.tools.Keys;
      ghost var target := AgUiCore.TerminalizeTools(env, t, r, r.tools.Keys, fallback, old(clock));
      assert r.(tools := tools) == r;
      ExtendsNothing(target);
      while remaining != {}
        invariant remaining <= r.tools.Keys && tools.Keys == r.tools.Keys
        invariant clock == old(clock) + |r.tools.Keys| - |remaining|
        invariant Extends(target, events, children,
                          AgUiCore.TerminalizeTools(env, t, r.(tools := tools), remaining, fallback, clock))
        decreases |remaining|
      {
        ghost var before := AgUiCore.TerminalizeTools(env, t, r.(tools := tools), remaining, fallback, clock);
        TerminalizeUnfold(env, t, r.(tools := tools), remaining, fallback, clock);
        var k := NextKey(remaining);
        var ts := tools[k];
        if ts.card && !ts.ended {
          var known := KnownTerminal(env, ts);
          var status := known.GetOr(fallback);
          var card := Card(t, r.run, k, ts.child, status, env.preview(ts.result));
          var closing := if ts.child.Some? && (known.Some? || env.isFailed(fallback)) then [ts.child.value] else [];
          tools := tools[k := ts.(terminalStatus := Some(status), ended := true)];
          ghost var rest := AgUiCore.TerminalizeTools(env, t, r.(tools := tools), remaining - {k}, fallback, clock);
          ExtendsMore(target, events, children, before, card, closing, rest);
          events := events + [card];
          children := children + closing;
        }
        remaining := remaining - {k};
      }
      TerminalizeUnfold(env, t, r.(tools := tools), remaining, fallback, clock);
      ExtendsAll(target, events, children, tools);
    }

    static lemma TerminalizeUnfold(env: Env, t: ThreadId, r: RunState, keys: set<ToolId>, fallback: string, clock: nat)
      requires env.Valid() && keys <= r.tools.Keys
      ensures keys == {} ==>
                AgUiCore.TerminalizeTools(env, t, r, keys, fallback, clock) == Terminalized(r.tools, [], [])
      ensures keys != {} ==>
                var k := env.pick(clock, keys);
                var ts := r.tools[k];
                var known := KnownTerminal(env, ts);
                var status := known.GetOr(fallback);
                var r1 := r.(tools := r.tools[k := ts.(terminalStatus := Some(status), ended := true)]);
                AgUiCore.TerminalizeTools(env, t, r, keys, fallback, clock)
                  == if !ts.card || ts.ended then AgUiCore.TerminalizeTools(env, t, r, keys - {k}, fallback, clock + 1)
                     else
                       var rest := AgUiCore.TerminalizeTools(env, t, r1, keys - {k}, fallback, clock + 1);
                       Terminalized(rest.tools, [Card(t, r.run, k, ts.child, status, env.preview(ts.result))]
                           + rest.events,
                                    (if ts.child.Some? && (known.Some? || env.isFailed(fallback))
                                        then [ts.child.value] else [])
                                    + rest.children)
    {
      hide KnownTerminal;
    }

    static lemma ExtendsNothing(target: Terminalized)
      ensures Extends(target, [], [], target)
    {
    }

    static lemma ExtendsAll(target: Terminalized, events: seq<Event>, children: seq<ThreadId>, tools: map<ToolId,
        ToolState>)
      requires Extends(target, events, children, Terminalized(tools, [], []))
      ensures target == Terminalized(tools, events, children)
    {
    }

    /** The whole of `target` is what was collected so far followed by `rest`. */
    static ghost predicate Extends(target: Terminalized, events: seq<Event>, children: seq<ThreadId>,
        rest: Terminalized) {
      target.tools == rest.tools && target.events == events + rest.events && target.children == children + rest.children
    }

    static lemma ExtendsMore(target: Terminalized, events: seq<Event>, children: seq<ThreadId>, before: Terminalized,
                             card: Event, closing: seq<ThreadId>, rest: Terminalized)
      requires Extends(target, events, children, before)
      requires before == Terminalized(rest.tools, [card] + rest.events, closing + rest.children)
      ensures Extends(target, events + [card], children + closing, rest)
    {
      assert events + ([card] + rest.events) == events + [card] + rest.events;
      assert children + (closing + rest.children) == children + closing + rest.children;
    }

    /** Close the implicit runs of the children that ended. */
    method CloseChildRuns(children: seq<ThreadId>) returns (events: seq<Event>)
      requires env.Valid()
      modifies this
      ensures State() == CloseAll(env, old(State()), children).core
      ensures events == CloseAll(env, old(State()), children).events
    {
      hide CloseObserved;
      ghost var target := CloseAll(env, State(), children);
      events := [];
      var i := 0;
      assert children[0..] == children;
      while i < |children|
        invariant 0 <= i <= |children|
        invariant target.core == CloseAll(env, State(), children[i..]).core
        invariant target.events == events + CloseAll(env, State(), children[i..]).events
      {
        assert children[i..][0] == children[i] && children[i..][1..] == children[i + 1..];
        ghost var before := State();
        var closing := CloseObservedRun(children[i]);
        assert CloseAll(env, before, children[i..])
            == Out(CloseAll(env, State(), children[i + 1..]).core,
                closing + CloseAll(env, State(), children[i + 1..]).events);
        events := events + closing;
        i := i + 1;
      }
      assert children[i..] == [];
    }

    /** terminalize_run_subagents followed by close_run on the open run of t. */
    method EndOpenRun(t: ThreadId, fallback: string, outcome: Outcome) returns (events: seq<Event>)
      requires env.Valid() && t in runs
      modifies this
      ensures State() == EndRun(env, old(State()), t, fallback, outcome).core
      ensures events == EndRun(env, old(State()), t, fallback, outcome).events
    {
      hide AgUiCore.TerminalizeTools, TerminalEvents, CloseObserved;
      var r := runs[t];
      runs := runs - {t};
      var tools, cards, children := TerminalizeTools(t, r, fallback);
      assert State() == TakeRun(old(State()), t);
      assert Terminalized(tools, cards, children) == SettleSubagents(env, old(State()), t, fallback);
      events := CloseChildRuns(children);
      var terminal := CloseRun(t, r.(tools := tools), outcome);
      assert |tools| == |r.tools| by { TerminalizeKeepsKeys(env, t, r, r.tools.Keys, fallback, old(clock)); }
      events := cards + events + terminal;
    }

    static lemma {:induction false} TerminalizeKeepsKeys(env: Env, t: ThreadId, r: RunState, keys: set<ToolId>,
        fallback: string, clock: nat)
      requires env.Valid() && keys <= r.tools.Keys
      ensures AgUiCore.TerminalizeTools(env, t, r, keys, fallback, clock).tools.Keys == r.tools.Keys
      ensures |AgUiCore.TerminalizeTools(env, t, r, keys, fallback, clock).tools| == |r.tools|
      decreases keys
    {
      var out := AgUiCore.TerminalizeTools(env, t, r, keys, fallback, clock).tools;
      if keys == {} {
      } else {
        var k := env.pick(clock, keys);
        var ts := r.tools[k];
        var r1 := if !ts.card || ts.ended then r
                  else r.(tools := r.tools[k := ts.(terminalStatus := Some(KnownTerminal(env, ts).GetOr(fallback)),
                      ended := true)]);
        TerminalizeKeepsKeys(env, t, r1, keys - {k}, fallback, clock + 1);
      }
      assert |out.Keys| == |r.tools.Keys|;
    }

    // ----- links -----

    /** Makes room for a new link by dropping one in hash order. */
    method MakeLinkRoom(child: ThreadId)
      requires env.Valid()
      modifies this`links, this`clock
      ensures State() == MakeRoom(env, old(State()), child)
    {
      if child !in links && |links| >= SUBAGENT_LINK_CAPACITY {
        var expired := NextKey(links.Keys);
        links := links - {expired};
      }
    }

    method LinkSubagent(t: ThreadId, run: RunId, tool: ToolId, child: ThreadId) returns (added: bool)
      requires env.Valid()
      modifies this`links, this`clock
      ensures added == (child !in old(links))
      ensures State() == AgUiCore.LinkSubagent(env, old(State()), t, run, tool, child)
    {
      if child in links {
        return false;
      }
      MakeLinkRoom(child);
      links := links[child := Link(t, run, tool, child, None, None, None, {}, [], None)];
      added := true;
    }

    method RelinkSubagent(t: ThreadId, run: RunId, tool: ToolId, child: ThreadId)
      requires env.Valid()
      modifies this`links, this`clock
      ensures State() == Relink(env, old(State()), t, run, tool, child)
    {
      MakeLinkRoom(child);
      var link := Link(t, run, tool, child, None, None, None, {}, [], None);
      if child in links {
        var previous := links[child];
        if previous.parentRun == run && previous.tool == tool {
          link := previous.(parentThread := t, child := child);
        } else {
          link := link.(floor := NextFloor(previous));
        }
      }
      links := links[child := link];
    }

    method ProjectSubagentProgress(e: Canonical) returns (events: seq<Event>)
      requires env.Valid()
      modifies this
      ensures State() == ProjectProgress(env, old(State()), e).core
      ensures events == ProjectProgress(env, old(State()), e).events
    {
      hide CloseObserved, ProgressOf, Render, Fences;
      if e.Thread().None? || e.Thread().value !in links {
        return [];
      }
      var t := e.Thread().value;
      var link := links[t];
      if Fences(link, e) {
        return [];
      }
      var current := link;
      if e.RunStarted? {
        current := current.(childRun := Some(e.run), generation := Some(e.generation));
      }
      var progress := ProgressOf(env, e);
      if progress.None? {
        links := links[t := current];
        return [];
      }
      var p := progress.value;
      var (tracked, latest) := Render(current, p);
      if latest.None? {
        links := links[t := tracked];
        return [];
      }
      events := [Card(link.parentThread, link.parentRun, link.tool, Some(link.child), p.status, latest)];
      if !env.isTerminal(p.status) {
        links := links[t := tracked];
        return;
      }
      if link.parentThread in runs {
        var parent := runs[link.parentThread];
        if parent.run == link.parentRun && link.tool in parent.tools {
          var ts := parent.tools[link.tool].(terminalStatus := Some(p.status));
          runs := runs[link.parentThread := parent.(tools := parent.tools[link.tool := ts])];
        }
      }
      links := links - {t};
      var closing := CloseObservedRun(t);
      events := events + closing;
    }

    // ----- the arms of project_canonical -----

    method HandleRunStarted(t: ThreadId, run: RunId, turn: TurnId) returns (events: seq<Event>)
      requires env.Valid()
      modifies this
      ensures State() == OnRunStarted(env, old(State()), t, run, turn).core
      ensures events == OnRunStarted(env, old(State()), t, run, turn).events
    {
      hide EndRun;
      events := [];
      closedThreads := closedThreads - {t};
      if t in runs {
        var previous := runs[t].run;
        events := EndOpenRun(t, "failed", Superseded);
        links := DropLinks(links, t, previous);
      }
      runs := runs[t := NewRun(run, Some(turn))];
      events := events + [RunOpened(t, run)];
    }

    method HandleRunEnded(t: ThreadId, run: RunId, fallback: string, outcome: Outcome) returns (events: seq<Event>)
      requires env.Valid()
      modifies this
      ensures State() == OnRunEnded(env, old(State()), t, run, fallback, outcome).core
      ensures events == OnRunEnded(env, old(State()), t, run, fallback, outcome).events
    {
      hide EndRun;
      if t !in runs || runs[t].run != run {
        return [];
      }
      events := EndOpenRun(t, fallback, outcome);
      MarkThreadClosed(t);
      if fallback != "completed" {
        links := DropLinks(links, t, run);
      }
    }

    method HandleChunk(e: Canonical) returns (events: seq<Event>)
      requires env.Valid() && e.MessageChunk?
      modifies this
      ensures State() == OnChunk(env, old(State()), e).core
      ensures events == OnChunk(env, old(State()), e).events
    {
      hide EnsureObserved, ChunkStep;
      if e.content == "" && e.block.None? {
        return [];
      }
      events := EnsureObservedRun(e.thread, e.runRef, e.turnRef);
      if !Addresses(Core(runs, closedThreads, links, observedRuns, clock), e.thread, e.runRef, e.turnRef) {
        return;
      }
      var step := ChunkStep(env, e.thread, runs[e.thread], e.role, e.id, e.content, e.block);
      runs := runs[e.thread := step.run];
      events := events + step.events;
    }

    method HandleTool(e: Canonical) returns (events: seq<Event>)
      requires env.Valid() && e.Tool?
      modifies this
      ensures State() == OnTool(env, old(State()), e).core
      ensures events == OnTool(env, old(State()), e).events
    {
      hide EnsureObserved, ToolStep, Relink, CloseObserved;
      events := EnsureObservedRun(e.thread, e.runRef, e.turnRef);
      if !Addresses(Core(runs, closedThreads, links, observedRuns, clock), e.thread, e.runRef, e.turnRef) {
        return;
      }
      var r := runs[e.thread];
      var step := ToolStep(env, e.thread, r.run, ToolAt(r, e.update.tool), e.update);
      runs := runs[e.thread := r.(tools := r.tools[e.update.tool := step.tool])];
      events := events + step.events;
      var closing := [];
      if step.finished.Some? {
        links := links - {step.finished.value};
        closing := CloseObservedRun(step.finished.value);
      } else if step.linked.Some? {
        RelinkSubagent(e.thread, r.run, e.update.tool, step.linked.value);
        closedThreads := closedThreads - {step.linked.value};
      }
      events := events + closing;
    }

    /** project_canonical */
    method ProjectCanonical(e: Canonical) returns (events: seq<Event>)
      requires env.Valid()
      modifies this
      ensures State() == Project(env, old(State()), e).core
      ensures events == Project(env, old(State()), e).events
    {
      hide ProjectProgress, OnRunStarted, OnRunEnded, OnChunk, OnTool;
      events := ProjectSubagentProgress(e);
      var more := [];
      match e {
        case RunStarted(t, run, turn, _) => more := HandleRunStarted(t, run, turn);
        case RunFinished(t, run, _, _, cancelled) =>
          more := HandleRunEnded(t, run, if cancelled then "cancelled" else "completed", Finished);
        case RunFailed(t, run, _, _, _) => more := HandleRunEnded(t, run, "failed", Errored);
        case MessageChunk(_, _, _, _, _, _, _, _) => more := HandleChunk(e);
        case Tool(_, _, _, _, _) => more := HandleTool(e);
        case Plan(t) => more := [Custom(t, if t in runs then runs[t].run else SessionRunId(t))];
        case SessionUpdate(t) => more := [Custom(t, if t in runs then runs[t].run else SessionRunId(t))];
        case _ =>
      }
      events := events + more;
    }
  }

  /** A new projector fed with any sequence of calls emits a stream that the reference client accepts
      exactly when no call hit a stale queue entry. */
  method ProjectStream(env: Env, inputs: seq<Input>) returns (stream: seq<Event>)
    requires env.Valid()
    ensures stream == Run(env, inputs).events
    ensures AgUiClient.Accept(env, map[], stream).Some? <==> AgUiStream.NeverStale(env, inputs)
  {
    hide Project, AgUiCore.LinkSubagent, AgUiClient.Accept, AgUiStream.NeverStale;
    var projector := new Projector(env);
    stream := [];
    var i := 0;
    while i < |inputs|
      invariant 0 <= i <= |inputs|
      invariant projector.env == env
      invariant projector.State() == Run(env, inputs[..i]).core
      invariant stream == Run(env, inputs[..i]).events
    {
      assert inputs[..i + 1][..i] == inputs[..i];
      var events := [];
      match inputs[i] {
        case Observe(e) => events := projector.ProjectCanonical(e);
        case LinkChild(t, run, tool, child) => var _ := projector.LinkSubagent(t, run, tool, child);
      }
      stream := stream + events;
      i := i + 1;
    }
    assert inputs[..|inputs|] == inputs;
    AgUiStream.StreamAcceptedIff(env, inputs);
  }
}
