/** The projector's transition functions on its whole state: what each event does to runs, closed
    threads, sub-agent links and the observed-run queue, and what it emits. */
module AgUiCore {
  import opened Wrappers
  import opened AgUiTypes
  import opened AgUiRun
  import Utf8

  function Without(threads: seq<ThreadId>, t: ThreadId): (r: seq<ThreadId>)
    ensures |r| <= |threads|
    ensures forall x :: x in r <==> x in threads && x != t
  {
    if threads == [] then []
    else if threads[0] == t then Without(threads[1..], t)
    else [threads[0]] + Without(threads[1..], t)
  }

  function MarkClosed(env: Env, s: Core, t: ThreadId): Core
    requires env.Valid()
  {
    if t !in s.closed && |s.closed| >= CLOSED_THREAD_CAPACITY
    then s.(closed := s.closed - {env.pick(s.clock, s.closed)} + {t}, clock := s.clock + 1)
    else s.(closed := s.closed + {t})
  }

  predicate HasObservedRun(s: Core, t: ThreadId) {
    t in s.runs && s.runs[t].run == ObservedRunId(t)
  }

  /** Takes the run of t out of the map; walking its tools consumes one hash choice each. */
  function TakeRun(s: Core, t: ThreadId): Core
    requires t in s.runs
  {
    s.(runs := s.runs - {t}, clock := s.clock + |s.runs[t].tools|)
  }

  /** close_run with its terminal event. */
  function TerminalEvents(env: Env, t: ThreadId, r: RunState, clock: nat, outcome: Outcome): seq<Event>
    requires env.Valid()
  {
    CloseEvents(env, t, r, clock) + [RunClosed(t, r.run, outcome)]
  }

  /** close_observed_run */
  function CloseObserved(env: Env, s: Core, t: ThreadId): Out
    requires env.Valid()
  {
    if !HasObservedRun(s, t) then Out(s, [])
    else
      Out(MarkClosed(env, TakeRun(s, t).(observed := Without(s.observed, t)), t),
          TerminalEvents(env, t, s.runs[t], s.clock, Finished))
  }

  function CloseAll(env: Env, s: Core, threads: seq<ThreadId>): Out
    requires env.Valid()
    decreases |threads|
  {
    if threads == [] then Out(s, [])
    else
      var o := CloseObserved(env, s, threads[0]);
      var rest := CloseAll(env, o.core, threads[1..]);
      Out(rest.core, o.events + rest.events)
  }

  lemma CloseObservedShrinks(env: Env, s: Core, t: ThreadId)
    requires env.Valid()
    ensures |CloseObserved(env, s, t).core.observed| <= |s.observed|
  {
  }

  /** Evicts the oldest implicit runs beyond the capacity. */
  function Evict(env: Env, s: Core): Out
    requires env.Valid()
    decreases |s.observed|
  {
    if |s.observed| <= OBSERVED_RUN_CAPACITY then Out(s, [])
    else
      var oldest := s.observed[0];
      var s1 := s.(observed := s.observed[1..]);
      CloseObservedShrinks(env, s1, oldest);
      var o := if oldest in s1.runs && s1.runs[oldest].turn.None? then CloseObserved(env, s1, oldest) else Out(s1, []);
      var rest := Evict(env, o.core);
      Out(rest.core, o.events + rest.events)
  }

  /** An unprompted event on an idle thread opens an implicit run. */
  predicate Observes(s: Core, t: ThreadId, runRef: Option<RunId>, turnRef: Option<TurnId>) {
    runRef.None? && turnRef.None? && t !in s.runs && t !in s.closed
  }

  /** ensure_observed_run */
  function EnsureObserved(env: Env, s: Core, t: ThreadId, runRef: Option<RunId>, turnRef: Option<TurnId>): Out
    requires env.Valid()
  {
    if !Observes(s, t, runRef, turnRef) then Out(s, [])
    else
      var s1 := s.(runs := s.runs[t := NewRun(ObservedRunId(t), None)], observed := s.observed + [t]);
      var o := Evict(env, s1);
      Out(o.core, o.events + [RunOpened(t, ObservedRunId(t))])
  }

  /** canonical_run_mut finds a run for the event. */
  predicate Addresses(s: Core, t: ThreadId, runRef: Option<RunId>, turnRef: Option<TurnId>) {
    && t in s.runs
    && (runRef.Some? ==> runRef.value == s.runs[t].run)
    && (turnRef.Some? && s.runs[t].turn.Some? ==> turnRef == s.runs[t].turn)
  }

  // ----- sub-agents of a closing run -----

  datatype Terminalized = Terminalized(tools: map<ToolId, ToolState>, events: seq<Event>, children: seq<ThreadId>)

  function KnownTerminal(env: Env, ts: ToolState): Option<string> {
    if ts.terminalStatus.Some? && env.isTerminal(ts.terminalStatus.value) then ts.terminalStatus
    else match env.parseTask(ts.result)
      case Some(task) => if env.isTerminal(task.state) then Some(task.state) else None
      case None => None
  }

  /** The loop of terminalize_run_subagents over the tools in `keys`. */
  function TerminalizeTools(env: Env, t: ThreadId, r: RunState, keys: set<ToolId>, fallback: string,
      clock: nat): Terminalized
    requires env.Valid() && keys <= r.tools.Keys
    decreases keys
  {
    if keys == {} then Terminalized(r.tools, [], [])
    else
      var k := env.pick(clock, keys);
      var ts := r.tools[k];
      if !ts.card || ts.ended then TerminalizeTools(env, t, r, keys - {k}, fallback, clock + 1)
      else
        var known := KnownTerminal(env, ts);
        var status := known.GetOr(fallback);
        var r1 := r.(tools := r.tools[k := ts.(terminalStatus := Some(status), ended := true)]);
        var rest := TerminalizeTools(env, t, r1, keys - {k}, fallback, clock + 1);
        Terminalized(rest.tools,
                     [Card(t, r.run, k, ts.child, status, env.preview(ts.result))] + rest.events,
                     (if ts.child.Some? && (known.Some? || env.isFailed(fallback)) then [ts.child.value] else [])
                     + rest.children)
  }

  function DropLinks(links: map<ThreadId, Link>, t: ThreadId, run: RunId): map<ThreadId, Link> {
    map c | c in links && !(links[c].parentThread == t && links[c].parentRun == run) :: links[c]
  }

  /** terminalize_run_subagents on the open run of t: the cards it shows and the children it ends. */
  function SettleSubagents(env: Env, s: Core, t: ThreadId, fallback: string): Terminalized
    requires env.Valid() && t in s.runs
  {
    TerminalizeTools(env, t, s.runs[t], s.runs[t].tools.Keys, fallback, s.clock)
  }

  /** The run of t is taken out of the map before its children's implicit runs are closed. */
  function CloseChildren(env: Env, s: Core, t: ThreadId, children: seq<ThreadId>): Out
    requires env.Valid() && t in s.runs
  {
    CloseAll(env, TakeRun(s, t), children)
  }

  /** Closes the open run of t: its sub-agents are settled first, then the run itself. */
  function EndRun(env: Env, s: Core, t: ThreadId, fallback: string, outcome: Outcome): Out
    requires env.Valid() && t in s.runs
  {
    var term := SettleSubagents(env, s, t, fallback);
    var o := CloseChildren(env, s, t, term.children);
    Out(o.core.(clock := o.core.clock + |s.runs[t].tools|),
        term.events + o.events + TerminalEvents(env, t, s.runs[t].(tools := term.tools), o.core.clock, outcome))
  }

  // ----- sub-agent links -----

  function NextFloor(link: Link): Option<Generation> {
    match link.generation
    case None => link.floor
    case Some(g) =>
      var above := if g < MAX_GENERATION then g + 1 else g;
      match link.floor
      case Some(f) => Some(if f < above then above else f)
      case None => Some(above)
  }

  function MakeRoom(env: Env, s: Core, child: ThreadId): Core
    requires env.Valid()
  {
    if child !in s.links && |s.links| >= SUBAGENT_LINK_CAPACITY
    then s.(links := s.links - {env.pick(s.clock, s.links.Keys)}, clock := s.clock + 1)
    else s
  }

  /** A tool update names a live child: link it, carrying over what is known of the same invocation
      and raising the generation floor past anything seen of an earlier one. */
  function Relink(env: Env, s: Core, t: ThreadId, run: RunId, tool: ToolId, child: ThreadId): Core
    requires env.Valid()
  {
    var s1 := MakeRoom(env, s, child);
    var anew := Link(t, run, tool, child, None, None, None, {}, [], None);
    var link :=
      if child !in s1.links then anew
      else
        var previous := s1.links[child];
        if previous.parentRun == run && previous.tool == tool
        then previous.(parentThread := t, child := child)
        else anew.(floor := NextFloor(previous));
    s1.(links := s1.links[child := link])
  }

  /** link_subagent; an existing link is left alone. */
  function LinkSubagent(env: Env, s: Core, t: ThreadId, run: RunId, tool: ToolId, child: ThreadId): Core
    requires env.Valid()
  {
    if child in s.links then s
    else
      var s1 := MakeRoom(env, s, child);
      s1.(links := s1.links[child := Link(t, run, tool, child, None, None, None, {}, [], None)])
  }

  // ----- progress of a linked child -----

  datatype Source = RunningTool(tool: ToolId) | SettledTool(tool: ToolId) | Narration | Standalone

  datatype Progress = Progress(status: string, latest: string, revision: Option<string>, source: Source)

  function ToolProgress(env: Env, u: ToolUpdate): Option<Progress> {
    var title := if env.isBlank(u.title) then "Using a tool" else u.title;
    match u.status
    case Pending => None
    case Failed => Some(Progress("running", "Tool failed " + title, Some("failed:" + u.tool), SettledTool(u.tool)))
    case Completed => Some(Progress("running", "Working on " + title, Some("working:" + u.tool), SettledTool(u.tool)))
    case InProgress => Some(Progress("running", "Working on " + title, Some("working:" + u.tool), RunningTool(u.tool)))
  }

  /** subagent_progress */
  function ProgressOf(env: Env, e: Canonical): Option<Progress> {
    match e
    case MessageChunk(_, _, _, _, role, _, content, _) =>
      if env.isBlank(content) then None
      else
        var latest := match role case Thought => "Reasoning" case Agent => "Responding" case User => "Received input";
        Some(Progress("running", latest, None, Narration))
    case Tool(_, _, _, _, u) => ToolProgress(env, u)
    case Plan(_) => Some(Progress("running", "Updating plan", None, Standalone))
    case PermissionRequested(_) => Some(Progress("running", "Waiting for approval", None, Standalone))
    case ElicitationRequested(_) => Some(Progress("running", "Waiting for input", None, Standalone))
    case RunFinished(_, _, _, _, cancelled) =>
      if cancelled then Some(Progress("cancelled", "Cancelled", None, Standalone))
      else Some(Progress("completed", "Returned result", None, Standalone))
    case RunFailed(_, _, _, _, message) => Some(Progress("failed", Utf8.Bounded(message, 512), None, Standalone))
    case _ => None
  }

  function EventRun(e: Canonical): Option<RunId> {
    match e
    case RunStarted(_, run, _, _) => Some(run)
    case RunFinished(_, run, _, _, _) => Some(run)
    case RunFailed(_, run, _, _, _) => Some(run)
    case MessageChunk(_, run, _, _, _, _, _, _) => run
    case Tool(_, run, _, _, _) => run
    case _ => None
  }

  function EventGeneration(e: Canonical): Option<Generation> {
    match e
    case RunStarted(_, _, _, g) => Some(g)
    case RunFinished(_, _, _, g, _) => Some(g)
    case RunFailed(_, _, _, g, _) => Some(g)
    case MessageChunk(_, _, _, g, _, _, _, _) => g
    case Tool(_, _, _, g, _) => g
    case _ => None
  }

  /** The event belongs to another generation or run of the child than the link follows. */
  predicate Fences(link: Link, e: Canonical) {
    || (link.floor.Some? && EventGeneration(e).Some? && EventGeneration(e).value < link.floor.value)
    || (link.generation.Some? && EventGeneration(e).Some? && EventGeneration(e).value != link.generation.value)
    || (link.childRun.Some? && EventRun(e).Some? && EventRun(e).value != link.childRun.value)
  }

  function DropRunning(running: seq<(ToolId, string)>, tool: ToolId): seq<(ToolId, string)> {
    if running == [] then []
    else if running[0].0 == tool then DropRunning(running[1..], tool)
    else [running[0]] + DropRunning(running[1..], tool)
  }

  /** Tracks which of the child's tools are in flight. */
  function Track(link: Link, p: Progress): Link {
    match p.source
    case RunningTool(tool) =>
      var kept := DropRunning(link.running, tool);
      var room := if |kept| >= SUBAGENT_RUNNING_TOOL_CAPACITY then kept[1..] else kept;
      link.(running := room + [(tool, p.latest)])
    case SettledTool(tool) => link.(running := DropRunning(link.running, tool))
    case Narration => link
    case Standalone => link
  }

  function Remember(revisions: set<string>, revision: string): set<string> {
    (if |revisions| >= SUBAGENT_PROGRESS_CAPACITY then {} else revisions) + {revision}
  }

  /** What progress p makes of the link, and the preview to show unless the card stays as it is. */
  function Render(link: Link, p: Progress): (Link, Option<string>) {
    var link1 := Track(link, p);
    if p.revision.Some? && p.revision.value in link1.revisions then (link1, None)
    else
      var link2 := if p.revision.Some? then link1.(revisions := Remember(link1.revisions, p.revision.value)) else link1;
      var latest := if p.source.Narration? && link2.running != [] then link2.running[|link2.running| - 1].1
          else p.latest;
      if link2.rendered == Some((p.status, latest)) then (link2, None)
      else (link2.(rendered := Some((p.status, latest))), Some(latest))
  }

  /** Records a child's terminal status on the parent's tool, if that run is still the open one. */
  function SettleParent(s: Core, link: Link, status: string): Core {
    if link.parentThread in s.runs && s.runs[link.parentThread].run == link.parentRun
       && link.tool in s.runs[link.parentThread].tools
    then
      var r := s.runs[link.parentThread];
      var ts := r.tools[link.tool].(terminalStatus := Some(status));
      s.(runs := s.runs[link.parentThread := r.(tools := r.tools[link.tool := ts])])
    else s
  }

  /** project_subagent_progress */
  function ProjectProgress(env: Env, s: Core, e: Canonical): Out
    requires env.Valid()
  {
    if e.Thread().None? || e.Thread().value !in s.links then Out(s, [])
    else
      var t := e.Thread().value;
      var link := s.links[t];
      if Fences(link, e) then Out(s, [])
      else
        var link1 := if e.RunStarted? then link.(childRun := Some(e.run), generation := Some(e.generation)) else link;
        match ProgressOf(env, e)
        case None => Out(s.(links := s.links[t := link1]), [])
        case Some(p) =>
          var (link2, latest) := Render(link1, p);
          if latest.None? then Out(s.(links := s.links[t := link2]), [])
          else
            var card := Card(link.parentThread, link.parentRun, link.tool, Some(link.child), p.status, latest);
            if !env.isTerminal(p.status) then Out(s.(links := s.links[t := link2]), [card])
            else
              var o := CloseObserved(env, SettleParent(s, link, p.status).(links := s.links - {t}), t);
              Out(o.core, [card] + o.events)
  }

  // ----- the arms of project_canonical -----

  function OnRunStarted(env: Env, s: Core, t: ThreadId, run: RunId, turn: TurnId): Out
    requires env.Valid()
  {
    var s1 := s.(closed := s.closed - {t});
    var o :=
      if t !in s1.runs then Out(s1, [])
      else
        var ended := EndRun(env, s1, t, "failed", Superseded);
        Out(ended.core.(links := DropLinks(ended.core.links, t, s.runs[t].run)), ended.events);
    Out(o.core.(runs := o.core.runs[t := NewRun(run, Some(turn))]), o.events + [RunOpened(t, run)])
  }

  function OnRunEnded(env: Env, s: Core, t: ThreadId, run: RunId, fallback: string, outcome: Outcome): Out
    requires env.Valid()
  {
    if t !in s.runs || s.runs[t].run != run then Out(s, [])
    else
      var o := EndRun(env, s, t, fallback, outcome);
      var s1 := MarkClosed(env, o.core, t);
      Out(if fallback == "completed" then s1 else s1.(links := DropLinks(s1.links, t, run)), o.events)
  }

  function OnChunk(env: Env, s: Core, e: Canonical): Out
    requires env.Valid() && e.MessageChunk?
  {
    if e.content == "" && e.block.None? then Out(s, [])
    else
      var o := EnsureObserved(env, s, e.thread, e.runRef, e.turnRef);
      if !Addresses(o.core, e.thread, e.runRef, e.turnRef) then o
      else
        var step := ChunkStep(env, e.thread, o.core.runs[e.thread], e.role, e.id, e.content, e.block);
        Out(o.core.(runs := o.core.runs[e.thread := step.run]), o.events + step.events)
  }

  /** What a tool update does to the links and to the child's implicit run. */
  function SettleChild(env: Env, s: Core, t: ThreadId, run: RunId, tool: ToolId, out: ToolOut): Out
    requires env.Valid()
  {
    match out.finished
    case Some(child) => CloseObserved(env, s.(links := s.links - {child}), child)
    case None =>
      match out.linked
      case Some(child) =>
        var s1 := Relink(env, s, t, run, tool, child);
        Out(s1.(closed := s1.closed - {child}), [])
      case None => Out(s, [])
  }

  function OnTool(env: Env, s: Core, e: Canonical): Out
    requires env.Valid() && e.Tool?
  {
    var o := EnsureObserved(env, s, e.thread, e.runRef, e.turnRef);
    if !Addresses(o.core, e.thread, e.runRef, e.turnRef) then o
    else
      var r := o.core.runs[e.thread];
      var step := ToolStep(env, e.thread, r.run, ToolAt(r, e.update.tool), e.update);
      var s1 := o.core.(runs := o.core.runs[e.thread := r.(tools := r.tools[e.update.tool := step.tool])]);
      var settled := SettleChild(env, s1, e.thread, r.run, e.update.tool, step);
      Out(settled.core, o.events + step.events + settled.events)
  }

  function NotifySession(s: Core, t: ThreadId): seq<Event> {
    [Custom(t, if t in s.runs then s.runs[t].run else SessionRunId(t))]
  }

  /** The match of project_canonical. */
  function Dispatch(env: Env, s: Core, e: Canonical): Out
    requires env.Valid()
  {
    match e
    case RunStarted(t, run, turn, _) => OnRunStarted(env, s, t, run, turn)
    case RunFinished(t, run, _, _, cancelled) =>
      OnRunEnded(env, s, t, run, if cancelled then "cancelled" else "completed", Finished)
    case RunFailed(t, run, _, _, _) => OnRunEnded(env, s, t, run, "failed", Errored)
    case MessageChunk(_, _, _, _, _, _, _, _) => OnChunk(env, s, e)
    case Tool(_, _, _, _, _) => OnTool(env, s, e)
    case Plan(t) => Out(s, NotifySession(s, t))
    case SessionUpdate(t) => Out(s, NotifySession(s, t))
    case _ => Out(s, [])
  }

  /** project_canonical */
  function Project(env: Env, s: Core, e: Canonical): Out
    requires env.Valid()
  {
    var p := ProjectProgress(env, s, e);
    var d := Dispatch(env, p.core, e);
    Out(d.core, p.events + d.events)
  }

  // ----- runs of the projector -----

  /** The two calls the bridge makes on its projector. */
  datatype Input =
    | Observe(event: Canonical)
    | LinkChild(parentThread: ThreadId, parentRun: RunId, tool: ToolId, child: ThreadId)

  function Step(env: Env, s: Core, i: Input): Out
    requires env.Valid()
  {
    match i
    case Observe(e) => Project(env, s, e)
    case LinkChild(t, run, tool, child) => Out(LinkSubagent(env, s, t, run, tool, child), [])
  }

  /** State and stream after a sequence of calls on a new projector. */
  function Run(env: Env, inputs: seq<Input>): Out
    requires env.Valid()
    decreases |inputs|
  {
    if inputs == [] then Out(EMPTY_CORE, [])
    else
      var before := Run(env, inputs[..|inputs| - 1]);
      var step := Step(env, before.core, inputs[|inputs| - 1]);
      Out(step.core, before.events + step.events)
  }
}
