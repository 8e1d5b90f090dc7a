/** When the observed-run queue stays exact, and the call sequence that makes it stale. */
module AgUiQueue {
  import opened Wrappers
  import opened AgUiTypes
  import opened AgUiRun
  import opened AgUiCore
  import opened AgUiStream
  import AgUiClient
  import Utf8

  ghost predicate Distinct(threads: seq<ThreadId>) {
    forall i, j :: 0 <= i < j < |threads| ==> threads[i] != threads[j]
  }

  ghost predicate Implicit(runs: map<ThreadId, RunState>, t: ThreadId) {
    t in runs && runs[t].turn.None?
  }

  /** The queue lists the threads with an implicit run, once each. */
  ghost predicate QueueExact(s: Core) {
    && Distinct(s.observed)
    && (forall t :: t in s.observed <==> Implicit(s.runs, t))
    && ImplicitIds(s.runs)
    && |s.observed| <= OBSERVED_RUN_CAPACITY
  }

  /** The call neither starts nor ends, by name, the implicit run of a thread. */
  predicate Disciplined(s: Core, i: Input) {
    i.Observe? && (i.event.RunStarted? || i.event.RunFinished? || i.event.RunFailed?) ==>
      !(i.event.thread in s.runs && s.runs[i.event.thread].turn.None?
        && (i.event.RunStarted? || s.runs[i.event.thread].run == i.event.run))
  }

  lemma {:induction false} WithoutDistinct(threads: seq<ThreadId>, t: ThreadId)
    requires Distinct(threads)
    ensures Distinct(Without(threads, t))
  {
    if threads == [] {
    } else {
      WithoutDistinct(threads[1..], t);
      if threads[0] != t {
        var rest := Without(threads[1..], t);
        forall j | 0 <= j < |rest|
          ensures rest[j] != threads[0]
        {
          assert rest[j] in rest;
          var k :| 0 <= k < |threads[1..]| && threads[1..][k] == rest[j];
          assert threads[k + 1] == rest[j];
        }
      }
    }
  }

  lemma CloseObservedExact(env: Env, s: Core, t: ThreadId)
    requires env.Valid() && QueueExact(s)
    ensures QueueExact(CloseObserved(env, s, t).core)
  {
    hide CloseObserved, Distinct, Without;
    if HasObservedRun(s, t) {
      CloseObservedFrame(env, s, t);
      WithoutDistinct(s.observed, t);
      var o := CloseObserved(env, s, t).core;
      forall x
        ensures x in o.observed <==> Implicit(o.runs, x)
      {
        assert x in s.observed <==> Implicit(s.runs, x);
      }
    } else {
      CloseObservedIdle(env, s, t);
    }
  }

  lemma {:induction false} CloseAllExact(env: Env, s: Core, threads: seq<ThreadId>)
    requires env.Valid() && QueueExact(s)
    ensures QueueExact(CloseAll(env, s, threads).core)
    decreases |threads|
  {
    hide CloseObserved, QueueExact;
    if threads == [] {
    } else {
      CloseObservedExact(env, s, threads[0]);
      CloseAllExact(env, CloseObserved(env, s, threads[0]).core, threads[1..]);
    }
  }

  lemma EnsureObservedExact(env: Env, s: Core, t: ThreadId, runRef: Option<RunId>, turnRef: Option<TurnId>)
    requires env.Valid() && QueueExact(s)
    ensures QueueExact(EnsureObserved(env, s, t, runRef, turnRef).core)
  {
    hide Evict, CloseEvents;
    if Observes(s, t, runRef, turnRef) {
      assert !Implicit(s.runs, t);
      EvictOne(env, s, t);
      var s0 := Opening(s, t);
      if |s.observed| == OBSERVED_RUN_CAPACITY {
        var oldest := s.observed[0];
        assert oldest in s.observed;
        assert Implicit(s.runs, oldest);
        EvictedExact(env, s, t);
      }
    }
  }

  /** Opening over a full queue: the evicted thread's implicit run is the one that is closed. */
  lemma EvictedExact(env: Env, s: Core, t: ThreadId)
    requires env.Valid() && QueueExact(s) && t !in s.runs && |s.observed| == OBSERVED_RUN_CAPACITY
    ensures s.observed[0] in s.runs && s.runs[s.observed[0]].turn.None?
    ensures var s1 := Opening(s, t).(observed := s.observed[1..] + [t]);
            QueueExact(CloseObserved(env, s1, s.observed[0]).core)
  {
    hide CloseObserved, Distinct, Without;
    var oldest := s.observed[0];
    assert oldest in s.observed;
    assert Implicit(s.runs, oldest);
    assert !Implicit(s.runs, t);
    Rotate(s.observed, t);
    var rest := s.observed[1..] + [t];
    var s1 := Opening(s, t).(observed := rest);
    WithoutDistinct(rest, oldest);
    CloseObservedFrame(env, s1, oldest);
    var o := CloseObserved(env, s1, oldest).core;
    forall x
      ensures x in o.observed <==> Implicit(o.runs, x)
    {
      assert x in s.observed <==> Implicit(s.runs, x);
    }
  }

  lemma Rotate(queue: seq<ThreadId>, t: ThreadId)
    requires Distinct(queue) && queue != [] && t !in queue
    ensures Distinct(queue[1..] + [t])
    ensures forall x :: x in queue[1..] + [t] <==> (x == t || (x in queue && x != queue[0]))
  {
    var rest := queue[1..] + [t];
    forall i, j | 0 <= i < j < |rest|
      ensures rest[i] != rest[j]
    {
      assert rest[i] == queue[i + 1];
      if j < |queue| - 1 { assert rest[j] == queue[j + 1]; }
    }
    forall x
      ensures x in rest <==> (x == t || (x in queue && x != queue[0]))
    {
      if x in queue[1..] {
        var k :| 0 <= k < |queue[1..]| && queue[1..][k] == x;
        assert queue[k + 1] == x && queue[0] != queue[k + 1];
      }
      assert queue == [queue[0]] + queue[1..];
    }
  }

  lemma DropPromptedExact(s: Core, t: ThreadId, clock: nat)
    requires QueueExact(s) && t in s.runs && s.runs[t].turn.Some?
    ensures QueueExact(s.(runs := s.runs - {t}, clock := clock))
  {
    hide Distinct;
    assert forall x :: Implicit(s.runs - {t}, x) <==> Implicit(s.runs, x);
  }

  lemma EndRunExact(env: Env, s: Core, t: ThreadId, fallback: string, outcome: Outcome)
    requires env.Valid() && QueueExact(s) && t in s.runs && s.runs[t].turn.Some?
    ensures QueueExact(EndRun(env, s, t, fallback, outcome).core)
    ensures t !in EndRun(env, s, t, fallback, outcome).core.runs
  {
    hide SettleSubagents, CloseChildren, TerminalEvents, QueueExact;
    var term := SettleSubagents(env, s, t, fallback);
    CloseChildrenExact(env, s, t, term.children);
    TickExact(CloseChildren(env, s, t, term.children).core, EndRun(env, s, t, fallback, outcome).core.clock);
  }

  lemma CloseChildrenExact(env: Env, s: Core, t: ThreadId, children: seq<ThreadId>)
    requires env.Valid() && QueueExact(s) && t in s.runs && s.runs[t].turn.Some?
    ensures QueueExact(CloseChildren(env, s, t, children).core)
    ensures t !in CloseChildren(env, s, t, children).core.runs
  {
    hide QueueExact, CloseAll;
    var s1 := TakeRun(s, t);
    DropPromptedExact(s, t, s1.clock);
    CloseAllExact(env, s1, children);
    CloseAllElsewhere(env, s1, children, t);
  }

  lemma TickExact(s: Core, clock: nat)
    requires QueueExact(s)
    ensures QueueExact(s.(clock := clock))
  {
  }

  lemma SettleParentExact(s: Core, link: Link, status: string, links: map<ThreadId, Link>)
    requires QueueExact(s)
    ensures QueueExact(SettleParent(s, link, status).(links := links))
  {
    hide Distinct;
    var s1 := SettleParent(s, link, status).(links := links);
    assert forall x :: Implicit(s1.runs, x) <==> Implicit(s.runs, x);
  }

  lemma SameQueueExact(s: Core, out: Core)
    requires QueueExact(s) && out.runs == s.runs && out.observed == s.observed
    ensures QueueExact(out)
  {
  }

  lemma ProgressExact(env: Env, s: Core, e: Canonical)
    requires env.Valid() && QueueExact(s)
    ensures QueueExact(ProjectProgress(env, s, e).core)
  {
    hide Render, ProgressOf, Fences, CloseObserved, SettleParent, QueueExact;
    var out := ProjectProgress(env, s, e).core;
    if out.runs != s.runs || out.observed != s.observed {
      var t := e.Thread().value;
      var p := ProgressOf(env, e).value;
      SettleParentExact(s, s.links[t], p.status, s.links - {t});
      CloseObservedExact(env, SettleParent(s, s.links[t], p.status).(links := s.links - {t}), t);
    } else {
      SameQueueExact(s, out);
    }
  }

  /** Replacing a run by one with the same id and turn changes nothing for the queue. */
  lemma SameTurnExact(s: Core, t: ThreadId, r: RunState)
    requires QueueExact(s) && t in s.runs && r.turn == s.runs[t].turn && r.run == s.runs[t].run
    ensures QueueExact(s.(runs := s.runs[t := r]))
  {
    hide Distinct;
    assert forall x :: Implicit(s.runs[t := r], x) <==> Implicit(s.runs, x);
  }

  lemma SettleChildExact(env: Env, s: Core, t: ThreadId, run: RunId, tool: ToolId, out: ToolOut)
    requires env.Valid() && QueueExact(s)
    ensures QueueExact(SettleChild(env, s, t, run, tool, out).core)
  {
    hide CloseObserved, Distinct;
    if out.finished.Some? {
      CloseObservedExact(env, s.(links := s.links - {out.finished.value}), out.finished.value);
    }
  }

  lemma ToolArmExact(env: Env, s: Core, e: Canonical)
    requires env.Valid() && QueueExact(s) && e.Tool?
    ensures QueueExact(OnTool(env, s, e).core)
  {
    hide EnsureObserved, ToolStep, SettleChild, QueueExact;
    EnsureObservedExact(env, s, e.thread, e.runRef, e.turnRef);
    var o := EnsureObserved(env, s, e.thread, e.runRef, e.turnRef);
    if Addresses(o.core, e.thread, e.runRef, e.turnRef) {
      var r := o.core.runs[e.thread];
      var step := ToolStep(env, e.thread, r.run, ToolAt(r, e.update.tool), e.update);
      var r' := r.(tools := r.tools[e.update.tool := step.tool]);
      SameTurnExact(o.core, e.thread, r');
      SettleChildExact(env, o.core.(runs := o.core.runs[e.thread := r']), e.thread, r.run, e.update.tool, step);
    }
  }

  lemma ChunkArmExact(env: Env, s: Core, e: Canonical)
    requires env.Valid() && QueueExact(s) && e.MessageChunk?
    ensures QueueExact(OnChunk(env, s, e).core)
  {
    hide EnsureObserved, QueueExact, ContentEvents, BlockEvents;
    EnsureObservedExact(env, s, e.thread, e.runRef, e.turnRef);
    var o := EnsureObserved(env, s, e.thread, e.runRef, e.turnRef);
    if !(e.content == "" && e.block.None?) && Addresses(o.core, e.thread, e.runRef, e.turnRef) {
      var r := o.core.runs[e.thread];
      SameTurnExact(o.core, e.thread, ChunkStep(env, e.thread, r, e.role, e.id, e.content, e.block).run);
    }
  }

  lemma RunStartedExact(env: Env, s: Core, t: ThreadId, run: RunId, turn: TurnId)
    requires env.Valid() && QueueExact(s) && !(t in s.runs && s.runs[t].turn.None?)
    ensures QueueExact(OnRunStarted(env, s, t, run, turn).core)
  {
    hide EndRun, Distinct;
    var s1 := s.(closed := s.closed - {t});
    var before := if t in s1.runs then EndRun(env, s1, t, "failed", Superseded).core else s1;
    if t in s1.runs {
      EndRunExact(env, s1, t, "failed", Superseded);
    }
    var out := OnRunStarted(env, s, t, run, turn).core;
    assert !Implicit(before.runs, t);
    assert forall x :: Implicit(out.runs, x) <==> Implicit(before.runs, x);
  }

  lemma RunEndedExact(env: Env, s: Core, t: ThreadId, run: RunId, fallback: string, outcome: Outcome)
    requires env.Valid() && QueueExact(s) && !(t in s.runs && s.runs[t].turn.None? && s.runs[t].run == run)
    ensures QueueExact(OnRunEnded(env, s, t, run, fallback, outcome).core)
  {
    hide EndRun, Distinct;
    if t in s.runs && s.runs[t].run == run {
      EndRunExact(env, s, t, fallback, outcome);
    }
  }

  /** Progress closes implicit runs but neither opens nor renames any run. */
  lemma ProgressOnlyCloses(env: Env, s: Core, e: Canonical, t: ThreadId)
    requires env.Valid() && t in ProjectProgress(env, s, e).core.runs
    ensures t in s.runs
    ensures var r := ProjectProgress(env, s, e).core.runs[t]; r.run == s.runs[t].run && r.turn == s.runs[t].turn
  {
    hide Render, ProgressOf, Fences, CloseObserved;
    var out := ProjectProgress(env, s, e).core;
    if out.runs != s.runs {
      var child := e.Thread().value;
      var s1 := SettleParent(s, s.links[child], ProgressOf(env, e).value.status).(links := s.links - {child});
      if HasObservedRun(s1, child) {
        CloseObservedFrame(env, s1, child);
      } else {
        CloseObservedIdle(env, s1, child);
      }
    }
  }

  lemma DispatchExact(env: Env, s: Core, e: Canonical)
    requires env.Valid() && QueueExact(s) && Disciplined(s, Observe(e))
    ensures QueueExact(Dispatch(env, s, e).core)
  {
    hide QueueExact, OnRunStarted, OnRunEnded, OnChunk, OnTool;
    match e
    case RunStarted(t, run, turn, _) => RunStartedExact(env, s, t, run, turn);
    case RunFinished(t, run, _, _, cancelled) =>
      RunEndedExact(env, s, t, run, if cancelled then "cancelled" else "completed", Finished);
    case RunFailed(t, run, _, _, _) => RunEndedExact(env, s, t, run, "failed", Errored);
    case MessageChunk(_, _, _, _, _, _, _, _) => ChunkArmExact(env, s, e);
    case Tool(_, _, _, _, _) => ToolArmExact(env, s, e);
    case _ =>
  }

  lemma LinkExact(env: Env, s: Core, t: ThreadId, run: RunId, tool: ToolId, child: ThreadId)
    requires env.Valid() && QueueExact(s)
    ensures QueueExact(LinkSubagent(env, s, t, run, tool, child))
  {
    hide Distinct, ImplicitIds;
  }

  /** A disciplined call keeps the queue exact. */
  lemma StepExact(env: Env, s: Core, i: Input)
    requires env.Valid() && QueueExact(s) && Disciplined(s, i)
    ensures QueueExact(Step(env, s, i).core)
  {
    match i
    case LinkChild(t, run, tool, child) =>
      LinkExact(env, s, t, run, tool, child);
    case Observe(e) =>
      hide QueueExact, ProjectProgress, Dispatch, LinkSubagent;
      ProgressExact(env, s, e);
      var s1 := ProjectProgress(env, s, e).core;
      if e.Thread().Some? && e.Thread().value in s1.runs {
        ProgressOnlyCloses(env, s, e, e.Thread().value);
      }
      DispatchExact(env, s1, e);
  }

  /** An exact queue holds no stale entry. */
  lemma ExactNeverStale(s: Core, i: Input)
    requires QueueExact(s)
    ensures !HitsStaleEntry(s, i)
  {
    assert s.observed != [] ==> s.observed[0] in s.observed;
    assert forall t :: t in s.observed ==> Implicit(s.runs, t);
  }

  /** Every call respects the discipline in the state it meets. */
  ghost predicate AllDisciplined(env: Env, inputs: seq<Input>)
    requires env.Valid()
  {
    forall i :: 0 <= i < |inputs| ==> Disciplined(StateBefore(env, inputs, i), inputs[i])
  }

  lemma {:induction false} DisciplinedExact(env: Env, inputs: seq<Input>)
    requires env.Valid() && AllDisciplined(env, inputs)
    ensures QueueExact(Run(env, inputs).core)
    decreases |inputs|
  {
    hide QueueExact, Step;
    if inputs == [] {
      EmptyExact();
    } else {
      var n := |inputs| - 1;
      var front := inputs[..n];
      assert forall i :: 0 <= i < n ==> inputs[..i] == front[..i] && inputs[i] == front[i];
      assert forall i :: 0 <= i < n ==> StateBefore(env, front, i) == StateBefore(env, inputs, i);
      DisciplinedExact(env, front);
      assert Disciplined(StateBefore(env, inputs, n), inputs[n]);
      StepExact(env, Run(env, front).core, inputs[n]);
    }
  }

  lemma EmptyExact()
    ensures QueueExact(EMPTY_CORE)
  {
  }

  /** As long as no call starts or ends an implicit run by name, the stream is accepted to its end. */
  lemma DisciplinedStreamAccepted(env: Env, inputs: seq<Input>)
    requires env.Valid() && AllDisciplined(env, inputs)
    ensures AgUiClient.Accept(env, map[], Run(env, inputs).events).Some?
  {
    hide Run, QueueExact, HitsStaleEntry, Disciplined;
    forall i | 0 <= i < |inputs|
      ensures !HitsStaleEntry(StateBefore(env, inputs, i), inputs[i])
    {
      var front := inputs[..i];
      assert forall j :: 0 <= j < i ==> inputs[..j] == front[..j] && inputs[j] == front[j];
      assert forall j :: 0 <= j < i ==> StateBefore(env, front, j) == StateBefore(env, inputs, j);
      DisciplinedExact(env, front);
      ExactNeverStale(Run(env, front).core, inputs[i]);
    }
    StreamAcceptedIff(env, inputs);
  }

  // ----- a stale entry does occur -----

  /** The failing sequence: any child with any prompted run, any parent and any 254 other threads. */
  datatype Cast = Cast(child: ThreadId, run: RunId, turn: TurnId, parent: ThreadId, fillers: seq<ThreadId>) {
    ghost predicate Apart() {
      && child != parent && Distinct(fillers) && |fillers| == OBSERVED_RUN_CAPACITY - 2
      && child !in fillers && parent !in fillers
    }
  }

  function Chunk(t: ThreadId): Input {
    Observe(MessageChunk(t, None, None, None, Agent, "m", "x", None))
  }

  function Prompted(cast: Cast): Input {
    Observe(RunStarted(cast.child, cast.run, cast.turn, 1))
  }

  function Answered(cast: Cast): Input {
    Observe(RunFinished(cast.child, cast.run, cast.turn, 1, false))
  }

  function Tasked(cast: Cast, agent: string, header: string): Input {
    Observe(Tool(cast.parent, None, None, None, ToolUpdate(agent, "call", "other", InProgress, "Task", Set(header))))
  }

  /** The child speaks unprompted, is prompted, answers, and is then tasked by a parent: its first
      queue entry is never removed.  255 further entries later it speaks again. */
  function StaleCalls(cast: Cast, agent: string, header: string, fillers: nat): seq<Input>
    requires fillers <= |cast.fillers|
    decreases fillers
  {
    if fillers == 0 then [Chunk(cast.child), Prompted(cast), Answered(cast), Tasked(cast, agent, header)]
    else StaleCalls(cast, agent, header, fillers - 1) + [Chunk(cast.fillers[fillers - 1])]
  }

  /** The parent's tool text names the child's session as running. */
  ghost predicate Tasks(env: Env, cast: Cast, agent: string, header: string) {
    && env.parseTask(header).Some?
    && !env.isTerminal(env.parseTask(header).value.state)
    && env.childThread(agent, env.parseTask(header).value.session) == Some(cast.child)
    && Utf8.Size(header) <= MAX_TOOL_TOTAL_BYTES
    && header != ""
  }

  ghost predicate AfterChunk(cast: Cast, s: Core) {
    && s.runs.Keys == {cast.child} && s.runs[cast.child].turn.None? && s.runs[cast.child].tools == map[]
    && s.observed == [cast.child] && s.closed == {} && s.links == map[]
  }

  ghost predicate AfterPrompt(cast: Cast, s: Core) {
    && s.runs == map[cast.child := NewRun(cast.run, Some(cast.turn))]
    && s.observed == [cast.child] && s.closed == {} && s.links == map[]
  }

  ghost predicate AfterAnswer(cast: Cast, s: Core) {
    s.runs == map[] && s.observed == [cast.child] && s.closed == {cast.child} && s.links == map[]
  }

  ghost predicate AfterTask(cast: Cast, s: Core, fillers: nat) {
    && cast.child !in s.runs && cast.child !in s.closed && s.links.Keys == {cast.child} && s.closed == {}
    && |s.observed| == 2 + fillers && s.observed[0] == cast.child
    && (forall k :: fillers <= k < |cast.fillers| ==> cast.fillers[k] !in s.runs)
  }

  lemma ChunkOpens(env: Env, s: Core, t: ThreadId)
    requires env.Valid() && t !in s.runs && t !in s.closed && t !in s.links && |s.observed| < OBSERVED_RUN_CAPACITY
    ensures var s' := Step(env, s, Chunk(t)).core;
            && s'.observed == s.observed + [t] && s'.closed == s.closed && s'.links == s.links
            && s'.runs.Keys == s.runs.Keys + {t} && s'.runs[t].turn.None? && s'.runs[t].tools == map[]
  {
    hide ContentEvents, BlockEvents;
  }

  lemma Speak(env: Env, cast: Cast)
    requires env.Valid()
    ensures AfterChunk(cast, Step(env, EMPTY_CORE, Chunk(cast.child)).core)
  {
    ChunkOpens(env, EMPTY_CORE, cast.child);
  }

  lemma EndWithoutTools(env: Env, s: Core, t: ThreadId, fallback: string, outcome: Outcome)
    requires env.Valid() && t in s.runs && s.runs[t].tools == map[]
    ensures var s' := EndRun(env, s, t, fallback, outcome).core;
            s'.runs == s.runs - {t} && s'.observed == s.observed && s'.closed == s.closed && s'.links == s.links
  {
    assert s.runs[t].tools.Keys == {};
  }

  lemma Prompt(env: Env, cast: Cast, s: Core)
    requires env.Valid() && AfterChunk(cast, s)
    ensures AfterPrompt(cast, Step(env, s, Prompted(cast)).core)
  {
    hide EndRun;
    var s1 := s.(closed := s.closed - {cast.child});
    EndWithoutTools(env, s1, cast.child, "failed", Superseded);
    var s' := Step(env, s, Prompted(cast)).core;
    assert DropLinks(map[], cast.child, s.runs[cast.child].run) == map[];
    assert s'.closed == {};
  }

  lemma Answer(env: Env, cast: Cast, s: Core)
    requires env.Valid() && AfterPrompt(cast, s)
    ensures AfterAnswer(cast, Step(env, s, Answered(cast)).core)
  {
    hide EndRun;
    EndWithoutTools(env, s, cast.child, "completed", Finished);
    assert s.runs - {cast.child} == map[];
  }

  lemma TaskStep(env: Env, cast: Cast, agent: string, header: string)
    requires env.Valid() && Tasks(env, cast, agent, header)
    ensures var u := Tasked(cast, agent, header).event.update;
            var out := ToolStep(env, cast.parent, ObservedRunId(cast.parent), NEW_TOOL, u);
            out.linked == Some(cast.child) && out.finished == None
  {
    hide Utf8.Size, TextEvents;
    Utf8.BoundedAll(header, MAX_TOOL_TOTAL_BYTES);
  }

  lemma Assign(env: Env, cast: Cast, s: Core, agent: string, header: string)
    requires env.Valid() && cast.Apart() && AfterAnswer(cast, s) && Tasks(env, cast, agent, header)
    ensures AfterTask(cast, Step(env, s, Tasked(cast, agent, header)).core, 0)
  {
    hide ToolStep;
    TaskStep(env, cast, agent, header);
    var s' := Step(env, s, Tasked(cast, agent, header)).core;
    assert s'.runs.Keys == {cast.parent};
    assert s'.links.Keys == {cast.child};
  }

  lemma FillOne(env: Env, cast: Cast, s: Core, k: nat)
    requires env.Valid() && cast.Apart() && k < |cast.fillers| && AfterTask(cast, s, k)
    ensures AfterTask(cast, Step(env, s, Chunk(cast.fillers[k])).core, k + 1)
  {
    hide Step;
    assert cast.fillers[k] in cast.fillers;
    ChunkOpens(env, s, cast.fillers[k]);
  }

  lemma RunSnoc(env: Env, front: seq<Input>, last: Input)
    requires env.Valid()
    ensures Run(env, front + [last]).core == Step(env, Run(env, front).core, last).core
  {
    assert (front + [last])[..|front + [last]| - 1] == front;
  }

  lemma {:induction false} StaleState(env: Env, cast: Cast, agent: string, header: string, k: nat)
    requires env.Valid() && cast.Apart() && Tasks(env, cast, agent, header) && k <= |cast.fillers|
    ensures AfterTask(cast, Run(env, StaleCalls(cast, agent, header, k)).core, k)
    decreases k
  {
    hide Step, AfterTask, Run;
    if k == 0 {
      FirstCalls(env, cast, agent, header);
    } else {
      StaleState(env, cast, agent, header, k - 1);
      RunSnoc(env, StaleCalls(cast, agent, header, k - 1), Chunk(cast.fillers[k - 1]));
      FillOne(env, cast, Run(env, StaleCalls(cast, agent, header, k - 1)).core, k - 1);
    }
  }

  lemma FirstCalls(env: Env, cast: Cast, agent: string, header: string)
    requires env.Valid() && cast.Apart() && Tasks(env, cast, agent, header)
    ensures AfterTask(cast, Run(env, StaleCalls(cast, agent, header, 0)).core, 0)
  {
    hide Step, AfterTask;
    var a, b, c, d := Chunk(cast.child), Prompted(cast), Answered(cast), Tasked(cast, agent, header);
    RunSnoc(env, [], a);
    RunSnoc(env, [a], b);
    RunSnoc(env, [a, b], c);
    RunSnoc(env, [a, b, c], d);
    assert [] + [a] == [a] && [a] + [b] == [a, b] && [a, b] + [c] == [a, b, c] && [a, b, c] + [d] == [a, b, c, d];
    Speak(env, cast);
    Prompt(env, cast, Run(env, [a]).core);
    Answer(env, cast, Run(env, [a, b]).core);
    Assign(env, cast, Run(env, [a, b, c]).core, agent, header);
  }

  /** The discipline is needed: for any threads, 259 calls, one of which prompts a thread with an implicit
      run, lead to a stream that closes a run it never opened. */
  lemma StaleStreamRejected(env: Env, cast: Cast, agent: string, header: string)
    requires env.Valid() && cast.Apart() && Tasks(env, cast, agent, header)
    ensures var calls := StaleCalls(cast, agent, header, 254) + [Chunk(cast.child)];
            AgUiClient.Accept(env, map[], Run(env, calls).events) == None
  {
    hide Run, NeverStale, AgUiClient.Accept, RunsRel;
    var front := StaleCalls(cast, agent, header, 254);
    var inputs := front + [Chunk(cast.child)];
    StaleState(env, cast, agent, header, 254);
    assert inputs[..|inputs| - 1] == front;
    NeverStaleSplit(env, inputs);
    assert HitsStaleEntry(Run(env, front).core, Chunk(cast.child));
    StreamAcceptedIff(env, inputs);
  }
}
