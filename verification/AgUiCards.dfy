/** Which sub-agent cards the projector shows, for which child, and on which tool call. */
module AgUiCards {
  import opened Wrappers
  import opened AgUiTypes
  import opened AgUiRun
  import opened AgUiCore
  import opened AgUiFence
  import opened AgUiStream
  import opened AgUiCalm
  import Utf8

  // ----- the tool call a child is linked under -----

  datatype Origin = Origin(thread: ThreadId, run: RunId, tool: ToolId)

  /** The tool's text names the child as a task still at work. */
  predicate AtWork(env: Env, agent: string, ts: ToolState, child: ThreadId) {
    var named := Subagent(env, agent, ts.result);
    named.Some? && named.value.1 == child && !env.isTerminal(named.value.0.state) && ts.terminalStatus.None?
  }

  /** The event updates a tool of the run it finds, and the tool then names the child as a task still at work. */
  predicate Tasks(env: Env, after: Core, e: Canonical, child: ThreadId) {
    && e.Tool? && Addresses(after, e.thread, e.runRef, e.turnRef) && e.update.tool in after.runs[e.thread].tools
    && AtWork(env, e.update.agent, after.runs[e.thread].tools[e.update.tool], child)
  }

  /** The tool call under which the child was last linked: by a tool update that tasked it, or by a call while it had no
      link. */
  ghost function LinkedBy(env: Env, inputs: seq<Input>, child: ThreadId): Option<Origin>
    requires env.Valid()
    decreases |inputs|
  {
    if inputs == [] then None
    else
      var front, i := inputs[..|inputs| - 1], inputs[|inputs| - 1];
      var before := Run(env, front).core;
      var after := Step(env, before, i).core;
      match i
      case LinkChild(t, run, tool, c) =>
        if c == child && child !in before.links then Some(Origin(t, run, tool)) else LinkedBy(env, front, child)
      case Observe(e) =>
        if Tasks(env, after, e, child) then Some(Origin(e.thread, after.runs[e.thread].run, e.update.tool))
        else LinkedBy(env, front, child)
  }

  /** The link belongs to the child and to that tool call. */
  predicate Hangs(link: Link, origin: Origin, child: ThreadId) {
    && link.child == child
    && link.parentThread == origin.thread && link.parentRun == origin.run && link.tool == origin.tool
  }

  lemma ToolStepLinks(env: Env, t: ThreadId, run: RunId, ts: ToolState, u: ToolUpdate, child: ThreadId)
    ensures var out := ToolStep(env, t, run, ts, u);
            && (out.linked == Some(child) <==> AtWork(env, u.agent, out.tool, child))
            && (out.linked.Some? ==> out.finished.None?)
  {
    hide Announce, ApplyText, TextEvents, SnapshotStatus;
  }

  lemma CloseObservedRuns(env: Env, s: Core, t: ThreadId, x: ThreadId)
    requires env.Valid()
    ensures var runs := CloseObserved(env, s, t).core.runs;
            && (x in runs ==> x in s.runs && runs[x] == s.runs[x]) && (x != t && x in s.runs ==> x in runs)
  {
  }

  /** What a tool update does to the link of x. */
  lemma ToolArmLinks(env: Env, s: Core, e: Canonical, x: ThreadId)
    requires env.Valid() && e.Tool?
    ensures var after := OnTool(env, s, e).core;
            && (Tasks(env, after, e, x) ==>
                  x in after.links
                  && Hangs(after.links[x], Origin(e.thread, after.runs[e.thread].run, e.update.tool), x))
            && (!Tasks(env, after, e, x) && x in after.links ==> x in s.links && after.links[x] == s.links[x])
  {
    hide ToolStep, CloseObserved, Evict, AtWork;
    var o := EnsureObserved(env, s, e.thread, e.runRef, e.turnRef);
    EvictLinks(env, s.(runs := s.runs[e.thread := NewRun(ObservedRunId(e.thread), None)],
        observed := s.observed + [e.thread]));
    assert o.core.links == s.links;
    if Addresses(o.core, e.thread, e.runRef, e.turnRef) {
      var r := o.core.runs[e.thread];
      var step := ToolStep(env, e.thread, r.run, ToolAt(r, e.update.tool), e.update);
      ToolStepLinks(env, e.thread, r.run, ToolAt(r, e.update.tool), e.update, x);
      var s1 := o.core.(runs := o.core.runs[e.thread := r.(tools := r.tools[e.update.tool := step.tool])]);
      SettleChildLinks(env, s1, e, step, x);
    }
  }

  lemma SettleChildLinks(env: Env, s: Core, e: Canonical, out: ToolOut, x: ThreadId)
    requires env.Valid() && e.Tool? && e.thread in s.runs && (out.linked.Some? ==> out.finished.None?)
    ensures var run := s.runs[e.thread].run;
            var after := SettleChild(env, s, e.thread, run, e.update.tool, out).core;
            && (e.thread in after.runs ==> after.runs[e.thread] == s.runs[e.thread])
            && (out.linked == Some(x) ==>
                  e.thread in after.runs && x in after.links
                      && Hangs(after.links[x], Origin(e.thread, run, e.update.tool), x))
            && (out.linked != Some(x) && x in after.links ==> x in s.links && after.links[x] == s.links[x])
  {
    hide CloseObserved;
    if out.finished.Some? {
      var child := out.finished.value;
      CloseObservedLinks(env, s.(links := s.links - {child}), child);
      CloseObservedRuns(env, s.(links := s.links - {child}), child, e.thread);
    }
  }

  /** No other event links a child. */
  lemma OtherArmLinks(env: Env, s: Core, e: Canonical, x: ThreadId)
    requires env.Valid() && !e.Tool? && x in Dispatch(env, s, e).core.links
    ensures x in s.links && Dispatch(env, s, e).core.links[x] == s.links[x]
  {
    hide EndRun;
    match e
    case RunStarted(t, _, _, _) =>
      if t in s.runs { EndRunLinks(env, s.(closed := s.closed - {t}), t, "failed", Superseded); }
    case RunFinished(t, _, _, _, cancelled) =>
      if t in s.runs { EndRunLinks(env, s, t, if cancelled then "cancelled" else "completed", Finished); }
    case RunFailed(t, _, _, _, _) =>
      if t in s.runs { EndRunLinks(env, s, t, "failed", Errored); }
    case MessageChunk(_, _, _, _, _, _, _, _) => ChunkArmLinks(env, s, e);
    case _ =>
  }

  lemma StepLinks(env: Env, s: Core, e: Canonical, x: ThreadId, origin: Origin)
    requires env.Valid() && x in Step(env, s, Observe(e)).core.links && (x in s.links ==> Hangs(s.links[x], origin, x))
    ensures var after := Step(env, s, Observe(e)).core;
            var now := if Tasks(env, after, e, x) then Origin(e.thread, after.runs[e.thread].run, e.update.tool)
                else origin;
            Hangs(after.links[x], now, x) && (x in s.links || Tasks(env, after, e, x))
  {
    hide ProjectProgress, OnTool, AtWork, Fences;
    var s1 := ProjectProgress(env, s, e).core;
    if e.Tool? {
      ToolArmLinks(env, s1, e, x);
    } else {
      OtherArmLinks(env, s1, e, x);
    }
    if x in s1.links {
      ProgressOnLinks(env, s, e, x);
    }
  }

  /** After every sequence of calls, every link is the child's own and hangs on the tool call that last linked it. */
  lemma {:induction false} LinksHang(env: Env, inputs: seq<Input>, x: ThreadId)
    requires env.Valid() && x in Run(env, inputs).core.links
    ensures LinkedBy(env, inputs, x).Some? && Hangs(Run(env, inputs).core.links[x], LinkedBy(env, inputs, x).value, x)
    decreases |inputs|
  {
    hide Hangs, Tasks, Step;
    if inputs == [] {
      assert false;
    } else {
      var front, i := inputs[..|inputs| - 1], inputs[|inputs| - 1];
      var s := Run(env, front).core;
      if x in s.links {
        LinksHang(env, front, x);
      }
      match i
      case LinkChild(t, run, tool, child) => LinkChildHangs(env, s, t, run, tool, child, x);
      case Observe(e) =>
        StepLinks(env, s, e, x, LinkedBy(env, front, x).GetOr(Origin("", "", "")));
    }
  }

  lemma LinkChildHangs(env: Env, s: Core, t: ThreadId, run: RunId, tool: ToolId, child: ThreadId, x: ThreadId)
    requires env.Valid() && x in Step(env, s, LinkChild(t, run, tool, child)).core.links
    ensures var link := Step(env, s, LinkChild(t, run, tool, child)).core.links[x];
            if x == child && x !in s.links then Hangs(link, Origin(t, run, tool), x)
            else x in s.links && link == s.links[x]
  {
  }

  // ----- what an event on a child's thread shows -----

  /** The event belongs to the run and the generation of the child that the link follows. */
  predicate Follows(link: Link, e: Canonical) {
    && (link.floor.Some? && EventGeneration(e).Some? ==> link.floor.value <= EventGeneration(e).value)
    && (link.generation.Some? && EventGeneration(e).Some? ==> EventGeneration(e) == link.generation)
    && (link.childRun.Some? && EventRun(e).Some? ==> EventRun(e) == link.childRun)
  }

  /** Narration shows the child's latest tool in flight, if there is one. */
  function Label(link: Link, p: Progress): string {
    if p.source.Narration? && link.running != [] then link.running[|link.running| - 1].1 else p.latest
  }

  /** The progress is not a repetition and changes what the card shows. */
  predicate News(link: Link, p: Progress) {
    && (p.revision.Some? ==> p.revision.value !in link.revisions)
    && link.rendered != Some((p.status, Label(link, p)))
  }

  /** The progress that an event on the child's thread brings to the card. */
  function Shown(env: Env, link: Link, e: Canonical): Option<Progress> {
    match ProgressOf(env, e)
    case Some(p) => if Follows(link, e) && News(link, p) then Some(p) else None
    case None => None
  }

  function ShownCard(env: Env, link: Link, origin: Origin, child: ThreadId, e: Canonical): seq<Event> {
    match Shown(env, link, e)
    case Some(p) => [Card(origin.thread, origin.run, origin.tool, Some(child), p.status, Some(Label(link, p)))]
    case None => []
  }

  predicate OnlyCardsOn(events: seq<Event>, t: ThreadId) {
    forall d :: d in events && d.Card? ==> d.thread == t
  }

  lemma RenderShows(link: Link, p: Progress)
    ensures var (after, latest) := Render(link, p);
            && latest == (if News(link, p) then Some(Label(link, p)) else None)
            && after.rendered == (if News(link, p) then Some((p.status, Label(link, p))) else link.rendered)
  {
  }

  lemma {:induction false} ToolEndsNoCards(env: Env, t: ThreadId, r: RunState, keys: set<ToolId>, clock: nat)
    requires env.Valid() && keys <= r.tools.Keys
    ensures forall d :: d in ToolEnds(env, t, r, keys, clock) ==> !d.Card?
    decreases keys
  {
    if keys == {} {
    } else {
      var k := env.pick(clock, keys);
      ToolEndsNoCards(env, t, r, keys - {k}, clock + 1);
    }
  }

  lemma TerminalNoCards(env: Env, t: ThreadId, r: RunState, clock: nat, outcome: Outcome)
    requires env.Valid()
    ensures forall d :: d in TerminalEvents(env, t, r, clock, outcome) ==> !d.Card?
  {
    hide ToolEnds;
    ToolEndsNoCards(env, t, r, r.tools.Keys, clock);
  }

  lemma CloseObservedNoCards(env: Env, s: Core, t: ThreadId)
    requires env.Valid()
    ensures forall d :: d in CloseObserved(env, s, t).events ==> !d.Card?
  {
    hide TerminalEvents;
    if HasObservedRun(s, t) {
      TerminalNoCards(env, t, s.runs[t], s.clock, Finished);
    }
  }

  lemma {:induction false} CloseAllNoCards(env: Env, s: Core, threads: seq<ThreadId>)
    requires env.Valid()
    ensures forall d :: d in CloseAll(env, s, threads).events ==> !d.Card?
    decreases |threads|
  {
    hide CloseObserved;
    if threads == [] {
    } else {
      CloseObservedNoCards(env, s, threads[0]);
      CloseAllNoCards(env, CloseObserved(env, s, threads[0]).core, threads[1..]);
    }
  }

  lemma {:induction false} EvictNoCards(env: Env, s: Core)
    requires env.Valid()
    ensures forall d :: d in Evict(env, s).events ==> !d.Card?
    decreases |s.observed|
  {
    hide CloseObserved;
    if |s.observed| <= OBSERVED_RUN_CAPACITY {
    } else {
      var oldest := s.observed[0];
      var s1 := s.(observed := s.observed[1..]);
      CloseObservedNoCards(env, s1, oldest);
      CloseObservedShrinks(env, s1, oldest);
      EvictNoCards(env, if oldest in s1.runs && s1.runs[oldest].turn.None? then CloseObserved(env, s1, oldest).core
          else s1);
    }
  }

  /** The progress of a linked child: the card, and nothing else that is a card. */
  lemma ProgressCard(env: Env, s: Core, e: Canonical, child: ThreadId, origin: Origin) returns (rest: seq<Event>)
    requires env.Valid() && e.Thread() == Some(child) && child in s.links && Hangs(s.links[child], origin, child)
    ensures ProjectProgress(env, s, e).events == ShownCard(env, s.links[child], origin, child, e) + rest
    ensures forall d :: d in rest ==> !d.Card?
  {
    hide ProgressOf, CloseObserved, SettleParent, Render, News, Label;
    var link := s.links[child];
    assert Fences(link, e) <==> !Follows(link, e);
    var link1 := if e.RunStarted? then link.(childRun := Some(e.run), generation := Some(e.generation)) else link;
    rest := [];
    if ProgressOf(env, e).Some? && Follows(link, e) {
      var p := ProgressOf(env, e).value;
      RenderShows(link1, p);
      SameNews(link, link1, p);
      if News(link, p) && env.isTerminal(p.status) {
        var s1 := SettleParent(s, link, p.status).(links := s.links - {child});
        rest := CloseObserved(env, s1, child).events;
        CloseObservedNoCards(env, s1, child);
      }
    }
  }

  lemma SameNews(a: Link, b: Link, p: Progress)
    requires a.revisions == b.revisions && a.running == b.running && a.rendered == b.rendered
    ensures News(a, p) == News(b, p) && Label(a, p) == Label(b, p)
  {
  }

  // ----- cards of a tool update -----

  function CardsOf(events: seq<Event>): seq<Event> {
    if events == [] then []
    else (if events[0].Card? then [events[0]] else []) + CardsOf(events[1..])
  }

  lemma {:induction false} CardsOfConcat(a: seq<Event>, b: seq<Event>)
    ensures CardsOf(a + b) == CardsOf(a) + CardsOf(b)
  {
    if a == [] {
      assert a + b == b;
    } else {
      var head := if a[0].Card? then [a[0]] else [];
      var all := a + b;
      assert all[0] == a[0] && all[1..] == a[1..] + b;
      CardsOfConcat(a[1..], b);
      assert CardsOf(all) == head + CardsOf(a[1..] + b);
      assert head + (CardsOf(a[1..]) + CardsOf(b)) == head + CardsOf(a[1..]) + CardsOf(b);
    }
  }

  lemma {:induction false} NoCardsOf(events: seq<Event>)
    requires forall d :: d in events ==> !d.Card?
    ensures CardsOf(events) == []
  {
    if events == [] {
    } else {
      NoCardsOf(events[1..]);
    }
  }

  lemma {:induction false} CardsOfIn(events: seq<Event>, d: Event)
    ensures d in CardsOf(events) <==> d in events && d.Card?
  {
    if events == [] {
    } else {
      CardsOfIn(events[1..], d);
    }
  }

  /** The status on a tool's card: that of the child its text names, which a failure outlives. */
  predicate CardStatus(env: Env, ts: ToolState, u: ToolUpdate, task: Option<Task>, status: string) {
    var failed := ts.terminalStatus.Some? && env.isFailed(ts.terminalStatus.value);
    var ended := u.status.IsTerminal();
    var outcome := if u.status.Failed? then "failed" else "completed";
    && (!ended ==> status == if task.Some? then task.value.state else "running")
    && (ended && failed && (task.None? || !env.isTerminal(task.value.state)) ==> Some(status) == ts.terminalStatus)
    && (ended && task.Some? && (env.isTerminal(task.value.state) || !failed) ==>
          status == if env.isFailed(task.value.state) then task.value.state else outcome)
    && (ended && task.None? && !failed ==> status == outcome)
  }

  /** A tool's card shows the end of its text. */
  predicate CardText(env: Env, ts: ToolState, u: ToolUpdate, named: bool, latest: Option<string>) {
    latest == env.preview(ts.result)
    || (env.preview(ts.result).None? && !named && u.status.IsTerminal() && latest == Some("Task finished"))
  }

  lemma LinkedState(env: Env, t: ThreadId, run: RunId, ts: ToolState, u: ToolUpdate, task: Task, child: ThreadId)
    ensures var out := LinkedCard(env, t, run, ts, u, task, child);
            && out.tool.child == Some(child) && out.tool.card && out.tool.result == ts.result
            && out.tool.cardRevision.Some?
            && out.tool.cardRevision.value.child == Some(child)
  {
    hide SnapshotStatus, RememberedFailure;
  }

  lemma LinkedStatus(env: Env, t: ThreadId, run: RunId, ts: ToolState, u: ToolUpdate, task: Task, child: ThreadId)
    ensures var key := LinkedCard(env, t, run, ts, u, task, child).tool.cardRevision;
            key.Some? && CardStatus(env, ts, u, Some(task), key.value.status)
  {
    hide CardStatus;
    var remembered := RememberedFailure(env, ts);
    var stale := u.status.IsTerminal() && !env.isTerminal(task.state) && remembered.Some?;
    StatusIs(env, ts, u, task, if stale then remembered.value else SnapshotStatus(env, u.status, task.state));
    hide RememberedFailure, SnapshotStatus;
  }

  lemma StatusIs(env: Env, ts: ToolState, u: ToolUpdate, task: Task, status: string)
    requires var remembered := RememberedFailure(env, ts);
             var stale := u.status.IsTerminal() && !env.isTerminal(task.state) && remembered.Some?;
             status == if stale then remembered.value else SnapshotStatus(env, u.status, task.state)
    ensures CardStatus(env, ts, u, Some(task), status)
  {
  }

  lemma LinkedEvents(env: Env, t: ThreadId, run: RunId, ts: ToolState, u: ToolUpdate, task: Task, child: ThreadId)
    ensures var out := LinkedCard(env, t, run, ts, u, task, child);
            && out.tool.cardRevision.Some?
            && out.events == (if ts.card then [] else [Classified(t, run, u.tool)])
               + if out.tool.cardRevision == ts.cardRevision then []
                 else [Card(t, run, u.tool, Some(child), out.tool.cardRevision.value.status, env.preview(ts.result))]
  {
    hide SnapshotStatus, RememberedFailure;
  }

  lemma LinkedShows(env: Env, t: ThreadId, run: RunId, ts: ToolState, u: ToolUpdate, task: Task, child: ThreadId)
    ensures var out := LinkedCard(env, t, run, ts, u, task, child);
            && out.tool.child == Some(child) && out.tool.card && out.tool.result == ts.result
            && out.tool.cardRevision.Some?
            && CardStatus(env, ts, u, Some(task), out.tool.cardRevision.value.status)
            && out.tool.cardRevision.value.child == Some(child)
            && CardsOf(out.events)
               == if out.tool.cardRevision == ts.cardRevision then []
                  else [Card(t, run, u.tool, Some(child), out.tool.cardRevision.value.status, env.preview(ts.result))]
  {
    hide CardsOf, LinkedCard, CardStatus;
    LinkedState(env, t, run, ts, u, task, child);
    LinkedStatus(env, t, run, ts, u, task, child);
    LinkedEvents(env, t, run, ts, u, task, child);
    var out := LinkedCard(env, t, run, ts, u, task, child);
    var mark := if ts.card then [] else [Classified(t, run, u.tool)];
    var cards := if out.tool.cardRevision == ts.cardRevision then []
      else [Card(t, run, u.tool, Some(child), out.tool.cardRevision.value.status, env.preview(ts.result))];
    CardsOfConcat(mark, cards);
    CardsOfFew(mark);
    CardsOfFew(cards);
  }

  lemma CardsOfFew(events: seq<Event>)
    requires |events| <= 1
    ensures CardsOf(events) == if events != [] && events[0].Card? then events else []
  {
    if events != [] {
      assert events[1..] == [];
    }
  }

  lemma UnlinkedShows(env: Env, t: ThreadId, run: RunId, ts: ToolState, u: ToolUpdate)
    ensures var out := UnlinkedCard(env, t, run, ts, u);
            && out.tool == ts.(cardRevision := out.tool.cardRevision)
            && (out.tool.cardRevision == ts.cardRevision ==> CardsOf(out.events) == [])
            && (out.tool.cardRevision != ts.cardRevision ==>
                  ts.card && out.tool.cardRevision.Some?
                  && out.tool.cardRevision.value.child == ts.child
                  && CardStatus(env, ts, u, None, out.tool.cardRevision.value.status)
                  && exists latest :: CardText(env, ts, u, false, latest)
                      && CardsOf(out.events)
                         == [Card(t, run, u.tool, ts.child, out.tool.cardRevision.value.status, latest)])
  {
    hide CardsOf;
    var out := UnlinkedCard(env, t, run, ts, u);
    CardsOfFew(out.events);
    if out.tool.cardRevision != ts.cardRevision {
      assert CardText(env, ts, u, false, out.events[0].latest);
    }
  }

  /** What a tool update shows: nothing if the card stays as it is, and otherwise one card, on the tool's
      own thread and run, for the child that the tool then names. */
  lemma UpdateShows(env: Env, t: ThreadId, run: RunId, ts: ToolState, u: ToolUpdate)
    ensures var out := ToolStep(env, t, run, ts, u);
            var named := Subagent(env, u.agent, out.tool.result);
            && (out.tool.cardRevision == ts.cardRevision ==> CardsOf(out.events) == [])
            && (out.tool.cardRevision != ts.cardRevision ==>
                  && out.tool.card && out.tool.cardRevision.Some?
                  && out.tool.cardRevision.value.child == out.tool.child
                  && CardStatus(env, ts, u, if named.Some? then Some(named.value.0) else None,
                                out.tool.cardRevision.value.status)
                  && exists latest :: CardText(env, out.tool, u, named.Some?, latest)
                      && CardsOf(out.events)
                         == [Card(t, run, u.tool, out.tool.child, out.tool.cardRevision.value.status, latest)])
            && (named.Some? ==> out.tool.child == Some(named.value.1) && out.tool.cardRevision.Some?)
  {
    hide CardsOf, LinkedCard, UnlinkedCard, TextEvents, CardStatus, CardText, ApplyUpdate, UpdateHasTask;
    var (ts1, announced) := Announce(env, t, run, ts, u);
    var (ts2, previous) := ApplyText(ts1, u);
    assert ts2.terminalStatus == ts.terminalStatus && ts2.cardRevision == ts.cardRevision;
    var out := ToolStep(env, t, run, ts, u);
    NoCardsOf(announced);
    var carded := match Subagent(env, u.agent, ts2.result)
      case Some(s) => LinkedCard(env, t, run, ts2, u, s.0, s.1)
      case None => UnlinkedCard(env, t, run, ts2, u);
    TextNoCards(env, t, run, carded.tool, u, previous);
    CardsOfConcat(announced, carded.events);
    CardsOfConcat(announced + carded.events, TextEvents(env, t, run, carded.tool, u, previous));
    SameStatus(env, ts, ts2, u);
    match Subagent(env, u.agent, ts2.result)
    case Some(s) =>
      LinkedShows(env, t, run, ts2, u, s.0, s.1);
      TextPlain(env, out.tool, u, true);
    case None =>
      UnlinkedShows(env, t, run, ts2, u);
      SameText(env, ts2, out.tool, u);
  }

  lemma SameStatus(env: Env, a: ToolState, b: ToolState, u: ToolUpdate)
    requires a.terminalStatus == b.terminalStatus
    ensures forall task, status :: CardStatus(env, b, u, task, status) ==> CardStatus(env, a, u, task, status)
  {
  }

  lemma SameText(env: Env, a: ToolState, b: ToolState, u: ToolUpdate)
    requires a.result == b.result
    ensures forall latest :: CardText(env, a, u, false, latest) ==> CardText(env, b, u, false, latest)
  {
  }

  lemma TextPlain(env: Env, ts: ToolState, u: ToolUpdate, named: bool)
    ensures CardText(env, ts, u, named, env.preview(ts.result))
  {
  }

  lemma TextNoCards(env: Env, t: ThreadId, run: RunId, ts: ToolState, u: ToolUpdate, previous: Option<string>)
    ensures CardsOf(TextEvents(env, t, run, ts, u, previous)) == []
  {
    hide StructuredEvents, ResultEvents, CardsOf;
    StructuredEventsAbout(env, t, run, ToolText(u.tool, ts.result));
    if previous.Some? && previous.value <= ts.result {
      ResultNoCards(t, run, u.tool, Utf8.Chunks(ts.result[|previous.value|..], TOOL_RESULT_CHUNK_BYTES));
    }
    NoCardsOf(TextEvents(env, t, run, ts, u, previous));
  }

  lemma {:induction false} ResultNoCards(t: ThreadId, run: RunId, tool: ToolId, parts: seq<string>)
    ensures forall d :: d in ResultEvents(t, run, tool, parts) ==> !d.Card?
  {
    if parts == [] {
    } else {
      ResultNoCards(t, run, tool, parts[1..]);
    }
  }

  // ----- cards of a closing run -----

  /** The tool is a card that has not ended. */
  predicate Unsettled(r: RunState, k: ToolId) {
    k in r.tools && r.tools[k].card && !r.tools[k].ended
  }

  function SettledStatus(env: Env, ts: ToolState, fallback: string): string {
    KnownTerminal(env, ts).GetOr(fallback)
  }

  function AsSettled(env: Env, ts: ToolState, fallback: string): ToolState {
    ts.(terminalStatus := Some(SettledStatus(env, ts, fallback)), ended := true)
  }

  function LastCard(env: Env, t: ThreadId, r: RunState, k: ToolId, fallback: string): Event
    requires k in r.tools
  {
    Card(t, r.run, k, r.tools[k].child, SettledStatus(env, r.tools[k], fallback), env.preview(r.tools[k].result))
  }

  function UnsettledIn(r: RunState, keys: set<ToolId>): (u: set<ToolId>)
    ensures u <= r.tools.Keys
  {
    set k | k in keys && Unsettled(r, k)
  }

  function LastCards(env: Env, t: ThreadId, r: RunState, keys: set<ToolId>, fallback: string): set<Event>
    requires keys <= r.tools.Keys
  {
    set k | k in keys :: LastCard(env, t, r, k, fallback)
  }

  function Distinct(events: seq<Event>): set<Event> {
    set d | d in events
  }

  /** The events are the last cards of the unsettled tools, one for each. */
  ghost predicate ShowsLast(env: Env, t: ThreadId, r: RunState, keys: set<ToolId>, fallback: string,
      events: seq<Event>) {
    && |events| == |UnsettledIn(r, keys)|
    && Distinct(events) == LastCards(env, t, r, UnsettledIn(r, keys), fallback)
  }

  lemma UnsettledMore(r: RunState, r1: RunState, k: ToolId, keys: set<ToolId>)
    requires k in keys && forall x :: x in keys && x != k ==> x in r.tools && x in r1.tools && r1.tools[x] == r.tools[x]
    ensures UnsettledIn(r, keys) == UnsettledIn(r1, keys - {k}) + if Unsettled(r, k) then {k} else {}
    ensures k !in UnsettledIn(r1, keys - {k})
  {
  }

  lemma ShowsMore(env: Env, t: ThreadId, r: RunState, r1: RunState, k: ToolId, keys: set<ToolId>, fallback: string,
      events: seq<Event>)
    requires k in keys && k in r.tools && ShowsLast(env, t, r1, keys - {k}, fallback, events) && r1.run == r.run
    requires forall x :: x in keys && x != k ==> x in r.tools && x in r1.tools && r1.tools[x] == r.tools[x]
    ensures Unsettled(r, k) ==> ShowsLast(env, t, r, keys, fallback, [LastCard(env, t, r, k, fallback)] + events)
    ensures !Unsettled(r, k) ==> ShowsLast(env, t, r, keys, fallback, events)
  {
    UnsettledMore(r, r1, k, keys);
    var rest := UnsettledIn(r1, keys - {k});
    assert rest <= r.tools.Keys;
    SameLastCards(env, t, r, r1, rest, fallback);
    hide LastCard, UnsettledIn, Unsettled, LastCards, Distinct;
    if Unsettled(r, k) {
      DistinctMore(LastCard(env, t, r, k, fallback), events);
      LastCardsMore(env, t, r, rest, k, fallback);
    } else {
      assert rest + {} == rest;
    }
  }

  lemma DistinctMore(d: Event, events: seq<Event>)
    ensures Distinct([d] + events) == Distinct(events) + {d}
  {
  }

  lemma LastCardsMore(env: Env, t: ThreadId, r: RunState, keys: set<ToolId>, k: ToolId, fallback: string)
    requires keys + {k} <= r.tools.Keys
    ensures LastCards(env, t, r, keys + {k}, fallback)
            == LastCards(env, t, r, keys, fallback) + {LastCard(env, t, r, k, fallback)}
  {
    hide LastCard;
  }

  lemma SameLastCards(env: Env, t: ThreadId, r: RunState, r1: RunState, keys: set<ToolId>, fallback: string)
    requires r1.run == r.run && forall x :: x in keys ==> x in r.tools && x in r1.tools && r1.tools[x] == r.tools[x]
    ensures LastCards(env, t, r, keys, fallback) == LastCards(env, t, r1, keys, fallback)
  {
    hide SettledStatus;
    assert forall x :: x in keys ==> LastCard(env, t, r, x, fallback) == LastCard(env, t, r1, x, fallback);
  }

  /** A closing run shows one last card for each card that has not ended, with the status known of it or
      that of the run, and marks these tools as ended with it. */
  lemma {:induction false} ClosingShows(
    env: Env, t: ThreadId, r: RunState, keys: set<ToolId>, fallback: string, clock: nat)
    requires env.Valid() && keys <= r.tools.Keys
    ensures var out := TerminalizeTools(env, t, r, keys, fallback, clock);
            && ShowsLast(env, t, r, keys, fallback, out.events)
            && out.tools.Keys == r.tools.Keys
            && forall k :: k in r.tools ==>
                 out.tools[k] == if k in keys && Unsettled(r, k) then AsSettled(env, r.tools[k], fallback)
                     else r.tools[k]
    decreases keys
  {
    hide KnownTerminal;
    if keys == {} {
      assert UnsettledIn(r, keys) == {};
    } else {
      hide ShowsLast;
      var k := env.pick(clock, keys);
      var ts := r.tools[k];
      var r1 := if Unsettled(r, k) then r.(tools := r.tools[k := AsSettled(env, ts, fallback)]) else r;
      ClosingShows(env, t, r1, keys - {k}, fallback, clock + 1);
      ShowsMore(env, t, r, r1, k, keys, fallback, TerminalizeTools(env, t, r1, keys - {k}, fallback, clock + 1).events);
    }
  }

  lemma EndRunCards(env: Env, s: Core, t: ThreadId, fallback: string, outcome: Outcome)
    requires env.Valid() && t in s.runs
    ensures OnlyCardsOn(EndRun(env, s, t, fallback, outcome).events, t)
  {
    hide TerminalizeTools, CloseAll, TerminalEvents;
    var term := SettleSubagents(env, s, t, fallback);
    ClosingShows(env, t, s.runs[t], s.runs[t].tools.Keys, fallback, s.clock);
    assert forall d :: d in term.events ==> d in Distinct(term.events);
    CloseAllNoCards(env, TakeRun(s, t), term.children);
    var o := CloseChildren(env, s, t, term.children);
    TerminalNoCards(env, t, s.runs[t].(tools := term.tools), o.core.clock, outcome);
  }

  lemma EnsureObservedNoCards(env: Env, s: Core, t: ThreadId, runRef: Option<RunId>, turnRef: Option<TurnId>)
    requires env.Valid()
    ensures forall d :: d in EnsureObserved(env, s, t, runRef, turnRef).events ==> !d.Card?
  {
    hide Evict;
    EvictNoCards(env, s.(runs := s.runs[t := NewRun(ObservedRunId(t), None)], observed := s.observed + [t]));
  }

  lemma ToolArmCards(env: Env, s: Core, e: Canonical)
    requires env.Valid() && e.Tool?
    ensures OnlyCardsOn(OnTool(env, s, e).events, e.thread)
  {
    hide EnsureObserved, ToolStep, CloseObserved, Relink;
    var t := e.thread;
    EnsureObservedNoCards(env, s, t, e.runRef, e.turnRef);
    var o := EnsureObserved(env, s, t, e.runRef, e.turnRef);
    if Addresses(o.core, t, e.runRef, e.turnRef) {
      var r := o.core.runs[t];
      var step := ToolStep(env, t, r.run, ToolAt(r, e.update.tool), e.update);
      ToolCardsOn(env, t, r.run, ToolAt(r, e.update.tool), e.update);
      var s1 := o.core.(runs := o.core.runs[t := r.(tools := r.tools[e.update.tool := step.tool])]);
      if step.finished.Some? {
        CloseObservedNoCards(env, s1.(links := s1.links - {step.finished.value}), step.finished.value);
      }
    }
  }

  lemma ToolCardsOn(env: Env, t: ThreadId, run: RunId, ts: ToolState, u: ToolUpdate)
    ensures OnlyCardsOn(ToolStep(env, t, run, ts, u).events, t)
  {
    hide ToolStep, CardsOf, CardStatus, CardText, Subagent;
    UpdateShows(env, t, run, ts, u);
    forall d | d in ToolStep(env, t, run, ts, u).events && d.Card?
      ensures d.thread == t
    {
      CardsOfIn(ToolStep(env, t, run, ts, u).events, d);
    }
  }

  lemma ChunkArmCards(env: Env, s: Core, e: Canonical)
    requires env.Valid() && e.MessageChunk?
    ensures OnlyCardsOn(OnChunk(env, s, e).events, e.thread)
  {
    hide EnsureObserved, ChunkStep;
    var t := e.thread;
    EnsureObservedNoCards(env, s, t, e.runRef, e.turnRef);
    var o := EnsureObserved(env, s, t, e.runRef, e.turnRef);
    if Addresses(o.core, t, e.runRef, e.turnRef) {
      ChunkStepAbout(env, t, o.core.runs[t], e.role, e.id, e.content, e.block);
    }
  }

  /** Every other card is on the thread of the event. */
  lemma DispatchCards(env: Env, s: Core, e: Canonical)
    requires env.Valid() && e.Thread().Some?
    ensures OnlyCardsOn(Dispatch(env, s, e).events, e.Thread().value)
  {
    hide EndRun, OnTool, OnChunk;
    match e
    case RunStarted(t, _, _, _) =>
      if t in s.runs { EndRunCards(env, s.(closed := s.closed - {t}), t, "failed", Superseded); }
    case RunFinished(t, _, _, _, cancelled) =>
      if t in s.runs { EndRunCards(env, s, t, if cancelled then "cancelled" else "completed", Finished); }
    case RunFailed(t, _, _, _, _) =>
      if t in s.runs { EndRunCards(env, s, t, "failed", Errored); }
    case MessageChunk(_, _, _, _, _, _, _, _) => ChunkArmCards(env, s, e);
    case Tool(_, _, _, _, _) => ToolArmCards(env, s, e);
    case _ =>
  }

  // ----- every run -----

  /** The card that an event brings to the tool call its thread hangs on. */
  ghost function ParentCard(env: Env, inputs: seq<Input>, e: Canonical): seq<Event>
    requires env.Valid()
  {
    var links, t := Run(env, inputs).core.links, e.Thread();
    if t.Some? && t.value in links && LinkedBy(env, inputs, t.value).Some?
    then ShownCard(env, links[t.value], LinkedBy(env, inputs, t.value).value, t.value, e)
    else []
  }

  /** MAIN THEOREM. After every sequence of calls, an event on the thread of a linked child shows exactly
      one card beyond its own thread's if it is of the run and generation followed and news: first of all,
      on the tool call that last linked the child, naming the child. Every other event shows none, and all
      further cards are on the event's own thread. */
  lemma CardsGoToTheParent(env: Env, inputs: seq<Input>, e: Canonical) returns (rest: seq<Event>)
    requires env.Valid()
    ensures Step(env, Run(env, inputs).core, Observe(e)).events == ParentCard(env, inputs, e) + rest
    ensures forall d :: d in rest && d.Card? ==> e.Thread() == Some(d.thread)
  {
    hide Run, LinkedBy, ShownCard, Dispatch, ProjectProgress, Hangs;
    var s := Run(env, inputs).core;
    var p := ProjectProgress(env, s, e);
    var d := Dispatch(env, p.core, e);
    rest := d.events;
    if e.Thread().None? {
      NoThreadNoEvents(env, s, e);
    } else {
      DispatchCards(env, p.core, e);
      var t := e.Thread().value;
      if t in s.links {
        LinksHang(env, inputs, t);
        var closing := ProgressCard(env, s, e, t, LinkedBy(env, inputs, t).value);
        rest := closing + d.events;
      } else {
        UnlinkedNoEvents(env, s, e);
      }
    }
  }

  lemma NoThreadNoEvents(env: Env, s: Core, e: Canonical)
    requires env.Valid() && e.Thread().None?
    ensures Dispatch(env, ProjectProgress(env, s, e).core, e).events == [] && ProjectProgress(env, s, e).events == []
  {
  }

  lemma UnlinkedNoEvents(env: Env, s: Core, e: Canonical)
    requires env.Valid() && e.Thread().Some? && e.Thread().value !in s.links
    ensures ProjectProgress(env, s, e).events == []
  {
  }
}
