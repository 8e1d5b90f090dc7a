/** The projector's stream against the reference client, over every sequence of calls. */
module AgUiStream {
  import opened Wrappers
  import opened AgUiTypes
  import opened AgUiClient
  import opened AgUiRun
  import opened AgUiRunProofs
  import opened AgUiCore

  /** The client has exactly the projector's runs open, each in step. */
  ghost predicate RunsRel(runs: map<ThreadId, RunState>, c: Client) {
    runs.Keys == c.Keys && forall t :: t in runs ==> RunRel(runs[t], c[t])
  }

  /** Runs without a source turn are the implicit ones. */
  ghost predicate ImplicitIds(runs: map<ThreadId, RunState>) {
    forall t :: t in runs && runs[t].turn.None? ==> runs[t].run == ObservedRunId(t)
  }

  ghost predicate Inv(s: Core) {
    |s.observed| <= OBSERVED_RUN_CAPACITY && ImplicitIds(s.runs)
  }

  /** The client accepts what was emitted and is again in step with the projector. */
  ghost predicate Tracks(env: Env, c: Client, out: Out, c': Client) {
    Accept(env, c, out.events) == Some(c') && RunsRel(out.core.runs, c') && Inv(out.core)
  }

  lemma AcceptThen(env: Env, c: Client, a: seq<Event>, c1: Client, b: seq<Event>)
    requires Accept(env, c, a) == Some(c1)
    ensures Accept(env, c, a + b) == Accept(env, c1, b)
  {
    AcceptConcat(env, c, a, b);
  }

  lemma TrackNothing(env: Env, s: Core, c: Client)
    requires RunsRel(s.runs, c) && Inv(s)
    ensures Tracks(env, c, Out(s, []), c)
  {
  }

  lemma TracksInv(env: Env, c: Client, out: Out, c': Client)
    requires Tracks(env, c, out, c')
    ensures RunsRel(out.core.runs, c') && Inv(out.core)
  {
  }

  lemma TrackThen(env: Env, c: Client, a: Out, c1: Client, b: Out, c2: Client)
    requires Tracks(env, c, a, c1) && Tracks(env, c1, b, c2)
    ensures Tracks(env, c, Out(b.core, a.events + b.events), c2)
  {
    AcceptConcat(env, c, a.events, b.events);
  }

  /** No event touches the run of thread t. */
  ghost predicate Elsewhere(events: seq<Event>, t: ThreadId) {
    forall e :: e in events ==> e.Card? || e.thread != t
  }

  /** A run the events do not touch can be added on the side. */
  lemma {:induction false} AcceptFrame(env: Env, c: Client, t: ThreadId, v: RunView, events: seq<Event>, c': Client)
    requires t !in c && Elsewhere(events, t) && Accept(env, c, events) == Some(c')
    ensures t !in c' && Accept(env, c[t := v], events) == Some(c'[t := v])
    decreases |events|
  {
    if events == [] {
    } else {
      var e := events[0];
      assert e in events;
      var c1 := Accept1(env, c, e).value;
      assert Accept1(env, c[t := v], e) == Some(c1[t := v]) && t !in c1 by {
        Accept1Frame(env, c, t, v, e);
      }
      AcceptFrame(env, c1, t, v, events[1..], c');
    }
  }

  lemma Accept1Frame(env: Env, c: Client, t: ThreadId, v: RunView, e: Event)
    requires t !in c && (e.Card? || e.thread != t) && Accept1(env, c, e).Some?
    ensures t !in Accept1(env, c, e).value
    ensures Accept1(env, c[t := v], e) == Some(Accept1(env, c, e).value[t := v])
  {
    hide AcceptRun;
    var c1 := Accept1(env, c, e).value;
    if e.RunOpened? {
      assert c[t := v][e.thread := NewView(e.run)] == c1[t := v];
    } else if e.RunClosed? {
      assert c[t := v] - {e.thread} == c1[t := v];
    } else if !e.Card? && !e.Custom? {
      var w := AcceptRun(env, c[e.thread], e).value;
      assert c[t := v][e.thread := w] == c1[t := v];
    }
  }

  // ----- closing runs -----

  lemma PutBack(c: Client, t: ThreadId)
    requires t in c
    ensures (c - {t})[t := c[t]] == c
  {
  }

  lemma DropPut(c: Client, t: ThreadId, v: RunView)
    requires t !in c
    ensures c[t := v] - {t} == c
  {
  }

  lemma InvDrop(s: Core, t: ThreadId, clock: nat)
    requires Inv(s)
    ensures Inv(s.(runs := s.runs - {t}, clock := clock))
  {
  }

  lemma CloseRunAccepted(env: Env, t: ThreadId, r: RunState, clock: nat, c: Client, outcome: Outcome)
    requires env.Valid() && t in c && RunRel(r, c[t])
    ensures Accept(env, c, TerminalEvents(env, t, r, clock, outcome)) == Some(c - {t})
  {
    hide CloseEvents, Accept;
    var events := CloseEvents(env, t, r, clock);
    var v' := CloseAccepted(env, t, r, clock, c[t]);
    AcceptLift(env, c, t, events, v');
    var c1 := c[t := v'];
    AcceptThen(env, c, events, c1, [RunClosed(t, r.run, outcome)]);
    AcceptOne(env, c1, RunClosed(t, r.run, outcome));
    assert c1 - {t} == c - {t};
  }

  lemma RunsRelAt(runs: map<ThreadId, RunState>, c: Client, t: ThreadId)
    requires RunsRel(runs, c) && t in runs
    ensures t in c && RunRel(runs[t], c[t])
  {
  }

  lemma RunsRelDrop(runs: map<ThreadId, RunState>, c: Client, t: ThreadId)
    requires RunsRel(runs, c)
    ensures RunsRel(runs - {t}, c - {t})
  {
  }

  lemma RunsRelPut(runs: map<ThreadId, RunState>, c: Client, t: ThreadId, r: RunState, v: RunView)
    requires RunsRel(runs, c) && RunRel(r, v)
    ensures RunsRel(runs[t := r], c[t := v])
  {
    hide RunRel;
  }

  lemma {:induction false} ToolEndsElsewhere(env: Env, t: ThreadId, r: RunState, keys: set<ToolId>, clock: nat,
      x: ThreadId)
    requires env.Valid() && keys <= r.tools.Keys && x != t
    ensures Elsewhere(ToolEnds(env, t, r, keys, clock), x)
    decreases keys
  {
    if keys == {} {
    } else {
      ToolEndsElsewhere(env, t, r, keys - {env.pick(clock, keys)}, clock + 1, x);
    }
  }

  lemma CloseObservedElsewhere(env: Env, s: Core, t: ThreadId, x: ThreadId)
    requires env.Valid() && x !in s.runs
    ensures Elsewhere(CloseObserved(env, s, t).events, x) && x !in CloseObserved(env, s, t).core.runs
  {
    hide TerminalEvents;
    if HasObservedRun(s, t) {
      TerminalElsewhere(env, t, s.runs[t], s.clock, Finished, x);
    }
  }

  lemma TerminalElsewhere(env: Env, t: ThreadId, r: RunState, clock: nat, outcome: Outcome, x: ThreadId)
    requires env.Valid() && x != t
    ensures Elsewhere(TerminalEvents(env, t, r, clock, outcome), x)
  {
    hide ToolEnds;
    ToolEndsElsewhere(env, t, r, r.tools.Keys, clock, x);
  }

  lemma {:induction false} CloseAllElsewhere(env: Env, s: Core, threads: seq<ThreadId>, x: ThreadId)
    requires env.Valid() && x !in s.runs
    ensures Elsewhere(CloseAll(env, s, threads).events, x) && x !in CloseAll(env, s, threads).core.runs
    decreases |threads|
  {
    hide CloseObserved;
    if threads == [] {
    } else {
      CloseObservedElsewhere(env, s, threads[0], x);
      CloseAllElsewhere(env, CloseObserved(env, s, threads[0]).core, threads[1..], x);
    }
  }

  lemma CloseObservedTracks(env: Env, s: Core, t: ThreadId, c: Client)
    requires env.Valid() && RunsRel(s.runs, c) && Inv(s)
    ensures Tracks(env, c, CloseObserved(env, s, t), if HasObservedRun(s, t) then c - {t} else c)
  {
    hide Accept, RunRel, CloseObserved;
    if HasObservedRun(s, t) {
      CloseObservedFrame(env, s, t);
      CloseRunAccepted(env, t, s.runs[t], s.clock, c, Finished);
      RunsRelDrop(s.runs, c, t);
    } else {
      CloseObservedIdle(env, s, t);
      TrackNothing(env, s, c);
    }
  }

  lemma CloseObservedIdle(env: Env, s: Core, t: ThreadId)
    requires env.Valid() && !HasObservedRun(s, t)
    ensures CloseObserved(env, s, t) == Out(s, [])
  {
  }

  lemma CloseObservedFrame(env: Env, s: Core, t: ThreadId)
    requires env.Valid() && HasObservedRun(s, t)
    ensures var o := CloseObserved(env, s, t);
            && o.core.runs == s.runs - {t}
            && o.core.observed == Without(s.observed, t) && |o.core.observed| <= |s.observed|
            && o.events == TerminalEvents(env, t, s.runs[t], s.clock, Finished)
  {
  }

  lemma {:induction false} CloseAllTracks(env: Env, s: Core, threads: seq<ThreadId>, c: Client) returns (c': Client)
    requires env.Valid() && RunsRel(s.runs, c) && Inv(s)
    ensures Tracks(env, c, CloseAll(env, s, threads), c')
    decreases |threads|
  {
    hide Tracks;
    if threads == [] {
      c' := c;
      TrackNothing(env, s, c);
    } else {
      hide CloseObserved;
      CloseObservedTracks(env, s, threads[0], c);
      var o := CloseObserved(env, s, threads[0]);
      var c1 := if HasObservedRun(s, threads[0]) then c - {threads[0]} else c;
      TracksInv(env, c, o, c1);
      c' := CloseAllTracks(env, o.core, threads[1..], c1);
      TrackThen(env, c, o, c1, CloseAll(env, o.core, threads[1..]), c');
    }
  }

  // ----- implicit runs -----

  /** The stale case: an implicit run is to be opened for t while the queue is full and its oldest
      entry is a leftover of t itself, so the eviction hits the run being opened. */
  predicate Stale(s: Core, t: ThreadId, runRef: Option<RunId>, turnRef: Option<TurnId>) {
    Observes(s, t, runRef, turnRef) && |s.observed| >= OBSERVED_RUN_CAPACITY && s.observed[0] == t
  }

  ghost function Opening(s: Core, t: ThreadId): Core {
    s.(runs := s.runs[t := NewRun(ObservedRunId(t), None)], observed := s.observed + [t])
  }

  /** With a full queue exactly one entry is evicted. */
  lemma EvictOne(env: Env, s: Core, t: ThreadId)
    requires env.Valid() && Inv(s) && t !in s.runs
    ensures |s.observed| < OBSERVED_RUN_CAPACITY ==> Evict(env, Opening(s, t)) == Out(Opening(s, t), [])
    ensures |s.observed| == OBSERVED_RUN_CAPACITY ==>
              var s1 := Opening(s, t).(observed := s.observed[1..] + [t]);
              var oldest := s.observed[0];
              Evict(env, Opening(s, t))
                == (if oldest in s1.runs && s1.runs[oldest].turn.None? then CloseObserved(env, s1, oldest)
                    else Out(s1, []))
  {
    hide CloseObserved;
    var s0 := Opening(s, t);
    if |s.observed| == OBSERVED_RUN_CAPACITY {
      assert s0.observed[1..] == s.observed[1..] + [t];
      var oldest := s.observed[0];
      assert s0.observed[0] == oldest;
      var s1 := s0.(observed := s.observed[1..] + [t]);
      CloseObservedShrinks(env, s1, oldest);
      var o := if oldest in s1.runs && s1.runs[oldest].turn.None? then CloseObserved(env, s1, oldest) else Out(s1, []);
      assert Evict(env, o.core) == Out(o.core, []);
      assert o.events + [] == o.events;
    }
  }

  lemma EnsureObservedTracks(env: Env, s: Core, t: ThreadId, runRef: Option<RunId>, turnRef: Option<TurnId>, c: Client)
    returns (c': Client)
    requires env.Valid() && RunsRel(s.runs, c) && Inv(s)
    requires !Stale(s, t, runRef, turnRef)
    ensures Tracks(env, c, EnsureObserved(env, s, t, runRef, turnRef), c')
    ensures Observes(s, t, runRef, turnRef) ==> t in c' && c'[t] == NewView(ObservedRunId(t))
    ensures !Observes(s, t, runRef, turnRef) ==> c' == c
  {
    hide Accept, Evict, RunRel;
    if !Observes(s, t, runRef, turnRef) {
      c' := c;
      TrackNothing(env, s, c);
    } else {
      var evicted := Evict(env, Opening(s, t));
      var c1 := EvictionTracks(env, s, t, c);
      AcceptThen(env, c, evicted.events, c1, [RunOpened(t, ObservedRunId(t))]);
      AcceptOne(env, c1, RunOpened(t, ObservedRunId(t)));
      c' := c1[t := NewView(ObservedRunId(t))];
      NewRunRel(ObservedRunId(t), None);
      RunsRelPut(evicted.core.runs - {t}, c1, t, NewRun(ObservedRunId(t), None), NewView(ObservedRunId(t)));
      assert (evicted.core.runs - {t})[t := NewRun(ObservedRunId(t), None)] == evicted.core.runs;
    }
  }

  /** The eviction closes another thread's run before t's run is announced. */
  lemma EvictionTracks(env: Env, s: Core, t: ThreadId, c: Client) returns (c1: Client)
    requires env.Valid() && RunsRel(s.runs, c) && Inv(s)
    requires t !in s.runs && !(|s.observed| == OBSERVED_RUN_CAPACITY && s.observed[0] == t)
    ensures var o := Evict(env, Opening(s, t));
            && Accept(env, c, o.events) == Some(c1)
            && RunsRel(o.core.runs - {t}, c1) && t !in c1
            && Inv(o.core)
            && t in o.core.runs && o.core.runs[t] == NewRun(ObservedRunId(t), None)
  {
    hide Evict, CloseObserved, RunRel;
    EvictOne(env, s, t);
    c1 := c;
    assert Opening(s, t).runs - {t} == s.runs;
    assert Accept(env, c, []) == Some(c);
    if |s.observed| == OBSERVED_RUN_CAPACITY {
      var oldest := s.observed[0];
      if oldest in s.runs && s.runs[oldest].turn.None? {
        assert s.runs[oldest].run == ObservedRunId(oldest);
        CloseRunAccepted(env, oldest, s.runs[oldest], s.clock, c, Finished);
        CloseObservedFrame(env, Opening(s, t).(observed := s.observed[1..] + [t]), oldest);
        c1 := c - {oldest};
        RunsRelDrop(s.runs, c, oldest);
        assert (Opening(s, t).runs - {oldest}) - {t} == s.runs - {oldest};
      }
    }
  }

  /** In the stale case the stream closes a run it has not opened. */
  lemma EnsureObservedStale(env: Env, s: Core, t: ThreadId, runRef: Option<RunId>, turnRef: Option<TurnId>, c: Client)
    requires env.Valid() && RunsRel(s.runs, c) && Inv(s)
    requires Stale(s, t, runRef, turnRef)
    ensures Accept(env, c, EnsureObserved(env, s, t, runRef, turnRef).events) == None
  {
    hide Accept, RunRel;
    var s1 := Opening(s, t).(observed := s.observed[1..] + [t]);
    var closed := RunClosed(t, ObservedRunId(t), Finished);
    var events := EnsureObserved(env, s, t, runRef, turnRef).events;
    assert events == [closed] + [RunOpened(t, ObservedRunId(t))] by {
      EvictOne(env, s, t);
      CloseFresh(env, s1, t);
      hide CloseObserved, Evict;
    }
    AcceptConcat(env, c, [closed], [RunOpened(t, ObservedRunId(t))]);
    AcceptOne(env, c, closed);
  }

  /** Closing a run that has just been opened. */
  lemma CloseFresh(env: Env, s: Core, t: ThreadId)
    requires env.Valid() && t in s.runs && s.runs[t] == NewRun(ObservedRunId(t), None)
    ensures CloseObserved(env, s, t).events == [RunClosed(t, ObservedRunId(t), Finished)]
  {
    assert CloseEvents(env, t, s.runs[t], s.clock) == [];
  }

  // ----- ending a run with its sub-agents -----

  /** Settling the sub-agents of a run only shows cards and touches only card state. */
  lemma {:induction false} TerminalizeRel(env: Env, t: ThreadId, r: RunState, keys: set<ToolId>, fallback: string,
      clock: nat,
                                          views: map<ToolId, ToolView>)
    requires env.Valid() && keys <= r.tools.Keys && ToolsRel(r.tools, views)
    ensures var o := TerminalizeTools(env, t, r, keys, fallback, clock);
            && (forall e :: e in o.events ==> e.Card?)
            && ToolsRel(o.tools, views)
    decreases keys
  {
    if keys == {} {
    } else {
      var k := env.pick(clock, keys);
      var ts := r.tools[k];
      if !ts.card || ts.ended {
        TerminalizeRel(env, t, r, keys - {k}, fallback, clock + 1, views);
      } else {
        var status := KnownTerminal(env, ts).GetOr(fallback);
        var r1 := r.(tools := r.tools[k := ts.(terminalStatus := Some(status), ended := true)]);
        TerminalizeRel(env, t, r1, keys - {k}, fallback, clock + 1, views);
      }
    }
  }

  lemma EndRunTracks(env: Env, s: Core, t: ThreadId, fallback: string, outcome: Outcome, c: Client) returns (c': Client)
    requires env.Valid() && RunsRel(s.runs, c) && Inv(s) && t in s.runs
    ensures Tracks(env, c, EndRun(env, s, t, fallback, outcome), c')
    ensures t !in c'
  {
    hide Accept, TerminalEvents, SettleSubagents, CloseChildren, RunRel, RunsRel, ImplicitIds;
    RunsRelAt(s.runs, c, t);
    var term := SettleSubagents(env, s, t, fallback);
    SettleSubagentsRel(env, s, t, fallback, c);
    c' := CloseChildrenTracks(env, s, t, term.children, c);
    var o := CloseChildren(env, s, t, term.children);
    var r := s.runs[t].(tools := term.tools);
    CloseRunAccepted(env, t, r, o.core.clock, c'[t := c[t]], outcome);
    DropPut(c', t, c[t]);
    AcceptThree(env, c, term.events, c, o.events, c'[t := c[t]], TerminalEvents(env, t, r, o.core.clock, outcome), c');
  }

  lemma AcceptThree(env: Env, c: Client, x: seq<Event>, c1: Client, y: seq<Event>, c2: Client, z: seq<Event>,
      c3: Client)
    requires Accept(env, c, x) == Some(c1) && Accept(env, c1, y) == Some(c2) && Accept(env, c2, z) == Some(c3)
    ensures Accept(env, c, x + y + z) == Some(c3)
  {
    hide Accept;
    AcceptThen(env, c, x, c1, y);
    AcceptThen(env, c, x + y, c2, z);
  }

  /** Closing the children's implicit runs while the client still has t's run open. */
  lemma CloseChildrenTracks(env: Env, s: Core, t: ThreadId, children: seq<ThreadId>, c: Client) returns (c': Client)
    requires env.Valid() && RunsRel(s.runs, c) && Inv(s) && t in s.runs
    ensures t in c && t !in c'
    ensures var o := CloseChildren(env, s, t, children);
            Accept(env, c, o.events) == Some(c'[t := c[t]]) && RunsRel(o.core.runs, c') && Inv(o.core)
  {
    hide Accept, CloseAll, RunsRel, Inv, Elsewhere, Env.Valid;
    RunsRelAt(s.runs, c, t);
    RunsRelDrop(s.runs, c, t);
    var s1 := TakeRun(s, t);
    InvDrop(s, t, s1.clock);
    c' := CloseAllTracks(env, s1, children, c - {t});
    CloseAllElsewhere(env, s1, children, t);
    AcceptFrame(env, c - {t}, t, c[t], CloseAll(env, s1, children).events, c');
    PutBack(c, t);
  }

  lemma SettleSubagentsRel(env: Env, s: Core, t: ThreadId, fallback: string, c: Client)
    requires env.Valid() && t in s.runs && t in c && RunRel(s.runs[t], c[t])
    ensures var o := SettleSubagents(env, s, t, fallback);
            && Accept(env, c, o.events) == Some(c)
            && RunRel(s.runs[t].(tools := o.tools), c[t])
  {
    hide Accept, ToolsRel, TerminalizeTools;
    var r := s.runs[t];
    TerminalizeRel(env, t, r, r.tools.Keys, fallback, s.clock, c[t].tools);
    var o := SettleSubagents(env, s, t, fallback);
    AcceptInert(env, c, o.events);
    assert forall id :: BytesUsed(r.(tools := o.tools), id) == BytesUsed(r, id);
  }

  // ----- the arms -----

  lemma OpenTracks(env: Env, c: Client, o: Out, c1: Client, t: ThreadId, run: RunId, turn: TurnId)
    requires Tracks(env, c, o, c1) && t !in c1
    ensures Tracks(env, c, Out(o.core.(runs := o.core.runs[t := NewRun(run, Some(turn))]),
        o.events + [RunOpened(t, run)]),
                   c1[t := NewView(run)])
  {
    hide Accept, RunRel;
    AcceptThen(env, c, o.events, c1, [RunOpened(t, run)]);
    AcceptOne(env, c1, RunOpened(t, run));
    NewRunRel(run, Some(turn));
    RunsRelPut(o.core.runs, c1, t, NewRun(run, Some(turn)), NewView(run));
  }

  lemma OnRunStartedTracks(env: Env, s: Core, t: ThreadId, run: RunId, turn: TurnId, c: Client) returns (c': Client)
    requires env.Valid() && RunsRel(s.runs, c) && Inv(s)
    ensures Tracks(env, c, OnRunStarted(env, s, t, run, turn), c')
    ensures t in c' && c'[t] == NewView(run)
  {
    hide Accept, EndRun, RunRel;
    var s1 := s.(closed := s.closed - {t});
    if t !in s1.runs {
      TrackNothing(env, s1, c);
      OpenTracks(env, c, Out(s1, []), c, t, run, turn);
      c' := c[t := NewView(run)];
    } else {
      var c1 := EndRunTracks(env, s1, t, "failed", Superseded, c);
      var ended := EndRun(env, s1, t, "failed", Superseded);
      var o := Out(ended.core.(links := DropLinks(ended.core.links, t, s.runs[t].run)), ended.events);
      OpenTracks(env, c, o, c1, t, run, turn);
      c' := c1[t := NewView(run)];
    }
  }

  lemma OnRunEndedTracks(env: Env, s: Core, t: ThreadId, run: RunId, fallback: string, outcome: Outcome, c: Client)
    returns (c': Client)
    requires env.Valid() && RunsRel(s.runs, c) && Inv(s)
    ensures Tracks(env, c, OnRunEnded(env, s, t, run, fallback, outcome), c')
    ensures t in s.runs && s.runs[t].run == run ==> t !in c'
  {
    hide Accept, EndRun, RunRel;
    if t !in s.runs || s.runs[t].run != run {
      c' := c;
      TrackNothing(env, s, c);
    } else {
      c' := EndRunTracks(env, s, t, fallback, outcome, c);
    }
  }

  lemma LiftTracks(env: Env, s: Core, c: Client, t: ThreadId, events: seq<Event>, r: RunState, v: RunView)
    requires RunsRel(s.runs, c) && Inv(s) && t in s.runs
    requires Plays(env, t, c[t], events, v) && RunRel(r, v) && r.turn == s.runs[t].turn && r.run == s.runs[t].run
    ensures Tracks(env, c, Out(s.(runs := s.runs[t := r]), events), c[t := v])
  {
    hide Accept, AcceptRunAll, RunRel;
    AcceptLift(env, c, t, events, v);
    RunsRelPut(s.runs, c, t, r, v);
  }

  lemma OnChunkTracks(env: Env, s: Core, e: Canonical, c: Client) returns (c': Client)
    requires env.Valid() && RunsRel(s.runs, c) && Inv(s) && e.MessageChunk?
    requires (e.content == "" && e.block.None?) || !Stale(s, e.thread, e.runRef, e.turnRef)
    ensures Tracks(env, c, OnChunk(env, s, e), c')
  {
    hide Tracks, RunRel, Plays, ChunkStep, EnsureObserved;
    if e.content == "" && e.block.None? {
      c' := c;
      TrackNothing(env, s, c);
    } else {
      var o := EnsureObserved(env, s, e.thread, e.runRef, e.turnRef);
      var c1 := EnsureObservedTracks(env, s, e.thread, e.runRef, e.turnRef, c);
      TracksInv(env, c, o, c1);
      if !Addresses(o.core, e.thread, e.runRef, e.turnRef) {
        c' := c1;
      } else {
        var r, v := o.core.runs[e.thread], c1[e.thread];
        RunsRelAt(o.core.runs, c1, e.thread);
        ChunkStepAccepted(env, e.thread, r, v, e.role, e.id, e.content, e.block);
        var step := ChunkStep(env, e.thread, r, e.role, e.id, e.content, e.block);
        var v' := ChunkView(r, v, e.role, e.id, e.content, e.block);
        LiftTracks(env, o.core, c1, e.thread, step.events, step.run, v');
        c' := c1[e.thread := v'];
        TrackThen(env, c, o, c1, Out(o.core.(runs := o.core.runs[e.thread := step.run]), step.events), c');
      }
    }
  }

  /** A tool update inside an open run. */
  lemma ToolRunAccepted(env: Env, t: ThreadId, r: RunState, v: RunView, u: ToolUpdate) returns (v': RunView)
    requires env.Valid() && RunRel(r, v)
    ensures var o := ToolStep(env, t, r.run, ToolAt(r, u.tool), u);
            && Plays(env, t, v, o.events, v')
            && RunRel(r.(tools := r.tools[u.tool := o.tool]), v')
  {
    hide Plays, ToolStep;
    var tv := ToolStepAccepted(env, t, ToolAt(r, u.tool), v, u);
    v' := Row(v, u.tool, tv);
    var o := ToolStep(env, t, r.run, ToolAt(r, u.tool), u);
    var r' := r.(tools := r.tools[u.tool := o.tool]);
    ToolsRelPut(r.tools, v.tools, u.tool, o.tool, tv);
    assert forall id :: BytesUsed(r', id) == BytesUsed(r, id) && v'.Delivered(id) == v.Delivered(id);
  }

  lemma ToolsRelPut(tools: map<ToolId, ToolState>, views: map<ToolId, ToolView>, k: ToolId, ts: ToolState, tv: ToolView)
    requires ToolsRel(tools, views) && ToolRel(ts, tv)
    ensures ToolsRel(tools[k := ts], views[k := tv])
  {
    hide ToolRel;
  }

  lemma SettleChildTracks(env: Env, s: Core, t: ThreadId, run: RunId, tool: ToolId, out: ToolOut, c: Client)
      returns (c': Client)
    requires env.Valid() && RunsRel(s.runs, c) && Inv(s)
    ensures Tracks(env, c, SettleChild(env, s, t, run, tool, out), c')
  {
    hide CloseObserved, RunRel, Accept;
    match out.finished
    case Some(child) =>
      var s1 := s.(links := s.links - {child});
      CloseObservedTracks(env, s1, child, c);
      c' := if HasObservedRun(s1, child) then c - {child} else c;
    case None =>
      c' := c;
      TrackNothing(env, SettleChild(env, s, t, run, tool, out).core, c);
  }

  lemma OnToolTracks(env: Env, s: Core, e: Canonical, c: Client) returns (c': Client)
    requires env.Valid() && RunsRel(s.runs, c) && Inv(s) && e.Tool?
    requires !Stale(s, e.thread, e.runRef, e.turnRef)
    ensures Tracks(env, c, OnTool(env, s, e), c')
  {
    hide Tracks, RunRel, Plays, ToolStep, EnsureObserved, SettleChild;
    var t, u := e.thread, e.update;
    var o := EnsureObserved(env, s, t, e.runRef, e.turnRef);
    var c1 := EnsureObservedTracks(env, s, t, e.runRef, e.turnRef, c);
    TracksInv(env, c, o, c1);
    if !Addresses(o.core, t, e.runRef, e.turnRef) {
      c' := c1;
    } else {
      var r := o.core.runs[t];
      RunsRelAt(o.core.runs, c1, t);
      var v' := ToolRunAccepted(env, t, r, c1[t], u);
      var step := ToolStep(env, t, r.run, ToolAt(r, u.tool), u);
      var r' := r.(tools := r.tools[u.tool := step.tool]);
      var s1 := o.core.(runs := o.core.runs[t := r']);
      LiftTracks(env, o.core, c1, t, step.events, r', v');
      var c2 := c1[t := v'];
      TrackThen(env, c, o, c1, Out(s1, step.events), c2);
      TracksInv(env, c1, Out(s1, step.events), c2);
      c' := SettleChildTracks(env, s1, t, r.run, u.tool, step, c2);
      TrackThen(env, c, Out(s1, o.events + step.events), c2, SettleChild(env, s1, t, r.run, u.tool, step), c');
    }
  }

  // ----- progress -----

  lemma TerminalStatusRel(r: RunState, v: RunView, tool: ToolId, status: string)
    requires RunRel(r, v) && tool in r.tools
    ensures RunRel(r.(tools := r.tools[tool := r.tools[tool].(terminalStatus := Some(status))]), v)
  {
    var r' := r.(tools := r.tools[tool := r.tools[tool].(terminalStatus := Some(status))]);
    assert forall id :: BytesUsed(r', id) == BytesUsed(r, id);
    assert ToolRel(r.tools[tool], v.tools[tool]);
    ToolsRelPut(r.tools, v.tools, tool, r'.tools[tool], v.tools[tool]);
    assert v.tools[tool := v.tools[tool]] == v.tools;
  }

  lemma SettleParentRel(s: Core, link: Link, status: string, c: Client)
    requires RunsRel(s.runs, c) && Inv(s)
    ensures RunsRel(SettleParent(s, link, status).runs, c) && Inv(SettleParent(s, link, status))
  {
    hide RunRel;
    var p := link.parentThread;
    if p in s.runs && s.runs[p].run == link.parentRun && link.tool in s.runs[p].tools {
      TerminalStatusRel(s.runs[p], c[p], link.tool, status);
      RunsRelPut(s.runs, c, p, SettleParent(s, link, status).runs[p], c[p]);
      assert c[p := c[p]] == c;
    }
  }

  lemma ProjectProgressTracks(env: Env, s: Core, e: Canonical, c: Client) returns (c': Client)
    requires env.Valid() && RunsRel(s.runs, c) && Inv(s)
    ensures Tracks(env, c, ProjectProgress(env, s, e), c')
  {
    hide Accept, RunsRel, CloseObserved, Render, ProgressOf, Fences, SettleParent, ImplicitIds;
    var out := ProjectProgress(env, s, e);
    if out.core.runs == s.runs && out.core.observed == s.observed && (forall x :: x in out.events ==> x.Card?) {
      c' := c;
      AcceptInert(env, c, out.events);
    } else {
      c' := TerminalProgressTracks(env, s, e, c);
    }
  }

  lemma TerminalProgressTracks(env: Env, s: Core, e: Canonical, c: Client) returns (c': Client)
    requires env.Valid() && RunsRel(s.runs, c) && Inv(s)
    requires var out := ProjectProgress(env, s, e);
             out.core.runs != s.runs || out.core.observed != s.observed || exists x :: x in out.events && !x.Card?
    ensures Tracks(env, c, ProjectProgress(env, s, e), c')
  {
    hide Accept, RunsRel, CloseObserved, Render, ProgressOf, Fences, SettleParent, ImplicitIds;
    var t := e.Thread().value;
    var link := s.links[t];
    var p := ProgressOf(env, e).value;
    var latest := Render(if e.RunStarted? then link.(childRun := Some(e.run), generation := Some(e.generation))
        else link, p).1;
    var card := Card(link.parentThread, link.parentRun, link.tool, Some(link.child), p.status, latest);
    SettleParentRel(s, link, p.status, c);
    var s1 := SettleParent(s, link, p.status).(links := s.links - {t});
    CloseObservedTracks(env, s1, t, c);
    c' := if HasObservedRun(s1, t) then c - {t} else c;
    AcceptInert(env, c, [card]);
    AcceptThen(env, c, [card], c, CloseObserved(env, s1, t).events);
  }

  // ----- one event -----

  /** The event would open an implicit run over a stale queue entry of its own thread. */
  predicate HitsStaleEntry(s: Core, i: Input) {
    i.Observe? &&
    match i.event
    case MessageChunk(t, runRef, turnRef, _, _, _, content, block) =>
      (content != "" || block.Some?) && Stale(s, t, runRef, turnRef)
    case Tool(t, runRef, turnRef, _, _) => Stale(s, t, runRef, turnRef)
    case _ => false
  }

  /** Before a chunk or tool event is dispatched, progress touches nothing but the links. */
  lemma ProgressKeepsRuns(env: Env, s: Core, e: Canonical)
    requires env.Valid() && (e.MessageChunk? || e.Tool?)
    ensures ProjectProgress(env, s, e).core == s.(links := ProjectProgress(env, s, e).core.links)
  {
    hide Render, CloseObserved, SettleParent, Fences;
  }

  lemma DispatchTracks(env: Env, s: Core, e: Canonical, c: Client) returns (c': Client)
    requires env.Valid() && RunsRel(s.runs, c) && Inv(s) && !HitsStaleEntry(s, Observe(e))
    ensures Tracks(env, c, Dispatch(env, s, e), c')
  {
    hide Tracks, RunsRel, Inv, OnRunStarted, OnRunEnded, OnChunk, OnTool;
    match e
    case RunStarted(t, run, turn, _) => c' := OnRunStartedTracks(env, s, t, run, turn, c);
    case RunFinished(t, run, _, _, cancelled) =>
      c' := OnRunEndedTracks(env, s, t, run, if cancelled then "cancelled" else "completed", Finished, c);
    case RunFailed(t, run, _, _, _) => c' := OnRunEndedTracks(env, s, t, run, "failed", Errored, c);
    case MessageChunk(_, _, _, _, _, _, _, _) => c' := OnChunkTracks(env, s, e, c);
    case Tool(_, _, _, _, _) => c' := OnToolTracks(env, s, e, c);
    case Plan(t) => c' := c; NotifyTracks(env, s, t, c);
    case SessionUpdate(t) => c' := c; NotifyTracks(env, s, t, c);
    case _ => c' := c; TrackNothing(env, s, c);
  }

  lemma NotifyTracks(env: Env, s: Core, t: ThreadId, c: Client)
    requires RunsRel(s.runs, c) && Inv(s)
    ensures Tracks(env, c, Out(s, NotifySession(s, t)), c)
  {
    hide RunRel, Accept;
    AcceptInert(env, c, NotifySession(s, t));
  }

  /** One call keeps the client in step unless it hits a stale queue entry. */
  lemma StepTracks(env: Env, s: Core, i: Input, c: Client) returns (c': Client)
    requires env.Valid() && RunsRel(s.runs, c) && Inv(s) && !HitsStaleEntry(s, i)
    ensures Tracks(env, c, Step(env, s, i), c')
  {
    hide Tracks, RunRel;
    match i
    case LinkChild(t, run, tool, child) =>
      c' := c;
      TrackNothing(env, LinkSubagent(env, s, t, run, tool, child), c);
    case Observe(e) =>
      hide ProjectProgress, Dispatch;
      var p := ProjectProgress(env, s, e);
      var c1 := ProjectProgressTracks(env, s, e, c);
      TracksInv(env, c, p, c1);
      if e.MessageChunk? || e.Tool? {
        ProgressKeepsRuns(env, s, e);
      }
      c' := DispatchTracks(env, p.core, e, c1);
      TrackThen(env, c, p, c1, Dispatch(env, p.core, e), c');
  }

  /** A call that hits a stale queue entry makes the stream unacceptable. */
  lemma StepRejected(env: Env, s: Core, i: Input, c: Client)
    requires env.Valid() && RunsRel(s.runs, c) && Inv(s) && HitsStaleEntry(s, i)
    ensures Accept(env, c, Step(env, s, i).events) == None
  {
    hide Accept, ProjectProgress, EnsureObserved, RunRel;
    var e := i.event;
    var p := ProjectProgress(env, s, e);
    var c1 := ProjectProgressTracks(env, s, e, c);
    ProgressKeepsRuns(env, s, e);
    var o := EnsureObserved(env, p.core, e.thread, e.runRef, e.turnRef);
    EnsureObservedStale(env, p.core, e.thread, e.runRef, e.turnRef, c1);
    var d := Dispatch(env, p.core, e);
    var rest := DispatchStartsWithObserved(env, p.core, e);
    AcceptConcat(env, c1, o.events, rest);
    AcceptConcat(env, c, p.events, d.events);
  }

  lemma DispatchStartsWithObserved(env: Env, s: Core, e: Canonical) returns (rest: seq<Event>)
    requires env.Valid() && (e.MessageChunk? || e.Tool?)
    requires e.MessageChunk? ==> e.content != "" || e.block.Some?
    ensures Dispatch(env, s, e).events == EnsureObserved(env, s, e.thread, e.runRef, e.turnRef).events + rest
  {
    hide EnsureObserved, ChunkStep, ToolStep, SettleChild;
    var o := EnsureObserved(env, s, e.thread, e.runRef, e.turnRef);
    var d := Dispatch(env, s, e);
    assert o.events <= d.events;
    rest := d.events[|o.events|..];
  }

  // ----- every sequence of calls -----

  /** The state the i-th call meets. */
  ghost function StateBefore(env: Env, inputs: seq<Input>, i: nat): Core
    requires env.Valid() && i <= |inputs|
  {
    Run(env, inputs[..i]).core
  }

  ghost predicate NeverStale(env: Env, inputs: seq<Input>)
    requires env.Valid()
  {
    forall i :: 0 <= i < |inputs| ==> !HitsStaleEntry(StateBefore(env, inputs, i), inputs[i])
  }

  lemma NeverStaleSplit(env: Env, inputs: seq<Input>)
    requires env.Valid() && inputs != []
    ensures var front := inputs[..|inputs| - 1];
            NeverStale(env, inputs) <==>
            (NeverStale(env, front) && !HitsStaleEntry(Run(env, front).core, inputs[|inputs| - 1]))
  {
    hide Run, HitsStaleEntry;
    var n := |inputs| - 1;
    var front := inputs[..n];
    forall i | 0 <= i <= n
      ensures StateBefore(env, inputs, i) == Run(env, front[..i]).core
    {
      assert inputs[..i] == front[..i];
    }
    assert front[..n] == front;
    forall i | 0 <= i < n
      ensures HitsStaleEntry(StateBefore(env, inputs, i), inputs[i]) ==
          HitsStaleEntry(StateBefore(env, front, i), front[i])
    {
    }
  }

  /** The stream of a whole run is accepted up to its first stale call, and not beyond it. */
  lemma {:induction false} RunTracks(env: Env, inputs: seq<Input>) returns (c: Client)
    requires env.Valid()
    ensures NeverStale(env, inputs) ==> Tracks(env, map[], Run(env, inputs), c)
    ensures !NeverStale(env, inputs) ==> Accept(env, map[], Run(env, inputs).events) == None
    decreases |inputs|
  {
    hide Tracks, Step, HitsStaleEntry, NeverStale;
    if inputs == [] {
      c := map[];
      TrackNothing(env, EMPTY_CORE, c);
      assert NeverStale(env, inputs) by { EmptyNeverStale(env, inputs); }
    } else {
      NeverStaleSplit(env, inputs);
      var front, last := inputs[..|inputs| - 1], inputs[|inputs| - 1];
      var before := Run(env, front);
      var step := Step(env, before.core, last);
      var c1 := RunTracks(env, front);
      AcceptConcat(env, map[], before.events, step.events);
      if NeverStale(env, front) {
        TracksInv(env, map[], before, c1);
        TracksAccept(env, map[], before, c1);
        if HitsStaleEntry(before.core, last) {
          StepRejected(env, before.core, last, c1);
          c := c1;
        } else {
          c := StepTracks(env, before.core, last, c1);
          TrackThen(env, map[], before, c1, step, c);
        }
      } else {
        c := c1;
      }
    }
  }

  lemma EmptyNeverStale(env: Env, inputs: seq<Input>)
    requires env.Valid() && inputs == []
    ensures NeverStale(env, inputs)
  {
  }

  lemma TracksAccept(env: Env, c: Client, out: Out, c': Client)
    requires Tracks(env, c, out, c')
    ensures Accept(env, c, out.events) == Some(c')
  {
  }

  /** MAIN THEOREM.  For every sequence of calls, the reference client accepts the projected stream if
      and only if no call opened an implicit run over a stale queue entry of its own thread. */
  lemma StreamAcceptedIff(env: Env, inputs: seq<Input>)
    requires env.Valid()
    ensures Accept(env, map[], Run(env, inputs).events).Some? <==> NeverStale(env, inputs)
  {
    hide Run, Accept, NeverStale, RunsRel;
    var c := RunTracks(env, inputs);
  }

  /** ... and then the client holds exactly what the projector's run states record. */
  lemma ClientInStep(env: Env, inputs: seq<Input>)
    requires env.Valid() && NeverStale(env, inputs)
    ensures var out := Run(env, inputs);
            Accept(env, map[], out.events).Some? && RunsRel(out.core.runs, Accept(env, map[], out.events).value)
  {
    hide Run, Accept, NeverStale, RunsRel;
    var c := RunTracks(env, inputs);
  }
}
