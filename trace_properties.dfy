/**
 * What `collect_timings` guarantees about its result: each process's
 * context depends on that process's events alone, a service's final count
 * and total come from the Leave `tpservice` events that closed it, the
 * contexts still open at the end keep their downstream calls, and the
 * individual transitions of the state machine.
 */
module TraceProperties {
  import opened Basics
  import opened Timings
  import opened Quoted
  import opened Invocation
  import opened Trace

  // ---- single transitions ----

  /** Enter `tpservice` installs a fresh context for the process, replacing any it had. */
  lemma EnterServiceInstallsContext(st: State, e: Event)
    requires e.marker == Enter && e.func == "tpservice"
    ensures ServiceName(e.params).None? ==> Step(st, e) == Crash(NoServiceName(e.process))
    ensures ServiceName(e.params).Some? ==>
      && Step(st, e).Ok?
      && Step(st, e).value.timings == st.timings
      && e.process in Step(st, e).value.processes
      && var c := Step(st, e).value.processes[e.process];
      && c.name == "svc:" + ServiceName(e.params).value
      && c.startTime == e.msec
      && c.calls == map[] && c.acalls == map[] && c.pending == Idle
  {
  }

  /**
   * Enter `tpcall`/`tpacall` for a process without a context synthesizes one
   * named `'proc:'` and the process name, starting now, and opens the call.
   */
  lemma CallWithoutContextSynthesizes(st: State, e: Event)
    requires e.marker == Enter && (e.func == "tpcall" || e.func == "tpacall")
    requires e.process !in st.processes
    ensures ServiceName(e.params).None? ==> Step(st, e) == Crash(NoServiceName(e.process))
    ensures ServiceName(e.params).Some? ==>
      && Step(st, e).Ok?
      && e.process in Step(st, e).value.processes
      && var c := Step(st, e).value.processes[e.process];
      && c.name == "proc:" + ProcessName(e.process)
      && c.startTime == e.msec
      && c.calls == map[] && c.acalls == map[]
      && c.pending == Open("svc:" + ServiceName(e.params).value, e.msec)
  {
  }

  /** Enter `tpcall`/`tpacall` on an existing context only overwrites its pending slot. */
  lemma CallWithContextOpensCall(st: State, e: Event)
    requires e.marker == Enter && (e.func == "tpcall" || e.func == "tpacall")
    requires e.process in st.processes
    ensures ServiceName(e.params).None? ==> Step(st, e) == Crash(NoServiceName(e.process))
    ensures ServiceName(e.params).Some? ==>
      && Step(st, e).Ok? && e.process in Step(st, e).value.processes
      && Step(st, e).value.processes[e.process]
         == st.processes[e.process].(pending := Open("svc:" + ServiceName(e.params).value, e.msec))
  {
  }

  /**
   * Leave `tpservice` closes the process's context and records one more
   * invocation of its service, taking the time since the context started,
   * with the context's calls merged in; no other service changes.
   */
  lemma LeaveServiceRecords(st: State, e: Event)
    requires e.marker == Leave && e.func == "tpservice" && e.process in st.processes
    ensures Step(st, e).Ok?
    ensures e.process !in Step(st, e).value.processes
    ensures
      var c := st.processes[e.process];
      var t := Step(st, e).value.timings;
      && t.Keys == st.timings.Keys + {c.name}
      && ServiceCount(t, c.name) == ServiceCount(st.timings, c.name) + 1
      && ServiceTotal(t, c.name) == ServiceTotal(st.timings, c.name) + (e.msec - c.startTime)
      && t[c.name].calls == MergeCalls(if c.name in st.timings then st.timings[c.name].calls else map[], c.calls)
      && t[c.name].acalls == MergeCalls(if c.name in st.timings then st.timings[c.name].acalls else map[], c.acalls)
      && forall s :: s in st.timings && s != c.name ==> t[s] == st.timings[s]
  {
  }

  /**
   * Leave `tpcall` adds one call, timed from the pending start, to `calls`;
   * the other callees, `acalls`, the slot, the name and the start time stay.
   */
  lemma LeaveCallRecords(st: State, e: Event)
    requires e.marker == Leave && e.func == "tpcall" && e.process in st.processes
    ensures st.processes[e.process].pending.Idle? ==> Step(st, e) == Crash(NoPendingCall(e.process))
    ensures st.processes[e.process].pending.Open? ==>
      var c := st.processes[e.process];
      && Step(st, e).Ok?
      && e.process in Step(st, e).value.processes
      && var c' := Step(st, e).value.processes[e.process];
      && CountOf(c'.calls, c.pending.callee) == CountOf(c.calls, c.pending.callee) + 1
      && TotalOf(c'.calls, c.pending.callee) == TotalOf(c.calls, c.pending.callee) + (e.msec - c.pending.start)
      && (forall k :: k in c.calls && k != c.pending.callee ==> c'.calls[k] == c.calls[k])
      && c'.calls.Keys == c.calls.Keys + {c.pending.callee}
      && c'.(calls := c.calls) == c
  {
  }

  /**
   * Leave `tpacall` adds one call, timed from the pending start, to `acalls`;
   * the other callees, `calls`, the slot, the name and the start time stay.
   */
  lemma LeaveAcallRecords(st: State, e: Event)
    requires e.marker == Leave && e.func == "tpacall" && e.process in st.processes
    ensures st.processes[e.process].pending.Idle? ==> Step(st, e) == Crash(NoPendingCall(e.process))
    ensures st.processes[e.process].pending.Open? ==>
      var c := st.processes[e.process];
      && Step(st, e).Ok?
      && e.process in Step(st, e).value.processes
      && var c' := Step(st, e).value.processes[e.process];
      && CountOf(c'.acalls, c.pending.callee) == CountOf(c.acalls, c.pending.callee) + 1
      && TotalOf(c'.acalls, c.pending.callee) == TotalOf(c.acalls, c.pending.callee) + (e.msec - c.pending.start)
      && (forall k :: k in c.acalls && k != c.pending.callee ==> c'.acalls[k] == c.acalls[k])
      && c'.acalls.Keys == c.acalls.Keys + {c.pending.callee}
      && c'.(acalls := c.acalls) == c
  {
  }

  // ---- isolation between processes ----

  /** The events of one process, in stream order. */
  function OwnEvents(events: seq<Event>, p: string): (r: seq<Event>)
    ensures forall k :: 0 <= k < |r| ==> r[k].process == p
    ensures |r| <= |events|
  {
    if events == [] then []
    else
      var last := events[|events| - 1];
      OwnEvents(events[..|events| - 1], p) + (if last.process == p then [last] else [])
  }

  /** Two states agree on the context of process p. */
  predicate SameContext(a: State, b: State, p: string)
  {
    && (p in a.processes <==> p in b.processes)
    && (p in a.processes ==> a.processes[p] == b.processes[p])
  }

  /** A step's effect on its own process depends only on that process's context. */
  lemma StepLocal(st1: State, st2: State, e: Event)
    requires SameContext(st1, st2, e.process)
    requires Step(st1, e).Ok?
    ensures Step(st2, e).Ok?
    ensures SameContext(Step(st1, e).value, Step(st2, e).value, e.process)
  {
  }

  /**
   * Interleaving does not matter: whenever the whole stream is processed
   * without an exception, the context of process p is exactly the one
   * that p's own events alone produce.
   */
  lemma {:induction false} ContextDependsOnlyOnOwnEvents(events: seq<Event>, p: string)
    requires Run(events).Ok?
    ensures Run(OwnEvents(events, p)).Ok?
    ensures SameContext(Run(events).value, Run(OwnEvents(events, p)).value, p)
  {
    if events != [] {
      var prefix, e := events[..|events| - 1], events[|events| - 1];
      assert Run(prefix).Ok?;
      ContextDependsOnlyOnOwnEvents(prefix, p);
      var own := OwnEvents(prefix, p);
      if e.process == p {
        assert (own + [e])[..|own + [e]| - 1] == own;
        StepLocal(Run(prefix).value, Run(own).value, e);
      } else {
        assert OwnEvents(events, p) == own;
      }
    }
  }

  // ---- counts and totals ----

  /** The last event of `events` closes an invocation of service s. */
  ghost predicate ClosesService(prefix: seq<Event>, e: Event, s: string)
  {
    && e.marker == Leave && e.func == "tpservice"
    && Run(prefix).Ok?
    && e.process in Run(prefix).value.processes
    && Run(prefix).value.processes[e.process].name == s
  }

  /** How many Leave `tpservice` events closed an invocation of s. */
  ghost function ClosedCount(events: seq<Event>, s: string): nat
  {
    if events == [] then 0
    else
      var prefix := events[..|events| - 1];
      ClosedCount(prefix, s) + (if ClosesService(prefix, events[|events| - 1], s) then 1 else 0)
  }

  /** The summed durations of those invocations. */
  ghost function ClosedTotal(events: seq<Event>, s: string): int
  {
    if events == [] then 0
    else
      var prefix, e := events[..|events| - 1], events[|events| - 1];
      ClosedTotal(prefix, s)
        + (if ClosesService(prefix, e, s) then e.msec - Run(prefix).value.processes[e.process].startTime else 0)
  }

  /** While the events are being consumed, the store holds exactly the closed invocations. */
  lemma {:induction false} RunCounts(events: seq<Event>, s: string)
    requires Run(events).Ok?
    ensures ServiceCount(Run(events).value.timings, s) == ClosedCount(events, s)
    ensures ServiceTotal(Run(events).value.timings, s) == ClosedTotal(events, s)
  {
    if events != [] {
      var prefix, e := events[..|events| - 1], events[|events| - 1];
      RunCounts(prefix, s);
      var st := Run(prefix).value;
      if e.marker == Leave && e.func == "tpservice" {
        var c := st.processes[e.process];
        RecordScalars(st.timings, c.name, 1, e.msec - c.startTime, c.calls, c.acalls, s);
      }
    }
  }

  /** Folding in the open contexts adds count 0 and total 0 to every service. */
  lemma {:induction false} FlushKeepsScalars(t: Store, open: map<string, ServiceContext>, s: string)
    ensures ServiceCount(Flush(t, open), s) == ServiceCount(t, s)
    ensures ServiceTotal(Flush(t, open), s) == ServiceTotal(t, s)
    decreases |open|
  {
    if open != map[] {
      FlushUnfold(t, open);
      var q :| q in open && Flush(t, open) == Flush(Absorb(t, open[q]), open - {q});
      RemoveOne(open, q);
      FlushKeepsScalars(Absorb(t, open[q]), open - {q}, s);
      RecordScalars(t, open[q].name, 0, 0, open[q].calls, open[q].acalls, s);
    }
  }

  /**
   * A service's final count is the number of Leave `tpservice` events that
   * closed one of its invocations, and its total is their summed durations.
   */
  lemma CollectCounts(events: seq<Event>, s: string)
    requires CollectTimings(events).Ok?
    ensures ServiceCount(CollectTimings(events).value, s) == ClosedCount(events, s)
    ensures ServiceTotal(CollectTimings(events).value, s) == ClosedTotal(events, s)
  {
    var st := Run(events).value;
    RunCounts(events, s);
    FlushKeepsScalars(st.timings, st.processes, s);
  }

  // ---- in-flight calls survive the end of the stream ----

  /** `big` has every service of `small`, with at least its downstream call names. */
  ghost predicate Covers(big: Store, small: Store)
  {
    forall s :: s in small ==>
      && s in big
      && small[s].calls.Keys <= big[s].calls.Keys
      && small[s].acalls.Keys <= big[s].acalls.Keys
  }

  lemma CoversTransitive(a: Store, b: Store, c: Store)
    requires Covers(a, b) && Covers(b, c)
    ensures Covers(a, c)
  {
  }

  /** Recording only adds: no service and no call name is lost. */
  lemma AbsorbCovers(t: Store, c: ServiceContext)
    ensures Covers(Absorb(t, c), t)
  {
    var r := Absorb(t, c);
    forall s | s in t
      ensures s in r && t[s].calls.Keys <= r[s].calls.Keys && t[s].acalls.Keys <= r[s].acalls.Keys
    {
    }
  }

  /** The flush only adds: no service and no call name is lost. */
  lemma {:induction false} FlushCovers(t: Store, open: map<string, ServiceContext>)
    ensures Covers(Flush(t, open), t)
    decreases |open|
  {
    if open != map[] {
      FlushUnfold(t, open);
      var q :| q in open && Flush(t, open) == Flush(Absorb(t, open[q]), open - {q});
      var next := Absorb(t, open[q]);
      RemoveOne(open, q);
      FlushCovers(next, open - {q});
      AbsorbCovers(t, open[q]);
      CoversTransitive(Flush(next, open - {q}), next, t);
    }
  }

  /** The services of the open contexts. */
  ghost function OpenNames(open: map<string, ServiceContext>): set<string>
  {
    set p | p in open :: open[p].name
  }

  /** After the flush the store holds exactly the recorded services and those of the open contexts. */
  lemma {:induction false} FlushKeys(t: Store, open: map<string, ServiceContext>)
    ensures Flush(t, open).Keys == t.Keys + OpenNames(open)
    decreases |open|
  {
    if open == map[] {
      assert OpenNames(open) == {};
    } else {
      FlushUnfold(t, open);
      var q :| q in open && Flush(t, open) == Flush(Absorb(t, open[q]), open - {q});
      var next, rest := Absorb(t, open[q]), open - {q};
      RemoveOne(open, q);
      FlushKeys(next, rest);
      FlushKeysStep(t, open, q, Flush(next, rest));
    }
  }

  /** One step of `FlushKeys`: the keys after folding in context q and then the rest. */
  lemma FlushKeysStep(t: Store, open: map<string, ServiceContext>, q: string, r: Store)
    requires q in open
    requires r.Keys == Absorb(t, open[q]).Keys + OpenNames(open - {q})
    ensures r.Keys == t.Keys + OpenNames(open)
  {
    OpenNamesRemove(open, q);
  }

  lemma OpenNamesRemove(open: map<string, ServiceContext>, q: string)
    requires q in open
    ensures OpenNames(open) == {open[q].name} + OpenNames(open - {q})
  {
    var rest := open - {q};
    forall n | n in OpenNames(open)
      ensures n in {open[q].name} + OpenNames(rest)
    {
      var p :| p in open && open[p].name == n;
      if p != q {
        assert p in rest && rest[p] == open[p];
      }
    }
  }

  /**
   * Every context still open when the events run out reaches the result:
   * its service is present and keeps the names of all its finished calls.
   */
  lemma FlushKeepsOpenCalls(t: Store, open: map<string, ServiceContext>, p: string)
    requires p in open
    ensures open[p].name in Flush(t, open)
    ensures open[p].calls.Keys <= Flush(t, open)[open[p].name].calls.Keys
    ensures open[p].acalls.Keys <= Flush(t, open)[open[p].name].acalls.Keys
  {
    FlushPick(t, open, p);
    FlushCovers(Absorb(t, open[p]), open - {p});
  }

  /** Which of a service's two downstream maps: `calls` (tpcall) or `acalls` (tpacall). */
  datatype CallKind = Sync | Async

  /** The downstream map of one kind that a context has built. */
  function ContextCalls(c: ServiceContext, kind: CallKind): CallMap
  {
    if kind == Sync then c.calls else c.acalls
  }

  /** The downstream map of one kind stored for service n (empty when n is absent). */
  function StoredCalls(t: Store, n: string, kind: CallKind): CallMap
  {
    if n !in t then map[] else if kind == Sync then t[n].calls else t[n].acalls
  }

  /** What context c contributes to service n's downstream map of one kind. */
  function Contribution(c: ServiceContext, n: string, kind: CallKind): CallMap
  {
    if c.name == n then ContextCalls(c, kind) else map[]
  }

  /** The key-wise sum of the downstream maps of one kind of the open contexts of service n. */
  ghost function OpenCalls(open: map<string, ServiceContext>, n: string, kind: CallKind): CallMap
    decreases |open|
  {
    if open == map[] then map[]
    else
      var p :| p in open;
      RemoveOne(open, p);
      MergeCalls(Contribution(open[p], n, kind), OpenCalls(open - {p}, n, kind))
  }

  /** The sum does not depend on which open context is taken first. */
  lemma {:induction false} OpenCallsPick(open: map<string, ServiceContext>, n: string, kind: CallKind, p: string)
    requires p in open
    ensures OpenCalls(open, n, kind) == MergeCalls(Contribution(open[p], n, kind), OpenCalls(open - {p}, n, kind))
    decreases |open|
  {
    var q :| q in open && OpenCalls(open, n, kind)
      == MergeCalls(Contribution(open[q], n, kind), OpenCalls(open - {q}, n, kind));
    if q != p {
      RemoveOne(open, q);
      RemoveOne(open, p);
      var withoutQ, withoutP := open - {q}, open - {p};
      var rest := withoutQ - {p};
      RemoveBoth(open, p, q);
      assert p in withoutQ && withoutQ[p] == open[p];
      assert q in withoutP && withoutP[q] == open[q];
      var cp, cq := Contribution(open[p], n, kind), Contribution(open[q], n, kind);
      OpenCallsPick(withoutQ, n, kind, p);
      OpenCallsPick(withoutP, n, kind, q);
      var r := OpenCalls(rest, n, kind);
      MergeCallsAssociates(cq, cp, r);
      MergeCallsAssociates(cp, cq, r);
      MergeCallsCommutes(cp, cq);
    }
  }

  /** Folding in one context merges its contribution into service n's downstream map. */
  lemma AbsorbCalls(t: Store, c: ServiceContext, n: string, kind: CallKind)
    ensures StoredCalls(Absorb(t, c), n, kind) == MergeCalls(StoredCalls(t, n, kind), Contribution(c, n, kind))
  {
    MergeCallsIdentity(StoredCalls(t, n, kind));
  }

  /**
   * The flush adds to each service's downstream maps exactly the calls of
   * the open contexts of that service: key by key, the final count and
   * total are those stored plus the sum over those contexts.
   */
  lemma {:induction false} FlushCalls(t: Store, open: map<string, ServiceContext>, n: string, kind: CallKind)
    ensures StoredCalls(Flush(t, open), n, kind) == MergeCalls(StoredCalls(t, n, kind), OpenCalls(open, n, kind))
    decreases |open|
  {
    if open == map[] {
      MergeCallsIdentity(StoredCalls(t, n, kind));
    } else {
      FlushUnfold(t, open);
      var q :| q in open && Flush(t, open) == Flush(Absorb(t, open[q]), open - {q});
      RemoveOne(open, q);
      var c := Contribution(open[q], n, kind);
      var rest := OpenCalls(open - {q}, n, kind);
      FlushCalls(Absorb(t, open[q]), open - {q}, n, kind);
      AbsorbCalls(t, open[q], n, kind);
      OpenCallsPick(open, n, kind, q);
      MergeCallsAssociates(StoredCalls(t, n, kind), c, rest);
    }
  }

  /**
   * Each open context's downstream calls are counted in its service's final
   * entry: for every callee, at least as many calls as the context made.
   */
  lemma FlushCountsOpenCalls(t: Store, open: map<string, ServiceContext>, p: string, kind: CallKind, k: string)
    requires p in open
    ensures CountOf(StoredCalls(Flush(t, open), open[p].name, kind), k) >= CountOf(ContextCalls(open[p], kind), k)
  {
    var n := open[p].name;
    FlushCalls(t, open, n, kind);
    OpenCallsPick(open, n, kind, p);
  }

  // ---- worked examples ----

  /** One more event: the run of a prefix, extended by one step. */
  lemma RunExtends(events: seq<Event>, k: nat)
    requires k < |events|
    ensures Run(events[..k + 1]) == match Run(events[..k])
      case Crash(f) => Crash(f)
      case Ok(st) => Step(st, events[k])
  {
    assert events[..k + 1][..k] == events[..k];
  }

  lemma QuotedNameOfLiteral(s: string, name: string)
    requires s == "\"" + name + "\"" && |name| >= 1
    requires forall k :: 0 <= k < |name| ==> name[k] != '"' && name[k] != '\n'
    ensures ServiceName(s) == Some(name)
  {
    assert forall k :: 0 < k < |s| - 1 ==> s[k] == name[k - 1];
    NameBetweenFirstAndLastQuote(s, 0, |s| - 1);
    assert s[1..|s| - 1] == name;
  }

  /**
   * Process `p.1` serves SVC1 from 100000 to 100200 and calls SVC2 from
   * 100050 to 100150: one invocation of `svc:SVC1` taking 200 ms, with one
   * call to `svc:SVC2` taking 100 ms.
   */
  lemma SingleCallScenario()
    ensures CollectTimings(ScenarioEvents())
      == Ok(map["svc:SVC1" := ServiceTiming(1, 200, map["svc:SVC2" := Timing(1, 100)], map[])])
  {
    ScenarioRun();
  }

  lemma ScenarioRun()
    ensures Run(ScenarioEvents())
      == Ok(State(map[], map["svc:SVC1" := ServiceTiming(1, 200, map["svc:SVC2" := Timing(1, 100)], map[])]))
  {
    var es := ScenarioEvents();
    assert es[..4] == es;
    ScenarioPrefix4();
  }

  lemma ScenarioPrefix4()
    ensures Run(ScenarioEvents()[..4])
      == Ok(State(map[], map["svc:SVC1" := ServiceTiming(1, 200, map["svc:SVC2" := Timing(1, 100)], map[])]))
  {
    ScenarioPrefix3();
    RunExtends(ScenarioEvents(), 3);
    ScenarioStep3(ScenarioContext2());
  }

  /** The context of `p.1` after each of the first three events. */
  function ScenarioContext0(): ServiceContext { NewContext(100000, "svc:SVC1") }
  function ScenarioContext1(): ServiceContext { ScenarioContext0().(pending := Open("svc:SVC2", 100050)) }
  function ScenarioContext2(): ServiceContext { ScenarioContext1().(calls := map["svc:SVC2" := Timing(1, 100)]) }

  lemma ScenarioPrefix1()
    ensures Run(ScenarioEvents()[..1]) == Ok(State(map["p.1" := ScenarioContext0()], map[]))
  {
    var es := ScenarioEvents();
    assert es[..0] == [];
    RunExtends(es, 0);
    ScenarioStep0(ScenarioContext0());
  }

  lemma ScenarioPrefix2()
    ensures Run(ScenarioEvents()[..2]) == Ok(State(map["p.1" := ScenarioContext1()], map[]))
  {
    ScenarioPrefix1();
    RunExtends(ScenarioEvents(), 1);
    ScenarioStep1(ScenarioContext0(), ScenarioContext1());
  }

  lemma ScenarioPrefix3()
    ensures Run(ScenarioEvents()[..3]) == Ok(State(map["p.1" := ScenarioContext2()], map[]))
  {
    ScenarioPrefix2();
    RunExtends(ScenarioEvents(), 2);
    ScenarioStep2(ScenarioContext1(), ScenarioContext2());
  }

  function ScenarioEvents(): seq<Event>
  {
    [ Event(100000, "p.1", Enter, "tpservice", "\"SVC1\""),
      Event(100050, "p.1", Enter, "tpcall", "\"SVC2\""),
      Event(100150, "p.1", Leave, "tpcall", ""),
      Event(100200, "p.1", Leave, "tpservice", "") ]
  }

  lemma ScenarioStep0(c0: ServiceContext)
    requires c0 == NewContext(100000, "svc:SVC1")
    ensures Step(Initial, ScenarioEvents()[0]) == Ok(State(map["p.1" := c0], map[]))
  {
    QuotedNameOfLiteral("\"SVC1\"", "SVC1");
    assert "svc:" + "SVC1" == "svc:SVC1";
  }

  lemma ScenarioStep1(c0: ServiceContext, c1: ServiceContext)
    requires c0 == NewContext(100000, "svc:SVC1") && c1 == c0.(pending := Open("svc:SVC2", 100050))
    ensures Step(State(map["p.1" := c0], map[]), ScenarioEvents()[1]) == Ok(State(map["p.1" := c1], map[]))
  {
    var st, e := State(map["p.1" := c0], map[]), ScenarioEvents()[1];
    QuotedNameOfLiteral(e.params, "SVC2");
    assert "svc:" + "SVC2" == "svc:SVC2";
    CallWithContextOpensCall(st, e);
    var r := Step(st, e).value;
    assert r.processes.Keys == {"p.1"};
    assert r.processes == map["p.1" := c1];
  }

  lemma ScenarioStep2(c1: ServiceContext, c2: ServiceContext)
    requires c1 == NewContext(100000, "svc:SVC1").(pending := Open("svc:SVC2", 100050))
    requires c2 == c1.(calls := map["svc:SVC2" := Timing(1, 100)])
    ensures Step(State(map["p.1" := c1], map[]), ScenarioEvents()[2]) == Ok(State(map["p.1" := c2], map[]))
  {
    var e := ScenarioEvents()[2];
    assert e.marker == Leave && e.func == "tpcall" && IsTracked(e.func);
    assert EndCall(c1, 100150) == Some(c2);
    assert map["p.1" := c1]["p.1" := c2] == map["p.1" := c2];
  }

  lemma ScenarioStep3(c2: ServiceContext)
    requires c2 == NewContext(100000, "svc:SVC1").(pending := Open("svc:SVC2", 100050), calls := map["svc:SVC2" := Timing(1, 100)])
    ensures Step(State(map["p.1" := c2], map[]), ScenarioEvents()[3])
         == Ok(State(map[], map["svc:SVC1" := ServiceTiming(1, 200, c2.calls, map[])]))
  {
    assert map["p.1" := c2] - {"p.1"} == map[];
  }

  /** A Leave `tpcall` on a process with no context raises `KeyError`; it is not skipped. */
  lemma LeaveWithoutContextRaises()
    ensures CollectTimings([Event(0, "p.1", Leave, "tpcall", "")]) == Crash(UnknownProcess("p.1"))
  {
    var es := [Event(0, "p.1", Leave, "tpcall", "")];
    assert es[..0] == [];
  }
}
