/**
 * The correlation state machine of `collect_timings`: parsed trace events
 * drive a per-process map of open `ServiceContext`s, completed invocations
 * are recorded into the `timings` store, and whatever is still open when
 * the events run out is folded in with count 0 and total 0.
 */
module Trace {
  import opened Basics
  import opened Timings
  import opened Quoted
  import opened Invocation

  /** `{` enters a traced function, `}` leaves it. */
  datatype Marker = Enter | Leave

  /** One tuple `(msec, process, enter_leave, func, params)` that `read_tmtrace` yields. */
  datatype Event = Event(msec: int, process: string, marker: Marker, func: string, params: string)

  /** The exceptions that end the Python program. */
  datatype Failure =
    | NoServiceName(process: string)   // `.group(1)` on the `None` that `search` returned
    | UnknownProcess(process: string)  // `KeyError` from `processes[process]` on a Leave
    | NoPendingCall(process: string)   // `TypeError` from `time - None` in `endCall`/`endAcall`

  datatype Outcome<T> = Ok(value: T) | Crash(failure: Failure)

  /** The two dictionaries of `collect_timings`. */
  datatype State = State(processes: map<string, ServiceContext>, timings: Store)

  const Initial := State(map[], map[])

  /** The functions that change state; every other function name is passed over. */
  predicate IsTracked(func: string)
  {
    func == "tpservice" || func == "tpcall" || func == "tpacall"
  }

  /** `process.split('.')[0]`: the process key up to its first dot. */
  function ProcessName(process: string): (r: string)
    ensures r <= process
    ensures forall k :: 0 <= k < |r| ==> r[k] != '.'
    ensures |r| < |process| ==> process[|r|] == '.'
  {
    if process == [] || process[0] == '.' then [] else [process[0]] + ProcessName(process[1..])
  }

  /** The context an Enter `tpcall`/`tpacall` works on: the process's own, or a synthesized `'proc:'` one. */
  function CallerContext(st: State, e: Event): ServiceContext
  {
    if e.process in st.processes then st.processes[e.process]
    else NewContext(e.msec, "proc:" + ProcessName(e.process))
  }

  /** One iteration of the `for x in read_tmtrace(tracefile)` loop. */
  function Step(st: State, e: Event): (r: Outcome<State>)
    ensures r.Ok? ==> forall q :: q != e.process ==>
      && (q in r.value.processes <==> q in st.processes)
      && (q in st.processes ==> r.value.processes[q] == st.processes[q])
    ensures r.Ok? && !(e.marker == Leave && e.func == "tpservice") ==> r.value.timings == st.timings
    ensures !IsTracked(e.func) ==> r == Ok(st)
    ensures e.marker == Leave && IsTracked(e.func) && e.process !in st.processes ==>
      r == Crash(UnknownProcess(e.process))
  {
    var p := e.process;
    match e.marker
    case Enter =>
      if e.func == "tpservice" then
        match ServiceName(e.params)
        case None => Crash(NoServiceName(p))
        case Some(name) => Ok(st.(processes := st.processes[p := NewContext(e.msec, "svc:" + name)]))
      else if e.func == "tpcall" || e.func == "tpacall" then
        match ServiceName(e.params)
        case None => Crash(NoServiceName(p))
        case Some(name) => Ok(st.(processes := st.processes[p := StartCall(CallerContext(st, e), e.msec, name)]))
      else
        Ok(st)
    case Leave =>
      if !IsTracked(e.func) then Ok(st)
      else if p !in st.processes then Crash(UnknownProcess(p))
      else
        var ctx := st.processes[p];
        if e.func == "tpservice" then
          Ok(State(st.processes - {p},
                   Record(st.timings, ctx.name, 1, Elapsed(ctx, e.msec), ctx.calls, ctx.acalls)))
        else
          match (if e.func == "tpcall" then EndCall(ctx, e.msec) else EndAcall(ctx, e.msec))
          case None => Crash(NoPendingCall(p))
          case Some(c) => Ok(st.(processes := st.processes[p := c]))
  }

  /** The state after a prefix of the event stream, or the first exception. */
  function Run(events: seq<Event>): Outcome<State>
  {
    if events == [] then Ok(Initial)
    else match Run(events[..|events| - 1])
      case Crash(f) => Crash(f)
      case Ok(st) => Step(st, events[|events| - 1])
  }

  /** `timings[ctx.name].update(0, 0, ctx.calls, ctx.acalls)` or its `KeyError` insert. */
  function Absorb(t: Store, c: ServiceContext): Store
  {
    Record(t, c.name, 0, 0, c.calls, c.acalls)
  }

  /** The closing `for process, ctx in processes.items()` loop, in one order dictionary iteration may take. */
  ghost function Flush(t: Store, open: map<string, ServiceContext>): Store
    decreases |open|
  {
    if open == map[] then t
    else
      var p :| p in open;
      RemoveOne(open, p);
      Flush(Absorb(t, open[p]), open - {p})
  }

  lemma RemoveOne(open: map<string, ServiceContext>, p: string)
    requires p in open
    ensures |open - {p}| == |open| - 1
  {
    assert open.Keys == (open - {p}).Keys + {p};
  }

  lemma RemoveBoth(open: map<string, ServiceContext>, p: string, q: string)
    ensures open - {q} - {p} == open - {p} - {q}
  {
  }

  /** Flush folds in some open context first. */
  lemma FlushUnfold(t: Store, open: map<string, ServiceContext>)
    requires open != map[]
    ensures exists q :: q in open && Flush(t, open) == Flush(Absorb(t, open[q]), open - {q})
  {
  }

  /** Absorbing two contexts gives the same store in either order. */
  lemma AbsorbCommutes(t: Store, a: ServiceContext, b: ServiceContext)
    ensures Absorb(Absorb(t, a), b) == Absorb(Absorb(t, b), a)
  {
    RecordCommutes(t, a.name, 0, 0, a.calls, a.acalls, b.name, 0, 0, b.calls, b.acalls);
  }

  /**
   * Dictionary order does not matter: whichever open context is folded in
   * first, the final store is the same.
   */
  lemma {:induction false} FlushPick(t: Store, open: map<string, ServiceContext>, p: string)
    requires p in open
    ensures Flush(t, open) == Flush(Absorb(t, open[p]), open - {p})
    decreases |open|
  {
    FlushUnfold(t, open);
    var q :| q in open && Flush(t, open) == Flush(Absorb(t, open[q]), open - {q});
    if q != p {
      RemoveOne(open, q);
      RemoveOne(open, p);
      var withoutQ, withoutP := open - {q}, open - {p};
      var rest := withoutQ - {p};
      RemoveBoth(open, p, q);
      assert p in withoutQ && withoutQ[p] == open[p];
      assert q in withoutP && withoutP[q] == open[q];
      var qp := Absorb(Absorb(t, open[q]), open[p]);
      var pq := Absorb(Absorb(t, open[p]), open[q]);
      AbsorbCommutes(t, open[p], open[q]);
      FlushPick(Absorb(t, open[q]), withoutQ, p);
      FlushPick(Absorb(t, open[p]), withoutP, q);
      assert Flush(t, open) == Flush(qp, rest);
      assert Flush(Absorb(t, open[p]), withoutP) == Flush(pq, rest);
      assert qp == pq;
    }
  }

  /** What `collect_timings` returns for an event stream, or the exception it raises. */
  ghost function CollectTimings(events: seq<Event>): Outcome<Store>
  {
    match Run(events)
    case Crash(f) => Crash(f)
    case Ok(st) => Ok(Flush(st.timings, st.processes))
  }

  /** Once the stream has raised, every longer stream raises the same exception. */
  lemma {:induction false} CrashPersists(events: seq<Event>, k: nat)
    requires k <= |events| && Run(events[..k]).Crash?
    ensures Run(events) == Run(events[..k])
    decreases |events| - k
  {
    if k < |events| {
      assert events[..k + 1][..k] == events[..k];
      CrashPersists(events, k + 1);
    } else {
      assert events[..k] == events;
    }
  }

  /** `collect_timings`: the event loop, then the flush of the still-open contexts. */
  method Collect(events: seq<Event>) returns (r: Outcome<Store>)
    ensures r == CollectTimings(events)
  {
    var processes: map<string, ServiceContext> := map[];
    var timings: Store := map[];
    var i := 0;
    while i < |events|
      invariant 0 <= i <= |events|
      invariant Run(events[..i]) == Ok(State(processes, timings))
    {
      var e := events[i];
      var p := e.process;
      ghost var st := State(processes, timings);
      assert events[..i + 1][..i] == events[..i];
      assert Run(events[..i + 1]) == Step(st, e);
      if e.marker == Enter {
        if e.func == "tpservice" {
          var name := ServiceName(e.params);
          if name.None? {
            CrashPersists(events, i + 1);
            return Crash(NoServiceName(p));
          }
          processes := processes[p := NewContext(e.msec, "svc:" + name.value)];
        } else if e.func == "tpcall" || e.func == "tpacall" {
          var ctx: ServiceContext;
          if p in processes {
            ctx := processes[p];
          } else {
            ctx := NewContext(e.msec, "proc:" + ProcessName(p));
          }
          var name := ServiceName(e.params);
          if name.None? {
            CrashPersists(events, i + 1);
            return Crash(NoServiceName(p));
          }
          processes := processes[p := StartCall(ctx, e.msec, name.value)];
        }
      } else if e.func == "tpservice" {
        if p !in processes {
          CrashPersists(events, i + 1);
          return Crash(UnknownProcess(p));
        }
        var ctx := processes[p];
        processes := processes - {p};
        timings := RecordInto(timings, ctx.name, 1, Elapsed(ctx, e.msec), ctx.calls, ctx.acalls);
      } else if e.func == "tpcall" || e.func == "tpacall" {
        if p !in processes {
          CrashPersists(events, i + 1);
          return Crash(UnknownProcess(p));
        }
        var ended := if e.func == "tpcall" then EndCall(processes[p], e.msec) else EndAcall(processes[p], e.msec);
        if ended.None? {
          CrashPersists(events, i + 1);
          return Crash(NoPendingCall(p));
        }
        processes := processes[p := ended.value];
      }
      i := i + 1;
    }
    assert events[..|events|] == events;
    ghost var stored := timings;
    var open := processes;
    while open != map[]
      invariant Flush(timings, open) == Flush(stored, processes)
      decreases |open|
    {
      var p :| p in open;
      var ctx := open[p];
      FlushPick(timings, open, p);
      timings := RecordInto(timings, ctx.name, 0, 0, ctx.calls, ctx.acalls);
      RemoveOne(open, p);
      open := open - {p};
    }
    r := Ok(timings);
  }
}
