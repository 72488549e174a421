/**
 * `ServiceContext`: the state of one open invocation of a process — its
 * service name, start time, the single pending downstream call (a slot,
 * not a stack) and the `calls`/`acalls` maps built so far.
 */
module Invocation {
  import opened Basics
  import opened Timings

  /**
   * The pending-call slot: `call_name`/`call_start_time`, both `None`
   * until the first `startCall`.
   */
  datatype Pending = Idle | Open(callee: string, start: int)

  datatype ServiceContext = ServiceContext(
    name: string,
    startTime: int,
    calls: CallMap,
    acalls: CallMap,
    pending: Pending)

  /** `ServiceContext(start_time, name)`: no calls yet, no pending call. */
  function NewContext(startTime: int, name: string): ServiceContext
  {
    ServiceContext(name, startTime, map[], map[], Idle)
  }

  /** `elapsed()`, with the `end_time` that `collect_timings` sets just before calling it. */
  function Elapsed(c: ServiceContext, endTime: int): int
  {
    endTime - c.startTime
  }

  /** `startCall(time, name)`: the slot now holds `'svc:' + name` and `time`, whatever it held. */
  function StartCall(c: ServiceContext, time: int, callee: string): (r: ServiceContext)
    ensures r.pending == Open("svc:" + callee, time)
    ensures r.(pending := c.pending) == c
  {
    c.(pending := Open("svc:" + callee, time))
  }

  /** A second `startCall` before the first call ends overwrites it: the first call's start is lost. */
  lemma StartCallForgetsEarlier(c: ServiceContext, t1: int, n1: string, t2: int, n2: string)
    ensures StartCall(StartCall(c, t1, n1), t2, n2) == StartCall(c, t2, n2)
  {
  }

  /**
   * `endCall(time)`: one more call to the pending callee, taking
   * `time - call_start_time`, in `calls` only. With no pending call Python
   * computes `time - None` and raises `TypeError`: the result is `None`.
   * The slot is not cleared.
   */
  function EndCall(c: ServiceContext, time: int): (r: Option<ServiceContext>)
    ensures r.None? <==> c.pending.Idle?
    ensures r.Some? ==>
      var n := c.pending.callee;
      && r.value.calls.Keys == c.calls.Keys + {n}
      && CountOf(r.value.calls, n) == CountOf(c.calls, n) + 1
      && TotalOf(r.value.calls, n) == TotalOf(c.calls, n) + (time - c.pending.start)
      && (forall k :: k in c.calls && k != n ==> r.value.calls[k] == c.calls[k])
      && r.value.(calls := c.calls) == c
  {
    match c.pending
    case Idle => None
    case Open(n, start) => Some(c.(calls := AddTiming(c.calls, n, Timing(1, time - start))))
  }

  /** `endAcall(time)`: the same as `EndCall`, in `acalls` only. */
  function EndAcall(c: ServiceContext, time: int): (r: Option<ServiceContext>)
    ensures r.None? <==> c.pending.Idle?
    ensures r.Some? ==>
      var n := c.pending.callee;
      && r.value.acalls.Keys == c.acalls.Keys + {n}
      && CountOf(r.value.acalls, n) == CountOf(c.acalls, n) + 1
      && TotalOf(r.value.acalls, n) == TotalOf(c.acalls, n) + (time - c.pending.start)
      && (forall k :: k in c.acalls && k != n ==> r.value.acalls[k] == c.acalls[k])
      && r.value.(acalls := c.acalls) == c
  {
    match c.pending
    case Idle => None
    case Open(n, start) => Some(c.(acalls := AddTiming(c.acalls, n, Timing(1, time - start))))
  }

  /** Because the slot is kept, ending the same call twice counts it twice from the same start. */
  lemma EndCallTwice(c: ServiceContext, t1: int, t2: int)
    requires c.pending.Open?
    ensures EndCall(c, t1).Some? && EndCall(EndCall(c, t1).value, t2).Some?
    ensures CountOf(EndCall(EndCall(c, t1).value, t2).value.calls, c.pending.callee)
         == CountOf(c.calls, c.pending.callee) + 2
  {
  }
}
