/**
 * The merge types of the trace tool: `Timing` (a call count and a total
 * duration in milliseconds) and `ServiceTiming` (the same for a service,
 * plus its synchronous and asynchronous downstream calls), and the store
 * `timings` that maps a service name to its `ServiceTiming`.
 */
module Timings {

  /** A count and a total elapsed time in milliseconds. */
  datatype Timing = Timing(count: nat, total: int)
  {
    /** `Timing.update`: add the other timing's count and total. */
    function Merge(other: Timing): Timing
    {
      Timing(count + other.count, total + other.total)
    }
  }

  const Zero := Timing(0, 0)

  lemma MergeZero(a: Timing)
    ensures a.Merge(Zero) == a && Zero.Merge(a) == a
  {
  }

  lemma MergeCommutes(a: Timing, b: Timing)
    ensures a.Merge(b) == b.Merge(a)
  {
  }

  lemma MergeAssociates(a: Timing, b: Timing, c: Timing)
    ensures a.Merge(b).Merge(c) == a.Merge(b.Merge(c))
  {
  }

  /** Downstream service name to the timing of the calls made to it. */
  type CallMap = map<string, Timing>

  /** Number of calls to `k` recorded in `m` (0 when `k` is absent). */
  function CountOf(m: CallMap, k: string): nat
  {
    if k in m then m[k].count else 0
  }

  /** Total time of the calls to `k` recorded in `m` (0 when `k` is absent). */
  function TotalOf(m: CallMap, k: string): int
  {
    if k in m then m[k].total else 0
  }

  /**
   * Reference definition of the key-wise merge: every key of either map,
   * the merged timing where both have one, the single one otherwise.
   */
  function MergeCalls(m: CallMap, other: CallMap): (r: CallMap)
    ensures r.Keys == m.Keys + other.Keys
    ensures forall k :: CountOf(r, k) == CountOf(m, k) + CountOf(other, k)
    ensures forall k :: TotalOf(r, k) == TotalOf(m, k) + TotalOf(other, k)
  {
    map k | k in m.Keys + other.Keys ::
      if k in m && k in other then m[k].Merge(other[k])
      else if k in m then m[k]
      else other[k]
  }

  /** Two call maps with the same keys and the same counts and totals are equal. */
  lemma CallMapsEqual(a: CallMap, b: CallMap)
    requires a.Keys == b.Keys
    requires forall k :: CountOf(a, k) == CountOf(b, k) && TotalOf(a, k) == TotalOf(b, k)
    ensures a == b
  {
    forall k | k in a
      ensures a[k] == b[k]
    {
      assert CountOf(a, k) == CountOf(b, k) && TotalOf(a, k) == TotalOf(b, k);
    }
  }

  lemma MergeCallsIdentity(m: CallMap)
    ensures MergeCalls(m, map[]) == m && MergeCalls(map[], m) == m
  {
    CallMapsEqual(MergeCalls(m, map[]), m);
    CallMapsEqual(MergeCalls(map[], m), m);
  }

  lemma {:induction false} MergeCallsCommutes(a: CallMap, b: CallMap)
    ensures MergeCalls(a, b) == MergeCalls(b, a)
  {
    CallMapsEqual(MergeCalls(a, b), MergeCalls(b, a));
  }

  lemma {:induction false} MergeCallsAssociates(a: CallMap, b: CallMap, c: CallMap)
    ensures MergeCalls(MergeCalls(a, b), c) == MergeCalls(a, MergeCalls(b, c))
  {
    CallMapsEqual(MergeCalls(MergeCalls(a, b), c), MergeCalls(a, MergeCalls(b, c)));
  }

  /** Merging two call maps into a third gives the same map in either order. */
  lemma MergeCallsSwap(m: CallMap, x: CallMap, y: CallMap)
    ensures MergeCalls(MergeCalls(m, x), y) == MergeCalls(MergeCalls(m, y), x)
  {
    CallMapsEqual(MergeCalls(MergeCalls(m, x), y), MergeCalls(MergeCalls(m, y), x));
  }

  /**
   * The insert-or-merge of one timing under one key, as `endCall` and
   * each iteration of `ServiceTiming.update` do it: `m[k].update(t)`, or
   * `m[k] = t` on `KeyError`.
   */
  function AddTiming(m: CallMap, k: string, t: Timing): (r: CallMap)
    ensures r.Keys == m.Keys + {k}
    ensures CountOf(r, k) == CountOf(m, k) + t.count && TotalOf(r, k) == TotalOf(m, k) + t.total
    ensures forall j :: j in m && j != k ==> r[j] == m[j]
  {
    if k in m then m[k := m[k].Merge(t)] else m[k := t]
  }

  /** Insert-or-merge of one timing is the key-wise merge with a one-entry map. */
  lemma AddTimingIsMerge(m: CallMap, k: string, t: Timing)
    ensures AddTiming(m, k, t) == MergeCalls(m, map[k := t])
  {
    CallMapsEqual(AddTiming(m, k, t), MergeCalls(m, map[k := t]));
  }

  /** The entries of `other` whose keys are in `keys`. */
  function Restrict(other: CallMap, keys: set<string>): CallMap
  {
    map k | k in other.Keys * keys :: other[k]
  }

  /**
   * The loop `for k, v in calls.items(): try self.calls[k].update(v)
   * except KeyError: self.calls[k] = v`, in whatever order the keys come.
   */
  method UpdateCalls(m: CallMap, other: CallMap) returns (r: CallMap)
    ensures r == MergeCalls(m, other)
  {
    r := m;
    var todo := other.Keys;
    while todo != {}
      invariant todo <= other.Keys
      invariant r == MergeCalls(m, Restrict(other, other.Keys - todo))
      decreases |todo|
    {
      var k :| k in todo;
      MergeOneMore(m, other, todo, k);
      if k in r {
        r := r[k := r[k].Merge(other[k])];
      } else {
        r := r[k := other[k]];
      }
      todo := todo - {k};
    }
    RestrictAll(other);
  }

  lemma RestrictAll(other: CallMap)
    ensures Restrict(other, other.Keys) == other
  {
  }

  /** One iteration of `UpdateCalls`: merging one more key of `other` is an insert-or-merge. */
  lemma MergeOneMore(m: CallMap, other: CallMap, todo: set<string>, k: string)
    requires k in todo && todo <= other.Keys
    ensures MergeCalls(m, Restrict(other, other.Keys - (todo - {k})))
         == AddTiming(MergeCalls(m, Restrict(other, other.Keys - todo)), k, other[k])
  {
    var done := Restrict(other, other.Keys - todo);
    CallMapsEqual(Restrict(other, other.Keys - (todo - {k})), MergeCalls(done, map[k := other[k]]));
    AddTimingIsMerge(MergeCalls(m, done), k, other[k]);
    MergeCallsAssociates(m, done, map[k := other[k]]);
  }

  /** The statistics of one service: `ServiceTiming`. */
  datatype ServiceTiming = ServiceTiming(count: nat, total: int, calls: CallMap, acalls: CallMap)

  const EmptyService := ServiceTiming(0, 0, map[], map[])

  /**
   * Reference definition of `ServiceTiming.update(count, total, calls, acalls)`:
   * add the scalars, merge both call maps key by key.
   */
  function Updated(st: ServiceTiming, count: nat, total: int, calls: CallMap, acalls: CallMap): ServiceTiming
  {
    ServiceTiming(st.count + count, st.total + total, MergeCalls(st.calls, calls), MergeCalls(st.acalls, acalls))
  }

  /** `ServiceTiming.update`: the two scalars, then the two loops over the argument maps. */
  method Update(st: ServiceTiming, count: nat, total: int, calls: CallMap, acalls: CallMap) returns (r: ServiceTiming)
    ensures r == Updated(st, count, total, calls, acalls)
    ensures r.count == st.count + count && r.total == st.total + total
    ensures r.calls.Keys == st.calls.Keys + calls.Keys && r.acalls.Keys == st.acalls.Keys + acalls.Keys
  {
    var newCalls := UpdateCalls(st.calls, calls);
    var newAcalls := UpdateCalls(st.acalls, acalls);
    r := ServiceTiming(st.count + count, st.total + total, newCalls, newAcalls);
  }

  /** Updating with nothing (count 0, total 0, no calls) changes nothing. */
  lemma UpdatedByNothing(st: ServiceTiming)
    ensures Updated(st, 0, 0, map[], map[]) == st
  {
    MergeCallsIdentity(st.calls);
    MergeCallsIdentity(st.acalls);
  }

  /** Two updates of a service's statistics can be applied in either order. */
  lemma UpdatedCommutes(st: ServiceTiming, c1: nat, t1: int, k1: CallMap, a1: CallMap,
                        c2: nat, t2: int, k2: CallMap, a2: CallMap)
    ensures Updated(Updated(st, c1, t1, k1, a1), c2, t2, k2, a2)
         == Updated(Updated(st, c2, t2, k2, a2), c1, t1, k1, a1)
  {
    MergeCallsSwap(st.calls, k1, k2);
    MergeCallsSwap(st.acalls, a1, a2);
  }

  /** The `timings` dictionary: service name to its statistics. */
  type Store = map<string, ServiceTiming>

  /**
   * `timings[name].update(count, total, calls, acalls)`, or on `KeyError`
   * `timings[name] = ServiceTiming(count, total, calls, acalls)`.
   * Whether or not the name was there, the entry ends up as the old entry
   * (or an empty one) updated with the arguments; no other entry changes.
   */
  function Record(t: Store, name: string, count: nat, total: int, calls: CallMap, acalls: CallMap): (r: Store)
    ensures r.Keys == t.Keys + {name}
    ensures r[name] == Updated(if name in t then t[name] else EmptyService, count, total, calls, acalls)
    ensures forall s :: s in t && s != name ==> r[s] == t[s]
  {
    MergeCallsIdentity(calls);
    MergeCallsIdentity(acalls);
    if name in t then t[name := Updated(t[name], count, total, calls, acalls)]
    else t[name := ServiceTiming(count, total, calls, acalls)]
  }

  /** The imperative form of `Record`, as `collect_timings` writes it twice. */
  method RecordInto(t: Store, name: string, count: nat, total: int, calls: CallMap, acalls: CallMap) returns (r: Store)
    ensures r == Record(t, name, count, total, calls, acalls)
  {
    if name in t {
      var st := Update(t[name], count, total, calls, acalls);
      r := t[name := st];
    } else {
      r := t[name := ServiceTiming(count, total, calls, acalls)];
    }
  }

  /** Recording into the store is order-independent. */
  lemma RecordCommutes(t: Store, n1: string, c1: nat, t1: int, k1: CallMap, a1: CallMap,
                       n2: string, c2: nat, t2: int, k2: CallMap, a2: CallMap)
    ensures Record(Record(t, n1, c1, t1, k1, a1), n2, c2, t2, k2, a2)
         == Record(Record(t, n2, c2, t2, k2, a2), n1, c1, t1, k1, a1)
  {
    var left := Record(Record(t, n1, c1, t1, k1, a1), n2, c2, t2, k2, a2);
    var right := Record(Record(t, n2, c2, t2, k2, a2), n1, c1, t1, k1, a1);
    if n1 == n2 {
      UpdatedCommutes(if n1 in t then t[n1] else EmptyService, c1, t1, k1, a1, c2, t2, k2, a2);
    }
    assert left.Keys == right.Keys;
    forall s | s in left
      ensures left[s] == right[s]
    {
    }
  }

  /** Number of completed invocations recorded for a service (0 when absent). */
  function ServiceCount(t: Store, s: string): nat
  {
    if s in t then t[s].count else 0
  }

  /** Total elapsed time recorded for a service (0 when absent). */
  function ServiceTotal(t: Store, s: string): int
  {
    if s in t then t[s].total else 0
  }

  /** Recording adds the scalars to the named service and to no other. */
  lemma RecordScalars(t: Store, name: string, count: nat, total: int, calls: CallMap, acalls: CallMap, s: string)
    ensures ServiceCount(Record(t, name, count, total, calls, acalls), s)
         == ServiceCount(t, s) + (if s == name then count else 0)
    ensures ServiceTotal(Record(t, name, count, total, calls, acalls), s)
         == ServiceTotal(t, s) + (if s == name then total else 0)
  {
  }
}
