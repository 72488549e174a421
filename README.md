# ulog-trace: trace correlation and aggregation, modelled in Dafny

`ulog-trace.py` reads the user log (ULOG) of a Tuxedo-style transaction
monitor. It picks out the `TRACE:` records, pairs each Enter (`{`) with its
Leave (`}`) per process, and adds up per-service statistics: how many
invocations of each service finished, the total time they took, and what
each service called downstream. Synchronous calls (`tpcall`) and
asynchronous calls (`tpacall`) are counted separately.

This project models that engine:

- `timestamp.dfy` (module `Timestamp`): the `hhmmss[.mmm]` time field in
  milliseconds, as `read_tmtrace` computes it. A formatter is the inverse,
  and round trips are proved in both directions.
- `timing.dfy` (module `Timings`): `Timing` and `ServiceTiming` as values.
  `MergeCalls` is the reference for the key-wise merge. The Python loops
  `for k, v in calls.items()` are the method `UpdateCalls`, proved equal to
  `MergeCalls`. The `timings` dictionary is the `Store` type, with its
  insert-or-update `Record`.
- `quoted.dfy` (module `Quoted`): `re.search('"(.+)"', params).group(1)`.
  The search starts at the leftmost position where the pattern can match.
  There the greedy `.+` reaches the last quote it can, without crossing a
  newline.
- `context.dfy` (module `Invocation`): `ServiceContext` with its single
  pending-call slot, and `startCall`, `endCall` and `endAcall`.
- `trace.dfy` (module `Trace`): the body of the event loop of
  `collect_timings` as the function `Step`, and its fold `Run`. It also
  holds the final flush of open contexts (`Flush`, proved
  order-independent) and the method `Collect`. `Collect` runs the two
  loops over local maps and is proved equal to `CollectTimings`.
- `trace_properties.dfy` (module `TraceProperties`) proves:
  - one lemma for each transition;
  - process isolation;
  - final counts and totals come from the Leave `tpservice` events;
  - the flush adds exactly the calls of the contexts still open;
  - two worked examples.

A Python exception ends the whole program, so it is modelled as the
outcome `Crash(failure)` and not as a precondition:

- `NoServiceName`: `.group(1)` called on `None`.
- `UnknownProcess`: a `KeyError` on a Leave event for a process that has
  no context.
- `NoPendingCall`: `time - None` when a Leave `tpcall`/`tpacall` arrives
  before any call was started.

Points where `collect_timings` does not forgive bad input, all kept in
the model as the code has them:

- A Leave `tpservice`, `tpcall` or `tpacall` for a process that has no
  context raises `KeyError`. The line is not skipped; see
  `TraceProperties.LeaveWithoutContextRaises`.
- An Enter `tpservice`, `tpcall` or `tpacall` whose parameters hold no
  quoted name raises, because `.group(1)` is called on `None`.
- A Leave `tpcall` or `tpacall` does not clear the pending call. A repeated
  Leave therefore counts the same call again; see `Invocation.EndCallTwice`.
- The code keeps no error counts, does nothing for `tpreturn`, and takes no
  windowed snapshots.

## Model

| member | source | states |
|---|---|---|
| Timestamp.IsTimeField | ulog-trace.py:27 | The time group `\d\d\d\d\d\d(\.\d\d\d)?`: six digits, optionally followed by a dot and three digits. This is a predicate, and `Msec` requires it. |
| Timestamp.Msec | ulog-trace.py:36-37 | The value is ((HH·60+MM)·60+SS)·1000 plus the fraction. The fraction is 0 when there is no `.mmm`, otherwise the three digits, at most 999. A six-digit field gives a whole second. |
| Timestamp.LeadingZero | ulog-trace.py:37 | Prefixing `'0'` to a digit string does not change its value, so `int('0' + seconds[7:])` is the fraction, or 0 when it is empty. |
| Timestamp.DigitsValue | ulog-trace.py:36-37 | The decimal value of an n-digit string is below 10^n. |
| Timestamp.MsecWithinDay | ulog-trace.py:36-37 | A field with hours < 24, minutes < 60 and seconds < 60 lies in [0, 86399999]. |
| Timestamp.MidnightIsZero | ulog-trace.py:36-37 | `"000000"` gives 0. |
| Timestamp.LastMillisecondOfDay | ulog-trace.py:36-37 | `"235959.999"` gives 86399999. |
| Timestamp.MsecOfFormat | ulog-trace.py:36-37 | Normalising the `hhmmss.mmm` text of any millisecond of the day gives that millisecond back. |
| Timestamp.FormatOfMsec | ulog-trace.py:36-37 | Formatting the value of an on-the-clock field with a fraction gives the field back. |
| Timings.Timing.Merge | ulog-trace.py:48-50 | `Timing.update`: adds the other timing's count and total. `MergeZero`, `MergeCommutes` and `MergeAssociates` state its laws. |
| Timings.MergeZero | ulog-trace.py:48-50 | Merging a zero Timing changes nothing, on either side. |
| Timings.MergeCommutes | ulog-trace.py:48-50 | `Timing.update` is commutative on (count, total). |
| Timings.MergeAssociates | ulog-trace.py:48-50 | `Timing.update` is associative on (count, total). |
| Timings.MergeCalls | ulog-trace.py:64-73 | The merged map's keys are the union of both key sets. For every key, count and total are the sums of the two sides, where a missing side counts as 0. |
| Timings.MergeCallsIdentity | ulog-trace.py:64-73 | Merging with an empty map, on either side, gives the map unchanged. |
| Timings.MergeCallsCommutes | ulog-trace.py:64-73 | The key-wise merge is commutative. |
| Timings.MergeCallsAssociates | ulog-trace.py:64-73 | The key-wise merge is associative. |
| Timings.MergeCallsSwap | ulog-trace.py:64-73 | Merging x and then y into a map gives the same result as merging y and then x. |
| Timings.AddTiming | ulog-trace.py:98-101 | The try-update-except-insert of one timing under one key. The key joins the keys, and its count and total grow by the timing's. Every other key keeps its timing. |
| Timings.AddTimingIsMerge | ulog-trace.py:64-68 | Insert-or-merge of one timing under one key equals the key-wise merge with a one-entry map. |
| Timings.UpdateCalls | ulog-trace.py:64-68 | The loop over the argument's items, trying `update` and inserting on `KeyError`, takes the keys in any order. It yields exactly `MergeCalls` of the two maps. |
| Timings.MergeOneMore | ulog-trace.py:64-68 | Handling one more key of the argument is one insert-or-merge on the partial result. |
| Timings.Updated | ulog-trace.py:61-73 | Reference definition of `ServiceTiming.update`: the scalars added, and both call maps merged by `MergeCalls`. `UpdatedByNothing` and `UpdatedCommutes` state its laws. |
| Timings.Update | ulog-trace.py:61-73 | `ServiceTiming.update` adds count and total and merges `calls` and `acalls` key by key. Both maps are handled alike, and each key set becomes the union. |
| Timings.UpdatedByNothing | ulog-trace.py:61-73 | Updating with count 0, total 0 and no calls leaves the statistics unchanged. |
| Timings.UpdatedCommutes | ulog-trace.py:61-73 | Two updates of one service's statistics commute. |
| Timings.Record | ulog-trace.py:132-135 | The store gains the name. The entry becomes the old entry, or an empty one, updated with the arguments: the `KeyError` insert equals updating an empty `ServiceTiming`. Every other entry is unchanged. |
| Timings.RecordInto | ulog-trace.py:142-145 | The try-update-except-insert code on `timings` computes `Record`. |
| Timings.RecordCommutes | ulog-trace.py:141-145 | Recording two invocations into the store gives the same store in either order. |
| Timings.RecordScalars | ulog-trace.py:132-135 | Recording adds its count and total to the named service, and adds nothing to any other service. |
| Quoted.LineEnd | ulog-trace.py:113 | Gives the first newline at or after k, or the end of the string: how far `.` can reach. |
| Quoted.LastQuote | ulog-trace.py:113 | Gives the last quote in a range, or None exactly when the range has no quote. |
| Quoted.MatchAt | ulog-trace.py:113 | At start i, gives the longest match of `"(.+)"`, or None exactly when nothing matches there. |
| Quoted.Search | ulog-trace.py:113 | Gives the leftmost start with a match, and the longest match there. None means no match at or after `from`. |
| Quoted.ServiceName | ulog-trace.py:119 | The result is None exactly when `"(.+)"` matches nowhere. Otherwise it is the group of the leftmost-longest match. |
| Quoted.NameBetweenFirstAndLastQuote | ulog-trace.py:113 | On a line without newlines, extraction succeeds iff the last quote is at least two positions after the first. The name is the text strictly between them. |
| Quoted.NoQuoteNoName | ulog-trace.py:119 | Parameters without a quote give no name (the `.group` on `None` case). |
| Invocation.NewContext | ulog-trace.py:85-89 | `ServiceContext(start_time, name)`: the given name and start, empty `calls` and `acalls`, and no pending call. |
| Invocation.Elapsed | ulog-trace.py:91-92 | `elapsed()`: the end time minus the context's start time. |
| Invocation.StartCall | ulog-trace.py:93-95 | The slot holds `'svc:' + name` and the time. Nothing else in the context changes. |
| Invocation.StartCallForgetsEarlier | ulog-trace.py:93-95 | A second `startCall` overwrites the first, so the earlier start is lost. |
| Invocation.EndCall | ulog-trace.py:96-101 | Fails exactly when no call is pending. Otherwise the pending callee gets one more call in `calls`, and its total grows by `time - start`. Other keys, `acalls`, the slot, the name and the start time are unchanged. |
| Invocation.EndAcall | ulog-trace.py:102-107 | Like `EndCall`, but in `acalls` only. `calls` and the slot are unchanged. |
| Invocation.EndCallTwice | ulog-trace.py:96-101 | The slot is not cleared, so two `endCall`s count the same call twice. |
| Trace.ProcessName | ulog-trace.py:124 | `process.split('.')[0]`: the result is a prefix of the key with no dot, and it stops at the first dot or at the end. |
| Trace.CallerContext | ulog-trace.py:121-124 | The context an Enter `tpcall`/`tpacall` works on: the process's own, or on `KeyError` a new `'proc:' + process name` context starting now. |
| Trace.Step | ulog-trace.py:114-139 | An event changes no context but its own process's. Only a Leave `tpservice` changes `timings`. Functions other than tpservice, tpcall and tpacall change nothing. A Leave of those three for an unknown process raises `KeyError`. |
| Trace.Run | ulog-trace.py:114-139 | The event loop as a fold of `Step` over the stream: the state after a prefix of the events, or the first exception. |
| Trace.CrashPersists | ulog-trace.py:114-139 | Once an exception is raised, the whole run ends with it. |
| Trace.Absorb | ulog-trace.py:142-145 | One iteration of the closing loop: `Record` of the context's calls and acalls with count 0 and total 0. |
| Trace.Flush | ulog-trace.py:141-145 | The closing `processes.items()` loop, folding in the open contexts in an arbitrary order. `FlushPick` proves the order does not matter. `FlushKeys`, `FlushKeepsScalars` and `FlushCalls` state the result. |
| Trace.AbsorbCommutes | ulog-trace.py:141-145 | Folding in two open contexts gives the same store in either order. |
| Trace.FlushPick | ulog-trace.py:141-145 | Whichever open context the `processes.items()` loop takes first, the final store is the same. |
| Trace.CollectTimings | ulog-trace.py:109-146 | What `collect_timings` returns: the first exception of the event loop, or the store after the loop with the open contexts flushed into it. |
| Trace.Collect | ulog-trace.py:109-146 | The event loop plus the flush loop return exactly `CollectTimings`, or the first exception. |
| TraceProperties.EnterServiceInstallsContext | ulog-trace.py:117-119 | Enter `tpservice` installs a fresh context `'svc:' + name` starting at msec, replacing any old one. `timings` is untouched. With no quoted name it raises. |
| TraceProperties.CallWithoutContextSynthesizes | ulog-trace.py:120-125 | Enter `tpcall`/`tpacall` with no context creates `'proc:' + process name`, starting now, with the call pending. With no quoted name it raises. |
| TraceProperties.CallWithContextOpensCall | ulog-trace.py:120-122 | Enter `tpcall`/`tpacall` on an existing context only overwrites its pending slot. With no quoted name it raises. |
| TraceProperties.LeaveServiceRecords | ulog-trace.py:128-135 | Leave `tpservice` removes the process. Its service gets count +1 and total + (end - start), and its calls/acalls are merged in. No other service changes. |
| TraceProperties.LeaveCallRecords | ulog-trace.py:136-137 | Leave `tpcall` adds one call, timed from the pending start, to `calls`. The callee joins the keys. The other callees, `acalls`, the slot, the name and the start time are kept. With no pending call it raises. |
| TraceProperties.LeaveAcallRecords | ulog-trace.py:138-139 | Leave `tpacall` adds one call, timed from the pending start, to `acalls`. The callee joins the keys. The other callees, `calls`, the slot, the name and the start time are kept. With no pending call it raises. |
| TraceProperties.StepLocal | ulog-trace.py:114-139 | What an event does to its own process depends only on that process's context. |
| TraceProperties.ContextDependsOnlyOnOwnEvents | ulog-trace.py:114-139 | If the whole interleaved stream runs without an exception, each process's context equals the one its own events alone produce. |
| TraceProperties.RunCounts | ulog-trace.py:128-135 | During the loop, a service's count is the number of Leave `tpservice` events that closed it. Its total is their summed durations. |
| TraceProperties.FlushKeepsScalars | ulog-trace.py:141-145 | The final flush adds count 0 and total 0 to every service. |
| TraceProperties.CollectCounts | ulog-trace.py:109-146 | A service's final count equals the number of Leave `tpservice` events processed for it. Its final total equals their summed durations. |
| TraceProperties.AbsorbCovers | ulog-trace.py:141-145 | Folding in one open context loses no service and no call name. |
| TraceProperties.FlushCovers | ulog-trace.py:141-145 | The flush loses no service and no call name. |
| TraceProperties.FlushKeepsOpenCalls | ulog-trace.py:141-145 | Every context still open at the end reaches the result: its service is present with all its finished `calls`/`acalls` names. The counts and totals are stated by `FlushCalls`. |
| TraceProperties.FlushKeys | ulog-trace.py:141-145 | After the flush the store holds exactly the services it held and those of the contexts still open. |
| TraceProperties.OpenCallsPick | ulog-trace.py:141-145 | The key-wise sum of the open contexts' calls of one service does not depend on the order in which the contexts are taken. |
| TraceProperties.AbsorbCalls | ulog-trace.py:142-145 | Folding in one context merges its `calls` (or `acalls`) key-wise into its own service's entry. Every other service's maps stay as they were. |
| TraceProperties.FlushCalls | ulog-trace.py:141-145 | For every service, the final `calls` (and `acalls`) map is the stored map merged key-wise with the sum of that service's open contexts' maps. So for every callee, the count and the total are the stored ones plus the open contexts' ones. |
| TraceProperties.FlushCountsOpenCalls | ulog-trace.py:141-145 | For every callee, the final entry of an open context's service counts at least as many calls as that context made. |
| TraceProperties.QuotedNameOfLiteral | ulog-trace.py:113 | `"NAME"` yields NAME. |
| TraceProperties.ScenarioRun | ulog-trace.py:114-139 | For the worked stream, the loop ends with no open context and one recorded service. |
| TraceProperties.SingleCallScenario | ulog-trace.py:109-146 | The worked stream is `tpservice{"SVC1"` at 100000, `tpcall{"SVC2"` at 100050, `tpcall}` at 100150, `tpservice}` at 100200. It gives `svc:SVC1` = (1, 200), with `calls` `svc:SVC2` = (1, 100). |
| TraceProperties.LeaveWithoutContextRaises | ulog-trace.py:136-137 | A Leave `tpcall` for a process with no context raises `KeyError` and is not skipped. |

## Left out

- The trace-line regular expression (`re_trace`, line 27) and its matching (lines 32-35). Events arrive already parsed, as `Trace.Event`. Only the timestamp arithmetic is modelled.
- Reading the log file with `open(...).xreadlines()` (line 30): this is I/O.
- `do_service_graph` (lines 148-179): it renders through the external `pydot` library and writes a file.
- `do_service_timing` (lines 181-197): it only prints, with float division and string formatting.
- `main` (lines 199-233): command-line option parsing.
- Floats: the `0.0` default of `Timing.total` is never used. Every real total is a difference of integer milliseconds, so `total` is an `int`.
- Update in place and aliasing: `Timing`, `ServiceTiming` and `ServiceContext` are values here. The Python shares a context's `Timing` objects with the store entry they are merged into. This sharing is never observed, because the context is discarded as soon as it is merged.
- The `end_time` field of `ServiceContext`: it is set just before `elapsed()` reads it, so it is passed to `Invocation.Elapsed` as an argument.
- Iteration order of the final `processes.items()` loop: Python 2 leaves it unspecified. `Trace.Flush` picks any order, and `Trace.FlushPick` proves the result is the same for all orders.
- Live log following with date-suffixed file rollover, windowed snapshot-and-reset, error counting and `tpreturn` handling: the code has none of these.
