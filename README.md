# tapdisk metrics: a verified model

This project models the metrics subsystem of blktap's tapdisk
(`drivers/tapdisk-metrics.c`). Tapdisk publishes per-device I/O counters
in shared-memory files under a per-process directory.

- **Root directory.** `td_metrics_start` builds the directory path from the
  process id and creates the directory. An existing directory is emptied and
  reused. `td_metrics_stop` empties and removes it.
- **Stats handles.** `td_metrics_vdi_start` and `td_metrics_vbd_start` allocate
  a region path under the root and create a one-page shared-memory segment.
  They then point the handle's `stats` at the mapping. The matching stop
  functions destroy the segment and clear the path.
- **I/O hooks.** The dispatcher calls three hooks inline:
  - `td_metrics_vdi_update_submit` stamps every request of a batch with one
    clock reading and counts it as a read (PREAD) or a write (anything else);
  - `td_metrics_vdi_update_merged` counts one merged request;
  - `td_metrics_vdi_update_completed` counts, for PREAD and PWRITE only, one
    completion, the whole 512-byte sectors of the request and the latency
    interval.

The model is imperative, like the code:

- The counter block in mapped memory is a class (`CounterBlocks.CounterBlock`),
  updated in place.
- The root and the handles are classes (`MetricsLifecycle.MetricsRoot`,
  `MetricsLifecycle.StatsHandle`).
- Iocbs and their `tiocb` contexts are classes (`IoHooks.Iocb`,
  `IoHooks.Tiocb`). Their references may alias: several requests may share a
  handle, and several handles may share a block.
- The submit and completion hooks are methods with a `while` loop over the
  batch. The merge hook handles one iocb and has no loop, as in the code.

The submit and completion hooks' postconditions tie the new value of every
counter block they touch to a pure specification of the batch
(`IoHooks.AfterSubmit`, `IoHooks.AfterComplete`). The merge hook's
postcondition gives its block's new value through the per-request step
`CounterBlocks.Merged`. The properties the code promises are proved as
lemmas about those specifications. Results of operating-system calls are
parameters: the outcomes of `asprintf`, `mkdir`, `rmdir`, `shm_create` and
`shm_destroy` (with their errno), and the clock readings.

Three behaviours of the code are easy to misread:

- When `mkdir` fails with anything but EEXIST, `td_metrics_start` returns -1
  (not errno), and the root path stays allocated and set.
- When `shm_create` fails, the handle's region path stays set, although no
  segment is mapped. `stats` is left as it was: null for a fresh handle,
  the previous block after an earlier start and stop. The handle must
  therefore still be stopped.
- The latency interval is the difference of the microsecond fields only.
  Across a whole-second boundary it is wrong: a latency under one second
  that crosses a second boundary gives a negative interval
  (`CounterBlocks.IntervalSign`). The negative value
  is still added to the ticks counter, which the model therefore keeps as an
  `int`.

Files:

- `types.dfy`: outcomes, opcodes, timestamps and constants.
- `counters.dfy`: the counter block and the effect of one request at each
  stage.
- `lifecycle.dfy`: the root and the stats handles.
- `hooks.dfy`: the three hooks and the batch lemmas.
- `scenarios.dfy`: whole-lifecycle runs and batch-level consequences.

## Model

| member | source | states |
|---|---|---|
| CounterBlocks.Submitted | drivers/tapdisk-metrics.c:204-208 | A submitted request adds exactly one to read+write submitted. PREAD raises the read counter, and any other opcode the write counter (both directions). No other field changes. |
| CounterBlocks.Merged | drivers/tapdisk-metrics.c:219-223 | A merged request raises exactly one of the two merged counters, the read one iff the opcode is PREAD. No other field changes. |
| CounterBlocks.Interval | drivers/tapdisk-metrics.c:243 | The interval equals the real elapsed microseconds minus the whole-second difference times 10^6. For valid timestamps it lies strictly between -10^6 and 10^6. |
| CounterBlocks.IntervalSign | drivers/tapdisk-metrics.c:243-251 | For a real latency under one second: within one second the interval is the latency. It is negative exactly when a second boundary lies between submission and completion. |
| CounterBlocks.SectorsIn | drivers/tapdisk-metrics.c:246-250 | Whole sectors of a transfer: the largest count whose 512-byte total does not exceed the byte count. |
| CounterBlocks.Completed | drivers/tapdisk-metrics.c:244-252 | PREAD adds one completion, the transfer's whole sectors and the interval to the read counters only. PWRITE does the same on the write counters. Any other opcode leaves the block unchanged. |
| MetricsLifecycle.MetricsRoot.constructor | drivers/tapdisk-metrics.c:36 | The static root starts with no path. |
| MetricsLifecycle.MetricsRoot.Start | drivers/tapdisk-metrics.c:83-112 | A failed path allocation leaves no path and returns errno. Otherwise the path is set. The result is 0 iff mkdir succeeded or reported EEXIST, and -1 for any other mkdir failure. |
| MetricsLifecycle.MetricsRoot.Stop | drivers/tapdisk-metrics.c:114-132 | With no path, nothing happens. The path is cleared iff rmdir succeeds, and a failed rmdir leaves it as it was. |
| MetricsLifecycle.StatsHandle.StartRegion | drivers/tapdisk-metrics.c:141-163 | The region is reset, then (as `StartedAs`): a failed allocation leaves it unbound and returns errno; a failed create keeps the path and page size, maps nothing, leaves `stats` as it was and returns errno; a created segment binds `stats` to its mapping. The result is 0 iff both calls succeed. |
| MetricsLifecycle.StatsHandle.VdiStart | drivers/tapdisk-metrics.c:134-167 | Requires a started root (the ASSERT). Its outcomes are those of `StartRegion`. |
| MetricsLifecycle.StatsHandle.VbdStart | drivers/tapdisk-metrics.c:256-287 | Requires a started root (the ASSERT). Its outcomes are those of `StartRegion`. |
| MetricsLifecycle.StatsHandle.StopRegion | drivers/tapdisk-metrics.c:174-185 | Requires a set path. The path is cleared whatever destroy reports, and nothing else changes. The result is 0 or destroy's errno. |
| MetricsLifecycle.StatsHandle.VdiStop | drivers/tapdisk-metrics.c:169-186 | As `StopRegion`. A second stop violates the precondition (the ASSERT). |
| MetricsLifecycle.StatsHandle.VbdStop | drivers/tapdisk-metrics.c:289-305 | As `StopRegion`. A second stop violates the precondition (the ASSERT). |
| IoHooks.Batch | drivers/tapdisk-metrics.c:199 | The loop visits the first `n` entries, and none when `n` is negative. |
| IoHooks.Objs | drivers/tapdisk-metrics.c:240 | The iocbs completed by an event batch, in order. |
| IoHooks.SubmitStep | drivers/tapdisk-metrics.c:200-208 | One loop iteration. It stamps request `i` with the start time and bumps its block, so the stamped prefix and the accounted prefix of the batch both grow by one. Handles keep pointing where they did. |
| IoHooks.UpdateSubmit | drivers/tapdisk-metrics.c:188-210 | Every request of the batch carries the one start time. Every block the batch refers to ends as `AfterSubmit` of its old value over the batch. |
| IoHooks.UpdateMerged | drivers/tapdisk-metrics.c:212-225 | The request's block becomes `Merged` of its old value for the request's opcode. |
| IoHooks.CompleteStep | drivers/tapdisk-metrics.c:240-252 | One loop iteration. The accounted prefix of the batch grows by one, and handles and timestamps are unchanged. |
| IoHooks.UpdateCompleted | drivers/tapdisk-metrics.c:227-254 | Every block the batch refers to ends as `AfterComplete` of its old value, with the requests' submission stamps and the one end time. |
| IoHooks.AfterSubmitCounts | drivers/tapdisk-metrics.c:199-209 | Per block, a submit batch adds its PREAD references to read submitted and all its other references to write submitted. Nothing else changes. |
| IoHooks.AfterSubmitSplit | drivers/tapdisk-metrics.c:199-209 | Submitting a batch at once or as two consecutive batches gives the same block value. |
| IoHooks.SubmittedOverShift | drivers/tapdisk-metrics.c:199-209 | Over any list of blocks, the submitted sum grows by the number of references to those blocks. |
| IoHooks.SubmittedTotal | drivers/tapdisk-metrics.c:199-209 | Over the distinct blocks a batch refers to, read+write submitted grows by exactly the batch size. |
| IoHooks.AfterCompleteSums | drivers/tapdisk-metrics.c:239-253 | Per block: completed = old + number of PREAD (PWRITE) requests; sectors = old + the sum of their whole sectors; ticks = old + the sum of their intervals. Other opcodes add nothing, and the submitted and merged counters do not change. |
| IoHooks.SectorSumBounds | drivers/tapdisk-metrics.c:246-250 | Sectors times 512 never exceed the bytes requested. They fall short by less than 512 per request. |
| IoHooks.AfterCompleteSplit | drivers/tapdisk-metrics.c:237-253 | Completing a batch at once or as two consecutive batches with the same end time gives the same block value. |
| Scenarios.RootReuseAndRetry | drivers/tapdisk-metrics.c:97-131 | Reusing an existing directory returns 0. A failed rmdir keeps the path, and a later stop with a successful rmdir clears it. |
| Scenarios.HandleCreateFailure | drivers/tapdisk-metrics.c:156-185 | On a fresh handle, a failed create returns its own errno and leaves `stats` unbound. A stop is still allowed; it returns destroy's errno, given separately from create's, and clears the path. |
| Scenarios.SubmitBatch | drivers/tapdisk-metrics.c:188-210 | For any batch and aliasing, the submitted sum over its distinct blocks grows by exactly `max(nreqs, 0)`. |
| Scenarios.SubmitThenComplete | drivers/tapdisk-metrics.c:197-253 | One request submitted and then completed keeps its submission time. Its block becomes `Completed(Submitted(old, op), op, nbytes, Interval(t0, t1))`. |
| Scenarios.OneWrite | drivers/tapdisk-metrics.c:188-305 | Root start, VBD start, one 4096-byte PWRITE, then stops. The block ends with 1 write submitted, 1 write completed, 8 sectors and `t1.usec - t0.usec` ticks; every other counter is zero. The handle stop returns 0. |
| Scenarios.SubmitPair | drivers/tapdisk-metrics.c:199-209 | Two requests on one shared block, in one batch, are both counted, in order. |
| Scenarios.SharedHandle | drivers/tapdisk-metrics.c:199-223 | A read and a write on one handle count one read and one write submitted. A merge of the read then adds only one read merged. |

## Left out

- `empty_folder` (lines 38-81) is not modelled. Its directory walk touches only the filesystem, and its result is ignored by every caller. Starting and stopping the root therefore do not model emptying the directory.
- The bodies of `shm_init`, `shm_create` and `shm_destroy` are not part of this model. Their outcomes are parameters: a created segment, which may be any counter block, or an errno. The model does not require a created segment to be fresh or zeroed, so it proves neither that a new handle's counters start at zero nor that two handles get separate blocks. `shm_init` is assumed to reset the region descriptor to `UnboundRegion` (no path, size 0, no mapping).
- The clock (`gettimeofday`) is a parameter of the submit and completion hooks.
- Path templates (`TAPDISK_METRICS_PATHF` and the VDI/VBD ones) are not part of this model. The path string is the outcome of `asprintf`, so `minor`, `domain`, `id` and the process id do not affect the result.
- StartRegion: the effect of a failed `shm_create` on the region descriptor is assumed, not derived. The model takes it to leave the mapping unset (`shm.mem == null`), because the body of `shm_create` is not part of this model. `VdiStart` and `VbdStart` inherit this.
- StopRegion: the effect of `shm_destroy` on the region descriptor is assumed, not derived. The model takes it to leave `shm.size` and `shm.mem` unchanged, and "nothing else changes" rests on that. `VdiStop` and `VbdStop` inherit this.
- StopRegion: the unmapping of the segment is not modelled. After a stop, `stats` still refers to a live counter block that the hooks could update, whereas in the program the mapping is gone.
- Logging (`EPRINTF`, `strerror`) is left out. Failing calls are modelled with a positive errno.
- Concurrent readers of the shared-memory files are not modelled.
- `td_metrics_vdi_update_ticks` (lines 307-310) has an empty body.
- Counter widths are not modelled. The counters are unbounded (`nat`, and `int` for the ticks), so wrap-around of the C integer types is not captured.
- The source's `iocbs` array and `aio_events` array are modelled as sequences, because the hooks only read them.
- `PAGE_SIZE` and `DEFAULT_SECTOR_SIZE` come from headers that are not part of this model. They are taken as 4096 and 512.
- The bodies of the submit and completion loops are factored into the methods `SubmitStep` and `CompleteStep`. Their extra ghost parameters only carry the proof.
