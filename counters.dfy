/** The counter block stored in a stats region's shared memory, and the
    effect of one request on it at each pipeline stage. */
module CounterBlocks {
  import opened MetricsTypes

  /** The value of a counter block: its ten fields, in wire order. The tick
      counters are `int` because negative latency intervals are added to them. */
  datatype Block = Block(
    readReqsSubmitted: nat, writeReqsSubmitted: nat,
    readReqsMerged: nat, writeReqsMerged: nat,
    readReqsCompleted: nat, writeReqsCompleted: nat,
    readSectors: nat, writeSectors: nat,
    readTotalTicks: int, writeTotalTicks: int)

  const ZeroBlock := Block(0, 0, 0, 0, 0, 0, 0, 0, 0, 0)

  /** The counter block in mapped memory, updated in place by the hooks. */
  class CounterBlock {
    var readReqsSubmitted: nat
    var writeReqsSubmitted: nat
    var readReqsMerged: nat
    var writeReqsMerged: nat
    var readReqsCompleted: nat
    var writeReqsCompleted: nat
    var readSectors: nat
    var writeSectors: nat
    var readTotalTicks: int
    var writeTotalTicks: int

    /** Fresh shared memory reads as all zeroes. */
    constructor ()
      ensures Value() == ZeroBlock
    {
      readReqsSubmitted, writeReqsSubmitted := 0, 0;
      readReqsMerged, writeReqsMerged := 0, 0;
      readReqsCompleted, writeReqsCompleted := 0, 0;
      readSectors, writeSectors := 0, 0;
      readTotalTicks, writeTotalTicks := 0, 0;
    }

    function Value(): Block
      reads this
    {
      Block(readReqsSubmitted, writeReqsSubmitted,
            readReqsMerged, writeReqsMerged,
            readReqsCompleted, writeReqsCompleted,
            readSectors, writeSectors,
            readTotalTicks, writeTotalTicks)
    }
  }

  /** `u` agrees with `v` on every field except the two submitted counters. */
  predicate SameExceptSubmitted(v: Block, u: Block) {
    u.(readReqsSubmitted := v.readReqsSubmitted, writeReqsSubmitted := v.writeReqsSubmitted) == v
  }

  /** The effect of submitting one request with opcode `op` on its block:
      PREAD counts as a read, every other opcode as a write. */
  function Submitted(v: Block, op: Opcode): (r: Block)
    ensures r.readReqsSubmitted + r.writeReqsSubmitted == v.readReqsSubmitted + v.writeReqsSubmitted + 1
    ensures (op == Pread) == (r.readReqsSubmitted == v.readReqsSubmitted + 1)
    ensures (op != Pread) == (r.writeReqsSubmitted == v.writeReqsSubmitted + 1)
    ensures SameExceptSubmitted(v, r)
  {
    if op == Pread then v.(readReqsSubmitted := v.readReqsSubmitted + 1)
    else v.(writeReqsSubmitted := v.writeReqsSubmitted + 1)
  }

  /** `u` agrees with `v` on every field except the two merged counters. */
  predicate SameExceptMerged(v: Block, u: Block) {
    u.(readReqsMerged := v.readReqsMerged, writeReqsMerged := v.writeReqsMerged) == v
  }

  /** The effect of merging one request with opcode `op` on its block. */
  function Merged(v: Block, op: Opcode): (r: Block)
    ensures r.readReqsMerged + r.writeReqsMerged == v.readReqsMerged + v.writeReqsMerged + 1
    ensures (op == Pread) == (r.readReqsMerged == v.readReqsMerged + 1)
    ensures (op != Pread) == (r.writeReqsMerged == v.writeReqsMerged + 1)
    ensures SameExceptMerged(v, r)
  {
    if op == Pread then v.(readReqsMerged := v.readReqsMerged + 1)
    else v.(writeReqsMerged := v.writeReqsMerged + 1)
  }

  /** The latency the completion hook computes: the difference of the
      microsecond parts only, whatever the seconds say. */
  function Interval(submitted: TimeVal, completed: TimeVal): (r: int)
    ensures r == ElapsedUsec(submitted, completed) - (completed.sec - submitted.sec) * UsecPerSec
    ensures ValidTime(submitted) && ValidTime(completed) ==> -UsecPerSec < r < UsecPerSec
  {
    completed.usec - submitted.usec
  }

  /** Within one second the interval is the real latency; when the real
      latency is below a second and a whole-second boundary lies between
      submission and completion, the interval is negative (and is still
      added to the ticks counter). */
  lemma IntervalSign(submitted: TimeVal, completed: TimeVal)
    requires ValidTime(submitted) && ValidTime(completed)
    requires 0 <= ElapsedUsec(submitted, completed) < UsecPerSec
    ensures submitted.sec == completed.sec ==> Interval(submitted, completed) == ElapsedUsec(submitted, completed)
    ensures Interval(submitted, completed) < 0 <==> completed.sec != submitted.sec
  {
  }

  /** Whole sectors in a transfer of `nbytes`, as the completion hook adds them. */
  function SectorsIn(nbytes: nat): (r: nat)
    ensures r * DefaultSectorSize <= nbytes < (r + 1) * DefaultSectorSize
  {
    nbytes / DefaultSectorSize
  }

  /** The effect of one completed request on its block: PREAD and PWRITE
      each touch their own three counters, any other opcode touches nothing. */
  function Completed(v: Block, op: Opcode, nbytes: nat, interval: int): (r: Block)
    ensures op == Pread ==>
      r.readReqsCompleted == v.readReqsCompleted + 1 &&
      r.readSectors * DefaultSectorSize <= v.readSectors * DefaultSectorSize + nbytes
        < (r.readSectors + 1) * DefaultSectorSize &&
      r.readTotalTicks == v.readTotalTicks + interval &&
      r.(readReqsCompleted := v.readReqsCompleted, readSectors := v.readSectors,
         readTotalTicks := v.readTotalTicks) == v
    ensures op == Pwrite ==>
      r.writeReqsCompleted == v.writeReqsCompleted + 1 &&
      r.writeSectors * DefaultSectorSize <= v.writeSectors * DefaultSectorSize + nbytes
        < (r.writeSectors + 1) * DefaultSectorSize &&
      r.writeTotalTicks == v.writeTotalTicks + interval &&
      r.(writeReqsCompleted := v.writeReqsCompleted, writeSectors := v.writeSectors,
         writeTotalTicks := v.writeTotalTicks) == v
    ensures op.OtherCmd? ==> r == v
  {
    match op
    case Pread =>
      v.(readReqsCompleted := v.readReqsCompleted + 1,
         readSectors := v.readSectors + SectorsIn(nbytes),
         readTotalTicks := v.readTotalTicks + interval)
    case Pwrite =>
      v.(writeReqsCompleted := v.writeReqsCompleted + 1,
         writeSectors := v.writeSectors + SectorsIn(nbytes),
         writeTotalTicks := v.writeTotalTicks + interval)
    case OtherCmd => v
  }
}
