/** The three I/O pipeline hooks run inline by the dispatcher: submit (a
    batch of iocbs), merge (one iocb) and complete (a batch of io events).
    Each resolves a request's stats handle through its tiocb and updates the
    counter block that handle's `stats` points at, in place. Requests may
    share a handle, and handles may share a block: every statement below is
    per counter block. */
module IoHooks {
  import opened MetricsTypes
  import opened CounterBlocks
  import opened MetricsLifecycle

  /** The per-request context: the submission timestamp the submit hook
      writes, and the non-owning reference to the request's stats handle. */
  class Tiocb {
    var ts: TimeVal
    const vdiStats: StatsHandle

    constructor (handle: StatsHandle)
      ensures vdiStats == handle && ts == TimeVal(0, 0)
    {
      vdiStats := handle;
      ts := TimeVal(0, 0);
    }
  }

  /** An iocb: its libaio command, its byte count (`u.c.nbytes`) and its
      `data` pointer to the context. The hooks only read it. */
  class Iocb {
    const opcode: Opcode
    const nbytes: nat
    const data: Tiocb

    constructor (opcode: Opcode, nbytes: nat, data: Tiocb)
      ensures this.opcode == opcode && this.nbytes == nbytes && this.data == data
    {
      this.opcode := opcode;
      this.nbytes := nbytes;
      this.data := data;
    }
  }

  /** A `struct io_event`: the completed iocb. */
  datatype IoEvent = IoEvent(obj: Iocb)

  /** What the hooks see of one request: opcode, byte count and the counter
      block its handle points at. */
  datatype Req = Req(op: Opcode, nbytes: nat, block: CounterBlock)

  /** The first `n` elements of `a`; a loop `for (i = 0; i < n; i++)`
      visits none when `n` is negative. */
  function Batch<T>(a: seq<T>, n: int): (s: seq<T>)
    requires n <= |a|
    ensures |s| == (if n < 0 then 0 else n)
    ensures forall i :: 0 <= i < |s| ==> s[i] == a[i]
  {
    if n <= 0 then [] else a[..n]
  }

  /** The iocbs an event batch completes. */
  function Objs(events: seq<IoEvent>): (s: seq<Iocb>)
    ensures |s| == |events| && forall i :: 0 <= i < |s| ==> s[i] == events[i].obj
  {
    seq(|events|, i requires 0 <= i < |events| => events[i].obj)
  }

  /** Every request's handle is bound to a counter block. */
  predicate Bound(s: seq<Iocb>)
    reads set i | 0 <= i < |s| :: s[i].data.vdiStats
  {
    forall i :: 0 <= i < |s| ==> s[i].data.vdiStats.stats != null
  }

  /** The counter block a request's handle points at. */
  function BlockOf(io: Iocb): CounterBlock?
    reads io.data.vdiStats
  {
    io.data.vdiStats.stats
  }

  /** The submission timestamp in a request's context. */
  function StampOf(io: Iocb): TimeVal
    reads io.data
  {
    io.data.ts
  }

  function View(io: Iocb): Req
    requires BlockOf(io) != null
    reads io.data.vdiStats
  {
    Req(io.opcode, io.nbytes, BlockOf(io))
  }

  function Views(s: seq<Iocb>): (rs: seq<Req>)
    requires Bound(s)
    reads set i | 0 <= i < |s| :: s[i].data.vdiStats
    ensures |rs| == |s| && forall i :: 0 <= i < |s| ==> rs[i] == View(s[i])
  {
    if s == [] then [] else Views(s[..|s| - 1]) + [View(s[|s| - 1])]
  }

  /** The submission timestamps of the requests' contexts. */
  function Stamps(s: seq<Iocb>): (ts: seq<TimeVal>)
    reads set i | 0 <= i < |s| :: s[i].data
    ensures |ts| == |s| && forall i :: 0 <= i < |s| ==> ts[i] == StampOf(s[i])
  {
    if s == [] then [] else Stamps(s[..|s| - 1]) + [StampOf(s[|s| - 1])]
  }

  function Tiocbs(s: seq<Iocb>): set<Tiocb> {
    set i | 0 <= i < |s| :: s[i].data
  }

  /** The counter blocks the requests' handles are bound to. */
  function StatsOf(s: seq<Iocb>): set<CounterBlock>
    reads set i | 0 <= i < |s| :: s[i].data.vdiStats
  {
    set i | 0 <= i < |s| && s[i].data.vdiStats.stats != null :: s[i].data.vdiStats.stats
  }

  function Blocks(rs: seq<Req>): set<CounterBlock> {
    set i | 0 <= i < |rs| :: rs[i].block
  }

  /** The current values of the blocks `bs`. */
  ghost function Snapshot(bs: set<CounterBlock>): (m: map<CounterBlock, Block>)
    reads bs
    ensures m.Keys == bs
  {
    map b | b in bs :: b.Value()
  }

  // ---------------------------------------------------------------------
  // Specification of a batch: the value of one block, request by request

  /** The value of block `b`, starting at `v`, after the submit hook has
      processed `rs` in order. */
  function AfterSubmit(v: Block, rs: seq<Req>, b: CounterBlock): Block {
    if rs == [] then v
    else
      var w := AfterSubmit(v, rs[..|rs| - 1], b);
      var last := rs[|rs| - 1];
      if last.block == b then Submitted(w, last.op) else w
  }

  /** The value of block `b`, starting at `v`, after the completion hook,
      run at time `end`, has processed `rs`, submitted at `stamps`, in order. */
  function AfterComplete(v: Block, rs: seq<Req>, stamps: seq<TimeVal>, b: CounterBlock, end: TimeVal): Block
    requires |stamps| == |rs|
  {
    if rs == [] then v
    else
      var n := |rs| - 1;
      var w := AfterComplete(v, rs[..n], stamps[..n], b, end);
      if rs[n].block == b then Completed(w, rs[n].op, rs[n].nbytes, Interval(stamps[n], end)) else w
  }

  // ---------------------------------------------------------------------
  // Counts and sums over a batch

  /** How many requests of `rs` refer to block `b`. */
  function Refs(rs: seq<Req>, b: CounterBlock): nat {
    if rs == [] then 0
    else Refs(rs[..|rs| - 1], b) + (if rs[|rs| - 1].block == b then 1 else 0)
  }

  /** How many requests of `rs` with opcode `op` refer to block `b`. */
  function OpCount(rs: seq<Req>, b: CounterBlock, op: Opcode): nat {
    if rs == [] then 0
    else OpCount(rs[..|rs| - 1], b, op) + (if rs[|rs| - 1].block == b && rs[|rs| - 1].op == op then 1 else 0)
  }

  /** Bytes requested by the requests of `rs` with opcode `op` on `b`. */
  function ByteSum(rs: seq<Req>, b: CounterBlock, op: Opcode): nat {
    if rs == [] then 0
    else
      var r := rs[|rs| - 1];
      ByteSum(rs[..|rs| - 1], b, op) + (if r.block == b && r.op == op then r.nbytes else 0)
  }

  /** Whole sectors, request by request, of the requests of `rs` with opcode `op` on `b`. */
  function SectorSum(rs: seq<Req>, b: CounterBlock, op: Opcode): nat {
    if rs == [] then 0
    else
      var r := rs[|rs| - 1];
      SectorSum(rs[..|rs| - 1], b, op) + (if r.block == b && r.op == op then SectorsIn(r.nbytes) else 0)
  }

  /** Intervals, as the completion hook at `end` computes them, of the
      requests of `rs` (submitted at `stamps`) with opcode `op` on `b`. */
  function TickSum(rs: seq<Req>, stamps: seq<TimeVal>, b: CounterBlock, op: Opcode, end: TimeVal): int
    requires |stamps| == |rs|
  {
    if rs == [] then 0
    else
      var n := |rs| - 1;
      TickSum(rs[..n], stamps[..n], b, op, end) + (if rs[n].block == b && rs[n].op == op then Interval(stamps[n], end) else 0)
  }

  // ---------------------------------------------------------------------
  // What a submit batch does to a block

  /** Submitting a batch adds to block `b` the number of its PREAD
      requests on `b` as reads and the number of its other requests on `b`
      as writes, and changes nothing else. */
  lemma {:induction false} AfterSubmitCounts(v: Block, rs: seq<Req>, b: CounterBlock)
    ensures OpCount(rs, b, Pread) <= Refs(rs, b)
    ensures AfterSubmit(v, rs, b).readReqsSubmitted == v.readReqsSubmitted + OpCount(rs, b, Pread)
    ensures AfterSubmit(v, rs, b).writeReqsSubmitted == v.writeReqsSubmitted + Refs(rs, b) - OpCount(rs, b, Pread)
    ensures SameExceptSubmitted(v, AfterSubmit(v, rs, b))
  {
    if rs != [] {
      AfterSubmitCounts(v, rs[..|rs| - 1], b);
    }
  }

  /** Processing a batch in one submit call is the same as processing it
      split into two consecutive calls. */
  lemma {:induction false} AfterSubmitSplit(v: Block, rs1: seq<Req>, rs2: seq<Req>, b: CounterBlock)
    ensures AfterSubmit(v, rs1 + rs2, b) == AfterSubmit(AfterSubmit(v, rs1, b), rs2, b)
  {
    if rs2 == [] {
      assert rs1 + rs2 == rs1;
    } else {
      var init := rs2[..|rs2| - 1];
      assert (rs1 + rs2)[..|rs1 + rs2| - 1] == rs1 + init;
      AfterSubmitSplit(v, rs1, init, b);
    }
  }

  /** `after` holds, for every block of `bs`, the value a submit batch `rs`
      leaves when `before` holds the value it started from. */
  predicate SubmitsTo(bs: seq<CounterBlock>, before: map<CounterBlock, Block>, after: map<CounterBlock, Block>, rs: seq<Req>) {
    forall b :: b in bs ==> b in before && b in after && after[b] == AfterSubmit(before[b], rs, b)
  }

  /** `readReqsSubmitted + writeReqsSubmitted` summed over the blocks `bs`. */
  function SubmittedOver(bs: seq<CounterBlock>, m: map<CounterBlock, Block>): nat
    requires forall b :: b in bs ==> b in m
  {
    if bs == [] then 0
    else m[bs[0]].readReqsSubmitted + m[bs[0]].writeReqsSubmitted + SubmittedOver(bs[1..], m)
  }

  /** The requests referring to each block of `bs`, added up. */
  function RefsOver(bs: seq<CounterBlock>, rs: seq<Req>): nat {
    if bs == [] then 0 else Refs(rs, bs[0]) + RefsOver(bs[1..], rs)
  }

  /** Over any list of blocks, a submit batch raises the submitted
      counters by the number of references to those blocks. */
  lemma {:induction false} SubmittedOverShift(bs: seq<CounterBlock>, before: map<CounterBlock, Block>,
                                              after: map<CounterBlock, Block>, rs: seq<Req>)
    requires SubmitsTo(bs, before, after, rs)
    ensures SubmittedOver(bs, after) == SubmittedOver(bs, before) + RefsOver(bs, rs)
  {
    if bs != [] {
      AfterSubmitCounts(before[bs[0]], rs, bs[0]);
      assert SubmitsTo(bs[1..], before, after, rs);
      SubmittedOverShift(bs[1..], before, after, rs);
    }
  }

  /** How many times `b` is listed in `bs`. */
  function Occurrences(bs: seq<CounterBlock>, b: CounterBlock): nat {
    if bs == [] then 0 else (if bs[0] == b then 1 else 0) + Occurrences(bs[1..], b)
  }

  lemma {:induction false} OccurrencesOfDistinct(bs: seq<CounterBlock>, b: CounterBlock)
    requires forall i, j :: 0 <= i < j < |bs| ==> bs[i] != bs[j]
    ensures Occurrences(bs, b) == (if b in bs then 1 else 0)
  {
    if bs != [] {
      OccurrencesOfDistinct(bs[1..], b);
      assert b in bs <==> b == bs[0] || b in bs[1..];
    }
  }

  lemma {:induction false} RefsOverSnoc(bs: seq<CounterBlock>, rs: seq<Req>, r: Req)
    ensures RefsOver(bs, rs + [r]) == RefsOver(bs, rs) + Occurrences(bs, r.block)
  {
    assert (rs + [r])[..|rs|] == rs;
    if bs != [] {
      RefsOverSnoc(bs[1..], rs, r);
    }
  }

  lemma {:induction false} RefsOverNone(bs: seq<CounterBlock>)
    ensures RefsOver(bs, []) == 0
  {
    if bs != [] {
      RefsOverNone(bs[1..]);
    }
  }

  /** Over the distinct blocks a batch refers to, every request is counted
      exactly once. */
  lemma {:induction false} RefsOverCovering(bs: seq<CounterBlock>, rs: seq<Req>)
    requires forall i, j :: 0 <= i < j < |bs| ==> bs[i] != bs[j]
    requires forall r :: r in rs ==> r.block in bs
    ensures RefsOver(bs, rs) == |rs|
  {
    if rs == [] {
      RefsOverNone(bs);
    } else {
      var last := rs[|rs| - 1];
      var init := rs[..|rs| - 1];
      assert rs == init + [last];
      RefsOverCovering(bs, init);
      RefsOverSnoc(bs, init, last);
      OccurrencesOfDistinct(bs, last.block);
    }
  }

  /** Summed over the distinct counter blocks a batch refers to, the submit
      hook raises `readReqsSubmitted + writeReqsSubmitted` by exactly the
      batch size. */
  lemma SubmittedTotal(bs: seq<CounterBlock>, before: map<CounterBlock, Block>,
                       after: map<CounterBlock, Block>, rs: seq<Req>)
    requires forall i, j :: 0 <= i < j < |bs| ==> bs[i] != bs[j]
    requires SubmitsTo(bs, before, after, rs)
    requires forall r :: r in rs ==> r.block in bs
    ensures SubmittedOver(bs, after) == SubmittedOver(bs, before) + |rs|
  {
    SubmittedOverShift(bs, before, after, rs);
    RefsOverCovering(bs, rs);
  }

  // ---------------------------------------------------------------------
  // What a completion batch does to a block

  /** Completing a batch adds, on `b`, one completion per PREAD (PWRITE)
      request, its whole sectors and its interval to the read (write)
      counters; requests with other opcodes contribute nothing, and the
      submitted and merged counters do not change. */
  lemma {:induction false} AfterCompleteSums(v: Block, rs: seq<Req>, stamps: seq<TimeVal>, b: CounterBlock, end: TimeVal)
    requires |stamps| == |rs|
    ensures var r := AfterComplete(v, rs, stamps, b, end);
      r.readReqsCompleted == v.readReqsCompleted + OpCount(rs, b, Pread) &&
      r.readSectors == v.readSectors + SectorSum(rs, b, Pread) &&
      r.readTotalTicks == v.readTotalTicks + TickSum(rs, stamps, b, Pread, end) &&
      r.writeReqsCompleted == v.writeReqsCompleted + OpCount(rs, b, Pwrite) &&
      r.writeSectors == v.writeSectors + SectorSum(rs, b, Pwrite) &&
      r.writeTotalTicks == v.writeTotalTicks + TickSum(rs, stamps, b, Pwrite, end) &&
      r.readReqsSubmitted == v.readReqsSubmitted && r.writeReqsSubmitted == v.writeReqsSubmitted &&
      r.readReqsMerged == v.readReqsMerged && r.writeReqsMerged == v.writeReqsMerged
  {
    if rs != [] {
      var n := |rs| - 1;
      AfterCompleteSums(v, rs[..n], stamps[..n], b, end);
    }
  }

  /** The sector counters lose less than one sector per request: the
      sectors added for a batch, times the sector size, lie between the
      requested bytes minus `(DefaultSectorSize - 1)` per request and the
      requested bytes. */
  lemma {:induction false} SectorSumBounds(rs: seq<Req>, b: CounterBlock, op: Opcode)
    ensures SectorSum(rs, b, op) * DefaultSectorSize <= ByteSum(rs, b, op)
    ensures ByteSum(rs, b, op) <= SectorSum(rs, b, op) * DefaultSectorSize + OpCount(rs, b, op) * (DefaultSectorSize - 1)
  {
    if rs != [] {
      SectorSumBounds(rs[..|rs| - 1], b, op);
    }
  }

  /** Completions reaped at the same time `end` in one call or in two
      consecutive calls leave a block with the same value. */
  lemma {:induction false} AfterCompleteSplit(v: Block, rs1: seq<Req>, ts1: seq<TimeVal>,
                                              rs2: seq<Req>, ts2: seq<TimeVal>, b: CounterBlock, end: TimeVal)
    requires |ts1| == |rs1| && |ts2| == |rs2|
    ensures AfterComplete(v, rs1 + rs2, ts1 + ts2, b, end) ==
      AfterComplete(AfterComplete(v, rs1, ts1, b, end), rs2, ts2, b, end)
  {
    if rs2 == [] {
      assert rs1 + rs2 == rs1 && ts1 + ts2 == ts1;
    } else {
      var n := |rs2| - 1;
      assert (rs1 + rs2)[..|rs1 + rs2| - 1] == rs1 + rs2[..n];
      assert (ts1 + ts2)[..|ts1 + ts2| - 1] == ts1 + ts2[..n];
      AfterCompleteSplit(v, rs1, ts1, rs2[..n], ts2[..n], b, end);
    }
  }

  // ---------------------------------------------------------------------
  // The hooks

  /** One iteration of the submit loop, on request `i` of `iocbs`: stamp its
      context and bump the submitted counter of its block. `rs` are the
      requests of the batch, `bs` their blocks and `before` the blocks'
      values when the hook started: the iteration extends by one both the
      stamped prefix and the prefix of requests the blocks account for, and
      leaves every handle pointing where it did. */
  method SubmitStep(iocbs: seq<Iocb>, i: nat, start: TimeVal,
                    ghost rs: seq<Req>, ghost bs: set<CounterBlock>, ghost before: map<CounterBlock, Block>)
    requires i < |rs| <= |iocbs|
    requires forall j {:trigger BlockOf(iocbs[j])} :: 0 <= j < |rs| ==> BlockOf(iocbs[j]) == rs[j].block
    requires rs[i].op == iocbs[i].opcode && rs[i].block in bs && bs <= before.Keys
    requires forall j {:trigger StampOf(iocbs[j])} :: 0 <= j < i ==> StampOf(iocbs[j]) == start
    requires forall b :: b in bs ==> b.Value() == AfterSubmit(before[b], rs[..i], b)
    modifies iocbs[i].data, iocbs[i].data.vdiStats.stats
    ensures forall j {:trigger BlockOf(iocbs[j])} :: 0 <= j < |rs| ==> BlockOf(iocbs[j]) == rs[j].block
    ensures forall j {:trigger StampOf(iocbs[j])} :: 0 <= j < i + 1 ==> StampOf(iocbs[j]) == start
    ensures forall b :: b in bs ==> b.Value() == AfterSubmit(before[b], rs[..i + 1], b)
  {
    assert rs[i].block == BlockOf(iocbs[i]);
    var iocb := iocbs[i];
    var tiocb := iocb.data;
    tiocb.ts := start;
    var vdiStats := tiocb.vdiStats;
    if iocb.opcode == Pread {
      vdiStats.stats.readReqsSubmitted := vdiStats.stats.readReqsSubmitted + 1;
    } else {
      vdiStats.stats.writeReqsSubmitted := vdiStats.stats.writeReqsSubmitted + 1;
    }
    forall j | 0 <= j < i ensures StampOf(iocbs[j]) == start {
      if iocbs[j].data != tiocb {
        assert StampOf(iocbs[j]) == old(StampOf(iocbs[j]));
      }
    }
    assert rs[..i + 1][..i] == rs[..i];
    forall b | b in bs ensures b.Value() == AfterSubmit(before[b], rs[..i + 1], b) {
      if b != vdiStats.stats {
        assert b.Value() == old(b.Value());
      }
    }
  }

  /** `td_metrics_vdi_update_submit`: one clock reading `start` for the
      whole batch; every request's context is stamped with it, and every
      block the batch refers to ends up as `AfterSubmit` of its old value. */
  method UpdateSubmit(iocbs: seq<Iocb>, nreqs: int, start: TimeVal)
    requires nreqs <= |iocbs|
    requires Bound(Batch(iocbs, nreqs))
    modifies Tiocbs(Batch(iocbs, nreqs)), StatsOf(Batch(iocbs, nreqs))
    ensures forall i {:trigger StampOf(iocbs[i])} :: 0 <= i < nreqs ==> StampOf(iocbs[i]) == start
    ensures forall b :: b in old(Blocks(Views(Batch(iocbs, nreqs)))) ==>
      b.Value() == AfterSubmit(old(b.Value()), old(Views(Batch(iocbs, nreqs))), b)
  {
    ghost var rs := Views(Batch(iocbs, nreqs));
    ghost var bs := Blocks(rs);
    ghost var before := Snapshot(bs);
    var i := 0;
    while i < nreqs
      invariant 0 <= i <= |rs|
      invariant forall j {:trigger StampOf(iocbs[j])} :: 0 <= j < i ==> StampOf(iocbs[j]) == start
      invariant forall j {:trigger BlockOf(iocbs[j])} :: 0 <= j < |rs| ==> BlockOf(iocbs[j]) == rs[j].block
      invariant forall b :: b in bs ==> b.Value() == AfterSubmit(before[b], rs[..i], b)
    {
      assert rs[i].block in bs;
      SubmitStep(iocbs, i, start, rs, bs, before);
      i := i + 1;
    }
    assert rs[..i] == rs;
  }

  /** `td_metrics_vdi_update_merged`: one merged request bumps the merged
      counter for its opcode on its block. */
  method UpdateMerged(iocb: Iocb)
    requires iocb.data.vdiStats.stats != null
    modifies iocb.data.vdiStats.stats
    ensures iocb.data.vdiStats.stats.Value() == Merged(old(iocb.data.vdiStats.stats.Value()), iocb.opcode)
  {
    var tiocb := iocb.data;
    var vdiStats := tiocb.vdiStats;
    if iocb.opcode == Pread {
      vdiStats.stats.readReqsMerged := vdiStats.stats.readReqsMerged + 1;
    } else {
      vdiStats.stats.writeReqsMerged := vdiStats.stats.writeReqsMerged + 1;
    }
  }

  /** One iteration of the completion loop, on event `i`: for PREAD or
      PWRITE, the completion, whole sectors and interval are added to the
      request's block. As for `SubmitStep`, the blocks `bs` then account for
      one more request of `rs`, and handles and timestamps are left alone. */
  method CompleteStep(aioEvents: seq<IoEvent>, i: nat, end: TimeVal,
                      ghost rs: seq<Req>, ghost stamps: seq<TimeVal>,
                      ghost bs: set<CounterBlock>, ghost before: map<CounterBlock, Block>)
    requires i < |rs| == |stamps| <= |aioEvents|
    requires forall j {:trigger BlockOf(aioEvents[j].obj)} :: 0 <= j < |rs| ==> BlockOf(aioEvents[j].obj) == rs[j].block
    requires forall j {:trigger StampOf(aioEvents[j].obj)} :: 0 <= j < |rs| ==> StampOf(aioEvents[j].obj) == stamps[j]
    requires rs[i].op == aioEvents[i].obj.opcode && rs[i].nbytes == aioEvents[i].obj.nbytes
    requires rs[i].block in bs && bs <= before.Keys
    requires forall b :: b in bs ==> b.Value() == AfterComplete(before[b], rs[..i], stamps[..i], b, end)
    modifies aioEvents[i].obj.data.vdiStats.stats
    ensures forall j {:trigger BlockOf(aioEvents[j].obj)} :: 0 <= j < |rs| ==> BlockOf(aioEvents[j].obj) == rs[j].block
    ensures forall j {:trigger StampOf(aioEvents[j].obj)} :: 0 <= j < |rs| ==> StampOf(aioEvents[j].obj) == stamps[j]
    ensures forall b :: b in bs ==> b.Value() == AfterComplete(before[b], rs[..i + 1], stamps[..i + 1], b, end)
  {
    assert rs[i].block == BlockOf(aioEvents[i].obj) && stamps[i] == StampOf(aioEvents[i].obj);
    var iocb := aioEvents[i].obj;
    var tiocb := iocb.data;
    var vdiStats := tiocb.vdiStats;
    var interval := end.usec - tiocb.ts.usec;
    if iocb.opcode == Pread {
      vdiStats.stats.readReqsCompleted := vdiStats.stats.readReqsCompleted + 1;
      vdiStats.stats.readSectors := vdiStats.stats.readSectors + iocb.nbytes / DefaultSectorSize;
      vdiStats.stats.readTotalTicks := vdiStats.stats.readTotalTicks + interval;
    } else if iocb.opcode == Pwrite {
      vdiStats.stats.writeReqsCompleted := vdiStats.stats.writeReqsCompleted + 1;
      vdiStats.stats.writeSectors := vdiStats.stats.writeSectors + iocb.nbytes / DefaultSectorSize;
      vdiStats.stats.writeTotalTicks := vdiStats.stats.writeTotalTicks + interval;
    }
    assert rs[..i + 1][..i] == rs[..i] && stamps[..i + 1][..i] == stamps[..i];
    forall b | b in bs ensures b.Value() == AfterComplete(before[b], rs[..i + 1], stamps[..i + 1], b, end) {
      if b != vdiStats.stats {
        assert b.Value() == old(b.Value());
      }
    }
  }

  /** `td_metrics_vdi_update_completed`: one clock reading `end` for the
      whole batch; every block the batch refers to ends up as
      `AfterComplete` of its old value, given the requests' timestamps. */
  method UpdateCompleted(aioEvents: seq<IoEvent>, n: int, end: TimeVal)
    requires n <= |aioEvents|
    requires Bound(Objs(Batch(aioEvents, n)))
    modifies StatsOf(Objs(Batch(aioEvents, n)))
    ensures forall b :: b in old(Blocks(Views(Objs(Batch(aioEvents, n))))) ==>
      b.Value() == AfterComplete(old(b.Value()), old(Views(Objs(Batch(aioEvents, n)))),
                                 old(Stamps(Objs(Batch(aioEvents, n)))), b, end)
  {
    ghost var rs := Views(Objs(Batch(aioEvents, n)));
    ghost var stamps := Stamps(Objs(Batch(aioEvents, n)));
    ghost var bs := Blocks(rs);
    ghost var before := Snapshot(bs);
    var i := 0;
    while i < n
      invariant 0 <= i <= |rs|
      invariant forall j {:trigger BlockOf(aioEvents[j].obj)} :: 0 <= j < |rs| ==> BlockOf(aioEvents[j].obj) == rs[j].block
      invariant forall j {:trigger StampOf(aioEvents[j].obj)} :: 0 <= j < |rs| ==> StampOf(aioEvents[j].obj) == stamps[j]
      invariant forall b :: b in bs ==> b.Value() == AfterComplete(before[b], rs[..i], stamps[..i], b, end)
    {
      assert rs[i].block in bs;
      CompleteStep(aioEvents, i, end, rs, stamps, bs, before);
      i := i + 1;
    }
    assert rs[..i] == rs && stamps[..i] == stamps;
  }
}
