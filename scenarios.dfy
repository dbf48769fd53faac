/** Whole-lifecycle runs of the metrics subsystem, as tapdisk drives it: the
    root directory is set up once, a device's stats handle is started, the
    I/O hooks run over its requests, and everything is stopped again. Each
    run fixes the OS outcomes and states what the counters and paths are. */
module Scenarios {
  import opened MetricsTypes
  import opened CounterBlocks
  import opened MetricsLifecycle
  import opened IoHooks

  /** A root whose directory was left over by an earlier tapdisk with the
      same pid is reused; a failed `rmdir` keeps the path, so a second stop
      can still remove the directory. */
  method RootReuseAndRetry(dir: string) returns (startErr: int, afterFailedStop: Option<string>, afterRetry: Option<string>)
    ensures startErr == 0
    ensures afterFailedStop == Some(dir)
    ensures afterRetry == None
  {
    var root := new MetricsRoot();
    startErr := root.Start(Allocated(dir), MkdirExists);
    root.Stop(RmdirFailed);
    afterFailedStop := root.path;
    root.Stop(RmdirOk);
    afterRetry := root.path;
  }

  /** A handle whose segment could not be created keeps its path, so it can
      (and must) still be stopped; the stop reports the destroy error and
      clears the path. */
  method HandleCreateFailure(dir: string, region: string, createErr: Errno, destroyErr: Errno)
    returns (startErr: int, stopErr: int, bound: bool, path: Option<string>)
    ensures startErr == createErr && !bound
    ensures stopErr == destroyErr && path == None
  {
    var root := new MetricsRoot();
    var _ := root.Start(Allocated(dir), MkdirOk);
    var h := new StatsHandle();
    startErr := h.VdiStart(root, 0, Allocated(region), CreateFailed(createErr));
    bound := h.stats != null;
    stopErr := h.VdiStop(DestroyFailed(destroyErr));
    path := h.shm.path;
  }

  /** A submit batch over any mix of handles: summed over the distinct
      counter blocks it refers to, `readReqsSubmitted + writeReqsSubmitted`
      grows by exactly the number of requests submitted. */
  method SubmitBatch(iocbs: seq<Iocb>, nreqs: int, start: TimeVal, ghost bs: seq<CounterBlock>)
    requires nreqs <= |iocbs|
    requires Bound(Batch(iocbs, nreqs))
    requires forall i, j :: 0 <= i < j < |bs| ==> bs[i] != bs[j]
    requires forall b :: b in bs <==> b in Blocks(Views(Batch(iocbs, nreqs)))
    modifies Tiocbs(Batch(iocbs, nreqs)), StatsOf(Batch(iocbs, nreqs))
    ensures SubmittedOver(bs, Snapshot(set b | b in bs)) ==
      old(SubmittedOver(bs, Snapshot(set b | b in bs))) + (if nreqs < 0 then 0 else nreqs)
  {
    ghost var blocks := set b | b in bs;
    ghost var before := Snapshot(blocks);
    ghost var rs := Views(Batch(iocbs, nreqs));
    UpdateSubmit(iocbs, nreqs, start);
    ghost var after := Snapshot(blocks);
    assert SubmitsTo(bs, before, after, rs);
    forall r | r in rs ensures r.block in bs {
      var i :| 0 <= i < |rs| && rs[i] == r;
      assert rs[i].block in Blocks(rs);
    }
    SubmittedTotal(bs, before, after, rs);
  }

  /** One request on a bound handle, submitted at `t0` and completed at
      `t1` as a batch of its own: its block sees exactly one submission and
      one completion, and its context keeps the submission time. */
  method SubmitThenComplete(io: Iocb, t0: TimeVal, t1: TimeVal)
    requires BlockOf(io) != null
    modifies io.data, BlockOf(io)
    ensures StampOf(io) == t0
    ensures BlockOf(io).Value() == Completed(Submitted(old(BlockOf(io).Value()), io.opcode), io.opcode, io.nbytes, Interval(t0, t1))
  {
    var mem := BlockOf(io);
    var r := View(io);
    assert Batch([io], 1) == [io];
    assert Views([io]) == [r];
    assert Blocks([r]) == {mem};
    assert Tiocbs([io]) == {io.data};
    ghost var v0 := mem.Value();
    label pre:
    UpdateSubmit([io], 1, t0);
    assert old@pre(Views(Batch([io], 1))) == [r];
    assert mem in old@pre(Blocks(Views(Batch([io], 1))));
    assert [r][..0] == [];
    assert AfterSubmit(v0, [r], mem) == Submitted(v0, io.opcode);
    ghost var w := mem.Value();
    assert StampOf([io][0]) == t0;
    assert Objs(Batch([IoEvent(io)], 1)) == [io];
    assert Views([io]) == [r];
    assert Stamps([io]) == [t0];
    label submitted:
    UpdateCompleted([IoEvent(io)], 1, t1);
    assert old@submitted(Views(Objs(Batch([IoEvent(io)], 1)))) == [r];
    assert old@submitted(Stamps(Objs(Batch([IoEvent(io)], 1)))) == [t0];
    assert mem in old@submitted(Blocks(Views(Objs(Batch([IoEvent(io)], 1)))));
    assert [t0][..0] == [];
    assert AfterComplete(w, [r], [t0], mem, t1) == Completed(w, io.opcode, io.nbytes, Interval(t0, t1));
  }

  /** One 4096-byte PWRITE on a VBD handle, submitted at `t0` and completed
      at `t1`: one submission, one completion, eight sectors and the
      microsecond difference as ticks; every read counter stays zero. */
  method OneWrite(dir: string, region: string, t0: TimeVal, t1: TimeVal) returns (v: Block, stopErr: int)
    ensures v == ZeroBlock.(writeReqsSubmitted := 1, writeReqsCompleted := 1, writeSectors := 8,
                            writeTotalTicks := t1.usec - t0.usec)
    ensures stopErr == 0
  {
    var root := new MetricsRoot();
    var _ := root.Start(Allocated(dir), MkdirOk);
    var h := new StatsHandle();
    var mem := new CounterBlock();
    var _ := h.VbdStart(root, 7, 3, Allocated(region), Created(mem));
    var t := new Tiocb(h);
    var io := new Iocb(Pwrite, 4096, t);
    SubmitThenComplete(io, t0, t1);
    v := mem.Value();
    assert SectorsIn(4096) == 8;
    assert v == ZeroBlock.(writeReqsSubmitted := 1).(writeReqsCompleted := 1, writeSectors := 8, writeTotalTicks := Interval(t0, t1));
    stopErr := h.VbdStop(Destroyed);
    root.Stop(RmdirOk);
  }

  /** Two requests whose handles share one counter block, submitted as one
      batch: the block sees both submissions, in order. */
  method SubmitPair(x: Iocb, y: Iocb, t0: TimeVal)
    requires BlockOf(x) != null && BlockOf(y) == BlockOf(x)
    modifies x.data, y.data, BlockOf(x)
    ensures BlockOf(x).Value() == Submitted(Submitted(old(BlockOf(x).Value()), x.opcode), y.opcode)
  {
    var mem := BlockOf(x);
    var rs := [View(x), View(y)];
    assert Batch([x, y], 2) == [x, y];
    assert Views([x, y]) == rs;
    assert Blocks(rs) == {mem};
    assert Tiocbs([x, y]) == {x.data, y.data};
    ghost var v0 := mem.Value();
    label pre:
    UpdateSubmit([x, y], 2, t0);
    assert old@pre(Views(Batch([x, y], 2))) == rs;
    assert mem in old@pre(Blocks(Views(Batch([x, y], 2))));
    assert rs[..1] == [rs[0]] && [rs[0]][..0] == [];
    assert AfterSubmit(v0, rs[..1], mem) == Submitted(v0, x.opcode);
    assert AfterSubmit(v0, rs, mem) == Submitted(Submitted(v0, x.opcode), y.opcode);
  }

  /** A read and a write on the same handle, submitted together: the
      shared block counts one of each, and a merge of the read bumps only
      the read merge counter. */
  method SharedHandle(region: string, root: MetricsRoot, t0: TimeVal) returns (v: Block)
    requires root.path != None
    ensures v == ZeroBlock.(readReqsSubmitted := 1, writeReqsSubmitted := 1, readReqsMerged := 1)
  {
    var h := new StatsHandle();
    var mem := new CounterBlock();
    var _ := h.VdiStart(root, 1, Allocated(region), Created(mem));
    var t1 := new Tiocb(h);
    var t2 := new Tiocb(h);
    var rd := new Iocb(Pread, 512, t1);
    var wr := new Iocb(Pwrite, 512, t2);
    SubmitPair(rd, wr, t0);
    UpdateMerged(rd);
    v := mem.Value();
  }
}
