/** The two-level lifecycle of the metrics subsystem: the process-wide root
    directory (`td_metrics.path`) and, per device, a stats handle owning one
    shared-memory region (`shm.path`, `shm.size`, the mapping) and the
    `stats` pointer into it. Every OS primitive is an outcome received as an
    argument. */
module MetricsLifecycle {
  import opened MetricsTypes
  import opened CounterBlocks

  /** Outcome of `shm_create`: on success the mapping holds a counter block. */
  datatype CreateOutcome = Created(mem: CounterBlock) | CreateFailed(errno: Errno)

  /** Outcome of `shm_destroy`. */
  datatype DestroyOutcome = Destroyed | DestroyFailed(errno: Errno)

  /** The root of all regions: the per-process metrics directory. */
  class MetricsRoot {
    var path: Option<string>

    /** The static root starts zeroed: no path. */
    constructor ()
      ensures path == None
    {
      path := None;
    }

    /** `td_metrics_start`. The path is built from the process id; a failed
        allocation clears it and returns errno. Once allocated the path stays
        set whatever `mkdir` does: an existing directory is emptied and reused
        (result 0), any other failure returns -1. */
    method Start(alloc: AllocOutcome, mkdir: MkdirOutcome) returns (err: int)
      modifies this
      ensures alloc.AllocFailed? ==> path == None && err == alloc.errno
      ensures alloc.Allocated? ==> path == Some(alloc.path)
      ensures alloc.Allocated? ==> (err == 0 <==> !mkdir.MkdirFailed?)
      ensures alloc.Allocated? && mkdir.MkdirFailed? ==> err == -1
    {
      match alloc
      case AllocFailed(e) =>
        path := None;
        err := e;
      case Allocated(p) =>
        path := Some(p);
        match mkdir
        case MkdirOk =>
          err := 0;
        case MkdirExists =>
          // the stale directory of an earlier instance is emptied and reused
          err := 0;
        case MkdirFailed =>
          err := -1;
    }

    /** `td_metrics_stop`. Nothing happens when the root was never started;
        otherwise the directory is emptied and removed, and the path is
        cleared only when `rmdir` succeeds. */
    method Stop(rmdir: RmdirOutcome)
      modifies this
      ensures old(path) == None ==> path == None
      ensures old(path) != None && rmdir == RmdirOk ==> path == None
      ensures old(path) != None && rmdir == RmdirFailed ==> path == old(path)
    {
      if path == None {
        return;
      }
      if rmdir == RmdirFailed {
        return;
      }
      path := None;
    }
  }

  /** A shared-memory region descriptor: path, size and mapping. */
  datatype ShmRegion = ShmRegion(path: Option<string>, size: nat, mem: CounterBlock?)

  /** The descriptor as `shm_init` leaves it. */
  const UnboundRegion := ShmRegion(None, 0, null)

  /** A VDI or VBD stats handle (`stats_t`). */
  class StatsHandle {
    var shm: ShmRegion
    var stats: CounterBlock?

    constructor ()
      ensures shm == UnboundRegion && stats == null
    {
      shm := UnboundRegion;
      stats := null;
    }

    /** The state a handle start leaves, given the two outcomes and the
        `stats` pointer it held before: a failed allocation leaves the region
        unbound, a failed `shm_create` leaves the path set with a page size but
        binds nothing, and only a created segment binds `stats` to the mapping. */
    ghost predicate StartedAs(alloc: AllocOutcome, create: CreateOutcome, prevStats: CounterBlock?, err: int)
      reads this
    {
      match alloc
      case AllocFailed(e) =>
        shm == UnboundRegion && stats == prevStats && err == e
      case Allocated(p) =>
        match create
        case CreateFailed(e) =>
          shm == ShmRegion(Some(p), PageSize, null) && stats == prevStats && err == e
        case Created(m) =>
          shm == ShmRegion(Some(p), PageSize, m) && stats == m && err == 0
    }

    /** The body shared by `td_metrics_vdi_start` and `td_metrics_vbd_start`,
        which differ only in the path template behind `alloc`. */
    method StartRegion(alloc: AllocOutcome, create: CreateOutcome) returns (err: int)
      modifies this
      ensures StartedAs(alloc, create, old(stats), err)
      ensures err == 0 <==> alloc.Allocated? && create.Created?
    {
      shm := UnboundRegion;
      if alloc.AllocFailed? {
        shm := shm.(path := None);
        err := alloc.errno;
        return;
      }
      shm := shm.(path := Some(alloc.path));
      shm := shm.(size := PageSize);
      if create.CreateFailed? {
        err := create.errno;
        return;
      }
      shm := shm.(mem := create.mem);
      stats := shm.mem;
      err := 0;
    }

    /** `td_metrics_vdi_start`: `alloc` is the outcome of formatting the region
        path from the root path and the device minor number. The root must
        have been started. */
    method VdiStart(root: MetricsRoot, minor: int, alloc: AllocOutcome, create: CreateOutcome) returns (err: int)
      requires root.path != None
      modifies this
      ensures StartedAs(alloc, create, old(stats), err)
      ensures err == 0 <==> alloc.Allocated? && create.Created?
    {
      err := StartRegion(alloc, create);
    }

    /** `td_metrics_vbd_start`: as `VdiStart`, with the path formatted from
        the root path, the domain id and the device id. */
    method VbdStart(root: MetricsRoot, domain: int, id: int, alloc: AllocOutcome, create: CreateOutcome) returns (err: int)
      requires root.path != None
      modifies this
      ensures StartedAs(alloc, create, old(stats), err)
      ensures err == 0 <==> alloc.Allocated? && create.Created?
    {
      err := StartRegion(alloc, create);
    }

    /** The body shared by `td_metrics_vdi_stop` and `td_metrics_vbd_stop`:
        the path is cleared whatever `shm_destroy` reports, and that report
        (0 or errno) is the result. */
    method StopRegion(destroy: DestroyOutcome) returns (err: int)
      requires shm.path != None
      modifies this
      ensures shm == old(shm).(path := None) && stats == old(stats)
      ensures err == (if destroy.Destroyed? then 0 else destroy.errno)
    {
      err := if destroy.Destroyed? then 0 else destroy.errno;
      shm := shm.(path := None);
    }

    /** `td_metrics_vdi_stop`. A second stop violates the precondition. */
    method VdiStop(destroy: DestroyOutcome) returns (err: int)
      requires shm.path != None
      modifies this
      ensures shm == old(shm).(path := None) && stats == old(stats)
      ensures err == (if destroy.Destroyed? then 0 else destroy.errno)
    {
      err := StopRegion(destroy);
    }

    /** `td_metrics_vbd_stop`. */
    method VbdStop(destroy: DestroyOutcome) returns (err: int)
      requires shm.path != None
      modifies this
      ensures shm == old(shm).(path := None) && stats == old(stats)
      ensures err == (if destroy.Destroyed? then 0 else destroy.errno)
    {
      err := StopRegion(destroy);
    }
  }
}
