/** Shared vocabulary of the tapdisk metrics model: optional values, the
    outcomes of the operating-system calls the core makes, I/O opcodes,
    timestamps and the two size constants. */
module MetricsTypes {

  datatype Option<T> = None | Some(value: T)

  /** An OS error code as left in `errno` by a failing call (always positive). */
  type Errno = e: int | e > 0 witness 1

  /** One memory page: the size of every stats region. */
  const PageSize: nat := 4096

  /** The sector size used to convert completed bytes into sectors. */
  const DefaultSectorSize: nat := 512

  const UsecPerSec: int := 1000000

  /** The libaio command of a request: only PREAD and PWRITE are told apart
      by the metrics hooks; every other command is `OtherCmd`. */
  datatype Opcode = Pread | Pwrite | OtherCmd

  /** A `struct timeval` as returned by gettimeofday. */
  datatype TimeVal = TimeVal(sec: int, usec: int)

  /** What gettimeofday can return: the microsecond part is below one second. */
  predicate ValidTime(t: TimeVal) {
    0 <= t.usec < UsecPerSec
  }

  /** The real time elapsed from `t0` to `t1`, in microseconds. */
  function ElapsedUsec(t0: TimeVal, t1: TimeVal): int {
    (t1.sec - t0.sec) * UsecPerSec + (t1.usec - t0.usec)
  }

  /** Outcome of `asprintf` building a path string. */
  datatype AllocOutcome = Allocated(path: string) | AllocFailed(errno: Errno)

  /** Outcome of `mkdir` on the root directory: success, failure with EEXIST,
      or any other failure. */
  datatype MkdirOutcome = MkdirOk | MkdirExists | MkdirFailed

  /** Outcome of `rmdir` on the root directory. */
  datatype RmdirOutcome = RmdirOk | RmdirFailed
}
