/** The per-tick store updates of `src-tauri/src/metrics/service.rs`. Each of
    the three acquisition loops, once per tick, writes its reader's outcome and
    a timestamp into the shared snapshot. A failed read is written too: the
    field becomes `None`, the previous value is not kept. */
module MetricsService {
  import opened Wrappers

  /** The snapshot the acquisition loops write and the renderer reads. It is not
      defined in the source; the fields are the ones
      service.rs and tray_updater.rs use. Timestamps (`Instant`) are opaque
      natural numbers supplied by the caller. */
  datatype MetricsSnapshot = MetricsSnapshot(
    cpuPct: Option<real>,
    cpuAt: Option<nat>,
    memPressurePct: Option<real>,
    memAt: Option<nat>,
    nwMs: Option<real>,
    nwAt: Option<nat>)

  /** What `tokio::time::timeout` yields: the deadline passed, or the future
      finished with its own output. */
  datatype Timed<T> = Elapsed | Completed(output: T)

  /** `timeout(..).await.ok().and_then(|r| r.ok())` (service.rs:49-55): a value
      only when the read finished in time and succeeded. */
  function TimedValue<E>(t: Timed<Result<real, E>>): (v: Option<real>)
    ensures v.Some? <==> t.Completed? && t.output.Ok?
    ensures v.Some? ==> v.value == t.output.value
  {
    match t
    case Elapsed => None
    case Completed(r) => OkValue(r)
  }

  /** `SharedMetrics`: the snapshot behind its lock. The lock, the timers and
      the spawned tasks are not modelled; each method is one loop iteration
      after the reader has returned. */
  class SharedMetrics {
    var cpuPct: Option<real>
    var cpuAt: Option<nat>
    var memPressurePct: Option<real>
    var memAt: Option<nat>
    var nwMs: Option<real>
    var nwAt: Option<nat>

    /** A copy of the whole snapshot, as `metrics.read().await.clone()` takes it. */
    function Read(): MetricsSnapshot
      reads this
    {
      MetricsSnapshot(cpuPct, cpuAt, memPressurePct, memAt, nwMs, nwAt)
    }

    constructor (init: MetricsSnapshot)
      ensures Read() == init
    {
      cpuPct, cpuAt := init.cpuPct, init.cpuAt;
      memPressurePct, memAt := init.memPressurePct, init.memAt;
      nwMs, nwAt := init.nwMs, init.nwAt;
    }

    /** One CPU tick (service.rs:17-21): the read's value, or `None` when it
        failed, and the time of the write. */
    method CpuTick<E>(read: Result<real, E>, now: nat)
      modifies this
      ensures Read() == old(Read()).(cpuPct := OkValue(read), cpuAt := Some(now))
      ensures read.Err? ==> cpuPct == None
      ensures read.Ok? ==> cpuPct == Some(read.value)
    {
      var v := OkValue(read);
      cpuPct := v;
      cpuAt := Some(now);
    }

    /** One memory tick (service.rs:32-36). */
    method MemTick<E>(read: Result<real, E>, now: nat)
      modifies this
      ensures Read() == old(Read()).(memPressurePct := OkValue(read), memAt := Some(now))
      ensures read.Err? ==> memPressurePct == None
      ensures read.Ok? ==> memPressurePct == Some(read.value)
    {
      var v := OkValue(read);
      memPressurePct := v;
      memAt := Some(now);
    }

    /** One network tick (service.rs:47-59): the read is raced against the
        timeout, and a timeout stores `None` just as an error does. */
    method NwTick<E>(read: Timed<Result<real, E>>, now: nat)
      modifies this
      ensures Read() == old(Read()).(nwMs := TimedValue(read), nwAt := Some(now))
      ensures read.Elapsed? || read.output.Err? ==> nwMs == None
      ensures read.Completed? && read.output.Ok? ==> nwMs == Some(read.output.value)
    {
      var v := TimedValue(read);
      nwMs := v;
      nwAt := Some(now);
    }
  }
}
