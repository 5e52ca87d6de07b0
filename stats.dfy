/**
 * ServerStats: the mutable snapshot of one container's resource usage that
 * the stats endpoint returns. A fresh object is the canonical offline value.
 */
module Stats {
  import opened Outcomes

  /** The value held by a ServerStats object at one moment. */
  datatype Snapshot = Snapshot(
    cpuPercent: Option<string>,
    memoryUsage: Option<string>,
    netIO: Option<string>,
    blockIO: Option<string>,
    offline: bool,
    error: Option<string>)

  /** The placeholders a fresh ServerStats holds, offline and without an error. */
  const OfflineSnapshot: Snapshot :=
    Snapshot(Some("0%"), Some("0 MiB / 0 MiB"), Some("0 B / 0 B"), Some("0 B / 0 B"), true, None)

  /** The four display fields are still the placeholders of a fresh object. */
  predicate HasPlaceholderFigures(s: Snapshot)
  {
    && s.cpuPercent == OfflineSnapshot.cpuPercent
    && s.memoryUsage == OfflineSnapshot.memoryUsage
    && s.netIO == OfflineSnapshot.netIO
    && s.blockIO == OfflineSnapshot.blockIO
  }

  /**
   * The bean itself. Its getters return the fields, so a caller reads the
   * fields (or `Current()`) directly; each setter replaces one field.
   */
  class ServerStats {
    var cpuPercent: Option<string>
    var memoryUsage: Option<string>
    var netIO: Option<string>
    var blockIO: Option<string>
    var offline: bool
    var error: Option<string>

    function Current(): Snapshot
      reads this
    {
      Snapshot(cpuPercent, memoryUsage, netIO, blockIO, offline, error)
    }

    constructor ()
      ensures Current() == OfflineSnapshot
      ensures HasPlaceholderFigures(Current()) && offline && error.None?
    {
      cpuPercent := Some("0%");
      memoryUsage := Some("0 MiB / 0 MiB");
      netIO := Some("0 B / 0 B");
      blockIO := Some("0 B / 0 B");
      offline := true;
      error := None;
    }

    method SetCpuPercent(v: Option<string>)
      modifies this
      ensures Current() == old(Current()).(cpuPercent := v)
    {
      cpuPercent := v;
    }

    method SetMemoryUsage(v: Option<string>)
      modifies this
      ensures Current() == old(Current()).(memoryUsage := v)
    {
      memoryUsage := v;
    }

    method SetNetIO(v: Option<string>)
      modifies this
      ensures Current() == old(Current()).(netIO := v)
    {
      netIO := v;
    }

    method SetBlockIO(v: Option<string>)
      modifies this
      ensures Current() == old(Current()).(blockIO := v)
    {
      blockIO := v;
    }

    method SetOffline(v: bool)
      modifies this
      ensures Current() == old(Current()).(offline := v)
    {
      offline := v;
    }

    method SetError(v: Option<string>)
      modifies this
      ensures Current() == old(Current()).(error := v)
    {
      error := v;
    }
  }
}
