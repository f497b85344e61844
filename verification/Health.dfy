/** The node's sync-stall counter and its alert hysteresis, as properties of observation traces. */
module Health {
  import opened Options

  // ----- sync stall

  datatype Observation = Observation(isSynced: bool, vmBlock: nat, seqBlock: nat)

  /** What a check leaves for the next one; a missing record reads as all zero. */
  datatype SyncRecord = SyncRecord(stalledIntervalCount: nat, lastVmBlock: nat, lastSeqBlock: nat, isStalled: bool)

  const NO_RECORD := SyncRecord(0, 0, 0, false)

  method CheckNodeSyncStallStatus(record: SyncRecord, seen: Observation, maxStalledIntervals: nat)
    returns (next: SyncRecord)
    ensures next == StallStep(record, seen, maxStalledIntervals)
  {
    var count, vmBlock, seqBlock := record.stalledIntervalCount, record.lastVmBlock, record.lastSeqBlock;
    var isStalled := false;
    if seen.isSynced { return SyncRecord(0, 0, 0, isStalled); }
    if seen.vmBlock == vmBlock && seen.seqBlock == seqBlock {
      if count < maxStalledIntervals {
        count := count + 1;
      } else {
        isStalled := true;
      }
    } else {
      count := 0;
    }
    vmBlock, seqBlock := seen.vmBlock, seen.seqBlock;
    next := SyncRecord(count, vmBlock, seqBlock, isStalled);
  }

  function StallStep(r: SyncRecord, o: Observation, max: nat): SyncRecord {
    if o.isSynced then NO_RECORD
    else if o.vmBlock != r.lastVmBlock || o.seqBlock != r.lastSeqBlock then SyncRecord(0, o.vmBlock, o.seqBlock, false)
    else if r.stalledIntervalCount < max then SyncRecord(r.stalledIntervalCount + 1, o.vmBlock, o.seqBlock, false)
    else SyncRecord(r.stalledIntervalCount, o.vmBlock, o.seqBlock, true)
  }

  function StallRun(trace: seq<Observation>, max: nat): SyncRecord {
    if trace == [] then NO_RECORD else StallStep(StallRun(trace[..|trace| - 1], max), trace[|trace| - 1], max)
  }

  /** The pair a check finds recorded: the previous unsynced check's, or zeros. */
  function Recorded(trace: seq<Observation>, k: nat): (nat, nat)
    requires k <= |trace|
  {
    if k == 0 || trace[k - 1].isSynced then (0, 0) else (trace[k - 1].vmBlock, trace[k - 1].seqBlock)
  }

  /** Check k was unsynced and saw no progress. */
  predicate Stuck(trace: seq<Observation>, k: nat)
    requires k < |trace|
  {
    !trace[k].isSynced && (trace[k].vmBlock, trace[k].seqBlock) == Recorded(trace, k)
  }

  predicate StuckFor(trace: seq<Observation>, n: nat)
  {
    n <= |trace| && forall k :: |trace| - n <= k < |trace| ==> Stuck(trace, k)
  }

  /** The counter is the length of the last stuck run, capped. */
  lemma {:induction false} CounterIsRunLength(trace: seq<Observation>, max: nat)
    ensures var r := StallRun(trace, max);
      && (r.lastVmBlock, r.lastSeqBlock) == Recorded(trace, |trace|)
      && r.stalledIntervalCount <= max
      && (forall n: nat :: n <= max ==> (StuckFor(trace, n) <==> n <= r.stalledIntervalCount))
      && (r.isStalled <==> StuckFor(trace, max + 1))
  {
    if trace != [] {
      var n := |trace| - 1;
      CounterIsRunLength(trace[..n], max);
      StuckForStep(trace, max);
      forall m: nat | 0 < m ensures StuckFor(trace, m) <==> Stuck(trace, n) && StuckFor(trace[..n], m - 1) {
        StuckForStep(trace, m - 1);
      }
    }
  }

  lemma StuckForStep(trace: seq<Observation>, m: nat)
    requires trace != []
    ensures StuckFor(trace, m + 1) <==> Stuck(trace, |trace| - 1) && StuckFor(trace[..|trace| - 1], m)
  {
    var n := |trace| - 1;
    var before := trace[..n];
    assert forall k: nat :: k < n ==> Recorded(before, k) == Recorded(trace, k) && before[k] == trace[k];
    if StuckFor(trace, m + 1) {
      forall k | n - m <= k < n ensures Stuck(before, k) { assert Stuck(trace, k); }
    }
    if Stuck(trace, n) && StuckFor(before, m) {
      forall k | n - m <= k <= n ensures Stuck(trace, k) { assert k < n ==> Stuck(before, k); }
    }
  }

  /** Over any trace, stalled means: the last max + 1 checks were unsynced and each saw what was recorded. */
  lemma StalledMeans(trace: seq<Observation>, max: nat)
    ensures StallRun(trace, max).isStalled <==>
      |trace| > max && forall k :: |trace| - max - 1 <= k < |trace| ==> Stuck(trace, k)
  {
    CounterIsRunLength(trace, max);
  }

  // ----- alert hysteresis

  datatype Thresholds = Thresholds(alert: real, close: real)

  predicate Alerting(before: bool, level: real, t: Thresholds) { level >= t.alert || (before && level >= t.close) }

  /** Levels of one resource over successive checks; None is a check that did not see it. */
  function AlertAfter(levels: seq<Option<real>>, t: Thresholds): bool {
    levels != [] &&
    var last := levels[|levels| - 1];
    last.Some? && Alerting(AlertAfter(levels[..|levels| - 1], t), last.value, t)
  }

  predicate AtLeast(level: Option<real>, bound: real) { level.Some? && level.value >= bound }

  /** The alert was raised at check i and nothing since closed it. */
  ghost predicate RaisedAt(levels: seq<Option<real>>, t: Thresholds, i: int) {
    && 0 <= i < |levels| && AtLeast(levels[i], t.alert)
    && forall j :: i < j < |levels| ==> AtLeast(levels[j], t.close)
  }

  /** An alert holds exactly when some level reached the alert level and none since fell below the close level. */
  lemma {:induction false} AlertMeans(levels: seq<Option<real>>, t: Thresholds)
    ensures AlertAfter(levels, t) <==> exists i :: RaisedAt(levels, t, i)
  {
    if levels != [] {
      var n := |levels| - 1;
      AlertMeans(levels[..n], t);
      if AlertAfter(levels, t) {
        if levels[n].value >= t.alert {
          assert RaisedAt(levels, t, n);
        } else {
          var i :| RaisedAt(levels[..n], t, i);
          assert RaisedAt(levels, t, i);
        }
      }
      if i :| RaisedAt(levels, t, i) {
        if i < n { assert RaisedAt(levels[..n], t, i); }
      }
    }
  }

  // ----- one system check

  datatype Mount = Mount(fs: string, use: real)
  datatype Disk = Disk(name: string, use: real, isHealthy: bool)
  datatype Config = Config(memory: Thresholds, cpuCurrent: Thresholds, cpuAvg: Thresholds, disk: Thresholds)
  datatype Metrics = Metrics(memory: real, cpuCurrent: real, cpuAvg: real, mounts: seq<Mount>)
  datatype SysInfo = SysInfo(memoryHealthy: bool, cpuCurrentHealthy: bool, cpuAvgHealthy: bool, filesystem: seq<Disk>)

  const NO_INFO := SysInfo(true, true, true, [])

  function Find(disks: seq<Disk>, name: string): Option<Disk> {
    if disks == [] then None else if disks[0].name == name then Some(disks[0]) else Find(disks[1..], name)
  }

  /** The level of a device: its first mount; overlays are not devices. */
  function Level(mounts: seq<Mount>, name: string): Option<real> {
    if mounts == [] || name == "overlay" then None
    else if mounts[0].fs == name then Some(mounts[0].use)
    else Level(mounts[1..], name)
  }

  /** The first mount of the device at i, so its level is that mount's. */
  predicate FirstMount(mounts: seq<Mount>, name: string, i: int) {
    0 <= i < |mounts| && mounts[i].fs == name && forall j :: 0 <= j < i ==> mounts[j].fs != name
  }

  lemma {:induction false} LevelMeans(mounts: seq<Mount>, name: string, level: real)
    ensures Level(mounts, name) == Some(level) <==>
      name != "overlay" && exists i :: FirstMount(mounts, name, i) && mounts[i].use == level
  {
    if mounts != [] && name != "overlay" {
      LevelMeans(mounts[1..], name, level);
      if mounts[0].fs == name {
        assert FirstMount(mounts, name, 0);
      } else {
        assert forall i :: FirstMount(mounts[1..], name, i) <==> FirstMount(mounts, name, i + 1);
        assert forall i :: FirstMount(mounts, name, i) ==> FirstMount(mounts[1..], name, i - 1);
      }
    }
  }

  predicate NamesDiffer(disks: seq<Disk>) { forall i, j :: 0 <= i < j < |disks| ==> disks[i].name != disks[j].name }

  predicate DiskAlert(disks: seq<Disk>, name: string) { Find(disks, name).Some? && !Find(disks, name).value.isHealthy }

  /** What a check records of a device. */
  function Expected(prev: seq<Disk>, mounts: seq<Mount>, name: string, t: Thresholds): Option<Disk> {
    var level := Level(mounts, name);
    if level.None? then None
    else Some(Disk(name, level.value, !Alerting(DiskAlert(prev, name), level.value, t)))
  }

  lemma {:induction false} FindMeans(disks: seq<Disk>, name: string)
    ensures Find(disks, name).Some? ==> Find(disks, name).value in disks && Find(disks, name).value.name == name
    ensures Find(disks, name).None? ==> forall i :: 0 <= i < |disks| ==> disks[i].name != name
  {
    if disks != [] && disks[0].name != name { FindMeans(disks[1..], name); }
  }

  lemma FindUnique(disks: seq<Disk>, d: Disk)
    requires NamesDiffer(disks) && d in disks
    ensures Find(disks, d.name) == Some(d)
  {
    FindMeans(disks, d.name);
    var i :| 0 <= i < |disks| && disks[i] == d;
    assert disks[i].name == d.name;
    var e := Find(disks, d.name).value;
    var j :| 0 <= j < |disks| && disks[j] == e;
  }

  /** The record may be sorted by use: devices are found by name. */
  lemma FindIgnoresOrder(a: seq<Disk>, b: seq<Disk>, name: string)
    requires NamesDiffer(a) && multiset(a) == multiset(b)
    ensures Find(a, name) == Find(b, name)
  {
    FindMeans(a, name);
    FindMeans(b, name);
    if Find(b, name).Some? {
      assert Find(b, name).value in multiset(a);
      FindUnique(a, Find(b, name).value);
    }
    if Find(a, name).Some? {
      var d := Find(a, name).value;
      assert d in multiset(b);
      var i :| 0 <= i < |b| && b[i] == d;
      assert b[i].name == name;
    }
  }

  lemma {:induction false} FindAppend(disks: seq<Disk>, d: Disk, name: string)
    ensures Find(disks + [d], name) ==
      if Find(disks, name).Some? then Find(disks, name) else if d.name == name then Some(d) else None
  {
    if disks == [] {
      assert [] + [d] == [d];
    } else {
      assert (disks + [d])[1..] == disks[1..] + [d];
      FindAppend(disks[1..], d, name);
    }
  }

  lemma {:induction false} LevelAppend(mounts: seq<Mount>, m: Mount, name: string)
    ensures Level(mounts + [m], name) == if Level(mounts, name).Some? then Level(mounts, name)
      else if name != "overlay" && m.fs == name then Some(m.use) else None
  {
    if mounts == [] {
      assert [] + [m] == [m];
    } else {
      assert (mounts + [m])[1..] == mounts[1..] + [m];
      LevelAppend(mounts[1..], m, name);
    }
  }

  /** One row a mount point in, one record a device out. */
  method CheckFilesystem(mounts: seq<Mount>, prev: seq<Disk>, t: Thresholds)
    returns (fsData: seq<Disk>, isHealthy: bool)
    ensures NamesDiffer(fsData)
    ensures forall name :: Find(fsData, name) == Expected(prev, mounts, name, t)
    ensures isHealthy <==> forall d :: d in fsData ==> d.isHealthy
  {
    hide Find, Level;
    fsData, isHealthy := [], true;
    var seenFs: set<string> := {};
    NothingFound(prev, mounts, t);
    for i := 0 to |mounts|
      invariant forall name :: Find(fsData, name) == Expected(prev, mounts[..i], name, t)
      invariant forall name :: name in seenFs <==> Find(fsData, name).Some?
      invariant isHealthy <==> forall d :: d in fsData ==> d.isHealthy
      invariant NamesDiffer(fsData) && forall d :: d in fsData ==> d.name in seenFs
    {
      var m := mounts[i];
      assert mounts[..i + 1] == mounts[..i] + [m];
      ghost var earlier := mounts[..i];
      if m.fs == "overlay" || m.fs in seenFs {
        forall name ensures Expected(prev, mounts[..i + 1], name, t) == Expected(prev, earlier, name, t) {
          LevelAppend(earlier, m, name);
          assert name in seenFs <==> Level(earlier, name).Some?;
        }
        continue;
      }
      seenFs := seenFs + {m.fs};
      var before := Find(prev, m.fs);
      var diskSpaceAlert := m.use >= t.alert || (before.Some? && !before.value.isHealthy && m.use >= t.close);
      ghost var soFar := fsData;
      fsData := fsData + [Disk(m.fs, m.use, !diskSpaceAlert)];
      forall name ensures Find(fsData, name) == Expected(prev, mounts[..i + 1], name, t) {
        LevelAppend(earlier, m, name);
        FindAppend(soFar, Disk(m.fs, m.use, !diskSpaceAlert), name);
        assert Find(soFar, name) == Expected(prev, earlier, name, t);
      }
      forall name ensures name in seenFs <==> Find(fsData, name).Some? {
        FindAppend(soFar, Disk(m.fs, m.use, !diskSpaceAlert), name);
      }
      if diskSpaceAlert { isHealthy := false; }
    }
    assert mounts[..|mounts|] == mounts;
  }

  lemma NothingFound(prev: seq<Disk>, mounts: seq<Mount>, t: Thresholds)
    ensures forall name :: Find([], name).None? && Expected(prev, mounts[..0], name, t).None?
  {
  }

  /** What a check leaves, given what the one before left. */
  ghost predicate Leaves(prev: SysInfo, m: Metrics, c: Config, info: SysInfo) {
    && info.memoryHealthy == !Alerting(!prev.memoryHealthy, m.memory, c.memory)
    && info.cpuCurrentHealthy == !Alerting(!prev.cpuCurrentHealthy, m.cpuCurrent, c.cpuCurrent)
    && info.cpuAvgHealthy == !Alerting(!prev.cpuAvgHealthy, m.cpuAvg, c.cpuAvg)
    && forall name :: Find(info.filesystem, name) == Expected(prev.filesystem, m.mounts, name, c.disk)
  }

  /** The current CPU load never makes a node unhealthy. */
  ghost predicate NodeHealthy(info: SysInfo) {
    info.memoryHealthy && info.cpuAvgHealthy && forall name :: !DiskAlert(info.filesystem, name)
  }

  method CheckSystemInfo(m: Metrics, prev: SysInfo, c: Config) returns (isHealthy: bool, info: SysInfo)
    ensures Leaves(prev, m, c, info)
    ensures isHealthy <==> NodeHealthy(info)
  {
    hide Find, Expected;
    var memoryAlert := m.memory >= c.memory.alert || (!prev.memoryHealthy && m.memory >= c.memory.close);
    var cpuCurrentAlert :=
      m.cpuCurrent >= c.cpuCurrent.alert || (!prev.cpuCurrentHealthy && m.cpuCurrent >= c.cpuCurrent.close);
    var cpuAvgAlert := m.cpuAvg >= c.cpuAvg.alert || (!prev.cpuAvgHealthy && m.cpuAvg >= c.cpuAvg.close);
    var fsData, disksHealthy := CheckFilesystem(m.mounts, prev.filesystem, c.disk);
    isHealthy := !memoryAlert && !cpuAvgAlert && disksHealthy;
    var sorted: seq<Disk> :| multiset(sorted) == multiset(fsData);
    forall name ensures Find(sorted, name) == Find(fsData, name) { FindIgnoresOrder(fsData, sorted, name); }
    forall name ensures DiskAlert(sorted, name) == DiskAlert(fsData, name) { FindIgnoresOrder(fsData, sorted, name); }
    HealthyByName(fsData);
    info := SysInfo(!memoryAlert, !cpuCurrentAlert, !cpuAvgAlert, sorted);
  }

  lemma HealthyByName(disks: seq<Disk>)
    requires NamesDiffer(disks)
    ensures (forall d :: d in disks ==> d.isHealthy) <==> forall name :: !DiskAlert(disks, name)
  {
    forall name ensures DiskAlert(disks, name) ==> Find(disks, name).value in disks { FindMeans(disks, name); }
    forall d | d in disks && !d.isHealthy ensures DiskAlert(disks, d.name) { FindUnique(disks, d); }
  }

  // ----- every trace of system checks

  ghost predicate Checks(ms: seq<Metrics>, infos: seq<SysInfo>, c: Config)
  {
    && |infos| == |ms|
    && (ms != [] ==>
          var n := |ms| - 1;
          Checks(ms[..n], infos[..n], c) && Leaves(Last(infos[..n]), ms[n], c, infos[n]))
  }

  function Last(infos: seq<SysInfo>): SysInfo { if infos == [] then NO_INFO else infos[|infos| - 1] }

  function MemoryLevels(ms: seq<Metrics>): seq<Option<real>> {
    seq(|ms|, i requires 0 <= i < |ms| => Some(ms[i].memory))
  }
  function CurrentLevels(ms: seq<Metrics>): seq<Option<real>> {
    seq(|ms|, i requires 0 <= i < |ms| => Some(ms[i].cpuCurrent))
  }
  function AvgLevels(ms: seq<Metrics>): seq<Option<real>> { seq(|ms|, i requires 0 <= i < |ms| => Some(ms[i].cpuAvg)) }
  function DiskLevels(ms: seq<Metrics>, name: string): seq<Option<real>> {
    seq(|ms|, i requires 0 <= i < |ms| => Level(ms[i].mounts, name))
  }

  lemma {:induction false} RecordsAreAlerts(ms: seq<Metrics>, infos: seq<SysInfo>, c: Config, name: string)
    requires Checks(ms, infos, c)
    ensures !Last(infos).memoryHealthy <==> AlertAfter(MemoryLevels(ms), c.memory)
    ensures !Last(infos).cpuCurrentHealthy <==> AlertAfter(CurrentLevels(ms), c.cpuCurrent)
    ensures !Last(infos).cpuAvgHealthy <==> AlertAfter(AvgLevels(ms), c.cpuAvg)
    ensures DiskAlert(Last(infos).filesystem, name) <==> AlertAfter(DiskLevels(ms, name), c.disk)
  {
    if ms != [] {
      var n := |ms| - 1;
      RecordsAreAlerts(ms[..n], infos[..n], c, name);
      assert MemoryLevels(ms)[..n] == MemoryLevels(ms[..n]);
      assert CurrentLevels(ms)[..n] == CurrentLevels(ms[..n]);
      assert AvgLevels(ms)[..n] == AvgLevels(ms[..n]);
      assert DiskLevels(ms, name)[..n] == DiskLevels(ms[..n], name);
    }
  }

  /**
   * Over any trace, each resource alerts exactly when it once reached its alert level and has not
   * since gone below its close level, a device also when it went unseen.
   */
  lemma AlertsMean(ms: seq<Metrics>, infos: seq<SysInfo>, c: Config, name: string)
    requires Checks(ms, infos, c)
    ensures !Last(infos).memoryHealthy <==> exists i :: RaisedAt(MemoryLevels(ms), c.memory, i)
    ensures !Last(infos).cpuCurrentHealthy <==> exists i :: RaisedAt(CurrentLevels(ms), c.cpuCurrent, i)
    ensures !Last(infos).cpuAvgHealthy <==> exists i :: RaisedAt(AvgLevels(ms), c.cpuAvg, i)
    ensures DiskAlert(Last(infos).filesystem, name) <==> exists i :: RaisedAt(DiskLevels(ms, name), c.disk, i)
  {
    hide RaisedAt, AlertAfter, DiskAlert;
    RecordsAreAlerts(ms, infos, c, name);
    AlertMeans(MemoryLevels(ms), c.memory);
    AlertMeans(CurrentLevels(ms), c.cpuCurrent);
    AlertMeans(AvgLevels(ms), c.cpuAvg);
    AlertMeans(DiskLevels(ms, name), c.disk);
  }
}
