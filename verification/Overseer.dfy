/**
  The launcher's overseer: the table of instances on a node, the totals allocated to
  them, and what is left. Other goroutines talk to it by message, so each message is one
  atomic step.
  */
module Overseer {
  import opened Basics

  const DISK_SPACE_HWM := 80 * 1000
  const MEM_HWM := 1 * 1000
  const DISK_SPACE_LWM := 40 * 1000
  const MEM_LWM := 512

  datatype Config = Config(cpus: int, disk: int, mem: int)

  datatype Running = Pending | Running | Stopped

  /** The maxima of an instance and its latest usage, -1 where that is unknown. */
  datatype Instance = Instance(running: Running, max: Config, memUsage: int, diskUsage: int, cpuUsage: int)

  datatype Limits = Limits(maxInstances: int, diskLimit: bool, memLimit: bool)

  datatype Table = Table(
    instances: map<Uuid, Instance>,
    total: Config,
    diskAvailable: int,
    memAvailable: int,
    maintenance: bool)

  datatype Reason = NodeInMaintenance | FullComputeNode

  datatype Status = READY | FULL | MAINTENANCE

  datatype Message =
    | Add(uuid: Uuid, cfg: Config)
    | Remove(uuid: Uuid)
    | StateChange(uuid: Uuid, running: Running)
    | StatsUpdate(uuid: Uuid, mem: int, disk: int, cpu: int)
    | Maintain
    | Restore
    | Refresh(freeMem: int, freeDisk: int)

  // ---- Sums over the table ----

  ghost function Sum(m: map<Uuid, Instance>, f: Instance -> int): int {
    if m == map[] then 0
    else
      var u :| u in m;
      assert |m - {u}| < |m| by { SmallerMap(m, u); }
      f(m[u]) + Sum(m - {u}, f)
  }

  lemma SmallerMap<T>(m: map<Uuid, T>, u: Uuid)
    requires u in m
    ensures |m - {u}| < |m|
  {
    assert (m - {u}).Keys == m.Keys - {u};
    assert |m.Keys - {u}| == |m.Keys| - 1;
  }

  /** A sum does not depend on the order in which the map is ranged over. */
  lemma {:induction false} SumRemove(m: map<Uuid, Instance>, f: Instance -> int, u: Uuid)
    requires u in m
    ensures Sum(m, f) == f(m[u]) + Sum(m - {u}, f)
    decreases |m|
  {
    var v :| v in m && Sum(m, f) == f(m[v]) + Sum(m - {v}, f);
    if v != u {
      SmallerMap(m, u);
      SmallerMap(m, v);
      SumRemove(m - {v}, f, u);
      SumRemove(m - {u}, f, v);
      assert m - {v} - {u} == m - {u} - {v};
    }
  }

  lemma SumPut(m: map<Uuid, Instance>, f: Instance -> int, u: Uuid, i: Instance)
    ensures Sum(m[u := i], f) == f(i) + Sum(m - {u}, f)
  {
    SumRemove(m[u := i], f, u);
    assert m[u := i] - {u} == m - {u};
  }

  lemma {:induction false} SumNonNegative(m: map<Uuid, Instance>, f: Instance -> int)
    requires forall u :: u in m ==> f(m[u]) >= 0
    ensures Sum(m, f) >= 0
    decreases |m|
  {
    if m != map[] {
      var u :| u in m;
      SmallerMap(m, u);
      SumRemove(m, f, u);
      SumNonNegative(m - {u}, f);
    }
  }

  lemma {:induction false} SumAdds(m: map<Uuid, Instance>, f: Instance -> int, g: Instance -> int, h: Instance -> int)
    requires forall i :: h(i) == f(i) + g(i)
    ensures Sum(m, h) == Sum(m, f) + Sum(m, g)
    decreases |m|
  {
    if m != map[] {
      var u :| u in m;
      SmallerMap(m, u);
      SumRemove(m, f, u);
      SumRemove(m, g, u);
      SumRemove(m, h, u);
      SumAdds(m - {u}, f, g, h);
    }
  }

  function MaxCpus(i: Instance): int { i.max.cpus }
  function MaxDisk(i: Instance): int { i.max.disk }
  function MaxMem(i: Instance): int { i.max.mem }

  /** Memory an instance may still take: all of it if its usage is unknown, none at or over the maximum. */
  function Headroom(i: Instance): int {
    if i.memUsage == -1 then i.max.mem else if i.memUsage < i.max.mem then i.max.mem - i.memUsage else 0
  }

  function MemConsumed(i: Instance): int {
    if i.memUsage != -1 then (if i.memUsage < i.max.mem then i.memUsage else i.max.mem) else 0
  }

  function DiskConsumed(i: Instance): int {
    if i.diskUsage != -1 then i.diskUsage else 0
  }

  /** Disk an instance may still take; negative if it is over its maximum. */
  function DiskHeadroom(i: Instance): int {
    if i.diskUsage != -1 then i.max.disk - i.diskUsage else i.max.disk
  }

  ghost function Totals(m: map<Uuid, Instance>): Config {
    Config(Sum(m, MaxCpus), Sum(m, MaxDisk), Sum(m, MaxMem))
  }

  // ---- Vectors of resources ----

  function Plus(a: Config, b: Config): Config {
    Config(a.cpus + b.cpus, a.disk + b.disk, a.mem + b.mem)
  }

  function Minus(a: Config, b: Config): Config {
    Config(a.cpus - b.cpus, a.disk - b.disk, a.mem - b.mem)
  }

  function AtLeastZero(x: int): int {
    if x < 0 then 0 else x
  }

  function Clamped(a: Config): Config {
    Config(AtLeastZero(a.cpus), AtLeastZero(a.disk), AtLeastZero(a.mem))
  }

  predicate NonNegative(a: Config) {
    a.cpus >= 0 && a.disk >= 0 && a.mem >= 0
  }

  const ZERO := Config(0, 0, 0)

  lemma TotalsRemove(m: map<Uuid, Instance>, u: Uuid)
    requires u in m
    ensures Totals(m) == Plus(m[u].max, Totals(m - {u}))
  {
    SumRemove(m, MaxCpus, u);
    SumRemove(m, MaxDisk, u);
    SumRemove(m, MaxMem, u);
  }

  lemma TotalsPut(m: map<Uuid, Instance>, u: Uuid, i: Instance)
    ensures Totals(m[u := i]) == Plus(i.max, Totals(m - {u}))
    ensures u !in m ==> Totals(m[u := i]) == Plus(i.max, Totals(m))
    ensures u in m && m[u].max == i.max ==> Totals(m[u := i]) == Totals(m)
  {
    SumPut(m, MaxCpus, u, i);
    SumPut(m, MaxDisk, u, i);
    SumPut(m, MaxMem, u, i);
    if u in m {
      TotalsRemove(m, u);
    } else {
      assert m - {u} == m;
    }
  }

  lemma TotalsNonNegative(m: map<Uuid, Instance>)
    requires forall u :: u in m ==> NonNegative(m[u].max)
    ensures NonNegative(Totals(m))
  {
    SumNonNegative(m, MaxCpus);
    SumNonNegative(m, MaxDisk);
    SumNonNegative(m, MaxMem);
  }

  // ---- What each message does ----

  function RoomAvailable(l: Limits, t: Table, cfg: Config): Option<Reason> {
    if t.maintenance then Some(NodeInMaintenance)
    else if |t.instances| >= l.maxInstances then Some(FullComputeNode)
    else if t.diskAvailable - cfg.disk < DISK_SPACE_LWM && l.diskLimit then Some(FullComputeNode)
    else if t.memAvailable - cfg.mem < MEM_LWM && l.memLimit then Some(FullComputeNode)
    else None
  }

  function ComputeStatus(l: Limits, t: Table): Status {
    if t.maintenance then MAINTENANCE
    else if |t.instances| >= l.maxInstances then FULL
    else if t.diskAvailable < DISK_SPACE_HWM && l.diskLimit then FULL
    else if t.memAvailable < MEM_HWM && l.memLimit then FULL
    else READY
  }

  function Fresh(cfg: Config): Instance {
    Instance(Pending, cfg, -1, -1, -1)
  }

  function Added(l: Limits, t: Table, u: Uuid, cfg: Config): Table {
    if u in t.instances || RoomAvailable(l, t, cfg).Some? then t
    else t.(total := Plus(t.total, cfg), instances := t.instances[u := Fresh(cfg)])
  }

  function Removed(t: Table, u: Uuid): Table {
    if u !in t.instances then t
    else t.(total := Clamped(Minus(t.total, t.instances[u].max)), instances := t.instances - {u})
  }

  /** What is free on the node, less what the instances on it may still take. */
  ghost function Refreshed(t: Table, freeMem: int, freeDisk: int): Table {
    t.(memAvailable := freeMem + Sum(t.instances, MemConsumed) - t.total.mem,
       diskAvailable := freeDisk + Sum(t.instances, DiskConsumed) - t.total.disk)
  }

  ghost function Next(l: Limits, t: Table, m: Message): Table {
    match m
    case Add(u, cfg) => Added(l, t, u, cfg)
    case Remove(u) => Removed(t, u)
    case StateChange(u, running) =>
      if u in t.instances then t.(instances := t.instances[u := t.instances[u].(running := running)]) else t
    case StatsUpdate(u, mem, disk, cpu) =>
      if u in t.instances then
        t.(instances := t.instances[u := t.instances[u].(memUsage := mem, diskUsage := disk, cpuUsage := cpu)])
      else t
    case Maintain => t.(maintenance := true)
    case Restore => t.(maintenance := false)
    case Refresh(freeMem, freeDisk) => Refreshed(t, freeMem, freeDisk)
  }

  // ---- The directory scan at startup ----

  /** A directory found by the scan: its base name, and its configuration if that loads. */
  datatype Found = Found(name: Uuid, cfg: Option<Config>)

  function Scanned(t: Table, d: Found): Table {
    if d.cfg.None? then t
    else t.(total := Plus(t.total, d.cfg.value), instances := t.instances[d.name := Fresh(d.cfg.value)])
  }

  function Startup(dirs: Log<Found>): Table {
    match dirs
    case Empty => Table(map[], ZERO, 0, 0, false)
    case Then(before, d) => Scanned(Startup(before), d)
  }

  /**
    The scan descends into a directory whose configuration does not load, so it can meet
    one base name twice; the later one takes the entry. This is what the earlier ones add up to.
    */
  function Shadowed(dirs: Log<Found>): Config {
    match dirs
    case Empty => ZERO
    case Then(before, d) =>
      var t := Startup(before);
      if d.cfg.Some? && d.name in t.instances then Plus(Shadowed(before), t.instances[d.name].max) else Shadowed(before)
  }

  ghost predicate AllNonNegative(dirs: Log<Found>) {
    match dirs
    case Empty => true
    case Then(before, d) => AllNonNegative(before) && (d.cfg.Some? ==> NonNegative(d.cfg.value))
  }

  ghost predicate Unique(dirs: Log<Found>) {
    match dirs
    case Empty => true
    case Then(before, d) => Unique(before) && (d.cfg.Some? ==> d.name !in Startup(before).instances)
  }

  /** Replacing an entry moves the sums by the difference. */
  lemma TotalsReplace(m: map<Uuid, Instance>, u: Uuid, i: Instance, total: Config, extra: Config)
    requires u in m && total == Plus(Totals(m), extra)
    ensures Plus(total, i.max) == Plus(Totals(m[u := i]), Plus(extra, m[u].max))
  {
    ghost var rest, before, after := Totals(m - {u}), Totals(m), Totals(m[u := i]);
    assert after == Plus(i.max, rest) by { TotalsPut(m, u, i); }
    assert before == Plus(m[u].max, rest) by { TotalsRemove(m, u); }
    Rearrange(i.max, m[u].max, rest, extra);
  }

  lemma Rearrange(a: Config, b: Config, rest: Config, extra: Config)
    ensures Plus(Plus(Plus(b, rest), extra), a) == Plus(Plus(a, rest), Plus(extra, b))
  {
  }

  lemma TotalsExtend(m: map<Uuid, Instance>, u: Uuid, i: Instance, total: Config, extra: Config)
    requires u !in m && total == Plus(Totals(m), extra)
    ensures Plus(total, i.max) == Plus(Totals(m[u := i]), extra)
  {
    TotalsPut(m, u, i);
  }

  /** Whatever the scan finds, the totals are the sums over the table plus what was shadowed. */
  lemma {:induction false} StartupTotals(dirs: Log<Found>)
    ensures Startup(dirs).total == Plus(Totals(Startup(dirs).instances), Shadowed(dirs))
  {
    match dirs {
      case Empty =>
      case Then(before, d) =>
        StartupTotals(before);
        var t := Startup(before);
        if d.cfg.Some? {
          if d.name in t.instances {
            TotalsReplace(t.instances, d.name, Fresh(d.cfg.value), t.total, Shadowed(before));
          } else {
            TotalsExtend(t.instances, d.name, Fresh(d.cfg.value), t.total, Shadowed(before));
          }
        }
    }
  }

  lemma {:induction false} UniqueShadowsNothing(dirs: Log<Found>)
    requires Unique(dirs)
    ensures Shadowed(dirs) == ZERO
  {
    if dirs.Then? {
      UniqueShadowsNothing(dirs.before);
    }
  }

  lemma {:induction false} StartupNonNegative(dirs: Log<Found>)
    requires AllNonNegative(dirs)
    ensures forall u :: u in Startup(dirs).instances ==> NonNegative(Startup(dirs).instances[u].max)
    ensures NonNegative(Shadowed(dirs))
  {
    if dirs.Then? {
      StartupNonNegative(dirs.before);
    }
  }

  // ---- Accounting over every run ----

  ghost function Run(l: Limits, dirs: Log<Found>, maintenance: bool, h: Log<Message>): Table {
    match h
    case Empty => Startup(dirs).(maintenance := maintenance)
    case Then(before, m) => Next(l, Run(l, dirs, maintenance, before), m)
  }

  ghost predicate AddsNonNegative(h: Log<Message>) {
    match h
    case Empty => true
    case Then(before, m) => AddsNonNegative(before) && (m.Add? ==> NonNegative(m.cfg))
  }

  /** The totals exceed the sums over the table by exactly `extra`. */
  ghost predicate Accounted(t: Table, extra: Config) {
    && t.total == Plus(Totals(t.instances), extra)
    && NonNegative(extra)
    && forall u :: u in t.instances ==> NonNegative(t.instances[u].max)
  }

  lemma ExactIff(t: Table, extra: Config)
    requires Accounted(t, extra)
    ensures Exact(t) <==> extra == ZERO
  {
    var sums := Totals(t.instances);
    assert t.total == Config(sums.cpus + extra.cpus, sums.disk + extra.disk, sums.mem + extra.mem);
  }

  /** With non-negative configurations, a removal takes off exactly what was added: no clamp fires. */
  lemma ClampNeverFires(t: Table, extra: Config, u: Uuid)
    requires Accounted(t, extra) && u in t.instances
    ensures Clamped(Minus(t.total, t.instances[u].max)) == Minus(t.total, t.instances[u].max)
    ensures Accounted(Removed(t, u), extra)
  {
    TotalsRemove(t.instances, u);
    TotalsNonNegative(t.instances - {u});
  }

  /** With any configurations, and totals off by any amount, it does so exactly when no remaining total is negative. */
  lemma RemoveIsExactIff(t: Table, extra: Config, u: Uuid)
    requires u in t.instances && t.total == Plus(Totals(t.instances), extra)
    ensures var rest := t.instances - {u};
            Removed(t, u).total == Plus(Totals(rest), extra) <==> NonNegative(Plus(Totals(rest), extra))
  {
    TotalsRemove(t.instances, u);
  }

  lemma TotalsOne(u: Uuid, i: Instance)
    ensures Totals(map[u := i]) == i.max
  {
    var none: map<Uuid, Instance> := map[];
    assert none[u := i] == map[u := i];
    TotalsPut(none, u, i);
  }

  /** The launcher does not reject a negative memory requirement, and one does break the totals. */
  lemma NegativeBreaksTotals(t: Table, a: Uuid, b: Uuid)
    requires a != b && t.instances == map[a := Fresh(Config(1, 0, -5)), b := Fresh(Config(1, 0, 3))]
    requires Exact(t)
    ensures !Exact(Removed(t, b))
  {
    assert t.instances - {b} == map[a := Fresh(Config(1, 0, -5))];
    TotalsOne(a, Fresh(Config(1, 0, -5)));
    RemoveIsExactIff(t, ZERO, b);
  }

  /** A node with room, an instance of negative size and one of positive size. */
  lemma NegativeStarts(l: Limits, a: Uuid, b: Uuid) returns (h: Log<Message>)
    requires a != b && l == Limits(2, true, true)
    ensures var t := Run(l, Empty, false, h);
            && t.instances == map[a := Fresh(Config(1, 0, -5)), b := Fresh(Config(1, 0, 3))]
            && t.total == Config(2, 0, -2)
  {
    h := Then(Empty, Refresh(2000, 100000));
    assert Run(l, Empty, false, h) == Table(map[], ZERO, 100000, 2000, false);
    h := Then(h, Add(a, Config(1, 0, -5)));
    var t := Run(l, Empty, false, h);
    assert t == Table(map[a := Fresh(Config(1, 0, -5))], Config(1, 0, -5), 100000, 2000, false);
    h := Then(h, Add(b, Config(1, 0, 3)));
    var t' := Run(l, Empty, false, h);
    assert t' == Added(l, t, b, Config(1, 0, 3));
  }

  /** So it does happen: the totals are right, the second instance is removed, and they are wrong. */
  lemma NegativeHappens(l: Limits, a: Uuid, b: Uuid) returns (h: Log<Message>)
    requires a != b && l == Limits(2, true, true)
    ensures Exact(Run(l, Empty, false, h)) && !Exact(Run(l, Empty, false, Then(h, Remove(b))))
  {
    h := NegativeStarts(l, a, b);
    var t := Run(l, Empty, false, h);
    var one := map[a := Fresh(Config(1, 0, -5))];
    TotalsOne(a, Fresh(Config(1, 0, -5)));
    TotalsPut(one, b, Fresh(Config(1, 0, 3)));
    assert t.instances == one[b := Fresh(Config(1, 0, 3))];
    NegativeBreaksTotals(t, a, b);
  }

  lemma NextAccounted(l: Limits, t: Table, m: Message, extra: Config)
    requires Accounted(t, extra) && (m.Add? ==> NonNegative(m.cfg))
    ensures Accounted(Next(l, t, m), extra)
  {
    match m {
      case Add(u, cfg) => TotalsPut(t.instances, u, Fresh(cfg));
      case Remove(u) =>
        if u in t.instances {
          ClampNeverFires(t, extra, u);
        }
      case StateChange(u, running) =>
        if u in t.instances {
          TotalsPut(t.instances, u, t.instances[u].(running := running));
        }
      case StatsUpdate(u, mem, disk, cpu) =>
        if u in t.instances {
          TotalsPut(t.instances, u, t.instances[u].(memUsage := mem, diskUsage := disk, cpuUsage := cpu));
        }
      case _ =>
    }
  }

  lemma {:induction false} RunAccounted(l: Limits, dirs: Log<Found>, maintenance: bool, h: Log<Message>)
    requires AllNonNegative(dirs) && AddsNonNegative(h)
    ensures Accounted(Run(l, dirs, maintenance, h), Shadowed(dirs))
  {
    if h.Then? {
      RunAccounted(l, dirs, maintenance, h.before);
      NextAccounted(l, Run(l, dirs, maintenance, h.before), h.last, Shadowed(dirs));
    } else {
      StartupTotals(dirs);
      StartupNonNegative(dirs);
    }
  }

  ghost predicate Exact(t: Table) {
    t.total == Totals(t.instances)
  }

  /**
    In every reachable state the allocation totals equal the sums of the recorded maxima if
    and only if startup shadowed nothing of size, which distinct directory names ensure.
    */
  lemma {:induction false} TotalsAreSums(l: Limits, dirs: Log<Found>, maintenance: bool, h: Log<Message>)
    requires AllNonNegative(dirs) && AddsNonNegative(h)
    ensures Exact(Run(l, dirs, maintenance, h)) <==> Shadowed(dirs) == ZERO
  {
    var t := Run(l, dirs, maintenance, h);
    RunAccounted(l, dirs, maintenance, h);
    ExactIff(t, Shadowed(dirs));
  }

  // ---- Accounting with configurations of any sign ----

  /** The totals exceed the sums by exactly `extra`, whatever the signs. */
  ghost predicate OffBy(t: Table, extra: Config) {
    t.total == Plus(Totals(t.instances), extra)
  }

  /** A removal of a known instance leaves no total negative. */
  ghost predicate KeepsOff(t: Table, m: Message, extra: Config) {
    m.Remove? && m.uuid in t.instances ==> NonNegative(Plus(Totals(t.instances - {m.uuid}), extra))
  }

  /** The totals are off by what startup shadowed after every message of a run. */
  ghost predicate AlwaysOff(l: Limits, dirs: Log<Found>, maintenance: bool, h: Log<Message>) {
    match h
    case Empty => true
    case Then(before, _) =>
      AlwaysOff(l, dirs, maintenance, before) && OffBy(Run(l, dirs, maintenance, h), Shadowed(dirs))
  }

  /** Every removal of a run left no total negative. */
  ghost predicate NeverBelowZero(l: Limits, dirs: Log<Found>, maintenance: bool, h: Log<Message>) {
    match h
    case Empty => true
    case Then(before, m) =>
      NeverBelowZero(l, dirs, maintenance, before) && KeepsOff(Run(l, dirs, maintenance, before), m, Shadowed(dirs))
  }

  lemma NextOffIff(l: Limits, t: Table, m: Message, extra: Config)
    requires OffBy(t, extra)
    ensures OffBy(Next(l, t, m), extra) <==> KeepsOff(t, m, extra)
  {
    match m {
      case Add(u, cfg) => TotalsPut(t.instances, u, Fresh(cfg));
      case Remove(u) =>
        if u in t.instances {
          RemoveIsExactIff(t, extra, u);
        }
      case StateChange(u, running) =>
        if u in t.instances {
          TotalsPut(t.instances, u, t.instances[u].(running := running));
        }
      case StatsUpdate(u, mem, disk, cpu) =>
        if u in t.instances {
          TotalsPut(t.instances, u, t.instances[u].(memUsage := mem, diskUsage := disk, cpuUsage := cpu));
        }
      case _ =>
    }
  }

  lemma {:induction false} OffStart(l: Limits, dirs: Log<Found>, maintenance: bool)
    ensures var t := Run(l, dirs, maintenance, Empty);
            t.total == Plus(Totals(t.instances), Shadowed(dirs))
  {
    StartupTotals(dirs);
  }

  lemma OffStep(l: Limits, dirs: Log<Found>, maintenance: bool, h: Log<Message>, m: Message)
    ensures OffBy(Run(l, dirs, maintenance, h), Shadowed(dirs)) ==>
              (OffBy(Run(l, dirs, maintenance, Then(h, m)), Shadowed(dirs)) <==>
               KeepsOff(Run(l, dirs, maintenance, h), m, Shadowed(dirs)))
  {
    if OffBy(Run(l, dirs, maintenance, h), Shadowed(dirs)) {
      NextOffIff(l, Run(l, dirs, maintenance, h), m, Shadowed(dirs));
    }
  }

  /**
    For every scan and every run of messages, with configurations of any sign: the totals
    stay off by exactly what startup shadowed if and only if no removal takes one below zero.
    */
  lemma {:induction false} RunOffIff(l: Limits, dirs: Log<Found>, maintenance: bool, h: Log<Message>)
    ensures AlwaysOff(l, dirs, maintenance, h) <==> NeverBelowZero(l, dirs, maintenance, h)
    ensures AlwaysOff(l, dirs, maintenance, h) ==>
              var t := Run(l, dirs, maintenance, h);
              t.total == Plus(Totals(t.instances), Shadowed(dirs))
  {
    match h {
      case Empty => OffStart(l, dirs, maintenance);
      case Then(before, m) =>
        RunOffIff(l, dirs, maintenance, before);
        if AlwaysOff(l, dirs, maintenance, before) {
          OffStep(l, dirs, maintenance, before, m);
        }
    }
  }

  /** Non-negative configurations are enough. */
  lemma {:induction false} NonNegativeIsEnough(l: Limits, dirs: Log<Found>, maintenance: bool, h: Log<Message>)
    requires AllNonNegative(dirs) && AddsNonNegative(h)
    ensures NeverBelowZero(l, dirs, maintenance, h)
  {
    if h.Then? {
      NonNegativeIsEnough(l, dirs, maintenance, h.before);
      RunAccounted(l, dirs, maintenance, h.before);
      AccountedKeeps(Run(l, dirs, maintenance, h.before), h.last, Shadowed(dirs));
    }
  }

  lemma AccountedKeeps(t: Table, m: Message, extra: Config)
    requires Accounted(t, extra)
    ensures KeepsOff(t, m, extra)
  {
    if m.Remove? && m.uuid in t.instances {
      TotalsNonNegative(t.instances - {m.uuid});
    }
  }

  /** A scan meets one base name twice: as the directory of an instance, and again below `v`, which does not load. */
  lemma ShadowingHappens(l: Limits, u: Uuid, v: Uuid, cfg: Config) returns (dirs: Log<Found>)
    requires NonNegative(cfg) && cfg != ZERO
    ensures AllNonNegative(dirs) && Shadowed(dirs) == cfg && !Exact(Run(l, dirs, false, Empty))
  {
    var once := Then(Empty, Found(u, Some(cfg)));
    var below := Then(once, Found(v, None));
    dirs := Then(below, Found(u, Some(cfg)));
    assert Startup(once).instances == map[u := Fresh(cfg)];
    assert Shadowed(once) == ZERO && Startup(once).instances[u].max == cfg;
    assert Startup(below) == Startup(once) && Shadowed(below) == ZERO;
    assert Shadowed(dirs) == Plus(ZERO, cfg);
    assert AllNonNegative(once) && AllNonNegative(below) && AllNonNegative(dirs) && AddsNonNegative(Empty);
    TotalsAreSums(l, dirs, false, Empty);
  }

  /** What is available: what is free, less what every instance may still take and what startup shadowed. */
  ghost predicate AvailableIs(t: Table, m: map<Uuid, Instance>, extra: Config, freeMem: int, freeDisk: int) {
    && t.instances == m
    && t.memAvailable == freeMem - Sum(m, Headroom) - extra.mem <= freeMem
    && t.diskAvailable == freeDisk - Sum(m, DiskHeadroom) - extra.disk
  }

  /**
    After a refresh the memory available is the free memory less the headroom of every
    instance (and what startup shadowed), so it is never more than the free memory.
    */
  lemma AvailableIsFreeLessHeadroom(t: Table, extra: Config, freeMem: int, freeDisk: int)
    requires Accounted(t, extra)
    ensures AvailableIs(Refreshed(t, freeMem, freeDisk), t.instances, extra, freeMem, freeDisk)
  {
    SumAdds(t.instances, MemConsumed, Headroom, MaxMem);
    SumAdds(t.instances, DiskConsumed, DiskHeadroom, MaxDisk);
    SumNonNegative(t.instances, Headroom);
  }

  /** So it is after any run that ends in a refresh. */
  lemma {:induction false} RunAvailable(l: Limits, dirs: Log<Found>, maintenance: bool, h: Log<Message>,
                                        freeMem: int, freeDisk: int)
    requires AllNonNegative(dirs) && AddsNonNegative(h)
    ensures AvailableIs(Run(l, dirs, maintenance, Then(h, Refresh(freeMem, freeDisk))),
                        Run(l, dirs, maintenance, h).instances, Shadowed(dirs), freeMem, freeDisk)
  {
    RunAccounted(l, dirs, maintenance, h);
    RefreshedLast(l, dirs, maintenance, h, freeMem, freeDisk);
    AvailableIsFreeLessHeadroom(Run(l, dirs, maintenance, h), Shadowed(dirs), freeMem, freeDisk);
  }

  lemma RefreshedLast(l: Limits, dirs: Log<Found>, maintenance: bool, h: Log<Message>, freeMem: int, freeDisk: int)
    ensures Run(l, dirs, maintenance, Then(h, Refresh(freeMem, freeDisk))) ==
            Refreshed(Run(l, dirs, maintenance, h), freeMem, freeDisk)
  {
  }

  /**
    What a READY status promises: a node that reports it takes a workload, whatever its
    state, if and only if the workload fits between the high and the low watermarks.
    */
  lemma ReadyAcceptsIff(cfg: Config)
    ensures (forall l, t :: ComputeStatus(l, t) == READY ==> RoomAvailable(l, t, cfg).None?) <==>
            (cfg.disk <= DISK_SPACE_HWM - DISK_SPACE_LWM && cfg.mem <= MEM_HWM - MEM_LWM)
  {
    var l, t := Limits(1, true, true), Table(map[], ZERO, DISK_SPACE_HWM, MEM_HWM, false);
    assert ComputeStatus(l, t) == READY;
  }

  // ---- Admission ----

  /**
    A new instance is admitted if and only if the node is not in maintenance, has fewer
    instances than allowed, and keeps 40000 MB of disk space and 512 MB of memory, as far as
    those limits are on.
    */
  lemma AdmitsIff(l: Limits, t: Table, u: Uuid, cfg: Config)
    requires u !in t.instances
    ensures u in Next(l, t, Add(u, cfg)).instances <==>
            && !t.maintenance && |t.instances| < l.maxInstances
            && (l.diskLimit ==> t.diskAvailable - cfg.disk >= 40000)
            && (l.memLimit ==> t.memAvailable - cfg.mem >= 512)
    ensures u !in Next(l, t, Add(u, cfg)).instances ==> Next(l, t, Add(u, cfg)) == t
  {
  }

  /** A node in maintenance says so; one that is full by the number of its instances refuses as full. */
  lemma RefusalReason(l: Limits, t: Table, cfg: Config)
    ensures RoomAvailable(l, t, cfg) == Some(NodeInMaintenance) <==> t.maintenance
    ensures !t.maintenance && |t.instances| >= l.maxInstances ==> RoomAvailable(l, t, cfg) == Some(FullComputeNode)
  {
  }

  /** The status a node reports: READY exactly when it has room for 40000 MB of disk space and 488 MB of memory. */
  lemma StatusIff(l: Limits, t: Table)
    ensures ComputeStatus(l, t) == READY <==> RoomAvailable(l, t, Config(0, 40000, 488)).None?
    ensures ComputeStatus(l, t) == MAINTENANCE <==> t.maintenance
  {
  }

  predicate NoRefresh(h: Log<Message>) {
    match h
    case Empty => true
    case Then(before, m) => NoRefresh(before) && !m.Refresh?
  }

  /** Before the first refresh nothing is known to be available, and with a limit on nothing is admitted. */
  lemma {:induction false} NothingBeforeRefresh(l: Limits, dirs: Log<Found>, maintenance: bool, h: Log<Message>)
    requires NoRefresh(h)
    ensures var t := Run(l, dirs, maintenance, h); t.memAvailable == 0 && t.diskAvailable == 0
    ensures forall cfg :: NonNegative(cfg) && (l.memLimit || l.diskLimit) ==>
              RoomAvailable(l, Run(l, dirs, maintenance, h), cfg).Some?
  {
    if h.Then? {
      NothingBeforeRefresh(l, dirs, maintenance, h.before);
      AvailableKept(l, Run(l, dirs, maintenance, h.before), h.last);
    } else {
      StartupUnknown(dirs);
    }
  }

  lemma {:induction false} StartupUnknown(dirs: Log<Found>)
    ensures Startup(dirs).memAvailable == 0 && Startup(dirs).diskAvailable == 0
  {
    if dirs.Then? {
      StartupUnknown(dirs.before);
    }
  }

  lemma SizeOfPut(m: map<Uuid, Instance>, u: Uuid, i: Instance)
    ensures |m[u := i]| == if u in m then |m| else |m| + 1
  {
    assert m[u := i].Keys == m.Keys + {u};
  }

  /** In every run there are never more instances than allowed, or than startup found if those were more. */
  lemma {:induction false} InstancesBounded(l: Limits, dirs: Log<Found>, maintenance: bool, h: Log<Message>)
    ensures var n := |Run(l, dirs, maintenance, h).instances|; n <= l.maxInstances || n <= |Startup(dirs).instances|
  {
    if h.Then? {
      InstancesBounded(l, dirs, maintenance, h.before);
      SizeStep(l, Run(l, dirs, maintenance, h.before), h.last);
    }
  }

  lemma SizeStep(l: Limits, t: Table, m: Message)
    ensures |Next(l, t, m).instances| <= |t.instances| || |Next(l, t, m).instances| <= l.maxInstances
  {
    match m {
      case Add(u, cfg) => SizeOfPut(t.instances, u, Fresh(cfg));
      case Remove(u) =>
        if u in t.instances {
          SmallerMap(t.instances, u);
        }
      case StateChange(u, running) =>
        if u in t.instances {
          SizeOfPut(t.instances, u, t.instances[u].(running := running));
        }
      case StatsUpdate(u, mem, disk, cpu) =>
        if u in t.instances {
          SizeOfPut(t.instances, u, t.instances[u].(memUsage := mem, diskUsage := disk, cpuUsage := cpu));
        }
      case _ =>
    }
  }

  // ---- What an entry holds, in terms of the run ----

  /** The configuration of the last directory of a name that loads. */
  function LastFound(dirs: Log<Found>, u: Uuid): Option<Config> {
    match dirs
    case Empty => None
    case Then(before, d) => if d.name == u && d.cfg.Some? then d.cfg else LastFound(before, u)
  }

  lemma {:induction false} StartupEntries(dirs: Log<Found>, u: Uuid)
    ensures u in Startup(dirs).instances <==> LastFound(dirs, u).Some?
    ensures u in Startup(dirs).instances ==>
            Startup(dirs).instances[u] == Instance(Pending, LastFound(dirs, u).value, -1, -1, -1)
  {
    if dirs.Then? {
      StartupEntries(dirs.before, u);
    }
  }

  /** What was last said of an instance since it was added: its maxima, its state, its usage. */
  datatype Record = Record(max: Config, running: Running, mem: int, disk: int, cpu: int)

  ghost function RecordOf(l: Limits, dirs: Log<Found>, maintenance: bool, h: Log<Message>, u: Uuid): Record {
    match h
    case Empty => Record(if LastFound(dirs, u).Some? then LastFound(dirs, u).value else ZERO, Pending, -1, -1, -1)
    case Then(before, m) =>
      var r := RecordOf(l, dirs, maintenance, before, u);
      match m
      case Add(v, cfg) =>
        if v == u && u !in Run(l, dirs, maintenance, before).instances then Record(cfg, Pending, -1, -1, -1) else r
      case StateChange(v, running) => if v == u then r.(running := running) else r
      case StatsUpdate(v, mem, disk, cpu) => if v == u then r.(mem := mem, disk := disk, cpu := cpu) else r
      case _ => r
  }

  ghost predicate Recorded(t: Table, u: Uuid, r: Record) {
    u in t.instances ==> t.instances[u] == Instance(r.running, r.max, r.mem, r.disk, r.cpu)
  }

  /** In every run an entry holds the maxima it was added with and the state and usage last reported since. */
  lemma {:induction false} EntryIsLatest(l: Limits, dirs: Log<Found>, maintenance: bool, h: Log<Message>, u: Uuid)
    ensures Recorded(Run(l, dirs, maintenance, h), u, RecordOf(l, dirs, maintenance, h, u))
  {
    if h.Then? {
      EntryIsLatest(l, dirs, maintenance, h.before, u);
    } else {
      StartupEntries(dirs, u);
    }
  }

  /** A removed instance is gone, and nothing else comes or goes with any message but its own. */
  lemma EntriesKept(l: Limits, t: Table, m: Message, u: Uuid)
    ensures m == Remove(u) ==> u !in Next(l, t, m).instances
    ensures m != Remove(u) && u in t.instances ==> u in Next(l, t, m).instances
    ensures !(m.Add? && m.uuid == u) && u !in t.instances ==> u !in Next(l, t, m).instances
  {
  }

  /** The last word on maintenance. */
  function MaintenanceOf(maintenance: bool, h: Log<Message>): bool {
    match h
    case Empty => maintenance
    case Then(before, m) => if m == Maintain then true else if m == Restore then false
      else MaintenanceOf(maintenance, before)
  }

  lemma {:induction false} MaintenanceIsLatest(l: Limits, dirs: Log<Found>, maintenance: bool, h: Log<Message>)
    ensures Run(l, dirs, maintenance, h).maintenance == MaintenanceOf(maintenance, h)
  {
    if h.Then? {
      MaintenanceIsLatest(l, dirs, maintenance, h.before);
    }
  }

  /** What is available changes with a refresh only: an add does not lower it, a removal does not raise it. */
  lemma AvailableKept(l: Limits, t: Table, m: Message)
    requires !m.Refresh?
    ensures Next(l, t, m).memAvailable == t.memAvailable && Next(l, t, m).diskAvailable == t.diskAvailable
  {
  }

  // ---- Maintenance ----

  /** An empty table in maintenance stays so under every message but a restore. */
  lemma MaintenanceStaysEmpty(l: Limits, t: Table, m: Message)
    requires t.maintenance && t.instances == map[] && m != Restore
    ensures Next(l, t, m).maintenance && Next(l, t, m).instances == map[] && Next(l, t, m).total == t.total
  {
  }

  // ---- The overseer object ----

  class State {
    const limits: Limits
    var instances: map<Uuid, Instance>
    var vcpusAllocated: int
    var diskSpaceAllocated: int
    var memoryAllocated: int
    var diskSpaceAvailable: int
    var memoryAvailable: int
    var maintenance: bool

    ghost function View(): Table
      reads this
    {
      Table(instances, Config(vcpusAllocated, diskSpaceAllocated, memoryAllocated),
            diskSpaceAvailable, memoryAvailable, maintenance)
    }

    constructor (limits: Limits, scan: Log<Found>, maintenanceFile: bool)
      ensures View() == Startup(scan).(maintenance := maintenanceFile) && this.limits == limits
    {
      this.limits := limits;
      maintenance := maintenanceFile;
      diskSpaceAvailable, memoryAvailable := 0, 0;
      instances := map[];
      vcpusAllocated, diskSpaceAllocated, memoryAllocated := 0, 0, 0;
      new;
      var dirs := Entries(scan);
      PrefixNone(scan);
      for i := 0 to |dirs|
        invariant View() == Startup(Prefix(scan, i)).(maintenance := maintenanceFile)
      {
        PrefixStep(scan, i);
        Reconnect(dirs[i]);
      }
    }

    /** The visit to one directory. */
    method Reconnect(d: Found)
      modifies this
      ensures View() == Scanned(old(View()), d)
    {
      if d.cfg.None? {
        return;
      }
      vcpusAllocated := vcpusAllocated + d.cfg.value.cpus;
      diskSpaceAllocated := diskSpaceAllocated + d.cfg.value.disk;
      memoryAllocated := memoryAllocated + d.cfg.value.mem;
      instances := instances[d.name := Fresh(d.cfg.value)];
    }

    method ProcessAdd(uuid: Uuid, cfg: Config) returns (error: Option<Reason>)
      modifies this
      ensures View() == Next(limits, old(View()), Add(uuid, cfg))
      ensures error.None? <==> uuid in instances
      ensures uuid !in old(instances) ==> error == RoomAvailable(limits, old(View()), cfg)
    {
      error := None;
      if uuid in instances {
        return;
      }
      error := FindRoom(cfg);
      if error.None? {
        vcpusAllocated := vcpusAllocated + cfg.cpus;
        diskSpaceAllocated := diskSpaceAllocated + cfg.disk;
        memoryAllocated := memoryAllocated + cfg.mem;
        instances := instances[uuid := Fresh(cfg)];
      }
    }

    method FindRoom(cfg: Config) returns (error: Option<Reason>)
      ensures error == RoomAvailable(limits, View(), cfg)
    {
      if maintenance {
        return Some(NodeInMaintenance);
      }
      if |instances| >= limits.maxInstances {
        return Some(FullComputeNode);
      }
      var disk := diskSpaceAvailable - cfg.disk;
      var mem := memoryAvailable - cfg.mem;
      if disk < DISK_SPACE_LWM {
        if limits.diskLimit {
          return Some(FullComputeNode);
        }
      }
      if mem < MEM_LWM {
        if limits.memLimit {
          return Some(FullComputeNode);
        }
      }
      return None;
    }

    method CurrentStatus() returns (status: Status)
      ensures status == ComputeStatus(limits, View())
    {
      if maintenance {
        return MAINTENANCE;
      }
      if |instances| >= limits.maxInstances {
        return FULL;
      }
      if diskSpaceAvailable < DISK_SPACE_HWM {
        if limits.diskLimit {
          return FULL;
        }
      }
      if memoryAvailable < MEM_HWM {
        if limits.memLimit {
          return FULL;
        }
      }
      return READY;
    }

    method ProcessRemove(uuid: Uuid) returns (ok: bool)
      modifies this
      ensures View() == Next(limits, old(View()), Remove(uuid))
      ensures ok <==> uuid in old(instances)
    {
      if uuid !in instances {
        return false;
      }
      var target := instances[uuid];
      diskSpaceAllocated := diskSpaceAllocated - target.max.disk;
      if diskSpaceAllocated < 0 {
        diskSpaceAllocated := 0;
      }
      vcpusAllocated := vcpusAllocated - target.max.cpus;
      if vcpusAllocated < 0 {
        vcpusAllocated := 0;
      }
      memoryAllocated := memoryAllocated - target.max.mem;
      if memoryAllocated < 0 {
        memoryAllocated := 0;
      }
      instances := instances - {uuid};
      return true;
    }

    method ProcessStateChange(uuid: Uuid, running: Running)
      modifies this
      ensures View() == Next(limits, old(View()), StateChange(uuid, running))
    {
      if uuid in instances {
        instances := instances[uuid := instances[uuid].(running := running)];
      }
    }

    method ProcessStatsUpdate(uuid: Uuid, mem: int, disk: int, cpu: int)
      modifies this
      ensures View() == Next(limits, old(View()), StatsUpdate(uuid, mem, disk, cpu))
    {
      if uuid in instances {
        instances := instances[uuid := instances[uuid].(memUsage := mem, diskUsage := disk, cpuUsage := cpu)];
      }
    }

    method ProcessMaintenance()
      modifies this
      ensures View() == Next(limits, old(View()), Maintain)
    {
      if maintenance {
        return;
      }
      maintenance := true;
    }

    method ProcessRestore()
      modifies this
      ensures View() == Next(limits, old(View()), Restore)
    {
      if !maintenance {
        return;
      }
      maintenance := false;
    }

    /** The loop ranges over the map in no particular order. */
    method UpdateAvailableResources(freeMem: int, freeDisk: int)
      modifies this
      ensures View() == Next(limits, old(View()), Refresh(freeMem, freeDisk))
    {
      var diskSpaceConsumed, memConsumed := 0, 0;
      var left := instances;
      while left != map[]
        invariant unchanged(this)
        invariant memConsumed + Sum(left, MemConsumed) == Sum(instances, MemConsumed)
        invariant diskSpaceConsumed + Sum(left, DiskConsumed) == Sum(instances, DiskConsumed)
        decreases |left|
      {
        var u :| u in left;
        var target := left[u];
        SumRemove(left, MemConsumed, u);
        SumRemove(left, DiskConsumed, u);
        SmallerMap(left, u);
        if target.diskUsage != -1 {
          diskSpaceConsumed := diskSpaceConsumed + target.diskUsage;
        }
        if target.memUsage != -1 {
          if target.memUsage < target.max.mem {
            memConsumed := memConsumed + target.memUsage;
          } else {
            memConsumed := memConsumed + target.max.mem;
          }
        }
        left := left - {u};
      }
      diskSpaceAvailable := (freeDisk + diskSpaceConsumed) - diskSpaceAllocated;
      memoryAvailable := (freeMem + memConsumed) - memoryAllocated;
    }
  }

  /** One message, as the overseer's loop dispatches it. */
  method Process(s: State, m: Message)
    modifies s
    ensures s.View() == Next(s.limits, old(s.View()), m)
  {
    match m {
      case Add(u, cfg) => var _ := s.ProcessAdd(u, cfg);
      case Remove(u) => var _ := s.ProcessRemove(u);
      case StateChange(u, running) => s.ProcessStateChange(u, running);
      case StatsUpdate(u, mem, disk, cpu) => s.ProcessStatsUpdate(u, mem, disk, cpu);
      case Maintain => s.ProcessMaintenance();
      case Restore => s.ProcessRestore();
      case Refresh(freeMem, freeDisk) => s.UpdateAvailableResources(freeMem, freeDisk);
    }
  }

  /** An overseer after any startup scan and any run of messages. */
  method Replay(l: Limits, dirs: Log<Found>, maintenance: bool, h: Log<Message>) returns (s: State)
    ensures fresh(s) && s.limits == l && s.View() == Run(l, dirs, maintenance, h)
  {
    match h {
      case Empty =>
        s := new State(l, dirs, maintenance);
      case Then(before, m) =>
        s := Replay(l, dirs, maintenance, before);
        Process(s, m);
    }
  }

  // The scan as a list and as a log.

  function Entries(scan: Log<Found>): (s: seq<Found>)
    ensures |s| == Length(scan)
  {
    match scan
    case Empty => []
    case Then(before, d) => Entries(before) + [d]
  }

  function Prefix(scan: Log<Found>, n: nat): Log<Found>
    requires n <= Length(scan)
  {
    if n == Length(scan) then scan else Prefix(scan.before, n)
  }

  lemma {:induction false} PrefixNone(scan: Log<Found>)
    ensures Prefix(scan, 0) == Empty
  {
    if scan.Then? {
      PrefixNone(scan.before);
    }
  }

  lemma {:induction false} PrefixStep(scan: Log<Found>, n: nat)
    requires n < Length(scan)
    ensures Prefix(scan, n + 1) == Then(Prefix(scan, n), Entries(scan)[n])
  {
    if n + 1 < Length(scan) {
      PrefixStep(scan.before, n);
    }
  }
}
