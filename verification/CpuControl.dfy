/** What each CPU handler computes: admission, the usage report, the idle reset.
    A usage report first reaches a verdict on the container's next quota and then settles it
    against the global counters. */
module CpuControl {
  import opened Words
  import opened Containers

  const MIN_QUOTA: Word := 30_000_000
  const ONE_CORE: Word := 100_000_000
  const MAX_CPU_LOSS: int := 1000
  const MAX_UNUSED_RT: Word := 5_000_000

  /** The application-wide CPU counters, in nanoseconds of runtime per period. */
  datatype CpuCounters = CpuCounters(slice: Word, unalloc: Word, total: Word, overrun: Word, alloc: Word)

  /** One usage report, the clock when it is handled, and whether the agent accepts the resize. */
  datatype Usage = Usage(rxQuota: Word, rtRemaining: Word, throttled: nat, seqNum: Word, now: int, rpcOk: bool)

  // ---------- admission ----------

  /** The quota a new pod gets, and the counters after paying for it. */
  function Admission(cpu: CpuCounters, req: Word): (CpuCounters, Word) {
    if req <= cpu.unalloc then
      (cpu.(unalloc := SatSub(cpu.unalloc, req), alloc := AddWord(cpu.alloc, req)), req)
    else if cpu.unalloc == 0 then
      (cpu.(overrun := AddWord(cpu.overrun, cpu.slice), alloc := AddWord(cpu.alloc, cpu.slice)), cpu.slice)
    else
      (cpu.(unalloc := 0, alloc := AddWord(cpu.alloc, cpu.unalloc)), cpu.unalloc)
  }

  // ---------- usage report: reconciliation and leak repair ----------

  predicate Mismatch(c: Container, rxQuota: Word) {
    rxQuota / 1000 != c.quota / 1000
  }

  /** A mismatch is tolerated three times; the fourth one forces reconciliation. */
  predicate Tolerated(c: Container, rxQuota: Word) {
    Mismatch(c, rxQuota) && c.mismatches <= 2
  }

  /** Adopting the reported quota moves the difference between the pool and the allocation. */
  function ReconcileCounters(cpu: CpuCounters, quota: Word, rx: Word): CpuCounters {
    if rx < quota then
      cpu.(alloc := SatSub(cpu.alloc, quota - rx), unalloc := AddWord(cpu.unalloc, quota - rx))
    else
      cpu.(unalloc := SatSub(cpu.unalloc, rx - quota), alloc := AddWord(cpu.alloc, rx - quota))
  }

  function CountersAfter(cpu: CpuCounters, c: Container, rx: Word): CpuCounters {
    if Mismatch(c, rx) then ReconcileCounters(cpu, c.quota, rx) else cpu
  }

  function ContainerAfter(c: Container, rx: Word): Container {
    if Mismatch(c, rx) then SetQuota(c, rx).(mismatches := 0) else c
  }

  function LeakSeen(cpu: CpuCounters, leak: int): int {
    leak + Signed(cpu.total) - Signed(AddWord(cpu.alloc, cpu.unalloc))
  }

  function RepairLeak(cpu: CpuCounters, leak: int): (CpuCounters, int) {
    var seen := LeakSeen(cpu, leak);
    if seen >= MAX_CPU_LOSS then (cpu.(unalloc := AddWord(cpu.unalloc, Wrap(seen))), 0) else (cpu, seen)
  }

  // ---------- usage report: the verdict ----------

  datatype Verdict =
    | Keep
    | Grant(quota: Word)   // paid from the unallocated pool
    | Return(quota: Word)  // given back to the unallocated pool
    | Borrow(quota: Word)  // beyond the total, recorded as overrun
    | Repay(quota: Word)   // taken back against the overrun

  function Percent(amount: Word, fair: Word): real
    requires fair > 0
  {
    amount as real / fair as real
  }

  function Scaled(percent: real, amount: Word): Word {
    Cast(percent * amount as real)
  }

  /** How much a container above its fair share is asked to give up. */
  function OverrunShare(fair: Word, slice: Word, rx: Word): Word
    requires fair < rx
  {
    var over := rx - fair;
    var want :=
      if fair == 0 then MAX_WORD else
        var percent := Percent(over, fair);
        if percent > 1.0 then Scaled(percent, slice) else Scaled(percent, over);
    if want < slice / 2 then over else want
  }

  /** How much a throttled container below its fair share should gain. */
  function RaiseShare(fair: Word, slice: Word, rx: Word): Word
    requires rx < fair
  {
    var lacking := fair - rx;
    if lacking > slice / 2 then Scaled(Percent(lacking, fair), lacking) else lacking
  }

  function Raise(cpu: CpuCounters, fair: Word, rx: Word): Verdict
    requires rx < fair
  {
    var share := RaiseShare(fair, cpu.slice, rx);
    if cpu.unalloc == 0 then
      Borrow(Wrap(rx + share))
    else if fair - rx > cpu.slice / 2 then
      Grant(Wrap(rx + MinWord(cpu.unalloc, share)))
    else
      Grant(Wrap(rx + share))
  }

  /** What a throttled container at or above its fair share may gain: up to twenty slices per throttled period. */
  function ThrottleShare(slice: Word, thrMean: real): Word {
    Scaled(20.0 * thrMean, slice)
  }

  function Changed(v: Verdict, rx: Word): Verdict
    requires !v.Keep?
  {
    if v.quota == rx then Keep else v
  }

  function Decide(cpu: CpuCounters, fair: Word, u: Usage, idle: bool, rtMean: Word, thrMean: real): Verdict {
    var rx := u.rxQuota;
    if idle && cpu.unalloc > 0 then
      Changed(Grant(MinWord(cpu.unalloc, ONE_CORE)), rx)
    else if cpu.overrun > 0 && rx > fair then
      Repay(Wrap(rx - MinWord(cpu.overrun, OverrunShare(fair, cpu.slice, rx))))
    else if rx < fair && thrMean > 0.5 then
      Raise(cpu, fair, rx)
    else if thrMean >= 0.1 && cpu.unalloc > 0 then
      Changed(Grant(Wrap(rx + MinWord(cpu.unalloc, ThrottleShare(cpu.slice, thrMean)))), rx)
    else if rx > 0 && Signed(u.rtRemaining) as real / rx as real > 0.2 && rx >= cpu.slice then
      Changed(Return(MaxWord(cpu.slice, Cast(rx as real * 0.8))), rx)
    else if rtMean > MAX_UNUSED_RT && rx > cpu.slice then
      Changed(Return(MaxWord(cpu.slice, Wrap(rx - MAX_UNUSED_RT))), rx)
    else
      Keep
  }

  // ---------- usage report: settlement ----------

  /** Move the difference between the reported and the new quota, then adopt the new quota. */
  function SettleCounters(cpu: CpuCounters, rx: Word, v: Verdict): CpuCounters {
    match v
    case Keep => cpu
    case Grant(q) =>
      cpu.(unalloc := SatSub(cpu.unalloc, Wrap(q - rx)), alloc := AddWord(cpu.alloc, Wrap(q - rx)))
    case Return(q) =>
      cpu.(unalloc := AddWord(cpu.unalloc, Wrap(rx - q)), alloc := SatSub(cpu.alloc, Wrap(rx - q)))
    case Borrow(q) =>
      cpu.(overrun := AddWord(cpu.overrun, Wrap(q - rx)), alloc := AddWord(cpu.alloc, Wrap(q - rx)))
    case Repay(q) =>
      cpu.(overrun := SatSub(cpu.overrun, Wrap(rx - q)), alloc := SatSub(cpu.alloc, Wrap(rx - q)))
  }

  function SettleContainer(c: Container, v: Verdict): Container {
    if v.Keep? then c else SetQuota(c, v.quota)
  }

  // ---------- usage report: the whole handler ----------

  function Touch(c: Container, u: Usage): Container {
    c.(lastSeen := u.now, seqNum := u.seqNum)
  }

  /** The verdict on a report that got past reconciliation and whose sample is in the windows. */
  function VerdictOn(cpu: CpuCounters, fair: Word, sampled: Container, u: Usage, idle: bool): Verdict {
    Decide(cpu, fair, u, idle, Cast(sampled.rt.mean), sampled.th.mean)
  }

  /** The agent accepts a new quota. A handler waits for ever before it asks for a container whose own admission found no
      agent, so for such a container no verdict takes effect. */
  predicate Accepts(c: Container, u: Usage) {
    c.inserted && u.rpcOk
  }

  /** A verdict takes effect only if the agent accepts the new quota. */
  function Apply(cpu: CpuCounters, c: Container, u: Usage, v: Verdict): (CpuCounters, Container) {
    if Accepts(c, u) then (SettleCounters(cpu, u.rxQuota, v), SettleContainer(c, v)) else (cpu, c)
  }

  function Resize(cpu: CpuCounters, fair: Word, sampled: Container, u: Usage, idle: bool): (CpuCounters, Container) {
    Apply(cpu, sampled, u, VerdictOn(cpu, fair, sampled, u, idle))
  }

  /** The container a verdict is reached on: touched, reconciled and sampled. */
  function Observed(c: Container, u: Usage): Container {
    Sample(ContainerAfter(Touch(c, u), u.rxQuota), u.rtRemaining, u.throttled)
  }

  function Report(cpu: CpuCounters, fair: Word, leak: int, c: Container, u: Usage): (CpuCounters, int, Container) {
    if Tolerated(c, u.rxQuota) then
      (cpu, leak, Touch(c, u).(mismatches := c.mismatches + 1))
    else
      var (cpu', leak') := RepairLeak(CountersAfter(cpu, c, u.rxQuota), leak);
      var (cpu'', c'') := Resize(cpu', fair, Observed(c, u), u, IsIdle(c, u.now));
      (cpu'', leak', c'')
  }

  /** Whether a report asks the agent for a new quota. */
  predicate AsksQuota(cpu: CpuCounters, fair: Word, leak: int, c: Container, u: Usage) {
    && !Tolerated(c, u.rxQuota)
    && !VerdictOn(RepairLeak(CountersAfter(cpu, c, u.rxQuota), leak).0, fair, Observed(c, u), u, IsIdle(c, u.now)).Keep?
  }

  // ---------- idle reset ----------

  predicate NeedsIdleReset(c: Container, now: int) {
    IsIdle(c, now) && c.quota != MIN_QUOTA
  }

  /** An idle container is reset to 30 ms; the difference goes through 64-bit wrap-around. */
  function IdleReset(cpu: CpuCounters, c: Container): (CpuCounters, Container) {
    var diff := Wrap(c.quota - MIN_QUOTA);
    (cpu.(unalloc := AddWord(cpu.unalloc, diff), alloc := SatSub(cpu.alloc, diff)), SetQuota(c, MIN_QUOTA))
  }

  // ---------- deletion ----------

  function Release(cpu: CpuCounters, quota: Word): CpuCounters {
    cpu.(alloc := SatSub(cpu.alloc, quota), unalloc := AddWord(cpu.unalloc, quota))
  }
}
