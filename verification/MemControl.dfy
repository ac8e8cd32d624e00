/** What each memory handler computes: reclaim from one container, reclaim from all others,
    a container's request for pages, and the limit of a new pod. */
module MemControl {
  import opened Words
  import opened Sums
  import opened Containers
  import opened Agents

  const PAGE: int := 4096
  const SAFE_MARGIN: int := 52_428_800
  /** What the usage reading returns when the container cannot be read. */
  const READ_FAILED: Word := TWO64 - 4096

  /** The application-wide page counters. */
  datatype MemCounters = MemCounters(limit: nat, unalloc: int, alloc: int, slice: nat)

  /** A container's memory usage in bytes, and whether its agent accepts a resize. */
  datatype MemReading = MemReading(usage: Word, rpcOk: bool)

  type Queue = q: seq<Container> | |q| > 0 witness [NewContainer(0, 0, 0, 0, false)]
  type Registry = map<ContainerId, Queue>
  type Readings = map<ContainerId, MemReading>

  function Back(q: Queue): Container { q[|q| - 1] }

  function SetBack(q: Queue, c: Container): Queue { q[|q| - 1 := c] }

  function ReadingOf(env: Readings, id: ContainerId): MemReading {
    if id in env then env[id] else MemReading(READ_FAILED, false)
  }

  // ---------- the pool ----------

  function NonNegative(x: int): nat { if x < 0 then 0 else x }

  function Charge(mem: MemCounters, pages: nat): MemCounters {
    mem.(unalloc := NonNegative(mem.unalloc - pages), alloc := mem.alloc + pages)
  }

  function Credit(mem: MemCounters, pages: nat): MemCounters {
    mem.(unalloc := mem.unalloc + pages, alloc := NonNegative(mem.alloc - pages))
  }

  // ---------- reclaim ----------

  /** Whether reclaim asks the agent to shrink a container with this limit; the subtraction is unsigned. */
  predicate AsksShrink(limit: nat, usage: Word) {
    && usage != READ_FAILED
    && Wrap(Wrap(limit * PAGE) - usage) > SAFE_MARGIN
  }

  predicate Resizes(limit: nat, r: MemReading) {
    AsksShrink(limit, r.usage) && r.rpcOk
  }

  /** Without an agent the usage reads as 0, and nobody accepts a resize. */
  function SeenReading(agents: AgentMap, id: ContainerId, r: MemReading): MemReading {
    if HasAgent(agents, id) then r else MemReading(0, false)
  }

  function Seen(agents: AgentMap, ids: set<ContainerId>, env: Readings): Readings {
    map id | id in ids :: SeenReading(agents, id, ReadingOf(env, id))
  }

  /** Reclaim asks for a resize and finds no agent to ask. */
  predicate ShrinkMissesAgent(agents: AgentMap, id: ContainerId, limit: nat, r: MemReading) {
    !HasAgent(agents, id) && AsksShrink(limit, r.usage)
  }

  /** The new limit: usage plus the margin, in whole pages. */
  function LimitAfter(limit: nat, r: MemReading): nat {
    if Resizes(limit, r) then Wrap(r.usage + SAFE_MARGIN) / PAGE else limit
  }

  /** The pages credited to the pool for it. */
  function PagesFrom(limit: nat, r: MemReading): nat {
    if Resizes(limit, r) then Wrap(Wrap(limit * PAGE) - Wrap(r.usage + SAFE_MARGIN)) / PAGE else 0
  }

  function ReclaimQueue(q: Queue, r: MemReading): Queue {
    SetBack(q, Back(q).(memLimit := LimitAfter(Back(q).memLimit, r)))
  }

  predicate Spared(q: Queue, fd: int) { Back(q).fd == fd }

  /** Every container but the requester's gives up what it has above usage plus margin. */
  function ReclaimOthers(reg: Registry, env: Readings, fd: int): Registry {
    map id | id in reg :: if Spared(reg[id], fd) then reg[id] else ReclaimQueue(reg[id], ReadingOf(env, id))
  }

  function Others(reg: Registry, fd: int): set<ContainerId> {
    set id | id in reg && !Spared(reg[id], fd)
  }

  /** Some container that is to be reclaimed from has no agent to ask. */
  predicate ReclaimMissesAgent(agents: AgentMap, reg: Registry, env: Readings, fd: int) {
    exists id :: id in Others(reg, fd) && ShrinkMissesAgent(agents, id, Back(reg[id]).memLimit, ReadingOf(env, id))
  }

  ghost function PagesFromOthers(reg: Registry, env: Readings, fd: int): map<ContainerId, nat> {
    map id | id in reg :: if Spared(reg[id], fd) then 0 else PagesFrom(Back(reg[id]).memLimit, ReadingOf(env, id))
  }

  ghost function ReclaimedPages(reg: Registry, env: Readings, fd: int): nat {
    SumMap(PagesFromOthers(reg, env, fd))
  }

  // ---------- a request for pages ----------

  /** Credit reclaimed pages to an exhausted pool; a negative pool is first lifted to zero. */
  function TopUp(mem: MemCounters, pages: nat): MemCounters {
    if pages == 0 then mem
    else Credit(if mem.unalloc < 0 then Credit(mem, -mem.unalloc) else mem, pages)
  }

  /** The pool and registry after a request made sure that pages are available, if it could. */
  ghost function Replenish(mem: MemCounters, reg: Registry, env: Readings, fd: int): (MemCounters, Registry) {
    if mem.unalloc > 0 then (mem, reg)
    else (TopUp(mem, ReclaimedPages(reg, env, fd)), ReclaimOthers(reg, env, fd))
  }

  function GrantedPages(mem: MemCounters): nat
    requires mem.unalloc > 0
  {
    if mem.unalloc > mem.slice then mem.slice else mem.unalloc
  }

  // ---------- the limit of a new pod ----------

  /** Pay for a pod after crediting reclaimed pages. If even these do not suffice the pod itself is to be shrunk, and
      its full limit is charged when the agent accepts. */
  function PayAfterReclaim(mem: MemCounters, reclaimed: nat, pages: nat, rpcOk: bool): MemCounters {
    var mem' := Credit(mem, reclaimed);
    if pages <= mem'.unalloc || rpcOk then Charge(mem', pages) else mem'
  }

  /** A pod that exceeds a pool with pages in it is paid for after reclaiming. */
  predicate PodReclaims(mem: MemCounters, pages: nat) {
    pages > mem.unalloc && mem.unalloc != 0
  }

  /** Even reclaiming does not suffice, and the pod itself is to be shrunk. */
  ghost predicate PodShrinks(mem: MemCounters, reg: Registry, env: Readings, fd: int, pages: nat) {
    PodReclaims(mem, pages) && pages > mem.unalloc + ReclaimedPages(reg, env, fd)
  }

  /** The pool and registry after paying for a new pod with limit `pages`. */
  ghost function PayForPod(mem: MemCounters, reg: Registry, env: Readings, fd: int, pages: nat, rpcOk: bool)
    : (MemCounters, Registry)
  {
    if pages <= mem.unalloc then
      (Charge(mem, pages), reg)
    else if mem.unalloc == 0 then
      (mem, reg)
    else
      (PayAfterReclaim(mem, ReclaimedPages(reg, env, fd), pages, rpcOk), ReclaimOthers(reg, env, fd))
  }
}
