/** What each memory event does to the page counters and limits, in whole numbers, and what never changes over a run. */
module MemOutcomes {
  import opened Words
  import opened Containers
  import opened Agents
  import opened CpuControl
  import opened MemControl
  import opened Controller
  import opened CpuLedger
  import opened ReportOutcomes
  import opened Convergence
  import opened MemorySafety

  // ---------- one reclaim ----------

  /** What a limit leaves above a usage within it and the margin of 50 MiB, in bytes. */
  ghost function Spare(limit: nat, usage: nat): int { limit * 4096 - usage - 52_428_800 }

  /** A container whose usage is within its limit is shrunk to usage plus 50 MiB, in whole pages, if it has more than that
      and its agent accepts; the whole pages of the difference are credited. A usage beyond the limit wraps: the agent is
      asked all the same, and about 2^52 pages are credited. Nothing happens if the usage cannot be read. */
  lemma ReclaimIs(limit: nat, r: MemReading)
    requires limit * 4096 < TWO63 && (r.usage < TWO63 || r.usage == TWO64 - 4096)
    ensures r.usage == TWO64 - 4096 || !r.rpcOk || 0 <= limit * 4096 - r.usage <= 52_428_800 ==>
            LimitAfter(limit, r) == limit && PagesFrom(limit, r) == 0
    ensures r.usage < TWO63 && r.rpcOk && Spare(limit, r.usage) > 0 ==>
            LimitAfter(limit, r) == (r.usage + 52_428_800) / 4096 && PagesFrom(limit, r) == Spare(limit, r.usage) / 4096
    ensures r.usage < TWO63 && r.rpcOk && r.usage > limit * 4096 ==>
            && LimitAfter(limit, r) == (r.usage + 52_428_800) / 4096
            && PagesFrom(limit, r) == (TWO64 + Spare(limit, r.usage)) / 4096
  {
  }

  // ---------- the sweep ----------

  /** One container's turn: its newest entry is shrunk, the pages wait to be credited, and nothing else changes but that
      an agent entry may be left behind. */
  lemma SweepOutcome(s: State, id: ContainerId, r: MemReading)
    requires id in s.reg && Step(s, SweepReclaim(id, r)).Running?
    ensures var s', c := Step(s, SweepReclaim(id, r)).state, Back(s.reg[id]);
            if HasAgent(s.agents, id) then
              s' == s.(pending := s.pending + PagesFrom(c.memLimit, r),
                       reg := Update(s.reg, id, c.(memLimit := LimitAfter(c.memLimit, r))))
            else
              s' == s.(agents := LookUp(s.agents, id))
  {
    hide PagesFrom, LimitAfter, AsksShrink;
    if !HasAgent(s.agents, id) {
      NothingWithoutAgent(Back(s.reg[id]).memLimit);
      assert SetBack(s.reg[id], Back(s.reg[id])) == s.reg[id];
    }
  }

  lemma NothingWithoutAgent(limit: nat)
    ensures LimitAfter(limit, MemReading(0, false)) == limit && PagesFrom(limit, MemReading(0, false)) == 0
  {
  }

  /** The end of the sweep credits everything that waits, and nothing waits any more. */
  lemma CreditOutcome(s: State)
    requires s.mem.alloc >= 0
    ensures var s' := Step(s, SweepCredit).state;
            && Step(s, SweepCredit).Running?
            && s' == s.(pending := 0, mem := s'.mem)
            && s'.mem == s.mem.(unalloc := s.mem.unalloc + s.pending, alloc := Max(0, s.mem.alloc - s.pending))
  {
  }

  // ---------- a request ----------

  /** What a request reclaims: nothing while the pool holds pages. */
  ghost function RequestReclaims(s: State, fd: int, env: Readings): nat {
    if s.mem.unalloc > 0 then 0 else ReclaimedPages(s.reg, Seen(s.agents, s.reg.Keys, env), fd)
  }

  /** A request first fills an empty pool with all that can be reclaimed. If that is nothing, it is refused and the counters
      stay. Otherwise it gets one slice or all there is, and its limit is what it reported plus that. */
  lemma RequestOutcome(s: State, id: ContainerId, pages: nat, fd: int, env: Readings)
    requires PagesAccounted(s.mem) && id in s.reg && Step(s, MemRequest(id, pages, fd, env)).Running?
    ensures var s', got := Step(s, MemRequest(id, pages, fd, env)).state, RequestReclaims(s, fd, env);
            var pool := s.mem.unalloc + got;
            var granted := Min(pool, s.mem.slice);
            && id in s'.reg
            && (pool == 0 ==> s'.mem == s.mem)
            && (pool > 0 ==>
                 && s'.mem == s.mem.(unalloc := pool - granted, alloc := Max(0, s.mem.alloc - got) + granted)
                 && Back(s'.reg[id]).memLimit == pages + granted)
  {
    var seen := Seen(s.agents, s.reg.Keys, env);
    StepIsEffect(s, MemRequest(id, pages, fd, env));
    hide Step, Seen, ReclaimedPages, Replenish, RequestAgents;
    ReplenishOutcome(s.mem, s.reg, seen, fd);
    var (mem, reg) := Replenish(s.mem, s.reg, seen, fd);
    PoolGrant(s.(agents := RequestAgents(s, fd)), mem, reg, id, pages);
    hide GrantStep;
  }

  lemma ReplenishOutcome(mem: MemCounters, reg: Registry, env: Readings, fd: int)
    requires PagesAccounted(mem)
    ensures var (mem', reg') := Replenish(mem, reg, env, fd);
            var got := if mem.unalloc > 0 then 0 else ReclaimedPages(reg, env, fd);
            && mem' == mem.(unalloc := mem.unalloc + got, alloc := Max(0, mem.alloc - got))
            && reg'.Keys == reg.Keys
  {
    hide ReclaimedPages;
  }

  lemma PoolGrant(s: State, mem: MemCounters, reg: Registry, id: ContainerId, pages: nat)
    requires id in reg && mem.unalloc >= 0
    ensures GrantStep(s, mem, reg, id, pages).Running?
    ensures var s', granted := GrantStep(s, mem, reg, id, pages).state, Min(mem.unalloc, mem.slice);
            && id in s'.reg
            && (mem.unalloc == 0 ==> s'.mem == s.mem)
            && (mem.unalloc > 0 ==>
                 && s'.mem == mem.(unalloc := mem.unalloc - granted, alloc := mem.alloc + granted)
                 && Back(s'.reg[id]).memLimit == pages + granted)
  {
  }

  /** What a request does to the other containers: nothing while the pool holds pages or if they share the requester's
      connection; otherwise the newest one under each id is shrunk as far as the readings say. */
  lemma RequestOthers(s: State, id: ContainerId, pages: nat, fd: int, env: Readings, j: ContainerId)
    requires id in s.reg && j in s.reg && j != id && Step(s, MemRequest(id, pages, fd, env)).Running?
    ensures var s' := Step(s, MemRequest(id, pages, fd, env)).state;
            var c, r := Back(s.reg[j]), SeenReading(s.agents, j, ReadingOf(env, j));
            && j in s'.reg
            && s'.reg[j] ==
               if s.mem.unalloc > 0 || c.fd == fd then s.reg[j]
               else SetBack(s.reg[j], c.(memLimit := LimitAfter(c.memLimit, r)))
  {
    hide Step, ReclaimedPages, LimitAfter, SeenReading, Replenish, RequestAgents;
    StepIsEffect(s, MemRequest(id, pages, fd, env));
    var seen := Seen(s.agents, s.reg.Keys, env);
    assert ReadingOf(seen, j) == SeenReading(s.agents, j, ReadingOf(env, j));
    ReplenishOthers(s.mem, s.reg, seen, fd, j);
    GrantOthers(s.(agents := RequestAgents(s, fd)), Replenish(s.mem, s.reg, seen, fd).0,
                Replenish(s.mem, s.reg, seen, fd).1, id, pages, j);
    hide GrantStep;
  }

  lemma ReplenishOthers(mem: MemCounters, reg: Registry, env: Readings, fd: int, j: ContainerId)
    requires j in reg
    ensures var reg', c := Replenish(mem, reg, env, fd).1, Back(reg[j]);
            && j in reg'
            && reg'[j] == if mem.unalloc > 0 || c.fd == fd then reg[j]
                          else SetBack(reg[j], c.(memLimit := LimitAfter(c.memLimit, ReadingOf(env, j))))
  {
    hide ReclaimedPages, LimitAfter, TopUp;
  }

  lemma GrantOthers(s: State, mem: MemCounters, reg: Registry, id: ContainerId, pages: nat, j: ContainerId)
    requires j in reg && j != id && GrantStep(s, mem, reg, id, pages).Running?
    ensures var s' := GrantStep(s, mem, reg, id, pages).state; j in s'.reg && s'.reg[j] == reg[j]
  {
  }

  // ---------- a new pod's limit ----------

  /** The limit a pod is read to have. */
  ghost function PodPages(s: State, id: ContainerId, bytes: nat): nat {
    if HasAgent(s.agents, id) then bytes / 4096 else 0
  }

  /** The pages a new pod reclaims: only if it exceeds a pool that is not empty. */
  ghost function PodReclaimed(s: State, id: ContainerId, k: nat, bytes: nat, env: Readings): nat
    requires id in s.reg && k < |s.reg[id]|
  {
    if 0 < s.mem.unalloc < PodPages(s, id, bytes)
    then ReclaimedPages(s.reg, Seen(s.agents, s.reg.Keys, env), s.reg[id][k].fd) else 0
  }

  /** The limit is recorded in every case. A pod that fits, at once or after reclaiming, is charged; one that meets an empty
      pool is not charged; one that does not fit even after reclaiming is charged in full, beyond the pool, if its agent
      accepts to shrink it, and not at all if the agent declines. */
  lemma PodLimitOutcome(s: State, id: ContainerId, k: nat, bytes: nat, env: Readings, rpcOk: bool)
    requires PagesAccounted(s.mem) && id in s.reg && k < |s.reg[id]|
    requires Step(s, PodLimit(id, k, bytes, env, rpcOk)).Running?
    ensures var s' := Step(s, PodLimit(id, k, bytes, env, rpcOk)).state;
            var pages, got := PodPages(s, id, bytes), PodReclaimed(s, id, k, bytes, env);
            var pool, alloc := s.mem.unalloc + got, Max(0, s.mem.alloc - got);
            && id in s'.reg && k < |s'.reg[id]| && s'.reg[id][k].memLimit == pages
            && (pages <= pool ==> s'.mem == s.mem.(unalloc := pool - pages, alloc := alloc + pages))
            && (s.mem.unalloc == 0 < pages ==> s'.mem == s.mem)
            && (0 < s.mem.unalloc && pool < pages && rpcOk ==> s'.mem == s.mem.(unalloc := 0, alloc := alloc + pages))
            && (0 < s.mem.unalloc && pool < pages && !rpcOk ==> s'.mem == s.mem.(unalloc := pool, alloc := alloc))
  {
    hide Step, Seen, ReclaimedPages, PayForPod, PodLimitAgents, PodLimitStep;
    StepIsEffect(s, PodLimit(id, k, bytes, env, rpcOk));
    var seen, fd := Seen(s.agents, s.reg.Keys, env), s.reg[id][k].fd;
    var seenBytes := if HasAgent(s.agents, id) then bytes else 0;
    PodLimitSets(s, id, k, seenBytes, seen, rpcOk);
    PayOutcome(s.mem, s.reg, seen, fd, PodPages(s, id, bytes), rpcOk);
  }

  lemma PodLimitSets(s: State, id: ContainerId, k: nat, bytes: nat, env: Readings, rpcOk: bool)
    requires id in s.reg && k < |s.reg[id]|
    ensures var s' := PodLimitStep(s, id, k, bytes, env, rpcOk);
            && s'.mem == PayForPod(s.mem, s.reg, env, s.reg[id][k].fd, bytes / 4096, rpcOk).0
            && id in s'.reg && k < |s'.reg[id]| && s'.reg[id][k].memLimit == bytes / 4096
  {
    hide ReclaimedPages, PayForPod, PodLimitAgents;
    PayFrames(s.mem, s.reg, env, s.reg[id][k].fd, bytes / PAGE, rpcOk);
    var reg := PayForPod(s.mem, s.reg, env, s.reg[id][k].fd, bytes / PAGE, rpcOk).1;
    assert QueueFramed(s.reg[id], reg[id]);
  }

  lemma PayOutcome(mem: MemCounters, reg: Registry, env: Readings, fd: int, pages: nat, rpcOk: bool)
    requires PagesAccounted(mem)
    ensures var mem' := PayForPod(mem, reg, env, fd, pages, rpcOk).0;
            var got := if 0 < mem.unalloc < pages then ReclaimedPages(reg, env, fd) else 0;
            var pool, alloc := mem.unalloc + got, Max(0, mem.alloc - got);
            && (pages <= pool ==> mem' == mem.(unalloc := pool - pages, alloc := alloc + pages))
            && (mem.unalloc == 0 < pages ==> mem' == mem)
            && (0 < mem.unalloc && pool < pages && rpcOk ==> mem' == mem.(unalloc := 0, alloc := alloc + pages))
            && (0 < mem.unalloc && pool < pages && !rpcOk ==> mem' == mem.(unalloc := pool, alloc := alloc))
  {
    hide ReclaimedPages, ReclaimOthers;
  }

  // ---------- what never changes ----------

  lemma StepKeepsMemSlice(s: State, e: Event)
    requires Step(s, e).Running?
    ensures Step(s, e).state.mem.slice == s.mem.slice
  {
    StepIsEffect(s, e);
    hide Step;
    EffectKeepsMemSlice(s, SeenBy(s, e));
    hide Effect;
  }

  lemma EffectKeepsMemSlice(s: State, e: Event)
    requires Effect(s, e).Running?
    ensures Effect(s, e).state.mem.slice == s.mem.slice
  {
    hide RequestStep, PodLimitStep, Report, Push, Pop, Update, Admission, IdleReset, Release, FairShare, ReclaimQueue;
    match e
    case MemRequest(id, pages, fd, env) => RequestKeepsSlice(s, id, pages, fd, env);
    case PodLimit(id, k, bytes, env, rpcOk) =>
      if id in s.reg && k < |s.reg[id]| {
        PodLimitKeepsSlice(s, id, k, bytes, env, rpcOk);
      }
    case _ =>
  }

  lemma RequestKeepsSlice(s: State, id: ContainerId, pages: nat, fd: int, env: Readings)
    requires RequestStep(s, id, pages, fd, env).Running?
    ensures RequestStep(s, id, pages, fd, env).state.mem.slice == s.mem.slice
  {
    hide ReclaimedPages, ReclaimOthers, RequestAgents, Update;
  }

  lemma PodLimitKeepsSlice(s: State, id: ContainerId, k: nat, bytes: nat, env: Readings, rpcOk: bool)
    requires id in s.reg && k < |s.reg[id]|
    ensures PodLimitStep(s, id, k, bytes, env, rpcOk).mem.slice == s.mem.slice
  {
    hide ReclaimedPages, ReclaimOthers, PodLimitAgents, SetLimit;
  }

  lemma {:induction false} RunKeepsSlices(s: State, es: seq<Event>)
    requires Run(s, es).Running?
    ensures Run(s, es).state.mem.slice == s.mem.slice && Run(s, es).state.cpu.slice == s.cpu.slice
    decreases es
  {
    hide Step;
    if es != [] {
      StepKeepsMemSlice(s, es[0]);
      StepKeepsSlice(s, es[0]);
      RunKeepsSlices(Step(s, es[0]).state, es[1..]);
    }
  }

  /** In every run from the application spec the totals are those of the spec, the slices are 30 ms and 5000 pages, and the
      fair share is the total over the number of registered ids. */
  lemma ConstantsOverRuns(cpuLimit: nat, memLimit: nat, es: seq<Event>)
    requires cpuLimit * 100_000 < TWO63 && memLimit * 1024 * 1024 < TWO63
    requires Run(AppSpec(cpuLimit, memLimit), es).Running?
    ensures var t := Run(AppSpec(cpuLimit, memLimit), es).state;
            && t.cpu.total == cpuLimit * 100_000 && t.cpu.slice == 30_000_000
            && t.mem.limit == memLimit * 256 && t.mem.slice == 5000
            && (|t.reg| > 0 ==> t.fair == t.cpu.total / |t.reg|)
  {
    var s := AppSpec(cpuLimit, memLimit);
    RunRefreshed(s, es);
    RunKeepsSlices(s, es);
    PagesAlwaysAccounted(s, es);
    hide Run;
  }
}
