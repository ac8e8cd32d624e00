/** The page pool over whole runs: what reclaim returns, what a refusal means, and that container limits
    never sum above what is allocated. */
module MemorySafety {
  import opened Words
  import opened Sums
  import opened Containers
  import opened CpuControl
  import opened MemControl
  import opened Controller

  // ---------- one reclaim ----------

  /** A limit whose byte count stays clear of the sign bit. */
  ghost predicate SmallLimit(limit: nat) { limit * PAGE < TWO63 }

  /** The reading does not exceed the tracked limit, or reclaim leaves the container alone. */
  ghost predicate SoundReading(limit: nat, r: MemReading) {
    r.usage == READ_FAILED || !r.rpcOk || r.usage <= limit * PAGE
  }

  /** The page lost to rounding when usage is not page aligned. */
  ghost function Loss(limit: nat, r: MemReading): nat {
    if Resizes(limit, r) && r.usage % PAGE != 0 then 1 else 0
  }

  /** A sound reclaim splits the old limit into the new limit, the credited pages and at most one lost page; the new
      limit exceeds usage by more than the margin less one page. */
  lemma ReclaimSplits(limit: nat, r: MemReading)
    requires SmallLimit(limit) && SoundReading(limit, r)
    ensures LimitAfter(limit, r) + PagesFrom(limit, r) + Loss(limit, r) == limit
    ensures Resizes(limit, r) ==> LimitAfter(limit, r) * PAGE > r.usage + SAFE_MARGIN - PAGE
  {
    if Resizes(limit, r) {
      var target := r.usage + SAFE_MARGIN;
      assert SAFE_MARGIN == 12800 * PAGE;
      assert target % PAGE == r.usage % PAGE;
      assert limit * PAGE - target >= 0;
    }
  }

  /** When the resize goes through, reclaim credits no more than it took away exactly when usage was within the limit;
      beyond it the unsigned difference wraps and credits about 2^52 pages. */
  lemma ReclaimSoundIff(limit: nat, r: MemReading)
    requires SmallLimit(limit) && r.usage < TWO63 && Resizes(limit, r)
    ensures LimitAfter(limit, r) + PagesFrom(limit, r) <= limit <==> r.usage <= limit * PAGE
  {
  }

  // ---------- reclaim from all others ----------

  ghost predicate SoundReadings(reg: Registry, env: Readings, fd: int) {
    forall id :: id in reg ==> Spared(reg[id], fd) || SoundReading(Back(reg[id]).memLimit, ReadingOf(env, id))
  }

  ghost function LossFromOthers(reg: Registry, env: Readings, fd: int): map<ContainerId, nat> {
    map id | id in reg :: if Spared(reg[id], fd) then 0 else Loss(Back(reg[id]).memLimit, ReadingOf(env, id))
  }

  ghost function ReclaimLoss(reg: Registry, env: Readings, fd: int): nat {
    SumMap(LossFromOthers(reg, env, fd))
  }

  lemma BackLimitBounded(reg: Registry, id: ContainerId, k: nat)
    requires id in reg && k < |reg[id]|
    ensures reg[id][k].memLimit <= Total(reg, LimitOf)
  {
    TotalSetEntry(reg, id, k, reg[id][k], LimitOf);
  }

  lemma ReclaimQueueSplits(q: Queue, r: MemReading)
    requires SmallLimit(Back(q).memLimit) && SoundReading(Back(q).memLimit, r)
    ensures SumSeq(ReclaimQueue(q, r), LimitOf) + PagesFrom(Back(q).memLimit, r) + Loss(Back(q).memLimit, r)
         == SumSeq(q, LimitOf)
  {
    ReclaimSplits(Back(q).memLimit, r);
    SumSeqUpdate(q, |q| - 1, Back(ReclaimQueue(q, r)), LimitOf);
  }

  lemma KeyBalance(reg: Registry, env: Readings, fd: int, id: ContainerId)
    requires SmallLimit(Total(reg, LimitOf)) && SoundReadings(reg, env, fd) && id in reg
    ensures Weights(ReclaimOthers(reg, env, fd), LimitOf)[id] + PagesFromOthers(reg, env, fd)[id]
          + LossFromOthers(reg, env, fd)[id] == Weights(reg, LimitOf)[id]
  {
    if !Spared(reg[id], fd) {
      BackLimitBounded(reg, id, |reg[id]| - 1);
      ReclaimQueueSplits(reg[id], ReadingOf(env, id));
    }
  }

  lemma SameKeys(reg: Registry, env: Readings, fd: int)
    ensures Weights(ReclaimOthers(reg, env, fd), LimitOf).Keys == reg.Keys
    ensures PagesFromOthers(reg, env, fd).Keys == reg.Keys
    ensures LossFromOthers(reg, env, fd).Keys == reg.Keys
    ensures Weights(reg, LimitOf).Keys == reg.Keys
  {
  }

  /** Over any number of containers, new limits plus reclaimed pages plus rounding losses are the old limits. */
  lemma ReclaimOthersBalance(reg: Registry, env: Readings, fd: int)
    requires SmallLimit(Total(reg, LimitOf)) && SoundReadings(reg, env, fd)
    ensures Total(ReclaimOthers(reg, env, fd), LimitOf) + ReclaimedPages(reg, env, fd) + ReclaimLoss(reg, env, fd)
         == Total(reg, LimitOf)
  {
    SameKeys(reg, env, fd);
    hide SumMap, SumSeq, Weights, ReclaimOthers, PagesFromOthers, LossFromOthers;
    forall id | id in Weights(reg, LimitOf)
      ensures Weights(ReclaimOthers(reg, env, fd), LimitOf)[id] + PagesFromOthers(reg, env, fd)[id]
            + LossFromOthers(reg, env, fd)[id] == Weights(reg, LimitOf)[id]
    {
      KeyBalance(reg, env, fd, id);
    }
    SumMapBalance(Weights(ReclaimOthers(reg, env, fd), LimitOf), PagesFromOthers(reg, env, fd),
                  LossFromOthers(reg, env, fd), Weights(reg, LimitOf));
  }

  /** Reclaiming from `n` containers loses at most `n` pages to rounding. */
  lemma ReclaimLossBound(reg: Registry, env: Readings, fd: int)
    ensures ReclaimLoss(reg, env, fd) <= |reg|
  {
    SumMapAtMost(LossFromOthers(reg, env, fd), 1);
    assert LossFromOthers(reg, env, fd).Keys == reg.Keys;
  }

  // ---------- what a refusal means ----------

  /** The container can give up a whole page: it is not the requester, it can be read and resized, and its limit lies
      at least one page above usage plus margin. */
  ghost predicate CanYield(q: Queue, r: MemReading, fd: int) {
    && !Spared(q, fd) && r.usage != READ_FAILED && r.rpcOk
    && Back(q).memLimit * PAGE >= r.usage + SAFE_MARGIN + PAGE
  }

  lemma YieldsIff(limit: nat, r: MemReading)
    requires SmallLimit(limit) && SoundReading(limit, r)
    ensures PagesFrom(limit, r) > 0 <==>
            r.usage != READ_FAILED && r.rpcOk && limit * PAGE >= r.usage + SAFE_MARGIN + PAGE
  {
  }

  lemma ReclaimedIff(reg: Registry, env: Readings, fd: int)
    requires SmallLimit(Total(reg, LimitOf)) && SoundReadings(reg, env, fd)
    ensures ReclaimedPages(reg, env, fd) == 0 <==> forall id :: id in reg ==> !CanYield(reg[id], ReadingOf(env, id), fd)
  {
    SumMapZero(PagesFromOthers(reg, env, fd));
    forall id | id in reg
      ensures PagesFromOthers(reg, env, fd)[id] == 0 <==> !CanYield(reg[id], ReadingOf(env, id), fd)
    {
      YieldKey(reg, env, fd, id);
    }
  }

  lemma YieldKey(reg: Registry, env: Readings, fd: int, id: ContainerId)
    requires SmallLimit(Total(reg, LimitOf)) && SoundReadings(reg, env, fd) && id in reg
    ensures PagesFromOthers(reg, env, fd)[id] == 0 <==> !CanYield(reg[id], ReadingOf(env, id), fd)
  {
    BackLimitBounded(reg, id, |reg[id]| - 1);
    if !Spared(reg[id], fd) {
      YieldsIff(Back(reg[id]).memLimit, ReadingOf(env, id));
    }
  }

  /** A request is refused exactly when the pool is empty and no other container can give up a whole page. */
  lemma RefusedIff(s: State, fd: int, env: Readings)
    requires s.mem.unalloc >= 0 && SmallLimit(TotalLimit(s)) && SoundReadings(s.reg, env, fd)
    ensures Refused(s, fd, env) <==>
            s.mem.unalloc == 0 && forall id :: id in s.reg ==> !CanYield(s.reg[id], ReadingOf(env, id), fd)
  {
    ReclaimedIff(s.reg, env, fd);
  }

  /** A request that is not refused grants between one page and one slice, sets the requester's limit to what it
      reported plus the grant, and changes no other container that shares the requester's connection. */
  lemma GrantMeaning(s: State, id: ContainerId, pages: nat, fd: int, env: Readings)
    requires s.mem.slice > 0 && id in s.reg && !Refused(s, fd, env)
    ensures var mem := Replenish(s.mem, s.reg, env, fd).0;
            var s' := RequestStep(s, id, pages, fd, env).state;
            var granted := Back(s'.reg[id]).memLimit - pages;
            && RequestStep(s, id, pages, fd, env).Running?
            && 1 <= granted <= s.mem.slice
            && (granted == s.mem.slice || s'.mem.unalloc == 0)
            && s'.mem.unalloc == mem.unalloc - granted
            && (forall j :: j in s.reg && j != id && Spared(s.reg[j], fd) ==> s'.reg[j] == s.reg[j])
  {
    hide SumMap, SumSeq;
  }

  // ---------- the page ledger in every run ----------

  /** Whatever happens, no counter goes negative and no page of the limit is forgotten. */
  ghost predicate PagesAccounted(mem: MemCounters) {
    mem.unalloc >= 0 && mem.alloc >= 0 && mem.unalloc + mem.alloc >= mem.limit
  }

  lemma ReplenishAccounted(mem: MemCounters, reg: Registry, env: Readings, fd: int)
    requires PagesAccounted(mem)
    ensures var mem' := Replenish(mem, reg, env, fd).0; PagesAccounted(mem') && mem'.limit == mem.limit
  {
  }

  lemma PayAccounted(mem: MemCounters, reg: Registry, env: Readings, fd: int, pages: nat, rpcOk: bool)
    requires PagesAccounted(mem)
    ensures var mem' := PayForPod(mem, reg, env, fd, pages, rpcOk).0; PagesAccounted(mem') && mem'.limit == mem.limit
  {
  }

  lemma RequestAccounted(s: State, id: ContainerId, pages: nat, fd: int, env: Readings)
    requires PagesAccounted(s.mem) && RequestStep(s, id, pages, fd, env).Running?
    ensures var mem := RequestStep(s, id, pages, fd, env).state.mem; PagesAccounted(mem) && mem.limit == s.mem.limit
  {
    ReplenishAccounted(s.mem, s.reg, env, fd);
    hide Replenish;
  }

  lemma PodLimitAccounted(s: State, id: ContainerId, k: nat, bytes: nat, env: Readings, rpcOk: bool)
    requires PagesAccounted(s.mem) && id in s.reg && k < |s.reg[id]|
    ensures var mem := PodLimitStep(s, id, k, bytes, env, rpcOk).mem; PagesAccounted(mem) && mem.limit == s.mem.limit
  {
    PayAccounted(s.mem, s.reg, env, s.reg[id][k].fd, bytes / PAGE, rpcOk);
    hide PayForPod;
  }

  lemma StepPagesAccounted(s: State, e: Event)
    requires PagesAccounted(s.mem) && Step(s, e).Running?
    ensures PagesAccounted(Step(s, e).state.mem) && Step(s, e).state.mem.limit == s.mem.limit
  {
    hide Effect, MissesAgent;
    EffectPagesAccounted(s, SeenBy(s, e));
  }

  lemma EffectPagesAccounted(s: State, e: Event)
    requires PagesAccounted(s.mem) && Effect(s, e).Running?
    ensures PagesAccounted(Effect(s, e).state.mem) && Effect(s, e).state.mem.limit == s.mem.limit
  {
    hide Report, RequestStep, PodLimitStep, ReclaimQueue, PagesFrom, Admission, Push, Pop, Update, IdleReset, Release,
         NewContainer, FairShare, NeedsIdleReset;
    match e
    case MemRequest(id, pages, fd, env) => RequestAccounted(s, id, pages, fd, env);
    case PodLimit(id, k, bytes, env, rpcOk) =>
      if id in s.reg && k < |s.reg[id]| {
        PodLimitAccounted(s, id, k, bytes, env, rpcOk);
      }
    case _ =>
  }

  /** In every run, with no condition on readings, requests or admissions, both page counters stay non-negative and
      sum at least to the memory limit, so the branch for a negative pool is never taken. */
  lemma {:induction false} PagesAlwaysAccounted(s: State, es: seq<Event>)
    requires PagesAccounted(s.mem) && Run(s, es).Running?
    ensures PagesAccounted(Run(s, es).state.mem) && Run(s, es).state.mem.limit == s.mem.limit
    decreases es
  {
    hide Step;
    if es != [] {
      StepPagesAccounted(s, es[0]);
      PagesAlwaysAccounted(Step(s, es[0]).state, es[1..]);
    }
  }

  // ---------- safe runs ----------

  /** Allocated pages not backed by a container's limit or by pages on their way back to the pool. */
  ghost function Slack(s: State): int {
    s.mem.alloc - TotalLimit(s) - s.pending
  }

  ghost predicate MemSafe(s: State) {
    && s.mem.unalloc >= 0 && s.mem.unalloc + s.mem.alloc == s.mem.limit && SmallLimit(s.mem.limit)
    && Slack(s) >= 0
  }

  /** The new pod fits at once, or a pool that is not empty can pay for it after reclaiming. */
  ghost predicate Fits(s: State, fd: int, pages: nat, env: Readings) {
    pages <= s.mem.unalloc || (s.mem.unalloc > 0 && pages <= s.mem.unalloc + ReclaimedPages(s.reg, env, fd))
  }

  /** Readings are within limits, requesters report at most their tracked limit, and new pods fit. */
  ghost predicate SafeEvent(s: State, e: Event) {
    match e
    case MemRequest(id, pages, fd, env) =>
      && (s.mem.unalloc == 0 ==> SoundReadings(s.reg, env, fd))
      && (id in s.reg ==> Spared(s.reg[id], fd) && pages <= Back(s.reg[id]).memLimit)
    case PodLimit(id, k, bytes, env, rpcOk) =>
      id in s.reg && k < |s.reg[id]| ==>
        && Fits(s, s.reg[id][k].fd, bytes / PAGE, env)
        && (bytes / PAGE > s.mem.unalloc ==> SoundReadings(s.reg, env, s.reg[id][k].fd))
    case SweepReclaim(id, r) => id in s.reg ==> SoundReading(Back(s.reg[id]).memLimit, r)
    case _ => true
  }

  /** Where slack comes from: pages lost to rounding, a requester that reports less than its tracked limit, and a
      limit that a new pod's admission overwrites. */
  ghost function EventSlack(s: State, e: Event): nat
    requires SafeEvent(s, e)
  {
    match e
    case MemRequest(id, pages, fd, env) =>
      (if s.mem.unalloc > 0 then 0 else ReclaimLoss(s.reg, env, fd)) +
      (if id in s.reg && !Refused(s, fd, env) then Back(s.reg[id]).memLimit - pages else 0)
    case PodLimit(id, k, bytes, env, rpcOk) =>
      if id in s.reg && k < |s.reg[id]| then
        s.reg[id][k].memLimit + if bytes / PAGE <= s.mem.unalloc then 0 else ReclaimLoss(s.reg, env, s.reg[id][k].fd)
      else 0
    case SweepReclaim(id, r) => if id in s.reg then Loss(Back(s.reg[id]).memLimit, r) else 0
    case _ => 0
  }

  /** The pool and registry `(mem, reg)` balance against `s` up to `loss` pages. */
  ghost predicate Balanced(s: State, mem: MemCounters, reg: Registry, loss: nat) {
    && mem.unalloc >= 0 && mem.unalloc + mem.alloc == mem.limit == s.mem.limit
    && mem.alloc - Total(reg, LimitOf) - s.pending == Slack(s) + loss
  }

  lemma LimitsFit(s: State)
    requires MemSafe(s)
    ensures TotalLimit(s) + s.pending <= s.mem.alloc <= s.mem.limit && SmallLimit(TotalLimit(s))
  {
  }

  lemma ReplenishBalances(s: State, env: Readings, fd: int)
    requires MemSafe(s) && (s.mem.unalloc == 0 ==> SoundReadings(s.reg, env, fd))
    ensures var (mem, reg) := Replenish(s.mem, s.reg, env, fd);
            && Balanced(s, mem, reg, if s.mem.unalloc > 0 then 0 else ReclaimLoss(s.reg, env, fd))
            && (mem.unalloc == 0 ==> mem == s.mem)
  {
    hide SumMap, SumSeq;
    if s.mem.unalloc == 0 {
      LimitsFit(s);
      ReclaimOthersBalance(s.reg, env, fd);
    }
  }

  lemma GrantBalances(s: State, mem: MemCounters, reg: Registry, id: ContainerId, pages: nat, loss: nat)
    requires MemSafe(s) && Balanced(s, mem, reg, loss) && GrantStep(s, mem, reg, id, pages).Running?
    requires id in reg ==> pages <= Back(reg[id]).memLimit
    requires mem.unalloc == 0 ==> mem == s.mem
    ensures var s' := GrantStep(s, mem, reg, id, pages).state;
            MemSafe(s') && Slack(s') == Slack(s) + loss + if mem.unalloc > 0 then Back(reg[id]).memLimit - pages else 0
  {
    hide SumMap, SumSeq;
    if mem.unalloc > 0 {
      TotalSetEntry(reg, id, |reg[id]| - 1, Back(reg[id]).(memLimit := pages + GrantedPages(mem)), LimitOf);
    }
  }

  lemma RequesterSpared(reg: Registry, env: Readings, fd: int, id: ContainerId)
    requires id in reg ==> Spared(reg[id], fd)
    ensures var reg' := ReclaimOthers(reg, env, fd);
            (id in reg' <==> id in reg) && (id in reg ==> reg'[id] == reg[id])
  {
  }

  lemma RequestSafe(s: State, id: ContainerId, pages: nat, fd: int, env: Readings)
    requires MemSafe(s) && SafeEvent(s, MemRequest(id, pages, fd, env)) && RequestStep(s, id, pages, fd, env).Running?
    ensures MemSafe(RequestStep(s, id, pages, fd, env).state)
    ensures Slack(RequestStep(s, id, pages, fd, env).state)
         == Slack(s) + EventSlack(s, MemRequest(id, pages, fd, env))
  {
    hide SumMap, SumSeq, Total, Replenish, ReclaimOthers, SoundReadings, ReclaimLoss, RequestAgents;
    ReplenishBalances(s, env, fd);
    ReplenishSpares(s, env, fd, id);
    var (mem, reg) := Replenish(s.mem, s.reg, env, fd);
    var s1 := s.(agents := RequestAgents(s, fd));
    GrantBalances(s1, mem, reg, id, pages, if s.mem.unalloc > 0 then 0 else ReclaimLoss(s.reg, env, fd));
  }

  lemma ReplenishSpares(s: State, env: Readings, fd: int, id: ContainerId)
    requires id in s.reg ==> Spared(s.reg[id], fd)
    ensures var reg := Replenish(s.mem, s.reg, env, fd).1;
            (id in reg <==> id in s.reg) && (id in s.reg ==> reg[id] == s.reg[id])
  {
    RequesterSpared(s.reg, env, fd, id);
    hide ReclaimOthers, Spared, SumMap;
  }

  /** Reclaiming for a pod leaves the pod's own entry alone: it is the spared one, or not the back of its queue. */
  lemma OwnEntryKept(reg: Registry, env: Readings, id: ContainerId, k: nat)
    requires id in reg && k < |reg[id]|
    ensures var reg' := ReclaimOthers(reg, env, reg[id][k].fd);
            id in reg' && k < |reg'[id]| && reg'[id][k] == reg[id][k]
  {
  }

  lemma PayBalances(s: State, env: Readings, id: ContainerId, k: nat, pages: nat, rpcOk: bool)
    requires MemSafe(s) && id in s.reg && k < |s.reg[id]|
    requires Fits(s, s.reg[id][k].fd, pages, env)
    requires pages > s.mem.unalloc ==> SoundReadings(s.reg, env, s.reg[id][k].fd)
    ensures var fd := s.reg[id][k].fd;
            var (mem, reg) := PayForPod(s.mem, s.reg, env, fd, pages, rpcOk);
            && mem.unalloc >= 0 && mem.unalloc + mem.alloc == mem.limit == s.mem.limit
            && mem.alloc - pages - Total(reg, LimitOf) - s.pending
               == Slack(s) + (if pages <= s.mem.unalloc then 0 else ReclaimLoss(s.reg, env, fd))
            && id in reg && k < |reg[id]| && reg[id][k] == s.reg[id][k]
  {
    hide SumMap, SumSeq;
    OwnEntryKept(s.reg, env, id, k);
    if pages > s.mem.unalloc {
      LimitsFit(s);
      ReclaimOthersBalance(s.reg, env, s.reg[id][k].fd);
    }
  }

  lemma PodLimitSafe(s: State, id: ContainerId, k: nat, bytes: nat, env: Readings, rpcOk: bool)
    requires MemSafe(s) && SafeEvent(s, PodLimit(id, k, bytes, env, rpcOk)) && id in s.reg && k < |s.reg[id]|
    ensures MemSafe(PodLimitStep(s, id, k, bytes, env, rpcOk))
    ensures Slack(PodLimitStep(s, id, k, bytes, env, rpcOk))
         == Slack(s) + EventSlack(s, PodLimit(id, k, bytes, env, rpcOk))
  {
    hide SumMap, SumSeq, PayForPod, ReclaimedPages, ReclaimOthers, ReclaimLoss, SoundReadings, PodLimitAgents;
    var pages := bytes / PAGE;
    PayBalances(s, env, id, k, pages, rpcOk);
    var (mem, reg) := PayForPod(s.mem, s.reg, env, s.reg[id][k].fd, pages, rpcOk);
    PodSlack(s, mem, reg, id, k, pages);
  }

  lemma PodSlack(s: State, mem: MemCounters, reg: Registry, id: ContainerId, k: nat, pages: nat)
    requires id in reg && k < |reg[id]|
    ensures Slack(SetPodLimit(s, mem, reg, id, k, pages))
         == mem.alloc - Total(reg, LimitOf) + reg[id][k].memLimit - pages - s.pending
  {
    hide SumMap, SumSeq;
    TotalSetEntry(reg, id, k, reg[id][k].(memLimit := pages), LimitOf);
  }

  lemma SweepSafe(s: State, id: ContainerId, r: MemReading)
    requires MemSafe(s) && id in s.reg && SoundReading(Back(s.reg[id]).memLimit, r)
    ensures MemSafe(SweepStep(s, id, r)) && Slack(SweepStep(s, id, r)) == Slack(s) + Loss(Back(s.reg[id]).memLimit, r)
  {
    hide SumMap, SumSeq;
    LimitsFit(s);
    var c := Back(s.reg[id]);
    BackLimitBounded(s.reg, id, |s.reg[id]| - 1);
    ReclaimSplits(c.memLimit, r);
    TotalSetEntry(s.reg, id, |s.reg[id]| - 1, c.(memLimit := LimitAfter(c.memLimit, r)), LimitOf);
  }

  lemma DeleteSafe(s: State, docker: DockerId)
    requires MemSafe(s) && Resolves(s, docker) && s.dockers[docker] in s.reg
    ensures MemSafe(DeleteStep(s, docker)) && Slack(DeleteStep(s, docker)) == Slack(s)
  {
    hide SumMap, SumSeq;
    LimitsFit(s);
    TotalPop(s.reg, s.dockers[docker], LimitOf);
  }

  lemma ReportKeepsLimit(cpu: CpuCounters, fair: Word, leak: int, c: Container, u: Usage)
    ensures Report(cpu, fair, leak, c, u).2.memLimit == c.memLimit && Report(cpu, fair, leak, c, u).2.fd == c.fd
    ensures Report(cpu, fair, leak, c, u).2.inserted == c.inserted
  {
  }

  lemma CpuStepKeepsLimits(s: State, e: Event)
    requires (e.CpuReport? && e.id in s.reg) || e.IdleCheck?
    ensures var s' := Effect(s, e).state;
            TotalLimit(s') == TotalLimit(s) && s'.mem == s.mem && s'.pending == s.pending
  {
    hide SumMap, SumSeq;
    if e.id in s.reg {
      var c := Back(s.reg[e.id]);
      if e.CpuReport? {
        var c' := Report(s.cpu, s.fair, s.leak, c, e.usage).2;
        ReportKeepsLimit(s.cpu, s.fair, s.leak, c, e.usage);
        TotalSetEntry(s.reg, e.id, |s.reg[e.id]| - 1, c', LimitOf);
      } else {
        TotalSetEntry(s.reg, e.id, |s.reg[e.id]| - 1, SetQuota(c, MIN_QUOTA), LimitOf);
      }
    }
  }

  lemma EffectSafe(s: State, e: Event)
    requires MemSafe(s) && SafeEvent(s, e) && Effect(s, e).Running?
    ensures MemSafe(Effect(s, e).state) && Effect(s, e).state.mem.limit == s.mem.limit
    ensures Slack(Effect(s, e).state) == Slack(s) + EventSlack(s, e)
  {
    hide SumMap, SumSeq;
    match e
    case Admit(id, fd, req, throttled, now, found) =>
      TotalPush(s.reg, id, NewContainer(fd, Admission(s.cpu, req).1, throttled, now, found), LimitOf);
    case CpuReport(_, _) => CpuStepKeepsLimits(s, e);
    case IdleCheck(_, _, _) => CpuStepKeepsLimits(s, e);
    case DeletePod(docker) => if Resolves(s, docker) { DeleteSafe(s, docker); }
    case MemRequest(id, pages, fd, env) => RequestSafe(s, id, pages, fd, env); EffectPagesAccounted(s, e);
    case PodLimit(id, k, bytes, env, rpcOk) =>
      EffectPagesAccounted(s, e);
      if id in s.reg && k < |s.reg[id]| { PodLimitSafe(s, id, k, bytes, env, rpcOk); }
    case SweepReclaim(id, r) => if id in s.reg { SweepSafe(s, id, r); }
    case SweepCredit => LimitsFit(s);
    case PodSpec(_, _) =>
  }

  /** Every safe step, judged by what the controller gets to see, keeps the page ledger and accounts for all slack. */
  lemma StepSafe(s: State, e: Event)
    requires MemSafe(s) && SafeEvent(s, SeenBy(s, e)) && Step(s, e).Running?
    ensures MemSafe(Step(s, e).state) && Step(s, e).state.mem.limit == s.mem.limit
    ensures Slack(Step(s, e).state) == Slack(s) + EventSlack(s, SeenBy(s, e))
  {
    hide Effect, MissesAgent, MemSafe, Slack, SafeEvent, EventSlack, SeenBy;
    EffectSafe(s, SeenBy(s, e));
  }

  ghost predicate SafeRun(s: State, es: seq<Event>)
    decreases es
  {
    es == [] || (SafeEvent(s, SeenBy(s, es[0])) && (Step(s, es[0]).Running? ==> SafeRun(Step(s, es[0]).state, es[1..])))
  }

  ghost function RunSlack(s: State, es: seq<Event>): nat
    requires SafeRun(s, es)
    decreases es
  {
    if es == [] || !Step(s, es[0]).Running? then 0
    else EventSlack(s, SeenBy(s, es[0])) + RunSlack(Step(s, es[0]).state, es[1..])
  }

  lemma {:induction false} RunSafe(s: State, es: seq<Event>)
    requires MemSafe(s) && SafeRun(s, es) && Run(s, es).Running?
    ensures MemSafe(Run(s, es).state) && Run(s, es).state.mem.limit == s.mem.limit
    ensures Slack(Run(s, es).state) == Slack(s) + RunSlack(s, es)
    decreases es
  {
    hide Step;
    if es != [] {
      StepSafe(s, es[0]);
      RunSafe(Step(s, es[0]).state, es[1..]);
    }
  }

  /** In every safe run from the application spec, with the periodic sweep interleaved at will, unallocated plus
      allocated is the memory limit, and the allocated pages are exactly the container limits plus the pages the sweep
      has yet to credit plus the slack the run has accumulated. So limits never sum above the application's limit. */
  lemma MemorySafeOverRuns(cpuLimit: nat, memLimit: nat, es: seq<Event>)
    requires memLimit * 1024 * 1024 < TWO63
    requires var s := AppSpec(cpuLimit, memLimit); SafeRun(s, es) && Run(s, es).Running?
    ensures var s := AppSpec(cpuLimit, memLimit);
            var t := Run(s, es).state;
            && t.mem.unalloc >= 0 && t.mem.unalloc + t.mem.alloc == t.mem.limit == memLimit * 1024 * 1024 / PAGE
            && t.mem.alloc == TotalLimit(t) + t.pending + RunSlack(s, es)
            && TotalLimit(t) + t.pending + t.mem.unalloc <= t.mem.limit
  {
    var s := AppSpec(cpuLimit, memLimit);
    assert Weights(s.reg, LimitOf) == map[];
    RunSafe(s, es);
  }

  /** The pages lost while reclaiming for a pod. */
  ghost function PodLoss(s: State, fd: int, pages: nat, env: Readings): nat {
    if pages <= s.mem.unalloc || s.mem.unalloc == 0 then 0 else ReclaimLoss(s.reg, env, fd)
  }

  ghost predicate LedgerKept(s: State, s': State, loss: nat) {
    s'.mem.unalloc + s'.mem.alloc == s'.mem.limit && Slack(s') == Slack(s) + loss
  }

  /** Admitting a new pod keeps the exact page ledger if and only if the pod fits. */
  lemma PodLimitSafeIff(s: State, id: ContainerId, k: nat, bytes: nat, env: Readings, rpcOk: bool)
    requires MemSafe(s) && id in s.reg && k < |s.reg[id]| && s.reg[id][k].memLimit == 0
    requires SoundReadings(s.reg, env, s.reg[id][k].fd)
    ensures LedgerKept(s, PodLimitStep(s, id, k, bytes, env, rpcOk), PodLoss(s, s.reg[id][k].fd, bytes / PAGE, env))
       <==> Fits(s, s.reg[id][k].fd, bytes / PAGE, env)
  {
    if Fits(s, s.reg[id][k].fd, bytes / PAGE, env) {
      FitKeeps(s, id, k, bytes, env, rpcOk);
    } else {
      UnfitBreaks(s, id, k, bytes, env, rpcOk);
    }
  }

  lemma FitKeeps(s: State, id: ContainerId, k: nat, bytes: nat, env: Readings, rpcOk: bool)
    requires MemSafe(s) && id in s.reg && k < |s.reg[id]| && s.reg[id][k].memLimit == 0
    requires SoundReadings(s.reg, env, s.reg[id][k].fd) && Fits(s, s.reg[id][k].fd, bytes / PAGE, env)
    ensures LedgerKept(s, PodLimitStep(s, id, k, bytes, env, rpcOk), PodLoss(s, s.reg[id][k].fd, bytes / PAGE, env))
  {
    hide SumMap, SumSeq;
    PodLimitSafe(s, id, k, bytes, env, rpcOk);
  }

  /** A pod that does not fit leaves either more pages than the limit, or limits not backed by allocated pages. */
  lemma UnfitBreaks(s: State, id: ContainerId, k: nat, bytes: nat, env: Readings, rpcOk: bool)
    requires MemSafe(s) && id in s.reg && k < |s.reg[id]| && s.reg[id][k].memLimit == 0
    requires SoundReadings(s.reg, env, s.reg[id][k].fd) && !Fits(s, s.reg[id][k].fd, bytes / PAGE, env)
    ensures !LedgerKept(s, PodLimitStep(s, id, k, bytes, env, rpcOk), PodLoss(s, s.reg[id][k].fd, bytes / PAGE, env))
  {
    hide SumMap, SumSeq;
    var fd, pages := s.reg[id][k].fd, bytes / PAGE;
    var (mem, reg) := PayForPod(s.mem, s.reg, env, fd, pages, rpcOk);
    OwnEntryKept(s.reg, env, id, k);
    PodSlack(s, mem, reg, id, k, pages);
    UnfitPay(s, env, fd, pages, rpcOk);
  }

  lemma UnfitPay(s: State, env: Readings, fd: int, pages: nat, rpcOk: bool)
    requires MemSafe(s) && SoundReadings(s.reg, env, fd) && !Fits(s, fd, pages, env)
    ensures var (mem, reg) := PayForPod(s.mem, s.reg, env, fd, pages, rpcOk);
            && pages > 0
            && (mem.unalloc + mem.alloc > mem.limit ||
                mem.alloc - Total(reg, LimitOf) - s.pending == Slack(s) + PodLoss(s, fd, pages, env))
  {
    hide SumMap, SumSeq;
    LimitsFit(s);
    ReclaimOthersBalance(s.reg, env, fd);
  }
}
