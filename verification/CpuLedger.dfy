/** The CPU ledger over whole runs: allocated plus unallocated runtime against total plus overrun,
    and the allocation against the sum of all quotas. */
module CpuLedger {
  import opened Words
  import opened Sums
  import opened Containers
  import opened CpuControl
  import opened MemControl
  import opened Controller
  import opened Shares

  /** Runtime accounted for beyond the total and the recorded overrun. */
  ghost function Surplus(cpu: CpuCounters): int {
    cpu.alloc + cpu.unalloc - cpu.total - cpu.overrun
  }

  /** No counter has come near the sign bit of its 64-bit word. */
  ghost predicate SmallCpu(cpu: CpuCounters) {
    cpu.slice < TWO63 && cpu.total < TWO63 && cpu.overrun < TWO63 && cpu.alloc + cpu.unalloc < TWO63
  }

  ghost predicate SmallQuotas(reg: Registry) {
    forall id, i :: id in reg && 0 <= i < |reg[id]| ==> reg[id][i].quota < TWO63
  }

  ghost predicate Small(s: State) {
    SmallCpu(s.cpu) && s.fair < TWO63 && SmallQuotas(s.reg)
  }

  // ---------- the verdict ----------

  /** What a verdict promises about the pool it draws on. */
  ghost predicate Sane(cpu: CpuCounters, fair: Word, rx: Word, v: Verdict) {
    match v
    case Keep => true
    case Grant(q) =>
      && cpu.unalloc > 0
      && (q <= cpu.unalloc || (rx <= q && (q - rx <= cpu.unalloc || q == fair <= rx + cpu.slice / 2)))
    case Return(q) => q < TWO63 ==> q <= rx
    case Borrow(q) => rx <= q <= fair && cpu.unalloc == 0
    case Repay(q) => q < TWO63 ==> q <= rx && rx - q <= cpu.overrun
  }

  lemma ShrinkAtMost(rx: Word)
    ensures Cast(rx as real * 0.8) <= rx
  {
    assert 0.0 <= rx as real * 0.8 <= rx as real;
    assert (rx as real * 0.8).Floor <= rx;
  }

  lemma VerdictSane(cpu: CpuCounters, fair: Word, u: Usage, idle: bool, rtMean: Word, thrMean: real)
    requires SmallCpu(cpu) && fair < TWO63 && u.rxQuota < TWO63
    ensures Sane(cpu, fair, u.rxQuota, Decide(cpu, fair, u, idle, rtMean, thrMean))
  {
    var rx := u.rxQuota;
    if rx < fair {
      RaiseShareBounds(fair, cpu.slice, rx);
    }
    ShrinkAtMost(rx);
    hide RaiseShare, OverrunShare, ThrottleShare;
  }

  // ---------- settling a verdict ----------

  /** What a raise takes from the pool beyond what the pool holds. */
  ghost function Overdraft(cpu: CpuCounters, rx: Word, v: Verdict): nat {
    if v.Grant? && v.quota - rx > cpu.unalloc then v.quota - rx - cpu.unalloc else 0
  }

  /** A settlement never lowers the surplus: every clamped decrement adds to it. */
  lemma SettleSurplus(cpu: CpuCounters, fair: Word, rx: Word, v: Verdict)
    requires SmallCpu(cpu) && fair < TWO63 && rx < TWO63 && Sane(cpu, fair, rx, v)
    requires v.Keep? || v.quota < TWO63
    requires SmallCpu(SettleCounters(cpu, rx, v))
    ensures Surplus(SettleCounters(cpu, rx, v)) >= Surplus(cpu)
    ensures !v.Keep? ==> SettleCounters(cpu, rx, v).alloc >= cpu.alloc + v.quota - rx
  {
  }

  /** A throttled container at most half a slice below its fair share is raised to it, however little the pool holds. */
  ghost predicate RaisesPastPool(cpu: CpuCounters, fair: Word, rx: Word, thrMean: real, idle: bool) {
    !idle && rx < fair && thrMean > 0.5 && 0 < cpu.unalloc < fair - rx <= cpu.slice / 2
  }

  /** A verdict overdraws the pool if and only if it is that last small raise, and then by what the pool lacks. */
  lemma OverdraftIff(cpu: CpuCounters, fair: Word, sampled: Container, u: Usage, idle: bool)
    requires SmallCpu(cpu) && fair < TWO63 && u.rxQuota < TWO63
    ensures var rx := u.rxQuota;
            Overdraft(cpu, rx, VerdictOn(cpu, fair, sampled, u, idle)) ==
            if RaisesPastPool(cpu, fair, rx, sampled.th.mean, idle) then fair - rx - cpu.unalloc else 0
  {
    if u.rxQuota < fair {
      RaiseShareBounds(fair, cpu.slice, u.rxQuota);
    }
    hide RaiseShare, OverrunShare, ThrottleShare;
  }

  /** If the allocation covers the reported quota, the only thing a settlement can lose is the overdraft. */
  lemma SettleExact(cpu: CpuCounters, fair: Word, rx: Word, v: Verdict)
    requires SmallCpu(cpu) && fair < TWO63 && rx < TWO63 && Sane(cpu, fair, rx, v)
    requires !v.Keep? ==> v.quota < TWO63 && rx - v.quota <= cpu.alloc
    ensures var cpu' := SettleCounters(cpu, rx, v);
            && Surplus(cpu') == Surplus(cpu) + Overdraft(cpu, rx, v)
            && cpu'.alloc == cpu.alloc + if v.Keep? then 0 else v.quota - rx
  {
  }

  // ---------- reconciliation and leak repair ----------

  ghost function ReconcileOverdraft(cpu: CpuCounters, c: Container, rx: Word): nat {
    if Mismatch(c, rx) && rx - c.quota > cpu.unalloc then rx - c.quota - cpu.unalloc else 0
  }

  lemma ReconcileSurplus(cpu: CpuCounters, c: Container, rx: Word)
    requires SmallCpu(cpu) && c.quota < TWO63 && rx < TWO63
    ensures var cpu' := CountersAfter(cpu, c, rx);
            && Surplus(cpu') >= Surplus(cpu)
            && (Mismatch(c, rx) ==> cpu'.alloc >= cpu.alloc + rx - c.quota)
            && (c.quota <= cpu.alloc || !Mismatch(c, rx) ==>
                 && Surplus(cpu') == Surplus(cpu) + ReconcileOverdraft(cpu, c, rx)
                 && cpu'.alloc == cpu.alloc + if Mismatch(c, rx) then rx - c.quota else 0)
  {
  }

  lemma LeakStaysClosed(cpu: CpuCounters, leak: int)
    requires SmallCpu(cpu) && Surplus(cpu) >= 0 && leak <= 0
    ensures RepairLeak(cpu, leak) == (cpu, leak - cpu.overrun - Surplus(cpu))
    ensures RepairLeak(cpu, leak).1 <= 0
  {
  }

  // ---------- one usage report ----------

  ghost predicate SmallReport(cpu: CpuCounters, c: Container, u: Usage) {
    u.rxQuota < TWO63 && SmallCpu(CountersAfter(cpu, c, u.rxQuota))
  }

  /** Reports that get past reconciliation carry exactly the tracked quota. */
  ghost predicate ExactReport(c: Container, u: Usage) {
    Mismatch(c, u.rxQuota) || u.rxQuota == c.quota
  }

  /** The verdict a report leads to, as seen from a state without a leak to repair. */
  ghost function ReportVerdict(cpu: CpuCounters, fair: Word, c: Container, u: Usage): Verdict {
    VerdictOn(CountersAfter(cpu, c, u.rxQuota), fair, Observed(c, u), u, IsIdle(c, u.now))
  }

  ghost function ReportOverdraft(cpu: CpuCounters, fair: Word, c: Container, u: Usage): nat {
    if Tolerated(c, u.rxQuota) then 0 else
      ReconcileOverdraft(cpu, c, u.rxQuota) +
      if Accepts(c, u) then Overdraft(CountersAfter(cpu, c, u.rxQuota), u.rxQuota, ReportVerdict(cpu, fair, c, u)) else 0
  }

  /** With no leak to repair, a report is reconciliation followed by settlement. */
  lemma ReportIsSettlement(cpu: CpuCounters, fair: Word, leak: int, c: Container, u: Usage)
    requires SmallCpu(cpu) && c.quota < TWO63 && SmallReport(cpu, c, u)
    requires Surplus(cpu) >= 0 && leak <= 0
    requires !Tolerated(c, u.rxQuota)
    ensures var (cpu', leak', c') := Report(cpu, fair, leak, c, u);
            var cpu1, v := CountersAfter(cpu, c, u.rxQuota), ReportVerdict(cpu, fair, c, u);
            && leak' <= 0
            && cpu' == (if Accepts(c, u) then SettleCounters(cpu1, u.rxQuota, v) else cpu1)
            && c'.quota == (if Accepts(c, u) && !v.Keep? then v.quota else if Mismatch(c, u.rxQuota) then u.rxQuota else c.quota)
            && c'.memLimit == c.memLimit && c'.fd == c.fd
  {
    ReconcileSurplus(cpu, c, u.rxQuota);
    LeakStaysClosed(CountersAfter(cpu, c, u.rxQuota), leak);
  }

  lemma VerdictOnSane(cpu: CpuCounters, fair: Word, sampled: Container, u: Usage, idle: bool)
    requires SmallCpu(cpu) && fair < TWO63 && u.rxQuota < TWO63
    ensures Sane(cpu, fair, u.rxQuota, VerdictOn(cpu, fair, sampled, u, idle))
  {
    VerdictSane(cpu, fair, u, idle, Cast(sampled.rt.mean), sampled.th.mean);
  }

  lemma ReportVerdictSane(cpu: CpuCounters, fair: Word, c: Container, u: Usage)
    requires fair < TWO63 && SmallReport(cpu, c, u)
    ensures Sane(CountersAfter(cpu, c, u.rxQuota), fair, u.rxQuota, ReportVerdict(cpu, fair, c, u))
  {
    VerdictOnSane(CountersAfter(cpu, c, u.rxQuota), fair, Observed(c, u), u, IsIdle(c, u.now));
  }

  lemma ReportSurplus(cpu: CpuCounters, fair: Word, leak: int, c: Container, u: Usage)
    requires SmallCpu(cpu) && fair < TWO63 && c.quota < TWO63 && SmallReport(cpu, c, u)
    requires Surplus(cpu) >= 0 && leak <= 0
    requires SmallCpu(Report(cpu, fair, leak, c, u).0) && Report(cpu, fair, leak, c, u).2.quota < TWO63
    ensures Surplus(Report(cpu, fair, leak, c, u).0) >= Surplus(cpu)
    ensures Report(cpu, fair, leak, c, u).1 <= 0
  {
    if !Tolerated(c, u.rxQuota) {
      var v := ReportVerdict(cpu, fair, c, u);
      ReportIsSettlement(cpu, fair, leak, c, u);
      ReportVerdictSane(cpu, fair, c, u);
      ReconcileSurplus(cpu, c, u.rxQuota);
      if Accepts(c, u) {
        SettleSurplus(CountersAfter(cpu, c, u.rxQuota), fair, u.rxQuota, v);
      }
    }
  }

  lemma ReportExact(cpu: CpuCounters, fair: Word, leak: int, c: Container, u: Usage)
    requires SmallCpu(cpu) && fair < TWO63 && c.quota < TWO63 && SmallReport(cpu, c, u)
    requires Surplus(cpu) >= 0 && leak <= 0
    requires ExactReport(c, u) && c.quota <= cpu.alloc
    requires Report(cpu, fair, leak, c, u).2.quota < TWO63
    ensures var (cpu', leak', c') := Report(cpu, fair, leak, c, u);
            && Surplus(cpu') == Surplus(cpu) + ReportOverdraft(cpu, fair, c, u)
            && cpu'.alloc == cpu.alloc + c'.quota - c.quota
            && leak' <= 0
  {
    if !Tolerated(c, u.rxQuota) {
      var v := ReportVerdict(cpu, fair, c, u);
      ReportIsSettlement(cpu, fair, leak, c, u);
      ReportVerdictSane(cpu, fair, c, u);
      ReconcileSurplus(cpu, c, u.rxQuota);
      if Accepts(c, u) {
        SettleExact(CountersAfter(cpu, c, u.rxQuota), fair, u.rxQuota, v);
      }
    }
  }

  // ---------- memory steps leave the CPU side alone ----------

  ghost predicate QueueFramed(q: Queue, q': Queue) {
    && |q| == |q'|
    && (forall i :: 0 <= i < |q| ==> q'[i] == q[i].(memLimit := q'[i].memLimit))
  }

  ghost predicate OnlyLimitsDiffer(reg: Registry, reg': Registry) {
    reg.Keys == reg'.Keys && (forall id :: id in reg ==> QueueFramed(reg[id], reg'[id]))
  }

  ghost predicate IsMemoryEvent(e: Event) {
    e.MemRequest? || e.PodLimit? || e.SweepReclaim? || e.SweepCredit?
  }

  lemma ReclaimOthersFrames(reg: Registry, env: Readings, fd: int)
    ensures OnlyLimitsDiffer(reg, ReclaimOthers(reg, env, fd))
  {
    forall id | id in reg ensures QueueFramed(reg[id], ReclaimOthers(reg, env, fd)[id]) {
    }
  }

  lemma SetLimitFrames(reg: Registry, reg': Registry, id: ContainerId, k: nat, pages: nat)
    requires OnlyLimitsDiffer(reg, reg') && id in reg && k < |reg[id]|
    ensures id in reg' && k < |reg'[id]|
    ensures OnlyLimitsDiffer(reg, SetLimit(reg', id, k, pages))
  {
    assert QueueFramed(reg[id], reg'[id]);
    assert QueueFramed(reg[id], SetLimit(reg', id, k, pages)[id]);
  }

  ghost predicate CpuSideFramed(s: State, s': State) {
    && s'.cpu == s.cpu && s'.fair == s.fair && s'.leak == s.leak
    && s'.deployed == s.deployed && s'.dockers == s.dockers
    && OnlyLimitsDiffer(s.reg, s'.reg)
  }

  lemma GrantFrames(s: State, mem: MemCounters, reg: Registry, id: ContainerId, pages: nat)
    requires OnlyLimitsDiffer(s.reg, reg) && GrantStep(s, mem, reg, id, pages).Running?
    ensures CpuSideFramed(s, GrantStep(s, mem, reg, id, pages).state)
  {
    if mem.unalloc > 0 {
      SetLimitFrames(s.reg, reg, id, |s.reg[id]| - 1, pages + GrantedPages(mem));
    }
  }

  lemma RequestFrames(s: State, id: ContainerId, pages: nat, fd: int, env: Readings)
    requires RequestStep(s, id, pages, fd, env).Running?
    ensures CpuSideFramed(s, RequestStep(s, id, pages, fd, env).state)
  {
    ReclaimOthersFrames(s.reg, env, fd);
    var (mem, reg) := Replenish(s.mem, s.reg, env, fd);
    GrantFrames(s.(agents := RequestAgents(s, fd)), mem, reg, id, pages);
  }

  lemma PayFrames(mem: MemCounters, reg: Registry, env: Readings, fd: int, pages: nat, rpcOk: bool)
    ensures OnlyLimitsDiffer(reg, PayForPod(mem, reg, env, fd, pages, rpcOk).1)
  {
    ReclaimOthersFrames(reg, env, fd);
  }

  lemma SetPodLimitFrames(s: State, mem: MemCounters, reg: Registry, id: ContainerId, k: nat, pages: nat)
    requires OnlyLimitsDiffer(s.reg, reg) && id in s.reg && k < |s.reg[id]|
    ensures id in reg && k < |reg[id]|
    ensures CpuSideFramed(s, SetPodLimit(s, mem, reg, id, k, pages))
  {
    SetLimitFrames(s.reg, reg, id, k, pages);
  }

  lemma PodLimitFrames(s: State, id: ContainerId, k: nat, bytes: nat, env: Readings, rpcOk: bool)
    requires id in s.reg && k < |s.reg[id]|
    ensures CpuSideFramed(s, PodLimitStep(s, id, k, bytes, env, rpcOk))
  {
    var fd := s.reg[id][k].fd;
    PayFrames(s.mem, s.reg, env, fd, bytes / PAGE, rpcOk);
    var (mem, reg) := PayForPod(s.mem, s.reg, env, fd, bytes / PAGE, rpcOk);
    SetPodLimitFrames(s.(agents := PodLimitAgents(s, id, k, bytes / PAGE)), mem, reg, id, k, bytes / PAGE);
  }

  lemma SweepFrames(s: State, id: ContainerId, r: MemReading)
    ensures CpuSideFramed(s, SweepStep(s, id, r))
  {
    if id in s.reg {
      var last := |s.reg[id]| - 1;
      SetLimitFrames(s.reg, s.reg, id, last, LimitAfter(s.reg[id][last].memLimit, r));
    }
  }

  lemma MemoryEffectFrames(s: State, e: Event)
    requires IsMemoryEvent(e) && Effect(s, e).Running?
    ensures CpuSideFramed(s, Effect(s, e).state)
  {
    hide RequestStep, PodLimitStep, SweepStep, OnlyLimitsDiffer;
    SameLimits(s.reg);
    match e
    case MemRequest(id, pages, fd, env) => RequestFrames(s, id, pages, fd, env);
    case PodLimit(id, k, bytes, env, rpcOk) =>
      if id in s.reg && k < |s.reg[id]| {
        PodLimitFrames(s, id, k, bytes, env, rpcOk);
      }
    case SweepReclaim(id, r) => SweepFrames(s, id, r);
    case SweepCredit =>
  }

  lemma MemoryStepFrames(s: State, e: Event)
    requires IsMemoryEvent(e) && Step(s, e).Running?
    ensures CpuSideFramed(s, Step(s, e).state)
  {
    hide Effect, MissesAgent, CpuSideFramed;
    MemoryEffectFrames(s, SeenBy(s, e));
  }

  lemma SameLimits(reg: Registry)
    ensures OnlyLimitsDiffer(reg, reg)
  {
  }

  lemma OnlyLimitsDifferKeepsQuotas(reg: Registry, reg': Registry)
    requires OnlyLimitsDiffer(reg, reg')
    ensures Total(reg', QuotaOf) == Total(reg, QuotaOf)
  {
    assert forall id :: id in reg ==> QueueFramed(reg[id], reg'[id]);
    TotalCong(reg, reg', QuotaOf);
  }

  // ---------- one step ----------

  ghost predicate SmallEvent(s: State, e: Event) {
    e.CpuReport? && e.id in s.reg ==> SmallReport(s.cpu, Back(s.reg[e.id]), e.usage)
  }

  ghost predicate ExactEvent(s: State, e: Event) {
    e.CpuReport? && e.id in s.reg ==> ExactReport(Back(s.reg[e.id]), e.usage)
  }

  /** The two places that overdraw the pool, by what the event and the state before it say: the fourth mismatch adopts
      a quota the pool cannot pay for, or the last small raise to the fair share exceeds the pool. */
  ghost predicate ReportOverdraws(cpu: CpuCounters, fair: Word, c: Container, u: Usage) {
    var rx := u.rxQuota;
    !Tolerated(c, rx) && (
      || (Mismatch(c, rx) && rx - c.quota > cpu.unalloc)
      || (Accepts(c, u) && RaisesPastPool(CountersAfter(cpu, c, rx), fair, rx, Observed(c, u).th.mean, IsIdle(c, u.now))))
  }

  /** A report overdraws exactly in these two cases, never in both, and by exactly what the pool lacks. */
  lemma ReportOverdraftIff(cpu: CpuCounters, fair: Word, c: Container, u: Usage)
    requires fair < TWO63 && c.quota < TWO63 && SmallCpu(cpu) && SmallReport(cpu, c, u)
    ensures ReportOverdraft(cpu, fair, c, u) > 0 <==> ReportOverdraws(cpu, fair, c, u)
    ensures ReportOverdraws(cpu, fair, c, u) ==>
            ReportOverdraft(cpu, fair, c, u) ==
            if Mismatch(c, u.rxQuota) && u.rxQuota - c.quota > cpu.unalloc then u.rxQuota - c.quota - cpu.unalloc
            else fair - u.rxQuota - CountersAfter(cpu, c, u.rxQuota).unalloc
  {
    OverdraftIff(CountersAfter(cpu, c, u.rxQuota), fair, Observed(c, u), u, IsIdle(c, u.now));
    hide VerdictOn, Observed;
  }

  ghost predicate Overdraws(s: State, e: Event) {
    e.CpuReport? && e.id in s.reg && ReportOverdraws(s.cpu, s.fair, Back(s.reg[e.id]), e.usage)
  }

  ghost function EventOverdraft(s: State, e: Event): nat {
    if e.CpuReport? && e.id in s.reg then ReportOverdraft(s.cpu, s.fair, Back(s.reg[e.id]), e.usage) else 0
  }

  ghost predicate OneSided(s: State) {
    Surplus(s.cpu) >= 0 && s.leak <= 0
  }

  lemma IdleResetSurplus(cpu: CpuCounters, c: Container)
    requires SmallCpu(cpu) && c.quota < TWO63 && SmallCpu(IdleReset(cpu, c).0)
    ensures Surplus(IdleReset(cpu, c).0) >= Surplus(cpu)
    ensures IdleReset(cpu, c).0.alloc >= cpu.alloc + MIN_QUOTA - c.quota
    ensures c.quota - MIN_QUOTA <= cpu.alloc ==>
      Surplus(IdleReset(cpu, c).0) == Surplus(cpu) && IdleReset(cpu, c).0.alloc == cpu.alloc + MIN_QUOTA - c.quota
  {
  }

  lemma ReleaseSurplus(cpu: CpuCounters, quota: Word)
    requires SmallCpu(cpu) && quota < TWO63
    ensures Surplus(Release(cpu, quota)) >= Surplus(cpu)
    ensures Release(cpu, quota).alloc >= cpu.alloc - quota
    ensures quota <= cpu.alloc ==>
      Surplus(Release(cpu, quota)) == Surplus(cpu) && Release(cpu, quota).alloc == cpu.alloc - quota
  {
  }

  lemma AdmissionSurplus(cpu: CpuCounters, req: Word)
    requires SmallCpu(cpu)
    ensures var (cpu', quota) := Admission(cpu, req);
            Surplus(cpu') == Surplus(cpu) && cpu'.alloc == cpu.alloc + quota
  {
  }

  lemma StepSurplus(s: State, e: Event)
    requires Small(s) && SmallEvent(s, e) && OneSided(s)
    requires Step(s, e).Running? && Small(Step(s, e).state)
    ensures Surplus(Step(s, e).state.cpu) >= Surplus(s.cpu)
    ensures OneSided(Step(s, e).state)
  {
    hide Report, MissesAgent;
    var s' := Step(s, e).state;
    match e
    case Admit(_, _, req, _, _, _) =>
      AdmissionSurplus(s.cpu, req);
    case CpuReport(id, u) =>
      BackIsSmall(s.reg, id);
      BackIsSmall(s'.reg, id);
      ReportSurplus(s.cpu, s.fair, s.leak, Back(s.reg[id]), u);
    case IdleCheck(id, now, rpcOk) =>
      if id in s.reg && NeedsIdleReset(Back(s.reg[id]), now) && Back(s.reg[id]).inserted && rpcOk {
        BackIsSmall(s.reg, id);
        IdleResetSurplus(s.cpu, Back(s.reg[id]));
      }
    case DeletePod(docker) =>
      if Resolves(s, docker) {
        ReleaseSurplus(s.cpu, s.reg[s.dockers[docker]][0].quota);
      }
    case PodSpec(_, _) =>
    case _ =>
      MemoryStepFrames(s, e);
  }

  lemma BackIsSmall(reg: Registry, id: ContainerId)
    requires SmallQuotas(reg) && id in reg
    ensures Back(reg[id]).quota < TWO63
  {
    assert reg[id][|reg[id]| - 1].quota < TWO63;
  }

  lemma AdmitExact(s: State, e: Event)
    requires Small(s) && e.Admit? && s.cpu.alloc == TotalQuota(s)
    ensures var s' := Effect(s, e).state;
            s'.cpu.alloc == TotalQuota(s') && Surplus(s'.cpu) == Surplus(s.cpu)
  {
    hide SumMap, SumSeq;
    AdmissionSurplus(s.cpu, e.req);
    var (cpu, quota) := Admission(s.cpu, e.req);
    TotalPush(s.reg, e.id, NewContainer(e.fd, quota, e.throttled, e.now, e.agentFound), QuotaOf);
  }

  lemma ReportStepExact(s: State, e: Event)
    requires Small(s) && SmallEvent(s, e) && ExactEvent(s, e) && OneSided(s)
    requires e.CpuReport? && e.id in s.reg && Back(ReportStep(s, e.id, e.usage).reg[e.id]).quota < TWO63
    requires s.cpu.alloc == TotalQuota(s)
    ensures var s' := Effect(s, e).state;
            s'.cpu.alloc == TotalQuota(s') && Surplus(s'.cpu) == Surplus(s.cpu) + EventOverdraft(s, e)
  {
    hide Report, SumMap, SumSeq;
    var s' := Effect(s, e).state;
    var q, q' := s.reg[e.id], s'.reg[e.id];
    BackIsSmall(s.reg, e.id);
    TotalSetEntry(s.reg, e.id, |q| - 1, Back(q'), QuotaOf);
    ReportExact(s.cpu, s.fair, s.leak, Back(q), e.usage);
  }

  lemma IdleStepExact(s: State, e: Event)
    requires Small(s) && e.IdleCheck? && Small(Effect(s, e).state)
    requires s.cpu.alloc == TotalQuota(s)
    ensures var s' := Effect(s, e).state;
            s'.cpu.alloc == TotalQuota(s') && Surplus(s'.cpu) == Surplus(s.cpu)
  {
    hide SumMap, SumSeq;
    if e.id in s.reg && NeedsIdleReset(Back(s.reg[e.id]), e.now) && Back(s.reg[e.id]).inserted && e.rpcOk {
      var q := s.reg[e.id];
      BackIsSmall(s.reg, e.id);
      TotalSetEntry(s.reg, e.id, |q| - 1, SetQuota(Back(q), MIN_QUOTA), QuotaOf);
      IdleResetSurplus(s.cpu, Back(q));
    }
  }

  lemma DeleteStepExact(s: State, e: Event)
    requires Small(s) && e.DeletePod? && Effect(s, e).Running?
    requires s.cpu.alloc == TotalQuota(s)
    ensures var s' := Effect(s, e).state;
            s'.cpu.alloc == TotalQuota(s') && Surplus(s'.cpu) == Surplus(s.cpu)
  {
    hide SumMap, SumSeq;
    if Resolves(s, e.docker) {
      var id := s.dockers[e.docker];
      TotalPop(s.reg, id, QuotaOf);
      ReleaseSurplus(s.cpu, s.reg[id][0].quota);
    }
  }

  lemma StepExact(s: State, e: Event)
    requires Small(s) && SmallEvent(s, e) && ExactEvent(s, e) && OneSided(s)
    requires Step(s, e).Running? && Small(Step(s, e).state)
    requires s.cpu.alloc == TotalQuota(s)
    ensures var s' := Step(s, e).state;
            s'.cpu.alloc == TotalQuota(s') && Surplus(s'.cpu) == Surplus(s.cpu) + EventOverdraft(s, e)
  {
    hide Report, SumMap, SumSeq, MissesAgent;
    match e
    case Admit(_, _, _, _, _, _) => AdmitExact(s, e);
    case CpuReport(id, _) =>
      BackIsSmall(Step(s, e).state.reg, id);
      ReportStepExact(s, e);
    case IdleCheck(_, _, _) => IdleStepExact(s, e);
    case DeletePod(_) => DeleteStepExact(s, e);
    case PodSpec(_, _) =>
    case _ =>
      MemoryStepFrames(s, e);
      OnlyLimitsDifferKeepsQuotas(s.reg, Step(s, e).state.reg);
  }

  // ---------- runs ----------

  /** Every state of the run is small. */
  ghost predicate SmallRun(s: State, es: seq<Event>)
    decreases es
  {
    && Small(s)
    && (es == [] || (SmallEvent(s, es[0]) && (Step(s, es[0]).Running? ==> SmallRun(Step(s, es[0]).state, es[1..]))))
  }

  /** Every report of the run that gets past reconciliation is exact. */
  ghost predicate ExactRun(s: State, es: seq<Event>)
    decreases es
  {
    es == [] || (ExactEvent(s, es[0]) && (Step(s, es[0]).Running? ==> ExactRun(Step(s, es[0]).state, es[1..])))
  }

  ghost function RunOverdraft(s: State, es: seq<Event>): nat
    decreases es
  {
    if es == [] || !Step(s, es[0]).Running? then 0
    else EventOverdraft(s, es[0]) + RunOverdraft(Step(s, es[0]).state, es[1..])
  }

  /** No event of the run overdraws the pool. */
  ghost predicate NeverOverdraws(s: State, es: seq<Event>)
    decreases es
  {
    es == [] || (!Overdraws(s, es[0]) && (Step(s, es[0]).Running? ==> NeverOverdraws(Step(s, es[0]).state, es[1..])))
  }

  lemma EventOverdraftIff(s: State, e: Event)
    requires Small(s) && SmallEvent(s, e)
    ensures EventOverdraft(s, e) > 0 <==> Overdraws(s, e)
  {
    if e.CpuReport? && e.id in s.reg {
      BackIsSmall(s.reg, e.id);
      ReportOverdraftIff(s.cpu, s.fair, Back(s.reg[e.id]), e.usage);
    }
  }

  lemma {:induction false} RunOverdraftIff(s: State, es: seq<Event>)
    requires SmallRun(s, es) && Run(s, es).Running?
    ensures RunOverdraft(s, es) == 0 <==> NeverOverdraws(s, es)
    decreases es
  {
    hide Step, EventOverdraft, Overdraws;
    if es != [] {
      EventOverdraftIff(s, es[0]);
      RunOverdraftIff(Step(s, es[0]).state, es[1..]);
    }
  }

  lemma {:induction false} RunExact(s: State, es: seq<Event>)
    requires SmallRun(s, es) && ExactRun(s, es) && Run(s, es).Running?
    requires OneSided(s) && s.cpu.alloc == TotalQuota(s)
    ensures var t := Run(s, es).state;
            t.cpu.alloc == TotalQuota(t) && Surplus(t.cpu) == Surplus(s.cpu) + RunOverdraft(s, es)
    decreases es
  {
    hide Step;
    if es != [] {
      var s' := Step(s, es[0]).state;
      StepExact(s, es[0]);
      StepSurplus(s, es[0]);
      RunExact(s', es[1..]);
    }
  }

  lemma {:induction false} RunSurplus(s: State, es: seq<Event>)
    requires SmallRun(s, es) && Run(s, es).Running? && OneSided(s)
    ensures OneSided(Run(s, es).state) && Surplus(Run(s, es).state.cpu) >= Surplus(s.cpu)
    decreases es
  {
    hide Step;
    if es != [] {
      StepSurplus(s, es[0]);
      RunSurplus(Step(s, es[0]).state, es[1..]);
    }
  }

  /** In every exact-report run from the application spec the allocation is the sum of all queued quotas, and
      allocated plus unallocated runtime is total plus overrun plus exactly what the pool was overdrawn by. So the
      intended law holds if and only if no event of the run meets the overdraft condition. */
  lemma ExactLedger(cpuLimit: nat, memLimit: nat, es: seq<Event>)
    requires cpuLimit * 100_000 < TWO63
    requires var s := AppSpec(cpuLimit, memLimit); SmallRun(s, es) && ExactRun(s, es) && Run(s, es).Running?
    ensures var s := AppSpec(cpuLimit, memLimit);
            var t := Run(s, es).state;
            && t.cpu.alloc == TotalQuota(t)
            && t.cpu.alloc + t.cpu.unalloc == t.cpu.total + t.cpu.overrun + RunOverdraft(s, es)
            && (t.cpu.alloc + t.cpu.unalloc == t.cpu.total + t.cpu.overrun <==> NeverOverdraws(s, es))
  {
    var s := AppSpec(cpuLimit, memLimit);
    assert Weights(s.reg, QuotaOf) == map[];
    RunExact(s, es);
    RunOverdraftIff(s, es);
    hide Step, Run;
  }

  /** In every run, exact or not, allocated plus unallocated never falls below total plus overrun. So the leak
      counter never becomes positive, and no later report finds anything to repair. */
  lemma RepairNeverFires(cpuLimit: nat, memLimit: nat, es: seq<Event>, id: ContainerId, u: Usage)
    requires cpuLimit * 100_000 < TWO63
    requires var s := AppSpec(cpuLimit, memLimit); SmallRun(s, es) && Run(s, es).Running?
    requires var t := Run(AppSpec(cpuLimit, memLimit), es).state;
             Small(t) && id in t.reg && SmallReport(t.cpu, Back(t.reg[id]), u)
    ensures var t := Run(AppSpec(cpuLimit, memLimit), es).state;
            && t.cpu.alloc + t.cpu.unalloc >= t.cpu.total + t.cpu.overrun
            && t.leak <= 0
            && var cpu := CountersAfter(t.cpu, Back(t.reg[id]), u.rxQuota);
               RepairLeak(cpu, t.leak).0 == cpu && LeakSeen(cpu, t.leak) <= 0
  {
    var s := AppSpec(cpuLimit, memLimit);
    RunSurplus(s, es);
    var t := Run(s, es).state;
    BackIsSmall(t.reg, id);
    ReconcileSurplus(t.cpu, Back(t.reg[id]), u.rxQuota);
    LeakStaysClosed(CountersAfter(t.cpu, Back(t.reg[id]), u.rxQuota), t.leak);
  }

  /** Waking an idle container conserves allocated plus unallocated runtime exactly when the allocation covers
      what is taken back, whether the wake-up quota lies above or below the reported one. */
  lemma WakeConservesIff(cpu: CpuCounters, rx: Word)
    requires SmallCpu(cpu) && cpu.unalloc > 0 && rx < TWO63
    ensures var q := MinWord(cpu.unalloc, ONE_CORE);
            var cpu' := SettleCounters(cpu, rx, Grant(q));
            && cpu'.unalloc == cpu.unalloc - (q - rx)
            && (cpu'.alloc + cpu'.unalloc == cpu.alloc + cpu.unalloc <==> rx - q <= cpu.alloc)
  {
  }

  /** From any state: what is missing from the total is added to the leak counter, and once that reaches 1000 ns all of it
      goes to the pool and the counter restarts. So the counter stays below the tolerated loss, and a repair leaves
      allocated plus unallocated at the total plus the leak carried in. */
  lemma LeakRepairBound(cpu: CpuCounters, leak: int)
    requires SmallCpu(cpu) && leak < MAX_CPU_LOSS
    ensures var seen := leak + cpu.total - cpu.alloc - cpu.unalloc;
            && (seen < 1000 ==> RepairLeak(cpu, leak) == (cpu, seen))
            && (seen >= 1000 ==> RepairLeak(cpu, leak).0 == cpu.(unalloc := cpu.unalloc + seen) && RepairLeak(cpu, leak).1 == 0)
    ensures var (cpu', leak') := RepairLeak(cpu, leak);
            && leak' < MAX_CPU_LOSS
            && (cpu' != cpu ==>
                 && cpu'.alloc + cpu'.unalloc == cpu.total + leak < cpu.total + MAX_CPU_LOSS
                 && leak' == 0)
  {
  }

  /** The idle reset conserves runtime exactly when the side it draws on can pay: the allocation for a container
      above 30 ms, the unallocated pool for one below. */
  lemma IdleConservesIff(cpu: CpuCounters, c: Container)
    requires SmallCpu(cpu) && c.quota < TWO63
    ensures var cpu' := IdleReset(cpu, c).0;
            cpu'.alloc + cpu'.unalloc == cpu.alloc + cpu.unalloc <==>
            (c.quota - MIN_QUOTA <= cpu.alloc && MIN_QUOTA - c.quota <= cpu.unalloc)
  {
  }
}
