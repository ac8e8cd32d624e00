/** When the laws apply: conditions on the state and the next event that keep every counter small, so that a run whose
    events all meet them is one the ledger theorems speak about. */
module Guards {
  import opened Words
  import opened Sums
  import opened Containers
  import opened CpuControl
  import opened MemControl
  import opened Controller
  import opened CpuLedger
  import opened Convergence
  import opened Shares

  /** Room in the 64-bit counters for one more step. */
  ghost predicate Room(s: State, rx: Word) {
    s.cpu.alloc + s.cpu.unalloc + s.cpu.overrun + s.cpu.slice + s.fair + rx + MIN_QUOTA < TWO63
  }

  /** The reports on which an overrun payment exceeds the quota it is taken from. */
  ghost predicate Overpays(cpu: CpuCounters, fair: Word, rx: Word) {
    fair < rx < cpu.overrun && AsksTooMuch(fair, cpu.slice, rx)
  }

  /** A container above its fair share that is not woken from idle pays back while there is overrun; its new quota is
      the reported one less the payment, unless the report overpays, and then the subtraction wraps to almost 2^64.
      With a fair share of at least one slice no report overpays. */
  lemma RepayWrapsIff(cpu: CpuCounters, fair: Word, sampled: Container, u: Usage, idle: bool)
    requires SmallCpu(cpu) && fair < u.rxQuota < TWO63 && cpu.overrun > 0 && !(idle && cpu.unalloc > 0)
    ensures var v := VerdictOn(cpu, fair, sampled, u, idle);
            && v.Repay?
            && (v.quota >= TWO63 <==> Overpays(cpu, fair, u.rxQuota))
            && (v.quota <= u.rxQuota <==> !Overpays(cpu, fair, u.rxQuota))
    ensures 2 <= cpu.slice <= fair ==> !Overpays(cpu, fair, u.rxQuota)
  {
    ShareExceedsIff(fair, cpu.slice, u.rxQuota);
    if 2 <= cpu.slice <= fair {
      OverrunShareBounds(fair, cpu.slice, u.rxQuota);
    }
    hide OverrunShare, AsksTooMuch;
  }

  ghost predicate Guarded(s: State, e: Event) {
    match e
    case Admit(_, _, _, _, _, _) => Room(s, 0)
    case CpuReport(id, u) =>
      id in s.reg ==>
        Room(s, u.rxQuota) && s.cpu.slice >= MAX_UNUSED_RT && !Overpays(s.cpu, s.fair, u.rxQuota)
    case IdleCheck(id, _, _) =>
      id in s.reg ==> Room(s, 0) && MIN_QUOTA - Back(s.reg[id]).quota <= s.cpu.unalloc
    case _ => true
  }

  /** The overrun payment is the only verdict that can leave the range of real quotas. */
  lemma VerdictReachable(cpu: CpuCounters, fair: Word, sampled: Container, u: Usage, idle: bool)
    requires SmallCpu(cpu) && fair < TWO63 && u.rxQuota + cpu.unalloc < TWO63 && cpu.slice >= MAX_UNUSED_RT
    ensures var v := VerdictOn(cpu, fair, sampled, u, idle);
            !v.Keep? && v.quota >= TWO63 <==>
            cpu.overrun > 0 && !(idle && cpu.unalloc > 0) && Overpays(cpu, fair, u.rxQuota)
  {
    var rx := u.rxQuota;
    if rx < fair {
      RaiseShareBounds(fair, cpu.slice, rx);
    }
    ShrinkAtMost(rx);
    hide OverrunShare, RaiseShare, ThrottleShare, AsksTooMuch;
    if fair < rx && cpu.overrun > 0 && !(idle && cpu.unalloc > 0) {
      RepayWrapsIff(cpu, fair, sampled, u, idle);
    }
  }

  /** An exact ledger with small counters and a current fair share. */
  ghost predicate Exact(s: State) {
    Small(s) && OneSided(s) && s.cpu.alloc == TotalQuota(s)
  }

  lemma QuotasSmall(s: State)
    requires TotalQuota(s) < TWO63
    ensures SmallQuotas(s.reg)
  {
    hide SumMap, SumSeq;
    forall id, i | id in s.reg && 0 <= i < |s.reg[id]| ensures s.reg[id][i].quota < TWO63 {
      TotalSetEntry(s.reg, id, i, s.reg[id][i], QuotaOf);
    }
  }

  lemma ReconciledSmall(s: State, id: ContainerId, u: Usage)
    requires Exact(s) && id in s.reg && Room(s, u.rxQuota)
    ensures var c := Back(s.reg[id]);
            var cpu := CountersAfter(s.cpu, c, u.rxQuota);
            && c.quota <= s.cpu.alloc && SmallReport(s.cpu, c, u)
            && cpu.unalloc + u.rxQuota < TWO63 && cpu.overrun == s.cpu.overrun && cpu.slice == s.cpu.slice
            && ReconcileOverdraft(s.cpu, c, u.rxQuota) <= u.rxQuota
  {
    hide SumMap, SumSeq;
    BackIsSmall(s.reg, id);
    TotalSetEntry(s.reg, id, |s.reg[id]| - 1, Back(s.reg[id]), QuotaOf);
    ReconcileSurplus(s.cpu, Back(s.reg[id]), u.rxQuota);
  }

  /** What a settlement can add to the overrun and to the overdraft. */
  lemma SettleGrowth(cpu: CpuCounters, fair: Word, rx: Word, v: Verdict)
    requires SmallCpu(cpu) && fair < TWO63 && rx < TWO63 && Sane(cpu, fair, rx, v) && cpu.overrun + fair < TWO63
    requires !v.Keep? ==> v.quota < TWO63
    ensures var cpu' := SettleCounters(cpu, rx, v);
            && cpu'.overrun <= cpu.overrun + fair && cpu'.total == cpu.total && cpu'.slice == cpu.slice
            && Overdraft(cpu, rx, v) <= cpu.slice
  {
  }

  /** A guarded report on small counters leaves a real quota and small counters. */
  lemma ReportSmall(cpu: CpuCounters, fair: Word, leak: int, c: Container, u: Usage)
    requires SmallCpu(cpu) && fair < TWO63 && c.quota < TWO63 && SmallReport(cpu, c, u)
    requires Surplus(cpu) >= 0 && leak <= 0 && c.quota <= cpu.alloc && ExactReport(c, u)
    requires cpu.alloc + cpu.unalloc + cpu.overrun + cpu.slice + fair + u.rxQuota < TWO63
    requires ReconcileOverdraft(cpu, c, u.rxQuota) <= u.rxQuota
    requires CountersAfter(cpu, c, u.rxQuota).overrun == cpu.overrun && CountersAfter(cpu, c, u.rxQuota).slice == cpu.slice
    requires var v := ReportVerdict(cpu, fair, c, u); !v.Keep? ==> v.quota < TWO63
    ensures SmallCpu(Report(cpu, fair, leak, c, u).0) && Report(cpu, fair, leak, c, u).2.quota < TWO63
  {
    hide Report, SettleCounters, ReportVerdict, CountersAfter;
    if Tolerated(c, u.rxQuota) {
      ToleratedReport(cpu, fair, leak, c, u);
    } else {
      ReportIsSettlement(cpu, fair, leak, c, u);
      ReportVerdictSane(cpu, fair, c, u);
      SettleGrowth(CountersAfter(cpu, c, u.rxQuota), fair, u.rxQuota, ReportVerdict(cpu, fair, c, u));
      KeepsTotal(cpu, c, u.rxQuota);
      ReportExact(cpu, fair, leak, c, u);
    }
  }

  lemma KeepsTotal(cpu: CpuCounters, c: Container, rx: Word)
    ensures CountersAfter(cpu, c, rx).total == cpu.total
  {
  }

  lemma ReportGuarded(s: State, id: ContainerId, u: Usage)
    requires Exact(s) && Refreshed(s) && id in s.reg
    requires ExactReport(Back(s.reg[id]), u) && Guarded(s, CpuReport(id, u))
    ensures SmallEvent(s, CpuReport(id, u)) && Small(ReportStep(s, id, u))
  {
    hide Report, SumMap, SumSeq, OverrunShare, RaiseShare, ThrottleShare, Decide;
    var c := Back(s.reg[id]);
    ReconciledSmall(s, id, u);
    BackIsSmall(s.reg, id);
    VerdictReachable(CountersAfter(s.cpu, c, u.rxQuota), s.fair, Observed(c, u), u, IsIdle(c, u.now));
    ReportSmall(s.cpu, s.fair, s.leak, c, u);
    hide CountersAfter, Observed, VerdictOn, ReconcileOverdraft;
    ReportStepExact(s, CpuReport(id, u));
    QuotasSmall(ReportStep(s, id, u));
  }

  lemma ToleratedReport(cpu: CpuCounters, fair: Word, leak: int, c: Container, u: Usage)
    requires Tolerated(c, u.rxQuota)
    ensures Report(cpu, fair, leak, c, u).0 == cpu && Report(cpu, fair, leak, c, u).2.quota == c.quota
  {
  }

  lemma IdleGuarded(s: State, id: ContainerId, now: int, rpcOk: bool)
    requires Exact(s) && Guarded(s, IdleCheck(id, now, rpcOk))
    ensures Small(IdleStep(s, id, now, rpcOk))
  {
    hide SumMap, SumSeq;
    if id in s.reg && NeedsIdleReset(Back(s.reg[id]), now) && Back(s.reg[id]).inserted && rpcOk {
      var q := s.reg[id];
      BackIsSmall(s.reg, id);
      TotalSetEntry(s.reg, id, |q| - 1, SetQuota(Back(q), MIN_QUOTA), QuotaOf);
      QuotasSmall(IdleStep(s, id, now, rpcOk));
    }
  }

  lemma AdmitGuarded(s: State, e: Event)
    requires Exact(s) && e.Admit? && Guarded(s, e)
    ensures Small(Effect(s, e).state)
  {
    hide SumMap, SumSeq;
    AdmissionSurplus(s.cpu, e.req);
    AdmitExact(s, e);
    QuotasSmall(Effect(s, e).state);
    FairAtMostTotal(s.cpu.total, Effect(s, e).state.reg);
  }

  lemma DeleteGuarded(s: State, e: Event)
    requires Exact(s) && e.DeletePod? && Effect(s, e).Running?
    ensures Small(Effect(s, e).state)
  {
    hide SumMap, SumSeq;
    DeleteStepExact(s, e);
    if Resolves(s, e.docker) {
      TotalPop(s.reg, s.dockers[e.docker], QuotaOf);
      QuotasSmall(Effect(s, e).state);
      FairAtMostTotal(s.cpu.total, Effect(s, e).state.reg);
    }
  }

  lemma FairAtMostTotal(total: Word, reg: Registry)
    ensures FairShare(total, reg) <= total
  {
    if |reg| > 0 {
      FairSharesFit(total, |reg|);
      ProductMonotone(1, |reg|, total / |reg|);
    }
  }

  /** From an exact ledger, a guarded event with an exact report leads to an exact ledger with small counters. */
  lemma GuardedStep(s: State, e: Event)
    requires Exact(s) && Refreshed(s) && ExactEvent(s, e) && Guarded(s, e) && Step(s, e).Running?
    ensures SmallEvent(s, e) && Exact(Step(s, e).state) && Refreshed(Step(s, e).state)
  {
    hide Report, SumMap, SumSeq, MissesAgent;
    match e {
      case Admit(_, _, _, _, _, _) => AdmitGuarded(s, e);
      case CpuReport(id, u) => ReportGuarded(s, id, u);
      case IdleCheck(id, now, rpcOk) => IdleGuarded(s, id, now, rpcOk);
      case DeletePod(_) => DeleteGuarded(s, e);
      case PodSpec(_, _) =>
      case _ =>
        MemoryStepFrames(s, e);
        LimitsKeepSmall(s.reg, Step(s, e).state.reg);
    }
    StepExact(s, e);
    StepSurplus(s, e);
    StepRefreshed(s, e);
  }

  lemma LimitsKeepSmall(reg: Registry, reg': Registry)
    requires SmallQuotas(reg) && OnlyLimitsDiffer(reg, reg')
    ensures SmallQuotas(reg')
  {
    forall id, i | id in reg' && 0 <= i < |reg'[id]| ensures reg'[id][i].quota < TWO63 {
      assert QueueFramed(reg[id], reg'[id]);
      assert reg[id][i].quota < TWO63;
    }
  }

  ghost predicate GuardedRun(s: State, es: seq<Event>)
    decreases es
  {
    es == [] || (Guarded(s, es[0]) && (Step(s, es[0]).Running? ==> GuardedRun(Step(s, es[0]).state, es[1..])))
  }

  /** A run whose every event is guarded keeps all counters small. */
  lemma {:induction false} GuardedRunIsSmall(s: State, es: seq<Event>)
    requires Exact(s) && Refreshed(s) && ExactRun(s, es) && GuardedRun(s, es)
    requires Run(s, es).Running?
    ensures SmallRun(s, es)
    decreases es
  {
    hide Step;
    if es != [] {
      GuardedStep(s, es[0]);
      GuardedRunIsSmall(Step(s, es[0]).state, es[1..]);
    }
  }

  /** The exact ledger from conditions that can be checked before each event. */
  lemma GuardedLedger(cpuLimit: nat, memLimit: nat, es: seq<Event>)
    requires cpuLimit * 100_000 < TWO63
    requires var s := AppSpec(cpuLimit, memLimit); GuardedRun(s, es) && ExactRun(s, es) && Run(s, es).Running?
    ensures var s := AppSpec(cpuLimit, memLimit);
            var t := Run(s, es).state;
            && t.cpu.alloc == TotalQuota(t)
            && t.cpu.alloc + t.cpu.unalloc == t.cpu.total + t.cpu.overrun + RunOverdraft(s, es)
            && (t.cpu.alloc + t.cpu.unalloc == t.cpu.total + t.cpu.overrun <==> NeverOverdraws(s, es))
            && t.leak <= 0
  {
    var s := AppSpec(cpuLimit, memLimit);
    assert Weights(s.reg, QuotaOf) == map[];
    hide Step, Run;
    GuardedRunIsSmall(s, es);
    ExactLedger(cpuLimit, memLimit, es);
    RunSurplus(s, es);
  }

  // ---------- progress, in reachable states ----------

  /** In any state reached by an exact run that never overdrew the pool, with one container per id: if more is allocated
      than the total, there is overrun, some container holds more than its fair share, and whatever non-idle report it
      sends next, the verdict is to pay back. */
  lemma ProgressByPigeonhole(cpuLimit: nat, memLimit: nat, es: seq<Event>) returns (id: ContainerId)
    requires cpuLimit * 100_000 < TWO63
    requires var s := AppSpec(cpuLimit, memLimit);
             SmallRun(s, es) && ExactRun(s, es) && Run(s, es).Running? && NeverOverdraws(s, es)
    requires var t := Run(AppSpec(cpuLimit, memLimit), es).state; OnePerId(t.reg) && t.cpu.alloc > t.cpu.total
    ensures var t := Run(AppSpec(cpuLimit, memLimit), es).state;
            && OverFair(t, id)
            && (forall sampled, u: Usage :: u.rxQuota == Back(t.reg[id]).quota ==>
                  VerdictOn(t.cpu, t.fair, sampled, u, false).Repay?)
  {
    var s := AppSpec(cpuLimit, memLimit);
    ExactLedger(cpuLimit, memLimit, es);
    RunRefreshed(s, es);
    hide Step, Run;
    id := SomeoneAboveFair(Run(s, es).state);
  }

  /** Such a state with a fair share of at least one slice is drainable. */
  lemma ReachableIsDrainable(cpuLimit: nat, memLimit: nat, es: seq<Event>)
    requires cpuLimit * 100_000 < TWO63
    requires var s := AppSpec(cpuLimit, memLimit);
             SmallRun(s, es) && ExactRun(s, es) && Run(s, es).Running? && NeverOverdraws(s, es)
    requires var t := Run(AppSpec(cpuLimit, memLimit), es).state;
             Small(t) && OnePerId(t.reg) && 2 <= t.cpu.slice <= t.fair
    ensures Drainable(Run(AppSpec(cpuLimit, memLimit), es).state)
  {
    var s := AppSpec(cpuLimit, memLimit);
    ExactLedger(cpuLimit, memLimit, es);
    RunRefreshed(s, es);
    RunSurplus(s, es);
    hide Step, Run;
  }
}
