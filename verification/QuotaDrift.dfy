/** Reports are compared with the tracked quota only to the microsecond. How far the allocation can
    drift from the sum of the quotas when they agree only that far, and when they are reconciled. */
module QuotaDrift {
  import opened Words
  import opened Sums
  import opened Containers
  import opened CpuControl
  import opened MemControl
  import opened Controller
  import opened CpuLedger

  ghost function Drift(s: State): int { s.cpu.alloc - TotalQuota(s) }

  /** A report that matches to the microsecond and resizes the container. */
  ghost predicate ResizesUnreconciled(cpu: CpuCounters, fair: Word, c: Container, u: Usage) {
    !Mismatch(c, u.rxQuota) && Accepts(c, u) && !ReportVerdict(cpu, fair, c, u).Keep?
  }

  ghost function DriftingStep(s: State, e: Event): nat {
    if e.CpuReport? && e.id in s.reg && ResizesUnreconciled(s.cpu, s.fair, Back(s.reg[e.id]), e.usage) then 1 else 0
  }

  /** No decrement of the allocation in this report asks for more than is allocated. */
  ghost predicate ReportUnclamped(cpu: CpuCounters, fair: Word, c: Container, u: Usage) {
    var rx, v := u.rxQuota, ReportVerdict(cpu, fair, c, u);
    Tolerated(c, rx) || (
      && (Mismatch(c, rx) ==> c.quota - rx <= cpu.alloc)
      && (Accepts(c, u) && !v.Keep? ==> rx - v.quota <= CountersAfter(cpu, c, rx).alloc))
  }

  ghost predicate Unclamped(s: State, e: Event) {
    match e
    case CpuReport(id, u) => id in s.reg ==> ReportUnclamped(s.cpu, s.fair, Back(s.reg[id]), u)
    case IdleCheck(id, now, rpcOk) => id in s.reg ==> Back(s.reg[id]).quota - MIN_QUOTA <= s.cpu.alloc
    case DeletePod(docker) =>
      Resolves(s, docker) && s.dockers[docker] in s.reg ==> s.reg[s.dockers[docker]][0].quota <= s.cpu.alloc
    case _ => true
  }

  lemma ReportDrift(cpu: CpuCounters, fair: Word, leak: int, c: Container, u: Usage)
    requires SmallCpu(cpu) && fair < TWO63 && c.quota < TWO63 && SmallReport(cpu, c, u)
    requires Surplus(cpu) >= 0 && leak <= 0
    requires SmallCpu(Report(cpu, fair, leak, c, u).0) && Report(cpu, fair, leak, c, u).2.quota < TWO63
    ensures var (cpu', _, c') := Report(cpu, fair, leak, c, u);
            var change := (cpu'.alloc - cpu.alloc) - (c'.quota - c.quota);
            var bound := if ResizesUnreconciled(cpu, fair, c, u) then 999 else 0;
            && change >= -bound
            && (ReportUnclamped(cpu, fair, c, u) ==> change <= bound)
  {
    if !Tolerated(c, u.rxQuota) {
      var cpu1, v := CountersAfter(cpu, c, u.rxQuota), ReportVerdict(cpu, fair, c, u);
      ReportIsSettlement(cpu, fair, leak, c, u);
      ReportVerdictSane(cpu, fair, c, u);
      ReconcileSurplus(cpu, c, u.rxQuota);
      if Accepts(c, u) {
        SettleSurplus(cpu1, fair, u.rxQuota, v);
        if ReportUnclamped(cpu, fair, c, u) {
          ReconcileUnclamped(cpu, c, u.rxQuota);
          SettleExact(cpu1, fair, u.rxQuota, v);
        }
      } else if ReportUnclamped(cpu, fair, c, u) {
        ReconcileUnclamped(cpu, c, u.rxQuota);
      }
    }
  }

  lemma ReconcileUnclamped(cpu: CpuCounters, c: Container, rx: Word)
    requires SmallCpu(cpu) && c.quota < TWO63 && rx < TWO63
    requires Mismatch(c, rx) ==> c.quota - rx <= cpu.alloc
    ensures CountersAfter(cpu, c, rx).alloc == cpu.alloc + if Mismatch(c, rx) then rx - c.quota else 0
  {
  }

  lemma ReportStepDrift(s: State, id: ContainerId, u: Usage)
    requires Small(s) && OneSided(s) && id in s.reg && SmallReport(s.cpu, Back(s.reg[id]), u)
    requires Small(ReportStep(s, id, u))
    ensures var bound := if ResizesUnreconciled(s.cpu, s.fair, Back(s.reg[id]), u) then 999 else 0;
            && Drift(ReportStep(s, id, u)) >= Drift(s) - bound
            && (ReportUnclamped(s.cpu, s.fair, Back(s.reg[id]), u) ==> Drift(ReportStep(s, id, u)) <= Drift(s) + bound)
  {
    hide Report, SumMap, SumSeq;
    var s' := ReportStep(s, id, u);
    BackIsSmall(s.reg, id);
    BackIsSmall(s'.reg, id);
    TotalSetEntry(s.reg, id, |s.reg[id]| - 1, Back(s'.reg[id]), QuotaOf);
    ReportDrift(s.cpu, s.fair, s.leak, Back(s.reg[id]), u);
  }

  lemma IdleStepDrift(s: State, id: ContainerId, now: int, rpcOk: bool)
    requires Small(s) && Small(IdleStep(s, id, now, rpcOk))
    ensures Drift(IdleStep(s, id, now, rpcOk)) >= Drift(s)
    ensures id in s.reg && Back(s.reg[id]).quota - MIN_QUOTA <= s.cpu.alloc ==> Drift(IdleStep(s, id, now, rpcOk)) == Drift(s)
  {
    hide SumMap, SumSeq;
    if id in s.reg && NeedsIdleReset(Back(s.reg[id]), now) && Back(s.reg[id]).inserted && rpcOk {
      BackIsSmall(s.reg, id);
      TotalSetEntry(s.reg, id, |s.reg[id]| - 1, SetQuota(Back(s.reg[id]), MIN_QUOTA), QuotaOf);
      IdleResetSurplus(s.cpu, Back(s.reg[id]));
    }
  }

  lemma DeleteStepDrift(s: State, docker: DockerId)
    requires Small(s) && Resolves(s, docker) && s.dockers[docker] in s.reg
    ensures Drift(DeleteStep(s, docker)) >= Drift(s)
    ensures s.reg[s.dockers[docker]][0].quota <= s.cpu.alloc ==> Drift(DeleteStep(s, docker)) == Drift(s)
  {
    hide SumMap, SumSeq;
    TotalPop(s.reg, s.dockers[docker], QuotaOf);
    ReleaseSurplus(s.cpu, s.reg[s.dockers[docker]][0].quota);
  }

  lemma StepDrift(s: State, e: Event)
    requires Small(s) && SmallEvent(s, e) && OneSided(s)
    requires Step(s, e).Running? && Small(Step(s, e).state)
    ensures Drift(Step(s, e).state) >= Drift(s) - 999 * DriftingStep(s, e)
    ensures Unclamped(s, e) ==> Drift(Step(s, e).state) <= Drift(s) + 999 * DriftingStep(s, e)
  {
    hide Report, SumMap, SumSeq;
    match e
    case Admit(id, fd, req, throttled, now, found) =>
      AdmissionSurplus(s.cpu, req);
      TotalPush(s.reg, id, NewContainer(fd, Admission(s.cpu, req).1, throttled, now, found), QuotaOf);
    case CpuReport(id, u) => ReportStepDrift(s, id, u);
    case IdleCheck(id, now, rpcOk) => IdleStepDrift(s, id, now, rpcOk);
    case DeletePod(docker) =>
      if Resolves(s, docker) {
        DeleteStepDrift(s, docker);
      }
    case PodSpec(_, _) =>
    case _ =>
      MemoryStepFrames(s, e);
      OnlyLimitsDifferKeepsQuotas(s.reg, Step(s, e).state.reg);
  }

  ghost function DriftingSteps(s: State, es: seq<Event>): nat
    decreases es
  {
    if es == [] || !Step(s, es[0]).Running? then 0
    else DriftingStep(s, es[0]) + DriftingSteps(Step(s, es[0]).state, es[1..])
  }

  ghost predicate UnclampedRun(s: State, es: seq<Event>)
    decreases es
  {
    es == [] || (Unclamped(s, es[0]) && (Step(s, es[0]).Running? ==> UnclampedRun(Step(s, es[0]).state, es[1..])))
  }

  /** Over any run the allocation falls short of the sum of the quotas by at most 999 ns for each resizing report
      that matched only to the microsecond; without a clamped decrement it exceeds it by no more either. */
  lemma {:induction false} DriftBound(s: State, es: seq<Event>)
    requires SmallRun(s, es) && Run(s, es).Running? && OneSided(s)
    ensures Drift(Run(s, es).state) >= Drift(s) - 999 * DriftingSteps(s, es)
    ensures UnclampedRun(s, es) ==> Drift(Run(s, es).state) <= Drift(s) + 999 * DriftingSteps(s, es)
    decreases es
  {
    hide Step;
    if es != [] {
      StepDrift(s, es[0]);
      StepSurplus(s, es[0]);
      DriftBound(Step(s, es[0]).state, es[1..]);
    }
  }

  // ---------- reconciliation on every fourth mismatch ----------

  /** A report to the newest container under an id that does not match its tracked quota. */
  ghost predicate MismatchedReport(s: State, e: Event, id: ContainerId) {
    e.CpuReport? && e.id == id && id in s.reg && Mismatch(Back(s.reg[id]), e.usage.rxQuota)
  }

  ghost function CountOn(s: State, e: Event, id: ContainerId, n: nat): nat {
    if e.Admit? && e.id == id then 0 else if MismatchedReport(s, e, id) then n + 1 else n
  }

  /** The mismatched reports under an id since its newest container was admitted, given `n` before the run. */
  ghost function MismatchedSince(s: State, es: seq<Event>, id: ContainerId, n: nat): nat
    decreases es
  {
    if es == [] || !Step(s, es[0]).Running? then n
    else MismatchedSince(Step(s, es[0]).state, es[1..], id, CountOn(s, es[0], id, n))
  }

  ghost predicate CounterIs(reg: Registry, id: ContainerId, n: nat) {
    id in reg ==> Back(reg[id]).mismatches == n % 4
  }

  lemma CounterAfter(cpu: CpuCounters, fair: Word, leak: int, c: Container, u: Usage)
    ensures Report(cpu, fair, leak, c, u).2.mismatches ==
            if !Mismatch(c, u.rxQuota) then c.mismatches else if c.mismatches <= 2 then c.mismatches + 1 else 0
  {
    assert Mismatch(Touch(c, u), u.rxQuota) == Mismatch(c, u.rxQuota);
    hide Mismatch, RepairLeak, CountersAfter, VerdictOn, SettleCounters;
  }

  lemma ReportCounts(cpu: CpuCounters, fair: Word, leak: int, c: Container, u: Usage, n: nat)
    requires c.mismatches == n % 4
    ensures Report(cpu, fair, leak, c, u).2.mismatches == (if Mismatch(c, u.rxQuota) then n + 1 else n) % 4
  {
    CounterAfter(cpu, fair, leak, c, u);
    hide Report, Mismatch;
  }

  lemma UpdateCounts(reg: Registry, j: ContainerId, c: Container, id: ContainerId, n: nat, n': nat)
    requires j in reg && CounterIs(reg, id, n)
    requires if j == id then c.mismatches == n' % 4 else n' == n
    ensures CounterIs(Update(reg, j, c), id, n')
  {
  }

  lemma IdleKeepsCount(cpu: CpuCounters, reg: Registry, j: ContainerId, id: ContainerId, n: nat)
    requires j in reg && CounterIs(reg, id, n)
    ensures CounterIs(Update(reg, j, IdleReset(cpu, Back(reg[j])).1), id, n)
  {
  }

  lemma PushCounts(reg: Registry, j: ContainerId, c: Container, id: ContainerId, n: nat)
    requires CounterIs(reg, id, n) && c.mismatches == 0
    ensures CounterIs(Push(reg, j, c), id, if j == id then 0 else n)
  {
  }

  lemma PopKeepsCount(reg: Registry, j: ContainerId, id: ContainerId, n: nat)
    requires j in reg && CounterIs(reg, id, n)
    ensures CounterIs(Pop(reg, j), id, n)
  {
  }

  lemma LimitsKeepCount(reg: Registry, reg': Registry, id: ContainerId, n: nat)
    requires OnlyLimitsDiffer(reg, reg') && CounterIs(reg, id, n)
    ensures CounterIs(reg', id, n)
  {
    if id in reg {
      assert QueueFramed(reg[id], reg'[id]);
    }
  }

  lemma StepCounts(s: State, e: Event, id: ContainerId, n: nat)
    requires CounterIs(s.reg, id, n) && Step(s, e).Running?
    ensures CounterIs(Step(s, e).state.reg, id, CountOn(s, e, id, n))
  {
    hide Report, IdleReset, Admission, Update, Push, Pop, CounterIs, Release, Credit, FairShare;
    match e
    case CpuReport(j, u) =>
      var c := Report(s.cpu, s.fair, s.leak, Back(s.reg[j]), u).2;
      if j == id {
        assert Back(s.reg[id]).mismatches == n % 4 by { CounterOf(s.reg, id, n); }
        ReportCounts(s.cpu, s.fair, s.leak, Back(s.reg[id]), u, n);
      }
      UpdateCounts(s.reg, j, c, id, n, CountOn(s, e, id, n));
    case IdleCheck(j, _, _) =>
      if j in s.reg {
        IdleKeepsCount(s.cpu, s.reg, j, id, n);
      }
    case Admit(j, fd, req, throttled, now, found) =>
      PushCounts(s.reg, j, NewContainer(fd, Admission(s.cpu, req).1, throttled, now, found), id, n);
    case DeletePod(docker) =>
      if Resolves(s, docker) {
        PopKeepsCount(s.reg, s.dockers[docker], id, n);
      }
    case PodSpec(_, _) =>
    case _ =>
      MemoryStepFrames(s, e);
      LimitsKeepCount(s.reg, Step(s, e).state.reg, id, n);
  }

  lemma CounterOf(reg: Registry, id: ContainerId, n: nat)
    requires CounterIs(reg, id, n) && id in reg
    ensures Back(reg[id]).mismatches == n % 4
  {
  }

  lemma {:induction false} RunCounts(s: State, es: seq<Event>, id: ContainerId, n: nat)
    requires CounterIs(s.reg, id, n) && Run(s, es).Running?
    ensures CounterIs(Run(s, es).state.reg, id, MismatchedSince(s, es, id, n))
    decreases es
  {
    hide Step, CounterIs, CountOn;
    if es != [] {
      StepCounts(s, es[0], id, n);
      RunCounts(Step(s, es[0]).state, es[1..], id, CountOn(s, es[0], id, n));
    }
  }

  /** What a mismatched report does: a tolerated one is only counted, any other one adopts the reported quota unless
      the agent accepts yet another one, and starts counting again. */
  lemma MismatchEffect(cpu: CpuCounters, fair: Word, leak: int, c: Container, u: Usage)
    requires Mismatch(c, u.rxQuota)
    ensures var (cpu', leak', c') := Report(cpu, fair, leak, c, u);
            && (c.mismatches < 3 ==>
                  cpu' == cpu && leak' == leak && c' == Touch(c, u).(mismatches := c.mismatches + 1))
            && (c.mismatches == 3 ==> c'.mismatches == 0 && (!Accepts(c, u) ==> c'.quota == u.rxQuota))
  {
    hide RepairLeak, CountersAfter, VerdictOn, SettleCounters;
  }

  /** In every run and for every registered id, the mismatch counter is the number of mismatched reports since the
      newest container under the id was admitted, modulo four. So the next mismatched report is reconciled if and only
      if it is a fourth one, and otherwise leaves counters, quota and statistics alone. */
  lemma ReconciledOnEveryFourth(cpuLimit: nat, memLimit: nat, es: seq<Event>, id: ContainerId, u: Usage)
    requires var out := Run(AppSpec(cpuLimit, memLimit), es); out.Running? && id in out.state.reg
    ensures var s := AppSpec(cpuLimit, memLimit);
            var t, n := Run(s, es).state, MismatchedSince(s, es, id, 0);
            var c, c' := Back(t.reg[id]), Back(ReportStep(t, id, u).reg[id]);
            && c.mismatches == n % 4
            && (Mismatch(c, u.rxQuota) ==>
                 && (Tolerated(c, u.rxQuota) <==> n % 4 != 3)
                 && (n % 4 != 3 ==> ReportStep(t, id, u).cpu == t.cpu && c' == Touch(c, u).(mismatches := n % 4 + 1))
                 && (n % 4 == 3 ==> c'.mismatches == 0 && (!Accepts(c, u) ==> c'.quota == u.rxQuota)))
  {
    hide Report, Run, MismatchedSince, Touch;
    var s := AppSpec(cpuLimit, memLimit);
    RunCounts(s, es, id, 0);
    var t := Run(s, es).state;
    CounterOf(t.reg, id, MismatchedSince(s, es, id, 0));
    if Mismatch(Back(t.reg[id]), u.rxQuota) {
      MismatchEffect(t.cpu, t.fair, t.leak, Back(t.reg[id]), u);
    }
  }
}
