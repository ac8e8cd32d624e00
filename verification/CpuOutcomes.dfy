/** What admissions and reconciliations do to the counters in whole numbers, and exactly when overrun comes about. */
module CpuOutcomes {
  import opened Words
  import opened Containers
  import opened CpuControl
  import opened MemControl
  import opened Controller
  import opened Shares
  import opened CpuLedger
  import opened ReportOutcomes

  // ---------- admission ----------

  /** A new container gets what it asks for, or all of a pool that holds less; only an empty pool makes it borrow a slice. */
  lemma AdmitOutcome(s: State, e: Event)
    requires Small(s) && e.Admit? && Step(s, e).Running?
    ensures var s' := Step(s, e).state;
            var q := if s.cpu.unalloc > 0 || e.req == 0 then Min(e.req, s.cpu.unalloc) else s.cpu.slice;
            && QuotaIs(s', e.id, q) && |s'.reg[e.id]| == (if e.id in s.reg then |s.reg[e.id]| else 0) + 1
            && (s.cpu.unalloc > 0 || e.req == 0 ==> PoolGives(s.cpu, s'.cpu, q))
            && (s.cpu.unalloc == 0 && e.req > 0 ==> OverrunGives(s.cpu, s'.cpu, q))
            && Back(s'.reg[e.id]).fd == e.fd && Back(s'.reg[e.id]).memLimit == 0
  {
    hide MissesAgent;
  }

  // ---------- reconciliation ----------

  /** The state in which the fourth mismatch has adopted the reported quota and nothing else has happened yet: the
      difference moved between allocation and pool, neither of which falls below zero. */
  ghost function Reconciled(s: State, id: ContainerId, rx: Word): State
    requires Small(s) && id in s.reg && rx < TWO63
  {
    var c := Back(s.reg[id]);
    BackIsSmall(s.reg, id);
    s.(cpu := s.cpu.(unalloc := Max(0, s.cpu.unalloc - (rx - c.quota)), alloc := Max(0, s.cpu.alloc + (rx - c.quota))),
       reg := Update(s.reg, id, FlushStats(c).(quota := rx, mismatches := 0)))
  }

  lemma ReconcileMoves(cpu: CpuCounters, quota: Word, rx: Word)
    requires SmallCpu(cpu) && quota < TWO63 && rx < TWO63
    ensures ReconcileCounters(cpu, quota, rx) ==
            cpu.(unalloc := Max(0, cpu.unalloc - (rx - quota)), alloc := Max(0, cpu.alloc + (rx - quota)))
  {
  }

  /** A mismatched report that is not tolerated does what a matching one does in the reconciled state. */
  lemma ReconcileOutcome(s: State, id: ContainerId, u: Usage)
    requires Small(s) && id in s.reg && u.rxQuota < TWO63
    requires u.rxQuota / 1000 != Back(s.reg[id]).quota / 1000 && Back(s.reg[id]).mismatches > 2
    ensures ReportStep(s, id, u) == ReportStep(Reconciled(s, id, u.rxQuota), id, u)
  {
    var c, rx := Back(s.reg[id]), u.rxQuota;
    BackIsSmall(s.reg, id);
    ReconcileMoves(s.cpu, c.quota, rx);
    var s1 := Reconciled(s, id, rx);
    var c1 := FlushStats(c).(quota := rx, mismatches := 0);
    assert Back(s1.reg[id]) == c1;
    ReconciledReport(s.cpu, s1.cpu, s.fair, s.leak, c, c1, u);
    hide Report, Reconciled;
    TwiceUpdated(s.reg, id, c1, Report(s1.cpu, s.fair, s.leak, c1, u).2);
  }

  lemma ReconciledReport(cpu: CpuCounters, cpu1: CpuCounters, fair: Word, leak: int, c: Container, c1: Container, u: Usage)
    requires u.rxQuota / 1000 != c.quota / 1000 && c.mismatches > 2
    requires cpu1 == ReconcileCounters(cpu, c.quota, u.rxQuota) && c1 == FlushStats(c).(quota := u.rxQuota, mismatches := 0)
    ensures Report(cpu, fair, leak, c, u) == Report(cpu1, fair, leak, c1, u)
  {
    hide ReconcileCounters, RepairLeak, Resize, Sample;
    assert CountersAfter(cpu, c, u.rxQuota) == cpu1 == CountersAfter(cpu1, c1, u.rxQuota);
    assert ContainerAfter(Touch(c, u), u.rxQuota) == ContainerAfter(Touch(c1, u), u.rxQuota);
  }

  lemma TwiceUpdated(reg: Registry, id: ContainerId, c: Container, c': Container)
    requires id in reg
    ensures Update(Update(reg, id, c), id, c') == Update(reg, id, c')
  {
    assert Update(Update(reg, id, c), id, c')[id] == Update(reg, id, c')[id];
  }

  // ---------- overrun ----------

  /** The pool a report finds after reconciliation. */
  ghost function PoolFound(cpu: CpuCounters, c: Container, rx: Word): int {
    if rx / 1000 != c.quota / 1000 then Max(0, cpu.unalloc - (rx - c.quota)) else cpu.unalloc
  }

  /** A report borrows: its container is throttled below the fair share, the pool is empty once a mismatch has been
      reconciled, and the gap is wide enough to gain anything. */
  ghost predicate ReportBorrows(cpu: CpuCounters, fair: Word, c: Container, u: Usage) {
    var rx := u.rxQuota;
    && !Tolerated(c, rx) && Accepts(c, u) && rx < fair && Observed(c, u).th.mean > 0.5 && PoolFound(cpu, c, rx) == 0
    && Counts(fair, cpu.slice, rx)
  }

  /** The gap is at most half a slice, or wide enough for its square over the fair share to count. */
  ghost predicate Counts(fair: Word, slice: Word, rx: Word) {
    fair - rx > slice / 2 ==> (fair - rx) * (fair - rx) >= fair
  }

  ghost predicate Borrows(s: State, e: Event) {
    match e
    case Admit(_, _, req, _, _, _) => s.cpu.unalloc == 0 && req > 0 && s.cpu.slice > 0
    case CpuReport(id, u) => id in s.reg && ReportBorrows(s.cpu, s.fair, Back(s.reg[id]), u)
    case _ => false
  }

  lemma BorrowVerdict(cpu: CpuCounters, fair: Word, sampled: Container, u: Usage, idle: bool)
    requires SmallCpu(cpu) && fair < TWO63 && u.rxQuota < TWO63
    ensures var v, rx := VerdictOn(cpu, fair, sampled, u, idle), u.rxQuota;
            && (v.Borrow? <==> cpu.unalloc == 0 && rx < fair && sampled.th.mean > 0.5)
            && (v.Borrow? ==> v.quota == rx + Gain(fair, cpu.slice, 0, rx))
            && (v.Repay? ==> Wrap(rx - v.quota) <= cpu.overrun)
  {
    hide Raise, OverrunShare, ThrottleShare, Gain;
    if u.rxQuota < fair {
      RaiseVerdict(cpu, fair, u.rxQuota);
    } else if u.rxQuota > fair {
      WrapUndoes(u.rxQuota, MinWord(cpu.overrun, OverrunShare(fair, cpu.slice, u.rxQuota)));
    }
  }

  lemma SettledOverrun(cpu: CpuCounters, fair: Word, rx: Word, v: Verdict)
    requires SmallCpu(cpu) && rx < TWO63 && fair < TWO63
    requires v.Borrow? ==> rx <= v.quota <= fair
    requires v.Repay? ==> Wrap(rx - v.quota) <= cpu.overrun
    ensures SettleCounters(cpu, rx, v).overrun > cpu.overrun <==> v.Borrow? && v.quota > rx
  {
  }

  lemma GainIsPositive(fair: Word, slice: Word, rx: Word)
    requires rx < fair
    ensures Gain(fair, slice, 0, rx) > 0 <==> Counts(fair, slice, rx)
    ensures 0 <= Gain(fair, slice, 0, rx) <= fair - rx
  {
    SquareShare(fair - rx, fair);
  }

  lemma SquareShare(gap: nat, fair: nat)
    requires 0 < gap <= fair
    ensures 0 <= gap * gap / fair <= gap && (gap * gap / fair > 0 <==> gap * gap >= fair)
  {
    var n := gap * gap;
    ProductMonotone(gap, fair, gap);
    SmallQuotient(n, fair, gap);
    QuotientAtLeast(n, fair, 1);
    QuotientAtLeast(n, fair, 0);
  }

  lemma PoolFoundIs(cpu: CpuCounters, c: Container, rx: Word)
    requires SmallCpu(cpu) && c.quota < TWO63 && rx < TWO63
    ensures var cpu1 := CountersAfter(cpu, c, rx);
            cpu1.unalloc == PoolFound(cpu, c, rx) && cpu1.overrun == cpu.overrun && cpu1.slice == cpu.slice
  {
  }

  lemma ReportBorrowsIff(cpu: CpuCounters, fair: Word, leak: int, c: Container, u: Usage)
    requires SmallCpu(cpu) && fair < TWO63 && c.quota < TWO63 && SmallReport(cpu, c, u) && Surplus(cpu) >= 0 && leak <= 0
    ensures Report(cpu, fair, leak, c, u).0.overrun > cpu.overrun <==> ReportBorrows(cpu, fair, c, u)
  {
    hide Report, SettleCounters, VerdictOn, Observed, CountersAfter, PoolFound, Gain, Wrap, Counts;
    var rx := u.rxQuota;
    PoolFoundIs(cpu, c, rx);
    if Tolerated(c, rx) {
      ToleratedCounters(cpu, fair, leak, c, u);
    } else {
      ReportIsSettlement(cpu, fair, leak, c, u);
      var cpu1, v := CountersAfter(cpu, c, rx), ReportVerdict(cpu, fair, c, u);
      BorrowVerdict(cpu1, fair, Observed(c, u), u, IsIdle(c, u.now));
      if rx < fair {
        GainIsPositive(fair, cpu.slice, rx);
      }
      SettledOverrun(cpu1, fair, rx, v);
    }
  }

  lemma ToleratedCounters(cpu: CpuCounters, fair: Word, leak: int, c: Container, u: Usage)
    requires Tolerated(c, u.rxQuota)
    ensures Report(cpu, fair, leak, c, u).0 == cpu
  {
  }

  /** The overrun grows in a step if and only if the step borrows. A step that starts with something in the pool borrows
      only if it first reconciles a quota upward by at least what the pool holds. */
  lemma OverrunGrowsIff(s: State, e: Event)
    requires Small(s) && SmallEvent(s, e) && OneSided(s) && Step(s, e).Running?
    ensures Step(s, e).state.cpu.overrun > s.cpu.overrun <==> Borrows(s, e)
    ensures Borrows(s, e) && s.cpu.unalloc > 0 ==>
            && e.CpuReport? && e.id in s.reg
            && var c := Back(s.reg[e.id]);
               c.mismatches > 2 && e.usage.rxQuota / 1000 != c.quota / 1000 && e.usage.rxQuota - c.quota >= s.cpu.unalloc
  {
    hide Report, MissesAgent, ReportBorrows;
    match e
    case Admit(_, _, _, _, _, _) =>
    case CpuReport(id, u) =>
      BackIsSmall(s.reg, id);
      ReportBorrowsIff(s.cpu, s.fair, s.leak, Back(s.reg[id]), u);
      BorrowsWithPool(s.cpu, s.fair, Back(s.reg[id]), u);
    case IdleCheck(_, _, _) =>
    case DeletePod(_) =>
    case PodSpec(_, _) =>
    case _ => MemoryStepFrames(s, e);
  }

  lemma BorrowsWithPool(cpu: CpuCounters, fair: Word, c: Container, u: Usage)
    ensures ReportBorrows(cpu, fair, c, u) && cpu.unalloc > 0 ==>
            c.mismatches > 2 && u.rxQuota / 1000 != c.quota / 1000 && u.rxQuota - c.quota >= cpu.unalloc
  {
    hide Observed;
  }

  ghost predicate NeverBorrows(s: State, es: seq<Event>)
    decreases es
  {
    es == [] || (!Borrows(s, es[0]) && (Step(s, es[0]).Running? ==> NeverBorrows(Step(s, es[0]).state, es[1..])))
  }

  /** A run in which no step borrows never adds to the overrun; from the application spec there is none. */
  lemma {:induction false} OverrunComesFromBorrowing(s: State, es: seq<Event>)
    requires SmallRun(s, es) && OneSided(s) && Run(s, es).Running? && NeverBorrows(s, es)
    ensures Run(s, es).state.cpu.overrun <= s.cpu.overrun
    decreases es
  {
    hide Step, Borrows, Small, SmallEvent, OneSided;
    if es != [] {
      OverrunGrowsIff(s, es[0]);
      StepSurplus(s, es[0]);
      OverrunComesFromBorrowing(Step(s, es[0]).state, es[1..]);
    }
  }
}
