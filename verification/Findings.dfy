/** Concrete runs from an application spec that leave the laws of the other modules: each one breaks exactly the
    condition under which the law is proved. */
module Findings {
  import opened Words
  import opened Sums
  import opened Windows
  import opened Containers
  import opened Agents
  import opened CpuControl
  import opened MemControl
  import opened Controller
  import opened CpuLedger
  import opened Shares
  import opened ReportOutcomes
  import opened CpuOutcomes

  const A: ContainerId := ContainerId(1, 1)
  const B: ContainerId := ContainerId(2, 1)
  const C: ContainerId := ContainerId(3, 1)

  /** A container admitted below 30 ms that goes idle while the pool is empty is raised to 30 ms with runtime the
      pool does not have: the unallocated counter wraps to almost 2^64. */
  lemma IdleSweepUnderflows()
    ensures var es := [Admit(A, 7, 10_000_000, 0, 0, true), IdleCheck(A, 3_000_000, true)];
            var t := Run(AppSpec(100, 0), es);
            t.Running? && t.state.cpu.unalloc == TWO64 - 20_000_000 && t.state.cpu.alloc == 30_000_000
  {
    var s0 := AppSpec(100, 0);
    var e1, e2 := Admit(A, 7, 10_000_000, 0, 0, true), IdleCheck(A, 3_000_000, true);
    var s1 := Step(s0, e1).state;
    assert s1.cpu.unalloc == 0 && Back(s1.reg[A]).quota == 10_000_000;
    var s2 := Step(s1, e2).state;
    assert [e1, e2][1..] == [e2] && [e2][1..] == [];
    assert Run(s2, []) == Running(s2);
    assert Run(s1, [e2]) == Run(s2, []);
  }

  function Awake(quota: Word, throttled: nat): Usage {
    Usage(quota, 0, throttled, 1, 0, true)
  }

  lemma RepayVerdict(cpu: CpuCounters, sampled: Container, u: Usage)
    requires cpu == CpuCounters(30_000_000, 0, 10_000_000, 60_000_000, 70_000_000) && u == Awake(30_000_000, 0)
    ensures VerdictOn(cpu, 3_333_333, sampled, u, false) == Repay(TWO64 - 30_000_000)
  {
    ShareExceedsIff(3_333_333, 30_000_000, 30_000_000);
    OverrunShareIs(3_333_333, 30_000_000, 30_000_000);
    hide OverrunShare;
  }

  /** A report that matches the tracked quota, on a ledger without a leak, settles its verdict. */
  lemma MatchingReport(cpu: CpuCounters, fair: Word, c: Container, u: Usage, v: Verdict)
    requires SmallCpu(cpu) && Surplus(cpu) >= 0 && u.rxQuota == c.quota < TWO63 && Accepts(c, u) && !v.Keep?
    requires VerdictOn(cpu, fair, Observed(c, u), u, IsIdle(c, u.now)) == v
    ensures Report(cpu, fair, 0, c, u).0 == SettleCounters(cpu, u.rxQuota, v)
    ensures Report(cpu, fair, 0, c, u).2.quota == v.quota
  {
    hide Report, VerdictOn, Observed, SettleCounters;
    ReportIsSettlement(cpu, fair, 0, c, u);
  }

  lemma RepayReport(cpu: CpuCounters, leak: int, c: Container, u: Usage)
    requires cpu == CpuCounters(30_000_000, 0, 10_000_000, 60_000_000, 70_000_000) && leak == 0
    requires c == NewContainer(9, 30_000_000, 0, 0, true) && u == Awake(30_000_000, 0)
    ensures Report(cpu, 3_333_333, leak, c, u).2.quota == TWO64 - 30_000_000
  {
    RepayVerdict(cpu, Observed(c, u), u);
    hide Report, VerdictOn, Observed;
    MatchingReport(cpu, 3_333_333, c, u, Repay(TWO64 - 30_000_000));
  }

  function AdmitWith(id: ContainerId, fd: int, req: Word): Event {
    Admit(id, fd, req, 0, 0, true)
  }

  function AdmitTenMs(id: ContainerId, fd: int): Event {
    AdmitWith(id, fd, 10_000_000)
  }

  lemma FreshAdmitRuns(s: State, id: ContainerId, fd: int, req: Word)
    requires id !in s.agents
    ensures Step(s, AdmitWith(id, fd, req)) == Running(AdmitStep(s, id, fd, req, 0, 0, true))
  {
    hide AdmitStep;
  }

  /** Admitting an id that is not registered yet. */
  lemma FirstUnderId(s: State, id: ContainerId, fd: int, req: Word)
    requires id !in s.reg && id !in s.agents
    ensures var s' := Step(s, AdmitWith(id, fd, req)).state;
            var (cpu, quota) := Admission(s.cpu, req);
            && Step(s, AdmitWith(id, fd, req)).Running?
            && s'.agents == s.agents[id := Linked] && s'.cpu == cpu && s'.leak == s.leak && s'.fair == cpu.total / (|s.reg| + 1)
            && s'.reg == s.reg[id := [NewContainer(fd, quota, 0, 0, true)]]
            && |s'.reg| == |s.reg| + 1
  {
    FreshAdmitRuns(s, id, fd, req);
    hide Admission, NewContainer, Step;
    var s' := Step(s, AdmitWith(id, fd, req)).state;
    var c := NewContainer(fd, Admission(s.cpu, req).1, 0, 0, true);
    assert [] + [c] == [c];
    assert s'.reg.Keys == s.reg.Keys + {id};
    assert |s'.reg| == |s'.reg.Keys| == |s.reg.Keys| + 1;
  }

  lemma AdmissionKeepsRest(s: State, id: ContainerId, fd: int, req: Word)
    requires id !in s.agents
    ensures var s' := Step(s, AdmitWith(id, fd, req)).state;
            && Step(s, AdmitWith(id, fd, req)).Running?
            && s'.deployed == s.deployed && s'.dockers == s.dockers
            && s'.mem == s.mem && s'.pending == s.pending
  {
    hide Admission, NewContainer, Push, FairShare;
  }

  /** On a total of 10 ms the first container takes everything and the next two run on overrun. */
  lemma ThreeOnTenMs() returns (s: State)
    ensures Run(AppSpec(100, 0), [AdmitTenMs(A, 7), AdmitTenMs(B, 8), AdmitTenMs(C, 9)]) == Running(s)
    ensures s.cpu == CpuCounters(30_000_000, 0, 10_000_000, 60_000_000, 70_000_000)
    ensures s.fair == 3_333_333 && s.leak == 0 && HasAgent(s.agents, C)
    ensures C in s.reg && s.reg[C] == [NewContainer(9, 30_000_000, 0, 0, true)]
  {
    hide Step, NewContainer;
    var s0 := AppSpec(100, 0);
    FirstUnderId(s0, A, 7, 10_000_000);
    var s1 := Step(s0, AdmitTenMs(A, 7)).state;
    FirstUnderId(s1, B, 8, 10_000_000);
    var s2 := Step(s1, AdmitTenMs(B, 8)).state;
    FirstUnderId(s2, C, 9, 10_000_000);
    s := Step(s2, AdmitTenMs(C, 9)).state;
    RunThree(s0, AdmitTenMs(A, 7), AdmitTenMs(B, 8), AdmitTenMs(C, 9));
  }

  lemma RunThree(s: State, e: Event, f: Event, g: Event)
    requires Step(s, e).Running? && Step(Step(s, e).state, f).Running?
    requires Step(Step(Step(s, e).state, f).state, g).Running?
    ensures Run(s, [e, f, g]) == Step(Step(Step(s, e).state, f).state, g)
  {
    hide Step;
    var s1 := Step(s, e).state;
    assert [e, f, g] == [e] + ([f] + [g]);
    RunOne(s, e);
    RunConcat(s, [e], [f] + [g]);
    RunOne(s1, f);
    RunConcat(s1, [f], [g]);
    RunOne(Step(s1, f).state, g);
  }

  /** With a fair share below one slice, the amount asked back can exceed the whole quota: three containers on a total
      of 10 ms, and the third one's first report sets its quota to almost 2^64. */
  lemma RepayUnderflows()
    ensures var es := [AdmitTenMs(A, 7), AdmitTenMs(B, 8), AdmitTenMs(C, 9)] + [CpuReport(C, Awake(30_000_000, 0))];
            var t := Run(AppSpec(100, 0), es);
            t.Running? && C in t.state.reg && Back(t.state.reg[C]).quota == TWO64 - 30_000_000
  {
    var s := ThreeOnTenMs();
    var e := CpuReport(C, Awake(30_000_000, 0));
    RepayReport(s.cpu, s.leak, Back(s.reg[C]), e.usage);
    hide Report, Run, AppSpec, Awake, Step, ReportStep;
    CountersReported(s, C, e.usage);
    RunConcat(AppSpec(100, 0), [AdmitTenMs(A, 7), AdmitTenMs(B, 8), AdmitTenMs(C, 9)], [e]);
    RunOne(s, e);
  }

  /** One throttled period in the first sample of a window makes its mean 1. */
  lemma FirstThrottle(w: ValidWindow)
    requires w == NewWindow(WINDOW_SIZE)
    ensures Insert(w, 1.0).mean == 1.0
  {
    assert NewMean(w, 1.0) == 1.0;
  }

  lemma RaiseFromBelow(cpu: CpuCounters, sampled: Container, u: Usage)
    requires cpu == CpuCounters(30_000_000, 1_000_000, 100_000_000, 0, 99_000_000)
    requires u == Awake(48_000_000, 1) && sampled.th.mean == 1.0
    ensures VerdictOn(cpu, 50_000_000, sampled, u, false) == Grant(50_000_000)
  {
  }

  lemma RaiseSettles(cpu: CpuCounters)
    requires cpu == CpuCounters(30_000_000, 1_000_000, 100_000_000, 0, 99_000_000)
    ensures SettleCounters(cpu, 48_000_000, Grant(50_000_000)) == CpuCounters(30_000_000, 0, 100_000_000, 0, 101_000_000)
  {
  }

  ghost predicate NewAtFortyEightMs(c: Container) {
    c.inserted && c.quota == 48_000_000 && c.throttled == 0 && c.lastSeen == 0 && c.th == NewWindow(WINDOW_SIZE)
  }

  lemma NewIsNew(c: Container)
    requires c == NewContainer(7, 48_000_000, 0, 0, true)
    ensures NewAtFortyEightMs(c)
  {
  }

  lemma RaiseReport(cpu: CpuCounters, c: Container, u: Usage)
    requires cpu == CpuCounters(30_000_000, 1_000_000, 100_000_000, 0, 99_000_000)
    requires NewAtFortyEightMs(c) && u == Awake(48_000_000, 1)
    ensures Report(cpu, 50_000_000, 0, c, u).0 == CpuCounters(30_000_000, 0, 100_000_000, 0, 101_000_000)
  {
    hide Report, VerdictOn, Observed, SettleCounters, NewWindow;
    ThrottledSample(c, u);
    RaiseFromBelow(cpu, Observed(c, u), u);
    RaiseSettles(cpu);
    MatchingReport(cpu, 50_000_000, c, u, Grant(50_000_000));
  }

  lemma ThrottledSample(c: Container, u: Usage)
    requires NewAtFortyEightMs(c) && u == Awake(48_000_000, 1)
    ensures Observed(c, u).th.mean == 1.0
  {
    FirstThrottle(c.th);
    hide Insert, NewWindow;
    var c' := ContainerAfter(Touch(c, u), u.rxQuota);
    assert c'.th == c.th && c'.throttled == 0;
    assert ThrottleIncrease(c', 1) == 1;
    assert Observed(c, u).th == Insert(c.th, 1 as real);
  }

  /** The last small raise to fair share may overdraw the pool: afterwards more is allocated than the total although
      no overrun was ever recorded, so nothing asks the excess back. */
  lemma SmallRaiseOverdraws()
    ensures var es := [AdmitWith(A, 7, 48_000_000), AdmitWith(B, 8, 51_000_000)] + [CpuReport(A, Awake(48_000_000, 1))];
            var t := Run(AppSpec(1000, 0), es);
            && t.Running?
            && t.state.cpu.alloc == 101_000_000 > t.state.cpu.total == 100_000_000
            && t.state.cpu.unalloc == 0 && t.state.cpu.overrun == 0
  {
    var s := TwoOnHundredMs();
    var e := CpuReport(A, Awake(48_000_000, 1));
    hide Report, ReportStep, Run, AppSpec, Awake, NewContainer, Step, NewAtFortyEightMs;
    var c := NewContainer(7, 48_000_000, 0, 0, true);
    NewIsNew(c);
    assert Back(s.reg[A]) == c;
    RaiseReport(s.cpu, c, e.usage);
    CountersReported(s, A, e.usage);
    RunConcat(AppSpec(1000, 0), [AdmitWith(A, 7, 48_000_000), AdmitWith(B, 8, 51_000_000)], [e]);
    RunOne(s, e);
  }

  lemma CountersReported(s: State, id: ContainerId, u: Usage)
    requires id in s.reg && HasAgent(s.agents, id)
    ensures Step(s, CpuReport(id, u)) == Running(ReportStep(s, id, u))
    ensures ReportStep(s, id, u).cpu == Report(s.cpu, s.fair, s.leak, Back(s.reg[id]), u).0
    ensures id in ReportStep(s, id, u).reg
    ensures Back(ReportStep(s, id, u).reg[id]) == Report(s.cpu, s.fair, s.leak, Back(s.reg[id]), u).2
  {
    hide Report, AsksQuota;
  }

  /** On a total of 100 ms two containers leave 1 ms in the pool. */
  lemma TwoOnHundredMs() returns (s: State)
    ensures Run(AppSpec(1000, 0), [AdmitWith(A, 7, 48_000_000), AdmitWith(B, 8, 51_000_000)]) == Running(s)
    ensures s.cpu == CpuCounters(30_000_000, 1_000_000, 100_000_000, 0, 99_000_000)
    ensures s.fair == 50_000_000 && s.leak == 0 && HasAgent(s.agents, A)
    ensures A in s.reg && s.reg[A] == [NewContainer(7, 48_000_000, 0, 0, true)]
  {
    hide Step, NewContainer;
    var s0 := AppSpec(1000, 0);
    FirstUnderId(s0, A, 7, 48_000_000);
    var s1 := Step(s0, AdmitWith(A, 7, 48_000_000)).state;
    FirstUnderId(s1, B, 8, 51_000_000);
    s := Step(s1, AdmitWith(B, 8, 51_000_000)).state;
    RunTwo(s0, AdmitWith(A, 7, 48_000_000), AdmitWith(B, 8, 51_000_000));
  }

  // ---------- borrowing although the pool holds something ----------

  /** On a total of 100 ms two containers leave 5 ms in the pool. */
  lemma TwoLeaveFiveMs() returns (s: State)
    ensures Run(AppSpec(1000, 0), [AdmitWith(A, 7, 10_000_000), AdmitWith(B, 8, 85_000_000)]) == Running(s)
    ensures s.cpu == CpuCounters(30_000_000, 5_000_000, 100_000_000, 0, 95_000_000)
    ensures s.fair == 50_000_000 && s.leak == 0 && HasAgent(s.agents, A) && s.reg.Keys == {A, B}
    ensures s.reg[A] == [NewContainer(7, 10_000_000, 0, 0, true)] && s.reg[B] == [NewContainer(8, 85_000_000, 0, 0, true)]
  {
    hide Step, NewContainer;
    var s0 := AppSpec(1000, 0);
    FirstUnderId(s0, A, 7, 10_000_000);
    var s1 := Step(s0, AdmitWith(A, 7, 10_000_000)).state;
    FirstUnderId(s1, B, 8, 85_000_000);
    s := Step(s1, AdmitWith(B, 8, 85_000_000)).state;
    RunTwo(s0, AdmitWith(A, 7, 10_000_000), AdmitWith(B, 8, 85_000_000));
  }

  /** The container after `n` tolerated reports of 20 ms. */
  function Mismatched(n: nat): Container {
    NewContainer(7, 10_000_000, 0, 0, true).(seqNum := if n == 0 then 0 else 1, mismatches := n)
  }

  lemma ToleratedReport(s: State, n: nat)
    requires A in s.reg && s.reg[A] == [Mismatched(n)] && n < 3 && HasAgent(s.agents, A)
    ensures Step(s, CpuReport(A, Awake(20_000_000, 1))) == Running(s.(reg := s.reg[A := [Mismatched(n + 1)]]))
  {
    var c, u := Mismatched(n), Awake(20_000_000, 1);
    assert Report(s.cpu, s.fair, s.leak, c, u) == (s.cpu, s.leak, Mismatched(n + 1));
    hide Report, Mismatched;
    CountersReported(s, A, u);
    assert Update(s.reg, A, Mismatched(n + 1))[A] == [Mismatched(n + 1)];
  }

  lemma ThreeTolerated(s: State)
    requires A in s.reg && s.reg[A] == [Mismatched(0)] && HasAgent(s.agents, A)
    ensures var r := CpuReport(A, Awake(20_000_000, 1));
            Run(s, [r, r, r]) == Running(s.(reg := s.reg[A := [Mismatched(3)]]))
  {
    hide Step, Mismatched, Awake;
    var r := CpuReport(A, Awake(20_000_000, 1));
    ToleratedReport(s, 0);
    var s1 := s.(reg := s.reg[A := [Mismatched(1)]]);
    ToleratedReport(s1, 1);
    var s2 := s.(reg := s.reg[A := [Mismatched(2)]]);
    assert s1.reg[A := [Mismatched(2)]] == s2.reg;
    ToleratedReport(s2, 2);
    assert s2.reg[A := [Mismatched(3)]] == s.reg[A := [Mismatched(3)]];
    RunThree(s, r, r, r);
  }

  lemma ReconciledSample(c: Container, u: Usage)
    requires u == Awake(20_000_000, 1) && c == FlushStats(Mismatched(3)).(quota := 20_000_000, mismatches := 0)
    ensures Observed(c, u).th.mean == 1.0
  {
    assert Flush(NewWindow(WINDOW_SIZE)) == NewWindow(WINDOW_SIZE);
    FirstThrottle(c.th);
    hide Insert, NewWindow;
    var c' := ContainerAfter(Touch(c, u), u.rxQuota);
    assert c'.th == c.th && c'.throttled == 0;
    assert ThrottleIncrease(c', 1) == 1;
    assert Observed(c, u).th == Insert(c.th, 1 as real);
  }

  lemma FourthReportBorrows(s: State)
    requires s.cpu == CpuCounters(30_000_000, 5_000_000, 100_000_000, 0, 95_000_000) && s.fair == 50_000_000 && s.leak == 0
    requires s.reg.Keys == {A, B} && s.reg[A] == [Mismatched(3)] && s.reg[B] == [NewContainer(8, 85_000_000, 0, 0, true)]
    ensures ReportStep(s, A, Awake(20_000_000, 1)).cpu.overrun == 18_000_000
  {
    var u := Awake(20_000_000, 1);
    assert Small(s);
    ReconcileOutcome(s, A, u);
    var s1 := Reconciled(s, A, 20_000_000);
    assert s1.cpu == CpuCounters(30_000_000, 0, 100_000_000, 0, 105_000_000);
    assert Back(s1.reg[A]) == FlushStats(Mismatched(3)).(quota := 20_000_000, mismatches := 0);
    assert SmallQuotas(s1.reg);
    ReconciledSample(Back(s1.reg[A]), u);
    hide ReportStep, Observed, Reconciled;
    RaiseOutcome(s1, A, u);
    assert Gain(50_000_000, 30_000_000, 0, 20_000_000) == 18_000_000;
  }

  /** A step that starts with something in the pool can borrow all the same: the fourth mismatch adopts a quota that uses up
      the pool, and the raise that follows in the same step finds it empty. */
  lemma ReconciledRaiseBorrows()
    ensures var r := CpuReport(A, Awake(20_000_000, 1));
            var es := [AdmitWith(A, 7, 10_000_000), AdmitWith(B, 8, 85_000_000)] + [r, r, r];
            var t, t' := Run(AppSpec(1000, 0), es), Run(AppSpec(1000, 0), es + [r]);
            && t.Running? && t.state.cpu.unalloc == 5_000_000 && t.state.cpu.overrun == 0
            && t'.Running? && t'.state.cpu.overrun == 18_000_000
  {
    hide Step, Run, Awake, AppSpec, NewContainer;
    var r, admits := CpuReport(A, Awake(20_000_000, 1)), [AdmitWith(A, 7, 10_000_000), AdmitWith(B, 8, 85_000_000)];
    var s := TwoLeaveFiveMs();
    NotYetMismatched();
    ThreeTolerated(s);
    RunConcat(AppSpec(1000, 0), admits, [r, r, r]);
    var t := s.(reg := s.reg[A := [Mismatched(3)]]);
    FourthReportBorrows(t);
    CountersReported(t, A, Awake(20_000_000, 1));
    RunConcat(AppSpec(1000, 0), admits + [r, r, r], [r]);
    RunOne(t, r);
  }

  lemma NotYetMismatched()
    ensures Mismatched(0) == NewContainer(7, 10_000_000, 0, 0, true)
  {
  }

  // ---------- memory ----------

  /** A container is registered with a limit of zero before its limit is known. Once a pod spec has named it a sweep can
      read its usage, and then wraps and books about 2^52 pages for the pool. */
  lemma ReclaimWraps()
    ensures var es := [Admit(A, 7, 0, 0, 0, true), PodSpec("a", A), SweepReclaim(A, MemReading(4096, true))];
            var t := Run(AppSpec(0, 1), es);
            t.Running? && t.state.pending == 0x10_0000_0000_0000 - 12_801 && t.state.mem.limit == 256
  {
    var s0 := AppSpec(0, 1);
    var e1, e2, e3 := Admit(A, 7, 0, 0, 0, true), PodSpec("a", A), SweepReclaim(A, MemReading(4096, true));
    var s1 := Step(s0, e1).state;
    assert Back(s1.reg[A]).memLimit == 0 && HasAgent(s1.agents, A);
    var s2 := Step(s1, e2).state;
    RunThree(s0, e1, e2, e3);
  }

  /** Nothing can be reclaimed for the only container there is. */
  lemma NothingToReclaim(reg: Registry, env: Readings, fd: int)
    requires reg.Keys == {A} && Spared(reg[A], fd)
    ensures ReclaimedPages(reg, env, fd) == 0 && ReclaimOthers(reg, env, fd) == reg
  {
    SumMapZero(PagesFromOthers(reg, env, fd));
    hide SumMap;
  }

  lemma UnfitPayment(mem: MemCounters, reg: Registry, env: Readings)
    requires mem == MemCounters(256, 256, 0, MEM_SLICE) && reg.Keys == {A} && Spared(reg[A], 7)
    ensures PayForPod(mem, reg, env, 7, 257, true) == (MemCounters(256, 0, 257, MEM_SLICE), reg)
  {
    NothingToReclaim(reg, env, 7);
    hide ReclaimedPages, ReclaimOthers;
  }

  lemma UnfitPodLimit(s: State, c: Container, env: Readings)
    requires s.mem == MemCounters(256, 256, 0, MEM_SLICE) && s.reg == map[A := [c]] && c.fd == 7
    ensures var t := PodLimitStep(s, A, 0, 257 * PAGE, env, true);
            && t.mem == MemCounters(256, 0, 257, MEM_SLICE)
            && t.reg == map[A := [c.(memLimit := 257)]]
  {
    hide PayForPod, PodLimitAgents, SetLimit;
    assert s.reg[A] == [c] && s.reg.Keys == {A};
    UnfitPayment(s.mem, s.reg, env);
    LimitOfOnly(c);
    assert 257 * PAGE / PAGE == 257;
  }

  lemma LimitOfOnly(c: Container)
    ensures SetLimit(map[A := [c]], A, 0, 257) == map[A := [c.(memLimit := 257)]]
  {
    assert SetLimit(map[A := [c]], A, 0, 257)[A] == [c.(memLimit := 257)];
  }

  lemma NothingAsked(cpu: CpuCounters)
    ensures Admission(cpu, 0).1 == 0
  {
  }

  lemma SpecThenLimit(s: State, e: Event, f: Event)
    requires e.PodSpec? && f.PodLimit? && f.id in s.reg && f.k < |s.reg[f.id]|
    requires s.reg.Keys == {A} && HasAgent(s.agents, A) && f.id == A
    ensures Step(s, e).Running?
    ensures var s' := Step(s, e).state;
            && s'.mem == s.mem && s'.reg == s.reg
            && Step(s', f) == Running(PodLimitStep(s', A, f.k, f.bytes, Seen(s.agents, s.reg.Keys, f.env), f.rpcOk))
  {
    hide PodLimitStep, PodReclaims, PodShrinks, Seen;
    var s' := Step(s, e).state;
    assert forall id :: id in Others(s'.reg, s'.reg[A][f.k].fd) ==> id == A;
  }

  /** A pod that does not fit breaks the page ledger: on a limit of 256 pages a pod of 257 pages whose agent accepts to be
      shrunk is charged in full, and afterwards more is allocated, and to a single container, than the application owns. */
  lemma UnfitPodOvercommits()
    ensures var es := [AdmitWith(A, 7, 0), PodSpec("a", A), PodLimit(A, 0, 257 * PAGE, map[], true)];
            var t := Run(AppSpec(0, 1), es);
            && t.Running?
            && t.state.mem.alloc == 257 > t.state.mem.limit == 256 && t.state.mem.unalloc == 0
            && A in t.state.reg && Back(t.state.reg[A]).memLimit == 257
  {
    var s0 := AppSpec(0, 1);
    var e1, e2, e3 := AdmitWith(A, 7, 0), PodSpec("a", A), PodLimit(A, 0, 257 * PAGE, map[], true);
    var c := NewContainer(7, 0, 0, 0, true);
    assert c.fd == 7;
    hide NewContainer, Step, PodLimitStep, PayForPod, Admission;
    FirstUnderId(s0, A, 7, 0);
    AdmissionKeepsRest(s0, A, 7, 0);
    var s1 := Step(s0, e1).state;
    var s2 := Step(s1, e2).state;
    SpecThenLimit(s1, e2, e3);
    assert Admission(s0.cpu, 0).1 == 0 by { NothingAsked(s0.cpu); }
    assert s1.reg == map[A := [c]];
    assert s2.mem == MemCounters(256, 256, 0, MEM_SLICE);
    UnfitPodLimit(s2, c, Seen(s1.agents, s1.reg.Keys, map[]));
    hide AppSpec;
    RunThree(s0, e1, e2, e3);
  }

  // ---------- two containers under one id ----------

  /** The specs and admissions of two containers under one id, and the deletion of the first one. */
  function TwoThenDelete(): seq<Event> {
    [PodSpec("a", A), AdmitTenMs(A, 7), PodSpec("b", A)] + [AdmitTenMs(A, 8), DeletePod("a")]
  }

  lemma RunTwo(s: State, e: Event, f: Event)
    requires Step(s, e).Running? && Step(Step(s, e).state, f).Running?
    ensures Run(s, [e, f]) == Step(Step(s, e).state, f)
  {
    hide Step;
    assert [e, f] == [e] + [f];
    RunOne(s, e);
    RunConcat(s, [e], [f]);
    RunOne(Step(s, e).state, f);
  }

  /** The first container and both pod specs. */
  lemma OneWithTwoSpecs() returns (s: State)
    ensures Run(AppSpec(1000, 0), [PodSpec("a", A), AdmitTenMs(A, 7), PodSpec("b", A)]) == Running(s)
    ensures s.reg == map[A := [NewContainer(7, 10_000_000, 0, 0, true)]] && s.agents == map[A := Linked] && A in s.deployed
    ensures s.dockers == map["a" := A, "b" := A]
    ensures s.cpu == CpuCounters(30_000_000, 90_000_000, 100_000_000, 0, 10_000_000)
  {
    hide NewContainer, AdmitStep;
    var s0 := AppSpec(1000, 0);
    var s1 := Step(s0, PodSpec("a", A)).state;
    FirstUnderId(s1, A, 7, 10_000_000);
    AdmissionKeepsRest(s1, A, 7, 10_000_000);
    var s2 := Step(s1, AdmitTenMs(A, 7)).state;
    s := Step(s2, PodSpec("b", A)).state;
    assert s.dockers == map["a" := A, "b" := A];
    RunThree(s0, PodSpec("a", A), AdmitTenMs(A, 7), PodSpec("b", A));
  }

  lemma ReleaseTenMs(cpu: CpuCounters)
    requires 10_000_000 <= cpu.alloc < TWO63 && cpu.unalloc < TWO63
    ensures Release(cpu, 10_000_000) == cpu.(alloc := cpu.alloc - 10_000_000, unalloc := cpu.unalloc + 10_000_000)
  {
  }

  lemma SecondThenDelete(s: State) returns (t: State)
    requires s.reg == map[A := [NewContainer(7, 10_000_000, 0, 0, true)]] && s.agents == map[A := Linked] && A in s.deployed
    requires s.dockers == map["a" := A, "b" := A]
    requires s.cpu == CpuCounters(30_000_000, 90_000_000, 100_000_000, 0, 10_000_000)
    ensures Run(s, [AdmitTenMs(A, 8), DeletePod("a")]) == Running(t)
    ensures t.reg == map[A := [NewContainer(8, 10_000_000, 0, 0, true)]] && t.agents == map[] && A !in t.deployed
    ensures t.dockers == map["b" := A]
    ensures t.cpu == CpuCounters(30_000_000, 90_000_000, 100_000_000, 0, 10_000_000)
  {
    QuotaOfNew(7);
    hide NewContainer, FairShare, Release, Credit;
    var first, second := NewContainer(7, 10_000_000, 0, 0, true), NewContainer(8, 10_000_000, 0, 0, true);
    var s' := Step(s, AdmitTenMs(A, 8)).state;
    assert s'.reg[A] == [first] + [second];
    assert s'.cpu == CpuCounters(30_000_000, 80_000_000, 100_000_000, 0, 20_000_000);
    assert Release(s'.cpu, 10_000_000) == s.cpu by { ReleaseTenMs(s'.cpu); }
    t := Step(s', DeletePod("a")).state;
    assert t.reg[A] == [second];
    assert t.dockers == map["b" := A];
    hide AdmitStep, DeleteStep;
    RunTwo(s, AdmitTenMs(A, 8), DeletePod("a"));
  }

  lemma AfterTwoThenDelete() returns (t: State)
    ensures Run(AppSpec(1000, 0), TwoThenDelete()) == Running(t)
    ensures t.reg == map[A := [NewContainer(8, 10_000_000, 0, 0, true)]] && t.agents == map[] && A !in t.deployed
    ensures t.dockers == map["b" := A]
    ensures t.cpu == CpuCounters(30_000_000, 90_000_000, 100_000_000, 0, 10_000_000)
  {
    hide NewContainer, Run, AppSpec;
    var s := OneWithTwoSpecs();
    t := SecondThenDelete(s);
    RunConcat(AppSpec(1000, 0), [PodSpec("a", A), AdmitTenMs(A, 7), PodSpec("b", A)], [AdmitTenMs(A, 8), DeletePod("a")]);
  }

  lemma QuotaOfNew(fd: int)
    ensures var c := NewContainer(fd, 10_000_000, 0, 0, true); c.quota == 10_000_000 && c.lastSeen == 0 && c.inserted
  {
  }

  /** Deleting one of two containers under an id drops the id's agent entry and its whole queue of docker ids. Deleting
      the other one then replies failure, although it removes that container and returns all its runtime. */
  lemma SecondDeleteRepliesFailure()
    ensures var t := Run(AppSpec(1000, 0), TwoThenDelete());
            && t.Running? && Resolves(t.state, "b") && t.state.dockers["b"] in t.state.reg
            && !DeleteSucceeds(t.state, "b")
            && var t' := Step(t.state, DeletePod("b"));
               t'.Running? && t'.state.reg == map[] && t'.state.cpu.unalloc == t'.state.cpu.total == 100_000_000
  {
    hide Run, TwoThenDelete, NewContainer;
    var t := AfterTwoThenDelete();
    QuotaOfNew(8);
    var t' := Step(t, DeletePod("b")).state;
    assert t'.reg.Keys == {};
  }

  /** The container that is left has no agent entry, and when the idle sweep asks for a resize of it the process ends. */
  lemma DeleteOrphansSibling()
    ensures var t := Run(AppSpec(1000, 0), TwoThenDelete());
            && t.Running? && A in t.state.reg && A !in t.state.agents
            && Run(AppSpec(1000, 0), TwoThenDelete() + [IdleCheck(A, 3_000_000, true)]).Exited?
  {
    hide Run, TwoThenDelete, NewContainer;
    var t := AfterTwoThenDelete();
    QuotaOfNew(8);
    RunConcat(AppSpec(1000, 0), TwoThenDelete(), [IdleCheck(A, 3_000_000, true)]);
    RunOne(t, IdleCheck(A, 3_000_000, true));
  }

  // ---------- lookups that find no agent ----------

  /** A container admitted without an agent whose usage is then read once. */
  function ReadWithoutAgent(): seq<Event> {
    [Admit(A, 7, 0, 0, 0, false), PodSpec("a", A), SweepReclaim(A, MemReading(4096, true))]
  }

  lemma AfterReadWithoutAgent() returns (t: State)
    ensures Run(AppSpec(1000, 0), ReadWithoutAgent()) == Running(t)
    ensures t.reg.Keys == {A} && |t.reg[A]| == 1 && t.agents == map[A := Empty]
    ensures A in t.deployed && t.dockers == map["a" := A]
    ensures t.cpu.unalloc == 100_000_000
  {
    var s0 := AppSpec(1000, 0);
    var e1, e2, e3 := Admit(A, 7, 0, 0, 0, false), PodSpec("a", A), SweepReclaim(A, MemReading(4096, true));
    var s1 := Step(s0, e1).state;
    assert Back(s1.reg[A]).memLimit == 0;
    var s2 := Step(s1, e2).state;
    assert !AsksShrink(0, 0);
    t := Step(s2, e3).state;
    RunThree(s0, e1, e2, e3);
  }

  /** The reading leaves an empty agent entry behind, so a deletion replies success although no agent was ever found. */
  lemma DeleteSucceedsWithoutAgent()
    ensures var t := Run(AppSpec(1000, 0), ReadWithoutAgent());
            t.Running? && Resolves(t.state, "a") && !HasAgent(t.state.agents, A) && DeleteSucceeds(t.state, "a")
  {
    hide Run, ReadWithoutAgent;
    var t := AfterReadWithoutAgent();
  }

  /** The empty entry also keeps a later admission from recording the agent it found: the next resize of the new container
      finds no agent and ends the process. */
  lemma ReadingBlocksAgent()
    ensures var es := ReadWithoutAgent() + [AdmitTenMs(A, 8)];
            && Run(AppSpec(1000, 0), es).Running? && !HasAgent(Run(AppSpec(1000, 0), es).state.agents, A)
            && Run(AppSpec(1000, 0), es + [IdleCheck(A, 3_000_000, true)]).Exited?
  {
    hide Run, ReadWithoutAgent;
    var s := AfterReadWithoutAgent();
    var t := Step(s, AdmitTenMs(A, 8)).state;
    RunConcat(AppSpec(1000, 0), ReadWithoutAgent(), [AdmitTenMs(A, 8)]);
    RunOne(s, AdmitTenMs(A, 8));
    assert Back(t.reg[A]) == NewContainer(8, 10_000_000, 0, 0, true);
    RunConcat(AppSpec(1000, 0), ReadWithoutAgent() + [AdmitTenMs(A, 8)], [IdleCheck(A, 3_000_000, true)]);
    RunOne(t, IdleCheck(A, 3_000_000, true));
  }
}
