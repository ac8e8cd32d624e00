/** Where the controller is heading: containers above their fair share pay back the overrun until the
    allocation fits the total again, and throttled containers below it are raised to it. */
module Convergence {
  import opened Words
  import opened Sums
  import opened Containers
  import opened Agents
  import opened CpuControl
  import opened MemControl
  import opened Controller
  import opened CpuLedger
  import opened Shares
  import opened ReportOutcomes

  // ---------- the fair share is always current ----------

  ghost predicate Refreshed(s: State) {
    s.reg == map[] || s.fair == FairShare(s.cpu.total, s.reg)
  }

  lemma ReportKeepsTotal(cpu: CpuCounters, fair: Word, leak: int, c: Container, u: Usage)
    ensures var cpu' := Report(cpu, fair, leak, c, u).0; cpu'.total == cpu.total && cpu'.slice == cpu.slice
  {
    hide VerdictOn, Observed, Mismatch;
    var cpu1 := RepairLeak(CountersAfter(cpu, c, u.rxQuota), leak).0;
    assert cpu1.total == cpu.total && cpu1.slice == cpu.slice;
    hide RepairLeak, CountersAfter;
  }

  lemma UpdateKeepsCount(reg: Registry, id: ContainerId, c: Container)
    requires id in reg
    ensures |Update(reg, id, c)| == |reg|
  {
    assert Update(reg, id, c).Keys == reg.Keys;
  }

  lemma StepRefreshed(s: State, e: Event)
    requires Refreshed(s) && Step(s, e).Running?
    ensures Refreshed(Step(s, e).state) && Step(s, e).state.cpu.total == s.cpu.total
  {
    hide Report, MissesAgent;
    match e
    case Admit(_, _, _, _, _, _) =>
    case CpuReport(id, u) =>
      ReportKeepsTotal(s.cpu, s.fair, s.leak, Back(s.reg[id]), u);
      UpdateKeepsCount(s.reg, id, Report(s.cpu, s.fair, s.leak, Back(s.reg[id]), u).2);
    case IdleCheck(id, _, _) =>
      if id in s.reg {
        UpdateKeepsCount(s.reg, id, IdleReset(s.cpu, Back(s.reg[id])).1);
      }
    case PodSpec(_, _) =>
    case DeletePod(_) =>
    case _ =>
      MemoryStepFrames(s, e);
      var s' := Step(s, e).state;
      assert |s'.reg.Keys| == |s.reg.Keys|;
  }

  lemma StepKeepsSlice(s: State, e: Event)
    requires Step(s, e).Running?
    ensures Step(s, e).state.cpu.slice == s.cpu.slice
  {
    hide Report, MissesAgent, Push, Pop, Update;
    match e
    case CpuReport(id, u) => ReportKeepsTotal(s.cpu, s.fair, s.leak, Back(s.reg[id]), u);
    case Admit(_, _, _, _, _, _) =>
    case IdleCheck(_, _, _) =>
    case PodSpec(_, _) =>
    case DeletePod(_) =>
    case _ => MemoryStepFrames(s, e);
  }

  lemma {:induction false} RunRefreshed(s: State, es: seq<Event>)
    requires Refreshed(s) && Run(s, es).Running?
    ensures Refreshed(Run(s, es).state) && Run(s, es).state.cpu.total == s.cpu.total
    decreases es
  {
    hide Step;
    if es != [] {
      StepRefreshed(s, es[0]);
      RunRefreshed(Step(s, es[0]).state, es[1..]);
    }
  }

  // ---------- pigeonhole ----------

  ghost predicate OnePerId(reg: Registry) {
    forall id :: id in reg ==> |reg[id]| == 1
  }

  /** Quotas that sum above the total cannot all be within the fair share. */
  lemma SomeoneAboveFair(s: State) returns (id: ContainerId)
    requires Refreshed(s) && OnePerId(s.reg) && TotalQuota(s) > s.cpu.total
    ensures id in s.reg && Back(s.reg[id]).quota > s.fair
  {
    if forall k :: k in s.reg ==> Back(s.reg[k]).quota <= s.fair {
      var w := Weights(s.reg, QuotaOf);
      forall k | k in w ensures w[k] <= s.fair {
        assert SumSeq(s.reg[k], QuotaOf) == QuotaOf(s.reg[k][0]) + SumSeq(s.reg[k][1..], QuotaOf);
      }
      SumMapAtMost(w, s.fair);
      assert w.Keys == s.reg.Keys;
      FairSharesFit(s.cpu.total, |w.Keys|);
    }
    id :| id in s.reg && Back(s.reg[id]).quota > s.fair;
  }

  lemma FairSharesFit(total: nat, n: nat)
    ensures n > 0 ==> n * (total / n) <= total
  {
  }

  // ---------- paying back the overrun ----------

  /** There is an agent to resize the newest container under an id, and the container's handler gets to ask it. */
  ghost predicate Attended(s: State, id: ContainerId) {
    id in s.reg && Back(s.reg[id]).inserted && HasAgent(s.agents, id)
  }

  /** A report from a container that is awake, carries its tracked quota and whose agent is there and accepts. */
  ghost predicate Pressing(s: State, id: ContainerId, u: Usage) {
    Attended(s, id) && u.rxQuota == Back(s.reg[id]).quota && !IsIdle(Back(s.reg[id]), u.now) && u.rpcOk
  }

  ghost predicate AllAttended(s: State) {
    forall id :: id in s.reg ==> Attended(s, id)
  }

  lemma ReportKeepsAttended(s: State, id: ContainerId, u: Usage)
    requires AllAttended(s) && id in s.reg
    ensures AllAttended(ReportStep(s, id, u))
  {
    assert Attended(s, id);
    hide VerdictOn, RepairLeak, CountersAfter, SettleCounters, Mismatch;
    assert Back(ReportStep(s, id, u).reg[id]).inserted;
    hide Report;
    forall j | j in ReportStep(s, id, u).reg ensures Attended(ReportStep(s, id, u), j) {
      assert Attended(s, j);
    }
  }

  /** With its agent there, a report never ends the process. */
  lemma AttendedReportRuns(s: State, id: ContainerId, u: Usage)
    requires id in s.reg && HasAgent(s.agents, id)
    ensures Step(s, CpuReport(id, u)) == Running(ReportStep(s, id, u))
  {
    hide AsksQuota, ReportStep;
  }

  ghost predicate OverFair(s: State, id: ContainerId) {
    id in s.reg && s.cpu.overrun > 0 && Back(s.reg[id]).quota > s.fair
  }

  /** The state after a container gave up `paid` against the overrun. */
  ghost predicate PaidBack(s: State, s': State, id: ContainerId, paid: Word)
    requires id in s.reg
  {
    && id in s'.reg
    && s'.fair == s.fair && s'.leak <= 0
    && paid <= s.cpu.overrun && paid <= s.cpu.alloc
    && s'.cpu == s.cpu.(overrun := s.cpu.overrun - paid, alloc := s.cpu.alloc - paid)
    && Back(s'.reg[id]).quota == Back(s.reg[id]).quota - paid
    && s'.reg == Update(s.reg, id, Back(s'.reg[id]))
  }

  ghost function Payment(cpu: CpuCounters, fair: Word, rx: Word): Word
    requires fair < rx
  {
    MinWord(cpu.overrun, OverrunShare(fair, cpu.slice, rx))
  }

  lemma PressVerdict(cpu: CpuCounters, fair: Word, sampled: Container, u: Usage)
    requires 2 <= cpu.slice <= fair < u.rxQuota && cpu.overrun > 0
    ensures 1 <= Payment(cpu, fair, u.rxQuota) <= u.rxQuota - fair
    ensures VerdictOn(cpu, fair, sampled, u, false) == Repay(u.rxQuota - Payment(cpu, fair, u.rxQuota))
  {
    OverrunShareBounds(fair, cpu.slice, u.rxQuota);
  }

  lemma PressReport(cpu: CpuCounters, fair: Word, leak: int, c: Container, u: Usage)
    requires SmallCpu(cpu) && Surplus(cpu) >= 0 && leak <= 0
    requires 2 <= cpu.slice <= fair < u.rxQuota == c.quota <= cpu.alloc && cpu.overrun > 0
    requires Accepts(c, u) && !IsIdle(c, u.now)
    ensures var paid := Payment(cpu, fair, u.rxQuota);
            var (cpu', leak', c') := Report(cpu, fair, leak, c, u);
            && 1 <= paid <= u.rxQuota - fair
            && cpu' == cpu.(overrun := cpu.overrun - paid, alloc := cpu.alloc - paid)
            && leak' <= 0 && c'.quota == c.quota - paid
  {
    PressVerdict(cpu, fair, Observed(c, u), u);
    hide Report, VerdictOn, Observed, Payment;
    ReportIsSettlement(cpu, fair, leak, c, u);
  }

  /** Any pressing report above the fair share pays back: the quota falls but not below the fair share, overrun and
      allocation fall by the same amount, and the step ends at the fair share, at zero overrun, or half a slice down. */
  lemma PressPaysBack(s: State, id: ContainerId, u: Usage) returns (paid: Word)
    requires Small(s) && OneSided(s) && 2 <= s.cpu.slice <= s.fair
    requires Pressing(s, id, u) && OverFair(s, id) && Back(s.reg[id]).quota <= s.cpu.alloc
    ensures PaidBack(s, ReportStep(s, id, u), id, paid)
    ensures 1 <= paid <= Back(s.reg[id]).quota - s.fair
    ensures paid == Back(s.reg[id]).quota - s.fair || paid >= s.cpu.slice / 2 || paid == s.cpu.overrun
  {
    OverrunShareBounds(s.fair, s.cpu.slice, u.rxQuota);
    PressReport(s.cpu, s.fair, s.leak, Back(s.reg[id]), u);
    paid := Payment(s.cpu, s.fair, u.rxQuota);
  }

  lemma PaidBackKeeps(s: State, s': State, id: ContainerId, paid: Word)
    requires Small(s) && OneSided(s) && id in s.reg && PaidBack(s, s', id, paid)
    ensures Small(s') && OneSided(s') && Surplus(s'.cpu) == Surplus(s.cpu)
    ensures TotalQuota(s') == TotalQuota(s) - paid
    ensures OnePerId(s.reg) ==> OnePerId(s'.reg)
    ensures Refreshed(s) ==> Refreshed(s')
  {
    hide SumMap, SumSeq;
    TotalSetEntry(s.reg, id, |s.reg[id]| - 1, Back(s'.reg[id]), QuotaOf);
    BackIsSmall(s.reg, id);
    UpdateKeepsCount(s.reg, id, Back(s'.reg[id]));
  }

  // ---------- one container converges ----------

  /** The event goes on elsewhere: it changes neither the fair share nor the quota of the newest container under `id`. */
  ghost predicate Elsewhere(s: State, e: Event, id: ContainerId) {
    && Step(s, e).Running? && id in s.reg && id in Step(s, e).state.reg
    && Step(s, e).state.fair == s.fair && Back(Step(s, e).state.reg[id]).quota == Back(s.reg[id]).quota
  }

  /** Reports and idle checks of other ids, pod specs and everything about memory go on elsewhere. */
  lemma OthersGoElsewhere(s: State, e: Event, id: ContainerId)
    requires Step(s, e).Running? && id in s.reg
    requires ((e.CpuReport? || e.IdleCheck?) && e.id != id) || e.PodSpec? || IsMemoryEvent(e)
    ensures Elsewhere(s, e, id)
  {
    hide Report, MissesAgent;
    if IsMemoryEvent(e) {
      MemoryStepFrames(s, e);
      assert QueueFramed(s.reg[id], Step(s, e).state.reg[id]);
      hide Effect;
    }
  }

  ghost predicate IsPress(s: State, e: Event, id: ContainerId) {
    e.CpuReport? && e.id == id && Pressing(s, id, e.usage)
  }

  /** A run in which the container only sends pressing reports, with anything going on elsewhere in between. */
  ghost predicate PressedRun(s: State, es: seq<Event>, id: ContainerId)
    decreases es
  {
    es == [] || (
      && (IsPress(s, es[0], id) || Elsewhere(s, es[0], id))
      && (Step(s, es[0]).Running? ==> PressedRun(Step(s, es[0]).state, es[1..], id)))
  }

  ghost function Presses(s: State, es: seq<Event>, id: ContainerId): nat
    decreases es
  {
    if es == [] || !Step(s, es[0]).Running? then 0
    else (if IsPress(s, es[0], id) then 1 else 0) + Presses(Step(s, es[0]).state, es[1..], id)
  }

  ghost predicate Settled(s: State, id: ContainerId) {
    id in s.reg && (Back(s.reg[id]).quota == s.fair || s.cpu.overrun == 0)
  }

  /** What the argument needs of a state in which the container may still have to pay. */
  ghost predicate Converging(s: State, id: ContainerId) {
    && Small(s) && OneSided(s) && s.cpu.alloc == TotalQuota(s) && 2 <= s.cpu.slice <= s.fair
    && id in s.reg && s.fair <= Back(s.reg[id]).quota
  }

  ghost function StepsLeft(s: State, id: ContainerId): nat
    requires Converging(s, id)
  {
    (Back(s.reg[id]).quota - s.fair) / (s.cpu.slice / 2)
  }

  lemma PressConverges(s: State, s': State, id: ContainerId, u: Usage)
    requires Converging(s, id) && Pressing(s, id, u) && !Settled(s, id) && s' == ReportStep(s, id, u)
    ensures Converging(s', id)
    ensures Settled(s', id) || StepsLeft(s', id) < StepsLeft(s, id)
  {
    hide Report, SumMap, SumSeq;
    TotalSetEntry(s.reg, id, |s.reg[id]| - 1, Back(s.reg[id]), QuotaOf);
    var paid := PressPaysBack(s, id, u);
    PaidBackKeeps(s, s', id, paid);
    hide ReportStep, Pressing, Small;
    var excess := Back(s.reg[id]).quota - s.fair;
    if !Settled(s', id) {
      DivDown(excess, excess - paid, s.cpu.slice / 2);
    }
  }

  lemma ElsewhereConverges(s: State, e: Event, id: ContainerId)
    requires Converging(s, id) && Elsewhere(s, e, id)
    requires SmallEvent(s, e) && ExactEvent(s, e) && Small(Step(s, e).state)
    ensures Converging(Step(s, e).state, id) && StepsLeft(Step(s, e).state, id) == StepsLeft(s, id)
  {
    hide Step, Small, OneSided, SmallEvent, ExactEvent, TotalQuota;
    StepExact(s, e);
    StepSurplus(s, e);
    StepKeepsSlice(s, e);
  }

  lemma RunNone(s: State, es: seq<Event>)
    ensures Run(s, es[..0]) == Running(s)
  {
  }

  lemma RunMore(s: State, es: seq<Event>, j: nat)
    requires es != [] && j < |es| && Step(s, es[0]).Running?
    ensures Run(s, es[..j + 1]) == Run(Step(s, es[0]).state, es[1..][..j])
  {
    hide Step;
    assert es[..j + 1][1..] == es[1..][..j];
  }

  /** In every exact run in which a container above its fair share only sends pressing reports, whatever goes on elsewhere
      in between, enough of these reports bring it down to exactly its fair share or find the overrun used up: one more
      than its excess divided by half a slice. */
  lemma {:induction false} OverrunReclaimConverges(s: State, es: seq<Event>, id: ContainerId) returns (k: nat)
    requires SmallRun(s, es) && ExactRun(s, es) && Run(s, es).Running? && PressedRun(s, es, id)
    requires Converging(s, id) && Presses(s, es, id) > StepsLeft(s, id)
    ensures k <= |es| && Run(s, es[..k]).Running? && Settled(Run(s, es[..k]).state, id)
    decreases es
  {
    hide Step, Converging, StepsLeft, Settled, Pressing, Elsewhere, Small, SmallEvent, ExactEvent;
    if Settled(s, id) {
      k := 0;
      RunNone(s, es);
    } else {
      var s' := Step(s, es[0]).state;
      if IsPress(s, es[0], id) {
        PressStep(s, es[0], id);
      } else {
        ElsewhereConverges(s, es[0], id);
      }
      if Settled(s', id) {
        k := 1;
        RunNone(s', es[1..]);
        RunMore(s, es, 0);
      } else {
        var j := OverrunReclaimConverges(s', es[1..], id);
        k := j + 1;
        RunMore(s, es, j);
      }
    }
  }

  lemma PressStep(s: State, e: Event, id: ContainerId)
    requires Converging(s, id) && IsPress(s, e, id) && !Settled(s, id)
    ensures Step(s, e).Running? && Converging(Step(s, e).state, id)
    ensures Settled(Step(s, e).state, id) || StepsLeft(Step(s, e).state, id) < StepsLeft(s, id)
  {
    AttendedReportRuns(s, id, e.usage);
    hide Step, ReportStep, Converging, StepsLeft, Settled;
    PressConverges(s, ReportStep(s, id, e.usage), id, e.usage);
  }

  /** Taking off at least `d` lowers the quotient by `d` at least by one. */
  lemma DivDown(x: nat, y: nat, d: nat)
    requires d > 0 && y + d <= x
    ensures y / d + 1 <= x / d
  {
    QuotientAtLeast(y, d, y / d);
    QuotientAtLeast(x, d, y / d + 1);
    assert (y / d + 1) * d == y / d * d + d;
  }

  // ---------- the whole application drains ----------

  /** How many pressing reports a container can still absorb: its excess over the fair share in half slices, rounded up. */
  ghost function RoundsOf(quota: nat, fair: nat, half: nat): nat
    requires half > 0
  {
    if quota <= fair then 0 else (quota - fair - 1) / half + 1
  }

  ghost function RoundsWeight(fair: nat, half: nat): Container -> nat
    requires half > 0
  {
    (c: Container) => RoundsOf(c.quota, fair, half)
  }

  ghost function Rounds(s: State): nat
    requires s.cpu.slice >= 2
  {
    Total(s.reg, RoundsWeight(s.fair, s.cpu.slice / 2))
  }

  /** A state with an exact, never overdrawn ledger, a current fair share of at least one slice, and one container per id. */
  ghost predicate Drainable(s: State) {
    && Small(s) && s.leak <= 0 && Surplus(s.cpu) == 0 && s.cpu.alloc == TotalQuota(s)
    && Refreshed(s) && OnePerId(s.reg) && 2 <= s.cpu.slice <= s.fair
  }

  lemma RoundsDrop(quota: nat, quota': nat, fair: nat, half: nat)
    requires half > 0 && fair <= quota' < quota
    requires quota' == fair || quota - quota' >= half
    ensures RoundsOf(quota', fair, half) + 1 <= RoundsOf(quota, fair, half)
  {
    if quota' > fair {
      DivDown(quota - fair - 1, quota' - fair - 1, half);
    }
  }

  /** A pressing report from above the fair share leaves a drainable state drainable, and either uses up the overrun
      or lowers the number of rounds left. */
  lemma PressDrains(s: State, s': State, id: ContainerId, u: Usage)
    requires Drainable(s) && Pressing(s, id, u) && OverFair(s, id) && s' == ReportStep(s, id, u)
    ensures Drainable(s') && s'.cpu.total == s.cpu.total
    ensures Rounds(s) > 0
    ensures s'.cpu.overrun == 0 || Rounds(s') < Rounds(s)
  {
    hide Report, SumMap, SumSeq;
    var last := |s.reg[id]| - 1;
    TotalSetEntry(s.reg, id, last, Back(s.reg[id]), QuotaOf);
    var paid := PressPaysBack(s, id, u);
    PaidBackKeeps(s, s', id, paid);
    RoundsAfter(s, s', id, paid);
  }

  lemma RoundsAfter(s: State, s': State, id: ContainerId, paid: Word)
    requires s.cpu.slice >= 2 && OverFair(s, id) && PaidBack(s, s', id, paid)
    requires 1 <= paid <= Back(s.reg[id]).quota - s.fair
    requires paid == Back(s.reg[id]).quota - s.fair || paid >= s.cpu.slice / 2 || paid == s.cpu.overrun
    ensures Rounds(s) > 0
    ensures s'.cpu.overrun == 0 || Rounds(s') < Rounds(s)
  {
    var q, half := Back(s.reg[id]).quota, s.cpu.slice / 2;
    RoundsUpdate(s.reg, id, Back(s'.reg[id]), s.fair, half);
    RoundsDrop(q, s.fair, s.fair, half);
    if s'.cpu.overrun != 0 {
      RoundsDrop(q, q - paid, s.fair, half);
    }
  }

  lemma RoundsUpdate(reg: Registry, id: ContainerId, c: Container, fair: nat, half: nat)
    requires id in reg && half > 0
    ensures var w := RoundsWeight(fair, half);
            && Total(Update(reg, id, c), w) ==
               Total(reg, w) - RoundsOf(Back(reg[id]).quota, fair, half) + RoundsOf(c.quota, fair, half)
            && RoundsOf(Back(reg[id]).quota, fair, half) <= Total(reg, w)
  {
    TotalSetEntry(reg, id, |reg[id]| - 1, c, RoundsWeight(fair, half));
  }

  /** Any run of pressing reports from containers above the fair share while overrun is left. */
  ghost predicate DrainRun(s: State, es: seq<Event>)
    decreases es
  {
    es == [] || (
      && es[0].CpuReport? && Pressing(s, es[0].id, es[0].usage) && OverFair(s, es[0].id)
      && DrainRun(ReportStep(s, es[0].id, es[0].usage), es[1..]))
  }

  /** Whatever the order of the reports, such a run is never longer than the number of rounds. */
  lemma {:induction false} DrainRunIsBounded(s: State, es: seq<Event>)
    requires Drainable(s) && DrainRun(s, es)
    ensures |es| <= Rounds(s)
    decreases es
  {
    if es != [] {
      var s' := ReportStep(s, es[0].id, es[0].usage);
      PressDrains(s, s', es[0].id, es[0].usage);
      DrainRunIsBounded(s', es[1..]);
      if s'.cpu.overrun == 0 {
        assert es[1..] == [];
      }
    }
  }

  /** While more is allocated than the application owns, there is overrun and some container above its fair share. */
  lemma SomeoneToPay(s: State) returns (id: ContainerId)
    requires Drainable(s) && s.cpu.alloc > s.cpu.total
    ensures OverFair(s, id)
  {
    id := SomeoneAboveFair(s);
  }

  /** If its agent is there, its next pressing report pays back. */
  lemma OverrunCanBePaid(s: State) returns (id: ContainerId, u: Usage)
    requires Drainable(s) && AllAttended(s) && s.cpu.alloc > s.cpu.total
    ensures OverFair(s, id) && Pressing(s, id, u)
  {
    id := SomeoneToPay(s);
    var c := Back(s.reg[id]);
    u := Usage(c.quota, 0, c.throttled, 0, c.lastSeen, true);
  }

  /** Such a run is a run of the state machine that leaves the state drainable. */
  lemma {:induction false} DrainRunRuns(s: State, es: seq<Event>)
    requires Drainable(s) && DrainRun(s, es)
    ensures Run(s, es).Running?
    ensures Drainable(Run(s, es).state) && Run(s, es).state.cpu.total == s.cpu.total
    decreases es
  {
    hide ReportStep, Drainable, Step;
    if es != [] {
      var s' := ReportStep(s, es[0].id, es[0].usage);
      AttendedReportRuns(s, es[0].id, es[0].usage);
      PressDrains(s, s', es[0].id, es[0].usage);
      DrainRunRuns(s', es[1..]);
    }
  }

  /** Whatever the order of the payments: once no container above its fair share has any overrun left to pay, the
      allocation is back within the total, after at most as many reports as there were rounds. */
  lemma DrainEndsWithinTotal(s: State, es: seq<Event>)
    requires Drainable(s) && DrainRun(s, es)
    requires Run(s, es).Running? ==> forall id :: !OverFair(Run(s, es).state, id)
    ensures Run(s, es).Running? && Run(s, es).state.cpu.alloc <= s.cpu.total && |es| <= Rounds(s)
  {
    hide Step;
    DrainRunRuns(s, es);
    DrainRunIsBounded(s, es);
    if Run(s, es).state.cpu.alloc > s.cpu.total {
      var id := SomeoneToPay(Run(s, es).state);
    }
  }

  /** From any drainable state in which every container has its agent, some run of at most that many reports brings the
      allocation back within the total. */
  lemma {:induction false} OverrunDrains(s: State) returns (es: seq<Event>)
    requires Drainable(s) && AllAttended(s)
    ensures DrainRun(s, es) && |es| <= Rounds(s)
    ensures Run(s, es).Running?
    ensures var t := Run(s, es).state; Drainable(t) && t.cpu.alloc <= t.cpu.total == s.cpu.total
    decreases Rounds(s), s.cpu.overrun
  {
    hide Step, ReportStep, AllAttended, Run, DrainRun, Small, TotalQuota, Pressing, OverFair;
    if s.cpu.alloc <= s.cpu.total {
      es := [];
      DrainNothing(s);
    } else {
      var id, u := OverrunCanBePaid(s);
      var s' := ReportStep(s, id, u);
      PressDrains(s, s', id, u);
      NoOverrunFits(s');
      ReportKeepsAttended(s, id, u);
      hide Drainable;
      if s'.cpu.overrun == 0 {
        es := [CpuReport(id, u)];
        DrainMore(s, id, u, []);
        DrainNothing(s');
        assert [CpuReport(id, u)] + [] == es;
      } else {
        var rest := OverrunDrains(s');
        es := [CpuReport(id, u)] + rest;
        DrainMore(s, id, u, rest);
      }
      DrainRunIsBounded(s, es);
    }
  }

  lemma DrainNothing(s: State)
    ensures Run(s, []) == Running(s) && DrainRun(s, [])
  {
  }

  lemma DrainMore(s: State, id: ContainerId, u: Usage, rest: seq<Event>)
    requires Pressing(s, id, u) && OverFair(s, id)
    ensures var es := [CpuReport(id, u)] + rest;
            && Run(s, es) == Run(ReportStep(s, id, u), rest)
            && (DrainRun(s, es) <==> DrainRun(ReportStep(s, id, u), rest))
  {
    hide Step, ReportStep;
    AttendedReportRuns(s, id, u);
    assert ([CpuReport(id, u)] + rest)[1..] == rest;
  }

  lemma NoOverrunFits(s: State)
    requires Drainable(s)
    ensures s.cpu.overrun == 0 ==> s.cpu.alloc <= s.cpu.total
  {
  }

  // ---------- raises to the fair share ----------

  /** A raise never lifts a quota above the fair share, closes a gap of at most half a slice at once, and makes no
      progress exactly when a wider gap squared is still below the fair share. */
  lemma RaiseProgress(cpu: CpuCounters, fair: Word, rx: Word)
    requires rx < fair < TWO63
    ensures var v := Raise(cpu, fair, rx);
            && !v.Keep? && rx <= v.quota <= fair
            && (fair - rx <= cpu.slice / 2 ==> v.quota == fair)
            && (v.quota == rx <==> fair - rx > cpu.slice / 2 && (fair - rx) * (fair - rx) < fair)
  {
    RaiseShareBounds(fair, cpu.slice, rx);
    RaiseShareIsZero(fair, cpu.slice, rx);
    hide RaiseShare;
  }

  /** With half a slice squared at least the fair share, every raise makes progress. */
  lemma RaiseAlwaysProgresses(cpu: CpuCounters, fair: Word, rx: Word)
    requires rx < fair < TWO63 && fair <= (cpu.slice / 2) * (cpu.slice / 2)
    ensures rx < Raise(cpu, fair, rx).quota <= fair
  {
    RaiseProgress(cpu, fair, rx);
    if fair - rx > cpu.slice / 2 {
      Squares(cpu.slice / 2, fair - rx);
    }
  }

  lemma Squares(a: nat, b: nat)
    requires a <= b
    ensures a * a <= b * b
  {
    ProductMonotone(a, b, a);
    ProductMonotone(a, b, b);
  }

  /** An exact report from a throttled container that is awake, below its fair share, and whose agent is there and
      accepts. */
  ghost predicate Raising(s: State, id: ContainerId, u: Usage) {
    && Attended(s, id) && u.rpcOk && u.rxQuota == Back(s.reg[id]).quota < s.fair
    && !IsIdle(Back(s.reg[id]), u.now) && Observed(Back(s.reg[id]), u).th.mean > 0.5
  }

  ghost predicate IsRaise(s: State, e: Event, id: ContainerId) {
    e.CpuReport? && e.id == id && Raising(s, id, e.usage)
  }

  /** A run in which the container only sends such reports, with anything going on elsewhere in between. */
  ghost predicate RaisingRun(s: State, es: seq<Event>, id: ContainerId)
    decreases es
  {
    es == [] || (
      && (IsRaise(s, es[0], id) || Elsewhere(s, es[0], id))
      && (Step(s, es[0]).Running? ==> RaisingRun(Step(s, es[0]).state, es[1..], id)))
  }

  ghost function Raises(s: State, es: seq<Event>, id: ContainerId): nat
    decreases es
  {
    if es == [] || !Step(s, es[0]).Running? then 0
    else (if IsRaise(s, es[0], id) then 1 else 0) + Raises(Step(s, es[0]).state, es[1..], id)
  }

  /** How far a container is below its fair share. */
  ghost predicate GapIs(s: State, id: ContainerId, gap: nat) {
    id in s.reg && Back(s.reg[id]).quota + gap == s.fair
  }

  lemma RaiseStep(s: State, e: Event, id: ContainerId)
    requires Small(s) && OneSided(s) && IsRaise(s, e, id)
    ensures Step(s, e).Running? && e.CpuReport?
    ensures var s' := Step(s, e).state;
            && id in s'.reg && s'.fair == s.fair && s'.cpu.slice == s.cpu.slice
            && e.usage.rxQuota == Back(s.reg[id]).quota < s.fair
            && Back(s'.reg[id]).quota == Raise(s.cpu, s.fair, e.usage.rxQuota).quota
  {
    var u := e.usage;
    hide Raise, Observed;
    assert ReportVerdict(s.cpu, s.fair, Back(s.reg[id]), u) == Raise(s.cpu, s.fair, u.rxQuota);
    hide Report, ReportVerdict, Step, CountersAfter;
    AttendedReportRuns(s, id, u);
    BackIsSmall(s.reg, id);
    NoMismatch(s.cpu, Back(s.reg[id]), u);
    ReportIsSettlement(s.cpu, s.fair, s.leak, Back(s.reg[id]), u);
    ReportKeepsTotal(s.cpu, s.fair, s.leak, Back(s.reg[id]), u);
    RaiseIsResize(s.cpu, s.fair, u.rxQuota);
  }

  lemma NoMismatch(cpu: CpuCounters, c: Container, u: Usage)
    requires u.rxQuota == c.quota
    ensures CountersAfter(cpu, c, u.rxQuota) == cpu && !Tolerated(c, u.rxQuota)
  {
  }

  lemma RaiseIsResize(cpu: CpuCounters, fair: Word, rx: Word)
    requires rx < fair
    ensures Raise(cpu, fair, rx).Grant? || Raise(cpu, fair, rx).Borrow?
  {
  }

  /** However the pool changes in between, each raise gains at least a nanosecond and none passes the fair share: a
      container is raised at most as often as its gap allows, and once it was raised as often as that it is on its fair
      share. */
  lemma {:induction false} RaisingRunIsBounded(s: State, es: seq<Event>, id: ContainerId, gap: nat) returns (gap': nat)
    requires SmallRun(s, es) && Run(s, es).Running? && RaisingRun(s, es, id) && OneSided(s) && GapIs(s, id, gap)
    requires s.fair <= (s.cpu.slice / 2) * (s.cpu.slice / 2)
    ensures Run(s, es).state.fair == s.fair && GapIs(Run(s, es).state, id, gap')
    ensures gap' + Raises(s, es, id) <= gap
    ensures Raises(s, es, id) == gap ==> Back(Run(s, es).state.reg[id]).quota == s.fair
    decreases es
  {
    hide Step, Raise, IsRaise, Small, OneSided, SmallEvent;
    if es == [] {
      gap' := gap;
    } else {
      var s' := Step(s, es[0]).state;
      StepSurplus(s, es[0]);
      StepKeepsSlice(s, es[0]);
      var next := gap;
      if IsRaise(s, es[0], id) {
        RaiseStep(s, es[0], id);
        SmallFair(s);
        RaiseAlwaysProgresses(s.cpu, s.fair, es[0].usage.rxQuota);
        next := s.fair - Back(s'.reg[id]).quota;
      }
      gap' := RaisingRunIsBounded(s', es[1..], id, next);
    }
  }

  lemma SmallFair(s: State)
    requires Small(s)
    ensures s.fair < TWO63
  {
  }

  // ---------- how fast raises close the gap ----------

  /** The pool caps the raise: the gap is wide, and the pool holds something but less than the raise asks for. */
  ghost predicate IsCapped(s: State, id: ContainerId, gap: nat) {
    gap > s.cpu.slice / 2 && s.fair > 0 && 0 < s.cpu.unalloc < gap * gap / s.fair
  }

  /** A capped raise takes all the pool holds. Any other one closes a gap of at most half a slice and takes the gap squared
      over the fair share off a wider one. */
  lemma RaiseGap(s: State, e: Event, id: ContainerId, gap: nat)
    requires Small(s) && OneSided(s) && IsRaise(s, e, id) && GapIs(s, id, gap)
    ensures Step(s, e).Running? && 0 < gap <= s.fair
    ensures IsCapped(s, id, gap) ==>
            s.cpu.unalloc <= gap && GapIs(Step(s, e).state, id, gap - s.cpu.unalloc) && Step(s, e).state.cpu.unalloc == 0
    ensures !IsCapped(s, id, gap) && gap > s.cpu.slice / 2 ==>
            Quotient(gap, gap, s.fair) <= gap && GapIs(Step(s, e).state, id, gap - Quotient(gap, gap, s.fair))
    ensures !IsCapped(s, id, gap) && gap <= s.cpu.slice / 2 ==> GapIs(Step(s, e).state, id, 0)
  {
    RaiseIsPlain(s, e, id);
    hide Step, IsRaise, ReportStep, IsRaised, Plain, Observed, SmallCpu, SmallQuotas, OneSided;
    RaiseOutcome(s, id, e.usage);
    GainIs(s.fair, s.cpu.slice, s.cpu.unalloc, gap);
    hide Gain, IsCapped, Quotient;
  }

  lemma GainIs(fair: Word, slice: Word, unalloc: Word, gap: nat)
    requires 0 < gap <= fair
    ensures var g := Gain(fair, slice, unalloc, fair - gap);
            && (gap <= slice / 2 ==> g == gap)
            && (gap > slice / 2 && 0 < unalloc < gap * gap / fair ==> g == unalloc)
            && (gap > slice / 2 && !(0 < unalloc < gap * gap / fair) ==> g == Quotient(gap, gap, fair))
  {
  }

  lemma RaiseIsPlain(s: State, e: Event, id: ContainerId)
    requires Small(s) && OneSided(s) && IsRaise(s, e, id)
    ensures e.CpuReport? && Plain(s, id, e.usage) && IsRaised(s, id, e.usage)
    ensures Step(s, e) == Running(ReportStep(s, id, e.usage)) && ReportStep(s, id, e.usage).fair == s.fair
    ensures e.usage.rxQuota == Back(s.reg[id]).quota < s.fair
  {
    AttendedReportRuns(s, id, e.usage);
    hide Step, Report, Observed;
  }

  /** The gap is within twice the fair share over `n`. */
  ghost predicate Within(n: nat, gap: int, fair: nat) { n * gap <= 2 * fair }

  ghost predicate WideSlice(fair: nat, slice: nat) { 2 * fair <= (slice / 2) * (slice / 2) }

  lemma RestAfterRaise(fair: nat, gap: nat, rest: int)
    requires 2 * fair <= gap * gap < (gap - rest + 1) * fair
    ensures 2 * fair * rest <= gap * (2 * fair - gap)
  {
    assert (gap - rest + 1) * fair == gap * fair - rest * fair + fair;
    assert gap * (2 * fair - gap) == 2 * (gap * fair) - gap * gap;
    assert 2 * fair * rest == 2 * (rest * fair);
  }

  lemma ScaleBoth(a: int, b: int, k: nat)
    requires a <= b
    ensures k * a <= k * b
  {
    assert k * (b - a) >= 0;
    assert k * b == k * a + k * (b - a);
  }

  lemma CancelProduct(a: int, b: int, d: nat)
    requires d > 0 && a * d <= b * d
    ensures a <= b
  {
    assert (b + 1) * d == b * d + d;
    if a > b {
      ProductMonotone(b + 1, a, d);
    }
  }

  lemma Regroup(a: int, b: int, c: int)
    ensures a * (b * c) == (a * b) * c == (a * c) * b
  {
  }

  lemma Squared(d: nat, gap: nat)
    ensures (d + gap) * (d - gap) == d * d - gap * gap <= d * d
  {
  }

  lemma NextTerm(d: nat, gap: nat, rest: int, n: nat)
    requires 0 < gap <= d && n * gap <= d && d * rest <= gap * (d - gap)
    ensures (n + 1) * rest <= d
  {
    var m := (n + 1) * gap;
    assert m == n * gap + gap;
    ScaleBoth(d * rest, gap * (d - gap), n + 1);
    Regroup(n + 1, d, rest);
    Regroup(n + 1, gap, d - gap);
    ProductMonotone(m, d + gap, d - gap);
    Squared(d, gap);
    CancelProduct((n + 1) * rest, d, d);
  }

  /** One raise by the gap squared over the fair share keeps the gap within twice the fair share over the count. */
  lemma HarmonicStep(fair: nat, gap: nat, n: nat)
    requires 0 < gap <= fair && 2 * fair <= gap * gap && Within(n, gap, fair)
    ensures Within(n + 1, gap - Quotient(gap, gap, fair), fair)
  {
    var q := Quotient(gap, gap, fair);
    QuotientAtLeast(gap * gap, fair, q + 1);
    RestAfterRaise(fair, gap, gap - q);
    NextTerm(2 * fair, gap, gap - q, n);
  }

  lemma HarmonicRaise(s: State, e: Event, id: ContainerId, gap: nat, n: nat) returns (next: nat)
    requires Small(s) && OneSided(s) && IsRaise(s, e, id) && !IsCapped(s, id, gap) && GapIs(s, id, gap)
    requires WideSlice(s.fair, s.cpu.slice) && Within(n, gap, s.fair)
    ensures Step(s, e).Running? && Step(s, e).state.fair == s.fair
    ensures GapIs(Step(s, e).state, id, next) && Within(n + 1, next, s.fair)
    ensures gap > 0 && (next > 0 ==> Within(n, s.cpu.slice / 2 + 1, s.fair))
  {
    hide Step, IsRaise, IsCapped, Small, OneSided, Quotient, GapIs, Raise;
    RaiseGap(s, e, id, gap);
    RaiseStep(s, e, id);
    var half := s.cpu.slice / 2;
    next := 0;
    if gap > half {
      next := gap - Quotient(gap, gap, s.fair);
      Squares(half, gap);
      HarmonicStep(s.fair, gap, n);
      ScaleBoth(half + 1, gap, n);
    }
  }

  lemma CappedRaise(s: State, e: Event, id: ContainerId, gap: nat, n: nat) returns (next: nat)
    requires Small(s) && OneSided(s) && IsRaise(s, e, id) && IsCapped(s, id, gap) && GapIs(s, id, gap)
    requires Within(n, gap, s.fair)
    ensures Step(s, e).Running? && Step(s, e).state.fair == s.fair && Step(s, e).state.cpu.unalloc == 0 < s.cpu.unalloc
    ensures GapIs(Step(s, e).state, id, next) && next <= gap && Within(n, next, s.fair)
  {
    RaiseGap(s, e, id, gap);
    RaiseStep(s, e, id);
    hide Step, IsRaise, Small, OneSided, GapIs, Raise;
    next := gap - s.cpu.unalloc;
    ScaleBoth(next, gap, n);
  }

  /** How many raises of the run the pool caps. */
  ghost function CappedRaises(s: State, es: seq<Event>, id: ContainerId): nat
    decreases es
  {
    if es == [] || !Step(s, es[0]).Running? then 0
    else (if IsRaise(s, es[0], id) && PoolCaps(s, id) then 1 else 0) + CappedRaises(Step(s, es[0]).state, es[1..], id)
  }

  ghost predicate PoolCaps(s: State, id: ContainerId) {
    id in s.reg && Back(s.reg[id]).quota <= s.fair && IsCapped(s, id, s.fair - Back(s.reg[id]).quota)
  }

  /** How often the run puts something into an empty pool. */
  ghost function Refills(s: State, es: seq<Event>): nat
    decreases es
  {
    if es == [] || !Step(s, es[0]).Running? then 0
    else
      (if s.cpu.unalloc == 0 < Step(s, es[0]).state.cpu.unalloc then 1 else 0) + Refills(Step(s, es[0]).state, es[1..])
  }

  /** `n` uncapped raises before the run, the gap within twice the fair share over `n`. */
  lemma {:induction false} HarmonicRun(s: State, es: seq<Event>, id: ContainerId, gap: nat, n: nat)
    returns (gap': nat, free: nat)
    requires SmallRun(s, es) && Run(s, es).Running? && RaisingRun(s, es, id) && OneSided(s)
    requires GapIs(s, id, gap) && Within(n, gap, s.fair) && WideSlice(s.fair, s.cpu.slice)
    ensures free + CappedRaises(s, es, id) == Raises(s, es, id)
    ensures GapIs(Run(s, es).state, id, gap') && Within(n + free, gap', s.fair)
    ensures free >= 1 ==> gap > 0
    ensures free >= 2 ==> Within(n + free - 2, s.cpu.slice / 2 + 1, s.fair)
    decreases es
  {
    hide Step, IsRaise, Within, WideSlice, Small, OneSided, SmallEvent, IsCapped;
    if es == [] {
      gap', free := gap, 0;
    } else {
      var s' := Step(s, es[0]).state;
      StepSurplus(s, es[0]);
      StepKeepsSlice(s, es[0]);
      assert PoolCaps(s, id) <==> IsCapped(s, id, gap);
      if IsRaise(s, es[0], id) && !IsCapped(s, id, gap) {
        var next := HarmonicRaise(s, es[0], id, gap, n);
        gap', free := HarmonicRun(s', es[1..], id, next, n + 1);
        free := free + 1;
      } else if IsRaise(s, es[0], id) {
        var next := CappedRaise(s, es[0], id, gap, n);
        gap', free := HarmonicRun(s', es[1..], id, next, n);
      } else {
        gap', free := HarmonicRun(s', es[1..], id, gap, n);
      }
    }
  }

  /** Every capped raise empties the pool, so there is at most one more of them than there are refills. */
  lemma {:induction false} CappedRaisesAreRare(s: State, es: seq<Event>, id: ContainerId)
    requires SmallRun(s, es) && Run(s, es).Running? && RaisingRun(s, es, id) && OneSided(s) && id in s.reg
    ensures CappedRaises(s, es, id) <= Refills(s, es) + if s.cpu.unalloc > 0 then 1 else 0
    decreases es
  {
    hide Step, IsRaise, Small, OneSided, SmallEvent, IsCapped, Elsewhere;
    if es != [] {
      StepSurplus(s, es[0]);
      StillRegistered(s, es[0], id);
      if IsRaise(s, es[0], id) && PoolCaps(s, id) {
        RaiseGap(s, es[0], id, s.fair - Back(s.reg[id]).quota);
        CappedNeedsPool(s, id);
      }
      CappedRaisesAreRare(Step(s, es[0]).state, es[1..], id);
    }
  }

  lemma CappedNeedsPool(s: State, id: ContainerId)
    requires PoolCaps(s, id)
    ensures s.cpu.unalloc > 0
  {
  }

  lemma StillRegistered(s: State, e: Event, id: ContainerId)
    requires id in s.reg && Step(s, e).Running? && (IsRaise(s, e, id) || Elsewhere(s, e, id))
    ensures id in Step(s, e).state.reg
  {
    if IsRaise(s, e, id) {
      AttendedReportRuns(s, id, e.usage);
      hide Step, Report;
    }
  }

  /** Whatever goes on elsewhere in between, the gap after `n` raises that the pool does not cap is at most twice the fair
      share over `n`, and there are at most two of them more than twice the fair share divided by half a slice. Raises
      that the pool caps are at most one more than the times it is refilled. */
  lemma RaisesAreFast(s: State, es: seq<Event>, id: ContainerId, gap: nat) returns (gap': nat, free: nat)
    requires SmallRun(s, es) && Run(s, es).Running? && RaisingRun(s, es, id) && OneSided(s)
    requires GapIs(s, id, gap) && 2 * s.fair <= (s.cpu.slice / 2) * (s.cpu.slice / 2)
    ensures free + Refills(s, es) + 1 >= Raises(s, es, id)
    ensures GapIs(Run(s, es).state, id, gap') && free * gap' <= 2 * s.fair
    ensures free >= 2 ==> (free - 2) * (s.cpu.slice / 2 + 1) <= 2 * s.fair
  {
    hide RaisingRun, SmallRun, Run, Raises, CappedRaises, Refills;
    CappedRaisesAreRare(s, es, id);
    gap', free := HarmonicRun(s, es, id, gap, 0);
  }
}
