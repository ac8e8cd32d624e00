/** Containers that leave runtime unused give it back step by step, down to exactly one slice. */
module GivingBack {
  import opened Sums
  import opened Containers
  import opened CpuControl
  import opened MemControl
  import opened Controller
  import opened CpuLedger
  import opened ReportOutcomes
  import opened Convergence

  /** A report on which a container above one slice gives back runtime. */
  ghost predicate IsGiveBack(s: State, e: Event, id: ContainerId) {
    && e.CpuReport? && e.id == id && Attended(s, id) && e.usage.rpcOk
    && e.usage.rxQuota == Back(s.reg[id]).quota > s.cpu.slice
    && (Sheds(s, id, e.usage) || Trims(s, id, e.usage))
  }

  /** A run in which the container only sends such reports, with anything going on elsewhere in between. */
  ghost predicate GiveBackRun(s: State, es: seq<Event>, id: ContainerId)
    decreases es
  {
    es == [] || (
      && (IsGiveBack(s, es[0], id) || Elsewhere(s, es[0], id))
      && (Step(s, es[0]).Running? ==> GiveBackRun(Step(s, es[0]).state, es[1..], id)))
  }

  ghost function GiveBacks(s: State, es: seq<Event>, id: ContainerId): nat
    decreases es
  {
    if es == [] || !Step(s, es[0]).Running? then 0
    else (if IsGiveBack(s, es[0], id) then 1 else 0) + GiveBacks(Step(s, es[0]).state, es[1..], id)
  }

  /** The least that is given back short of the slice: 5 ms, or a fifth of a slice. */
  function LeastBack(slice: nat): nat { Min(5_000_000, slice / 5) }

  /** An exact ledger with a container at or above one slice. */
  ghost predicate Shrinkable(s: State, id: ContainerId, quota: nat) {
    && Small(s) && OneSided(s) && s.cpu.alloc == TotalQuota(s) && s.cpu.slice >= 5_000_000
    && QuotaIs(s, id, quota) && s.cpu.slice <= quota
  }

  lemma GiveBackStep(s: State, e: Event, id: ContainerId, quota: nat) returns (next: nat)
    requires Shrinkable(s, id, quota) && IsGiveBack(s, e, id)
    ensures Step(s, e).Running? && QuotaIs(Step(s, e).state, id, next)
    ensures s.cpu.slice <= next < quota
    ensures next == s.cpu.slice || quota - next >= LeastBack(s.cpu.slice)
    ensures PoolGives(s.cpu, Step(s, e).state.cpu, next - quota)
  {
    hide SumMap, SumSeq, Report, Sheds, Trims;
    var u := e.usage;
    AttendedReportRuns(s, id, u);
    hide Step, ReportStep;
    TotalSetEntry(s.reg, id, |s.reg[id]| - 1, Back(s.reg[id]), QuotaOf);
    assert Plain(s, id, u) && QuotaCovered(s, id);
    hide Plain;
    if Sheds(s, id, u) {
      ShedOutcome(s, id, u);
      next := Max(s.cpu.slice, 4 * u.rxQuota / 5);
    } else {
      TrimOutcome(s, id, u);
      next := Max(s.cpu.slice, u.rxQuota - 5_000_000);
    }
  }

  lemma ElsewhereShrinkable(s: State, e: Event, id: ContainerId, quota: nat)
    requires Shrinkable(s, id, quota) && Elsewhere(s, e, id)
    requires SmallEvent(s, e) && ExactEvent(s, e) && Small(Step(s, e).state)
    ensures Shrinkable(Step(s, e).state, id, quota) && Step(s, e).state.cpu.slice == s.cpu.slice
  {
    hide Step, Small, OneSided, SmallEvent, ExactEvent, TotalQuota;
    StepExact(s, e);
    StepSurplus(s, e);
    StepKeepsSlice(s, e);
  }

  lemma GiveBackShrinkable(s: State, e: Event, id: ContainerId, quota: nat) returns (next: nat)
    requires Shrinkable(s, id, quota) && IsGiveBack(s, e, id)
    requires SmallEvent(s, e) && ExactEvent(s, e) && Step(s, e).Running? && Small(Step(s, e).state)
    ensures Shrinkable(Step(s, e).state, id, next) && Step(s, e).state.cpu.slice == s.cpu.slice
    ensures next < quota && (next == s.cpu.slice || quota - next >= LeastBack(s.cpu.slice))
  {
    hide Step, Small, OneSided, SmallEvent, ExactEvent, TotalQuota, IsGiveBack;
    next := GiveBackStep(s, e, id, quota);
    StepExact(s, e);
    StepSurplus(s, e);
    StepKeepsSlice(s, e);
  }

  /** In every exact run, whatever goes on elsewhere in between, a container that gives back never falls below one slice,
      and it is on exactly one slice after at most as many such reports as its excess takes in steps of 5 ms or a fifth
      of a slice, whichever is less. */
  lemma {:induction false} GiveBacksReachSlice(s: State, es: seq<Event>, id: ContainerId, quota: nat) returns (quota': nat)
    requires SmallRun(s, es) && ExactRun(s, es) && Run(s, es).Running? && GiveBackRun(s, es, id)
    requires Shrinkable(s, id, quota)
    ensures QuotaIs(Run(s, es).state, id, quota') && s.cpu.slice <= quota' <= quota
    ensures var least := LeastBack(s.cpu.slice);
            && GiveBacks(s, es, id) + RoundsOf(quota', s.cpu.slice, least) <= RoundsOf(quota, s.cpu.slice, least)
            && (GiveBacks(s, es, id) == RoundsOf(quota, s.cpu.slice, least) ==> quota' == s.cpu.slice)
    decreases es
  {
    hide Step, Small, SmallEvent, ExactEvent, IsGiveBack, Elsewhere, TotalQuota, OneSided;
    if es == [] {
      quota' := quota;
    } else {
      var s', least := Step(s, es[0]).state, LeastBack(s.cpu.slice);
      if IsGiveBack(s, es[0], id) {
        var next := GiveBackShrinkable(s, es[0], id, quota);
        RoundsDrop(quota, next, s.cpu.slice, least);
        quota' := GiveBacksReachSlice(s', es[1..], id, next);
      } else {
        ElsewhereShrinkable(s, es[0], id, quota);
        quota' := GiveBacksReachSlice(s', es[1..], id, quota);
      }
    }
  }
}
