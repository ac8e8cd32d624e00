/** What a usage report does to the quota and to the counters, branch by branch and in whole numbers. */
module ReportOutcomes {
  import opened Words
  import opened Containers
  import opened CpuControl
  import opened MemControl
  import opened Controller
  import opened Shares
  import opened CpuLedger

  /** A report that carries the tracked quota and whose agent accepts, on a ledger without a leak. */
  ghost predicate Plain(s: State, id: ContainerId, u: Usage) {
    && Small(s) && OneSided(s) && id in s.reg
    && u.rxQuota == Back(s.reg[id]).quota && Accepts(Back(s.reg[id]), u)
  }

  /** The allocation covers the container's quota, as it does on every exact ledger. */
  ghost predicate QuotaCovered(s: State, id: ContainerId)
    requires id in s.reg
  {
    Back(s.reg[id]).quota <= s.cpu.alloc
  }

  ghost function ThrottleMean(s: State, id: ContainerId, u: Usage): real
    requires id in s.reg
  {
    Observed(Back(s.reg[id]), u).th.mean
  }

  ghost function RuntimeMean(s: State, id: ContainerId, u: Usage): real
    requires id in s.reg
  {
    Observed(Back(s.reg[id]), u).rt.mean
  }

  // ---------- which branch ----------

  /** Not heard of for two seconds, and there is a pool to wake it from. */
  ghost predicate Wakes(s: State, id: ContainerId, u: Usage)
    requires id in s.reg
  {
    u.now - Back(s.reg[id]).lastSeen > 2_000_000 && s.cpu.unalloc > 0
  }

  /** Above the fair share while there is overrun. */
  ghost predicate Repays(s: State, id: ContainerId, u: Usage)
    requires id in s.reg
  {
    !Wakes(s, id, u) && s.cpu.overrun > 0 && u.rxQuota > s.fair
  }

  /** Below the fair share and throttled in more than half of its periods. */
  ghost predicate IsRaised(s: State, id: ContainerId, u: Usage)
    requires id in s.reg
  {
    !Wakes(s, id, u) && u.rxQuota < s.fair && ThrottleMean(s, id, u) > 0.5
  }

  ghost predicate NoneOfThese(s: State, id: ContainerId, u: Usage)
    requires id in s.reg
  {
    !Wakes(s, id, u) && !Repays(s, id, u) && !IsRaised(s, id, u)
  }

  /** Throttled in a tenth of its periods, and there is a pool to grant from. */
  ghost predicate IsGranted(s: State, id: ContainerId, u: Usage)
    requires id in s.reg
  {
    NoneOfThese(s, id, u) && ThrottleMean(s, id, u) >= 0.1 && s.cpu.unalloc > 0
  }

  /** More than a fifth of the quota left over. */
  ghost predicate Sheds(s: State, id: ContainerId, u: Usage)
    requires id in s.reg
  {
    && NoneOfThese(s, id, u) && !IsGranted(s, id, u)
    && 0 < u.rxQuota < 5 * Signed(u.rtRemaining) && u.rxQuota >= s.cpu.slice
  }

  /** More than 5 ms left over on average. */
  ghost predicate Trims(s: State, id: ContainerId, u: Usage)
    requires id in s.reg
  {
    && NoneOfThese(s, id, u) && !IsGranted(s, id, u) && !Sheds(s, id, u)
    && RuntimeMean(s, id, u).Floor > 5_000_000 && u.rxQuota > s.cpu.slice
  }

  // ---------- real conditions in whole numbers ----------

  lemma FourFifths(rx: Word)
    ensures Cast(rx as real * 0.8) == 4 * rx / 5
  {
    var x := rx as real * 0.8;
    assert x * 5.0 == (4 * rx) as real;
    FloorIsQuotient(x, 4 * rx, 5);
  }

  lemma FifthLeft(left: int, rx: Word)
    requires rx > 0
    ensures left as real / rx as real > 0.2 <==> 5 * left > rx
  {
    var x := left as real / rx as real;
    assert x * rx as real == left as real;
    MonotoneProduct(0.2, x, rx as real);
    assert 0.2 * rx as real * 5.0 == rx as real;
  }

  lemma AverageLeft(mean: real)
    ensures mean >= 0.0 ==> (Cast(mean) > MAX_UNUSED_RT <==> mean.Floor > 5_000_000)
    ensures mean < 0.0 ==> Cast(mean) == 0 && mean.Floor < 0
  {
  }

  function Max(x: int, y: int): int { if x >= y then x else y }

  function Min(x: int, y: int): int { if x <= y then x else y }

  // ---------- the verdict ----------

  ghost function PlainVerdict(s: State, id: ContainerId, u: Usage): Verdict
    requires id in s.reg
  {
    VerdictOn(s.cpu, s.fair, Observed(Back(s.reg[id]), u), u, IsIdle(Back(s.reg[id]), u.now))
  }

  lemma EarlyVerdicts(s: State, id: ContainerId, u: Usage)
    requires Plain(s, id, u)
    ensures Wakes(s, id, u) ==>
            PlainVerdict(s, id, u) == Changed(Grant(Min(s.cpu.unalloc, 100_000_000)), u.rxQuota)
    ensures Repays(s, id, u) ==>
            PlainVerdict(s, id, u) ==
            Repay(Wrap(u.rxQuota - MinWord(s.cpu.overrun, OverrunShare(s.fair, s.cpu.slice, u.rxQuota))))
    ensures IsRaised(s, id, u) ==> PlainVerdict(s, id, u) == Raise(s.cpu, s.fair, u.rxQuota)
  {
    hide OverrunShare, Raise, Observed, ThrottleShare;
  }

  lemma LateVerdicts(s: State, id: ContainerId, u: Usage)
    requires Plain(s, id, u) && NoneOfThese(s, id, u)
    ensures IsGranted(s, id, u) ==>
            PlainVerdict(s, id, u) ==
            Changed(Grant(u.rxQuota + Min(s.cpu.unalloc, ThrottleShare(s.cpu.slice, ThrottleMean(s, id, u)))), u.rxQuota)
    ensures Sheds(s, id, u) ==> PlainVerdict(s, id, u) == Changed(Return(Max(s.cpu.slice, 4 * u.rxQuota / 5)), u.rxQuota)
    ensures Trims(s, id, u) && u.rxQuota >= 5_000_000 ==>
            PlainVerdict(s, id, u) == Changed(Return(Max(s.cpu.slice, u.rxQuota - 5_000_000)), u.rxQuota)
    ensures !IsGranted(s, id, u) && !Sheds(s, id, u) && !Trims(s, id, u) ==> PlainVerdict(s, id, u) == Keep
  {
    hide OverrunShare, Raise, Observed, ThrottleShare;
    AverageLeft(RuntimeMean(s, id, u));
    FourFifths(u.rxQuota);
    if u.rxQuota > 0 {
      FifthLeft(Signed(u.rtRemaining), u.rxQuota);
    }
  }

  // ---------- the settlement ----------

  /** The pool gives `d` to the allocation, or gets it back when `d` is negative. */
  ghost predicate PoolGives(cpu: CpuCounters, cpu': CpuCounters, d: int) {
    && cpu'.unalloc == cpu.unalloc - d && cpu'.alloc == cpu.alloc + d
    && cpu'.overrun == cpu.overrun && cpu'.total == cpu.total && cpu'.slice == cpu.slice
  }

  /** The overrun grows by `d` together with the allocation, or both shrink when `d` is negative. */
  ghost predicate OverrunGives(cpu: CpuCounters, cpu': CpuCounters, d: int) {
    && cpu'.overrun == cpu.overrun + d && cpu'.alloc == cpu.alloc + d
    && cpu'.unalloc == cpu.unalloc && cpu'.total == cpu.total && cpu'.slice == cpu.slice
  }

  lemma Settles(cpu: CpuCounters, rx: Word, v: Verdict)
    requires SmallCpu(cpu) && rx < TWO63 && !v.Keep? && v.quota < TWO63 && rx - v.quota <= cpu.alloc
    ensures var cpu', d := SettleCounters(cpu, rx, v), v.quota - rx;
            && (v.Grant? && d <= cpu.unalloc ==> PoolGives(cpu, cpu', d))
            && (v.Grant? && d > cpu.unalloc ==> cpu' == cpu.(unalloc := 0, alloc := cpu.alloc + d))
            && (v.Return? && d <= 0 ==> PoolGives(cpu, cpu', d))
            && (v.Borrow? && d >= 0 ==> OverrunGives(cpu, cpu', d))
            && (v.Repay? && 0 <= -d <= cpu.overrun ==> OverrunGives(cpu, cpu', d))
  {
  }

  /** The new quota and counters of a plain report. */
  lemma PlainReport(s: State, id: ContainerId, u: Usage)
    requires Plain(s, id, u)
    ensures var s', v := ReportStep(s, id, u), PlainVerdict(s, id, u);
            && id in s'.reg && s'.fair == s.fair
            && Back(s'.reg[id]).quota == (if v.Keep? then u.rxQuota else v.quota)
            && s'.cpu == (if v.Keep? then s.cpu else SettleCounters(s.cpu, u.rxQuota, v))
    ensures AsksQuota(s.cpu, s.fair, s.leak, Back(s.reg[id]), u) <==> !PlainVerdict(s, id, u).Keep?
  {
    var c := Back(s.reg[id]);
    assert CountersAfter(s.cpu, c, u.rxQuota) == s.cpu && !Tolerated(c, u.rxQuota);
    hide Report, VerdictOn, Observed, SettleCounters, CountersAfter, IsIdle;
    BackIsSmall(s.reg, id);
    LeakStaysClosed(s.cpu, s.leak);
    ReportIsSettlement(s.cpu, s.fair, s.leak, c, u);
    KeepSettles(s.cpu, u.rxQuota);
  }

  lemma KeepSettles(cpu: CpuCounters, rx: Word)
    ensures SettleCounters(cpu, rx, Keep) == cpu
  {
  }

  // ---------- the outcome of each branch ----------

  /** The newest container under the id ends with quota `q`. */
  ghost predicate QuotaIs(s: State, id: ContainerId, q: int) {
    id in s.reg && Back(s.reg[id]).quota == q
  }

  /** A container heard of again after two seconds gets one core, or all of a smaller pool. */
  lemma WakeOutcome(s: State, id: ContainerId, u: Usage)
    requires Plain(s, id, u) && QuotaCovered(s, id) && Wakes(s, id, u)
    ensures var s', q := ReportStep(s, id, u), Min(s.cpu.unalloc, 100_000_000);
            QuotaIs(s', id, q) && PoolGives(s.cpu, s'.cpu, q - u.rxQuota)
  {
    EarlyVerdicts(s, id, u);
    PlainReport(s, id, u);
    hide ReportStep, PlainVerdict, SettleCounters, Wakes;
    BackIsSmall(s.reg, id);
    var q := Min(s.cpu.unalloc, 100_000_000);
    if q != u.rxQuota {
      Settles(s.cpu, u.rxQuota, Grant(q));
    }
  }

  /** The amount asked back, before the overrun caps it. */
  ghost function AskedBack(fair: int, slice: int, rx: int): int
    requires 0 < fair < rx && slice >= 0
  {
    var over := rx - fair;
    var asked := over * (if over > fair then slice else over) / fair;
    if asked < slice / 2 then over else asked
  }

  lemma AskedBackIs(fair: Word, slice: Word, rx: Word)
    requires 0 < fair < rx
    ensures OverrunShare(fair, slice, rx) == Capped(NonNegative(AskedBack(fair, slice, rx))) && AskedBack(fair, slice, rx) >= 0
  {
    OverrunShareIs(fair, slice, rx);
    AskedIs(fair, slice, rx);
    hide OverrunShare, Asked;
  }

  lemma AskedIs(fair: Word, slice: Word, rx: Word)
    requires 0 < fair < rx
    ensures var over := rx - fair; Asked(fair, slice, rx) == over * (if over > fair then slice else over) / fair
  {
  }

  /** Above the fair share, the amount asked back or all of a smaller overrun is taken from quota, overrun and allocation. */
  lemma RepayOutcome(s: State, id: ContainerId, u: Usage)
    requires Plain(s, id, u) && QuotaCovered(s, id) && Repays(s, id, u) && s.fair > 0
    requires Min(s.cpu.overrun, AskedBack(s.fair, s.cpu.slice, u.rxQuota)) <= u.rxQuota
    ensures var s', p := ReportStep(s, id, u), Min(s.cpu.overrun, AskedBack(s.fair, s.cpu.slice, u.rxQuota));
            QuotaIs(s', id, u.rxQuota - p) && OverrunGives(s.cpu, s'.cpu, -p)
  {
    EarlyVerdicts(s, id, u);
    PlainReport(s, id, u);
    hide ReportStep, PlainVerdict, SettleCounters, Repays, OverrunShare, AskedBack;
    AskedBackIs(s.fair, s.cpu.slice, u.rxQuota);
    BackIsSmall(s.reg, id);
    var p := Min(s.cpu.overrun, AskedBack(s.fair, s.cpu.slice, u.rxQuota));
    assert MinWord(s.cpu.overrun, OverrunShare(s.fair, s.cpu.slice, u.rxQuota)) == p;
    Settles(s.cpu, u.rxQuota, Repay(u.rxQuota - p));
  }

  /** What a raise gains: all of a gap of at most half a slice, else the gap squared over the fair share, but no more than
      a pool that is not empty holds. */
  ghost function Gain(fair: int, slice: int, unalloc: int, rx: int): int
    requires rx < fair && 0 < fair
  {
    var gap := fair - rx;
    if gap <= slice / 2 then gap
    else if unalloc > 0 then Min(unalloc, gap * gap / fair)
    else gap * gap / fair
  }

  lemma RaiseVerdict(cpu: CpuCounters, fair: Word, rx: Word)
    requires SmallCpu(cpu) && rx < fair < TWO63
    ensures 0 <= Gain(fair, cpu.slice, cpu.unalloc, rx) <= fair - rx
    ensures var q := rx + Gain(fair, cpu.slice, cpu.unalloc, rx);
            Raise(cpu, fair, rx) == if cpu.unalloc > 0 then Grant(q) else Borrow(q)
  {
    RaiseShareIs(fair, cpu.slice, rx);
    assert fair - rx > cpu.slice / 2 ==> RaiseShare(fair, cpu.slice, rx) == (fair - rx) * (fair - rx) / fair;
    hide RaiseShare, Quotient;
  }

  /** Below the fair share, a throttled container gains that much: from a pool that is not empty, which it may overdraw
      only by closing a gap of at most half a slice, or else as overrun. */
  lemma RaiseOutcome(s: State, id: ContainerId, u: Usage)
    requires Plain(s, id, u) && IsRaised(s, id, u)
    ensures var s', g := ReportStep(s, id, u), Gain(s.fair, s.cpu.slice, s.cpu.unalloc, u.rxQuota);
            && 0 <= g <= s.fair - u.rxQuota && QuotaIs(s', id, u.rxQuota + g)
            && (0 < s.cpu.unalloc && g <= s.cpu.unalloc ==> PoolGives(s.cpu, s'.cpu, g))
            && (0 < s.cpu.unalloc < g ==> s'.cpu == s.cpu.(unalloc := 0, alloc := s.cpu.alloc + g))
            && (s.cpu.unalloc == 0 ==> OverrunGives(s.cpu, s'.cpu, g))
  {
    EarlyVerdicts(s, id, u);
    PlainReport(s, id, u);
    RaiseVerdict(s.cpu, s.fair, u.rxQuota);
    hide ReportStep, PlainVerdict, SettleCounters, IsRaised, Gain, Raise;
    BackIsSmall(s.reg, id);
    Settles(s.cpu, u.rxQuota, Raise(s.cpu, s.fair, u.rxQuota));
  }

  lemma ThrottleShareIs(slice: Word, mean: real, unalloc: Word)
    requires mean >= 0.1 && unalloc < TWO63
    ensures (20.0 * mean * slice as real).Floor >= 0
    ensures MinWord(unalloc, ThrottleShare(slice, mean)) == Min(unalloc, (20.0 * mean * slice as real).Floor)
  {
    var x := 20.0 * mean * slice as real;
    assert 20.0 * mean >= 0.0;
    assert x >= 0.0;
  }

  /** Up to twenty slices per throttled period, as far as the pool goes. */
  ghost function Granted(s: State, id: ContainerId, u: Usage): int
    requires id in s.reg
  {
    Min(s.cpu.unalloc, (20.0 * ThrottleMean(s, id, u) * s.cpu.slice as real).Floor)
  }

  lemma GrantVerdict(s: State, id: ContainerId, u: Usage)
    requires Plain(s, id, u) && IsGranted(s, id, u)
    ensures 0 <= Granted(s, id, u) <= s.cpu.unalloc
    ensures u.rxQuota + Granted(s, id, u) < TWO64
    ensures PlainVerdict(s, id, u) == Changed(Grant(u.rxQuota + Granted(s, id, u)), u.rxQuota)
  {
    hide PlainVerdict, ThrottleMean, ThrottleShare;
    BackIsSmall(s.reg, id);
    LateVerdicts(s, id, u);
    ThrottleShareIs(s.cpu.slice, ThrottleMean(s, id, u), s.cpu.unalloc);
  }

  /** At or above the fair share, a throttled container gains that much from the pool. */
  lemma GrantOutcome(s: State, id: ContainerId, u: Usage)
    requires Plain(s, id, u) && QuotaCovered(s, id) && IsGranted(s, id, u)
    ensures var s', g := ReportStep(s, id, u), Granted(s, id, u);
            g >= 0 && QuotaIs(s', id, u.rxQuota + g) && PoolGives(s.cpu, s'.cpu, g)
  {
    hide ReportStep, PlainVerdict, IsGranted, Granted, ThrottleMean, QuotaIs, PoolGives;
    GrantVerdict(s, id, u);
    GrantSettles(s, id, u, Granted(s, id, u));
  }

  lemma GrantSettles(s: State, id: ContainerId, u: Usage, g: nat)
    requires Plain(s, id, u) && QuotaCovered(s, id) && g <= s.cpu.unalloc
    requires PlainVerdict(s, id, u) == Changed(Grant(u.rxQuota + g), u.rxQuota)
    ensures QuotaIs(ReportStep(s, id, u), id, u.rxQuota + g) && PoolGives(s.cpu, ReportStep(s, id, u).cpu, g)
  {
    hide ReportStep, PlainVerdict, SettleCounters;
    PlainReport(s, id, u);
    BackIsSmall(s.reg, id);
    if g != 0 {
      Settles(s.cpu, u.rxQuota, Grant(u.rxQuota + g));
    }
  }

  /** More than a fifth left over: a fifth goes back to the pool, but not below the slice. */
  lemma ShedOutcome(s: State, id: ContainerId, u: Usage)
    requires Plain(s, id, u) && QuotaCovered(s, id) && Sheds(s, id, u)
    ensures var s', q := ReportStep(s, id, u), Max(s.cpu.slice, 4 * u.rxQuota / 5);
            QuotaIs(s', id, q) && PoolGives(s.cpu, s'.cpu, q - u.rxQuota)
  {
    LateVerdicts(s, id, u);
    PlainReport(s, id, u);
    GiveBackOutcome(s, id, u, Max(s.cpu.slice, 4 * u.rxQuota / 5));
  }

  /** More than 5 ms left over on average: 5 ms go back to the pool, but not below the slice. */
  lemma TrimOutcome(s: State, id: ContainerId, u: Usage)
    requires Plain(s, id, u) && QuotaCovered(s, id) && Trims(s, id, u) && u.rxQuota >= 5_000_000
    ensures var s', q := ReportStep(s, id, u), Max(s.cpu.slice, u.rxQuota - 5_000_000);
            QuotaIs(s', id, q) && PoolGives(s.cpu, s'.cpu, q - u.rxQuota)
  {
    LateVerdicts(s, id, u);
    PlainReport(s, id, u);
    GiveBackOutcome(s, id, u, Max(s.cpu.slice, u.rxQuota - 5_000_000));
  }

  lemma GiveBackOutcome(s: State, id: ContainerId, u: Usage, q: Word)
    requires Plain(s, id, u) && QuotaCovered(s, id) && q <= u.rxQuota && PlainVerdict(s, id, u) == Changed(Return(q), u.rxQuota)
    ensures QuotaIs(ReportStep(s, id, u), id, q) && PoolGives(s.cpu, ReportStep(s, id, u).cpu, q - u.rxQuota)
  {
    PlainReport(s, id, u);
    hide ReportStep, PlainVerdict, SettleCounters;
    BackIsSmall(s.reg, id);
    if q != u.rxQuota {
      Settles(s.cpu, u.rxQuota, Return(q));
    }
  }

  /** In no other situation does anything change. */
  lemma KeepOutcome(s: State, id: ContainerId, u: Usage)
    requires Plain(s, id, u) && NoneOfThese(s, id, u) && !IsGranted(s, id, u) && !Sheds(s, id, u) && !Trims(s, id, u)
    ensures QuotaIs(ReportStep(s, id, u), id, u.rxQuota) && ReportStep(s, id, u).cpu == s.cpu
  {
    LateVerdicts(s, id, u);
    PlainReport(s, id, u);
  }

  /** A report asks the agent for a new quota if and only if it repays or is raised, even if by nothing, or one of the
      other branches ends with another quota than the reported one. */
  lemma AsksIff(s: State, id: ContainerId, u: Usage)
    requires Plain(s, id, u)
    requires Trims(s, id, u) ==> u.rxQuota >= 5_000_000
    ensures AsksQuota(s.cpu, s.fair, s.leak, Back(s.reg[id]), u) <==>
            || Repays(s, id, u) || IsRaised(s, id, u)
            || (Wakes(s, id, u) && Min(s.cpu.unalloc, 100_000_000) != u.rxQuota)
            || (IsGranted(s, id, u) && Granted(s, id, u) > 0)
            || (Sheds(s, id, u) && u.rxQuota > s.cpu.slice)
            || Trims(s, id, u)
  {
    PlainReport(s, id, u);
    EarlyVerdicts(s, id, u);
    if NoneOfThese(s, id, u) {
      LateVerdicts(s, id, u);
      if IsGranted(s, id, u) {
        GrantVerdict(s, id, u);
      }
    } else {
      RaisedAsks(s, id, u);
    }
    hide PlainVerdict, AsksQuota, Raise, OverrunShare, ThrottleShare, ThrottleMean, RuntimeMean, Granted;
  }

  lemma RaisedAsks(s: State, id: ContainerId, u: Usage)
    requires Plain(s, id, u)
    ensures IsRaised(s, id, u) ==> !Raise(s.cpu, s.fair, u.rxQuota).Keep?
  {
    hide RaiseShare;
  }
}
