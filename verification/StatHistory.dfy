/** The statistics of a container over whole runs: what its two windows hold is decided by the reports handled and the
    quotas changed since it was admitted. */
module StatHistory {
  import opened Words
  import opened Windows
  import opened Containers
  import opened CpuControl
  import opened MemControl
  import opened Controller
  import opened CpuLedger

  /** The throttle counter at admission, and what happened to the statistics since. */
  datatype StatLog = StatLog(start: nat, ops: seq<StatOp>)

  /** A report that gets past reconciliation flushes if it was reconciled, is sampled, and flushes if it changed the
      quota. */
  ghost function ReportOps(cpu: CpuCounters, fair: Word, leak: int, c: Container, u: Usage): seq<StatOp> {
    if Tolerated(c, u.rxQuota) then [] else
      (if Mismatch(c, u.rxQuota) then [Reset] else []) + [Reading(u.rtRemaining, u.throttled)] +
      (if AsksQuota(cpu, fair, leak, c, u) && Accepts(c, u) then [Reset] else [])
  }

  ghost function OpsOf(s: State, e: Event, id: ContainerId): seq<StatOp> {
    if e.CpuReport? && e.id == id && id in s.reg then
      ReportOps(s.cpu, s.fair, s.leak, Back(s.reg[id]), e.usage)
    else if e.IdleCheck? && e.id == id && id in s.reg
         && NeedsIdleReset(Back(s.reg[id]), e.now) && Back(s.reg[id]).inserted && e.rpcOk then
      [Reset]
    else
      []
  }

  ghost function LogOn(s: State, e: Event, id: ContainerId, log: StatLog): StatLog {
    if e.Admit? && e.id == id then StatLog(e.throttled, []) else StatLog(log.start, log.ops + OpsOf(s, e, id))
  }

  /** The log of the newest container under an id after a run, given `log` before it. */
  ghost function StatsLog(s: State, es: seq<Event>, id: ContainerId, log: StatLog): StatLog
    decreases es
  {
    if es == [] || !Step(s, es[0]).Running? then log
    else StatsLog(Step(s, es[0]).state, es[1..], id, LogOn(s, es[0], id, log))
  }

  ghost function Base(start: nat): Container { NewContainer(0, 0, start, 0, false) }

  /** The container's statistics are what the log replays to. */
  ghost predicate StatsAre(c: Container, log: StatLog) {
    var r := ReplayStats(Base(log.start), log.ops);
    c.rt == r.rt && c.th == r.th && c.throttled == r.throttled
  }

  ghost predicate LoggedIn(reg: Registry, id: ContainerId, log: StatLog) {
    id in reg ==> StatsAre(Back(reg[id]), log)
  }

  lemma ReplayMore(c: Container, ops: seq<StatOp>, op: StatOp)
    ensures ReplayStats(c, ops + [op]) ==
            match op
            case Reading(rt, th) => Sample(ReplayStats(c, ops), rt, th)
            case Reset => FlushStats(ReplayStats(c, ops))
  {
    assert (ops + [op])[..|ops|] == ops;
  }

  lemma Sampled(c: Container, log: StatLog, rt: nat, th: nat)
    requires StatsAre(c, log)
    ensures StatsAre(Sample(c, rt, th), StatLog(log.start, log.ops + [Reading(rt, th)]))
  {
    hide ReplayStats, Insert;
    ReplayMore(Base(log.start), log.ops, Reading(rt, th));
  }

  lemma Flushed(c: Container, log: StatLog)
    requires StatsAre(c, log)
    ensures StatsAre(FlushStats(c), StatLog(log.start, log.ops + [Reset]))
  {
    hide ReplayStats, Flush;
    ReplayMore(Base(log.start), log.ops, Reset);
  }

  /** Only the statistics matter. */
  lemma SameStats(c: Container, c': Container, log: StatLog)
    requires StatsAre(c, log) && c'.rt == c.rt && c'.th == c.th && c'.throttled == c.throttled
    ensures StatsAre(c', log)
  {
    hide ReplayStats;
  }

  lemma ObservedStats(c: Container, u: Usage, log: StatLog)
    requires StatsAre(c, log)
    ensures StatsAre(Observed(c, u), StatLog(log.start, log.ops + (if Mismatch(c, u.rxQuota) then [Reset] else []) +
                                                        [Reading(u.rtRemaining, u.throttled)]))
  {
    hide StatsAre, Sample, FlushStats;
    var c1 := Touch(c, u);
    SameStats(c, c1, log);
    if Mismatch(c, u.rxQuota) {
      Flushed(c1, log);
      var log' := StatLog(log.start, log.ops + [Reset]);
      SameStats(FlushStats(c1), ContainerAfter(c1, u.rxQuota), log');
      Sampled(ContainerAfter(c1, u.rxQuota), log', u.rtRemaining, u.throttled);
    } else {
      assert log.ops + [] == log.ops;
      Sampled(c1, log, u.rtRemaining, u.throttled);
    }
  }

  lemma SettledStats(c: Container, v: Verdict, log: StatLog)
    requires StatsAre(c, log)
    ensures StatsAre(SettleContainer(c, v), StatLog(log.start, log.ops + if v.Keep? then [] else [Reset]))
  {
    hide StatsAre, FlushStats;
    assert log.ops + [] == log.ops;
    if !v.Keep? {
      Flushed(c, log);
      SameStats(FlushStats(c), SetQuota(c, v.quota), StatLog(log.start, log.ops + [Reset]));
    }
  }

  lemma ReportStats(cpu: CpuCounters, fair: Word, leak: int, c: Container, u: Usage, log: StatLog)
    requires StatsAre(c, log)
    ensures StatsAre(Report(cpu, fair, leak, c, u).2, StatLog(log.start, log.ops + ReportOps(cpu, fair, leak, c, u)))
  {
    hide StatsAre, SettleContainer, VerdictOn, Observed, RepairLeak, CountersAfter, Mismatch;
    if Tolerated(c, u.rxQuota) {
      assert log.ops + [] == log.ops;
      SameStats(c, Touch(c, u).(mismatches := c.mismatches + 1), log);
    } else {
      var v := VerdictOn(RepairLeak(CountersAfter(cpu, c, u.rxQuota), leak).0, fair, Observed(c, u), u, IsIdle(c, u.now));
      var ops1 := (if Mismatch(c, u.rxQuota) then [Reset] else []) + [Reading(u.rtRemaining, u.throttled)];
      var log1 := StatLog(log.start, log.ops + ops1);
      ObservedStats(c, u, log);
      assert log.ops + ops1 == log.ops + (if Mismatch(c, u.rxQuota) then [Reset] else []) + [Reading(u.rtRemaining, u.throttled)];
      SettledStats(Observed(c, u), v, log1);
      assert Observed(c, u).inserted == c.inserted by { ObservedInserted(c, u); }
      var last := if Accepts(c, u) && !v.Keep? then [Reset] else [];
      assert log.ops + ReportOps(cpu, fair, leak, c, u) == log1.ops + last;
      assert log1.ops + [] == log1.ops;
    }
  }

  lemma ObservedInserted(c: Container, u: Usage)
    ensures Observed(c, u).inserted == c.inserted
  {
  }

  lemma UpdateLogged(reg: Registry, j: ContainerId, c: Container, id: ContainerId, log: StatLog, log': StatLog)
    requires j in reg && LoggedIn(reg, id, log)
    requires if j == id then StatsAre(c, log') else log' == log
    ensures LoggedIn(Update(reg, j, c), id, log')
  {
    hide StatsAre;
  }

  lemma PushLogged(reg: Registry, j: ContainerId, c: Container, id: ContainerId, log: StatLog, log': StatLog)
    requires LoggedIn(reg, id, log)
    requires if j == id then StatsAre(c, log') else log' == log
    ensures LoggedIn(Push(reg, j, c), id, log')
  {
    hide StatsAre;
  }

  lemma PopLogged(reg: Registry, j: ContainerId, id: ContainerId, log: StatLog)
    requires j in reg && LoggedIn(reg, id, log)
    ensures LoggedIn(Pop(reg, j), id, log)
  {
    hide StatsAre;
  }

  lemma LimitsLogged(reg: Registry, reg': Registry, id: ContainerId, log: StatLog)
    requires OnlyLimitsDiffer(reg, reg') && LoggedIn(reg, id, log)
    ensures LoggedIn(reg', id, log)
  {
    if id in reg {
      assert QueueFramed(reg[id], reg'[id]);
      SameStats(Back(reg[id]), Back(reg'[id]), log);
    }
  }

  lemma NewLogged(fd: int, quota: Word, throttled: nat, now: int, inserted: bool)
    ensures StatsAre(NewContainer(fd, quota, throttled, now, inserted), StatLog(throttled, []))
  {
  }

  lemma LoggedBack(reg: Registry, id: ContainerId, log: StatLog)
    requires LoggedIn(reg, id, log) && id in reg
    ensures StatsAre(Back(reg[id]), log)
  {
  }

  lemma IdleLogged(s: State, id: ContainerId, j: ContainerId, log: StatLog)
    requires LoggedIn(s.reg, id, log) && j in s.reg
    ensures LoggedIn(Update(s.reg, j, IdleReset(s.cpu, Back(s.reg[j])).1), id,
                     StatLog(log.start, log.ops + if j == id then [Reset] else []))
  {
    hide LoggedIn, Update, StatsAre, FlushStats;
    assert log.ops + [] == log.ops;
    var c := Back(s.reg[j]);
    if j == id {
      LoggedBack(s.reg, id, log);
      Flushed(c, log);
      SameStats(FlushStats(c), IdleReset(s.cpu, c).1, StatLog(log.start, log.ops + [Reset]));
    }
    UpdateLogged(s.reg, j, IdleReset(s.cpu, c).1, id, log, StatLog(log.start, log.ops + if j == id then [Reset] else []));
  }

  lemma ReportLogged(s: State, e: Event, id: ContainerId, log: StatLog)
    requires e.CpuReport? && e.id in s.reg && LoggedIn(s.reg, id, log)
    ensures LoggedIn(ReportStep(s, e.id, e.usage).reg, id, LogOn(s, e, id, log))
  {
    hide LoggedIn, Update, StatsAre, Report, ReportOps;
    assert log.ops + [] == log.ops;
    var c := Back(s.reg[e.id]);
    if e.id == id {
      LoggedBack(s.reg, id, log);
      ReportStats(s.cpu, s.fair, s.leak, c, e.usage, log);
    }
    UpdateLogged(s.reg, e.id, Report(s.cpu, s.fair, s.leak, c, e.usage).2, id, log, LogOn(s, e, id, log));
  }

  lemma StepLogged(s: State, e: Event, id: ContainerId, log: StatLog)
    requires LoggedIn(s.reg, id, log) && Step(s, e).Running?
    ensures LoggedIn(Step(s, e).state.reg, id, LogOn(s, e, id, log))
  {
    StepIsEffect(s, e);
    hide Step, LoggedIn, StatsAre, Report, ReportOps, ReportStep, IdleReset, NeedsIdleReset, Admission, NewContainer,
         Push, Pop, Update, Release, Credit, FairShare;
    assert log.ops + [] == log.ops;
    match e
    case CpuReport(_, _) => ReportLogged(s, e, id, log);
    case IdleCheck(j, _, _) =>
      if j in s.reg {
        IdleLogged(s, id, j, log);
      }
    case Admit(j, fd, req, throttled, now, found) =>
      var quota := Admission(s.cpu, req).1;
      NewLogged(fd, quota, throttled, now, found);
      PushLogged(s.reg, j, NewContainer(fd, quota, throttled, now, found), id, log, LogOn(s, e, id, log));
    case DeletePod(docker) =>
      if Resolves(s, docker) {
        PopLogged(s.reg, s.dockers[docker], id, log);
      }
    case PodSpec(_, _) =>
    case _ =>
      hide Effect;
      MemoryStepFrames(s, e);
      LimitsLogged(s.reg, Step(s, e).state.reg, id, log);
  }

  lemma {:induction false} RunLogged(s: State, es: seq<Event>, id: ContainerId, log: StatLog)
    requires LoggedIn(s.reg, id, log) && Run(s, es).Running?
    ensures LoggedIn(Run(s, es).state.reg, id, StatsLog(s, es, id, log))
    decreases es
  {
    hide Step, LoggedIn, LogOn;
    if es != [] {
      StepLogged(s, es[0], id, log);
      RunLogged(Step(s, es[0]).state, es[1..], id, LogOn(s, es[0], id, log));
    }
  }

  /** In every run and for every registered id whose throttle counter is read monotonically, the mean of the newest
      container's throttle window times the readings it covers is the growth of the counter since the later of ten
      handled reports ago and the last change of the quota. */
  lemma ThrottleOverRuns(cpuLimit: nat, memLimit: nat, es: seq<Event>, id: ContainerId)
    requires var out := Run(AppSpec(cpuLimit, memLimit), es); out.Running? && id in out.state.reg
    requires var log := StatsLog(AppSpec(cpuLimit, memLimit), es, id, StatLog(0, [])); Monotone32(Counters(log.start, log.ops))
    ensures var s := AppSpec(cpuLimit, memLimit);
            var log := StatsLog(s, es, id, StatLog(0, []));
            CoversGrowth(Back(Run(s, es).state.reg[id]).th.mean, Counters(log.start, log.ops), LastReset(log.start, log.ops))
  {
    var s := AppSpec(cpuLimit, memLimit);
    var log := StatsLog(s, es, id, StatLog(0, []));
    RunLogged(s, es, id, StatLog(0, []));
    LoggedBack(Run(s, es).state.reg, id, log);
    hide Run, StatsLog, ReplayStats, Counters, LastReset, Monotone32, CoversGrowth;
    ThrottleTelescopes(0, 0, log.start, 0, false, log.ops);
  }

  /** In every run and for every registered id, the mean of the newest container's runtime window times the readings it
      covers is the sum of the runtime left over in the reports handled since the later of ten such reports ago and the
      last change of the quota. */
  lemma RuntimeOverRuns(cpuLimit: nat, memLimit: nat, es: seq<Event>, id: ContainerId)
    requires var out := Run(AppSpec(cpuLimit, memLimit), es); out.Running? && id in out.state.reg
    ensures var s := AppSpec(cpuLimit, memLimit);
            var log := StatsLog(s, es, id, StatLog(0, []));
            CoversSum(Back(Run(s, es).state.reg[id]).rt.mean, LeftOver(log.ops), FlushedReadings(log.ops))
  {
    var s := AppSpec(cpuLimit, memLimit);
    var log := StatsLog(s, es, id, StatLog(0, []));
    RunLogged(s, es, id, StatLog(0, []));
    LoggedBack(Run(s, es).state.reg, id, log);
    hide Run, StatsLog, ReplayStats, LeftOver, FlushedReadings, CoversSum;
    RuntimeSums(Base(log.start), log.ops);
  }
}
