/** When a container was last heard of, over whole runs and from the events alone; and so when the idle sweep resets it. */
module Clocks {
  import opened Words
  import opened Containers
  import opened CpuControl
  import opened MemControl
  import opened Controller
  import opened CpuLedger
  import opened ReportOutcomes

  /** What the last admission or report under an id said. */
  datatype Heard = Nothing | Heard(now: int, seqNum: int, agentFound: bool)

  /** An admission starts anew, a report brings its time and sequence number. */
  function HeardOn(h: Heard, e: Event, id: ContainerId): Heard {
    match e
    case Admit(j, _, _, _, now, agentFound) => if j == id then Heard(now, 0, agentFound) else h
    case CpuReport(j, u) => if j == id && h.Heard? then h.(now := u.now, seqNum := u.seqNum) else h
    case _ => h
  }

  /** What is heard of an id in a sequence of events: the time of the last admission or report, its sequence number (0 at
      admission), and whether the last admission found an agent. */
  function LastHeard(es: seq<Event>, id: ContainerId): Heard {
    if es == [] then Nothing else HeardOn(LastHeard(es[..|es| - 1], id), es[|es| - 1], id)
  }

  ghost predicate HeardAs(c: Container, h: Heard) {
    h.Heard? && c.lastSeen == h.now && c.seqNum == h.seqNum && c.inserted == h.agentFound
  }

  ghost predicate HeardIn(reg: Registry, id: ContainerId, h: Heard) {
    id in reg ==> HeardAs(Back(reg[id]), h)
  }

  lemma ReportIsHeard(cpu: CpuCounters, fair: Word, leak: int, c: Container, u: Usage)
    ensures var c' := Report(cpu, fair, leak, c, u).2;
            c'.lastSeen == u.now && c'.seqNum == u.seqNum && c'.inserted == c.inserted
  {
    hide VerdictOn, RepairLeak, CountersAfter, SettleCounters, Mismatch;
  }

  lemma UpdateHeard(reg: Registry, j: ContainerId, c: Container, id: ContainerId, h: Heard, h': Heard)
    requires j in reg && HeardIn(reg, id, h)
    requires if j == id then HeardAs(c, h') else h' == h
    ensures HeardIn(Update(reg, j, c), id, h')
  {
  }

  lemma PushHeard(reg: Registry, j: ContainerId, c: Container, id: ContainerId, h: Heard, h': Heard)
    requires HeardIn(reg, id, h)
    requires if j == id then HeardAs(c, h') else h' == h
    ensures HeardIn(Push(reg, j, c), id, h')
  {
  }

  lemma PopHeard(reg: Registry, j: ContainerId, id: ContainerId, h: Heard)
    requires j in reg && HeardIn(reg, id, h)
    ensures HeardIn(Pop(reg, j), id, h)
  {
  }

  lemma LimitsHeard(reg: Registry, reg': Registry, id: ContainerId, h: Heard)
    requires OnlyLimitsDiffer(reg, reg') && HeardIn(reg, id, h)
    ensures HeardIn(reg', id, h)
  {
    if id in reg {
      assert QueueFramed(reg[id], reg'[id]);
    }
  }

  lemma HeardBack(reg: Registry, id: ContainerId, h: Heard)
    requires HeardIn(reg, id, h) && id in reg
    ensures HeardAs(Back(reg[id]), h)
  {
  }

  lemma StepHeard(s: State, e: Event, id: ContainerId, h: Heard)
    requires HeardIn(s.reg, id, h) && Step(s, e).Running?
    ensures HeardIn(Step(s, e).state.reg, id, HeardOn(h, e, id))
  {
    StepIsEffect(s, e);
    hide Step, HeardIn, Report, IdleReset, Admission, Push, Pop, Update, Release, Credit, FairShare;
    match e
    case CpuReport(j, u) =>
      var c := Back(s.reg[j]);
      ReportIsHeard(s.cpu, s.fair, s.leak, c, u);
      if j == id {
        HeardBack(s.reg, id, h);
      }
      UpdateHeard(s.reg, j, Report(s.cpu, s.fair, s.leak, c, u).2, id, h, HeardOn(h, e, id));
    case IdleCheck(j, _, _) =>
      if j in s.reg {
        var c := Back(s.reg[j]);
        if j == id {
          HeardBack(s.reg, id, h);
        }
        ResetIsUnheard(s.cpu, c);
        UpdateHeard(s.reg, j, IdleReset(s.cpu, c).1, id, h, h);
      }
    case Admit(j, fd, req, throttled, now, found) =>
      PushHeard(s.reg, j, NewContainer(fd, Admission(s.cpu, req).1, throttled, now, found), id, h, HeardOn(h, e, id));
    case DeletePod(docker) =>
      if Resolves(s, docker) {
        PopHeard(s.reg, s.dockers[docker], id, h);
      }
    case PodSpec(_, _) =>
    case _ =>
      hide Effect;
      MemoryStepFrames(s, e);
      LimitsHeard(s.reg, Step(s, e).state.reg, id, h);
  }

  lemma ResetIsUnheard(cpu: CpuCounters, c: Container)
    ensures var c' := IdleReset(cpu, c).1;
            c'.lastSeen == c.lastSeen && c'.seqNum == c.seqNum && c'.inserted == c.inserted
  {
  }

  lemma {:induction false} RunSnoc(s: State, es: seq<Event>)
    requires es != [] && Run(s, es).Running?
    ensures var init := es[..|es| - 1];
            Run(s, init).Running? && Step(Run(s, init).state, es[|es| - 1]) == Run(s, es)
    decreases es
  {
    hide Step;
    if |es| == 1 {
      assert es == [es[0]] && es[..0] == [];
      RunOne(s, es[0]);
    } else {
      RunSnoc(Step(s, es[0]).state, es[1..]);
      assert es[..|es| - 1][1..] == es[1..][..|es| - 2];
    }
  }

  lemma {:induction false} RunHeard(s: State, es: seq<Event>, id: ContainerId)
    requires s.reg == map[] && Run(s, es).Running?
    ensures HeardIn(Run(s, es).state.reg, id, LastHeard(es, id))
  {
    if es != [] {
      RunSnoc(s, es);
      var init, e := es[..|es| - 1], es[|es| - 1];
      RunHeard(s, init, id);
      hide Step, Run, HeardIn;
      StepHeard(Run(s, init).state, e, id, LastHeard(init, id));
    }
  }

  /** In every run from the application spec, the newest container under a registered id carries the time and the sequence
      number of the last report to it, tolerated or not, or else of its admission, and knows whether that admission found
      an agent. */
  lemma LastSeenOverRuns(cpuLimit: nat, memLimit: nat, es: seq<Event>, id: ContainerId)
    requires var out := Run(AppSpec(cpuLimit, memLimit), es); out.Running? && id in out.state.reg
    ensures var c, h := Back(Run(AppSpec(cpuLimit, memLimit), es).state.reg[id]), LastHeard(es, id);
            h.Heard? && c.lastSeen == h.now && c.seqNum == h.seqNum && c.inserted == h.agentFound
  {
    hide Run, LastHeard;
    RunHeard(AppSpec(cpuLimit, memLimit), es, id);
  }

  /** The idle sweep resets a container if and only if it was last heard of more than two seconds ago, its quota is not
      30 ms already, its admission found an agent and the agent accepts; then it is on 30 ms, and the pool and the
      allocation pay for the difference as far as they can. Otherwise nothing changes. */
  lemma IdleCheckOutcome(cpuLimit: nat, memLimit: nat, es: seq<Event>, id: ContainerId, now: int, rpcOk: bool)
    requires var out := Run(AppSpec(cpuLimit, memLimit), es); out.Running? && id in out.state.reg
    requires Step(Run(AppSpec(cpuLimit, memLimit), es).state, IdleCheck(id, now, rpcOk)).Running?
    ensures var t := Run(AppSpec(cpuLimit, memLimit), es).state;
            var t', h, quota := Step(t, IdleCheck(id, now, rpcOk)).state, LastHeard(es, id), Back(t.reg[id]).quota;
            && h.Heard?
            && var resets := now - h.now > 2_000_000 && quota != 30_000_000 && h.agentFound && rpcOk;
               && (!resets ==> t' == t)
               && (resets ==> QuotaIs(t', id, 30_000_000))
               && var payable := quota - 30_000_000 <= t.cpu.alloc && 30_000_000 - quota <= t.cpu.unalloc;
                  (resets && Small(t) && payable ==> PoolGives(t.cpu, t'.cpu, 30_000_000 - quota))
  {
    hide Run, LastHeard, AppSpec, Step, QuotaIs, PoolGives, SmallCpu;
    LastSeenOverRuns(cpuLimit, memLimit, es, id);
    var t := Run(AppSpec(cpuLimit, memLimit), es).state;
    if Small(t) {
      BackIsSmall(t.reg, id);
    }
    IdleStepOutcome(t, id, now, rpcOk);
  }

  lemma IdleStepOutcome(t: State, id: ContainerId, now: int, rpcOk: bool)
    requires id in t.reg && Step(t, IdleCheck(id, now, rpcOk)).Running?
    ensures var t', c := Step(t, IdleCheck(id, now, rpcOk)).state, Back(t.reg[id]);
            var resets := now - c.lastSeen > 2_000_000 && c.quota != 30_000_000 && c.inserted && rpcOk;
            && (!resets ==> t' == t)
            && (resets ==> QuotaIs(t', id, 30_000_000))
            && var payable := c.quota - 30_000_000 <= t.cpu.alloc && 30_000_000 - c.quota <= t.cpu.unalloc;
               (resets && SmallCpu(t.cpu) && c.quota < TWO63 && payable ==> PoolGives(t.cpu, t'.cpu, 30_000_000 - c.quota))
  {
  }
}
