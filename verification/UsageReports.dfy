/** The usage-report handler, branch by branch, on the CPU pool and one container. */
module UsageReports {
  import opened Words
  import opened Windows
  import opened Containers
  import opened CpuControl
  import opened Shares
  import opened Pools
  import opened SubContainers

  /** What becomes of a request for a new quota. */
  datatype ResizeReply = NotAsked | Waits | NoAgent | Declined | Accepted

  function Answer(c: Container, agent: bool, rpcOk: bool): ResizeReply {
    if !c.inserted then Waits else if !agent then NoAgent else if rpcOk then Accepted else Declined
  }

  function ReplyTo(c: Container, agent: bool, u: Usage, v: Verdict): ResizeReply {
    if v.Keep? then NotAsked else Answer(c, agent, u.rpcOk)
  }

  /** Without an agent nobody accepts. */
  function Heard(u: Usage, agent: bool): Usage {
    u.(rpcOk := agent && u.rpcOk)
  }

  /** Ask the agent for a new quota. The handler of a container whose admission found no agent waits here for ever. */
  method SetScQuotaSyscall(sc: SubContainer, agent: bool, rpcOk: bool) returns (reply: ResizeReply)
    requires sc.Valid()
    ensures reply == Answer(sc.View(), agent, rpcOk)
  {
    if !sc.inserted {
      return Waits;
    }
    if !agent {
      return NoAgent;
    }
    return if rpcOk then Accepted else Declined;
  }

  /** Adopt a new quota: the statistics of the old one no longer apply. */
  method AdoptQuota(sc: SubContainer, quota: Word)
    requires sc.Valid()
    modifies sc.Footprint()
    ensures sc.Valid() && sc.View() == SetQuota(old(sc.View()), quota)
  {
    sc.SetQuotaTo(quota);
    sc.FlushWindows();
  }

  method ReconcileQuota(cpu: CpuPool, sc: SubContainer, rxQuota: Word)
    requires sc.Valid() && Mismatch(sc.View(), rxQuota)
    modifies cpu, sc.Footprint()
    ensures sc.Valid()
    ensures cpu.View() == CountersAfter(old(cpu.View()), old(sc.View()), rxQuota)
    ensures sc.View() == ContainerAfter(old(sc.View()), rxQuota)
  {
    if rxQuota < sc.quota {
      var diff := sc.quota - rxQuota;
      AdoptQuota(sc, rxQuota);
      cpu.DecrAllocRt(diff);
      cpu.IncrUnallocatedRt(diff);
    } else {
      var diff := rxQuota - sc.quota;
      cpu.DecrUnallocatedRt(diff);
      AdoptQuota(sc, rxQuota);
      cpu.IncrAllocRt(diff);
    }
    sc.ResetQuotaMismatchCounter();
  }

  method FixLeak(cpu: CpuPool, leak: int) returns (leak': int)
    modifies cpu
    ensures (cpu.View(), leak') == RepairLeak(old(cpu.View()), leak)
  {
    var totalRtInSys := Wrap(cpu.allocRt + cpu.unallocatedRt);
    leak' := leak + (Signed(cpu.totalCpu) - Signed(totalRtInSys));
    if leak' >= MAX_CPU_LOSS {
      cpu.IncrUnallocatedRt(Wrap(leak'));
      leak' := 0;
    }
  }

  method WakeFromIdle(cpu: CpuPool, sc: SubContainer, u: Usage, agent: bool) returns (reply: ResizeReply)
    requires sc.Valid() && cpu.unallocatedRt > 0
    modifies cpu, sc.Footprint()
    ensures sc.Valid()
    ensures var v := Changed(Grant(MinWord(old(cpu.unallocatedRt), ONE_CORE)), u.rxQuota);
            && reply == ReplyTo(old(sc.View()), agent, u, v)
            && (cpu.View(), sc.View()) == Apply(old(cpu.View()), old(sc.View()), Heard(u, agent), v)
  {
    var newQuota := MinWord(cpu.unallocatedRt, ONE_CORE);
    var extraRt := Wrap(newQuota - u.rxQuota);
    reply := NotAsked;
    if extraRt > 0 {
      reply := SetScQuotaSyscall(sc, agent, u.rpcOk);
      if reply.Accepted? {
        cpu.DecrUnallocatedRt(extraRt);
        AdoptQuota(sc, newQuota);
        cpu.IncrAllocRt(extraRt);
      }
    }
  }

  /** The amount asked back from a container above its fair share, before it is capped by the overrun: with a fair share
      of at least one slice part of the excess, all of it or at least half a slice; more than the whole quota exactly
      on the inputs of `AsksTooMuch`. */
  method AmountOver(fair: Word, slice: Word, rxQuota: Word) returns (toSub: Word)
    requires rxQuota > fair
    ensures toSub == OverrunShare(fair, slice, rxQuota)
    ensures 2 <= slice <= fair ==> 1 <= toSub <= rxQuota - fair && (toSub == rxQuota - fair || toSub >= slice / 2)
    ensures rxQuota < TWO63 ==> (toSub > rxQuota <==> AsksTooMuch(fair, slice, rxQuota))
  {
    if 2 <= slice <= fair {
      OverrunShareBounds(fair, slice, rxQuota);
    }
    if rxQuota < TWO63 {
      ShareExceedsIff(fair, slice, rxQuota);
    }
    hide Percent, Scaled, AsksTooMuch;
    var amountShareOver := rxQuota - fair;
    if fair == 0 {
      toSub := MAX_WORD;
    } else {
      var percentOver := Percent(amountShareOver, fair);
      if percentOver > 1.0 {
        toSub := Scaled(percentOver, slice);
      } else {
        toSub := Scaled(percentOver, amountShareOver);
      }
    }
    if toSub < slice / 2 {
      toSub := amountShareOver;
    }
  }

  method ReclaimOverrun(cpu: CpuPool, fair: Word, sc: SubContainer, u: Usage, agent: bool) returns (reply: ResizeReply)
    requires sc.Valid() && cpu.overrun > 0 && u.rxQuota > fair
    modifies cpu, sc.Footprint()
    ensures sc.Valid()
    ensures var v := Repay(Wrap(u.rxQuota - MinWord(old(cpu.overrun), OverrunShare(fair, old(cpu.sliceSize), u.rxQuota))));
            && reply == ReplyTo(old(sc.View()), agent, u, v)
            && (cpu.View(), sc.View()) == Apply(old(cpu.View()), old(sc.View()), Heard(u, agent), v)
  {
    hide OverrunShare, Wrap, SatSub, AddWord;
    var toSub := AmountOver(fair, cpu.sliceSize, u.rxQuota);
    toSub := MinWord(cpu.overrun, toSub);
    WrapUndoes(u.rxQuota, toSub);
    var updatedQuota := Wrap(u.rxQuota - toSub);
    reply := SetScQuotaSyscall(sc, agent, u.rpcOk);
    if reply.Accepted? {
      cpu.DecrOverrun(toSub);
      AdoptQuota(sc, updatedQuota);
      cpu.DecrAllocRt(toSub);
    }
  }

  /** The amount a container below its fair share should gain, before it is capped by the pool: never more than it
      lacks, all of it within half a slice, and nothing exactly when a wider gap squared is below the fair share. */
  method AmountLacking(fair: Word, slice: Word, rxQuota: Word) returns (toAdd: Word)
    requires rxQuota < fair
    ensures toAdd == RaiseShare(fair, slice, rxQuota)
    ensures toAdd <= fair - rxQuota
    ensures fair - rxQuota <= slice / 2 ==> toAdd == fair - rxQuota
    ensures toAdd == 0 <==> fair - rxQuota > slice / 2 && (fair - rxQuota) * (fair - rxQuota) < fair
  {
    RaiseShareBounds(fair, slice, rxQuota);
    RaiseShareIsZero(fair, slice, rxQuota);
    hide Percent, Scaled;
    var lacking := fair - rxQuota;
    if lacking > slice / 2 {
      var percentUnder := Percent(lacking, fair);
      toAdd := Scaled(percentUnder, lacking);
    } else {
      toAdd := lacking;
    }
  }

  /** Raise the reported quota by an amount paid from the pool. */
  method TakeFromPool(cpu: CpuPool, sc: SubContainer, u: Usage, agent: bool, toAdd: Word) returns (reply: ResizeReply)
    requires sc.Valid()
    modifies cpu, sc.Footprint()
    ensures sc.Valid()
    ensures var v := Grant(Wrap(u.rxQuota + toAdd));
            && reply == ReplyTo(old(sc.View()), agent, u, v)
            && (cpu.View(), sc.View()) == Apply(old(cpu.View()), old(sc.View()), Heard(u, agent), v)
  {
    hide Wrap, SatSub, AddWord;
    WrapUndoes(u.rxQuota, toAdd);
    var updatedQuota := Wrap(u.rxQuota + toAdd);
    reply := SetScQuotaSyscall(sc, agent, u.rpcOk);
    if reply.Accepted? {
      cpu.DecrUnallocatedRt(toAdd);
      AdoptQuota(sc, updatedQuota);
      cpu.IncrAllocRt(toAdd);
    }
  }

  /** Raise the reported quota by an amount nobody owns, recorded as overrun. */
  method TakeAsOverrun(cpu: CpuPool, sc: SubContainer, u: Usage, agent: bool, overrun: Word) returns (reply: ResizeReply)
    requires sc.Valid()
    modifies cpu, sc.Footprint()
    ensures sc.Valid()
    ensures var v := Borrow(Wrap(u.rxQuota + overrun));
            && reply == ReplyTo(old(sc.View()), agent, u, v)
            && (cpu.View(), sc.View()) == Apply(old(cpu.View()), old(sc.View()), Heard(u, agent), v)
  {
    hide Wrap, SatSub, AddWord;
    WrapUndoes(u.rxQuota, overrun);
    var updatedQuota := Wrap(u.rxQuota + overrun);
    reply := SetScQuotaSyscall(sc, agent, u.rpcOk);
    if reply.Accepted? {
      cpu.IncrOverrun(overrun);
      AdoptQuota(sc, updatedQuota);
      cpu.IncrAllocRt(overrun);
    }
  }

  method RaiseToFairShare(cpu: CpuPool, fair: Word, sc: SubContainer, u: Usage, agent: bool) returns (reply: ResizeReply)
    requires sc.Valid() && u.rxQuota < fair
    modifies cpu, sc.Footprint()
    ensures sc.Valid()
    ensures var v := Raise(old(cpu.View()), fair, u.rxQuota);
            && reply == ReplyTo(old(sc.View()), agent, u, v)
            && (cpu.View(), sc.View()) == Apply(old(cpu.View()), old(sc.View()), Heard(u, agent), v)
  {
    hide RaiseShare, Apply, Wrap;
    var lacking := fair - u.rxQuota;
    var share := AmountLacking(fair, cpu.sliceSize, u.rxQuota);
    if cpu.unallocatedRt > 0 {
      if lacking > cpu.sliceSize / 2 {
        reply := TakeFromPool(cpu, sc, u, agent, MinWord(cpu.unallocatedRt, share));
      } else {
        reply := TakeFromPool(cpu, sc, u, agent, share);
      }
    } else {
      reply := TakeAsOverrun(cpu, sc, u, agent, share);
    }
  }

  method GrantThrottled(cpu: CpuPool, sc: SubContainer, u: Usage, agent: bool, thrMean: real) returns (reply: ResizeReply)
    requires sc.Valid() && cpu.unallocatedRt > 0
    modifies cpu, sc.Footprint()
    ensures sc.Valid()
    ensures var v := Changed(Grant(Wrap(u.rxQuota + MinWord(old(cpu.unallocatedRt), ThrottleShare(old(cpu.sliceSize), thrMean)))), u.rxQuota);
            && reply == ReplyTo(old(sc.View()), agent, u, v)
            && (cpu.View(), sc.View()) == Apply(old(cpu.View()), old(sc.View()), Heard(u, agent), v)
  {
    hide Scaled, Apply;
    var extraRt := MinWord(cpu.unallocatedRt, Scaled(20.0 * thrMean, cpu.sliceSize));
    if extraRt > 0 {
      reply := TakeFromPool(cpu, sc, u, agent, extraRt);
    } else {
      reply := NotAsked;
      KeepChangesNothing(cpu.View(), sc.View(), Heard(u, agent));
    }
  }

  /** Give back runtime: both the "20% unused" and the "unused on average" branch end like this. */
  method ShrinkTo(cpu: CpuPool, sc: SubContainer, u: Usage, agent: bool, newQuota: Word) returns (reply: ResizeReply)
    requires sc.Valid()
    modifies cpu, sc.Footprint()
    ensures sc.Valid()
    ensures var v := Changed(Return(newQuota), u.rxQuota);
            && reply == ReplyTo(old(sc.View()), agent, u, v)
            && (cpu.View(), sc.View()) == Apply(old(cpu.View()), old(sc.View()), Heard(u, agent), v)
  {
    reply := NotAsked;
    if newQuota != u.rxQuota {
      reply := SetScQuotaSyscall(sc, agent, u.rpcOk);
      if reply.Accepted? {
        cpu.IncrUnallocatedRt(Wrap(u.rxQuota - newQuota));
        AdoptQuota(sc, newQuota);
        cpu.DecrAllocRt(Wrap(u.rxQuota - newQuota));
      }
    }
  }

  /** The six resize branches, in the order the handler tries them. */
  method ResizeQuota(cpu: CpuPool, fair: Word, sc: SubContainer, u: Usage, agent: bool, idle: bool, rtMean: Word,
                     thrMean: real) returns (reply: ResizeReply)
    requires sc.Valid() && rtMean == Cast(sc.View().rt.mean) && thrMean == sc.View().th.mean
    modifies cpu, sc.Footprint()
    ensures sc.Valid()
    ensures reply == ReplyTo(old(sc.View()), agent, u, VerdictOn(old(cpu.View()), fair, old(sc.View()), u, idle))
    ensures (cpu.View(), sc.View()) == Resize(old(cpu.View()), fair, old(sc.View()), Heard(u, agent), idle)
  {
    hide Raise, OverrunShare, ThrottleShare, Apply, Changed, Answer;
    if idle && cpu.unallocatedRt > 0 {
      reply := WakeFromIdle(cpu, sc, u, agent);
    } else if cpu.overrun > 0 && u.rxQuota > fair {
      reply := ReclaimOverrun(cpu, fair, sc, u, agent);
    } else if u.rxQuota < fair && thrMean > 0.5 {
      reply := RaiseToFairShare(cpu, fair, sc, u, agent);
    } else if thrMean >= 0.1 && cpu.unallocatedRt > 0 {
      reply := GrantThrottled(cpu, sc, u, agent, thrMean);
    } else if u.rxQuota > 0 && Signed(u.rtRemaining) as real / u.rxQuota as real > 0.2 && u.rxQuota >= cpu.sliceSize {
      reply := ShrinkTo(cpu, sc, u, agent, MaxWord(cpu.sliceSize, Cast(u.rxQuota as real * 0.8)));
    } else if rtMean > MAX_UNUSED_RT && u.rxQuota > cpu.sliceSize {
      reply := ShrinkTo(cpu, sc, u, agent, MaxWord(cpu.sliceSize, Wrap(u.rxQuota - MAX_UNUSED_RT)));
    } else {
      reply := NotAsked;
      KeepChangesNothing(cpu.View(), sc.View(), Heard(u, agent));
    }
  }

  lemma KeepChangesNothing(cpu: CpuCounters, c: Container, u: Usage)
    ensures Apply(cpu, c, u, Keep) == (cpu, c)
  {
  }

  /** What follows once a report got past reconciliation: leak repair, the sample, and the resize. */
  method FinishReport(cpu: CpuPool, fair: Word, leak: int, sc: SubContainer, u: Usage, agent: bool, idle: bool)
    returns (leak': int, reply: ResizeReply)
    requires sc.Valid()
    modifies cpu, sc.Footprint()
    ensures sc.Valid()
    ensures var (cpu1, leak1) := RepairLeak(old(cpu.View()), leak);
            var c := Sample(old(sc.View()), u.rtRemaining, u.throttled);
            && leak' == leak1
            && (cpu.View(), sc.View()) == Resize(cpu1, fair, c, Heard(u, agent), idle)
            && reply == ReplyTo(c, agent, u, VerdictOn(cpu1, fair, c, u, idle))
  {
    hide Resize, RepairLeak, Sample, VerdictOn, ReplyTo;
    leak' := FixLeak(cpu, leak);
    var rtMean, thrMean := sc.InsertStats(u.rtRemaining, u.throttled);
    reply := ResizeQuota(cpu, fair, sc, u, agent, idle, rtMean, thrMean);
  }

  /** The whole handler for a registered container. */
  method ProcessReport(cpu: CpuPool, fair: Word, leak: int, sc: SubContainer, u: Usage, agent: bool)
    returns (leak': int, reply: ResizeReply)
    requires sc.Valid()
    modifies cpu, sc.Footprint()
    ensures sc.Valid()
    ensures (cpu.View(), leak', sc.View()) == Report(old(cpu.View()), fair, leak, old(sc.View()), Heard(u, agent))
    ensures reply == if AsksQuota(old(cpu.View()), fair, leak, old(sc.View()), u)
                     then Answer(old(sc.View()), agent, u.rpcOk) else NotAsked
  {
    hide Resize, RepairLeak, Sample, Flush, ReconcileCounters, VerdictOn, Answer;
    ghost var c := sc.View();
    HearingKeepsObserved(c, u, agent);
    var idle := sc.CheckIfIdle(u.now);
    sc.UpdateLastSeen(u.now);
    sc.SyncSeqNum(u.seqNum);
    if u.rxQuota / 1000 != sc.quota / 1000 {
      var before := sc.IncrQuotaMismatchCounter();
      if before > 2 {
        ReconcileQuota(cpu, sc, u.rxQuota);
      } else {
        return leak, NotAsked;
      }
    }
    leak', reply := FinishReport(cpu, fair, leak, sc, u, agent, idle);
  }

  lemma HearingKeepsObserved(c: Container, u: Usage, agent: bool)
    ensures Observed(c, Heard(u, agent)) == Observed(c, u) && Observed(c, u).inserted == c.inserted
    ensures Answer(Observed(c, u), agent, u.rpcOk) == Answer(c, agent, u.rpcOk)
  {
  }

  /** The idle sweep's reset of one idle container to 30 ms. */
  method ResetIdle(cpu: CpuPool, sc: SubContainer, agent: bool, rpcOk: bool) returns (reply: ResizeReply)
    requires sc.Valid()
    modifies cpu, sc.Footprint()
    ensures sc.Valid()
    ensures reply == if old(sc.View()).quota != MIN_QUOTA then Answer(old(sc.View()), agent, rpcOk) else NotAsked
    ensures (cpu.View(), sc.View()) ==
      if reply.Accepted? then IdleReset(old(cpu.View()), old(sc.View())) else (old(cpu.View()), old(sc.View()))
  {
    hide Wrap, SatSub, AddWord;
    reply := NotAsked;
    var idleQuota := sc.GetQuota();
    if idleQuota != MIN_QUOTA {
      reply := SetScQuotaSyscall(sc, agent, rpcOk);
      if reply.Accepted? {
        cpu.IncrUnallocatedRt(Wrap(idleQuota - MIN_QUOTA));
        AdoptQuota(sc, MIN_QUOTA);
        cpu.DecrAllocRt(Wrap(idleQuota - MIN_QUOTA));
      }
    }
  }
}
