/** The manager: every handler as a method on the objects, proved to make exactly its step of the state machine. */
module Managers {
  import opened Words
  import opened Sums
  import opened Containers
  import opened Agents
  import opened CpuControl
  import opened MemControl
  import opened Controller
  import opened SubContainers
  import opened UsageReports
  import opened ElasticContainers

  const CPU_REQUEST: nat := 0
  const MEM_REQUEST: nat := 1

  datatype AdmitReply = Admitted | AdmitWaits | AdmitExit
  datatype CpuReply = CpuFailed | CpuHandled | CpuWaits | CpuExit
  datatype SweepEnd = Completed | Stuck | SweepExit
  datatype MemReply = MemFailed | MemGranted(pages: nat) | MemExit
  datatype DeleteReply = Cancelled | Deleted(success: bool) | DeleteExit

  class Manager {
    const ec: ElasticContainer
    var cpuleak: int
    var sweepPages: nat  // what the running periodic sweep has reclaimed so far
    var deployedPods: map<ContainerId, seq<DockerId>>
    var dockerToSubContainer: map<DockerId, ContainerId>

    ghost predicate Valid()
      reads this, ec, ec.repr
    {
      ec.Valid() && this !in ec.repr
    }

    ghost function Abs(): State
      requires Valid()
      reads this, ec, ec.cpu, ec.mem, ec.repr
    {
      State(ec.cpu.View(), ec.fairCpuShare, cpuleak, ec.mem.View(), sweepPages, ec.Reg(), ec.scAcMap,
            deployedPods, dockerToSubContainer)
    }

    constructor ()
      ensures Valid()
      ensures Abs() == Fresh()
    {
      ec := new ElasticContainer();
      cpuleak, sweepPages, deployedPods, dockerToSubContainer := 0, 0, map[], map[];
    }

    /** The application's limits, in milli-cores and MiB. */
    method ReportAppSpec(cpuLimit: nat, memLimit: nat)
      requires Valid()
      modifies ec.cpu, ec.mem
      ensures Valid()
      ensures var a := AppSpec(cpuLimit, memLimit);
              Abs() == old(Abs()).(cpu := old(Abs()).cpu.(total := a.cpu.total, unalloc := a.cpu.unalloc),
                                   mem := old(Abs()).mem.(limit := a.mem.limit, unalloc := a.mem.unalloc, alloc := 0))
      ensures old(Abs()) == Fresh() ==> Abs() == AppSpec(cpuLimit, memLimit)
    {
      hide ValidMap, MapView, ElasticContainer.Reg;
      ec.cpu.SetTotalCpu(Wrap(cpuLimit * 100_000));
      ec.cpu.SetUnallocatedRt(ec.cpu.totalCpu);
      ec.mem.SetMemoryLimit(Wrap(memLimit * 1024 * 1024) / PAGE);
      ec.mem.SetUnallocated(Wrap(memLimit * 1024 * 1024) / PAGE);
      ec.mem.SetAllocated(0);
    }

    // ---------- CPU ----------

    method DetermineQuotaForNewPod(req: Word) returns (update: bool, quota: Word)
      requires Valid()
      modifies ec.cpu
      ensures Valid() && ec.Reg() == old(ec.Reg())
      ensures (ec.cpu.View(), quota) == Admission(old(ec.cpu.View()), req)
      ensures update <==> old(ec.cpu.unallocatedRt) < req
    {
      hide ValidMap, MapView, ElasticContainer.Reg;
      quota := req;
      update := false;
      if quota <= ec.cpu.unallocatedRt {
        ec.cpu.DecrUnallocatedRt(req);
        ec.cpu.IncrAllocRt(quota);
      } else if ec.cpu.unallocatedRt == 0 {
        quota := ec.cpu.sliceSize;
        ec.cpu.IncrOverrun(quota);
        update := true;
        ec.cpu.IncrAllocRt(quota);
      } else {
        quota := ec.cpu.unallocatedRt;
        ec.cpu.SetUnallocatedRt(0);
        update := true;
        ec.cpu.IncrAllocRt(quota);
      }
    }

    /** Admit a container. A quota other than the requested one is passed on to its agent; the handler waits for ever if
        the admission found none. */
    method HandleAddCgroup(id: ContainerId, fd: int, req: Word, throttled: nat, now: int, agentFound: bool)
      returns (reply: AdmitReply)
      requires Valid()
      modifies ec, ec.cpu, ec.repr
      ensures Valid() && fresh(ec.repr - old(ec.repr))
      ensures Abs() == AdmitStep(old(Abs()), id, fd, req, throttled, now, agentFound)
      ensures reply.AdmitExit? <==> Step(old(Abs()), Admit(id, fd, req, throttled, now, agentFound)).Exited?
      ensures reply.AdmitWaits? <==> old(Abs()).cpu.unalloc < req && !agentFound
    {
      hide ValidMap, MapView, ElasticContainer.Reg, Admission, Push, FairShare, NewContainer, Update,
           SubContainer.View, SubContainer.Valid, SubContainer.Footprint;
      ghost var before := ec.Reg();
      var update, quota := DetermineQuotaForNewPod(req);
      var sc := new SubContainer(id, fd, quota, throttled, now);
      ec.InsertSc(sc);
      ec.UpdateFairCpuShare();
      PushedEntry(before, id, fd, quota, throttled, now);
      if agentFound {
        ec.AddToScAcMap(id);
        ec.SameIds();
        SameCount(ec.Reg(), id, NewContainer(fd, quota, throttled, now, true));
        ec.SetInsertedBack(id);
      }
      if update {
        if !agentFound {
          return AdmitWaits;
        }
        var agent := ec.GetCorresAgentClient(id);
        if !agent {
          return AdmitExit;
        }
      }
      return Admitted;
    }

    method HandleCpuUsageReport(reqType: nat, id: ContainerId, u: Usage) returns (reply: CpuReply)
      requires Valid()
      modifies this, ec`scAcMap, ec.cpu, ec.repr
      ensures Valid()
      ensures reqType != CPU_REQUEST ==> reply == CpuFailed && Abs() == old(Abs())
      ensures reqType == CPU_REQUEST ==>
        var out := Step(old(Abs()), CpuReport(id, u));
        && (reply.CpuExit? <==> out.Exited?)
        && (out.Running? ==> Abs() == out.state)
        && (reply.CpuWaits? <==> id in old(Abs()).reg && !Back(old(Abs()).reg[id]).inserted
                                 && AsksQuota(old(Abs()).cpu, old(Abs()).fair, old(Abs()).leak, Back(old(Abs()).reg[id]), u))
        && (out.Exited? ==> Abs() == if id in old(Abs()).reg then ExitedReport(old(Abs()), id, u) else old(Abs()))
    {
      hide ValidMap, MapView, ElasticContainer.Reg, Report, AsksQuota;
      if reqType != CPU_REQUEST {
        return CpuFailed;
      }
      ec.SameIds();
      if id !in ec.subcontainers {
        return CpuExit;
      }
      var asked;
      cpuleak, asked := ec.ReportToBack(id, cpuleak, u);
      HeardReport(old(Abs()), id, u);
      if asked.NoAgent? {
        var _ := ec.GetCorresAgentClient(id);
        return CpuExit;
      }
      return if asked.Waits? then CpuWaits else CpuHandled;
    }

    /** One container's turn in the idle sweep. */
    method CheckIdle(id: ContainerId, now: int, rpcOk: bool) returns (end: SweepEnd)
      requires Valid() && id in ec.subcontainers
      modifies ec.cpu, ec.repr
      ensures Valid() && (!end.SweepExit? ==> Abs() == IdleStep(old(Abs()), id, now, rpcOk))
      ensures Step(old(Abs()), IdleCheck(id, now, rpcOk)) == if end.SweepExit? then Exited else Running(Abs())
      ensures id in old(Abs()).reg
      ensures var c := Back(old(Abs()).reg[id]); end.Stuck? <==> NeedsIdleReset(c, now) && !c.inserted
    {
      hide ValidMap, MapView, ElasticContainer.Reg, IdleReset;
      ghost var before := ec.Reg();
      ec.SameIds();
      UpdateSame(before, id);
      var idle := ec.BackIsIdle(id, now);
      end := Completed;
      if idle {
        var asked := ec.ResetIdleBack(id, rpcOk);
        if asked.NoAgent? {
          return SweepExit;
        } else if asked.Waits? {
          return Stuck;
        }
      }
    }

    /** One round of the idle sweep, in whatever order the map is walked. It ends early when an agent is missing, and goes
        no further at a container it waits for. */
    method CheckForIdleContainers(now: int, answers: map<ContainerId, bool>)
      returns (ghost order: seq<ContainerId>, end: SweepEnd)
      requires Valid()
      modifies ec.cpu, ec.repr
      ensures Valid()
      ensures WalksOnce(order, set id | id in order) && (forall id :: id in order ==> id in old(Abs()).reg)
      ensures end.Completed? ==> WalksOnce(order, old(Abs()).reg.Keys)
      ensures Run(old(Abs()), IdleEvents(order, now, answers)) == if end.SweepExit? then Exited else Running(Abs())
    {
      hide ValidMap, MapView, ElasticContainer.Reg, Step, Run;
      ec.SameIds();
      var todo := ec.subcontainers.Keys;
      order := [];
      end := Completed;
      assert IdleEvents([], now, answers) == [];
      RunNothing(Abs());
      while todo != {} && end.Completed?
        invariant Valid() && ec.subcontainers == old(ec.subcontainers) && ec.repr == old(ec.repr)
        invariant todo <= ec.subcontainers.Keys && WalksOnce(order, ec.subcontainers.Keys - todo)
        invariant Run(old(Abs()), IdleEvents(order, now, answers)) == if end.SweepExit? then Exited else Running(Abs())
        decreases todo
      {
        var id :| id in todo;
        ghost var s := Abs();
        end := CheckIdle(id, now, id in answers && answers[id]);
        IdleEventsMore(old(Abs()), order, now, answers, s, id);
        WalkOn(order, ec.subcontainers.Keys - todo, id);
        assert ec.subcontainers.Keys - (todo - {id}) == (ec.subcontainers.Keys - todo) + {id};
        order := order + [id];
        todo := todo - {id};
      }
      assert ec.subcontainers.Keys - {} == ec.subcontainers.Keys;
      assert (set id | id in order) == ec.subcontainers.Keys - todo;
    }

    // ---------- pods ----------

    method InsertPodSpec(docker: DockerId, id: ContainerId) returns (ret: int)
      requires Valid()
      modifies this
      ensures Valid() && Abs() == PodSpecStep(old(Abs()), docker, id)
      ensures ret == if docker in old(Abs()).dockers then -3 else 0
    {
      hide ValidMap, MapView, ElasticContainer.Reg;
      if id in deployedPods {
        deployedPods := deployedPods[id := deployedPods[id] + [docker]];
      } else {
        assert [] + [docker] == [docker];
        deployedPods := deployedPods[id := [docker]];
      }
      if docker in dockerToSubContainer {
        return -3;
      }
      dockerToSubContainer := dockerToSubContainer[docker := id];
      return 0;
    }

    // ---------- memory ----------

    /** Reclaim what the newest container under an id has above usage plus margin. The process ends if there is something
        to reclaim and no agent to ask. */
    method Reclaim(id: ContainerId, r: MemReading) returns (pages: nat, exits: bool)
      requires Valid() && id in ec.subcontainers
      modifies ec`scAcMap, ec.repr
      ensures Valid() && ec.subcontainers == old(ec.subcontainers) && ec.repr == old(ec.repr)
      ensures var limit, seen := Back(old(Abs()).reg[id]).memLimit, SeenReading(old(Abs()).agents, id, r);
              && pages == PagesFrom(limit, seen)
              && (exits <==> ShrinkMissesAgent(old(Abs()).agents, id, limit, seen))
              && Abs() == old(Abs()).(reg := old(Abs()).reg[id := ReclaimQueue(old(Abs()).reg[id], seen)],
                                      agents := LookUp(old(Abs()).agents, id))
    {
      hide ValidMap, MapView, ElasticContainer.Reg, Resizes, AsksShrink;
      ghost var before := ec.Reg();
      ec.QueueNotEmpty(id);
      pages, exits := 0, false;
      var k := |ec.subcontainers[id]| - 1;
      var _, _, limitPages := ec.ReadEntry(id, k);
      var limitBytes := Wrap(limitPages * PAGE);
      var agent := ec.GetCorresAgentClient(id);
      var usage := if agent then r.usage else 0;
      ResizesMeans(limitPages, MemReading(usage, agent && r.rpcOk));
      if usage != READ_FAILED && Wrap(limitBytes - usage) > SAFE_MARGIN {
        var target := Wrap(usage + SAFE_MARGIN);
        agent := ec.GetCorresAgentClient(id);
        if !agent {
          exits := true;
        } else if r.rpcOk {
          pages := Wrap(limitBytes - target) / PAGE;
          ec.SetLimitAt(id, k, target / PAGE);
          return;
        }
      }
      assert ReclaimQueue(before[id], MemReading(usage, agent && r.rpcOk)) == before[id];
    }

    /** One container's turn in reclaiming for a requester. */
    method ReclaimUnlessRequester(id: ContainerId, fd: int, r: MemReading) returns (pages: nat, exits: bool)
      requires Valid() && id in ec.subcontainers
      modifies ec`scAcMap, ec.repr
      ensures Valid() && ec.subcontainers == old(ec.subcontainers) && ec.repr == old(ec.repr)
      ensures var q, seen := old(Abs()).reg[id], SeenReading(old(Abs()).agents, id, r);
              && pages == (if Spared(q, fd) then 0 else PagesFrom(Back(q).memLimit, seen))
              && (exits <==> !Spared(q, fd) && ShrinkMissesAgent(old(Abs()).agents, id, Back(q).memLimit, seen))
              && Abs() == (if Spared(q, fd) then old(Abs())
                           else old(Abs()).(reg := old(Abs()).reg[id := ReclaimQueue(q, seen)],
                                            agents := LookUp(old(Abs()).agents, id)))
    {
      hide ValidMap, MapView, ElasticContainer.Reg, ReclaimQueue, PagesFrom, ShrinkMissesAgent;
      ec.QueueNotEmpty(id);
      var scFd, _, _ := ec.ReadEntry(id, |ec.subcontainers[id]| - 1);
      if scFd == fd {
        pages, exits := 0, false;
      } else {
        pages, exits := Reclaim(id, r);
      }
    }

    /** Reclaim from every container whose connection is not the requester's, and add up what was reclaimed. All of them
        are asked at once, so a missing agent is found only after the fact. */
    method HandleReclaimMemory(fd: int, env: Readings) returns (total: nat, exits: bool)
      requires Valid()
      modifies ec`scAcMap, ec.repr
      ensures Valid() && ec.subcontainers == old(ec.subcontainers) && ec.repr == old(ec.repr)
      ensures var s := old(Abs());
              var seen := Seen(s.agents, s.reg.Keys, env);
              && total == ReclaimedPages(s.reg, seen, fd)
              && (exits <==> ReclaimMissesAgent(s.agents, s.reg, seen, fd))
              && Abs() == Reclaimed(s, seen, fd)
    {
      hide ValidMap, MapView, ElasticContainer.Reg, ReclaimQueue, PagesFrom, SumMap, ReclaimExcept, ReclaimOthers,
           PagesFromOthers, Spared, LookUpAll, LookUp, Others, Seen, ShrinkMissesAgent, SeenReading, MissedAmong;
      ec.SameIds();
      ghost var s := Abs();
      ghost var seen := Seen(s.agents, s.reg.Keys, env);
      ghost var rest := PagesFromOthers(s.reg, seen, fd);
      var todo := ec.subcontainers.Keys;
      total, exits := 0, false;
      ReclaimExceptEnds(s.reg, seen, fd);
      AgentsExceptEnds(s, seen, fd);
      while todo != {}
        invariant Valid() && ec.subcontainers == old(ec.subcontainers) && ec.repr == old(ec.repr)
        invariant todo <= s.reg.Keys
        invariant total + SumMap(rest) == ReclaimedPages(s.reg, seen, fd)
        invariant PagesLeft(rest, s.reg, seen, fd, todo)
        invariant exits <==> MissedAmong(s, seen, fd, s.reg.Keys - todo)
        invariant Abs() == s.(reg := ReclaimExcept(s.reg, seen, fd, todo), agents := AgentsExcept(s, fd, todo))
        decreases todo
      {
        var id :| id in todo;
        ReclaimExceptStep(s.reg, seen, fd, todo, id);
        AgentsExceptStep(s, env, fd, todo, id);
        MissedMore(s, seen, fd, todo, id);
        PagesLeftStep(rest, s.reg, seen, fd, todo, id);
        var got, missed := ReclaimUnlessRequester(id, fd, ReadingOf(env, id));
        total := total + got;
        exits := exits || missed;
        rest := rest - {id};
        todo := todo - {id};
      }
      EmptySum(rest);
      assert s.reg.Keys - {} == s.reg.Keys;
      MissedAll(s, seen, fd);
    }

    /** Make sure the pool holds pages, reclaiming from the other containers if it is exhausted. */
    method ReplenishPool(fd: int, env: Readings) returns (exits: bool)
      requires Valid()
      modifies ec`scAcMap, ec.mem, ec.repr
      ensures Valid()
      ensures var s := old(Abs());
              var seen := Seen(s.agents, s.reg.Keys, env);
              var (mem, reg) := Replenish(s.mem, s.reg, seen, fd);
              && (exits <==> s.mem.unalloc <= 0 && ReclaimMissesAgent(s.agents, s.reg, seen, fd))
              && Abs() == s.(mem := if exits then s.mem else mem, reg := reg, agents := RequestAgents(s, fd))
    {
      hide ValidMap, MapView, ElasticContainer.Reg, SumMap, ReclaimOthers, PagesFromOthers, Seen, ReclaimMissesAgent,
           LookUpAll;
      exits := false;
      var memoryAvailable := ec.mem.unallocatedPages;
      if memoryAvailable <= 0 {
        var reclaimed;
        reclaimed, exits := HandleReclaimMemory(fd, env);
        if exits {
          return;
        }
        if reclaimed > 0 {
          if memoryAvailable < 0 {
            ec.mem.IncrUnallocated(-memoryAvailable);
            ec.mem.DecrAllocated(-memoryAvailable);
          }
          ec.mem.UpdateReclaim(reclaimed);
        }
      }
    }

    /** Hand out at most one slice and record the requester's new limit. */
    method GrantFromPool(id: ContainerId, pages: nat) returns (reply: MemReply)
      requires Valid()
      modifies ec.mem, ec.repr
      ensures Valid()
      ensures var out := GrantStep(old(Abs()), old(Abs()).mem, old(Abs()).reg, id, pages);
              && (reply.MemFailed? <==> old(Abs()).mem.unalloc <= 0)
              && (reply.MemExit? <==> out.Exited?)
              && (out.Running? ==> Abs() == out.state)
              && (out.Exited? ==> Abs() == ExitedGrant(old(Abs())))
              && (reply.MemGranted? ==> id in out.state.reg && reply.pages == Back(out.state.reg[id]).memLimit)
    {
      hide ValidMap, MapView, ElasticContainer.Reg;
      ec.SameIds();
      var memoryAvailable := ec.mem.unallocatedPages;
      if memoryAvailable <= 0 {
        return MemFailed;
      }
      var ret := if memoryAvailable > ec.mem.sliceSize then ec.mem.sliceSize else memoryAvailable;
      ec.mem.UpdateAlloc(ret);
      if id !in ec.subcontainers {
        return MemExit;
      }
      ec.QueueNotEmpty(id);
      ec.SetLimitAt(id, |ec.subcontainers[id]| - 1, pages + ret);
      return MemGranted(pages + ret);
    }

    method HandleMemReq(reqType: nat, id: ContainerId, pages: nat, fd: int, env: Readings) returns (reply: MemReply)
      requires Valid()
      modifies ec`scAcMap, ec.mem, ec.repr
      ensures Valid()
      ensures reqType != MEM_REQUEST ==> reply == MemFailed && Abs() == old(Abs())
      ensures reqType == MEM_REQUEST ==>
        var s, e := old(Abs()), MemRequest(id, pages, fd, env);
        var out, seen := Step(s, e), Seen(s.agents, s.reg.Keys, env);
        && (reply.MemExit? <==> out.Exited?)
        && (reply.MemFailed? <==> !MissesAgent(s, SeenBy(s, e)) && Refused(s, fd, seen))
        && (out.Running? ==> Abs() == out.state)
        && (out.Exited? ==> Abs() == if MissesAgent(s, SeenBy(s, e)) then Reclaimed(s, seen, fd)
                                     else ExitedRequest(s, Replenish(s.mem, s.reg, seen, fd), fd))
        && (reply.MemGranted? ==> id in out.state.reg && reply.pages == Back(out.state.reg[id]).memLimit)
    {
      hide ValidMap, MapView, ElasticContainer.Reg, Replenish, GrantStep, ExitedRequest, Seen, ReclaimMissesAgent,
           RequestAgents, Reclaimed;
      if reqType != MEM_REQUEST {
        return MemFailed;
      }
      ghost var s := Abs();
      ghost var seen := Seen(s.agents, s.reg.Keys, env);
      var exits := ReplenishPool(fd, env);
      if exits {
        ExhaustedIsReclaimed(s, seen, fd);
        return MemExit;
      }
      GrantAfterReplenish(s, id, pages, fd, seen);
      ExitAfterReplenish(s, Replenish(s.mem, s.reg, seen, fd), fd);
      reply := GrantFromPool(id, pages);
    }

    /** Pay for a new pod's limit, reclaiming if the pool alone does not suffice. */
    method PayForNewPod(id: ContainerId, fd: int, pages: nat, env: Readings, rpcOk: bool) returns (exits: bool)
      requires Valid() && id in ec.scAcMap
      modifies ec`scAcMap, ec.mem, ec.repr
      ensures Valid() && ec.subcontainers == old(ec.subcontainers) && ec.repr == old(ec.repr)
      ensures var s := old(Abs());
              var seen := Seen(s.agents, s.reg.Keys, env);
              var (mem, reg) := PayForPod(s.mem, s.reg, seen, fd, pages, rpcOk);
              && (exits <==> PodLimitMissesAgent(s, id, fd, pages, seen))
              && (!exits ==> Abs() == s.(mem := mem, reg := reg, agents := LookUpAll(s.agents, PodAsks(s, fd, pages))))
    {
      hide ValidMap, MapView, ElasticContainer.Reg, SumMap, ReclaimOthers, PagesFromOthers, Seen, ReclaimMissesAgent,
           LookUpAll, Others, LookUp;
      exits := false;
      LookUpNone(ec.scAcMap);
      if pages <= ec.mem.unallocatedPages {
        ec.mem.UpdateAlloc(pages);
      } else if ec.mem.unallocatedPages == 0 {
        // nothing is charged, and the limit is recorded all the same
      } else {
        var reclaimed;
        reclaimed, exits := HandleReclaimMemory(fd, env);
        if exits {
          return;
        }
        ec.mem.UpdateReclaim(reclaimed);
        if pages <= ec.mem.unallocatedPages {
          ec.mem.UpdateAlloc(pages);
        } else {
          LookUpPresent(old(Abs()).agents, Others(old(Abs()).reg, fd), id);
          var agent := ec.GetCorresAgentClient(id);
          if !agent {
            exits := true;
          } else if rpcOk {
            ec.mem.UpdateAlloc(pages);
          }
        }
      }
    }

    method DetermineMemLimitForNewPod(id: ContainerId, k: nat, bytes: nat, env: Readings, rpcOk: bool) returns (exits: bool)
      requires Valid() && id in ec.subcontainers && k < |ec.subcontainers[id]|
      modifies ec`scAcMap, ec.mem, ec.repr
      ensures Valid()
      ensures id in old(Abs()).reg && k < |old(Abs()).reg[id]|
      ensures var out := Step(old(Abs()), PodLimit(id, k, bytes, env, rpcOk));
              (exits <==> out.Exited?) && (out.Running? ==> Abs() == out.state)
    {
      hide ValidMap, MapView, ElasticContainer.Reg, PayForPod, Seen, PodLimitMissesAgent, LookUpAll, Others, LookUp;
      ec.QueueNotEmpty(id);
      ghost var s := Abs();
      var agent := ec.GetCorresAgentClient(id);
      LookUpChangesNoAgent(s, id, env);
      var pages := (if agent then bytes else 0) / PAGE;
      var fd, _, _ := ec.ReadEntry(id, k);
      MissesAfterLookUp(s, id, fd, pages, Seen(s.agents, s.reg.Keys, env));
      exits := PayForNewPod(id, fd, pages, env, rpcOk);
      if !exits {
        ec.SetLimitAt(id, k, pages);
      }
    }

    /** Return a deleted container's runtime and pages. */
    method ReturnResources(quota: Word, memLimit: nat)
      requires Valid()
      modifies ec.cpu, ec.mem
      ensures Valid()
      ensures Abs() == old(Abs()).(cpu := Release(old(Abs()).cpu, quota), mem := Credit(old(Abs()).mem, memLimit))
    {
      hide ValidMap, MapView, ElasticContainer.Reg;
      ec.cpu.DecrAllocRt(quota);
      ec.cpu.IncrUnallocatedRt(quota);
      ec.mem.IncrUnallocated(memLimit);
      ec.mem.DecrAllocated(memLimit);
    }

    /** Remove a pod from the four maps and refresh the fair share; tells whether every map had its entry. */
    method RemovePod(docker: DockerId, id: ContainerId) returns (success: bool)
      requires Valid() && id in ec.subcontainers
      modifies this, ec
      ensures Valid() && ec.repr == old(ec.repr)
      ensures success <==> id in old(Abs()).agents && id in old(Abs()).deployed && docker in old(Abs()).dockers
      ensures id in old(Abs()).reg
      ensures var reg := Pop(old(Abs()).reg, id);
              Abs() == old(Abs()).(reg := reg, fair := FairShare(old(Abs()).cpu.total, reg), agents := old(Abs()).agents - {id},
                                   deployed := old(Abs()).deployed - {id}, dockers := old(Abs()).dockers - {docker})
    {
      hide ValidMap, MapView, ElasticContainer.Reg, Pop, FairShare;
      ec.QueueNotEmpty(id);
      var s1 := ec.DeleteFromScAcMap(id);
      var s2 := ec.DeleteFromSubcontainersMap(id);
      var s3 := if id in deployedPods then 0 else -1;
      deployedPods := deployedPods - {id};
      var s4 := if docker in dockerToSubContainer then 0 else -1;
      dockerToSubContainer := dockerToSubContainer - {docker};
      ec.UpdateFairCpuShare();
      success := s1 == 0 && s2 == 0 && s3 == 0 && s4 == 0;
    }

    /** Delete the oldest container under the id a docker id stands for and return its resources. */
    method DeletePod(docker: DockerId) returns (reply: DeleteReply)
      requires Valid()
      modifies this, ec, ec.cpu, ec.mem
      ensures Valid() && ec.repr == old(ec.repr)
      ensures !Resolves(old(Abs()), docker) ==> reply == Cancelled && Abs() == old(Abs())
      ensures Resolves(old(Abs()), docker) && old(Abs()).dockers[docker] !in old(Abs()).reg ==>
        reply == DeleteExit && Abs() == old(Abs())
      ensures Resolves(old(Abs()), docker) && old(Abs()).dockers[docker] in old(Abs()).reg ==>
        reply == Deleted(DeleteSucceeds(old(Abs()), docker)) && Abs() == DeleteStep(old(Abs()), docker)
    {
      hide ValidMap, MapView, ElasticContainer.Reg, Pop, FairShare, Release, Credit;
      ec.SameIds();
      if docker !in dockerToSubContainer || dockerToSubContainer[docker].cgroup == 0 {
        return Cancelled;
      }
      var id := dockerToSubContainer[docker];
      if id !in ec.subcontainers {
        return DeleteExit;
      }
      ec.QueueNotEmpty(id);
      var _, quota, memLimit := ec.ReadEntry(id, 0);
      var success := RemovePod(docker, id);
      ReturnResources(quota, memLimit);
      return Deleted(success);
    }

    /** One container's turn in the periodic sweep; the pages are not credited yet. */
    method SweepOne(id: ContainerId, r: MemReading) returns (exits: bool)
      requires Valid() && id in ec.subcontainers
      modifies this, ec`scAcMap, ec.repr
      ensures Valid() && ec.subcontainers == old(ec.subcontainers) && ec.repr == old(ec.repr)
      ensures Step(old(Abs()), SweepReclaim(id, r)) == if exits then Exited else Running(Abs())
    {
      hide ValidMap, MapView, ElasticContainer.Reg, ReclaimQueue, PagesFrom, SeenReading, ShrinkMissesAgent, LookUp;
      ec.SameIds();
      var pages;
      pages, exits := Reclaim(id, r);
      sweepPages := sweepPages + pages;
    }

    /** One round of the periodic sweep: reclaim from every container, and credit the pool only at the end. It ends early
        when there is something to reclaim and no agent to ask. */
    method PeriodicReclaim(env: Readings) returns (ghost order: seq<ContainerId>, exits: bool)
      requires Valid() && sweepPages == 0
      modifies this, ec`scAcMap, ec.mem, ec.repr
      ensures Valid() && (!exits ==> sweepPages == 0)
      ensures WalksOnce(order, set id | id in order) && (forall id :: id in order ==> id in old(Abs()).reg)
      ensures !exits ==> WalksOnce(order, old(Abs()).reg.Keys)
      ensures exits ==> Run(old(Abs()), SweepEvents(order, env)).Exited?
      ensures !exits ==> Run(old(Abs()), SweepEvents(order, env) + [SweepCredit]) == Running(Abs())
    {
      hide ValidMap, MapView, ElasticContainer.Reg, Step, Run;
      ec.SameIds();
      var todo := ec.subcontainers.Keys;
      order := [];
      exits := false;
      assert SweepEvents([], env) == [];
      RunNothing(Abs());
      while todo != {} && !exits
        invariant Valid() && ec.subcontainers == old(ec.subcontainers) && ec.repr == old(ec.repr)
        invariant todo <= ec.subcontainers.Keys && WalksOnce(order, ec.subcontainers.Keys - todo)
        invariant Run(old(Abs()), SweepEvents(order, env)) == if exits then Exited else Running(Abs())
        decreases todo
      {
        var id :| id in todo;
        ghost var s := Abs();
        exits := SweepOne(id, ReadingOf(env, id));
        SweepEventsMore(old(Abs()), order, env, s, id);
        WalkOn(order, ec.subcontainers.Keys - todo, id);
        assert ec.subcontainers.Keys - (todo - {id}) == (ec.subcontainers.Keys - todo) + {id};
        order := order + [id];
        todo := todo - {id};
      }
      assert ec.subcontainers.Keys - {} == ec.subcontainers.Keys;
      assert (set id | id in order) == ec.subcontainers.Keys - todo;
      if exits {
        return;
      }
      SweepCredited(old(Abs()), order, env, Abs());
      if sweepPages > 0 {
        ec.mem.UpdateReclaim(sweepPages);
        sweepPages := 0;
      }
    }
  }

  // ---------- walking the registry ----------

  /** `order` lists every id of `ids` exactly once. */
  ghost predicate WalksOnce(order: seq<ContainerId>, ids: set<ContainerId>) {
    && (forall id :: id in order <==> id in ids)
    && (forall i, j :: 0 <= i < j < |order| ==> order[i] != order[j])
  }

  lemma WalkOn(order: seq<ContainerId>, ids: set<ContainerId>, id: ContainerId)
    requires WalksOnce(order, ids) && id !in ids
    ensures WalksOnce(order + [id], ids + {id})
  {
  }

  ghost function SweepEvents(order: seq<ContainerId>, env: Readings): seq<Event> {
    seq(|order|, i requires 0 <= i < |order| => SweepReclaim(order[i], ReadingOf(env, order[i])))
  }

  ghost function IdleEvents(order: seq<ContainerId>, now: int, answers: map<ContainerId, bool>): seq<Event> {
    seq(|order|, i requires 0 <= i < |order| => IdleCheck(order[i], now, order[i] in answers && answers[order[i]]))
  }

  lemma RunNothing(s: State)
    ensures Run(s, []) == Running(s)
  {
  }

  /** One more turn of the idle sweep is one more event of its run. */
  lemma IdleEventsMore(s: State, order: seq<ContainerId>, now: int, answers: map<ContainerId, bool>, t: State, id: ContainerId)
    requires Run(s, IdleEvents(order, now, answers)) == Running(t)
    ensures Run(s, IdleEvents(order + [id], now, answers)) == Step(t, IdleCheck(id, now, id in answers && answers[id]))
  {
    hide Step, Run;
    var e := IdleCheck(id, now, id in answers && answers[id]);
    assert IdleEvents(order + [id], now, answers) == IdleEvents(order, now, answers) + [e];
    RunConcat(s, IdleEvents(order, now, answers), [e]);
    RunOne(t, e);
  }

  /** One more turn of the periodic sweep is one more event of its run. */
  lemma SweepEventsMore(s: State, order: seq<ContainerId>, env: Readings, t: State, id: ContainerId)
    requires Run(s, SweepEvents(order, env)) == Running(t)
    ensures Run(s, SweepEvents(order + [id], env)) == Step(t, SweepReclaim(id, ReadingOf(env, id)))
  {
    hide Step, Run;
    var e := SweepReclaim(id, ReadingOf(env, id));
    assert SweepEvents(order + [id], env) == SweepEvents(order, env) + [e];
    RunConcat(s, SweepEvents(order, env), [e]);
    RunOne(t, e);
  }

  lemma SweepCredited(s: State, order: seq<ContainerId>, env: Readings, t: State)
    requires Run(s, SweepEvents(order, env)) == Running(t)
    ensures Run(s, SweepEvents(order, env) + [SweepCredit]) == Running(CreditStep(t))
  {
    hide Run;
    RunConcat(s, SweepEvents(order, env), [SweepCredit]);
    RunOne(t, SweepCredit);
  }

  // ---------- admission ----------

  lemma PushedEntry(reg: Registry, id: ContainerId, fd: int, quota: Word, throttled: nat, now: int)
    ensures var c, c' := NewContainer(fd, quota, throttled, now, false), NewContainer(fd, quota, throttled, now, true);
            && c' == c.(inserted := true)
            && id in Push(reg, id, c) && Back(Push(reg, id, c)[id]) == c
            && Update(Push(reg, id, c), id, c') == Push(reg, id, c')
  {
    var c, c' := NewContainer(fd, quota, throttled, now, false), NewContainer(fd, quota, throttled, now, true);
    assert Update(Push(reg, id, c), id, c')[id] == Push(reg, id, c')[id];
  }

  lemma SameCount(reg: Registry, id: ContainerId, c: Container)
    requires id in reg
    ensures forall total: Word :: FairShare(total, Update(reg, id, c)) == FairShare(total, reg)
  {
    assert Update(reg, id, c).Keys == reg.Keys;
  }

  // ---------- reports ----------

  /** What a report leaves behind when it ends the process: everything but the resize, and an empty agent entry. */
  ghost function ExitedReport(s: State, id: ContainerId, u: Usage): State
    requires id in s.reg
  {
    ReportStep(s, id, Heard(u, false)).(agents := LookUp(s.agents, id))
  }

  /** What the handler hears makes a difference only where it asks. */
  lemma HeardReport(s: State, id: ContainerId, u: Usage)
    requires id in s.reg
    ensures var agent, c := HasAgent(s.agents, id), Back(s.reg[id]);
            var asks := AsksQuota(s.cpu, s.fair, s.leak, c, u);
            && (agent || !asks || !c.inserted ==> ReportStep(s, id, Heard(u, agent)) == ReportStep(s, id, u))
            && (MissesAgent(s, CpuReport(id, u)) <==> asks && Answer(c, agent, u.rpcOk).NoAgent?)
  {
    var c := Back(s.reg[id]);
    hide RepairLeak, CountersAfter, Observed;
    HearingKeepsObserved(c, u, HasAgent(s.agents, id));
  }

  // ---------- memory ----------

  /** Everything reclaimed from all others, and nothing credited yet. */
  ghost function Reclaimed(s: State, env: Readings, fd: int): State {
    s.(reg := ReclaimOthers(s.reg, env, fd), agents := LookUpAll(s.agents, Others(s.reg, fd)))
  }

  lemma ExhaustedIsReclaimed(s: State, env: Readings, fd: int)
    requires s.mem.unalloc <= 0
    ensures s.(reg := Replenish(s.mem, s.reg, env, fd).1, agents := RequestAgents(s, fd)) == Reclaimed(s, env, fd)
  {
  }

  ghost function AgentsExcept(s: State, fd: int, todo: set<ContainerId>): AgentMap {
    LookUpAll(s.agents, Others(s.reg, fd) - todo)
  }

  lemma AgentsExceptEnds(s: State, env: Readings, fd: int)
    ensures AgentsExcept(s, fd, s.reg.Keys) == s.agents
    ensures AgentsExcept(s, fd, {}) == LookUpAll(s.agents, Others(s.reg, fd))
    ensures !MissedAmong(s, env, fd, s.reg.Keys - s.reg.Keys)
  {
    assert Others(s.reg, fd) - s.reg.Keys == {};
    assert Others(s.reg, fd) - {} == Others(s.reg, fd);
    LookUpNone(s.agents);
  }

  lemma AgentsExceptStep(s: State, env: Readings, fd: int, todo: set<ContainerId>, id: ContainerId)
    requires id in s.reg && id in todo
    ensures AgentsExcept(s, fd, todo - {id}) ==
            if Spared(s.reg[id], fd) then AgentsExcept(s, fd, todo) else LookUp(AgentsExcept(s, fd, todo), id)
    ensures SeenReading(AgentsExcept(s, fd, todo), id, ReadingOf(env, id)) == ReadingOf(Seen(s.agents, s.reg.Keys, env), id)
    ensures HasAgent(AgentsExcept(s, fd, todo), id) <==> HasAgent(s.agents, id)
  {
    LookUpKeepsAgents(s.agents, Others(s.reg, fd) - todo, id);
    if Spared(s.reg[id], fd) {
      assert Others(s.reg, fd) - (todo - {id}) == Others(s.reg, fd) - todo;
    } else {
      assert Others(s.reg, fd) - (todo - {id}) == (Others(s.reg, fd) - todo) + {id};
      LookUpMore(s.agents, Others(s.reg, fd) - todo, id);
    }
  }

  /** One of the ids already asked had no agent. */
  ghost predicate MissedAmong(s: State, env: Readings, fd: int, ids: set<ContainerId>) {
    exists id :: id in ids && id in s.reg && !Spared(s.reg[id], fd) &&
      ShrinkMissesAgent(s.agents, id, Back(s.reg[id]).memLimit, ReadingOf(env, id))
  }

  lemma MissedMore(s: State, env: Readings, fd: int, todo: set<ContainerId>, id: ContainerId)
    requires id in todo && todo <= s.reg.Keys
    ensures MissedAmong(s, env, fd, s.reg.Keys - (todo - {id})) <==>
            MissedAmong(s, env, fd, s.reg.Keys - todo) ||
            (!Spared(s.reg[id], fd) && ShrinkMissesAgent(s.agents, id, Back(s.reg[id]).memLimit, ReadingOf(env, id)))
    ensures ShrinkMissesAgent(AgentsExcept(s, fd, todo), id, Back(s.reg[id]).memLimit, ReadingOf(env, id)) <==>
            ShrinkMissesAgent(s.agents, id, Back(s.reg[id]).memLimit, ReadingOf(env, id))
  {
    LookUpKeepsAgents(s.agents, Others(s.reg, fd) - todo, id);
    assert s.reg.Keys - (todo - {id}) == (s.reg.Keys - todo) + {id};
  }

  lemma MissedAll(s: State, env: Readings, fd: int)
    ensures MissedAmong(s, env, fd, s.reg.Keys) <==> ReclaimMissesAgent(s.agents, s.reg, env, fd)
  {
  }

  ghost function PodAsks(s: State, fd: int, pages: nat): set<ContainerId> {
    if PodReclaims(s.mem, pages) then Others(s.reg, fd) else {}
  }

  lemma LookUpPresent(agents: AgentMap, ids: set<ContainerId>, id: ContainerId)
    requires id in agents
    ensures LookUp(LookUpAll(agents, ids), id) == LookUpAll(agents, ids)
    ensures HasAgent(LookUpAll(agents, ids), id) <==> HasAgent(agents, id)
  {
  }

  lemma LookUpChangesNoAgent(s: State, id: ContainerId, env: Readings)
    ensures Seen(LookUp(s.agents, id), s.reg.Keys, env) == Seen(s.agents, s.reg.Keys, env)
    ensures id in LookUp(s.agents, id) && (HasAgent(LookUp(s.agents, id), id) <==> HasAgent(s.agents, id))
  {
  }

  lemma MissesAfterLookUp(s: State, id: ContainerId, fd: int, pages: nat, env: Readings)
    ensures PodLimitMissesAgent(s.(agents := LookUp(s.agents, id)), id, fd, pages, env) <==>
            PodLimitMissesAgent(s, id, fd, pages, env)
  {
    var agents := LookUp(s.agents, id);
    assert forall j :: HasAgent(agents, j) <==> HasAgent(s.agents, j);
    assert ReclaimMissesAgent(agents, s.reg, env, fd) <==> ReclaimMissesAgent(s.agents, s.reg, env, fd);
  }

  /** What a request for an unregistered container leaves behind: the pool is already charged, but no limit recorded. */
  ghost function ExitedRequest(s: State, replenished: (MemCounters, Registry), fd: int): State {
    var (mem, reg) := replenished;
    s.(mem := if mem.unalloc > 0 then Charge(mem, GrantedPages(mem)) else mem, reg := reg, agents := RequestAgents(s, fd))
  }

  /** What granting leaves behind when it ends the process. */
  ghost function ExitedGrant(s: State): State {
    s.(mem := if s.mem.unalloc > 0 then Charge(s.mem, GrantedPages(s.mem)) else s.mem)
  }

  lemma ExitAfterReplenish(s: State, replenished: (MemCounters, Registry), fd: int)
    ensures ExitedGrant(s.(mem := replenished.0, reg := replenished.1, agents := RequestAgents(s, fd))) ==
            ExitedRequest(s, replenished, fd)
  {
  }

  /** Granting from the replenished state is what the request step does; a refusal leaves the pool as it was. */
  lemma GrantAfterReplenish(s: State, id: ContainerId, pages: nat, fd: int, env: Readings)
    ensures var (mem, reg) := Replenish(s.mem, s.reg, env, fd);
            GrantStep(s.(mem := mem, reg := reg, agents := RequestAgents(s, fd)), mem, reg, id, pages) ==
            RequestStep(s, id, pages, fd, env)
  {
    hide SumMap, RequestAgents;
    if Refused(s, fd, env) {
      RefusalKeepsPool(s, fd, env);
    }
  }

  lemma RefusalKeepsPool(s: State, fd: int, env: Readings)
    requires Refused(s, fd, env)
    ensures Replenish(s.mem, s.reg, env, fd).0 == s.mem
  {
    hide SumMap;
  }

  /** The pages still to be reclaimed from the ids in `todo`. */
  ghost predicate PagesLeft(rest: map<ContainerId, nat>, reg: Registry, env: Readings, fd: int, todo: set<ContainerId>)
  {
    rest.Keys == todo && todo <= reg.Keys && forall id :: id in todo ==> rest[id] == PagesFromOthers(reg, env, fd)[id]
  }

  lemma PagesLeftStep(rest: map<ContainerId, nat>, reg: Registry, env: Readings, fd: int, todo: set<ContainerId>, id: ContainerId)
    requires PagesLeft(rest, reg, env, fd, todo) && id in todo
    ensures PagesLeft(rest - {id}, reg, env, fd, todo - {id})
    ensures SumMap(rest) == SumMap(rest - {id}) +
      if Spared(reg[id], fd) then 0 else PagesFrom(Back(reg[id]).memLimit, ReadingOf(env, id))
  {
    SumMapRemove(rest, id);
  }

  lemma ReclaimExceptEnds(reg: Registry, env: Readings, fd: int)
    ensures ReclaimExcept(reg, env, fd, reg.Keys) == reg
    ensures ReclaimExcept(reg, env, fd, {}) == ReclaimOthers(reg, env, fd)
    ensures PagesLeft(PagesFromOthers(reg, env, fd), reg, env, fd, reg.Keys)
  {
    hide Spared, ReclaimQueue, PagesFrom, ReadingOf;
  }

  lemma EmptySum(m: map<ContainerId, nat>)
    requires m.Keys == {}
    ensures SumMap(m) == 0
  {
    assert |m.Keys| == 0;
  }

  lemma UpdateSame(reg: Registry, id: ContainerId)
    requires id in reg
    ensures Update(reg, id, Back(reg[id])) == reg
  {
    assert SetBack(reg[id], Back(reg[id])) == reg[id];
  }

  /** Reclaim done for all ids but those still in `todo`. */
  ghost function ReclaimExcept(reg: Registry, env: Readings, fd: int, todo: set<ContainerId>): Registry {
    map id | id in reg :: if id in todo || Spared(reg[id], fd) then reg[id] else ReclaimQueue(reg[id], ReadingOf(env, id))
  }

  lemma ReclaimExceptStep(reg: Registry, env: Readings, fd: int, todo: set<ContainerId>, id: ContainerId)
    requires id in reg && id in todo
    ensures var r := ReclaimExcept(reg, env, fd, todo);
            && id in r && r[id] == reg[id]
            && ReclaimExcept(reg, env, fd, todo - {id}) ==
               if Spared(reg[id], fd) then r else r[id := ReclaimQueue(reg[id], ReadingOf(env, id))]
  {
  }

  lemma ResizesMeans(limit: nat, r: MemReading)
    ensures Resizes(limit, r) <==> AsksShrink(limit, r.usage) && r.rpcOk
    ensures AsksShrink(limit, r.usage) <==> r.usage != READ_FAILED && Wrap(Wrap(limit * PAGE) - r.usage) > SAFE_MARGIN
  {
  }
}
