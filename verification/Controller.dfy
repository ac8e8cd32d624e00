/** The controller as one state machine: every handler is an atomic step, and a run is a sequence of events. */
module Controller {
  import opened Words
  import opened Sums
  import opened Containers
  import opened Agents
  import opened CpuControl
  import opened MemControl

  type DockerId = string

  datatype State = State(
    cpu: CpuCounters,
    fair: Word,
    leak: int,
    mem: MemCounters,
    pending: nat,  // pages reclaimed by the running periodic sweep and not yet credited
    reg: Registry,
    agents: AgentMap,
    deployed: map<ContainerId, seq<DockerId>>,
    dockers: map<DockerId, ContainerId>)

  datatype Event =
    | Admit(id: ContainerId, fd: int, req: Word, throttled: nat, now: int, agentFound: bool)
    | CpuReport(id: ContainerId, usage: Usage)
    | IdleCheck(id: ContainerId, now: int, rpcOk: bool)
    | PodSpec(docker: DockerId, id: ContainerId)
    | DeletePod(docker: DockerId)
    | MemRequest(id: ContainerId, pages: nat, fd: int, env: Readings)
    | PodLimit(id: ContainerId, k: nat, bytes: nat, env: Readings, rpcOk: bool)
    | SweepReclaim(id: ContainerId, reading: MemReading)
    | SweepCredit

  /** The process exits when a handler is asked for a container that is not registered, or asks for a resize and finds
      no agent. */
  datatype Outcome = Running(state: State) | Exited

  const CPU_SLICE: Word := 30_000_000
  const MEM_SLICE: nat := 5000

  /** The state of a manager that has done nothing yet. */
  function Fresh(): State {
    State(CpuCounters(CPU_SLICE, 0, 0, 0, 0), 0, 0, MemCounters(0, 0, 0, MEM_SLICE), 0, map[], map[], map[], map[])
  }

  /** The state after the application's limits were reported: `cpuLimit` in milli-cores, `memLimit` in MiB. */
  function AppSpec(cpuLimit: nat, memLimit: nat): State {
    var total := Wrap(cpuLimit * 100_000);
    var pages := Wrap(memLimit * 1024 * 1024) / PAGE;
    Fresh().(cpu := CpuCounters(CPU_SLICE, total, total, 0, 0), mem := MemCounters(pages, pages, 0, MEM_SLICE))
  }

  // ---------- the registry ----------

  function Push(reg: Registry, id: ContainerId, c: Container): Registry {
    reg[id := (if id in reg then reg[id] else []) + [c]]
  }

  /** Drop the oldest entry, and the queue with its last entry. */
  function Pop(reg: Registry, id: ContainerId): Registry
    requires id in reg
  {
    if |reg[id]| > 1 then reg[id := reg[id][1..]] else reg - {id}
  }

  function Update(reg: Registry, id: ContainerId, c: Container): Registry
    requires id in reg
  {
    reg[id := SetBack(reg[id], c)]
  }

  function FairShare(total: Word, reg: Registry): Word {
    if |reg| == 0 then total else total / |reg|
  }

  // ---------- steps ----------

  function AdmitStep(s: State, id: ContainerId, fd: int, req: Word, throttled: nat, now: int, agentFound: bool): State {
    var (cpu, quota) := Admission(s.cpu, req);
    var reg := Push(s.reg, id, NewContainer(fd, quota, throttled, now, agentFound));
    s.(cpu := cpu, reg := reg, fair := FairShare(cpu.total, reg),
       agents := if agentFound then AddAgent(s.agents, id) else s.agents)
  }

  function ReportStep(s: State, id: ContainerId, u: Usage): State
    requires id in s.reg
  {
    var (cpu, leak, c) := Report(s.cpu, s.fair, s.leak, Back(s.reg[id]), u);
    s.(cpu := cpu, leak := leak, reg := Update(s.reg, id, c))
  }

  function IdleStep(s: State, id: ContainerId, now: int, rpcOk: bool): State {
    if id in s.reg && NeedsIdleReset(Back(s.reg[id]), now) && Back(s.reg[id]).inserted && rpcOk then
      var (cpu, c) := IdleReset(s.cpu, Back(s.reg[id]));
      s.(cpu := cpu, reg := Update(s.reg, id, c))
    else
      s
  }

  function PodSpecStep(s: State, docker: DockerId, id: ContainerId): State {
    s.(deployed := s.deployed[id := (if id in s.deployed then s.deployed[id] else []) + [docker]],
       dockers := if docker in s.dockers then s.dockers else s.dockers[docker := id])
  }

  /** The docker id resolves to a container id; cgroup 0 stands for "not found". */
  predicate Resolves(s: State, docker: DockerId) {
    docker in s.dockers && s.dockers[docker].cgroup != 0
  }

  function DeleteStep(s: State, docker: DockerId): State
    requires Resolves(s, docker) && s.dockers[docker] in s.reg
  {
    var id := s.dockers[docker];
    var front := s.reg[id][0];
    var reg := Pop(s.reg, id);
    s.(cpu := Release(s.cpu, front.quota), mem := Credit(s.mem, front.memLimit),
       reg := reg, fair := FairShare(s.cpu.total, reg),
       agents := s.agents - {id}, deployed := s.deployed - {id}, dockers := s.dockers - {docker})
  }

  /** The reply to a deletion: every one of the four maps must have had its entry. */
  predicate DeleteSucceeds(s: State, docker: DockerId) {
    && Resolves(s, docker)
    && var id := s.dockers[docker];
       id in s.agents && id in s.reg && id in s.deployed
  }

  ghost predicate Refused(s: State, fd: int, env: Readings) {
    Replenish(s.mem, s.reg, env, fd).0.unalloc <= 0
  }

  /** Hand out at most one slice of a replenished pool and record the requester's new limit. */
  function GrantStep(s: State, mem: MemCounters, reg: Registry, id: ContainerId, pages: nat): Outcome {
    if mem.unalloc <= 0 then
      Running(s.(reg := reg))
    else if id in reg then
      Running(s.(mem := Charge(mem, GrantedPages(mem)),
                 reg := Update(reg, id, Back(reg[id]).(memLimit := pages + GrantedPages(mem)))))
    else
      Exited
  }

  /** Reclaiming looks up the agent of every container that is not spared. */
  function RequestAgents(s: State, fd: int): AgentMap {
    if s.mem.unalloc > 0 then s.agents else LookUpAll(s.agents, Others(s.reg, fd))
  }

  ghost function RequestStep(s: State, id: ContainerId, pages: nat, fd: int, env: Readings): Outcome {
    var (mem, reg) := Replenish(s.mem, s.reg, env, fd);
    GrantStep(s.(agents := RequestAgents(s, fd)), mem, reg, id, pages)
  }

  function SetLimit(reg: Registry, id: ContainerId, k: nat, pages: nat): Registry
    requires id in reg && k < |reg[id]|
  {
    reg[id := reg[id][k := reg[id][k].(memLimit := pages)]]
  }

  function SetPodLimit(s: State, mem: MemCounters, reg: Registry, id: ContainerId, k: nat, pages: nat): State
    requires id in reg && k < |reg[id]|
  {
    s.(mem := mem, reg := SetLimit(reg, id, k, pages))
  }

  function PodLimitAgents(s: State, id: ContainerId, k: nat, pages: nat): AgentMap
    requires id in s.reg && k < |s.reg[id]|
  {
    LookUpAll(LookUp(s.agents, id), if PodReclaims(s.mem, pages) then Others(s.reg, s.reg[id][k].fd) else {})
  }

  ghost function PodLimitStep(s: State, id: ContainerId, k: nat, bytes: nat, env: Readings, rpcOk: bool): State
    requires id in s.reg && k < |s.reg[id]|
  {
    var pages := bytes / PAGE;
    var (mem, reg) := PayForPod(s.mem, s.reg, env, s.reg[id][k].fd, pages, rpcOk);
    SetPodLimit(s.(agents := PodLimitAgents(s, id, k, pages)), mem, reg, id, k, pages)
  }

  function SweepStep(s: State, id: ContainerId, r: MemReading): State {
    if id in s.reg then
      s.(pending := s.pending + PagesFrom(Back(s.reg[id]).memLimit, r), agents := LookUp(s.agents, id),
         reg := s.reg[id := ReclaimQueue(s.reg[id], r)])
    else
      s
  }

  function CreditStep(s: State): State {
    if s.pending > 0 then s.(mem := Credit(s.mem, s.pending), pending := 0) else s
  }

  /** The event as the controller gets to see it: without an agent, usage and limit of a container read as 0. */
  function SeenBy(s: State, e: Event): Event {
    match e
    case MemRequest(id, pages, fd, env) => MemRequest(id, pages, fd, Seen(s.agents, s.reg.Keys, env))
    case PodLimit(id, k, bytes, env, rpcOk) =>
      PodLimit(id, k, if HasAgent(s.agents, id) then bytes else 0, Seen(s.agents, s.reg.Keys, env), rpcOk)
    case SweepReclaim(id, r) => SweepReclaim(id, SeenReading(s.agents, id, r))
    case _ => e
  }

  ghost predicate PodLimitMissesAgent(s: State, id: ContainerId, fd: int, pages: nat, env: Readings) {
    || (PodReclaims(s.mem, pages) && ReclaimMissesAgent(s.agents, s.reg, env, fd))
    || (PodShrinks(s.mem, s.reg, env, fd, pages) && !HasAgent(s.agents, id))
  }

  /** The handler asks an agent for a resize and finds none. An admission does so when the pool does not cover the
      request, a report or an idle reset when it changes a quota, and a memory handler when it reclaims. */
  ghost predicate MissesAgent(s: State, e: Event) {
    match e
    case Admit(id, _, req, _, _, agentFound) =>
      agentFound && s.cpu.unalloc < req && !HasAgent(AddAgent(s.agents, id), id)
    case CpuReport(id, u) =>
      && id in s.reg && Back(s.reg[id]).inserted && !HasAgent(s.agents, id)
      && AsksQuota(s.cpu, s.fair, s.leak, Back(s.reg[id]), u)
    case IdleCheck(id, now, _) =>
      id in s.reg && Back(s.reg[id]).inserted && !HasAgent(s.agents, id) && NeedsIdleReset(Back(s.reg[id]), now)
    case MemRequest(_, _, fd, env) =>
      s.mem.unalloc <= 0 && ReclaimMissesAgent(s.agents, s.reg, env, fd)
    case PodLimit(id, k, bytes, env, _) =>
      id in s.reg && k < |s.reg[id]| && PodLimitMissesAgent(s, id, s.reg[id][k].fd, bytes / PAGE, env)
    case SweepReclaim(id, r) =>
      id in s.reg && ShrinkMissesAgent(s.agents, id, Back(s.reg[id]).memLimit, r)
    case _ => false
  }

  /** What a handler does when every agent it asks is there. */
  ghost function Effect(s: State, e: Event): Outcome {
    match e
    case Admit(id, fd, req, throttled, now, agentFound) =>
      Running(AdmitStep(s, id, fd, req, throttled, now, agentFound))
    case CpuReport(id, u) =>
      if id in s.reg then Running(ReportStep(s, id, u)) else Exited
    case IdleCheck(id, now, rpcOk) =>
      Running(IdleStep(s, id, now, rpcOk))
    case PodSpec(docker, id) =>
      Running(PodSpecStep(s, docker, id))
    case DeletePod(docker) =>
      if !Resolves(s, docker) then Running(s)
      else if s.dockers[docker] in s.reg then Running(DeleteStep(s, docker))
      else Exited
    case MemRequest(id, pages, fd, env) =>
      RequestStep(s, id, pages, fd, env)
    case PodLimit(id, k, bytes, env, rpcOk) =>
      if id in s.reg && k < |s.reg[id]| then Running(PodLimitStep(s, id, k, bytes, env, rpcOk)) else Running(s)
    case SweepReclaim(id, r) =>
      Running(SweepStep(s, id, r))
    case SweepCredit =>
      Running(CreditStep(s))
  }

  ghost function Step(s: State, e: Event): Outcome {
    if MissesAgent(s, SeenBy(s, e)) then Exited else Effect(s, SeenBy(s, e))
  }

  lemma StepIsEffect(s: State, e: Event)
    requires Step(s, e).Running?
    ensures Step(s, e) == Effect(s, SeenBy(s, e))
    ensures !e.MemRequest? && !e.PodLimit? && !e.SweepReclaim? ==> SeenBy(s, e) == e
  {
    hide MissesAgent, Effect;
  }

  /** Running a sequence of events. */
  ghost function Run(s: State, es: seq<Event>): Outcome
    decreases es
  {
    if es == [] then Running(s) else
      match Step(s, es[0])
      case Running(s') => Run(s', es[1..])
      case Exited => Exited
  }

  lemma {:induction false} RunConcat(s: State, es: seq<Event>, fs: seq<Event>)
    requires Run(s, es).Running?
    ensures Run(s, es + fs) == Run(Run(s, es).state, fs)
    decreases es
  {
    hide Step;
    if es == [] {
      assert es + fs == fs;
    } else {
      assert (es + fs)[1..] == es[1..] + fs;
      RunConcat(Step(s, es[0]).state, es[1..], fs);
    }
  }

  lemma RunOne(s: State, e: Event)
    ensures Run(s, [e]) == Step(s, e)
  {
    hide Step;
    assert [e][1..] == [];
    if Step(s, e).Running? {
      assert Run(Step(s, e).state, []) == Running(Step(s, e).state);
    }
  }

  function QuotaOf(c: Container): nat { c.quota }
  function LimitOf(c: Container): nat { c.memLimit }

  ghost function TotalQuota(s: State): nat { Total(s.reg, QuotaOf) }
  ghost function TotalLimit(s: State): nat { Total(s.reg, LimitOf) }
}
