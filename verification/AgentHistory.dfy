/** Agents over whole runs: the entry of an id is whatever first touched it since the last deletion under the id. That
    decides what a deletion replies, which containers have nobody to resize them, and when a resize ends the process. */
module AgentHistory {
  import opened Words
  import opened Containers
  import opened Agents
  import opened CpuControl
  import opened MemControl
  import opened Controller
  import opened CpuLedger
  import opened RegistryLog
  import opened Convergence

  // ---------- what touches an entry ----------

  datatype Touch = Untouched | Touched(entry: AgentEntry)

  /** The handler of an event reclaims from an id: it reads the usage and may ask for a resize. */
  ghost predicate ReclaimsFrom(s: State, e: Event, id: ContainerId) {
    id in s.reg &&
    match e
    case SweepReclaim(j, _) => j == id
    case MemRequest(_, _, fd, _) => s.mem.unalloc <= 0 && id in Others(s.reg, fd)
    case PodLimit(j, k, bytes, _, _) =>
      && j in s.reg && k < |s.reg[j]|
      && PodReclaims(s.mem, (if HasAgent(s.agents, j) then bytes else 0) / PAGE) && id in Others(s.reg, s.reg[j][k].fd)
    case _ => false
  }

  /** It looks up the agent of an id to read its usage or its limit. */
  ghost predicate LooksUp(s: State, e: Event, id: ContainerId) {
    ReclaimsFrom(s, e, id) || (e.PodLimit? && e.id == id && id in s.reg && e.k < |s.reg[id]|)
  }

  /** What an event puts into an entry that is not there yet. */
  ghost function TouchOf(s: State, e: Event, id: ContainerId): Touch {
    if e.Admit? && e.id == id && e.agentFound then Touched(Linked)
    else if LooksUp(s, e, id) then Touched(Empty)
    else Untouched
  }

  ghost function EntryOf(agents: AgentMap, id: ContainerId): Touch {
    if id in agents then Touched(agents[id]) else Untouched
  }

  ghost function Earlier(first: Touch, second: Touch): Touch {
    if first.Touched? then first else second
  }

  lemma EffectTouches(s: State, e: Event, id: ContainerId)
    requires e.Admit? || e.SweepReclaim? || e.PodLimit? || e.MemRequest?
    requires Effect(s, e).Running? && !(e.PodLimit? && !HasAgent(s.agents, e.id) && e.bytes != 0)
    ensures EntryOf(Effect(s, e).state.agents, id) == Earlier(EntryOf(s.agents, id), TouchOf(s, e, id))
  {
    hide ReclaimQueue, PagesFrom, Admission, Push, PayForPod, Replenish, PodReclaims;
    match e
    case Admit(_, _, _, _, _, _) =>
    case SweepReclaim(_, _) =>
    case PodLimit(_, _, _, _, _) =>
    case MemRequest(j, pages, fd, env) => RequestTouches(s, j, pages, fd, env);
  }

  lemma RequestTouches(s: State, j: ContainerId, pages: nat, fd: int, env: Readings)
    requires RequestStep(s, j, pages, fd, env).Running?
    ensures RequestStep(s, j, pages, fd, env).state.agents == RequestAgents(s, fd)
  {
    hide Replenish, RequestAgents, Update, Charge;
  }

  lemma OtherEffectTouches(s: State, e: Event, id: ContainerId)
    requires !(e.Admit? || e.SweepReclaim? || e.PodLimit? || e.MemRequest?) && Effect(s, e).Running?
    ensures EntryOf(Effect(s, e).state.agents, id) ==
            if Deletes(s, e, id) > 0 then Untouched else Earlier(EntryOf(s.agents, id), TouchOf(s, e, id))
  {
    hide Report, IdleReset, NeedsIdleReset, Pop, Update, Release, Credit, FairShare;
  }

  lemma StepTouches(s: State, e: Event, id: ContainerId)
    requires Step(s, e).Running?
    ensures EntryOf(Step(s, e).state.agents, id) ==
            if Deletes(s, e, id) > 0 then Untouched else Earlier(EntryOf(s.agents, id), TouchOf(s, e, id))
  {
    StepIsEffect(s, e);
    SeenTouches(s, e, id);
    NoDeletion(s, e, id);
    hide Effect, Step, TouchOf, Deletes, EntryOf;
    if e.Admit? || e.SweepReclaim? || e.PodLimit? || e.MemRequest? {
      EffectTouches(s, SeenBy(s, e), id);
    } else {
      OtherEffectTouches(s, e, id);
    }
  }

  lemma NoDeletion(s: State, e: Event, id: ContainerId)
    ensures !e.DeletePod? ==> Deletes(s, e, id) == 0
  {
  }

  /** What the controller does not get to see makes no difference to what it looks up. */
  lemma SeenTouches(s: State, e: Event, id: ContainerId)
    ensures TouchOf(s, SeenBy(s, e), id) == TouchOf(s, e, id)
    ensures Deletes(s, SeenBy(s, e), id) == Deletes(s, e, id)
    ensures var e' := SeenBy(s, e);
            && (e'.Admit? <==> e.Admit?) && (e'.SweepReclaim? <==> e.SweepReclaim?)
            && (e'.PodLimit? <==> e.PodLimit?) && (e'.MemRequest? <==> e.MemRequest?)
            && !(e'.PodLimit? && !HasAgent(s.agents, e'.id) && e'.bytes != 0)
  {
  }

  // ---------- since the last deletion ----------

  /** The state right after the last deletion under an id. */
  ghost function LastCleared(s: State, es: seq<Event>, id: ContainerId): State
    decreases es
  {
    if es == [] || !Step(s, es[0]).Running? || DeletedFrom(s, es, id) == 0 then s
    else LastCleared(Step(s, es[0]).state, es[1..], id)
  }

  /** The events after it. */
  ghost function SinceDelete(s: State, es: seq<Event>, id: ContainerId): seq<Event>
    decreases es
  {
    if es == [] || !Step(s, es[0]).Running? || DeletedFrom(s, es, id) == 0 then es
    else SinceDelete(Step(s, es[0]).state, es[1..], id)
  }

  ghost function FirstTouch(s: State, es: seq<Event>, id: ContainerId): Touch
    decreases es
  {
    if es == [] || !Step(s, es[0]).Running? then Untouched
    else Earlier(TouchOf(s, es[0], id), FirstTouch(Step(s, es[0]).state, es[1..], id))
  }

  /** What first touched the agent entry of an id since the last deletion under it. */
  ghost function FirstSinceDelete(s: State, es: seq<Event>, id: ContainerId): Touch {
    FirstTouch(LastCleared(s, es, id), SinceDelete(s, es, id), id)
  }

  lemma {:induction false} EntryWithoutDeletion(s: State, es: seq<Event>, id: ContainerId)
    requires Run(s, es).Running? && DeletedFrom(s, es, id) == 0
    ensures EntryOf(Run(s, es).state.agents, id) == Earlier(EntryOf(s.agents, id), FirstTouch(s, es, id))
    decreases es
  {
    hide Step, EntryOf, TouchOf, Deletes;
    if es != [] {
      StepTouches(s, es[0], id);
      EntryWithoutDeletion(Step(s, es[0]).state, es[1..], id);
    }
  }

  /** In every run, the agent entry of an id is what it held at the start or else what first touched it, counting from
      the last deletion under the id, which leaves nothing. */
  lemma {:induction false} EntryIsFirstTouch(s: State, es: seq<Event>, id: ContainerId)
    requires Run(s, es).Running?
    ensures EntryOf(Run(s, es).state.agents, id) ==
            Earlier(if DeletedFrom(s, es, id) > 0 then Untouched else EntryOf(s.agents, id), FirstSinceDelete(s, es, id))
    decreases es
  {
    hide Step, EntryOf, TouchOf, Deletes;
    if DeletedFrom(s, es, id) == 0 {
      EntryWithoutDeletion(s, es, id);
    } else {
      var s' := Step(s, es[0]).state;
      EntryIsFirstTouch(s', es[1..], id);
      if DeletedFrom(s', es[1..], id) == 0 {
        StepTouches(s, es[0], id);
      }
    }
  }

  ghost predicate BringsSpec(e: Event, id: ContainerId) { e.PodSpec? && e.id == id }

  lemma StepSpecs(s: State, e: Event, id: ContainerId)
    requires Step(s, e).Running?
    ensures id in Step(s, e).state.deployed <==> (Deletes(s, e, id) == 0 && id in s.deployed) || BringsSpec(e, id)
  {
    hide Report, IdleReset, Admission, Push, Pop, Release, Credit, FairShare, MissesAgent;
    if IsMemoryEvent(e) {
      MemoryStepFrames(s, e);
      hide Effect;
    }
  }

  lemma {:induction false} SpecsWithoutDeletion(s: State, es: seq<Event>, id: ContainerId)
    requires Run(s, es).Running? && DeletedFrom(s, es, id) == 0
    ensures id in Run(s, es).state.deployed <==> id in s.deployed || exists e :: e in es && BringsSpec(e, id)
    decreases es
  {
    hide Step, Deletes, BringsSpec;
    if es != [] {
      StepSpecs(s, es[0], id);
      SpecsWithoutDeletion(Step(s, es[0]).state, es[1..], id);
      assert es == [es[0]] + es[1..];
    }
  }

  /** In every run, an id has a docker queue exactly when a pod spec named it since the last deletion under it, or it had
      one at the start and nothing was deleted. */
  lemma {:induction false} SpecsSinceDelete(s: State, es: seq<Event>, id: ContainerId)
    requires Run(s, es).Running?
    ensures id in Run(s, es).state.deployed <==>
            (DeletedFrom(s, es, id) == 0 && id in s.deployed) ||
            exists e :: e in SinceDelete(s, es, id) && BringsSpec(e, id)
    decreases es
  {
    hide Step, Deletes, BringsSpec;
    if DeletedFrom(s, es, id) == 0 {
      SpecsWithoutDeletion(s, es, id);
    } else {
      var s' := Step(s, es[0]).state;
      SpecsSinceDelete(s', es[1..], id);
      if DeletedFrom(s', es[1..], id) == 0 {
        StepSpecs(s, es[0], id);
        DeletionBringsNoSpec(s, es[0], id);
      }
    }
  }

  lemma DeletionBringsNoSpec(s: State, e: Event, id: ContainerId)
    requires Deletes(s, e, id) > 0
    ensures !BringsSpec(e, id)
  {
  }

  // ---------- what follows ----------

  /** In every run from the application spec, a deletion that takes effect replies success if and only if, since the last
      deletion under the same id, something touched the id's agent entry - an admission that found an agent, or merely a
      reading of its usage or limit - and a pod spec named it. */
  lemma DeleteSucceedsIff(cpuLimit: nat, memLimit: nat, es: seq<Event>, docker: DockerId)
    requires Run(AppSpec(cpuLimit, memLimit), es).Running?
    requires var t := Run(AppSpec(cpuLimit, memLimit), es).state; Resolves(t, docker) && t.dockers[docker] in t.reg
    ensures var s := AppSpec(cpuLimit, memLimit);
            var t := Run(s, es).state;
            var id := t.dockers[docker];
            DeleteSucceeds(t, docker) <==>
            && FirstSinceDelete(s, es, id).Touched?
            && (exists e :: e in SinceDelete(s, es, id) && BringsSpec(e, id))
  {
    var s := AppSpec(cpuLimit, memLimit);
    var id := Run(s, es).state.dockers[docker];
    EntryIsFirstTouch(s, es, id);
    SpecsSinceDelete(s, es, id);
    hide Run, SinceDelete, BringsSpec, FirstSinceDelete;
  }

  /** In every run from the application spec, an id is registered without an agent if and only if more was admitted under
      it than deleted, and what first touched its entry since the last deletion was not an admission that found one. */
  lemma OrphanedIff(cpuLimit: nat, memLimit: nat, es: seq<Event>, id: ContainerId)
    requires Run(AppSpec(cpuLimit, memLimit), es).Running?
    ensures var s := AppSpec(cpuLimit, memLimit);
            var t := Run(s, es).state;
            && (HasAgent(t.agents, id) <==> FirstSinceDelete(s, es, id) == Touched(Linked))
            && (id in t.reg && !HasAgent(t.agents, id) <==>
                DeletedFrom(s, es, id) < |AdmittedTo(s, es, id)| && FirstSinceDelete(s, es, id) != Touched(Linked))
  {
    var s := AppSpec(cpuLimit, memLimit);
    EntryIsFirstTouch(s, es, id);
    RegistryRefinesLog(s, es, id);
    assert Log(s, es, id) == AdmittedTo(s, es, id);
    hide Run, FirstSinceDelete, AdmittedTo, DeletedFrom;
  }

  // ---------- when the process exits ----------

  /** The handler is asked for a container that is not registered. */
  ghost predicate AsksUnregistered(s: State, e: Event) {
    match e
    case CpuReport(id, _) => id !in s.reg
    case DeletePod(docker) => Resolves(s, docker) && s.dockers[docker] !in s.reg
    case MemRequest(id, _, fd, env) => id !in s.reg && !Refused(s, fd, Seen(s.agents, s.reg.Keys, env))
    case _ => false
  }

  /** The handler asks the agent of an id for a resize, unless it has an agent that reports a usage close to the limit:
      an admission the pool does not cover, a report or idle reset that changes a quota, a reclaim with more than the
      margin above a usage of 0. For a container whose own admission found no agent a quota handler never gets that far. */
  ghost predicate WouldAsk(s: State, e: Event, id: ContainerId) {
    match e
    case Admit(j, _, req, _, _, agentFound) => j == id && agentFound && s.cpu.unalloc < req
    case CpuReport(j, u) =>
      j == id && id in s.reg && Back(s.reg[id]).inserted && AsksQuota(s.cpu, s.fair, s.leak, Back(s.reg[id]), u)
    case IdleCheck(j, now, _) =>
      j == id && id in s.reg && Back(s.reg[id]).inserted && NeedsIdleReset(Back(s.reg[id]), now)
    case PodLimit(j, _, _, _, _) =>
      (ReclaimsFrom(s, e, id) && ReadsAsSpare(Back(s.reg[id]).memLimit)) || (j == id && ShrinksItself(s, SeenBy(s, e)))
    case _ => ReclaimsFrom(s, e, id) && ReadsAsSpare(Back(s.reg[id]).memLimit)
  }

  ghost predicate ShrinksItself(s: State, e: Event)
    requires e.PodLimit?
  {
    && e.id in s.reg && e.k < |s.reg[e.id]|
    && PodShrinks(s.mem, s.reg, e.env, s.reg[e.id][e.k].fd, e.bytes / PAGE)
  }

  ghost predicate ReadsAsSpare(limit: nat) { Wrap(limit * PAGE) > SAFE_MARGIN }

  /** The entry a handler finds when it asks. */
  ghost function Found(before: Touch, s: State, e: Event, id: ContainerId): Touch {
    Earlier(before, TouchOf(s, e, id))
  }

  lemma ShrinkInVain(s: State, id: ContainerId, limit: nat, r: MemReading)
    requires id in s.reg && r == SeenReading(s.agents, id, r)
    ensures ShrinkMissesAgent(s.agents, id, limit, r) <==> !HasAgent(s.agents, id) && ReadsAsSpare(limit)
  {
  }

  lemma ReclaimInVain(s: State, env: Readings, fd: int)
    ensures ReclaimMissesAgent(s.agents, s.reg, Seen(s.agents, s.reg.Keys, env), fd) <==>
            exists id :: id in Others(s.reg, fd) && !HasAgent(s.agents, id) && ReadsAsSpare(Back(s.reg[id]).memLimit)
  {
    hide ShrinkMissesAgent, ReadsAsSpare;
    var seen := Seen(s.agents, s.reg.Keys, env);
    forall id | id in Others(s.reg, fd)
      ensures ShrinkMissesAgent(s.agents, id, Back(s.reg[id]).memLimit, ReadingOf(seen, id)) <==>
              !HasAgent(s.agents, id) && ReadsAsSpare(Back(s.reg[id]).memLimit)
    {
      ShrinkInVain(s, id, Back(s.reg[id]).memLimit, ReadingOf(seen, id));
    }
  }

  ghost predicate AsksInVain(s: State, e: Event, id: ContainerId) {
    WouldAsk(s, e, id) && Found(EntryOf(s.agents, id), s, e, id) != Touched(Linked)
  }

  lemma RequestMissesIff(s: State, e: Event)
    requires e.MemRequest?
    ensures MissesAgent(s, SeenBy(s, e)) <==> exists id :: AsksInVain(s, e, id)
  {
    ReclaimInVain(s, e.env, e.fd);
    hide ReadsAsSpare, ReclaimMissesAgent;
    assert forall id :: AsksInVain(s, e, id) <==>
      s.mem.unalloc <= 0 && id in Others(s.reg, e.fd) && !HasAgent(s.agents, id) && ReadsAsSpare(Back(s.reg[id]).memLimit);
    hide AsksInVain, Others;
  }

  lemma PodLimitAsksInVain(s: State, e: Event, id: ContainerId)
    requires e.PodLimit? && e.id in s.reg && e.k < |s.reg[e.id]|
    ensures AsksInVain(s, e, id) <==> PodAsks(s, e, id)
  {
    hide ReadsAsSpare, PodReclaims, PodShrinks, Seen;
  }

  lemma PodLimitMissesIff(s: State, e: Event)
    requires e.PodLimit?
    ensures MissesAgent(s, SeenBy(s, e)) <==> exists id :: AsksInVain(s, e, id)
  {
    if e.id in s.reg && e.k < |s.reg[e.id]| {
      ReclaimInVain(s, e.env, s.reg[e.id][e.k].fd);
      forall id ensures PodAsks(s, e, id) <==> AsksInVain(s, e, id) {
        PodLimitAsksInVain(s, e, id);
      }
      hide ReadsAsSpare, ReclaimMissesAgent, PodReclaims, PodShrinks, AsksInVain, Others, Seen;
      var fd, seen := s.reg[e.id][e.k].fd, SeenBy(s, e);
      if PodReclaims(s.mem, seen.bytes / PAGE) && ReclaimMissesAgent(s.agents, s.reg, seen.env, fd) {
        var id :| id in Others(s.reg, fd) && !HasAgent(s.agents, id) && ReadsAsSpare(Back(s.reg[id]).memLimit);
        assert PodAsks(s, e, id);
      } else if MissesAgent(s, seen) {
        assert PodAsks(s, e, e.id);
      }
    }
  }

  /** The two ways in which setting a pod's limit asks for a resize nobody can make. */
  ghost predicate PodAsks(s: State, e: Event, id: ContainerId)
    requires e.PodLimit? && e.id in s.reg && e.k < |s.reg[e.id]|
  {
    var fd, pages := s.reg[e.id][e.k].fd, SeenBy(s, e).bytes / PAGE;
    || (PodReclaims(s.mem, pages) && id in Others(s.reg, fd) && !HasAgent(s.agents, id) &&
        ReadsAsSpare(Back(s.reg[id]).memLimit))
    || (id == e.id && PodShrinks(s.mem, s.reg, Seen(s.agents, s.reg.Keys, e.env), fd, pages) && !HasAgent(s.agents, id))
  }

  lemma SweepMissesIff(s: State, e: Event)
    requires e.SweepReclaim?
    ensures MissesAgent(s, SeenBy(s, e)) <==> exists id :: AsksInVain(s, e, id)
  {
    if e.id in s.reg {
      ShrinkInVain(s, e.id, Back(s.reg[e.id]).memLimit, SeenReading(s.agents, e.id, e.reading));
      hide ReadsAsSpare, ShrinkMissesAgent;
      assert MissesAgent(s, SeenBy(s, e)) <==> AsksInVain(s, e, e.id);
    }
  }

  lemma QuotaMissesIff(s: State, e: Event)
    requires e.Admit? || e.CpuReport? || e.IdleCheck?
    ensures MissesAgent(s, SeenBy(s, e)) <==> exists id :: AsksInVain(s, e, id)
  {
    hide AsksQuota, NeedsIdleReset;
    assert MissesAgent(s, SeenBy(s, e)) <==> AsksInVain(s, e, e.id);
  }

  lemma MissesAgentIff(s: State, e: Event)
    ensures MissesAgent(s, SeenBy(s, e)) <==> exists id :: AsksInVain(s, e, id)
  {
    match e
    case MemRequest(_, _, _, _) => RequestMissesIff(s, e);
    case PodLimit(_, _, _, _, _) => PodLimitMissesIff(s, e);
    case SweepReclaim(_, _) => SweepMissesIff(s, e);
    case PodSpec(_, _) =>
    case DeletePod(_) =>
    case SweepCredit =>
    case _ => QuotaMissesIff(s, e);
  }

  lemma EffectExitsIff(s: State, e: Event)
    ensures Effect(s, SeenBy(s, e)).Exited? <==> AsksUnregistered(s, e)
  {
    hide ReportStep, AdmitStep, IdleStep, DeleteStep, PodLimitStep, SweepStep, CreditStep, Update;
    if e.MemRequest? {
      assert Others(s.reg, e.fd) <= s.reg.Keys;
      SameIdsReclaimed(s, e.fd, Seen(s.agents, s.reg.Keys, e.env));
      hide Replenish;
    }
  }

  lemma SameIdsReclaimed(s: State, fd: int, env: Readings)
    ensures Replenish(s.mem, s.reg, env, fd).1.Keys == s.reg.Keys
  {
  }

  /** A step ends the process if and only if it asks for a container that is not registered, or asks for a resize of an
      id and finds its agent entry absent or empty. */
  lemma StepExitsIff(s: State, e: Event)
    ensures Step(s, e).Exited? <==> AsksUnregistered(s, e) || exists id :: AsksInVain(s, e, id)
  {
    MissesAgentIff(s, e);
    EffectExitsIff(s, e);
    hide Effect, MissesAgent, AsksUnregistered, AsksInVain, SeenBy;
  }

  /** In every run from the application spec, the next event ends the process if and only if it asks for a container that
      is not registered, or for a resize of an id whose entry was first touched, since the last deletion under the id, by
      anything but an admission that found an agent. */
  lemma ExitsIff(cpuLimit: nat, memLimit: nat, es: seq<Event>, e: Event)
    requires Run(AppSpec(cpuLimit, memLimit), es).Running?
    ensures var s := AppSpec(cpuLimit, memLimit);
            var t := Run(s, es).state;
            Step(t, e).Exited? <==>
            || AsksUnregistered(t, e)
            || exists id :: WouldAsk(t, e, id) && Found(FirstSinceDelete(s, es, id), t, e, id) != Touched(Linked)
  {
    var s := AppSpec(cpuLimit, memLimit);
    var t := Run(s, es).state;
    StepExitsIff(t, e);
    hide Run, Step, FirstSinceDelete, WouldAsk, Found, AsksUnregistered;
    forall id: ContainerId
      ensures AsksInVain(t, e, id) <==>
              WouldAsk(t, e, id) && Found(FirstSinceDelete(s, es, id), t, e, id) != Touched(Linked)
    {
      EntryIsFirstTouch(s, es, id);
    }
    hide AsksInVain;
  }

  // ---------- when every agent is always there ----------

  /** One container per id, each with its agent, and no agent entry left over. */
  ghost predicate Orderly(s: State) {
    OnePerId(s.reg) && AllAttended(s) && s.agents.Keys == s.reg.Keys
  }

  /** Admissions find an agent and come under ids with no other container. */
  ghost predicate OrderlyEvent(s: State, e: Event) {
    e.Admit? ==> e.agentFound && e.id !in s.reg
  }

  lemma OrderlyAdmit(s: State, e: Event)
    requires Orderly(s) && OrderlyEvent(s, e) && e.Admit?
    ensures Orderly(Effect(s, e).state) && !MissesAgent(s, e)
  {
    hide Admission, FairShare;
    var s' := Effect(s, e).state;
    assert forall id :: id in s'.reg && id != e.id ==> id in s.reg && s'.reg[id] == s.reg[id];
    assert forall id :: id in s'.reg && id != e.id ==> Attended(s, id);
    assert Attended(s', e.id);
  }

  lemma OrderlyDelete(s: State, docker: DockerId)
    requires Orderly(s) && Resolves(s, docker) && s.dockers[docker] in s.reg
    ensures Orderly(DeleteStep(s, docker))
  {
    hide Release, Credit, FairShare;
    var s' := DeleteStep(s, docker);
    assert s'.reg == s.reg - {s.dockers[docker]};
    assert forall id :: id in s'.reg ==> Attended(s, id);
  }

  lemma OrderlyUpdate(s: State, s': State, id: ContainerId, c: Container)
    requires Orderly(s) && id in s.reg && c.inserted
    requires s'.reg == Update(s.reg, id, c) && s'.agents == s.agents
    ensures Orderly(s')
  {
    assert forall j :: j in s.reg ==> Attended(s, j);
    assert forall j :: j in s'.reg ==> Attended(s', j);
  }

  lemma OrderlyMemory(s: State, e: Event)
    requires Orderly(s) && IsMemoryEvent(e) && Step(s, e).Running?
    ensures Orderly(Step(s, e).state)
  {
    hide Effect, Step, TouchOf;
    var s' := Step(s, e).state;
    MemoryStepFrames(s, e);
    forall id ensures EntryOf(s'.agents, id) == EntryOf(s.agents, id) {
      StepTouches(s, e, id);
      MemoryTouches(s, e, id);
    }
    forall id ensures id in s'.agents <==> id in s.agents {
      assert EntryOf(s'.agents, id) == EntryOf(s.agents, id);
    }
    forall id | id in s'.reg ensures |s'.reg[id]| == 1 && Attended(s', id) {
      assert QueueFramed(s.reg[id], s'.reg[id]);
      assert Attended(s, id);
      assert EntryOf(s'.agents, id) == EntryOf(s.agents, id);
    }
  }

  /** A memory handler only looks up registered ids. */
  lemma MemoryTouches(s: State, e: Event, id: ContainerId)
    requires Orderly(s) && IsMemoryEvent(e)
    ensures Deletes(s, e, id) == 0
    ensures Earlier(EntryOf(s.agents, id), TouchOf(s, e, id)) == EntryOf(s.agents, id)
  {
    hide Others, PodReclaims;
  }

  lemma NothingInVain(s: State, e: Event)
    requires Orderly(s) && OrderlyEvent(s, e)
    ensures !exists id :: AsksInVain(s, e, id)
  {
    forall id ensures !AsksInVain(s, e, id) {
      if id in s.reg {
        assert Attended(s, id);
      }
      hide AsksQuota, ReadsAsSpare, PodShrinks, PodReclaims;
    }
  }

  lemma OrderlyStep(s: State, e: Event)
    requires Orderly(s) && OrderlyEvent(s, e) && Step(s, e).Running?
    ensures Orderly(Step(s, e).state)
  {
    if IsMemoryEvent(e) {
      OrderlyMemory(s, e);
    } else {
      StepIsEffect(s, e);
      hide Step, Orderly, Report, IdleReset;
      match e
      case Admit(_, _, _, _, _, _) => OrderlyAdmit(s, e);
      case CpuReport(id, u) =>
        OrderlyBack(s, id);
        ReportInserted(s.cpu, s.fair, s.leak, Back(s.reg[id]), u);
        OrderlyUpdate(s, ReportStep(s, id, u), id, Report(s.cpu, s.fair, s.leak, Back(s.reg[id]), u).2);
      case IdleCheck(id, now, rpcOk) =>
        if id in s.reg {
          OrderlyBack(s, id);
          var (cpu, c) := IdleReset(s.cpu, Back(s.reg[id]));
          ResetInserted(s.cpu, Back(s.reg[id]));
          OrderlyUpdate(s, s.(cpu := cpu, reg := Update(s.reg, id, c)), id, c);
        }
      case DeletePod(docker) =>
        if Resolves(s, docker) {
          OrderlyDelete(s, docker);
        }
      case PodSpec(docker, id) => OrderlySpec(s, docker, id);
    }
  }

  lemma OrderlyBack(s: State, id: ContainerId)
    requires Orderly(s) && id in s.reg
    ensures Back(s.reg[id]).inserted
  {
    assert Attended(s, id);
  }

  lemma ReportInserted(cpu: CpuCounters, fair: Word, leak: int, c: Container, u: Usage)
    ensures Report(cpu, fair, leak, c, u).2.inserted == c.inserted
  {
    hide VerdictOn, RepairLeak, CountersAfter, SettleCounters, Mismatch;
  }

  lemma ResetInserted(cpu: CpuCounters, c: Container)
    ensures IdleReset(cpu, c).1.inserted == c.inserted
  {
  }

  lemma OrderlySpec(s: State, docker: DockerId, id: ContainerId)
    requires Orderly(s)
    ensures Orderly(PodSpecStep(s, docker, id))
  {
    assert forall j :: j in s.reg ==> Attended(s, j);
    assert forall j :: j in s.reg ==> Attended(PodSpecStep(s, docker, id), j);
  }

  ghost predicate OrderlyRun(s: State, es: seq<Event>)
    decreases es
  {
    es == [] || (OrderlyEvent(s, es[0]) && (Step(s, es[0]).Running? ==> OrderlyRun(Step(s, es[0]).state, es[1..])))
  }

  lemma {:induction false} RunStaysOrderly(s: State, es: seq<Event>)
    requires Orderly(s) && OrderlyRun(s, es) && Run(s, es).Running?
    ensures Orderly(Run(s, es).state)
    decreases es
  {
    hide Step, Orderly, OrderlyEvent;
    if es != [] {
      OrderlyStep(s, es[0]);
      RunStaysOrderly(Step(s, es[0]).state, es[1..]);
    }
  }

  /** In every run from the application spec whose admissions find an agent and come under ids with no other container,
      every container always has its agent, and nothing but a request for an unregistered container ever ends the
      process. */
  lemma OrderlyRunsKeepAgents(cpuLimit: nat, memLimit: nat, es: seq<Event>, e: Event)
    requires var s := AppSpec(cpuLimit, memLimit); OrderlyRun(s, es) && Run(s, es).Running?
    ensures var t := Run(AppSpec(cpuLimit, memLimit), es).state;
            && OnePerId(t.reg) && AllAttended(t)
            && (OrderlyEvent(t, e) ==> (Step(t, e).Exited? <==> AsksUnregistered(t, e)))
  {
    var s := AppSpec(cpuLimit, memLimit);
    hide Step, Run, AsksUnregistered, OrderlyEvent, AsksInVain;
    RunStaysOrderly(s, es);
    var t := Run(s, es).state;
    if OrderlyEvent(t, e) {
      StepExitsIff(t, e);
      NothingInVain(t, e);
    }
  }
}
