/** Pod specs over whole runs: which id a docker id stands for, and which docker ids are queued under an id. */
module PodHistory {
  import opened Containers
  import opened CpuControl
  import opened MemControl
  import opened Controller
  import opened CpuLedger
  import opened RegistryLog
  import opened AgentHistory

  datatype Named = Unnamed | Named(id: ContainerId)

  ghost function NameOf(dockers: map<DockerId, ContainerId>, docker: DockerId): Named {
    if docker in dockers then Named(dockers[docker]) else Unnamed
  }

  /** The event deletes the pod a docker id stands for. */
  ghost predicate Unmaps(s: State, e: Event, docker: DockerId) {
    e.DeletePod? && e.docker == docker && Resolves(s, docker)
  }

  lemma StepNames(s: State, e: Event, docker: DockerId)
    requires Step(s, e).Running?
    ensures NameOf(Step(s, e).state.dockers, docker) ==
            if Unmaps(s, e, docker) then Unnamed
            else if NameOf(s.dockers, docker).Unnamed? && e.PodSpec? && e.docker == docker then Named(e.id)
            else NameOf(s.dockers, docker)
  {
    StepIsEffect(s, e);
    hide Step, Report, IdleReset, Admission, Push, Pop, Release, Credit, FairShare;
    if IsMemoryEvent(e) {
      MemoryStepFrames(s, e);
      hide Effect;
    }
  }

  /** How often the pod a docker id stands for is deleted. */
  ghost function Unmapped(s: State, es: seq<Event>, docker: DockerId): nat
    decreases es
  {
    if es == [] || !Step(s, es[0]).Running? then 0
    else (if Unmaps(s, es[0], docker) then 1 else 0) + Unmapped(Step(s, es[0]).state, es[1..], docker)
  }

  /** The events after the last such deletion. */
  ghost function SinceUnmapped(s: State, es: seq<Event>, docker: DockerId): seq<Event>
    decreases es
  {
    if es == [] || !Step(s, es[0]).Running? || Unmapped(s, es, docker) == 0 then es
    else SinceUnmapped(Step(s, es[0]).state, es[1..], docker)
  }

  /** The id of the first pod spec that names a docker id. */
  function FirstSpec(es: seq<Event>, docker: DockerId): Named {
    if es == [] then Unnamed
    else if es[0].PodSpec? && es[0].docker == docker then Named(es[0].id)
    else FirstSpec(es[1..], docker)
  }

  lemma {:induction false} NamesWithoutDeletion(s: State, es: seq<Event>, docker: DockerId)
    requires Run(s, es).Running? && Unmapped(s, es, docker) == 0
    ensures NameOf(Run(s, es).state.dockers, docker) ==
            if NameOf(s.dockers, docker).Named? then NameOf(s.dockers, docker) else FirstSpec(es, docker)
    decreases es
  {
    hide Step, NameOf, Unmaps;
    if es != [] {
      StepNames(s, es[0], docker);
      NamesWithoutDeletion(Step(s, es[0]).state, es[1..], docker);
    }
  }

  /** In every run a docker id stands for the id of the first pod spec naming it since the last deletion of its pod, unless
      it stood for one at the start and nothing was deleted. */
  lemma {:induction false} FirstSpecWins(s: State, es: seq<Event>, docker: DockerId)
    requires Run(s, es).Running?
    ensures NameOf(Run(s, es).state.dockers, docker) ==
            if Unmapped(s, es, docker) == 0 && NameOf(s.dockers, docker).Named? then NameOf(s.dockers, docker)
            else FirstSpec(SinceUnmapped(s, es, docker), docker)
    decreases es
  {
    hide Step, NameOf, Unmaps;
    if Unmapped(s, es, docker) == 0 {
      NamesWithoutDeletion(s, es, docker);
    } else {
      var s' := Step(s, es[0]).state;
      FirstSpecWins(s', es[1..], docker);
      if Unmapped(s', es[1..], docker) == 0 {
        StepNames(s, es[0], docker);
      }
    }
  }

  // ---------- the docker ids queued under an id ----------

  ghost function DockersOf(deployed: map<ContainerId, seq<DockerId>>, id: ContainerId): seq<DockerId> {
    if id in deployed then deployed[id] else []
  }

  ghost function Names(e: Event, id: ContainerId): seq<DockerId> {
    if e.PodSpec? && e.id == id then [e.docker] else []
  }

  /** The docker ids that pod specs name an id with, in their order. */
  ghost function SpecsOf(es: seq<Event>, id: ContainerId): seq<DockerId> {
    if es == [] then [] else Names(es[0], id) + SpecsOf(es[1..], id)
  }

  lemma StepDockers(s: State, e: Event, id: ContainerId)
    requires Step(s, e).Running?
    ensures DockersOf(Step(s, e).state.deployed, id) ==
            if Deletes(s, e, id) > 0 then [] else DockersOf(s.deployed, id) + Names(e, id)
  {
    StepIsEffect(s, e);
    hide Step, Report, IdleReset, NeedsIdleReset, Admission, Push, Pop, Update, Release, Credit, FairShare, SeenBy;
    assert DockersOf(s.deployed, id) + [] == DockersOf(s.deployed, id);
    if IsMemoryEvent(e) {
      MemoryStepFrames(s, e);
      hide Effect;
    }
  }

  lemma {:induction false} DockersWithoutDeletion(s: State, es: seq<Event>, id: ContainerId)
    requires Run(s, es).Running? && DeletedFrom(s, es, id) == 0
    ensures DockersOf(Run(s, es).state.deployed, id) == DockersOf(s.deployed, id) + SpecsOf(es, id)
    decreases es
  {
    hide Step, DockersOf, Names, Deletes;
    if es != [] {
      StepDockers(s, es[0], id);
      DockersWithoutDeletion(Step(s, es[0]).state, es[1..], id);
    }
  }

  /** In every run the docker ids queued under an id are those that pod specs named it with since the last deletion under
      the id, in their order, after those queued at the start if nothing was deleted. */
  lemma {:induction false} DockersSinceDelete(s: State, es: seq<Event>, id: ContainerId)
    requires Run(s, es).Running?
    ensures DockersOf(Run(s, es).state.deployed, id) ==
            (if DeletedFrom(s, es, id) > 0 then [] else DockersOf(s.deployed, id)) + SpecsOf(SinceDelete(s, es, id), id)
    decreases es
  {
    hide Step, DockersOf, Names, Deletes;
    if DeletedFrom(s, es, id) == 0 {
      DockersWithoutDeletion(s, es, id);
    } else {
      var s' := Step(s, es[0]).state;
      DockersSinceDelete(s', es[1..], id);
      if DeletedFrom(s', es[1..], id) == 0 {
        StepDockers(s, es[0], id);
      }
    }
  }
}
