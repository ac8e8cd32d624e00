/** The registry of containers refines a log: each id's queue is what was admitted under it, less its oldest entries,
    one for each deletion. Containers are told apart by what never changes: the connection they were admitted on and
    whether their admission found an agent. */
module RegistryLog {
  import opened Sums
  import opened Containers
  import opened CpuControl
  import opened MemControl
  import opened Controller
  import opened CpuLedger
  import opened MemorySafety

  /** What stays the same of a container for its whole life. */
  datatype Tag = Tag(fd: int, inserted: bool)

  ghost function TagOf(c: Container): Tag { Tag(c.fd, c.inserted) }

  ghost function Tags(q: seq<Container>): (r: seq<Tag>)
    ensures |r| == |q|
    ensures forall i :: 0 <= i < |q| ==> r[i] == TagOf(q[i])
  {
    seq(|q|, i requires 0 <= i < |q| => TagOf(q[i]))
  }

  /** The containers queued under an id, oldest first. */
  ghost function Queued(reg: Registry, id: ContainerId): seq<Tag> {
    if id in reg then Tags(reg[id]) else []
  }

  ghost function Admits(e: Event, id: ContainerId): seq<Tag> {
    if e.Admit? && e.id == id then [Tag(e.fd, e.agentFound)] else []
  }

  ghost function Deletes(s: State, e: Event, id: ContainerId): nat {
    if e.DeletePod? && Resolves(s, e.docker) && s.dockers[e.docker] == id && id in s.reg then 1 else 0
  }

  lemma UpdateKeepsQueued(reg: Registry, id: ContainerId, c: Container, j: ContainerId)
    requires id in reg && TagOf(c) == TagOf(Back(reg[id]))
    ensures Queued(Update(reg, id, c), j) == Queued(reg, j)
  {
  }

  lemma LimitsKeepQueued(reg: Registry, reg': Registry, j: ContainerId)
    requires OnlyLimitsDiffer(reg, reg')
    ensures Queued(reg', j) == Queued(reg, j)
  {
    if j in reg {
      assert QueueFramed(reg[j], reg'[j]);
    }
  }

  lemma PushQueued(reg: Registry, id: ContainerId, c: Container, j: ContainerId)
    ensures Queued(Push(reg, id, c), j) == Queued(reg, j) + if j == id then [TagOf(c)] else []
  {
  }

  lemma PopQueued(reg: Registry, id: ContainerId, j: ContainerId)
    requires id in reg
    ensures |Queued(reg, id)| >= 1
    ensures Queued(Pop(reg, id), j) == if j == id then Queued(reg, j)[1..] else Queued(reg, j)
  {
  }

  lemma StepQueued(s: State, e: Event, id: ContainerId)
    requires Step(s, e).Running?
    ensures Deletes(s, e, id) <= |Queued(s.reg, id)|
    ensures Queued(Step(s, e).state.reg, id) == Queued(s.reg, id)[Deletes(s, e, id)..] + Admits(e, id)
  {
    hide Report, Queued;
    match e
    case CpuReport(j, u) =>
      ReportKeepsLimit(s.cpu, s.fair, s.leak, Back(s.reg[j]), u);
      UpdateKeepsQueued(s.reg, j, Report(s.cpu, s.fair, s.leak, Back(s.reg[j]), u).2, id);
    case IdleCheck(j, _, _) =>
      if j in s.reg {
        UpdateKeepsQueued(s.reg, j, IdleReset(s.cpu, Back(s.reg[j])).1, id);
      }
    case Admit(j, fd, req, throttled, now, found) =>
      PushQueued(s.reg, j, NewContainer(fd, Admission(s.cpu, req).1, throttled, now, found), id);
    case DeletePod(docker) =>
      if Resolves(s, docker) {
        PopQueued(s.reg, s.dockers[docker], id);
      }
    case PodSpec(_, _) =>
    case _ =>
      MemoryStepFrames(s, e);
      LimitsKeepQueued(s.reg, Step(s, e).state.reg, id);
  }

  ghost function AdmittedTo(s: State, es: seq<Event>, id: ContainerId): seq<Tag>
    decreases es
  {
    if es == [] || !Step(s, es[0]).Running? then []
    else Admits(es[0], id) + AdmittedTo(Step(s, es[0]).state, es[1..], id)
  }

  ghost function DeletedFrom(s: State, es: seq<Event>, id: ContainerId): nat
    decreases es
  {
    if es == [] || !Step(s, es[0]).Running? then 0
    else Deletes(s, es[0], id) + DeletedFrom(Step(s, es[0]).state, es[1..], id)
  }

  lemma DropTwice(q: seq<Tag>, a: seq<Tag>, rest: seq<Tag>, d: nat, d': nat)
    requires d <= |q| && d' <= |q[d..] + a + rest|
    ensures d + d' <= |q + (a + rest)|
    ensures (q[d..] + a + rest)[d'..] == (q + (a + rest))[d + d'..]
  {
    assert q + (a + rest) == q[..d] + (q[d..] + a + rest);
  }

  /** The log of an id: what is queued at the start and what the run admits. */
  ghost function Log(s: State, es: seq<Event>, id: ContainerId): seq<Tag> {
    Queued(s.reg, id) + AdmittedTo(s, es, id)
  }

  lemma {:induction false} QueueIsLog(s: State, es: seq<Event>, id: ContainerId)
    requires Run(s, es).Running?
    ensures DeletedFrom(s, es, id) <= |Log(s, es, id)|
    ensures Queued(Run(s, es).state.reg, id) == Log(s, es, id)[DeletedFrom(s, es, id)..]
    decreases es
  {
    hide Step, Queued, Admits, Deletes;
    if es == [] {
      assert Log(s, es, id) == Queued(s.reg, id);
    } else {
      var s' := Step(s, es[0]).state;
      StepQueued(s, es[0], id);
      QueueIsLog(s', es[1..], id);
      DropTwice(Queued(s.reg, id), Admits(es[0], id), AdmittedTo(s', es[1..], id),
                Deletes(s, es[0], id), DeletedFrom(s', es[1..], id));
    }
  }

  /** For every id and every run, the queue is everything admitted under the id with the first entries dropped, one
      for each deletion; and the id is registered exactly when something remains. */
  lemma RegistryRefinesLog(s: State, es: seq<Event>, id: ContainerId)
    requires Run(s, es).Running?
    ensures var log, d := Log(s, es, id), DeletedFrom(s, es, id);
            && d <= |log|
            && Queued(Run(s, es).state.reg, id) == log[d..]
            && (id in Run(s, es).state.reg <==> d < |log|)
  {
    hide Step, Run;
    QueueIsLog(s, es, id);
  }

  /** A deletion that resolves exits exactly when nothing is queued under the id; otherwise it removes the oldest
      entry and returns precisely that entry's quota and pages. */
  lemma DeleteReturnsOldest(s: State, docker: DockerId)
    requires Small(s) && MemSafe(s) && s.cpu.alloc == TotalQuota(s) && Resolves(s, docker)
    ensures var id := s.dockers[docker];
            && (Step(s, DeletePod(docker)).Exited? <==> Queued(s.reg, id) == [])
            && (Step(s, DeletePod(docker)).Running? ==>
                 var s', front := Step(s, DeletePod(docker)).state, s.reg[id][0];
                 && TagOf(front) == Queued(s.reg, id)[0]
                 && Queued(s'.reg, id) == Queued(s.reg, id)[1..]
                 && (forall j :: j != id ==> Queued(s'.reg, j) == Queued(s.reg, j))
                 && s'.cpu.unalloc == s.cpu.unalloc + front.quota && s'.cpu.alloc == s.cpu.alloc - front.quota
                 && s'.mem.unalloc == s.mem.unalloc + front.memLimit && s'.mem.alloc == s.mem.alloc - front.memLimit)
  {
    hide SumMap, SumSeq;
    var id := s.dockers[docker];
    if id in s.reg {
      TotalPop(s.reg, id, QuotaOf);
      TotalPop(s.reg, id, LimitOf);
      LimitsFit(s);
      ReleaseSurplus(s.cpu, s.reg[id][0].quota);
      forall j ensures Queued(Pop(s.reg, id), j) == if j == id then Queued(s.reg, j)[1..] else Queued(s.reg, j) {
        PopQueued(s.reg, id, j);
      }
      assert |Queued(s.reg, id)| > 0;
      hide Queued, Pop, FairShare, Total, Release;
    }
  }

  // ---------- superseded containers are frozen ----------

  ghost predicate SameButLimit(c: Container, c': Container) { c' == c.(memLimit := c'.memLimit) }

  /** Entry `i` of the queue is superseded in `reg` and the same container, but for its limit, is superseded `d` places
      further to the front in `reg'`. */
  ghost predicate MovedUp(reg: Registry, reg': Registry, id: ContainerId, i: nat, d: nat) {
    && id in reg && i < |reg[id]| - 1 && d <= i
    && id in reg' && i - d < |reg'[id]| - 1 && SameButLimit(reg[id][i], reg'[id][i - d])
  }

  lemma LimitsMoveNothing(reg: Registry, reg': Registry, id: ContainerId, i: nat)
    requires OnlyLimitsDiffer(reg, reg') && id in reg && i < |reg[id]| - 1
    ensures MovedUp(reg, reg', id, i, 0)
  {
    assert QueueFramed(reg[id], reg'[id]);
  }

  lemma NothingMoves(reg: Registry, id: ContainerId, i: nat)
    requires id in reg && i < |reg[id]| - 1
    ensures MovedUp(reg, reg, id, i, 0)
  {
  }

  lemma UpdateMovesNothing(reg: Registry, j: ContainerId, c: Container, id: ContainerId, i: nat)
    requires j in reg && id in reg && i < |reg[id]| - 1
    ensures MovedUp(reg, Update(reg, j, c), id, i, 0)
  {
  }

  lemma PushMovesNothing(reg: Registry, j: ContainerId, c: Container, id: ContainerId, i: nat)
    requires id in reg && i < |reg[id]| - 1
    ensures MovedUp(reg, Push(reg, j, c), id, i, 0)
  {
  }

  lemma PopMovesUp(reg: Registry, j: ContainerId, id: ContainerId, i: nat)
    requires j in reg && id in reg && (if j == id then 1 else 0) <= i < |reg[id]| - 1
    ensures MovedUp(reg, Pop(reg, j), id, i, if j == id then 1 else 0)
  {
  }

  lemma StepMovesUp(s: State, e: Event, id: ContainerId, i: nat)
    requires Step(s, e).Running? && id in s.reg && Deletes(s, e, id) <= i < |s.reg[id]| - 1
    ensures MovedUp(s.reg, Step(s, e).state.reg, id, i, Deletes(s, e, id))
  {
    hide Report, IdleReset, Admission, NewContainer, Update, Push, Pop, MovedUp, Release, Credit, FairShare;
    match e
    case CpuReport(j, u) =>
      UpdateMovesNothing(s.reg, j, Report(s.cpu, s.fair, s.leak, Back(s.reg[j]), u).2, id, i);
    case IdleCheck(j, _, _) =>
      if j in s.reg {
        UpdateMovesNothing(s.reg, j, IdleReset(s.cpu, Back(s.reg[j])).1, id, i);
      }
      NothingMoves(s.reg, id, i);
    case Admit(j, fd, req, throttled, now, found) =>
      PushMovesNothing(s.reg, j, NewContainer(fd, Admission(s.cpu, req).1, throttled, now, found), id, i);
    case DeletePod(docker) =>
      if Resolves(s, docker) {
        PopMovesUp(s.reg, s.dockers[docker], id, i);
      } else {
        NothingMoves(s.reg, id, i);
      }
    case PodSpec(_, _) => NothingMoves(s.reg, id, i);
    case _ =>
      MemoryStepFrames(s, e);
      LimitsMoveNothing(s.reg, Step(s, e).state.reg, id, i);
  }

  /** In every run, once a newer container is queued under the same id nothing of the older one changes but its memory
      limit: it keeps its quota and statistics and moves to the front by one place for each deletion, until it is
      deleted itself. */
  lemma {:induction false} SupersededIsFrozen(s: State, es: seq<Event>, id: ContainerId, i: nat)
    requires Run(s, es).Running? && id in s.reg && DeletedFrom(s, es, id) <= i < |s.reg[id]| - 1
    ensures MovedUp(s.reg, Run(s, es).state.reg, id, i, DeletedFrom(s, es, id))
    decreases es
  {
    hide Step, Deletes;
    if es != [] {
      StepMovesUp(s, es[0], id, i);
      SupersededIsFrozen(Step(s, es[0]).state, es[1..], id, i - Deletes(s, es[0], id));
    }
  }
}
