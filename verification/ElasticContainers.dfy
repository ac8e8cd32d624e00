/** The elastic container: the pools, the fair share, and the registry of containers as a map of queues of objects. */
module ElasticContainers {
  import opened Words
  import opened Containers
  import opened Agents
  import opened CpuControl
  import opened MemControl
  import opened Controller
  import opened Pools
  import opened SubContainers
  import opened UsageReports

  type ScMap = map<ContainerId, seq<SubContainer>>

  /** A registered container lives inside `repr` and under its own id. */
  ghost predicate Registered(sc: SubContainer, id: ContainerId, repr: set<object>)
    reads repr
  {
    sc.id == id && sc.Footprint() <= repr && sc.Valid()
  }

  ghost function ViewOf(sc: SubContainer, repr: set<object>): Container
    requires sc.Footprint() <= repr && sc.Valid()
    reads repr
  {
    sc.View()
  }

  ghost predicate ValidQueue(q: seq<SubContainer>, id: ContainerId, repr: set<object>)
    reads repr
  {
    |q| > 0 && forall i :: 0 <= i < |q| ==> Registered(q[i], id, repr)
  }

  /** No two registered containers share anything. */
  ghost predicate Separate(m: ScMap) {
    forall id, i, j, k :: id in m && j in m && 0 <= i < |m[id]| && 0 <= k < |m[j]| && (id != j || i != k) ==>
      m[id][i].Footprint() !! m[j][k].Footprint()
  }

  ghost predicate ValidMap(m: ScMap, repr: set<object>)
    reads repr
  {
    Separate(m) && forall id :: id in m ==> ValidQueue(m[id], id, repr)
  }

  ghost function QueueView(q: seq<SubContainer>, id: ContainerId, repr: set<object>): (r: Queue)
    requires ValidQueue(q, id, repr)
    reads repr
    ensures |r| == |q|
    ensures forall i :: 0 <= i < |q| ==> r[i] == ViewOf(q[i], repr)
  {
    seq(|q|, i requires 0 <= i < |q| && Registered(q[i], id, repr) reads repr => ViewOf(q[i], repr))
  }

  ghost function MapView(m: ScMap, repr: set<object>): (r: Registry)
    requires ValidMap(m, repr)
    reads repr
    ensures r.Keys == m.Keys
    ensures forall id :: id in m ==> r[id] == QueueView(m[id], id, repr)
  {
    map id | id in m :: QueueView(m[id], id, repr)
  }

  lemma NothingShared(m: ScMap, id: ContainerId, k: nat, j: ContainerId, i: nat)
    requires Separate(m) && id in m && j in m && k < |m[id]| && i < |m[j]| && (j != id || i != k)
    ensures m[id][k].Footprint() !! m[j][i].Footprint()
  {
  }

  /** Every entry but entry `k` of queue `id` still has the value it has in `before`. */
  ghost predicate AgreesElsewhere(m: ScMap, repr: set<object>, before: Registry, id: ContainerId, k: nat)
    reads repr
  {
    && before.Keys == m.Keys
    && (forall j :: j in m ==> |before[j]| == |m[j]|)
    && (forall j, i :: j in m && 0 <= i < |m[j]| && (j != id || i != k) ==>
          Registered(m[j][i], j, repr) && ViewOf(m[j][i], repr) == before[j][i])
  }

  /** Changing one container changes exactly its entry of the registry. */
  lemma OneChanged(m: ScMap, repr: set<object>, before: Registry, id: ContainerId, k: nat)
    requires Separate(m) && AgreesElsewhere(m, repr, before, id, k)
    requires id in m && k < |m[id]| && Registered(m[id][k], id, repr)
    ensures ValidMap(m, repr)
    ensures MapView(m, repr) == before[id := before[id][k := ViewOf(m[id][k], repr)]]
  {
    hide ViewOf, Separate;
    forall j | j in m ensures ValidQueue(m[j], j, repr) {
      assert |before[j]| > 0;
    }
    var after := before[id := before[id][k := ViewOf(m[id][k], repr)]];
    forall j | j in m ensures QueueView(m[j], j, repr) == after[j] {
    }
  }

  class ElasticContainer {
    const cpu: CpuPool
    const mem: MemPool
    var subcontainers: ScMap
    var fairCpuShare: Word
    var scAcMap: AgentMap
    ghost var repr: set<object>  // holds everything the registered containers are made of

    ghost predicate Valid()
      reads this, repr
    {
      ValidMap(subcontainers, repr) && this !in repr && cpu !in repr && mem !in repr
    }

    ghost function Reg(): Registry
      requires Valid()
      reads this, repr
    {
      MapView(subcontainers, repr)
    }

    constructor ()
      ensures Valid() && fresh(cpu) && fresh(mem) && repr == {}
      ensures Reg() == map[] && scAcMap == map[] && fairCpuShare == 0
      ensures cpu.View() == CpuCounters(CPU_SLICE, 0, 0, 0, 0) && mem.View() == MemCounters(0, 0, 0, MEM_SLICE)
    {
      cpu := new CpuPool(CPU_SLICE);
      mem := new MemPool(MEM_SLICE);
      subcontainers, fairCpuShare, scAcMap, repr := map[], 0, map[], {};
    }

    lemma SameIds()
      requires Valid()
      ensures Reg().Keys == subcontainers.Keys
    {
    }

    lemma QueueNotEmpty(id: ContainerId)
      requires Valid() && id in subcontainers
      ensures id in Reg() && |Reg()[id]| == |subcontainers[id]| > 0
    {
    }

    /** The agent of an id, if there is one. A lookup that finds no entry leaves an empty one behind. */
    method GetCorresAgentClient(id: ContainerId) returns (agent: bool)
      requires Valid()
      modifies this`scAcMap
      ensures Valid() && Reg() == old(Reg())
      ensures scAcMap == LookUp(old(scAcMap), id)
      ensures agent <==> HasAgent(old(scAcMap), id)
    {
      hide ValidMap, MapView;
      if id !in scAcMap {
        scAcMap := scAcMap[id := Empty];
      }
      agent := scAcMap[id] == Linked;
    }

    /** Hand a usage report to the newest container under an id. */
    method ReportToBack(id: ContainerId, leak: int, u: Usage) returns (leak': int, reply: ResizeReply)
      requires Valid() && id in subcontainers
      modifies cpu, repr
      ensures Valid()
      ensures var c, agent := old(Back(Reg()[id])), HasAgent(scAcMap, id);
              var r := Report(old(cpu.View()), fairCpuShare, leak, c, Heard(u, agent));
              && cpu.View() == r.0 && leak' == r.1 && Reg() == Update(old(Reg()), id, r.2)
              && reply == if AsksQuota(old(cpu.View()), fairCpuShare, leak, c, u) then Answer(c, agent, u.rpcOk) else NotAsked
    {
      hide SubContainer.View, SubContainer.Valid, Separate, Report, AsksQuota;
      ghost var before := Reg();
      var k := |subcontainers[id]| - 1;
      var sc := subcontainers[id][k];
      leak', reply := ProcessReport(cpu, fairCpuShare, leak, sc, u, HasAgent(scAcMap, id));
      forall j, i | j in subcontainers && 0 <= i < |subcontainers[j]| && (j != id || i != k)
        ensures Registered(subcontainers[j][i], j, repr) && ViewOf(subcontainers[j][i], repr) == before[j][i]
      {
        NothingShared(subcontainers, id, k, j, i);
      }
      OneChanged(subcontainers, repr, before, id, k);
    }

    /** Reset the newest container under an id to the minimum quota, if its agent accepts. */
    method ResetIdleBack(id: ContainerId, rpcOk: bool) returns (reply: ResizeReply)
      requires Valid() && id in subcontainers
      modifies cpu, repr
      ensures Valid()
      ensures var c := old(Back(Reg()[id]));
              var r := if reply.Accepted? then IdleReset(old(cpu.View()), c) else (old(cpu.View()), c);
              && reply == (if c.quota != MIN_QUOTA then Answer(c, HasAgent(scAcMap, id), rpcOk) else NotAsked)
              && cpu.View() == r.0 && Reg() == Update(old(Reg()), id, r.1)
    {
      hide SubContainer.View, SubContainer.Valid, Separate, IdleReset;
      ghost var before := Reg();
      var k := |subcontainers[id]| - 1;
      var sc := subcontainers[id][k];
      reply := ResetIdle(cpu, sc, HasAgent(scAcMap, id), rpcOk);
      forall j, i | j in subcontainers && 0 <= i < |subcontainers[j]| && (j != id || i != k)
        ensures Registered(subcontainers[j][i], j, repr) && ViewOf(subcontainers[j][i], repr) == before[j][i]
      {
        NothingShared(subcontainers, id, k, j, i);
      }
      OneChanged(subcontainers, repr, before, id, k);
    }

    method BackIsIdle(id: ContainerId, now: int) returns (idle: bool)
      requires Valid() && id in subcontainers
      ensures idle <==> IsIdle(Back(Reg()[id]), now)
    {
      var k := |subcontainers[id]| - 1;
      var sc := subcontainers[id][k];
      assert Registered(sc, id, repr) && Reg()[id][k] == ViewOf(sc, repr);
      idle := sc.CheckIfIdle(now);
    }

    /** Read one entry of a queue. */
    method ReadEntry(id: ContainerId, k: nat) returns (fd: int, quota: Word, memLimit: nat)
      requires Valid() && id in subcontainers && k < |subcontainers[id]|
      ensures var c := Reg()[id][k]; fd == c.fd && quota == c.quota && memLimit == c.memLimit
    {
      var sc := subcontainers[id][k];
      assert Registered(sc, id, repr) && Reg()[id][k] == ViewOf(sc, repr);
      fd, quota, memLimit := sc.fd, sc.quota, sc.memLimit;
    }

    /** Record a new memory limit for one entry of a queue. */
    method SetLimitAt(id: ContainerId, k: nat, pages: nat)
      requires Valid() && id in subcontainers && k < |subcontainers[id]|
      modifies repr
      ensures Valid()
      ensures Reg() == SetLimit(old(Reg()), id, k, pages)
    {
      hide SubContainer.View, SubContainer.Valid, Separate;
      ghost var before := Reg();
      var sc := subcontainers[id][k];
      assert sc in sc.Footprint();
      sc.SetMemLimit(pages);
      forall j, i | j in subcontainers && 0 <= i < |subcontainers[j]| && (j != id || i != k)
        ensures Registered(subcontainers[j][i], j, repr) && ViewOf(subcontainers[j][i], repr) == before[j][i]
      {
        NothingShared(subcontainers, id, k, j, i);
      }
      OneChanged(subcontainers, repr, before, id, k);
    }

    /** Append a new container to the queue of its id, creating the queue if there is none. */
    method InsertSc(sc: SubContainer)
      requires Valid() && sc.Valid() && sc.Footprint() !! repr
      modifies this
      ensures Valid() && repr == old(repr) + sc.Footprint()
      ensures fairCpuShare == old(fairCpuShare) && scAcMap == old(scAcMap)
      ensures Reg() == Push(old(Reg()), sc.id, old(sc.View()))
    {
      hide SubContainer.View, SubContainer.Valid, ValidMap, MapView, Push;
      ghost var m, before := subcontainers, Reg();
      if sc.id in subcontainers {
        subcontainers := subcontainers[sc.id := subcontainers[sc.id] + [sc]];
      } else {
        assert [] + [sc] == [sc];
        subcontainers := subcontainers[sc.id := [sc]];
      }
      repr := repr + sc.Footprint();
      PushedView(m, subcontainers, old(repr), repr, sc, before);
    }

    /** Remove the oldest container under an id, and the queue with its last one; -1 if the id is unknown. */
    method DeleteFromSubcontainersMap(id: ContainerId) returns (ret: int)
      requires Valid()
      modifies this
      ensures Valid() && repr == old(repr)
      ensures fairCpuShare == old(fairCpuShare) && scAcMap == old(scAcMap)
      ensures ret == if id in old(subcontainers) then 0 else -1
      ensures Reg() == if id in old(subcontainers) then Pop(old(Reg()), id) else old(Reg())
    {
      hide Separate, ValidQueue, QueueView;
      if id in subcontainers {
        PoppedView(subcontainers, repr, id);
        if |subcontainers[id]| > 1 {
          subcontainers := subcontainers[id := subcontainers[id][1..]];
        } else {
          subcontainers := subcontainers - {id};
        }
        ret := 0;
      } else {
        ret := -1;
      }
    }

    /** Record the agent of an id, unless there is an entry already. */
    method AddToScAcMap(id: ContainerId)
      requires Valid()
      modifies this`scAcMap
      ensures Valid() && Reg() == old(Reg())
      ensures scAcMap == AddAgent(old(scAcMap), id)
    {
      hide ValidMap, MapView;
      if id !in scAcMap {
        scAcMap := scAcMap[id := Linked];
      }
    }

    /** Mark the newest container under an id as one whose admission found an agent. */
    method SetInsertedBack(id: ContainerId)
      requires Valid() && id in subcontainers
      modifies repr
      ensures Valid()
      ensures Reg() == Update(old(Reg()), id, old(Back(Reg()[id])).(inserted := true))
    {
      hide SubContainer.View, SubContainer.Valid, Separate;
      ghost var before := Reg();
      var k := |subcontainers[id]| - 1;
      var sc := subcontainers[id][k];
      assert sc in sc.Footprint();
      sc.SetInserted();
      forall j, i | j in subcontainers && 0 <= i < |subcontainers[j]| && (j != id || i != k)
        ensures Registered(subcontainers[j][i], j, repr) && ViewOf(subcontainers[j][i], repr) == before[j][i]
      {
        NothingShared(subcontainers, id, k, j, i);
      }
      OneChanged(subcontainers, repr, before, id, k);
    }

    /** Drop the agent entry of an id, whatever it holds; -1 if there is none. */
    method DeleteFromScAcMap(id: ContainerId) returns (ret: int)
      requires Valid()
      modifies this`scAcMap
      ensures Valid() && Reg() == old(Reg())
      ensures scAcMap == old(scAcMap) - {id}
      ensures ret == if id in old(scAcMap) then 0 else -1
    {
      hide ValidMap, MapView;
      if id in scAcMap {
        scAcMap := scAcMap - {id};
        ret := 0;
      } else {
        ret := -1;
      }
    }

    method UpdateFairCpuShare()
      requires Valid()
      modifies this`fairCpuShare
      ensures Valid() && Reg() == old(Reg())
      ensures fairCpuShare == FairShare(cpu.totalCpu, Reg())
    {
      assert |Reg().Keys| == |subcontainers.Keys|;
      if |subcontainers| == 0 {
        fairCpuShare := cpu.totalCpu;
      } else {
        fairCpuShare := cpu.totalCpu / |subcontainers|;
      }
    }
  }

  // ---------- pushing and popping, seen through the registry's value ----------

  ghost function Pushed(m: ScMap, sc: SubContainer): ScMap {
    m[sc.id := (if sc.id in m then m[sc.id] else []) + [sc]]
  }

  lemma PushedSeparate(m: ScMap, repr: set<object>, sc: SubContainer)
    requires ValidMap(m, repr) && sc.Footprint() !! repr
    ensures Separate(Pushed(m, sc))
  {
    hide SubContainer.Footprint, SubContainer.Valid;
    var m': ScMap := Pushed(m, sc);
    forall id: ContainerId, i: int, j: ContainerId, k: int
      | id in m' && j in m' && 0 <= i < |m'[id]| && 0 <= k < |m'[j]| && (id != j || i != k)
      ensures m'[id][i].Footprint() !! m'[j][k].Footprint()
    {
      if id in m && i < |m[id]| {
        assert ValidQueue(m[id], id, repr);
        assert Registered(m[id][i], id, repr);
      }
      if j in m && k < |m[j]| {
        assert ValidQueue(m[j], j, repr);
        assert Registered(m[j][k], j, repr);
      }
    }
  }

  lemma PushedView(m: ScMap, m': ScMap, repr: set<object>, repr': set<object>, sc: SubContainer, before: Registry)
    requires ValidMap(m, repr) && sc.Valid() && sc.Footprint() !! repr
    requires m' == Pushed(m, sc) && repr' == repr + sc.Footprint() && before == MapView(m, repr)
    ensures ValidMap(m', repr')
    ensures MapView(m', repr') == Push(before, sc.id, sc.View())
  {
    PushedSeparate(m, repr, sc);
    hide SubContainer.View, SubContainer.Valid, SubContainer.Footprint, Separate;
    forall j: ContainerId, i: int | j in m' && 0 <= i < |m'[j]| ensures Registered(m'[j][i], j, repr') {
      if j in m && i < |m[j]| {
        assert ValidQueue(m[j], j, repr);
        assert Registered(m[j][i], j, repr);
      }
    }
    assert forall j :: j in m' ==> ValidQueue(m'[j], j, repr');
    forall j: ContainerId | j in m' ensures QueueView(m'[j], j, repr') == Push(before, sc.id, sc.View())[j] {
    }
  }

  ghost function Popped(m: ScMap, id: ContainerId): ScMap
    requires id in m && |m[id]| > 0
  {
    if |m[id]| > 1 then m[id := m[id][1..]] else m - {id}
  }

  lemma PoppedSeparate(m: ScMap, id: ContainerId)
    requires Separate(m) && id in m && |m[id]| > 0
    ensures Separate(Popped(m, id))
  {
    hide SubContainer.Footprint;
    var m': ScMap := Popped(m, id);
    forall j: ContainerId, i: int, l: ContainerId, k: int
      | j in m' && l in m' && 0 <= i < |m'[j]| && 0 <= k < |m'[l]| && (j != l || i != k)
      ensures m'[j][i].Footprint() !! m'[l][k].Footprint()
    {
      NothingShared(m, j, if j == id then i + 1 else i, l, if l == id then k + 1 else k);
    }
  }

  lemma PoppedQueue(q: seq<SubContainer>, id: ContainerId, repr: set<object>)
    requires ValidQueue(q, id, repr) && |q| > 1
    ensures ValidQueue(q[1..], id, repr)
    ensures QueueView(q[1..], id, repr) == QueueView(q, id, repr)[1..]
  {
    hide SubContainer.View, SubContainer.Valid, SubContainer.Footprint, Registered, ViewOf;
  }

  lemma PoppedView(m: ScMap, repr: set<object>, id: ContainerId)
    requires ValidMap(m, repr) && id in m
    ensures |m[id]| > 0
    ensures ValidMap(Popped(m, id), repr)
    ensures MapView(Popped(m, id), repr) == Pop(MapView(m, repr), id)
  {
    hide Registered, ViewOf, QueueView;
    assert ValidQueue(m[id], id, repr);
    PoppedSeparate(m, id);
    hide Separate;
    if |m[id]| > 1 {
      PoppedQueue(m[id], id, repr);
    }
    var m': ScMap := Popped(m, id);
    hide ValidQueue;
    assert forall j :: j in m' ==> ValidQueue(m'[j], j, repr);
  }
}
