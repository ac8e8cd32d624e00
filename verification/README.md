# Elastic-container controller: a verified model

The controller divides one application's CPU runtime (nanoseconds per period) and memory (4096-byte pages) among many
containers. A few global counters - unallocated, allocated, overrun and total runtime; unallocated and allocated pages -
have to agree with the quotas and limits of all registered containers while pods are admitted, report their usage, go
idle, ask for pages, are reclaimed from and are deleted, in any order. This project models those handlers and proves
which laws hold over whole runs, and exactly where they stop holding.

`dafny verify dfyconfig.toml` checks everything. Nothing was executed.

## How the model is built

* **Values.** `Words` has the 64-bit words with the source's wrap-around and its signed, saturating decrements.
  `Windows` and `Containers` hold a container's statistics and fields, `CpuControl` and `MemControl` what each handler
  computes: a usage report first reaches a *verdict* on the next quota (keep, grant from the pool, return to the pool,
  borrow as overrun, repay overrun) and then settles it. `Controller` is the state machine: a `State`, an `Event` for
  every handler, `Step` and `Run`. Agent answers, usage readings and clock values are part of the events. Asking for an
  unregistered container, or for a resize where no agent is found, ends the process (`Exited`). `Agents` is the map of
  agents, whose lookups leave empty entries behind.
* **Objects.** `Pools`, `SubContainers`, `UsageReports`, `ElasticContainers` and `Managers` are the handlers as methods
  that update objects step by step; each is proved to make exactly its step of the state machine. `Windows.Window` is the
  ring buffer on an array.
* **Theorems.** `Shares` (the percentages in whole numbers), `CpuLedger` and `Guards` (the runtime ledger),
  `QuotaDrift`, `Convergence`, `GivingBack`, `Clocks`, `StatHistory`, `MemorySafety`, `RegistryLog`, `AgentHistory`,
  `PodHistory`; `ReportOutcomes`, `CpuOutcomes` and `MemOutcomes` with what every event does in whole numbers; and
  `Findings` with concrete runs that break a law outside its condition.

Terms: the *surplus* is allocated + unallocated - total - overrun. A state is *small* when no counter or quota has
reached 2^63. A *report is exact* when, unless it triggers reconciliation, it carries the tracked quota.

## What holds, and when

* Exact ledger: allocated = sum of all queued quotas, and allocated + unallocated = total + overrun + what the pool was
  overdrawn by. Two places overdraw, each under an exact condition on the event and the state before it: the fourth
  mismatch adopts a quota the pool cannot pay for, and the last raise to fair share from at most half a slice below
  exceeds a pool that is not empty. The intended law holds if and only if no event of the run meets either condition.
  `SmallRaiseOverdraws` is a run where it fails and more is allocated than the total although no overrun is recorded.
* `Guards` replaces "all states are small" by conditions on the state and the next event. Two of them matter:
  the idle sweep must be able to pay for raising a container to 30 ms (otherwise the unallocated counter wraps,
  `IdleSweepUnderflows`), and a report must not overpay: the overrun payment exceeds the quota, and the quota wraps
  (`RepayUnderflows`), if and only if the overrun exceeds the quota and either the fair share is 0, or the excess is
  above the fair share and excess * slice >= (quota + 1) * fair share. With a fair share of at least one slice that
  never happens.
* In every small run, exact or not, the surplus is never negative; the leak counter never becomes positive and leak
  repair is dead code.
* While more is allocated than the total, some container above its fair share can pay back; every order of such payments
  ends within a computed number of reports, and with the allocation back within the total. Throttled containers below
  their fair share are raised to exactly it: the gap after n raises that the pool does not cap is at most twice the fair
  share over n, and the pool caps at most one raise more than it is refilled. Containers that leave runtime unused go
  down to exactly one slice.
* Overrun comes about only when the pool is empty: in an admission, or in a raise. The one exception is a report that
  reconciles a quota upward, uses up the pool that way and is raised in the same step (`ReconciledRaiseBorrows`).
* Several containers may be queued under one id. Reports and sweeps reach only the newest one; older ones keep their
  quota and statistics until they are deleted.
* Agents: looking up an id without an agent leaves an empty entry, recording an agent does not overwrite one, and a
  deletion under the id drops the entry for all its containers. So the entry is whatever first touched it since the last
  deletion. A resize that finds no agent ends the process: a container whose sibling was deleted
  (`DeleteOrphansSibling`), or whose usage was read before its admission found an agent (`ReadingBlocksAgent`), is lost
  that way. A deletion replies success exactly when something touched the entry, be it only a reading
  (`DeleteSucceedsWithoutAgent`), and a pod spec came in, since the last deletion (`SecondDeleteRepliesFailure` is a run
  where neither did). If every admission finds an agent and ids are not shared, no agent is ever missing.
* Pages: in every run no counter is negative and none of the limit is forgotten. With sound readings, honest requests and
  pods that fit, allocated pages are exactly limits + pages the sweep has not credited + accounted slack. Reclaim credits
  no more than it took if and only if usage was within the limit; a container registered with limit 0 breaks that
  (`ReclaimWraps`). Admitting a pod keeps the ledger if and only if it fits; otherwise more than the limit is allocated
  (`UnfitPodOvercommits`).

Where code and comments disagree the code is followed: `byte_to_page` (Manager.h:25) is named a ceiling but divides
integers first, so it rounds down; the idle sweep's comment (Manager.cpp:54) speaks of containers above 30% of a core,
but the test also raises containers below it.

## Model

| member | source | states |
|---|---|---|
| `Words.SatSub` | stats/global/cpu_g.cpp:14-23 | the saturating decrement: exact when covered, zero when not, and an addition when the amount is a wrapped negative |
| `Words.AddWord` | stats/global/cpu_g.cpp:26-29 | the plain increment is exact below the sign bit |
| `Words.WrapUndoes` | Manager.cpp:153-164 | the 64-bit difference of old and new quota is the amount moved, even when the sum or difference wrapped |
| `Pools.CpuPool.constructor` | stats/global/cpu_g.cpp:10-11 | a new pool has its slice and zero counters |
| `Pools.CpuPool.DecrUnallocatedRt` | stats/global/cpu_g.cpp:14-23 | unallocated runtime falls by the saturating decrement, the rest stays |
| `Pools.CpuPool.IncrUnallocatedRt` | stats/global/cpu_g.cpp:26-29 | unallocated runtime grows modulo 2^64, the rest stays |
| `Pools.CpuPool.SetUnallocatedRt` | stats/global/cpu_g.cpp:31-34 | only unallocated runtime changes |
| `Pools.CpuPool.SetTotalCpu` | stats/global/cpu_g.cpp:51-54 | only the total changes |
| `Pools.CpuPool.IncrOverrun` | stats/global/cpu_g.cpp:71-74 | only the overrun grows |
| `Pools.CpuPool.DecrOverrun` | stats/global/cpu_g.cpp:76-84 | only the overrun falls, saturating |
| `Pools.CpuPool.IncrAllocRt` | stats/global/cpu_g.cpp:96-99 | only the allocation grows |
| `Pools.CpuPool.DecrAllocRt` | stats/global/cpu_g.cpp:101-109 | only the allocation falls, saturating |
| `Pools.MemPool.constructor` | stats/global/mem_g.cpp:7-10 | a new page pool is empty |
| `Pools.MemPool.SetMemoryLimit` | stats/global/mem_g.cpp:21-24 | only the limit changes |
| `Pools.MemPool.SetUnallocated` | stats/global/mem_g.cpp:45-49 | only unallocated pages change |
| `Pools.MemPool.SetAllocated` | stats/global/mem_g.cpp:67-70 | only allocated pages change |
| `Pools.MemPool.IncrUnallocated` | stats/global/mem_g.cpp:51-54 | only unallocated pages grow |
| `Pools.MemPool.DecrUnallocated` | stats/global/mem_g.cpp:56-60 | unallocated pages fall, not below zero |
| `Pools.MemPool.IncrAllocated` | stats/global/mem_g.cpp:72-75 | only allocated pages grow |
| `Pools.MemPool.DecrAllocated` | stats/global/mem_g.cpp:77-80 | allocated pages fall, not below zero |
| `Pools.MemPool.UpdateAlloc` | ECAPI.cpp:150-153 | pages move from the pool to containers |
| `Pools.MemPool.UpdateReclaim` | ECAPI.cpp:155-158 | pages move from containers back to the pool |
| `Windows.Window.constructor` | stats/window/Window_impl.h:7-10 | a new ring buffer is all zeros with lifetime count 1 |
| `Windows.Window.InsertElement` | stats/window/Window_impl.h:12-17 | overwriting one slot of the array in place is one insert of the window's value |
| `Windows.Window.UpdateStats` | stats/window/Window_impl.h:19-33 | running mean while the window fills, sliding correction afterwards, then the cutoff |
| `Windows.Window.FlushAll` | stats/window/Window_impl.h:57-64 | clears every slot and the mean, keeps the lifetime count |
| `Windows.RingRefinesInputs` | stats/window/Window_impl.h:12-17 | for a window of any size and any mix of inserts and flushes, slot by slot the ring holds the last inputs (those before the last flush as 0), and the slots sum to the covered inputs |
| `Windows.WindowRefinesMean` | stats/window/Window_impl.h:12-33 | and for windows of at most 1000 entries mean times covered inputs is that sum |
| `Windows.MeanIsPlainMean` | stats/window/Window_impl.h:12-33 | the incremental mean is the plain mean of the covered inputs |
| `Windows.CutoffHarmlessIff` | stats/window/Window_impl.h:29-31 | the 0.001 cutoff never changes a mean if and only if the window has at most 1000 entries |
| `Containers.ThrottleWindowReplays` | stats/local/cpu_l.cpp:22-26 | a container's throttle window is the window of its counter's differences |
| `Containers.ThrottleTelescopes` | stats/local/cpu_l.cpp:22-26 | for every sequence of readings of a monotone counter and flushes, the window's mean times covered readings is the counter's growth since the later of ten readings ago and the last flush |
| `StatHistory.ThrottleOverRuns` | Manager.cpp:146-147 | the same over every run: for the newest container under any registered id, the readings are the reports handled since its admission and the flushes its changes of quota |
| `Containers.RuntimeSums` | stats/local/cpu_l.cpp:17-19 | for every sequence of readings and flushes, the runtime window's mean times the readings it covers is the sum of the runtime left over since the later of ten readings ago and the last flush |
| `StatHistory.RuntimeOverRuns` | Manager.cpp:146 | the same over every run, for the reports handled since the newest container was admitted |
| `SubContainers.SubContainer.constructor` | SubContainer.cpp:15-23 | a new container has its quota and throttle count, empty windows and limit 0 |
| `SubContainers.SubContainer.GetQuota` | SubContainer.cpp:33-36 | reads the tracked quota |
| `SubContainers.SubContainer.SetQuotaTo` | SubContainer.cpp:38-41 | only the quota changes |
| `SubContainers.SubContainer.FlushWindows` | stats/local/cpu_l.h:42 | both windows are flushed, nothing else changes |
| `SubContainers.SubContainer.InsertStats` | stats/local/cpu_l.cpp:17-26 | a sample enters both windows, the throttle window as 32-bit growth, and both means are returned |
| `SubContainers.SubContainer.SyncSeqNum` | Manager.cpp:97-111 | whatever happened before, the sequence number ends as the reported one |
| `SubContainers.SubContainer.IncrQuotaMismatchCounter` | SubContainer.cpp:63-66 | counts a mismatch and returns the count before it |
| `SubContainers.SubContainer.ResetQuotaMismatchCounter` | SubContainer.cpp:73-76 | the mismatch count restarts |
| `SubContainers.SubContainer.CheckIfIdle` | SubContainer.cpp:78-84 | idle means not seen for more than two seconds |
| `SubContainers.SubContainer.UpdateLastSeen` | SubContainer.cpp:86-88 | only the time stamp changes |
| `SubContainers.SubContainer.SetMemLimit` | SubContainer.h:73 | only the memory limit changes |
| `SubContainers.SubContainer.SetInserted` | SubContainer.h:78 | marks a container whose admission found an agent; nothing else changes |
| `UsageReports.ReconcileQuota` | Manager.cpp:116-129 | the reported quota is adopted, statistics are flushed, the difference moves between pool and allocation, the mismatch count restarts |
| `UsageReports.FixLeak` | Manager.cpp:137-144 | the leak counter and its repair |
| `UsageReports.WakeFromIdle` | Manager.cpp:150-167 | the 64-bit wake-up code settles a grant of min(pool, one core), upward or downward |
| `UsageReports.AmountOver` | Manager.cpp:169-182 | the amount asked back: with a fair share of at least one slice a positive part of the excess, all of it or at least half a slice; more than the whole quota if and only if the inputs meet the stated condition |
| `UsageReports.ReclaimOverrun` | Manager.cpp:168-196 | settles a repayment capped by the overrun |
| `UsageReports.AmountLacking` | Manager.cpp:198-207 | the amount to gain: at most what is lacking, all of it within half a slice, and nothing if and only if a wider gap squared is below the fair share |
| `UsageReports.TakeFromPool` | Manager.cpp:208-219 | a raise paid by the pool is settled in full, or not at all if the agent refuses |
| `UsageReports.TakeAsOverrun` | Manager.cpp:230-241 | a raise nobody owns is recorded as overrun |
| `UsageReports.RaiseToFairShare` | Manager.cpp:197-243 | settles the raise verdict for a filled and for an empty pool |
| `UsageReports.GrantThrottled` | Manager.cpp:244-260 | settles the grant to a throttled container at or above its fair share |
| `UsageReports.ShrinkTo` | Manager.cpp:262-293 | settles both kinds of giving back |
| `UsageReports.ResizeQuota` | Manager.cpp:150-294 | the six branches in the order the handler tries them reach exactly one verdict, ask the agent if it is a change, and settle it if the agent accepts |
| `UsageReports.SetScQuotaSyscall` | ECAPI.cpp:95-112 | what becomes of a request for a quota: it waits for ever for a container whose admission found no agent, ends the process if the agent is missing, and is accepted or declined otherwise |
| `UsageReports.FinishReport` | Manager.cpp:137-294 | leak repair, sample and resize of a report that got past reconciliation |
| `UsageReports.ProcessReport` | Manager.cpp:90-300 | the handler updates pool, leak counter and container as one report step, including the early return on tolerated mismatches, and asks the agent exactly when the verdict changes the quota |
| `UsageReports.ResetIdle` | Manager.cpp:51-66 | an idle container is reset to 30 ms through wrap-around arithmetic, if its agent accepts |
| `ElasticContainers.ElasticContainer.constructor` | ElasticContainer.cpp:8 | starts with an empty registry and fair share 0 |
| `ElasticContainers.ElasticContainer.ReportToBack` | ElasticContainer.cpp:38-45 | a report changes the newest entry of the id's queue and no other container |
| `ElasticContainers.ElasticContainer.ResetIdleBack` | Manager.cpp:48-69 | an idle reset changes the newest entry of the id's queue and no other container |
| `ElasticContainers.ElasticContainer.BackIsIdle` | Manager.cpp:49 | asks the newest entry |
| `ElasticContainers.ElasticContainer.ReadEntry` | DeployServerGRPC/DeployerExportServiceImpl.cpp:79-80 | reads quota and pages of one entry |
| `ElasticContainers.ElasticContainer.SetLimitAt` | ECAPI.cpp:160-163 | sets one entry's limit and changes no other container |
| `ElasticContainers.ElasticContainer.InsertSc` | ElasticContainer.cpp:47-60 | appends to the id's queue, creating it if needed |
| `ElasticContainers.ElasticContainer.DeleteFromSubcontainersMap` | ElasticContainer.cpp:90-109 | removes the oldest entry, and the queue with its last one; fails exactly for an unknown id |
| `ElasticContainers.ElasticContainer.GetCorresAgentClient` | ElasticContainer.cpp:168-178 | finds the agent of an id if there is one, and leaves an empty entry behind if there is none |
| `ElasticContainers.ElasticContainer.AddToScAcMap` | ElasticContainer.h:100 | records the id's agent unless there is an entry already, even an empty one |
| `ElasticContainers.ElasticContainer.SetInsertedBack` | Manager.cpp:488 | marks the newest container under the id and changes no other container |
| `ElasticContainers.ElasticContainer.DeleteFromScAcMap` | DeployServerGRPC/DeployerExportServiceImpl.cpp:216-228 | drops the agent entry, whatever it holds, failing exactly when there is none |
| `ElasticContainers.ElasticContainer.UpdateFairCpuShare` | ElasticContainer.cpp:81-88 | the total divided by the number of ids, or the total when there are none |
| `ElasticContainers.OneChanged` | ElasticContainer.cpp:38-45 | containers share nothing, so changing one changes exactly its entry of the registry |
| `ElasticContainers.PushedView` | ElasticContainer.cpp:47-60 | pushing an object onto a queue pushes its value |
| `ElasticContainers.PoppedView` | ElasticContainer.cpp:90-109 | popping an object pops the oldest value |
| `Managers.Manager.constructor` | Manager.cpp:7-15 | a new manager has zero counters and empty maps |
| `Managers.Manager.ReportAppSpec` | DeployServerGRPC/DeployerExportServiceImpl.cpp:20-29 | limits are converted and the pools filled; a fresh manager is then in the initial state of the theorems |
| `Managers.Manager.DetermineQuotaForNewPod` | ECAPI.cpp:124-148 | the three admission cases, and an agent update exactly when the request exceeds the pool |
| `Managers.Manager.HandleAddCgroup` | Manager.cpp:455-507 | makes exactly the admission step: quota, new entry, refreshed fair share, agent; ends the process, or waits for ever, exactly when a changed quota has to be passed on and the agent entry is empty, or the admission found no agent |
| `Managers.Manager.HandleCpuUsageReport` | Manager.cpp:75-301 | makes exactly the report step, rejects other request types, and ends the process exactly when that step does; also says what an exit leaves behind |
| `Managers.Manager.CheckIdle` | Manager.cpp:49-68 | makes exactly one idle step, ending the process exactly when that step does |
| `Managers.Manager.CheckForIdleContainers` | Manager.cpp:46-69 | one round is a run of idle events in the order of the walk, each id at most once and all of them unless it ends early; it ends the process exactly when that run does |
| `Managers.Manager.InsertPodSpec` | DeployServerGRPC/DeployerExportServiceImpl.cpp:140-172 | queues the docker id, maps it unless already mapped, and reports -3 in that case |
| `Managers.Manager.RemovePod` | DeployServerGRPC/DeployerExportServiceImpl.cpp:97-103 | removes the pod from all four maps and succeeds exactly when each had its entry |
| `Managers.Manager.ReturnResources` | DeployServerGRPC/DeployerExportServiceImpl.cpp:104-116 | runtime and pages go back to the pools |
| `Managers.Manager.DeletePod` | DeployServerGRPC/DeployerExportServiceImpl.cpp:65-138 | makes exactly the deletion step, with the reply the four maps determine |
| `Managers.Manager.Reclaim` | Manager.cpp:363-401 | one reclaim on the newest entry: credited pages and new limit, a usage of 0 without an agent, and the exit when a resize is due and there is none |
| `Managers.Manager.HandleReclaimMemory` | Manager.cpp:404-424 | reclaims from every other connection, returns the sum over all of them, looks up all their agents, and exits exactly when one of those with something to reclaim has none |
| `Managers.Manager.ReplenishPool` | Manager.cpp:311-338 | an exhausted pool is filled by reclaiming |
| `Managers.Manager.GrantFromPool` | Manager.cpp:341-360 | at most one slice is handed out and the requester's limit recorded |
| `Managers.Manager.HandleMemReq` | Manager.cpp:303-361 | makes exactly the request step; refuses, grants or ends the process exactly when that step does, and says what an exit leaves behind |
| `Managers.Manager.PayForNewPod` | Manager.cpp:536-565 | pays for a pod in all five cases of the code, and exits exactly when an agent it asks is missing |
| `Managers.Manager.DetermineMemLimitForNewPod` | Manager.cpp:528-570 | makes exactly the pod-limit step, with a limit of 0 for a container without an agent |
| `Managers.Manager.SweepOne` | Manager.cpp:602-604 | makes exactly one container's step of the sweep, pages not yet credited |
| `Managers.Manager.PeriodicReclaim` | Manager.cpp:597-613 | one round is a run of sweep events, every id once, and the credit at the end; it ends early exactly when that run ends the process |
| `CpuLedger.VerdictSane` | Manager.cpp:150-294 | what every verdict promises about the pool it draws on: only the last small raise may exceed it |
| `CpuLedger.SettleSurplus` | stats/global/cpu_g.cpp:71-109 | settling never lowers the surplus |
| `CpuLedger.SettleExact` | Manager.cpp:160-291 | if the allocation covers the quota, settling loses nothing but the overdraft |
| `CpuLedger.ReportExact` | Manager.cpp:113-294 | an exact report moves the allocation by the change of quota and the surplus by the overdraft |
| `CpuLedger.StepExact` | Manager.cpp:54-66 | every kind of step keeps allocation = sum of quotas and changes the surplus by its overdraft only |
| `CpuLedger.ExactLedger` | Manager.cpp:113-294 | over every exact-report run with small counters: allocation = sum of queued quotas; allocated + unallocated = total + overrun + overdrafts; the intended law if and only if no event of the run meets the overdraft condition |
| `CpuLedger.RepairNeverFires` | Manager.cpp:137-144 | over every run with small counters, exact reports or not: allocated + unallocated >= total + overrun, so no report ever finds a leak to repair |
| `CpuLedger.OverdraftIff` | Manager.cpp:197-220 | a verdict overdraws the pool if and only if the container is awake, throttled, and at most half a slice below its fair share while the pool holds something but less than that; and then by exactly what the pool lacks |
| `CpuLedger.ReportOverdraftIff` | Manager.cpp:113-220 | a report overdraws if and only if it is an untolerated mismatch upward beyond the pool, or that raise and the agent accepts; never both, and by exactly what the pool lacks |
| `CpuLedger.RunOverdraftIff` | Manager.cpp:113-220 | a run overdraws nothing if and only if none of its events meets that condition |
| `ReportOutcomes.WakeOutcome` | Manager.cpp:150-167 | a container heard of again after more than two seconds gets min(pool, 100 ms), and the pool pays or gets back exactly the difference |
| `ReportOutcomes.RepayOutcome` | Manager.cpp:168-196 | above the fair share quota, overrun and allocation fall by the amount asked back, in whole numbers, or by all of a smaller overrun |
| `ReportOutcomes.RaiseOutcome` | Manager.cpp:197-243 | below the fair share a throttled container gains all of a gap of half a slice, else min(pool, gap squared over fair share), or without a pool the latter as overrun; all counters exactly |
| `ReportOutcomes.GrantOutcome` | Manager.cpp:244-260 | at or above the fair share a throttled container gains min(pool, twenty slices times the throttle mean, rounded down) from the pool |
| `ReportOutcomes.ShedOutcome` | Manager.cpp:261-277 | with more than a fifth left over the quota becomes max(slice, 4/5 of it), and the pool gets the difference |
| `ReportOutcomes.TrimOutcome` | Manager.cpp:278-294 | with more than 5 ms left over on average the quota becomes max(slice, 5 ms less), and the pool gets the difference |
| `ReportOutcomes.KeepOutcome` | Manager.cpp:150-294 | in no other situation does a report change the quota or a counter |
| `ReportOutcomes.AsksIff` | Manager.cpp:150-294 | a report asks the agent if and only if it repays or is raised, or another branch ends with a different quota |
| `CpuOutcomes.AdmitOutcome` | ECAPI.cpp:124-148 | a new container gets min(request, pool) from a pool that is not empty, and only an empty pool makes it borrow one slice; all counters exactly |
| `CpuOutcomes.ReconcileOutcome` | Manager.cpp:113-135 | a mismatch that is not tolerated does what a matching report does once the difference has moved between pool and allocation |
| `CpuOutcomes.OverrunGrowsIff` | Manager.cpp:221-242 | the overrun grows in a step if and only if an admission meets an empty pool or a throttled container below its fair share finds the pool empty after reconciliation; with a pool at the start only after an upward reconciliation that uses it up |
| `CpuOutcomes.OverrunComesFromBorrowing` | ECAPI.cpp:133-138 | a run without such a step never adds to the overrun |
| `Clocks.LastSeenOverRuns` | Manager.cpp:90-111 | in every run the newest container carries the time and sequence number of the last report to it, tolerated or not, or of its admission |
| `Clocks.IdleCheckOutcome` | Manager.cpp:49-68 | in every run an idle check resets a container to 30 ms if and only if it was last heard of more than two seconds ago, is not on 30 ms, its admission found an agent and the agent accepts; else nothing changes |
| `GivingBack.GiveBacksReachSlice` | Manager.cpp:261-294 | in every exact run, whatever goes on elsewhere, a container that gives back never falls below one slice and reaches it after a computed number of such reports |
| `CpuLedger.WakeConservesIff` | Manager.cpp:150-167 | waking conserves allocated + unallocated under wrap-around if and only if the allocation covers what is taken back |
| `CpuLedger.IdleConservesIff` | Manager.cpp:54-66 | the idle reset conserves runtime if and only if the side it draws on can pay |
| `CpuLedger.LeakRepairBound` | Manager.cpp:137-144 | from any state what is missing is added to the leak counter, and once that reaches 1000 ns all of it goes to the pool and the counter restarts; a repair lands exactly at total plus the leak carried in |
| `CpuLedger.MemoryStepFrames` | Manager.cpp:303-424 | no memory handler touches runtime counters, quotas, the fair share or the pod maps |
| `Guards.RepayWrapsIff` | Manager.cpp:168-184 | an overrun payment wraps the quota if and only if overrun exceeds the quota and either there is no fair share or the excess is above the fair share and the excess times the slice reaches (quota + 1) times the fair share; never with a fair share of at least one slice |
| `Guards.VerdictReachable` | Manager.cpp:150-294 | that payment is the only verdict that can leave the range of real quotas, and it does so exactly then |
| `Guards.GuardedStep` | Manager.cpp:150-294 | an event that meets its guard keeps the ledger exact and all counters small |
| `Guards.GuardedRunIsSmall` | stats/global/cpu_g.cpp:14-29 | a run of guarded events keeps all counters small |
| `Guards.GuardedLedger` | Manager.cpp:113-294 | the exact ledger from conditions that can be checked before each event |
| `Guards.ProgressByPigeonhole` | Manager.cpp:168 | in every reachable state without overdraft and with one container per id, more allocated than the total implies overrun, a container above its fair share, and repayment as its next verdict |
| `Guards.ReachableIsDrainable` | ElasticContainer.cpp:81-88 | reachable states meet the hypotheses of the drain theorems |
| `QuotaDrift.DriftBound` | Manager.cpp:113-135 | over any run the allocation falls short of the quotas by at most 999 ns per resizing report that matched only to the microsecond, and exceeds them by no more if nothing was clamped |
| `QuotaDrift.ReportDrift` | Manager.cpp:208-218 | one report's contribution; a reconciled report adds none |
| `QuotaDrift.ReconciledOnEveryFourth` | Manager.cpp:113-135 | in every run the mismatch counter of an id is the number of mismatched reports since its newest container was admitted, modulo 4; the next mismatch is reconciled if and only if that number is 3 modulo 4 and otherwise changes no counter, quota or statistics |
| `Convergence.StepRefreshed` | ElasticContainer.cpp:81-88 | the fair share is current after every step |
| `Convergence.SomeoneAboveFair` | ElasticContainer.cpp:81-88 | quotas that sum above the total cannot all be within the fair share |
| `Shares.ScaledIsQuotient` | Manager.cpp:172-178 | the amounts computed through percentages are one multiplication and one integer division |
| `Shares.OverrunShareBounds` | Manager.cpp:170-182 | the amount asked back is positive, at most the excess, and all of it or at least half a slice |
| `Shares.ShareExceedsIff` | Manager.cpp:170-182 | the amount asked back exceeds the quota if and only if the stated condition on fair share, slice and quota holds |
| `Shares.RaiseShareIs` | Manager.cpp:198-207 | a gap wider than half a slice gains the gap squared over the fair share, a smaller one all of itself |
| `Convergence.PressPaysBack` | Manager.cpp:168-196 | a report above the fair share lowers quota, overrun and allocation by one amount and not below the fair share |
| `Convergence.OthersGoElsewhere` | Manager.cpp:90-300 | reports and idle checks of other ids, pod specs and all memory events change neither the fair share nor this container's quota |
| `Convergence.OverrunReclaimConverges` | Manager.cpp:180-182 | in every exact run, whatever goes on elsewhere in between, enough reports from one container bring it exactly to its fair share or find the overrun used up |
| `Convergence.DrainRunIsBounded` | Manager.cpp:168-196 | in whatever order containers pay back, no such run is longer than the sum of their excesses in half slices |
| `Convergence.DrainEndsWithinTotal` | Manager.cpp:168-196 | in whatever order containers pay back, once none above its fair share has overrun left to pay the allocation is within the total |
| `Convergence.OverrunDrains` | Manager.cpp:168-196 | if every container has its agent, some run of at most that many reports brings the allocation back within the total |
| `Convergence.RaiseProgress` | Manager.cpp:197-243 | a raise stays within the fair share, closes a gap of half a slice at once, and stalls exactly when a wider gap squared is below the fair share |
| `Convergence.RaisingRunIsBounded` | Manager.cpp:197-243 | in every run, whatever goes on elsewhere in between, every raise gains something and none passes the fair share, so a container is raised at most as often as its gap, and after that many raises it is on its fair share |
| `Convergence.RaiseGap` | Manager.cpp:202-207 | a raise capped by the pool takes all of it; any other one closes a small gap or takes the gap squared over the fair share off a wide one |
| `Convergence.CappedRaisesAreRare` | Manager.cpp:203 | raises capped by the pool are at most one more than the times an empty pool is refilled |
| `Convergence.RaisesAreFast` | Manager.cpp:197-243 | whatever goes on elsewhere and however the pool caps some raises, the gap after n uncapped ones is at most twice the fair share over n, and there are at most two more than twice the fair share divided by half a slice |
| `MemorySafety.ReclaimSplits` | Manager.cpp:378-388 | old limit = new limit + credited pages + at most one page, none when usage is aligned; the new limit exceeds usage by more than margin less one page |
| `MemorySafety.ReclaimSoundIff` | Manager.cpp:378 | reclaim credits no more than it took if and only if usage is within the limit |
| `MemorySafety.ReclaimOthersBalance` | Manager.cpp:404-424 | over all containers, new limits + reclaimed pages + rounding losses = old limits |
| `MemorySafety.ReclaimLossBound` | Manager.cpp:387-388 | reclaiming from n containers loses at most n pages |
| `MemorySafety.RefusedIff` | Manager.cpp:312-336 | a request is refused if and only if the pool is empty and no other container that can be read and resized has a whole page above usage plus margin |
| `MemorySafety.GrantMeaning` | Manager.cpp:341-354 | a grant is between one page and one slice, all the pool holds if less, and containers on the requester's connection keep their limits |
| `MemorySafety.PagesAlwaysAccounted` | stats/global/mem_g.cpp:51-80 | in every run both page counters stay non-negative and sum at least to the limit, so the negative-pool branch is never taken |
| `MemorySafety.StepSafe` | Manager.cpp:303-424 | every safe step keeps unallocated + allocated = limit and accounts for all slack |
| `MemorySafety.MemorySafeOverRuns` | Manager.cpp:602-610 | over every safe run, with the sweep interleaved at will: allocated = limits + uncredited pages + accumulated slack, so limits never sum above the application limit |
| `MemorySafety.PodLimitSafeIff` | Manager.cpp:536-570 | admitting a pod keeps the exact page ledger if and only if it fits at once or after reclaiming |
| `MemOutcomes.ReclaimIs` | Manager.cpp:363-401 | one reclaim in whole numbers: new limit and credited pages for usage within the limit, beyond it, and unreadable |
| `MemOutcomes.SweepOutcome` | Manager.cpp:602-604 | one turn of the sweep changes the newest entry's limit and the pages to be credited, and without an agent only leaves an empty entry |
| `MemOutcomes.CreditOutcome` | Manager.cpp:608-610 | the end of the sweep credits everything that waits |
| `MemOutcomes.RequestOutcome` | Manager.cpp:311-354 | a request fills an empty pool with what can be reclaimed and gets one slice or all there is; both counters and its limit exactly |
| `MemOutcomes.RequestOthers` | Manager.cpp:404-424 | a request shrinks the others' newest containers only if the pool was empty and they are on another connection |
| `MemOutcomes.PodLimitOutcome` | Manager.cpp:528-570 | the limit and both counters of a new pod in every case: it fits, fits after reclaiming, meets an empty pool, is charged in full, or is not charged because the agent declines |
| `MemOutcomes.ConstantsOverRuns` | ElasticContainer.cpp:81-88 | in every run the totals are those of the spec, the slices 30 ms and 5000 pages, and the fair share the total over the number of ids |
| `RegistryLog.StepQueued` | ElasticContainer.cpp:47-60 | what one step does to one id's queue |
| `RegistryLog.RegistryRefinesLog` | ElasticContainer.cpp:47-109 | for every id and run, the queue is all that was admitted less its first entries, one per deletion, and the id is registered exactly when something remains; entries keep their connection and whether their admission found an agent |
| `RegistryLog.DeleteReturnsOldest` | DeployServerGRPC/DeployerExportServiceImpl.cpp:79-116 | deletion removes the oldest entry, returns precisely its quota and pages, and exits exactly when nothing is queued |
| `RegistryLog.SupersededIsFrozen` | ElasticContainer.cpp:159-166 | in every run a container with a newer one queued behind it keeps quota and statistics unchanged and moves to the front by one place per deletion, until it is deleted |
| `AgentHistory.EntryIsFirstTouch` | ElasticContainer.cpp:168-178 | in every run the agent entry of an id is what first touched it since the last deletion under the id: an admission that found an agent, or a reading of its usage or limit, which leaves it empty for good |
| `AgentHistory.SpecsSinceDelete` | DeployServerGRPC/DeployerExportServiceImpl.cpp:140-172 | in every run an id has a docker queue exactly when a pod spec named it since the last deletion under it |
| `PodHistory.FirstSpecWins` | DeployServerGRPC/DeployerExportServiceImpl.cpp:160-169 | in every run a docker id stands for the id of the first pod spec naming it since the last deletion of its pod |
| `PodHistory.DockersSinceDelete` | DeployServerGRPC/DeployerExportServiceImpl.cpp:145-158 | in every run the docker ids queued under an id are those pod specs named it with since the last deletion under it, in order |
| `AgentHistory.DeleteSucceedsIff` | DeployServerGRPC/DeployerExportServiceImpl.cpp:97-134 | in every run a deletion that takes effect replies success if and only if, since the last deletion under the same id, something touched its agent entry and a pod spec named it |
| `AgentHistory.OrphanedIff` | ElasticContainer.h:100 | in every run an id is registered without an agent if and only if more was admitted than deleted and what first touched its entry since the last deletion was not an admission that found one |
| `AgentHistory.StepExitsIff` | ECAPI.cpp:95-122 | a step ends the process if and only if it asks for an unregistered container, or for a resize of an id whose agent entry is absent or empty |
| `AgentHistory.ExitsIff` | ECAPI.cpp:105-119 | the same over every run, in terms of what first touched the entry since the last deletion |
| `AgentHistory.OrderlyRunsKeepAgents` | Manager.cpp:483-492 | in every run whose admissions find an agent and come under ids with no other container, every container keeps its agent and only a request for an unregistered container ends the process |
| `Findings.IdleSweepUnderflows` | Manager.cpp:54-64 | a run in which the idle sweep wraps the unallocated counter |
| `Findings.RepayUnderflows` | Manager.cpp:172-193 | a run in which an overrun payment wraps a quota |
| `Findings.SmallRaiseOverdraws` | Manager.cpp:202-218 | a run that allocates more than the total with no overrun recorded |
| `Findings.ReconciledRaiseBorrows` | Manager.cpp:122-128 | a run in which a step that starts with 5 ms in the pool adds 18 ms to the overrun |
| `Findings.ReclaimWraps` | Manager.cpp:378-388 | a run in which the sweep books about 2^52 pages from a container whose limit is still 0 |
| `Findings.UnfitPodOvercommits` | Manager.cpp:550-570 | a run in which a pod of 257 pages is charged in full on a limit of 256 pages |
| `Findings.SecondDeleteRepliesFailure` | DeployServerGRPC/DeployerExportServiceImpl.cpp:97-134 | a run in which deleting the second of two containers under an id takes effect and replies failure |
| `Findings.DeleteOrphansSibling` | ECAPI.cpp:105-109 | a run in which deleting one of two containers under an id leaves the other without an agent, and the next idle check ends the process |
| `Findings.DeleteSucceedsWithoutAgent` | ElasticContainer.cpp:134-138 | a run in which a deletion replies success although no agent was ever found |
| `Findings.ReadingBlocksAgent` | ElasticContainer.h:100 | a run in which a reading keeps a later admission from recording the agent it found, and the next idle check ends the process |

## Left out

- Sockets, select loops, thread start-up, gRPC, HTTP, JSON and protobuf wrappers: no bookkeeping happens there.
- Agent calls: an event says whether the agent accepts; what the agent does is not modelled.
- A handler that waits for ever for a container whose admission found no agent (ECAPI.cpp:103): it changes nothing more, and which thread is lost with it is not modelled.
- Waiting for docker ids: scheduling, not bookkeeping.
- Rounding of `double`: values are exact reals; casts out of the 64-bit range, which the language leaves undefined, saturate (a fair share of 0 counts as an infinite excess).
- Widths that only matter after very long runs: the 32-bit lifetime count of a window, the signed 64-bit leak counter and the page counters are unbounded. Byte arithmetic in reclaim and all runtime counters are 64-bit.
- Races inside one handler: each handler, each container's turn in a sweep and each reclaim is one atomic step.
- Freed containers: a new pod's limit is set for an entry named by id and position; a thread that still holds a deleted container is not modelled.
- A second application spec in the middle of a run, and containers admitted before the first one.
- Docker ids inside containers: while one is missing the container's usage and limit read as 0, which an event can say.
- Fields that are only written (`set_quota_flag`, the system-call sequence number), getters, `Window::update_trend`, and the base class version of adding a container, which is overridden.
- Deleting docker ids one by one: the source drops the whole queue, and so does the model.
