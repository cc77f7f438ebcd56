# EAR: power and energy accounts, verified

A Dafny model of the parts of EAR that share out power and account for energy,
with proofs of what they keep over whole runs.

- **Power caps in a hierarchy.** Sub-EARGMs publish reports, a meta-EARGM turns
  them into commands, and each sub-EARGM carries its command out. `SubManager`
  models one sub-EARGM. `MetaPlan` says without loops what a round should decide,
  `MetaPasses` and `MetaRound` describe the passes over the reports,
  `MetaAnyRound` those over reports from outside the table as well, and
  `MetaManager` has the loops themselves, proved to fill the command table as the
  plan says. `Hierarchy` puts all of them together as one system and accounts for
  the caps the sub-EARGMs are heading for over every run, on reports however old,
  `CurrentReports` for runs whose reports are current, and `InForce` for the caps in
  force while commands are on their way; `HierarchyWitnesses` has the runs that
  leave the budget. `Waterfall` and `Sums` carry the arithmetic.
- **The hard power cap of one EARGM** (`HardPowercap`): partial grants, withdrawal of
  extra power, and one period with release and retry.
- **The EARDBD cache**: `StorageModel` and `Storage` for the buffers and the energy
  aggregations, `Alarms` for the two countdowns, `MirrorSync` for a server and
  its mirror with lost messages and restarts, and `MirrorWitnesses` for runs that
  lose or double a sample.
- **The energy guard of an EARGM**: `EnergyWindow` for the ring of energy values,
  `Warnings` for levels, grace periods, risks and restorations.
- **Job contexts of the node daemon**: `JobTable`, `JobContexts` for the table and
  the list of jobs, `EnergySharing` for charging the energy of a node to its jobs.

Each module of methods is proved against functions on values, and the
properties are proved about those functions. Watts, joules and counters are
unbounded, with wrap-around written out where commands can cause it (an increase
of the cap, the number of nodes in use); `float` and `double` are `real`.

What does not hold of the code is stated with its exact condition:

- A round of the meta-EARGM plans for more than the budget exactly when free
  power covers a part of what is asked, freeable power the rest, and someone is
  greedy, and then by just the free power spent twice (`MetaPlan.BudgetKeptExactly`,
  `MetaPlan.SpendsTwiceHappens`).
- A sub-EARGM may offer power below its default and hold extra power as well. A round
  that withdraws both can tell it to give up more than its cap, which it refuses,
  and others are granted that power all the same. The reports show when this
  happens (`MetaPlan.OvercutExactly`).
- A round adds to the caps everyone is heading for exactly the free power it spends
  and the cuts that are refused (`Hierarchy.RoundSettles`, `Hierarchy.RunAccount`).
  They are within the budget exactly if no round so far has added more than was
  left of it, however old its reports were (`Hierarchy.BudgetOverRuns`), and what
  has been added is never taken back (`Hierarchy.NeverTakenBack`).
- On current reports a round adds too much exactly if it spends free power twice or
  tells someone to give up more than its cap (`CurrentReports.CurrentOverRuns`). From
  the configured defaults no round ever does the first
  (`CurrentReports.DefaultsSpendOnce`), so the budget is kept exactly as long as none
  does the second (`CurrentReports.BudgetFromDefaults`), and one does
  (`HierarchyWitnesses.OverOfferBreaksBudget`).
- On old reports a round can add too much without doing either: a sub-EARGM that has
  given up its whole cap publishes no more, and its last offer is taken again at
  every round (`HierarchyWitnesses.StaleReportBreaksBudget`). `MetaPlan.CutAboveExactly`
  says when a cut exceeds what is held by now.
- The caps in force are those everyone is heading for, plus the reductions and minus
  the increases under way (`InForce.CapsInForce`), so they exceed the budget while an
  increase has arrived and the reduction that pays for it has not
  (`HierarchyWitnesses.IncreaseFirstOvershoots`). With reductions delivered first
  they never do (`InForce.ReductionsFirst`).
- What a sender outside the table offers is handed out and never called in. A greedy
  phase hands out no more than it calls in exactly if senders in the table offer
  enough (`MetaAnyRound.HelpingCovered`, `MetaAnyRound.OutsideOfferBreaksBudget`).
  Only the configured sub-EARGMs are asked for their status
  (`src/global_manager/eargm_rapi.c:207-247`), so this takes one whose own id is set
  wrong.
- Nodes without extra power whose requests add up to exactly the free power are not
  all served if another node wants power, too, because the comparison is strict
  (`HardPowercap.NewNodeTold`, `HardPowercap.ExactFitIsNotServed`).
- The list of jobs is shorter than the table of contexts; it goes on counting a job
  right exactly if it can take its new context (`JobContexts.Contexts.NewContext`). A
  full list cannot (`JobContexts.FullListMisses`, `JobContexts.FullListHappens`).
- The contexts with CPUs are charged the energy of the node exactly if several jobs
  are listed, some of them has CPUs and no unlisted job has, or one job is listed
  and one context has CPUs (`EnergySharing.EnergySharedExactly`); two steps of the
  only job are charged it twice (`JobContexts.EnergyChargedTwice`). A charge is divided
  by zero exactly if several jobs are listed and only unlisted ones have CPUs
  (`EnergySharing.BrokenExactly`, `JobContexts.ChargeDividedByZero`).
- A sample the mirror forgets is in the database exactly if it was there before or
  the server had received it (`MirrorSync.ForgottenExactly`). Runs without the two
  assumptions lose one (`MirrorWitnesses.LossAfterRestart`,
  `MirrorWitnesses.LossInFirstPeriod`).
- A sample is handed on once and for all exactly if either the server holds it and
  the mirror forgets it or the mirror alone inserts it (`MirrorSync.OnceForAll`,
  `MirrorWitnesses.HandedOnTwice`).
- The same risk can be sent twice without a restoration between, because only the last
  one counts: a tick that acts in automatic mode sends its level exactly if that is
  not the last risk sent since the last restoration (`Warnings.SendsExactly`,
  `Warnings.RiskSentAgain`).

## Model

| member | source | states |
|---|---|---|
| SubManager.CommandsKeepSound | src/global_manager/cluster_powercap.c:449-498 | after any sequence of INC, RED, SET and RESET the recorded extra power is what the cap holds above the default |
| SubManager.CapIsLastSet | src/global_manager/cluster_powercap.c:449-498 | the cap is the last one set, or the default after a RESET, moved by every INC and RED since, as long as none wraps or is refused |
| SubManager.ReportsAreHonest | src/global_manager/cluster_powercap.c:616-641 | whatever commands came before: who asks is below its default and asks at most up to it, who is greedy is not below it, and who requests offers nothing; cap and measured power are reported as they are |
| SubManager.SubEargm.constructor | src/global_manager/cluster_powercap.c:531-555 | starts at the default, without extra power |
| SubManager.SubEargm.ResetPc | src/global_manager/cluster_powercap.c:449-454 | the cap is the default again; extra power is refreshed |
| SubManager.SubEargm.SetPc | src/global_manager/cluster_powercap.c:456-471 | the cap is the limit; extra power is refreshed |
| SubManager.SubEargm.RedPc | src/global_manager/cluster_powercap.c:473-487 | the cap shrinks, unless the reduction is larger than it; extra power follows |
| SubManager.SubEargm.IncPc | src/global_manager/cluster_powercap.c:489-498 | the cap grows modulo 32 bits; extra power follows |
| SubManager.SubEargm.ProcessRequest | src/global_manager/eargm_ext_rm.c:75-119 | only power-cap requests move the cap, only job requests the number of nodes, modulo 32 bits |
| SubManager.SubEargm.WriteSharedData | src/global_manager/cluster_powercap.c:616-641 | the shared report is the honest one of `ReportsAreHonest` |
| Waterfall.PourTotal | src/global_manager/meta_eargm.c:159-238 | taking or handing out in order moves exactly the budget, or everything there is |
| Waterfall.PourInOrder | src/global_manager/meta_eargm.c:159-238 | a later report is served only if all earlier ones are served in full |
| Waterfall.PourTwiceAt | src/global_manager/meta_eargm.c:266-292 | serving from free and then again from freeable power is serving once from both |
| MetaPlan.PlanPerReport | src/global_manager/meta_eargm.c:144-238 | nobody is told to grow and to shrink, no increase exceeds the request, no reduction exceeds freeable plus extra power; nobody greedy is granted power while extra power is withdrawn |
| MetaPlan.NetWhenShort | src/global_manager/meta_eargm.c:250-261 | when extra power must go, grants minus cuts are exactly the free power and what all extra power lacks |
| MetaPlan.RoundTotal | src/global_manager/meta_eargm.c:240-293 | the sum of caps after a round that needs no extra power, in closed form |
| MetaPlan.AfterRound | src/global_manager/meta_eargm.c:240-293 | of every round on honest reports: the sum planned for is the sum reported and exactly the free power spent |
| MetaPlan.NoShortage | src/global_manager/meta_eargm.c:250-261 | the shortage the code calls impossible is impossible: free and extra power cover what is asked |
| MetaPlan.BudgetKeptExactly | src/global_manager/meta_eargm.c:240-293 | a round from within the budget plans for no more than it if and only if it does not spend free power twice; otherwise it plans for exactly the free power spent twice too much |
| MetaPlan.NeverFurtherOver | src/global_manager/meta_eargm.c:240-293 | at or over the budget the sum planned for is exactly the sum reported, and nothing is spent |
| MetaPlan.LeftIsUnassigned | src/global_manager/meta_eargm.c:240-293 | the free power a round leaves over is exactly what it does not assign of the budget, and the free power once more after a fall-through |
| MetaPlan.OvercutExactly | src/global_manager/meta_eargm.c:183-204 | a report is told to give up more than its cap if and only if its offer and extra power exceed it together and the requests reach that far beyond free, freeable and earlier extra power |
| MetaPlan.CutAboveExactly | src/global_manager/meta_eargm.c:159-204 | when a cut exceeds any given number of watts, in terms of the reports |
| MetaPlan.RoundKeptExactly | src/global_manager/meta_eargm.c:240-293 | with the cuts that are refused counted, a round keeps the budget if and only if it spends nothing twice and overcuts nobody, and exceeds it by exactly the refused cuts |
| MetaPlan.GrantBounded | src/global_manager/meta_eargm.c:144-238 | no grant takes anyone beyond the budget or beyond what all are to hold together |
| MetaPlan.ExtraHoldersComeLast | src/global_manager/meta_eargm.c:214-221 | a greedy sub-EARGM with any extra power is granted more only if every greedy one without is served in full |
| MetaPlan.GreedyInOrder | src/global_manager/meta_eargm.c:206-238 | among those with, and among those without extra power, an earlier report is served in full before a later one |
| MetaPlan.CutsInOrder | src/global_manager/meta_eargm.c:159-204 | offers are called in in order, extra power is withdrawn in order, and only once all offers are called in |
| MetaPlan.UnmetMeansNothingLeft | src/global_manager/meta_eargm.c:266-292 | unmet greedy demand means that no free power is left, that every offer is called in in full, and that the whole budget is assigned |
| MetaPlan.SpendsTwiceHappens | src/global_manager/meta_eargm.c:250-264 | three honest reports under a budget of 30 after whose round 34 are assigned |
| MetaPasses.PassStatus | src/global_manager/meta_eargm.c:159-238 | after a pass each report has given or got exactly its share of the waterfall |
| MetaPasses.PassTakes | src/global_manager/meta_eargm.c:159-238 | that share goes off its offer, its extra power or its request, and nothing else changes |
| MetaPasses.PassValue | src/global_manager/meta_eargm.c:159-238 | the table entry of each reporter grows by exactly its share |
| MetaPasses.PassAction | src/global_manager/meta_eargm.c:159-238 | its command is that of the pass exactly if the pass reached it |
| MetaPasses.PassSilent | src/global_manager/meta_eargm.c:134-142 | the entry of a sub-EARGM that did not report is left alone |
| MetaRound.ServeValue | src/global_manager/meta_eargm.c:266-292 | a greedy phase adds to each entry its share of free and freeable power, and what was called in from it |
| MetaRound.RoundMeetsPlan | src/global_manager/meta_eargm.c:240-293 | the up to eight passes of a round leave each reporter with its grant or cut of the plan and the matching command |
| MetaRound.RoundSilent | src/global_manager/meta_eargm.c:240-293 | who did not report is sent nothing |
| MetaRound.RoundCarriesPlan | src/global_manager/meta_eargm.c:240-293 | the whole table carries out the plan |
| MetaAnyRound.RoundAnyIs | src/global_manager/meta_eargm.c:240-293 | with all senders in the table, the round on any reports is the one that carries out the plan, and leaves its free power |
| MetaAnyRound.AfterAny | src/global_manager/meta_eargm.c:159-238 | what all reports offer and want shrinks by exactly what a pass spends, whoever sent them |
| MetaAnyRound.HelpingCovered | src/global_manager/meta_eargm.c:271-278 | a greedy phase hands out no more than it calls in if and only if senders in the table offer what the greedy there still want |
| MetaAnyRound.OutsideOfferBreaksBudget | src/global_manager/meta_eargm.c:271-278 | an offer from outside the table is handed out and not called in |
| MetaManager.TallyUp | src/global_manager/meta_eargm.c:91-121 | the totals and counts over all reports |
| MetaManager.TallySums | src/global_manager/meta_eargm.c:91-121 | the totals are the sums of power, extra power, caps, offers and requests |
| MetaManager.TallyCounts | src/global_manager/meta_eargm.c:91-121 | a count is zero exactly if nobody asks, nobody is greedy without extra power, or nobody is greedy with some |
| MetaManager.MetaEargm.constructor | src/global_manager/meta_eargm.c:48-58 | an empty table for distinct sub-EARGMs |
| MetaManager.MetaEargm.GetEargmPosition | src/global_manager/meta_eargm.c:134-142 | the first position of an id, and -1 exactly if it is unknown |
| MetaManager.MetaEargm.Aggregate | src/global_manager/meta_eargm.c:91-132 | totals over all reports, and the free power of the budget, zero if it is exceeded |
| MetaManager.MetaEargm.AssignAskDef | src/global_manager/meta_eargm.c:144-157 | everyone below its default is promised its request |
| MetaManager.MetaEargm.ReduceFreeable | src/global_manager/meta_eargm.c:159-181 | the freeable-power pass; what is missing and what stays freeable afterwards |
| MetaManager.MetaEargm.ReduceExtra | src/global_manager/meta_eargm.c:183-204 | the extra-power pass; what is missing afterwards |
| MetaManager.MetaEargm.AssignExtra | src/global_manager/meta_eargm.c:206-238 | the pass for one class of greedy sub-EARGMs; free power and demand left afterwards |
| MetaManager.MetaEargm.AskPhase | src/global_manager/meta_eargm.c:244-264 | on any reports: the round ends here exactly if free power and what senders in the table offer do not cover what is asked; otherwise it goes on with the free power untouched after a fall-through |
| MetaManager.MetaEargm.GreedyPhases | src/global_manager/meta_eargm.c:266-292 | on any reports: both greedy phases, or only the first if it uses up all freeable power |
| MetaManager.MetaEargm.Reallocate | src/global_manager/meta_eargm.c:240-293 | on any reports and any table the loops make exactly the passes of a round and leave its free power |
| MetaManager.MetaEargm.Round | src/global_manager/meta_eargm.c:334-352 | without reports nothing happens; otherwise the table is that of a round on them, and with distinct senders in the table it carries out the plan |
| Hierarchy.PublishKeeps | src/global_manager/cluster_powercap.c:616-641 | any publication with an offer up to the cap keeps the invariant of the system and what everyone is heading for |
| Hierarchy.CarryIsExact | src/global_manager/cluster_powercap.c:473-498 | where a command brings the cap: an increase does not wrap, a reduction is refused exactly if it exceeds the cap |
| Hierarchy.DeliverKeeps | src/global_manager/eargm_ext_rm.c:75-119 | a delivery keeps the invariant and what everyone is heading for |
| Hierarchy.RoundSettles | src/global_manager/meta_eargm.c:334-352 | on reports however old, the sum everyone is heading for is the planned one, what the reports have missed of the caps, and the cuts refused; it grows by exactly the free power spent and the cuts refused |
| Hierarchy.TableIsOrders | src/global_manager/eargm_rapi.c:285-327 | the command table of the meta-EARGM holds, entry by entry, the orders the system sends |
| Hierarchy.RunAccount | src/global_manager/meta_eargm.c:240-293 | over any run of publications, rounds and deliveries, on reports however old, the sum everyone is heading for is that of the start and what the rounds have added |
| Hierarchy.NeverTakenBack | src/global_manager/meta_eargm.c:240-293 | that sum never shrinks, so an overrun lasts |
| Hierarchy.BudgetOverRuns | src/global_manager/meta_eargm.c:240-293 | in every state of every run it is within the budget if and only if no round so far has added more than was left |
| Hierarchy.AskedIsCovered | src/global_manager/meta_eargm.c:250-261 | in every round of every run, on reports however old, free and extra power cover what is asked |
| CurrentReports.RoundExactly | src/global_manager/meta_eargm.c:240-293 | on current reports a round from within the budget leads out of it if and only if it spends free power twice or overcuts, and by how much in either case |
| CurrentReports.RoundOver | src/global_manager/meta_eargm.c:240-293 | at or over the budget a round adds exactly the cuts refused, which is more than nothing if and only if it overcuts |
| CurrentReports.CurrentOverRuns | src/global_manager/meta_eargm.c:240-293 | over any run on current reports, what everyone is heading for is within the budget if and only if no round so far spends free power twice or overcuts |
| CurrentReports.TwiceTheBudget | src/global_manager/meta_eargm.c:240-293 | where no round overcuts, it is at most the budget, or exactly the budget and what one round spent twice |
| CurrentReports.DefaultsSpendOnce | src/global_manager/meta_eargm.c:250-264 | in no run from the configured defaults does a round spend free power twice |
| CurrentReports.BudgetFromDefaults | src/global_manager/meta_eargm.c:240-293 | from the configured defaults, what everyone is heading for is within the budget if and only if no round so far has added more than was left; on current reports, if and only if none overcuts |
| InForce.CapsInForce | src/global_manager/eargm_rapi.c:285-327 | in every state of every run the caps in force are those everyone is heading for, plus the reductions and minus the increases under way |
| InForce.LostCommand | src/global_manager/eargm_rapi.c:297-301 | a lost command leaves the caps in force and changes what everyone is heading for by exactly the reduction or increase lost |
| InForce.ReductionsFirst | src/global_manager/eargm_rapi.c:290-313 | in runs that head for no more than the budget and whose increases wait for the reductions, the caps in force never exceed it |
| InForce.ReductionsFirstFromDefaults | src/global_manager/eargm_rapi.c:290-313 | from the defaults, on current reports, it is enough for that that no round overcuts |
| HierarchyWitnesses.StaleReportBreaksBudget | src/global_manager/eargm_ext_rm.c:45-69 | a run from the defaults under a budget of 20 that ends with 30 in force, because a sub-EARGM at a cap of 0 still answers with its last offer; the round that leads out of it neither spends free power twice nor overcuts |
| HierarchyWitnesses.IncreaseFirstOvershoots | src/global_manager/eargm_rapi.c:290-313 | a run from the defaults under a budget of 20 with 25 in force, because the increase is earlier in the table |
| HierarchyWitnesses.OverOfferBreaksBudget | src/global_manager/cluster_powercap.c:473-487 | a run of two turns from the defaults under a budget of 61 that ends with 94 in force, because a reduction is refused |
| HardPowercap.GrantsFit | src/global_manager/cluster_powercap.c:142-192 | grants fit into the free power and none exceeds its request |
| HardPowercap.CountIs | src/global_manager/cluster_powercap.c:98-122 | the number of nodes shares are made for is the number of those with a positive amount |
| HardPowercap.NewNodeGrant | src/global_manager/cluster_powercap.c:142-192 | a node without extra power gets all it wants if all such nodes together want less than is free, else an equal integer share |
| HardPowercap.HolderGrant | src/global_manager/cluster_powercap.c:178-192 | a greedy node that holds extra power gets an equal integer share, among all greedy nodes, of what the others left |
| HardPowercap.AfterNewIs | src/global_manager/cluster_powercap.c:142-192 | what the nodes without extra power leave is the free power without their grants |
| HardPowercap.NewNodeTold | src/global_manager/cluster_powercap.c:267-295 | a node without extra power is told all it wants if and only if all requests fit, or those of such nodes leave something, or its own is within the equal share; it is told nothing if power is withdrawn |
| HardPowercap.AllToldWhenAllFits | src/global_manager/cluster_powercap.c:277-283 | when all that is wanted fits, every node is told all it wants, with or without extra power |
| HardPowercap.HolderTold | src/global_manager/cluster_powercap.c:267-295 | otherwise a greedy node with extra power is told an equal integer share, among all greedy nodes, of what those without leave, or to give some of its own back |
| HardPowercap.ExactFitIsNotServed | src/global_manager/cluster_powercap.c:161-177 | requests of 10 and 2 out of 12 free watts get 6 and 2 if another node wants power, too |
| HardPowercap.CutsExact | src/global_manager/cluster_powercap.c:195-232 | together the nodes give back exactly what is asked or all they hold; nobody more than it holds, everyone at least the equal share or all it holds |
| HardPowercap.CutsInOrder | src/global_manager/cluster_powercap.c:195-232 | a node gives more than the equal share only if all before it give all they hold |
| HardPowercap.DecisionWithinCap | src/global_manager/cluster_powercap.c:235-309 | held, requested, granted and withdrawn power stay within the cap if and only if withdrawing all extra power would do |
| HardPowercap.NothingUntold | src/global_manager/cluster_powercap.c:263-309 | when the options need not be sent, nothing is decided for any node |
| HardPowercap.ClusterPowercap.constructor | src/global_manager/cluster_powercap.c:673-683 | a period starts with nothing decided for any node |
| HardPowercap.ClusterPowercap.Aggregate | src/global_manager/cluster_powercap.c:98-122 | the totals and counts of greedy nodes, with and without extra power |
| HardPowercap.ClusterPowercap.AllocateFree | src/global_manager/cluster_powercap.c:142-192 | the grants, and free power before is free power after plus the grants |
| HardPowercap.ClusterPowercap.Reduce | src/global_manager/cluster_powercap.c:195-232 | each node gives back its part of `CutsExact` |
| HardPowercap.ClusterPowercap.ServeGreedy | src/global_manager/cluster_powercap.c:267-295 | idle power is asked for exactly if some can be released and the requests do not fit |
| HardPowercap.ClusterPowercap.ReallocateOnce | src/global_manager/cluster_powercap.c:235-309 | asks for idle power, changing nothing, exactly if some can be released and not all that is wanted fits; otherwise decides for all nodes |
| HardPowercap.ClusterPowercap.Period | src/global_manager/cluster_powercap.c:673-696 | idle power is released exactly if some can be and not all that is wanted fits; afterwards every node has its decision, which is all it wants if everything fits, the cap holds if and only if withdrawing all extra power would do, with enough power the free power is exactly what is left, and the options are sent exactly if new jobs ask, power must be withdrawn, or greedy nodes meet free power |
| StorageModel.InsertKeepsLog | src/database_cache/eardbd_storage.c:315-344 | an insertion moves the wanted samples along the log and leaves none of them behind |
| StorageModel.NextReady | src/database_cache/eardbd_storage.c:352-375 | no event leaves a buffer full |
| StorageModel.NextExtendsLog | src/database_cache/eardbd_storage.c:352-375 | an event adds its own sample to the log of its type and nothing to any other |
| StorageModel.BuffersAreALog | src/database_cache/eardbd_storage.c:352-375 | in every run the batches handed on, followed by the live buffer, are the samples received, in order, and the index stays below the length of the allocation |
| StorageModel.AlarmHandsOnAll | src/database_cache/eardbd_body.c:144-151 | in every run, when the insertion alarm goes off or a full question makes the server insert, all samples received so far are handed on and no finished aggregation is held back |
| StorageModel.RolloverConserves | src/database_cache/eardbd_body.c:107-127 | closing an aggregation keeps the energy, also when that fills the buffer |
| StorageModel.RolloverFinishes | src/database_cache/eardbd_body.c:107-127 | a running aggregation with metrics becomes the last finished one and a new one begins; the batch is handed on exactly when it is full |
| StorageModel.ForgetKeepsRunning | src/database_cache/eardbd_storage.c:198-207 | a mirror that forgets keeps its running aggregation and what it has handed on |
| StorageModel.EnergyIsConserved | src/database_cache/eardbd_storage.c:173-186 | in every run the energy and number of all metrics received are those inserted, finished and running together |
| Storage.Cache.constructor | src/database_cache/eardbd_storage.c:188-207 | empty buffers and an empty running aggregation |
| Storage.Cache.InsertKind | src/database_cache/eardbd_storage.c:237-290 | the live buffer of one type is handed on and its index is zero |
| Storage.Cache.InsertAggregations | src/database_cache/eardbd_storage.c:292-302 | finished aggregations are handed on, the running one moves to the front |
| Storage.Cache.InsertHub | src/database_cache/eardbd_storage.c:315-344 | exactly the wanted types are handed on, in order, and start over; the running aggregation stays |
| Storage.Cache.SampleAdd | src/database_cache/eardbd_storage.c:352-375 | a sample joins its buffer, a missing buffer ignores it; a full buffer is handed on by the server at once, and by the mirror unless its question is answered |
| Storage.Cache.SampleReceive | src/database_cache/eardbd_storage.c:446-510 | a periodic metric also counts into the running aggregation, in server and mirror |
| Storage.Cache.SyncQuestion | src/database_cache/eardbd_storage.c:511-530 | the answer is the flag from before; the server inserts unless only the asker is a veteran, and a full question makes it one |
| Storage.Cache.AggregationAlarm | src/database_cache/eardbd_body.c:107-127 | the running aggregation is finished if it has metrics; a full buffer is handed on by the server, and by the mirror unless its question is answered |
| Storage.Cache.InsertionAlarm | src/database_cache/eardbd_body.c:144-151 | every buffer and all finished aggregations are handed on and start over, the running aggregation stays, and the server becomes a veteran |
| Storage.Cache.MirrorInsertionAlarm | src/database_cache/eardbd_body.c:129-152 | without an answer, or as the only veteran, the mirror inserts; otherwise it forgets |
| Storage.Cache.ResetAll | src/database_cache/eardbd_storage.c:198-207 | everything is forgotten but the running aggregation |
| Alarms.NextInv | src/database_cache/eardbd_sync.c:78-109 | every step leaves a positive sleep that is no longer than either countdown, so no countdown falls below zero |
| Alarms.NextInStep | src/database_cache/eardbd_sync.c:78-109 | countdowns agree with deadlines in absolute time, and a question never brings the insertion forward |
| Alarms.QuestionPostpones | src/database_cache/eardbd_storage.c:521-527 | a full question makes the insertion due a whole period and five seconds after it, and leaves the aggregation alone |
| Alarms.NextRollsCounted | src/database_cache/eardbd_body.c:107-127 | there is one roll-over for each full aggregation period |
| Alarms.NoDeadlineSkipped | src/database_cache/eardbd_sync.c:78-109 | in every run, with questions in the middle of a sleep, each exact-zero test is hit when its deadline has come and not before |
| Alarms.Clockwork.constructor | src/database_cache/eardbd.c:276-299 | configured or standard periods, and a first sleep |
| Alarms.Clockwork.ResetTimeoutSlct | src/database_cache/eardbd_sync.c:98-109 | the next sleep ends with the earlier alarm |
| Alarms.Clockwork.ManageAlarms | src/database_cache/eardbd_body.c:102-156 | which alarms go off, and the countdowns that follow |
| Alarms.Clockwork.SyncReset | src/database_cache/eardbd_storage.c:521-530 | a full question postpones the insertion alarm without disturbing the sleep |
| MirrorSync.DeliverKeeps | src/database_cache/eardbd_storage.c:446-510 | a delivery to mirror and running server keeps the invariant |
| MirrorSync.FillKeeps | src/database_cache/eardbd_storage.c:365-374 | so does the delivery that fills the mirror's buffer, whatever becomes of the question and in whichever order the server gets question and sample |
| MirrorSync.AlarmKeeps | src/database_cache/eardbd_body.c:144-151 | so does the server's own alarm, which hands on all it holds |
| MirrorSync.CrashKeeps | src/database_cache/eardbd_body.c:129-152 | so do a crash and a restart of the server |
| MirrorSync.SyncKeeps | src/database_cache/eardbd_body.c:129-152 | so does a full synchronisation, whatever becomes of its messages |
| MirrorSync.OneInserter | src/database_cache/eardbd_storage.c:511-530 | after an answered synchronisation one side has handed on all it held, in order, and the other nothing; the mirror is empty |
| MirrorSync.ForgetsTheHandedOn | src/database_cache/eardbd_body.c:129-152 | what the mirror forgets the server has handed on |
| MirrorSync.NoSampleLost | src/database_cache/eardbd_body.c:129-152 | in every run under the two assumptions each sample delivered is in the database or still with the mirror, and every answered synchronisation has one inserter |
| MirrorSync.ForgottenExactly | src/database_cache/eardbd_body.c:129-152 | in any state, a forgotten sample is in the database exactly if it was or the server had received it |
| MirrorSync.SyncTimes | src/database_cache/eardbd_body.c:129-152 | a synchronisation hands a sample on as often as the inserting sides hold it |
| MirrorSync.OnceForAll | src/database_cache/eardbd_body.c:129-152 | when a synchronisation hands a sample on once and nobody holds it any more |
| MirrorWitnesses.LossAfterRestart | src/database_cache/eardbd_body.c:129-152 | a run that loses what arrived while the server was down, because its own alarm made it a veteran |
| MirrorWitnesses.LossInFirstPeriod | src/database_cache/eardbd_body.c:129-152 | a run that loses what arrived before a crash in the first period |
| MirrorWitnesses.HandedOnTwice | src/database_cache/eardbd_body.c:129-152 | a run that hands a sample on twice |
| EnergyWindow.RingIsRecentEnergy | src/global_manager/eargm.c:367-386 | after any samples the ring adds up to the last T2/T1 of them, the initial fill counting as past samples |
| EnergyWindow.FillLoss | src/global_manager/eargm.c:418-427 | the fill loses less than one unit per slot |
| EnergyWindow.AggregateSamples | src/global_manager/eargm.c:838-842 | as many periods T1 as it takes to cover T2, and no more |
| EnergyWindow.Window.constructor | src/global_manager/eargm.c:838-845 | that many slots, filled with the past |
| EnergyWindow.Window.FillPeriods | src/global_manager/eargm.c:418-427 | equal shares everywhere |
| EnergyWindow.Window.NewEnergySample | src/global_manager/eargm.c:367-373 | the new value takes the place of the oldest |
| EnergyWindow.Window.ComputeEnergyT2 | src/global_manager/eargm.c:375-386 | the energy of the most recent values of the log |
| Warnings.LevelIs | src/global_manager/eargm.c:388-416 | there is no problem exactly below the first limit, and with limits in order the level is the number of those that the energy reaches |
| Warnings.DefconMonotone | src/global_manager/eargm.c:388-416 | more energy never lowers the level, whatever the limits |
| Warnings.ActsExactly | src/global_manager/eargm.c:941-1050 | over any trace a tick acts if and only if it finds a problem and none of the last ticks, as many as the grace periods, has acted |
| Warnings.ActingTicksApart | src/global_manager/eargm.c:941-1050 | over any trace two acting ticks are more than the grace periods apart |
| Warnings.LastingProblemActs | src/global_manager/eargm.c:941-1050 | a problem that lasts longer than the grace periods is acted upon |
| Warnings.SendsExactly | src/global_manager/eargm.c:941-1050 | a tick sends its level if and only if it acts, in automatic mode, and that is not the risk sent last and still standing |
| Warnings.NoRiskTwice | src/global_manager/eargm.c:941-1050 | between two sendings of the same risk there was a restoration or another risk |
| Warnings.RiskSentAgain | src/global_manager/eargm.c:941-1050 | three ticks that send the same risk twice and restore nothing |
| Warnings.RestoresOnlyAfterRisk | src/global_manager/eargm.c:941-1050 | a restoration comes only after a risk not yet restored, on the second of two ticks without a problem |
| Warnings.RestoresExactly | src/global_manager/eargm.c:941-1050 | the defaults are restored if and only if this is the second calm tick, in automatic mode, outside the grace periods, and a risk is outstanding |
| Warnings.LastingCalmRestores | src/global_manager/eargm.c:941-1050 | calm that lasts one tick longer than that brings the default configuration back in automatic mode |
| Warnings.EnergyGuard.constructor | src/global_manager/eargm.c:115-120 | no problem, no risk sent, defaults in force |
| Warnings.EnergyGuard.React | src/global_manager/eargm.c:941-1050 | which of action, risk and restoration a level brings, and the state after it |
| Warnings.EnergyGuard.T1Tick | src/global_manager/eargm.c:941-1050 | with limits in order the level is the number of those, in percent of the budget, that the energy of the last T2/T1 samples, this one included, reaches |
| JobTable.EnteredOk | src/daemon/power_monitor.c:177-202 | a context entered at its job or at a free entry keeps the list from counting too much, and every job counted right exactly if it was |
| JobTable.UnrecordedOk | src/daemon/power_monitor.c:192-197 | a context the list cannot take leaves its job counted wrong and all others as they were |
| JobTable.LeftOk | src/daemon/power_monitor.c:204-220 | the end of a listed context, the last one freeing the entry, keeps every job counted right exactly if it was |
| JobTable.UnlistedLeftOk | src/daemon/power_monitor.c:217-219 | the end of an unlisted one makes its job right again exactly if it was the last |
| JobContexts.Contexts.constructor | src/daemon/power_monitor.c:269-291 | only the idle context is in use and no job is listed |
| JobContexts.Contexts.FindJob | src/daemon/power_monitor.c:161-171 | the first entry of a job, and none exactly if it is not listed |
| JobContexts.Contexts.AddJob | src/daemon/power_monitor.c:177-202 | one context more at the entry of the job or at the first free one, refused exactly if the job is new and no entry is free |
| JobContexts.Contexts.DelJob | src/daemon/power_monitor.c:204-220 | one context less and a free entry after the last; a job that is not listed is ignored |
| JobContexts.Contexts.FindEmptyContext | src/daemon/power_monitor.c:293-308 | the first free slot, and -1 exactly if the counter says all are used |
| JobContexts.Contexts.FindContext | src/daemon/power_monitor.c:411-428 | -1 exactly if no slot at all has the job step, although the search is bounded |
| JobContexts.Contexts.NewContext | src/daemon/power_monitor.c:602-776 | the first free slot is taken; the counters stay right, and each job counted right exactly if it was and the list can take the new context |
| JobContexts.Contexts.EndContext | src/daemon/power_monitor.c:431-519 | one slot is freed; counters and highest slot stay right, and each job counted right exactly if it was or the last context of an unlisted job ended |
| JobContexts.Contexts.CleanJob | src/daemon/power_monitor.c:522-540 | every context of the job is ended and no other, the job is no longer listed and counted right, the others exactly if they were |
| JobContexts.FullListMisses | src/daemon/power_monitor.c:192-197 | any list without a free entry counts a new job wrong, and still none too often |
| JobContexts.FullListHappens | src/daemon/power_monitor.c:192-197 | for every length there is a table that fills the list and has a slot to spare |
| JobContexts.EnergyChargedTwice | src/daemon/power_monitor.c:2175-2239 | the only job of a node is charged its energy once for each of two steps |
| JobContexts.ChargeDividedByZero | src/daemon/power_monitor.c:2192-2194 | two listed jobs without CPUs and an unlisted one with four: its charge is divided by zero |
| JobContexts.Contexts.NumJobs | src/daemon/power_monitor.c:229-237 | the number of entries in use |
| JobContexts.Contexts.CleanCpus | src/daemon/power_monitor.c:222-227 | no entry has CPUs, and nothing else changes |
| JobContexts.Contexts.CountCpus | src/daemon/power_monitor.c:2124-2171 | the CPUs of every context, of every listed job and of all listed jobs, counted over all slots |
| JobContexts.Contexts.ChargeAll | src/daemon/power_monitor.c:2175-2239 | every context is charged by its ratio, of an unlisted job without CPUs by the number of jobs |
| JobContexts.Contexts.UpdatePmapps | src/daemon/power_monitor.c:2104-2242 | a sample recounts the CPUs and charges every context its part, or nothing without jobs; MPI steps of several listed jobs gain the energy by their masks; nothing else changes, and the idle context not at all |
| EnergySharing.CpusCounted | src/daemon/power_monitor.c:2151-2158 | an MPI step is charged for the CPUs in its mask; another step, and a job listed with one context, for the lesser of mask and plugin; any other job for those it had |
| EnergySharing.ChargedByMask | src/daemon/power_monitor.c:2151-2194 | MPI steps of several listed jobs share the energy by their masks, whatever the plugin announced |
| EnergySharing.ChargedWithCpus | src/daemon/power_monitor.c:2190-2194 | a context with CPUs gains its part of all listed ones, or everything if one job is listed |
| EnergySharing.ChargedWithoutCpus | src/daemon/power_monitor.c:2198-2211 | a context without CPUs gains the part of its job, everything if that has none, and an equal share by the number of jobs if it is not listed |
| EnergySharing.PartIs | src/daemon/power_monitor.c:2214-2215 | a charge is the energy times the ratio of CPUs |
| EnergySharing.EnergySharedExactly | src/daemon/power_monitor.c:2175-2239 | the contexts with CPUs accumulate exactly the energy of the node if and only if several jobs are listed, some have CPUs and all CPUs are of listed jobs, or one job is listed and one context has CPUs |
| EnergySharing.AllListedTo | src/daemon/power_monitor.c:2160-2167 | with every job counted right all CPUs are in the total |
| EnergySharing.BrokenExactly | src/daemon/power_monitor.c:2192-2194 | when a charge is divided by zero CPUs |
| EnergySharing.BatchChargedLikeItsSteps | src/daemon/power_monitor.c:2198-2206 | a context without CPUs of a listed job is charged what the contexts of its job with CPUs gain together |

## Left out

- Sockets, RPC dispatch, connection tables, commands, SQL and the report plugins: messages are events, and what is handed on is a log.
- Shared memory, files, signals, forking, logging, configuration reading and reloading: plumbing without claims of its own.
- The soft power cap, the thresholds of `cluster_power_monitor` and the actions executed on them: easy branches over floating-point limits.
- `power_to_free` and `power_to_request` of `cluster_hard_powercap`: they use a total refreshed only by a partial grant, so what a sub-EARGM offers and requests is a parameter of its publication.
- `eargm_table_init`: it adds up the budget with the index of the outer loop, so the budget is a parameter that is at least the sum of the defaults.
- Hierarchy.BudgetOverRuns: assumes that commands are delivered before the next round, that every sub-EARGM answers with its last report, that no offer exceeds the cap, as the publisher computes it, and that no grant makes a cap wrap; SET and RESET from outside and lost commands are not part of these runs; what one lost command changes is `InForce.LostCommand`.
- CurrentReports.BudgetFromDefaults: assumes the same, except that up to the first overrun on current reports a budget that fits into 32 bits is enough for no cap to wrap.
- SubManager.SubEargm.constructor: a configured default of -1, replaced by the minimum power of the cluster, is left out, because the default the cap is compared with then stays -1.
- MetaManager.MetaEargm.Reallocate: reports and the command table are sequences the methods reassign, so aliasing of the C arrays is not captured.
- MetaAnyRound.OutsideOfferBreaksBudget: the budget of whole runs is followed only with all senders in the table.
- HardPowercap.ClusterPowercap.Period: the watts released are a parameter, at most what is allocated; the early return when the status of the nodes cannot be fetched is left out.
- HardPowercap.ClusterPowercap.AllocateFree: the total of grants is kept from earlier periods if nothing is granted, and so nothing is claimed of unmet demand.
- Storage.Cache.SampleAdd: requires a free place, which a mirror's buffer lacks after an answered question about it: the source then writes behind it. The six allocations are sequences of sequences, so writing through pointers is not captured.
- Storage.Cache.AggregationAlarm: requires a slot for the running aggregation in the same way.
- Storage.Cache.SampleReceive: takes the type of a sample as given; classifying packets and the counters and timings of samples are left out.
- MirrorSync.NoSampleLost: assumes that a running server gets every sample, that it is up through the mirror's first period, that a restarted one hears a full question before its own alarm, and that a buffer of the mirror that is full and answered gets no sample before the next alarm; energy aggregations of the mirror are not followed.
- Alarms.NoDeadlineSkipped: time passes in whole seconds and a sleep lasts as long as asked.
- The contents of a risk and the selection of victim nodes, whose call is compiled out: a risk is its level.
- Warnings.EnergyGuard.T1Tick: models the policy that limits energy, the only one for which a percentage is computed; mails, actions on the command line, reports and the efficiency of actions are left out.
- JobContexts.Contexts.NewContext: models the success path (areas created, locks obtained); its failure returns and `clean_contexts_diff_than` leave the table outside the invariant.
- JobContexts.Contexts.EndContext: never called for the idle context.
- JobContexts.Contexts.UpdatePmapps: locks are obtained; the energy of a context is a real number, where the source drops fractions of a joule; energies of DRAM, packages and GPUs, power extremes and frequencies follow the same ratio or none and are left out.
- Frequencies, governors, priorities, GPUs and temperatures: wrappers over libraries that are not part of this model.
