# STaRS, verified

STaRS distributes bags of tasks over a tree of peers. This project models its algorithms and protocols in
Dafny and proves what they promise. Every module stands for one or two source files. Code that works by
changing things step by step is a class or a method with loops; each of these is proved against functions on
values, and the theorems are about those functions and about all runs made of them.

| module | what it is about |
|---|---|
| `Clustering`, `Availability` | the lazily updated heap that clusters availability summaries, and the memory/disk clusters in them |
| `Overlay`, `OverlayProtocol` | handlers of structure nodes and resource nodes; worlds of peers joined by FIFO links |
| `OverlayPairs`, `OverlayInvariant`, `OverlaySafety`, `OverlayRoles`, `OverlayMember`, `OverlayDriver`, `OverlaySteps`, `OverlayNodes`, `OverlayHandlers`, `OverlayResources`, `OverlayRuns`, `OverlayTheorems` | the invariant of split transactions and what follows from it |
| `OverlayLinks`, `OverlayPlans` | what a split asks of its members, and that in every run they do it |
| `OverlayTree`, `OverlayTreeRuns` | the overlay is one forest in every reachable world: father and child links agree |
| `OverlayWitness` | one whole run, from nothing to a split that has won |
| `StructureNode` | the two kinds of overlay nodes as objects, against `Overlay` |
| `CentralizedQueue`, `CentralizedDP`, `CentralizedFSP`, `CentralizedMMP`, `CentralizedIBP` | the centralized schedulers |
| `Dispatcher`, `TaskBags` | update links and branch summaries; splitting of task bags |
| `Timers` | wake-ups of the simulated communication layer, on the simulator's event queue |
| `AppDatabase`, `Submission`, `SubmissionReports`, `SubmissionNodes` | request slots of the application database, the counters of a submitting node, and which messages keep them exact |
| `SubmissionForgets` | which tasks are lost when a submitting node forgets an application |
| `TreeBuilder` | the random tree that a simulation starts from |
| `Distributions` | histograms, their tables, and the inverse of a tabulated distribution |
| `Common` | what several of these use |

Time is counted in whole microseconds, as the source does; powers and slowness are reals. Functions that are only
declared in headers, standard heap algorithms and everything random are parameters or nondeterministic choices,
constrained by what the source relies on. `dafny verify dfyconfig.toml` checks the project.

## What is false of the code

Where a promise does not hold as it stands, the exact condition is proved, or an input that breaks it:

- One transaction id can see both a commit and a rollback. As long as a split is not lost, and so for ever after it has
  won, a rollback is told to a peer if and only if an offer of that peer was rejected
  (`OverlayTheorems.RollbackIffRejected`); whenever a search is still under way after the win and reaches an unused peer,
  that happens (`LateOfferIsRolledBack`), as it does in the run of `OverlayWitness.BothOutcomes`. No single peer is ever
  told both (`WhoIsTold`).
- The last task of a request is sent twice when its number is the largest unsigned word and the children take all
  tasks (`TaskBags.SplitIsExact` says when exactly, `LastWordIsSentTwice` shows one case). A run of a request duplicates
  nothing if and only if that never happens in it (`TasksAreConserved`).
- The hole that is computed for a queue can be shorter than the room behind its running task. It is exact if and only
  if that task is due by the deadline of the new ones, or takes no time, or the whole queue with it could still wait for
  that deadline, or there is no room behind that task at all (`CentralizedDP.HoleIsExactIff`; `HoleMayBeShort` is a queue
  that meets none of the four).
- The counters of a submitting node are right after a report exactly when that report is on time
  (`Submission.ReportIff`). Reports are on time if nodes accept only what was sent, report only what they alone have
  accepted, and report each end once (`SubmissionReports.TimelyRunIsCounted`). A report that is repeated can make the node
  forget an application that still runs (`RepeatedReportEndsEarly`, in the run of `RepeatedReportRun`).
- A submitting node can forget an application with tasks left that never ran, even if all reports are on time: when a
  request that failed waits for a new father, and the last running task ends meanwhile (`SubmissionForgets.ForgottenRun`).
  A report forgets only finished tasks if and only if no request of the application waits for a father and none was given
  up (`ForgetsFinishedIff`); so does a timeout, if its request also searches for nothing any more (`TimesOutFinishedIff`).
- A father does not always come to know the branch of a child that is at rest. Every commit and every rollback of a
  structure node replaces its links to its children, even of those that stay, and these have nothing to tell until their
  summary changes (`Dispatcher.RenewalForgets`). Every commit also replaces the link to the father, even if he stays, and
  starts its numbering again, so that he ignores updates until their numbers pass the old ones (`RestartIsIgnored`). At
  rest he holds the child's last update if and only if it has arrived since he replaced the link, with no higher or equal
  number of an earlier numbering before it and no higher one after it (`FatherKnowsBranch`).
- The optimized distribution agrees with the original one below the last probability, and everywhere exactly if its
  last run of equal probabilities lies in one bin (`Distributions.OptimizeKeepsAllWhen`). The table of a histogram loses
  its last bin: its value at 1 stays if and only if there is one bin or bins have no width, and its value beyond if and
  only if bins have no width (`HistogramLosesLastBin`).

One promise depends on its callers: a commit leaves a coherent branch summary if and only if it keeps the father's link,
or no child has reported, or a child's link is replaced or brings something new (`Dispatcher.CommitIsCoherentWhen`). The
callers replace all three links, or those of the children (src/lib/overlay/StructureNode.cpp:914-919 and 987), so every
commit that there is leaves the node's own summary coherent; `OnlyFatherForgets` is one that would not.

## Model

| member | source | states |
|---|---|---|
| Clustering.Add | include/ClusteringList.hpp:76-96 | A candidate is inserted in distance order among at most K, takes over its pool slot, and the slot of the entry that falls out becomes the free one. |
| Clustering.JoinKeepsFaithful | include/ClusteringList.hpp:226-230 | Merging two live clusters keeps every live cluster the aggregate of its own part of a partition of the inputs, and costs one live cluster. |
| Clustering.FaithfulMeansPartition | include/ClusteringList.hpp:203-246 | In a faithful summary every live input is behind exactly one live cluster, once. |
| Clustering.JoinKeepsTrusted | include/ClusteringList.hpp:107-109 | After a merge an entry whose stamp still equals its target's value still has the right distance and the right cached sum. |
| Clustering.CoreUpdate | include/ClusteringList.hpp:111-114 | Recomputing one entry makes its list trustworthy and disturbs no other list, as no two lists share a pool slot. |
| Clustering.ClusteringList.Purge | include/ClusteringList.hpp:192-201 | Erasing the empty clusters keeps the partition and leaves exactly the live ones. |
| Clustering.ClusteringList.Round | include/ClusteringList.hpp:205-244 | A round makes at most size minus limit true merges, and at least one if no pair is far and all distances are finite. |
| Clustering.ClusteringList.Cluster | include/ClusteringList.hpp:203-246 | For any list the result is a partition into exact aggregates; it and the clusters that were dead at the start are together at least limit, so it has at least limit clusters if all were live; it has exactly the smaller of size and limit if limit is positive, all were live, no pair is far and all distances are finite; it terminates. |
| Clustering.VectorOfDistances.Advance | include/ClusteringList.hpp:102-105 | Skips merged targets: the list is empty afterwards or points to a live target. |
| Clustering.VectorOfDistances.UpdateDistance | include/ClusteringList.hpp:111-114 | The current entry gets the present distance and stamp, and its slot the present sum. |
| Clustering.VectorOfDistances.Join | include/ClusteringList.hpp:226-230 | Moving the cached sum into the source is a true merge of the two clusters as they are now. |
| Clustering.VectorOfDistances.Iterate | include/ClusteringList.hpp:210-242 | Each turn either leaves the clusters alone or merges two live ones into their true sum, with no current candidate closer than they are; a measure of three parts decreases. |
| Clustering.VectorOfDistances.Populate | include/ClusteringList.hpp:131-161 | Every cluster gets its K nearest later clusters that are not ruled out, every entry its own pool slot below size*K+1, and the heap holds the lists that are not empty with the closest pair in front. |
| Availability.AggregateDescribes | include/ScalarParameter.hpp:64-72 | Aggregation is exact: minimum, sum of squares and sum of differences over the values of both sides, in 64-bit arithmetic. |
| Availability.AggregateIsExact | include/IBPAvailabilityInformation.hpp:62-67 | The aggregate of two clusters stands exactly for the nodes of both. |
| Availability.AddKeepsRepresents | include/IBPAvailabilityInformation.hpp:178-187 | Adding a node adds exactly that node to what the summary stands for. |
| Availability.JoinKeepsRepresents | include/IBPAvailabilityInformation.hpp:140-152 | Joining two summaries stands for the nodes of both. |
| Availability.ReduceKeepsRepresents | include/IBPAvailabilityInformation.hpp:154-159 | Reducing a summary neither loses nor duplicates a node. |
| Availability.SummariesRepresent | include/IBPAvailabilityInformation.hpp:140-187 | After any tree of additions, joins and reductions the clusters divide exactly the nodes that were put in, and each is the exact aggregate of its own. |
| Availability.NeverOverstates | include/IBPAvailabilityInformation.hpp:89-91 | A summary never offers more nodes for a requirement than there are that fulfil it, and offers all of them if nothing is required. |
| Availability.IBPAvailabilityInformation.AddNode | include/IBPAvailabilityInformation.hpp:178-187 | The object changes as `WithNode` says. |
| Availability.IBPAvailabilityInformation.Join | include/IBPAvailabilityInformation.hpp:140-152 | The object changes as `JoinedWith` says. |
| Availability.IBPAvailabilityInformation.Reduce | include/IBPAvailabilityInformation.hpp:154-159 | Clustering ends in a partition of the clusters, never below the bound by merging, and leaves small summaries alone. |
| Availability.IBPAvailabilityInformation.GetAvailability | include/IBPAvailabilityInformation.hpp:166-172 | Exactly the clusters that fulfil the requirement, in order. |
| OverlayMember.MemberKeeps | src/lib/overlay/StructureNode.cpp:642-869 | Whatever a structure node handles, it stays coherent with every split that it does not drive. |
| OverlayDriver.OpenPair | src/lib/overlay/StructureNode.cpp:460-628 | Whatever the driver of an open split handles, it stays coherent with every other node. |
| OverlayHandlers.TookKeeps | src/lib/overlay/StructureNode.cpp:1027-1040 | Whatever message a structure node handles, new or delayed, the invariant of the world survives. |
| OverlayResources.ResMemberKeeps | src/lib/overlay/ResourceNode.cpp:91-228 | A resource node stays coherent with every split, whatever it handles. |
| OverlayRuns.StepKeeps | src/lib/overlay/StructureNode.cpp:460-1040 | Every step of the overlay (a delivery, a replayed message, a split, a search that is repeated or lost, an offer, an insertion) keeps the invariant. |
| OverlayRuns.RunKeeps | src/lib/overlay/StructureNode.cpp:460-1040 | The invariant holds in every reachable world. |
| OverlayTheorems.AllOrNothing | src/lib/overlay/StructureNode.cpp:782-1001 | In every reachable world: while a split is open, who was counted waits; once it has won, every member waits with the commit on its way or has committed; once it has lost, who still waits will be told. |
| OverlayTheorems.WhoIsTold | src/lib/overlay/StructureNode.cpp:872-964 | Commits go exactly to the members of splits that have won, rollbacks never to these, and nobody is told both. |
| OverlayTheorems.WinsOnlyWithAll | src/lib/overlay/StructureNode.cpp:799-801 | In the step in which a split wins, every member has acknowledged and waits. |
| OverlayTheorems.RollbackIffRejected | src/lib/overlay/StructureNode.cpp:460-628 | In every run, under an id that is not lost, a rollback has been told to a peer if and only if an offer of that peer under this id was rejected; acknowledgements never come too late there. |
| OverlayTheorems.LateOfferIsRolledBack | src/lib/overlay/StructureNode.cpp:383-448 | When a split has won while one of its searches is still under way, an unused peer that the search reaches is told to roll back under the same id, which all members were told to commit. |
| OverlayWitness.SplitCanWin | src/lib/overlay/StructureNode.cpp:164-964 | There is a run from the first world in which four peers join, a node splits, its members acknowledge and the split wins, while a repeated search is still under way. |
| OverlayWitness.BothOutcomes | src/lib/overlay/StructureNode.cpp:375-448 | There is a run in which a member is told to commit and another peer to roll back under one id. |
| OverlayTheorems.FanoutBounded | src/lib/overlay/StructureNode.cpp:164-181 | No reachable node has more than 2m child links, and a node that looks for a brother has exactly 2m. |
| OverlayTheorems.SplitDealsOut | src/lib/overlay/StructureNode.cpp:557-571 | After a committed split every child belongs to the node and its brother together exactly as often as before, and of 2m children each has m. |
| OverlayTheorems.SplitRestored | src/lib/overlay/StructureNode.cpp:966-979 | Rolling a split back restores the child links, and the very zones if none was left half changed before. |
| OverlayTheorems.WaitsAtRest | src/lib/overlay/StructureNode.cpp:170-180 | A node that waits to split has no zone that is being added or deleted, so the two results above apply to it. |
| OverlayLinks.BrotherTakesChildren | src/lib/overlay/StructureNode.cpp:482-576 | The last message of a split makes the brother, once it commits, the father of exactly the children that move, below the same father and at the same level. |
| OverlayLinks.RootGetsFather | src/lib/overlay/StructureNode.cpp:490-502 | The first message of a root's split makes the node that offered itself first, once it commits, a root one level up with the old root and its brother as children. |
| OverlayPlans.MembersObey | src/lib/overlay/StructureNode.cpp:482-964 | In every run, at the step in which a node leaves a split with the commit: the driver has its level, its father or the new one, and the children that stay; a moved child has the brother as its father; the brother has exactly the moved children, the driver's level and father; a new root has the driver and the brother; the driver's father has the brother besides all that it had. Whatever was put off, overridden or under way before. |
| OverlayPlans.WonWasPlanned | src/lib/overlay/StructureNode.cpp:482-577 | Every split that has won has had the one step that the result above speaks of. |
| OverlayPlans.NothingIsLost | src/lib/overlay/StructureNode.cpp:949-1001 | Whoever leaves a transaction without the commit has the father and the children that it had before. |
| OverlayTree.MovedTree | src/lib/overlay/StructureNode.cpp:482-577 | Dealing out the children of a node between it and a brother, below the same or a new father, leaves a tree. |
| OverlayTree.HandledPlace | src/lib/overlay/StructureNode.cpp:642-964 | Whatever a node handles, it keeps its father and children, those of a decided transaction counted as done, unless its own split wins. |
| OverlayTree.WinMoves | src/lib/overlay/StructureNode.cpp:872-964 | In the step in which a split wins, all its members change their links together, and the result is a tree. |
| OverlayTreeRuns.RunIsTree | src/lib/overlay/StructureNode.cpp:460-1040 | In every reachable world the overlay is a tree: one node is among the children of another if and only if that is its father, nobody is there twice, and the father is one level above. |
| OverlayTreeRuns.LinksAgree | src/lib/overlay/StructureNode.cpp:460-1040 | Between transactions, a peer is an actual child link of a node if and only if its father link leads to that node, for structure nodes and for resource nodes. |
| OverlayTreeRuns.FatherIsAbove | src/lib/overlay/StructureNode.cpp:500-502 | In every reachable world the father of a structure node is one level above it, so there are no cycles. |
| OverlayTreeRuns.RunIsFull | src/lib/overlay/StructureNode.cpp:557-577 | In every reachable world whoever has a father has at least m children, those of a decided transaction counted as done. |
| OverlayTreeRuns.FanoutAtLeast | src/lib/overlay/StructureNode.cpp:557-577 | Between transactions, a structure node that has a father has at least m child links. |
| OverlayLinks.AskedMustAcknowledge | src/lib/overlay/StructureNode.cpp:503-577 | Exactly those who are asked are waited for. |
| StructureNode.StructureNode.Commit | src/lib/overlay/StructureNode.cpp:872-946 | State and messages become those of `Committed`. |
| StructureNode.StructureNode.Rollback | src/lib/overlay/StructureNode.cpp:949-1001 | State and messages become those of `RolledBack`. |
| StructureNode.StructureNode.CommitSubZones | src/lib/overlay/StructureNode.cpp:887-901 | The list loop erases the deletions and commits the rest, as `CommitZones` does. |
| StructureNode.StructureNode.RollbackSubZones | src/lib/overlay/StructureNode.cpp:966-979 | The list loop restores the deletions and erases the additions, as `RollbackZones` does. |
| StructureNode.StructureNode.TellMembers | src/lib/overlay/StructureNode.cpp:878-884 | Everybody who has acknowledged is told, and the list ends empty. |
| StructureNode.StructureNode.Divide | src/lib/overlay/StructureNode.cpp:482-577 | Father, moved children and brother are asked and listed, as `Split` says. |
| StructureNode.StructureNode.MoveChildren | src/lib/overlay/StructureNode.cpp:559-571 | Exactly the chosen children are marked as deleted, listed and asked to change their father. |
| StructureNode.StructureNode.HandleNewStrNode | src/lib/overlay/StructureNode.cpp:460-628 | An offer is taken as father, or as brother, or is rejected, as `OnNewStrNode` says. |
| StructureNode.StructureNode.HandleInitStrNode | src/lib/overlay/StructureNode.cpp:642-670 | The new node is initialised, or refuses, as `OnInitStrNode` says. |
| StructureNode.StructureNode.HandleNewFather | src/lib/overlay/StructureNode.cpp:682-711 | The request is put off, overrides a transaction, or is refused, as `OnNewFather` says. |
| StructureNode.StructureNode.HandleNewChild | src/lib/overlay/StructureNode.cpp:725-772 | The new child is put off or added, as `OnNewChild` says. |
| StructureNode.StructureNode.HandleAck | src/lib/overlay/StructureNode.cpp:782-808 | The sender is moved to the acknowledged ones, and the last one triggers the commit, as `OnAck` says. |
| StructureNode.StructureNode.ReceiveMessage | src/lib/overlay/StructureNode.cpp:1027-1040 | Every message changes the node as `Handle` says. |
| StructureNode.ResourceNode.ReceiveMessage | src/lib/overlay/ResourceNode.cpp:129-228 | Every message changes the resource node as `HandleRes` says. |
| CentralizedQueue.SortSorts | src/oldsim/CentralizedScheduler.cpp:99-102 | Sorting gives the same queue elements in the order of deadline, request and number. |
| CentralizedQueue.MeetsIffDemandFits | src/oldsim/CentralizedScheduler.cpp:311-344 | A sorted queue meets its deadlines if and only if for every deadline the work that is due by then fits before it. |
| CentralizedQueue.SortQueue | src/oldsim/CentralizedScheduler.cpp:102-102 | The queue after sorting. |
| CentralizedDP.LatestIsLatest | src/oldsim/CentralizedScheduler.cpp:328-332 | The backward computation gives the latest start from which all later deadlines are met, in both directions. |
| CentralizedDP.InsertionKeepsDeadlines | src/oldsim/CentralizedScheduler.cpp:385-388 | Inserting work for which there is room leaves everything due earlier in place, makes everything due at the same time or later finish in time, and changes nothing about whether the queue meets its deadlines. |
| CentralizedDP.HoleIsRoom | src/oldsim/CentralizedScheduler.cpp:311-336 | Work as long as the computed hole has room, whether the running one is kept first or sorted in. |
| CentralizedDP.HoleIsExactIff | src/oldsim/CentralizedScheduler.cpp:311-336 | Work has room behind the running one if and only if it is not longer than the hole, exactly for those queues whose running one is due by the new deadline, or takes no time, or that could wait for that deadline as a whole, or that have no room behind it at all. |
| CentralizedDP.HoleMayBeShort | src/oldsim/CentralizedScheduler.cpp:329-332 | A queue that meets none of the three: room for 60, a hole of 50. |
| CentralizedDP.TasksFit | src/oldsim/CentralizedScheduler.cpp:339-342 | As many as fit by operations also fit by time. |
| CentralizedDP.AddHole | src/oldsim/CentralizedScheduler.cpp:346-362 | The cache never has more holes than there are tasks, and once its capacity is enough it stays enough. |
| CentralizedDP.CentralizedDP.FindHoles | src/oldsim/CentralizedScheduler.cpp:304-365 | The cache holds holes of different suitable nodes with their capacities, and all of them as long as the capacity is not enough. |
| CentralizedDP.CentralizedDP.Assign | src/oldsim/CentralizedScheduler.cpp:367-392 | Exactly as many are assigned as there are, or as the cache can hold, numbered without a gap, and no hole is exceeded. |
| CentralizedDP.CentralizedDP.NewApp | src/oldsim/CentralizedScheduler.cpp:297-393 | All are assigned, or as many as the holes of all suitable nodes can hold together; queues stay sorted. |
| CentralizedDP.NewAppKeepsDeadlines | src/oldsim/CentralizedScheduler.cpp:379-390 | What a node is given makes nobody late who is due with it or later, moves nobody who is due before, and is in time itself. |
| CentralizedFSP.TopIsLast | src/oldsim/CentralizedScheduler.cpp:489-493 | The entry that is taken back from the front of the heap is the last one of its node. |
| CentralizedFSP.ClosedIsOptimal | src/oldsim/CentralizedScheduler.cpp:470-500 | If no suitable node would be better with one more, no other allocation of as many has a smaller largest slowness. |
| CentralizedFSP.TryNode | src/oldsim/CentralizedScheduler.cpp:475-498 | One try keeps the heap equal to the pairs of all nodes and numbers given, and the nodes that were refused stay closed. |
| CentralizedFSP.CalculateTasksPerNode | src/oldsim/CentralizedScheduler.cpp:464-502 | If a node is suitable, all are given; the heap is exactly the pairs given; no other allocation has a smaller largest slowness; the search ends by round numTasks + 2. |
| CentralizedMMP.BalancedIsOptimal | src/oldsim/CentralizedScheduler.cpp:242-249 | An allocation that no single move improves ends by any time by which another one of as many does. |
| CentralizedMMP.Allocate | src/oldsim/CentralizedScheduler.cpp:242-249 | The greedy choice gives out all, and no other way to give them out to suitable nodes ends sooner. |
| CentralizedMMP.CentralizedMMP.NewApp | src/oldsim/CentralizedScheduler.cpp:215-262 | The request is given to the queues with the earliest possible last end; without a suitable node nothing changes. |
| CentralizedMMP.CentralizedMMP.UpdateQueueLengths | src/oldsim/CentralizedScheduler.cpp:264-274 | The end of the queue moves from the later of its old value and now, and the maximum stays the maximum. |
| CentralizedIBP.CentralizedIBP.Select | src/oldsim/CentralizedScheduler.cpp:163-184 | The bounded heap ends with as many usable nodes as there are tasks, or all of them, and no usable node that is passed over has less to spare than a chosen one. |
| CentralizedIBP.CentralizedIBP.NewApp | src/oldsim/CentralizedScheduler.cpp:158-200 | Each chosen node, idle before, gets exactly one of the tasks, numbered from 1; all other queues stay as they are. |
| Timers.WakeUpIsGood | src/oldsim/StarsNode.cpp:228-246 | After a wake-up everything due was sent and the next wake-up is programmed. |
| Timers.NextIsWaking | src/oldsim/Simulator.cpp:347-353 | When the clock moves to the next event no timer is overdue, as its wake-up comes first. |
| Timers.NoTimerIsLate | src/oldsim/StarsNode.cpp:101-125 | In every reachable state with timers a wake-up is pending, not later than the first timeout. |
| Timers.SentWhenDue | src/oldsim/StarsNode.cpp:101-246 | Every timer that was not cancelled is sent once, exactly when it is due; a cancelled one that was not sent before is never sent. |
| Timers.RunIsGood | src/oldsim/StarsNode.cpp:101-246 | The list is sorted, numbers are given once, and each timer is listed, sent or cancelled, in every reachable state. |
| Timers.Simulator.PopNextEvent | src/oldsim/Simulator.cpp:347-353 | An event that is due first is taken, and the clock moves to it. |
| Timers.CommLayer.SetTimer | include/CommLayer.hpp:160-175 | A timer in the past is refused, any other is set as `AfterSet` says. |
| Timers.CommLayer.SetTimerImpl | src/oldsim/StarsNode.cpp:101-114 | The timer is put in its place, and brings its own wake-up if it is due before all others. |
| Timers.CommLayer.CancelTimer | src/oldsim/StarsNode.cpp:117-125 | The timer of that number leaves the list. |
| Timers.CommLayer.ReceiveWakeUp | src/oldsim/StarsNode.cpp:226-246 | The loop sends what is due and programs the next wake-up once, as `WakeUp` says. |
| Dispatcher.LinkConverges | include/Dispatcher.hpp:121-157 | Numbers on a link grow strictly; under any reordering and duplication the receiver holds the newest message that has arrived, and after the last one what the sender told last, reduced. |
| Dispatcher.NeverGoesBack | include/Dispatcher.hpp:145-157 | The receiver never returns to an older message. |
| Dispatcher.BranchStaysCoherent | include/Dispatcher.hpp:86-374 | In every reachable state the branch summary is the join of the latest reports of the children, and outside a change the father was told an equal summary or the update timer is set. |
| Dispatcher.FatherKnowsBranch | include/Dispatcher.hpp:121-374 | In any run in which the father replaces its link to the child, and the child its link to the father, at any time: at rest the child's last update says the reduced join of its own children's latest reports, and the father holds that update if and only if it was the first with the highest number to arrive since he replaced the link; with one numbering, if and only if it has arrived since. He knows the branch if and only if what he holds says the same. |
| Dispatcher.RenewalForgets | include/Dispatcher.hpp:359-374 | Whenever a father replaces its link to a child at rest, it knows nothing of the child's branch any more, and the child has nothing to tell. |
| Dispatcher.RestartIsIgnored | include/Dispatcher.hpp:121-157 | A run in which a dispatcher commits, and its father ignores the next update, as it is number 1 again. |
| Dispatcher.NotifyingIsWire | include/Dispatcher.hpp:328-343 | What a dispatcher does to the link of a father it keeps is to learn a summary, to forget it, or neither, before it may tell it. |
| Dispatcher.CommitBegins | include/Dispatcher.hpp:359-374 | A commit that replaces the father's link together with a child's begins a new link of that kind. |
| Dispatcher.CommitIsCoherentWhen | include/Dispatcher.hpp:359-374 | The exact condition under which a commit leaves a coherent summary; both callers meet it. |
| Dispatcher.OnlyFatherForgets | include/Dispatcher.hpp:359-374 | A commit that does not: it replaces the father's link alone, after one child has reported. |
| Dispatcher.UpdatesArePaced | include/Dispatcher.hpp:228-260 | In every run two updates for the father are so far apart that the size of the first stays within the configured bandwidth. |
| Dispatcher.Dispatcher.RecomputeFatherInfo | include/Dispatcher.hpp:328-343 | The waiting summary becomes the join of what the children have told. |
| Dispatcher.Dispatcher.DoNotify | include/Dispatcher.hpp:228-260 | An update is sent, or the timer is set, as `Notify` says. |
| Dispatcher.Dispatcher.HandleInfo | include/Dispatcher.hpp:191-208 | An update is delayed, taken or ignored, as `OnInfo` says. |
| Dispatcher.Dispatcher.CommitChanges | include/Dispatcher.hpp:359-374 | Links are replaced, delayed updates replayed and the summary recomputed, as `OnCommit` says. |
| TaskBags.SplitIsExact | include/Dispatcher.hpp:270-301 | The parts of a split cover the bag without gap or overlap if and only if the number of the next one does not wrap around. |
| TaskBags.LastWordIsSentTwice | include/Dispatcher.hpp:287-293 | A bag whose last number is the largest word is also sent to the father when a child took all of it. |
| TaskBags.TasksAreConserved | include/Dispatcher.hpp:270-301 | Along any run of dispatchers and schedulers each of the numbers of a request is in exactly one bag, in flight, accepted or dropped, and no other number is anywhere, if and only if no split of the run has wrapped around. |
| TaskBags.OthersNeverWrap | include/Dispatcher.hpp:270-301 | Only a request that ends with the largest word can come to that. |
| TaskBags.BagsAreDisjoint | include/TaskBagMsg.hpp:162-168 | No two bags share a number, wherever they are, if and only if no split of the run has wrapped around. |
| TaskBags.SendTasks | include/Dispatcher.hpp:270-301 | The sub-requests sent down, up or discarded are the parts of the split. |
| TaskBags.Scheduler.Accept | src/lib/scheduling/Scheduler.cpp:119-149 | The accepted range is the first part of the bag, its tasks are appended to the queue in order, and the rest is rejected. |
| AppDatabase.SlotIsOnly | src/oldsim/SimAppDatabase.cpp:120-149 | What a slot refers to is not ready, and no other slot refers to it. |
| AppDatabase.OperationsKeepSlots | src/oldsim/SimAppDatabase.cpp:120-284 | Every operation of the database, whatever it is told, keeps each ready element out of all slots and every other one in exactly one. |
| AppDatabase.NumChange | src/oldsim/SimAppDatabase.cpp:173-219 | How the number of elements in each state changes with a batch of state changes. |
| AppDatabase.SimAppDatabase.FindAppInstance | src/oldsim/SimAppDatabase.cpp:37-47 | The cache never changes the answer. |
| AppDatabase.SimAppDatabase.FindRequest | src/oldsim/SimAppDatabase.cpp:50-63 | The cache never changes the answer. |
| AppDatabase.SimAppDatabase.OpenNewRequest | src/oldsim/SimAppDatabase.cpp:120-170 | A new request gets a slot for every ready element, and these are searched for. |
| AppDatabase.SimAppDatabase.CancelRequest | src/oldsim/SimAppDatabase.cpp:173-190 | What the request still searches for becomes ready and leaves its slots; the number is returned. |
| AppDatabase.SimAppDatabase.AcceptedTasks | src/oldsim/SimAppDatabase.cpp:193-219 | Exactly the searched elements in the range start to run on the host, and are counted; numbers out of range are ignored. |
| AppDatabase.SimAppDatabase.FinishedTask | src/oldsim/SimAppDatabase.cpp:232-249 | The element behind the number is finished; an unknown number is reported as such. |
| AppDatabase.SimAppDatabase.AbortedTask | src/oldsim/SimAppDatabase.cpp:252-266 | The element behind the number becomes ready and leaves its slot. |
| AppDatabase.SimAppDatabase.FreeDeadNode | src/oldsim/SimAppDatabase.cpp:269-284 | In every application exactly what ran on the host becomes ready and leaves its slots. |
| AppDatabase.SimAppDatabase.GetNumReady | src/oldsim/SimAppDatabase.cpp:297-304 | The number of ready elements. |
| AppDatabase.SimAppDatabase.CreateAppInstance | src/oldsim/SimAppDatabase.cpp:96-117 | A new application of ready elements under a new number. |
| AppDatabase.SimAppDatabase.AppInstanceFinished | src/oldsim/SimAppDatabase.cpp:66-83 | The application is forgotten, and the caches with it. |
| Submission.StepIsSound | src/lib/scheduling/SubmissionNode.cpp:57-269 | Whatever arrives, in any order, slots stay in order and every pending timeout finds its own request and its retries. |
| Submission.RunIsSound | src/lib/scheduling/SubmissionNode.cpp:57-269 | The same in every reachable state. |
| Submission.ReportIff | src/lib/scheduling/SubmissionNode.cpp:199-242 | A report keeps the counters exact if and only if it is about something that runs where it comes from, or about something that nobody counts. |
| Submission.StepIsCounted | src/lib/scheduling/SubmissionNode.cpp:57-269 | Every step other than a late report keeps the counters exact: what remains is what is searched for or runs, and on every node runs what is counted there. |
| Submission.RunIsCounted | src/lib/scheduling/SubmissionNode.cpp:57-269 | Counters are exact in every reachable state of a run whose reports are on time in the state they meet. |
| SubmissionReports.RunIsOnTime | src/lib/scheduling/SubmissionNode.cpp:131-242 | They are, if nodes accept only what was sent, report only what they alone have accepted, and report each end once. |
| SubmissionReports.TimelyRunIsCounted | src/lib/scheduling/SubmissionNode.cpp:57-269 | So counters are exact in every state that is reached from the start with such messages. |
| Submission.FromTheStart | src/lib/scheduling/SubmissionNode.cpp:57-269 | From the start of a node: exact counters, and an idle node has nothing on any other node. |
| Submission.HeartbeatIsCounted | src/lib/scheduling/SubmissionNode.cpp:257-269 | A dead node costs exactly what ran there; all of it is searched for again. |
| Submission.TimeoutIsCounted | src/lib/scheduling/SubmissionNode.cpp:175-196 | A timeout gives back exactly what was still searched for. |
| Submission.FinishIsCounted | src/lib/scheduling/SubmissionNode.cpp:187-192 | An application of which nothing is left runs nowhere. |
| SubmissionForgets.ForgetsFinishedIff | src/lib/scheduling/SubmissionNode.cpp:211-227 | In any run with reports on time, when a report makes the node forget an application, all its tasks are finished if and only if no request of it waits for a father and none was given up without being asked for again. |
| SubmissionForgets.TimesOutFinishedIff | src/lib/scheduling/SubmissionNode.cpp:175-196 | When a timeout does, all its tasks are finished if and only if, besides, its request searched for none any more; otherwise its retries are spent. |
| SubmissionForgets.ForgottenRun | src/lib/scheduling/SubmissionNode.cpp:57-242 | A run with reports on time in which the end of one task makes the node forget another that is ready; a new father changes nothing about that. |
| Submission.RepeatedReportEndsEarly | src/lib/scheduling/SubmissionNode.cpp:211-227 | A second report of the same end makes the node forget an application that still runs. |
| Submission.RepeatedReportRun | src/lib/scheduling/SubmissionNode.cpp:57-242 | A run from the start that comes to that: two tasks are submitted, accepted by one node, and the end of the first is reported twice. |
| Submission.RetriesAreBounded | src/lib/scheduling/SubmissionNode.cpp:175-196 | In every run no chain of retries gets longer than the configured limit. |
| Submission.TimeoutCountsUp | src/lib/scheduling/SubmissionNode.cpp:175-196 | A request that times out with something ready is followed by one that counts one retry more, until the limit. |
| SubmissionNodes.SubmissionNode.Send | src/lib/scheduling/SubmissionNode.cpp:57-91 | The fields and the database change as `SendRequest` says. |
| SubmissionNodes.SubmissionNode.AcceptTask | src/lib/scheduling/SubmissionNode.cpp:131-167 | The fields and the database change as `OnAccept` says. |
| SubmissionNodes.SubmissionNode.RequestTimeout | src/lib/scheduling/SubmissionNode.cpp:175-196 | The fields and the database change as `OnTimeout` says. |
| SubmissionNodes.SubmissionNode.TaskMonitor | src/lib/scheduling/SubmissionNode.cpp:199-242 | The fields and the database change as `OnReport` says. |
| SubmissionNodes.SubmissionNode.HeartbeatTimeout | src/lib/scheduling/SubmissionNode.cpp:257-269 | The fields and the database change as `OnHeartbeatTimeout` says. |
| SubmissionNodes.SubmissionNode.FatherChanged | src/lib/scheduling/SubmissionNode.cpp:116-123 | The loop sends all delayed requests, as `OnFatherChanged` says. |
| TreeBuilder.JoinForest | src/oldsim/cases/structure.cpp:334-350 | Giving two neighbours a spare branch as father keeps the nodes' links and zones those of a forest over all leaves in order. |
| TreeBuilder.TreeIsBuilt | src/oldsim/cases/structure.cpp:306-377 | For any number of nodes from 2 on and any shuffles the nodes hold one tree whose leaves are all nodes in order, each branch at most once, and nothing else. |
| TreeBuilder.TreeIsLevel | src/oldsim/cases/structure.cpp:306-377 | The depths of its leaves differ by at most one. |
| TreeBuilder.LinksInvert | src/oldsim/cases/structure.cpp:334-373 | A leaf or branch has a father if and only if that father has it as a child. |
| TreeBuilder.WhoHasAFather | src/oldsim/cases/structure.cpp:306-377 | Exactly the leaves of all nodes and the branches in use have a father, except the root. |
| TreeBuilder.ZonesAreExact | src/oldsim/SimOverlayBranch.cpp:26-34 | The zone that a branch keeps for a child holds an address if and only if one comes from that leaf to that child by going from father to father; the two zones are adjacent. |
| TreeBuilder.ZoneIsInterval | src/oldsim/SimOverlayBranch.cpp:26-34 | The zone of a part of the tree is the interval of its leaves. |
| TreeBuilder.OneIsLeftOver | src/oldsim/cases/structure.cpp:327-331 | Of the branches of all nodes the finished tree uses all but exactly one. |
| TreeBuilder.Simulation.FirstSlots | src/oldsim/cases/structure.cpp:314-329 | The first loop leaves what `SlotNet` says, and the buffers it says. |
| TreeBuilder.Simulation.NextLevel | src/oldsim/cases/structure.cpp:334-373 | Overwriting the level in place joins the neighbours as `LevelNet` says. |
| TreeBuilder.Simulation.PreStart | src/oldsim/cases/structure.cpp:306-377 | The builder leaves the tree of `TreeNet`, to which the results above apply. |
| Distributions.ValueMonotone | src/oldsim/Distributions.cpp:109-122 | With sorted bins a higher probability never gives a lower value. |
| Distributions.InverseInverts | src/oldsim/Distributions.cpp:109-122 | With increasing bins the cumulative probability at the value is the one that was asked for. |
| Distributions.OptimizeKeepsInverse | src/oldsim/Distributions.cpp:125-141 | Below the last probability the optimized table has the same inverse. |
| Distributions.OptimizeKeepsAllWhen | src/oldsim/Distributions.cpp:125-141 | It has the same inverse everywhere if and only if the last run of equal probabilities starts and ends in the same bin. |
| Distributions.NoInnerPoints | src/oldsim/Distributions.cpp:126-140 | Of every run of equal probabilities at most two points are left. |
| Distributions.AddedDescribes | src/oldsim/Distributions.cpp:27-47 | Every value that was added is counted in its own bin, bins added in front included, and the bins at both ends are not empty. |
| Distributions.TableShape | src/oldsim/Distributions.cpp:66-78 | The table of a histogram is sorted and ends with probability 1 twice, and no more often. |
| Distributions.HistogramLosesLastBin | src/oldsim/Distributions.cpp:66-78 | For a histogram of any values: its largest value is the end of the last bin, and after the optimization the start of that bin; when exactly the value at 1, or the whole inverse, stays. |
| Distributions.Histogram.AddValue | src/oldsim/Distributions.cpp:27-47 | The bins change as `Added` says. |
| Distributions.CDF.LoadFrom | src/oldsim/Distributions.cpp:66-78 | The loop leaves the optimized table of the histogram. |
| Distributions.CDF.Inverse | src/oldsim/Distributions.cpp:109-122 | The binary search ends between two points of different probabilities on any table, so it never divides by zero, and on a sorted one it gives the value of `Value`. |
| Distributions.CDF.Optimize | src/oldsim/Distributions.cpp:125-141 | The loop leaves the table of `Optimized`. |

## Left out

- Sockets, threads, serialization, the SQL database, the web interface, statistics files, logging and the SimGrid
  simulator: input and output.
- The root-leave, merge and leaving paths of a structure node, and new children that replace others: unfinished or never
  entered.
- Zone information, its updates and zone-to-zone distances: a split may move any half of the children, of which the
  distance order picks one; the order of the zones in the list is not kept either. `recomputeZone` aggregates its first
  zone twice, so its count of available nodes is not what it is meant to be.
- The relays of requests for structure nodes and of insertions: the model counts the searches under way (one when a split
  begins, one more for a root's second node, one more for each timer that fires, one less for each offer or loss), and
  lets a search reach any unused peer whose resource node is in the network, at any moment. Delayed messages are
  replayed at any moment when the node is in no transaction, which includes the moments at which the source does so.
- Failures of links: links between nodes are FIFO, ids are fresh and not zero, and a peer asks for one insertion at a
  time.
- The resource node's commit message, which the source sends after its delayed messages were handled, is kept as owed
  until then.
- OverlayTheorems.SplitRestored: the links are restored; a zone that was marked as changing into itself by an earlier
  rollback keeps its mark, as in the source.
- Clustering.ClusteringList.Cluster: NaN distances are excluded; arrays and the pool are sequences in fields, so that
  pointers into them are indices; any order that the standard heap functions may leave is allowed.
- The unsigned 32-bit values of clusters and `takeUpToNodes`, and node memories and disks of 2^31 or more, are not
  modelled; sums of squares do wrap around as 64-bit numbers.
- The random centralized scheduler, and the messages that tell nodes their new order: they add only easy members.
- CentralizedIBP.CentralizedIBP.Select: what a node has to spare is a parameter, at least 0 on suitable nodes.
- CentralizedFSP.CalculateTasksPerNode: the slowness of a node with more tasks is a parameter that never decreases; the
  list that computes it is not part of this model.
- CentralizedDP.CentralizedDP.NewApp: lengths are positive, as the source divides by them; 64-bit overflow of times and
  operations is not modelled.
- The network queues of the simulator and measured operation times: other events come at any time that is not in the
  past. Timer numbers are not limited to 31 bits.
- Dispatcher.BranchStaysCoherent: updates for the children are left out, as the base class never computes any; equal
  summaries are equal values; a commit that replaces the father's link replaces a child's too, as structure nodes do.
- Dispatcher.LinkConverges: sequence numbers are not limited to 32 bits.
- Submission.RunIsCounted: unsigned 32-bit counters are integers, so that a count below zero would show; requests are
  named by application and place, of which the source allows 2^32; the timers of heartbeats are not modelled, so that
  a heartbeat may run out at any moment; the source's separate opening of a request and start of its search are one
  operation, as a submitting node always does both.
- Reports about several elements in one message are handled one by one, as in the source, and are separate steps here.
- The statistics that the database keeps of requests, and their remaining and accepted counts, which nothing else uses.
- TreeBuilder.Simulation.PreStart: random shuffles are parameters; the order in which dispatchers are created afterwards
  is left out.
- The calibration of a histogram, 32-bit overflow of its bin numbers, and rounding of floating-point numbers everywhere.
