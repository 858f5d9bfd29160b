# Verified model of the Redis Cluster operator

This project models the part of the operator that decides which pods of a Redis Cluster become
masters and slaves, on which hosts, and that brings the live cluster to that plan step by step.

* **Planners.** `RoundRobinLoop` and `Interleaving` are the round-robin over hosts, `CreationPlan`
  the planner for a new cluster (on Go slices that share a backing array, `GoSlices`), `ScalePlan`
  the planner for scaling and repair. `Spread`, `Pairing`, `CreationProperties`, `Colocation` and
  `ScaleProperties` say how good the plans are, exactly when a plan puts a slave next to its master
  and exactly when a planner fails; `Positions` says who is taken, and in which order, by position.
* **Topology.** `Topology` holds the roles of the live cluster, their listing by `cluster nodes` in
  any order, and how the planner reads it back; `Repair` the plan for a well-formed topology;
  `Lookup` the two ways node ids are found. A node lists its own cluster: the roles record which
  masters ended up in a cluster of their own, and a node outside every cluster lists itself.
* **Reconciler.** `Steps` is the step machine: every command works, fails without effect, or takes
  effect and still reports failure, and a failure ends the pass. `Operator` has the operator's
  methods, proved to be that machine. `Commands` says which commands a pass issues and where it
  stops, `Runs` and `Passes` what one pass keeps, `Branches` what the repair branches do;
  `Convergence` and `Outcomes` are about all runs, `Naming` about the ids a scale-up finds by
  substring, and `FailingInputs` has the inputs on which the operator does not do what it is for.
* **Around it.** `Reshard` is manual slot assignment and its resumption, and what a sync decides;
  `StatusWrites` and `StatusHistory` are the recorded status, `Syncs` is what syncs make of the
  record and of the cluster, `WorkQueue` the queue with one detached goroutine per key.

A topology is *well-formed* when there is one cluster, roles are disjoint and held by endpoints, every
slave has a master of its own, and there are at most ⌊n/2⌋ masters for n endpoints; it is *complete*
when there are ⌊n/2⌋ masters with one slave each. An attempt *splits* when it may leave a second
cluster. The environment supplies distinct, non-empty IPs without colons and distinct node ids.

Where comments or documentation and code differ, the model follows the code:

* the second promotion pass takes every other candidate, not the front ones
  (`pkg/operator/redis/check_rediscluster.go:520`);
* each key is synced on a detached goroutine and marked done by its own deferred call, not by the
  worker (`README.md:672`, `pkg/operator/redis/redis_operator.go:388`, `:414`);
* a probe that meets an unhealthy member returns no error
  (`pkg/operator/redis/check_rediscluster.go:381-384`), so the repair goes on to creation, whose
  command names the planned masters only (`pkg/operator/redis/sync_rediscluster.go:922-929`) and so
  founds a second cluster when none of them is a member;
* a scale-up runs its check, its listings and every add-node through the first old endpoint
  (`pkg/operator/redis/sync_rediscluster.go:1185`, `:1198`, `:1204`), which with an odd number of pods
  can be the one outside the cluster;
* master and slave are kept apart "as far as possible" (`pkg/operator/redis/sync_rediscluster.go:1253`)
  only by a greedy choice, which can miss a possible separation; `Colocation` says exactly when;
* a panic recovered during a sync leaves the error nil, so the key is not retried.

## Model

| member | source | states |
|---|---|---|
| `RoundRobinLoop.GroupByNode` | pkg/operator/redis/sync_rediscluster.go:1261-1265 | each host's queue is its addresses in order, and the keys are exactly the hosts |
| `RoundRobinLoop.SortedKeys` | pkg/operator/redis/sync_rediscluster.go:1267-1274 | the keys come out strictly increasing whatever order the map is enumerated in |
| `RoundRobinLoop.Interleave` | pkg/operator/redis/check_rediscluster.go:545-582 | the flag-controlled nested loop terminates on any non-empty input and computes the closed form ordered by (round, host key) |
| `Interleaving.RoundRobinInterleaves` | pkg/operator/redis/sync_rediscluster.go:1283-1302 | the closed form is a permutation of the input, keeps every host's own order and is ordered by (round, host key) |
| `Interleaving.InterleavingIsRoundRobin` | pkg/operator/redis/sync_rediscluster.go:1283-1302 | any list with those properties is the closed form, so they characterise the result |
| `Interleaving.RoundRobinDetermined` | pkg/operator/redis/sync_rediscluster.go:1261-1302 | permuting the input without changing a host's own order does not change the result |
| `Spread.PrefixBalanced` | pkg/operator/redis/sync_rediscluster.go:1286-1302 | in every prefix no host is two ahead of a host that still has addresses |
| `Spread.PrefixMinimizesMaxLoad` | pkg/operator/redis/sync_rediscluster.go:1283-1304 | for every prefix, no other choice of as many addresses has a smaller maximum per host |
| `Spread.PrefixCoverage` | pkg/operator/redis/sync_rediscluster.go:1283-1304 | the first k addresses cover min(k, hosts) hosts, the most k addresses can cover |
| `GoSlices.Append` | pkg/operator/redis/sync_rediscluster.go:1319-1380 | `append` on a window of a backing array: in place if capacity allows, also over its own source, else into a new array; nothing outside the appended range changes |
| `GoSlices.Rotate` | pkg/operator/redis/sync_rediscluster.go:1318-1319 | the rotation is the pure rotation with or without spare capacity, and any window in front of it is untouched |
| `GoSlices.Delete` | pkg/operator/redis/sync_rediscluster.go:1375-1380 | the in-place deletion is the pure deletion, and any window in front of it is untouched |
| `CreationPlan.AssignMasterSlaveIP` | pkg/operator/redis/sync_rediscluster.go:1255-1391 | on the shared backing array the planner returns the planned masters and slaves, an error only for no addresses, and its deferred closure, reading the masters window afterwards, names exactly the co-located pairs |
| `CreationPlan.AssignSlaves` | pkg/operator/redis/sync_rediscluster.go:1339-1388 | every master gets a slave, the early return never fires, and the masters window is unchanged by the deletions |
| `CreationPlan.DeferredWarnings` | pkg/operator/redis/sync_rediscluster.go:1328-1337 | indexing the slaves by master stays in range and reports exactly the pairs on one host |
| `CreationPlan.FindOther` | pkg/operator/redis/check_rediscluster.go:596-616 | the search takes the first candidate on another host, else the first; an empty IP counts as not found |
| `CreationProperties.CreationConserves` | pkg/operator/redis/sync_rediscluster.go:1276-1391 | ⌊n/2⌋ masters, as many slaves and n mod 2 leftovers partition the addresses |
| `CreationProperties.MastersMinimizeMaxLoad` | pkg/operator/redis/sync_rediscluster.go:1253-1304 | no other ⌊n/2⌋ addresses put fewer masters on the most loaded host |
| `CreationProperties.MastersCoverHosts` | pkg/operator/redis/sync_rediscluster.go:1253-1304 | the masters cover min(⌊n/2⌋, hosts) hosts, the most possible |
| `CreationProperties.PlanDetermined` | pkg/operator/redis/sync_rediscluster.go:1267-1302 | masters, slaves and leftover depend only on each host's own list |
| `CreationProperties.CreationCollapse` | pkg/operator/redis/sync_rediscluster.go:1339-1388 | after one co-located pair every later slave and the leftover are on that host, and all co-located pairs of a plan share one host |
| `Colocation.ColocationsExactly` | pkg/operator/redis/sync_rediscluster.go:1283-1388 | for any number of hosts, read off the interleaving before any slave is chosen: exactly how many masters share a host with their slave, and so exactly when none does |
| `Colocation.Neighbours` | pkg/operator/redis/sync_rediscluster.go:1286-1302 | up to the final run of addresses on one host, neighbours in the interleaving are on different hosts |
| `Colocation.ClashesInTail` | pkg/operator/redis/sync_rediscluster.go:1339-1388 | no master before the tail, where only that run and the rotated candidate are left, shares a host with its slave |
| `Colocation.SpreadWithinOneMayColocate` | pkg/operator/redis/sync_rediscluster.go:1348-1371 | a concrete input: three, three and four pods on three hosts; masters and slaves can be paired apart, yet the plan co-locates one pair |
| `CreationProperties.SeparationNeedsBalance` | pkg/operator/redis/sync_rediscluster.go:1253-1254 | in terms of loads alone, a plan without co-location needs every host to hold at most ⌈n/2⌉ addresses |
| `CreationProperties.TwoHostsSeparateExactly` | pkg/operator/redis/sync_rediscluster.go:1253-1391 | in terms of loads alone, on two hosts the plan has no co-location if and only if neither holds more than ⌈n/2⌉ addresses |
| `CreationProperties.BalancedThreeHostsMayColocate` | pkg/operator/redis/sync_rediscluster.go:1348-1371 | a concrete input that shows that bound not to suffice on three hosts: balanced, separable, yet the greedy plan co-locates a pair |
| `Pairing.PairingConserves` | pkg/operator/redis/sync_rediscluster.go:1339-1388 | slaves and leftovers partition the candidates, one slave per master while candidates last |
| `Pairing.ColocationCollapse` | pkg/operator/redis/check_rediscluster.go:591-634 | if pair i shares a host, every candidate still waiting at that step is on it |
| `Pairing.ColocatedPairsShareHost` | pkg/operator/redis/check_rediscluster.go:591-634 | all co-located pairs of one plan are on one host |
| `Pairing.TwoHostPairing` | pkg/operator/redis/sync_rediscluster.go:1348-1371 | on two hosts the greedy choice separates all pairs when each host's masters find enough candidates on the other |
| `ScalePlan.ComposeMasterSlaveIP` | pkg/operator/redis/check_rediscluster.go:473-644 | the planner's loops compute the plan function, with its index panic and its endless loop as outcomes |
| `ScalePlan.Classify` | pkg/operator/redis/check_rediscluster.go:475-484 | addresses split into existing masters and joining ones in order, masters checked first |
| `ScalePlan.PromoteFreshHosts` | pkg/operator/redis/check_rediscluster.go:492-518 | the delete-while-iterating pass |
| `ScalePlan.PromoteFallback` | pkg/operator/redis/check_rediscluster.go:520-525 | the pass that deletes at i and advances i, including when it runs out of range |
| `ScalePlan.AssignSlaves` | pkg/operator/redis/check_rediscluster.go:587-634 | slaves and their parents are paired in master order until candidates run out |
| `ScaleProperties.FreshPass` | pkg/operator/redis/check_rediscluster.go:492-518 | exactly one candidate on each host without a master is promoted, up to the number wanted (no limit if negative); promoting fewer means every candidate left is on a host with a master |
| `ScaleProperties.AlternatePass` | pkg/operator/redis/check_rediscluster.go:520-525 | in range if and only if 2·want - 1 candidates remain; it takes candidates 0, 2, 4, ... |
| `ScaleProperties.PromotionExact` | pkg/operator/redis/check_rediscluster.go:490-525 | both passes fail exactly when fresh hosts and other candidates are too few; otherwise they promote exactly what is wanted |
| `ScaleProperties.OutcomeExact` | pkg/operator/redis/check_rediscluster.go:486-582 | for every input, exactly when the planner indexes out of range and exactly when it never returns |
| `ScaleProperties.FallbackOnlyWhenCovered` | pkg/operator/redis/check_rediscluster.go:520-525 | the second pass promotes only when every remaining candidate's host has a master |
| `ScaleProperties.CoverageOptimal` | pkg/operator/redis/check_rediscluster.go:490-525 | no other choice of as many new masters puts masters on more hosts |
| `ScaleProperties.ScaleConserves` | pkg/operator/redis/check_rediscluster.go:486-643 | new masters, new slaves and leftovers partition the joining addresses |
| `ScaleProperties.ScaleCollapse` | pkg/operator/redis/check_rediscluster.go:591-634 | co-location collapse for the scale plan |
| `Positions.WithinPositions` | pkg/operator/redis/check_rediscluster.go:475-483 | the existing masters are the endpoints with a master's IP, in the order of the endpoints, by position |
| `Positions.WithoutPositions` | pkg/operator/redis/check_rediscluster.go:475-483 | so are the joining addresses and the masters without a slave, with the others' IPs |
| `Positions.FreshPositions` | pkg/operator/redis/check_rediscluster.go:495-518 | by position: the first pass promotes exactly the first candidate on each host without a master, as many as wanted; promoted and left both keep the candidates' order |
| `Positions.AlternatePositions` | pkg/operator/redis/check_rediscluster.go:520-525 | by position: the second pass takes every other candidate and leaves the others in order |
| `Positions.PromotePositions` | pkg/operator/redis/check_rediscluster.go:490-525 | both passes, in that order |
| `Positions.PairedPositions` | pkg/operator/redis/check_rediscluster.go:591-634 | greedy pairing by position: each master takes the first untaken candidate on another host, and if there is none, or its IP is empty, the first untaken one |
| `Positions.PlanPairs` | pkg/operator/redis/check_rediscluster.go:475-634 | a whole plan put together: who is promoted, the others interleaved over their hosts, and each master without a slave taking one of them in turn |
| `Positions.PlanInOrder` | pkg/operator/redis/check_rediscluster.go:527-533 | in the plan for a well-formed topology the parents are those that already were masters, in the order of the endpoints, and then the new ones in the order in which they join |
| `Positions.FourPodsPlan` | pkg/operator/redis/check_rediscluster.go:475-634 | a concrete input: of four pods A and B are masters without slaves; C goes to A and D to B, each to another host |
| `Positions.FourPodsTogether` | pkg/operator/redis/check_rediscluster.go:475-634 | the same pods with B before A and D before C: B takes C, and A is left with D on its own host |
| `Topology.BuildWillAddClusterMasterSlaveIPs` | pkg/operator/redis/check_rediscluster.go:444-471 | an error for no addresses; otherwise the plan for the master IPs, slave IPs and master-to-slave map read off the lines |
| `Topology.ReadingRoles` | pkg/operator/redis/check_rediscluster.go:452-468 | any order of lines reads back exactly the masters, slaves and served masters |
| `Topology.RolesRead` | pkg/operator/redis/check_rediscluster.go:455-468 | a line is read as a master's exactly when its flags are "master" and nothing else, and as a slave's otherwise |
| `Topology.PlanFromAnyListing` | pkg/operator/redis/check_rediscluster.go:452-470 | every listing of the same topology gives the same plan |
| `Repair.ServedCount` | pkg/operator/redis/check_rediscluster.go:456-464 | as many masters have a slave as there are slaves |
| `Repair.PlannerSafe` | pkg/operator/redis/check_rediscluster.go:486-582 | on a well-formed topology the planner neither indexes out of range nor spins |
| `Repair.PlanIsExact` | pkg/operator/redis/check_rediscluster.go:486-643 | it promotes exactly ⌊n/2⌋ minus the masters, attaches one new slave to each master without one and to no other, uses distinct addresses outside the cluster, and its parents are the new masters when all existing masters are served |
| `Repair.CompleteIsStable` | pkg/operator/redis/check_rediscluster.go:486-533 | re-planning a complete topology yields an empty plan, with n mod 2 addresses outside |
| `Repair.CompleteMeansOneSlaveEach` | pkg/operator/redis/check_rediscluster.go:438-443 | in a complete topology every master has exactly one slave |
| `Lookup.FindNodeIds` | pkg/operator/redis/check_rediscluster.go:151-160 | the exact lookup loops |
| `Lookup.FindNodeIdsBySubstring` | pkg/operator/redis/sync_rediscluster.go:1209-1218 | the substring lookup loops |
| `Lookup.LookupExactIsIds` | pkg/operator/redis/sync_rediscluster.go:254-263 | the exact lookup finds each member's id in any listing |
| `Lookup.SubstringLookupExact` | pkg/operator/redis/sync_rediscluster.go:1211-1216 | the substring lookup finds a member's id if and only if no earlier line contains its IP |
| `Lookup.SubstringLookupIsIds` | pkg/operator/redis/sync_rediscluster.go:1211-1216 | if no other listed member's address contains an IP looked for, the substring lookup is exact in any listing |
| `Lookup.SubstringRightExactly` | pkg/operator/redis/sync_rediscluster.go:1211-1216 | looking a member up by substring is right in every listing if and only if no other member's address contains its IP |
| `Strings.ContainsExactly` | pkg/operator/redis/sync_rediscluster.go:1213 | the substring test is true exactly when the IP occurs somewhere in the address |
| `Strings.LtExactly` | pkg/operator/redis/sync_rediscluster.go:1274 | host keys are ordered by their first difference, a proper prefix first |
| `Naming.ClearNamesSuffice` | pkg/operator/redis/sync_rediscluster.go:1203-1227 | a scale-up does in any listing what it does with exact ids if no address of another listed member or planned master contains a planned master's IP |
| `Naming.ScaleUpRightExactly` | pkg/operator/redis/sync_rediscluster.go:1203-1227 | and for an undisturbed one that is to succeed only if: in every listing the result is that with exact ids if and only if the names are clear |
| `Naming.DistinctPodsAreClear` | pkg/operator/redis/sync_rediscluster.go:1211-1216 | names are clear for every scale-up of pods of which none has an address that contains another's IP |
| `Lookup.SubstringLookupMistakesPrefix` | pkg/operator/redis/sync_rediscluster.go:1213 | a concrete listing in which looking for 10.0.0.1 finds 10.0.0.11 |
| `FailingInputs.WrongIdReportedDone` | pkg/operator/redis/sync_rediscluster.go:1209-1233 | a concrete scale-up from six pods to eight, nothing disturbed, that puts the new slave under an old master and reports success with the topology incomplete, where exact ids complete it |
| `Operator.RedisClusterOperator.ClusterNodes` | pkg/operator/redis/sync_rediscluster.go:294-356 | lists every member of the asked node's own cluster once, in no particular order; a node outside lists itself only |
| `Operator.RedisClusterOperator.AddMasterNodeToRedisCluster` | pkg/operator/redis/sync_rediscluster.go:990-1015 | the commands one by one through the given node, stopping at the first failure |
| `Operator.RedisClusterOperator.AddSlaveToClusterMaster` | pkg/operator/redis/sync_rediscluster.go:954-983 | the length check, then the commands one by one, stopping at the first failure |
| `Operator.RedisClusterOperator.RepairMembers` | pkg/operator/redis/check_rediscluster.go:119-168 | list, plan, add masters, list again, look ids up, add slaves, all through the first clustered address: the repair step function |
| `Operator.RedisClusterOperator.ScaleRedisCluster` | pkg/operator/redis/sync_rediscluster.go:1169-1233 | the scale-up through the first old endpoint, whatever that node lists, with ids found by substring in the listing it gets; as with exact ids when the names are clear; in any case no member changes role or master |
| `Operator.RedisClusterOperator.CreateAndInitRedisCluster` | pkg/operator/redis/sync_rediscluster.go:193-288 | the creation step function, also beside an existing cluster, with its early errors and the index panic on a single pod |
| `Operator.RedisClusterOperator.ProbeAddresses` | pkg/operator/redis/check_rediscluster.go:372-396 | splits addresses into clustered and alone; an unhealthy member gives empty lists and no error |
| `Operator.RedisClusterOperator.FixCreatingCluster` | pkg/operator/redis/check_rediscluster.go:107-175 | the creating repair branch |
| `Operator.RedisClusterOperator.FixScalingCluster` | pkg/operator/redis/check_rediscluster.go:183-201 | the scaling branch, with ids found in what the first pod lists then; as with exact ids when the names are clear |
| `Operator.RedisClusterOperator.UpgradeRedisCluster` | pkg/operator/redis/sync_rediscluster.go:55-101 | refusal of empty old endpoints, readiness, refusal of an unknown strategy type, scale-up through the first old endpoint with ids found in what it lists then; as with exact ids when the names are clear |
| `Operator.RedisClusterOperator.FixUpgradingCluster` | pkg/operator/redis/check_rediscluster.go:202-281 | the upgrading repair branch up to slot migration, with ids found in what the first pod lists then; as with exact ids when the names are clear |
| `Runs.AddMastersKeeps` | pkg/operator/redis/sync_rediscluster.go:992-1014 | wherever adding masters stops the topology is well-formed; success means all of them |
| `Runs.AttachSlavesKeeps` | pkg/operator/redis/sync_rediscluster.go:962-982 | wherever adding slaves stops the topology is well-formed; success means all of them |
| `Passes.RepairOnceKeeps` | pkg/operator/redis/check_rediscluster.go:119-168 | an interrupted repair keeps the topology well-formed and demotes nobody; success means complete; undisturbed it succeeds |
| `Passes.ScaleAlignment` | pkg/operator/redis/sync_rediscluster.go:1190-1192 | the compared lengths agree if and only if every existing master has its slave, and then the discarded parents equal the new masters element by element |
| `Passes.ScaleOnceKeeps` | pkg/operator/redis/sync_rediscluster.go:1169-1233 | a scale-up reports success only on a complete topology, and undisturbed if and only if the first old endpoint is a member and every existing master had its slave (or there is one pod); wherever it stops it keeps the topology well-formed, unless that endpoint is outside and is introduced to another outsider beside a cluster: then it leaves a second one |
| `Passes.ScaleThroughOutsider` | pkg/operator/redis/sync_rediscluster.go:1184-1206 | through an endpoint outside the cluster a scale-up of two pods or more never reports success, whatever the commands answer |
| `Passes.FoundersSeeFounders` | pkg/operator/redis/sync_rediscluster.go:236-251 | a cluster founded beside another lists its own masters only, so the count check passes |
| `Passes.CreateOnceExact` | pkg/operator/redis/sync_rediscluster.go:193-288 | creation never hangs, panics only on one pod, changes no member, and undisturbed succeeds exactly when two pods or more are planned and none of them is a member |
| `Passes.CreationChangesExactly` | pkg/operator/redis/sync_rediscluster.go:922-942 | it changes anything exactly when no planned master is a member and its command takes effect, and where there is a cluster the change is a second one |
| `Passes.CreateOnceKeeps` | pkg/operator/redis/sync_rediscluster.go:193-288 | wherever it stops it keeps the topology well-formed, and complete on success, unless there is a cluster none of the planned masters belongs to and the command takes effect: then it founds a second one |
| `Branches.FixCreatingKeeps` | pkg/operator/redis/check_rediscluster.go:107-175 | the creating repair: exactly when it leaves a second cluster, and sound otherwise; undisturbed it succeeds exactly when there are two members or more, or a creation fits |
| `Branches.FixScalingKeeps` | pkg/operator/redis/check_rediscluster.go:183-201 | the same for the scaling branch, whose exact condition of success is a new pod, a known strategy type, the first pod a member and every master served |
| `Branches.FixUpgradingKeeps` | pkg/operator/redis/check_rediscluster.go:202-281 | the same, with the exact condition of the upgrading branch |
| `Branches.UnhealthyMemberExactly` | pkg/operator/redis/check_rediscluster.go:380-384 | an unhealthy member sends the repair into creation, which leaves the topology alone if and only if some planned master is a member or the command has no effect; otherwise there are two clusters |
| `Commands.MastersJoinInOrder` | pkg/operator/redis/sync_rediscluster.go:990-1015 | wherever adding masters stops, the first k have joined, in the order given, with two commands each, and nobody else |
| `Commands.SlavesAttachInOrder` | pkg/operator/redis/sync_rediscluster.go:954-983 | wherever adding slaves stops, the first k are attached, each under the id at its place, with two commands each, and nobody else |
| `Commands.AddSlavesCommands` | pkg/operator/redis/sync_rediscluster.go:956-958 | lists of different lengths are refused before any command |
| `Commands.RepairOnceCommands` | pkg/operator/redis/check_rediscluster.go:119-168 | a repair issues no command after one that failed; one that reports success has listed twice and used two commands for each node it added |
| `Commands.ScaleOnceCommands` | pkg/operator/redis/sync_rediscluster.go:1169-1233 | so does a scale-up |
| `Commands.UpgradeCommands` | pkg/operator/redis/sync_rediscluster.go:55-101 | no old endpoints are refused at once, an unknown strategy type after the wait for the pods; success means the wait, two listings and two commands for each node |
| `Commands.CreateOnceCommands` | pkg/operator/redis/sync_rediscluster.go:193-288 | creation issues no command after one that failed; its success takes an exact number of commands, the last a check; it indexes out of range exactly on a single pod, once its first two commands have worked |
| `Commands.AttachFoundersCommands` | pkg/operator/redis/sync_rediscluster.go:236-272 | creation ends with an error if the first master does not list as many nodes as there are planned slaves |
| `Commands.ProbeStops` | pkg/operator/redis/check_rediscluster.go:372-396 | the probe asks every pod in turn; it fails at the first command that does or ends at the first unhealthy member, whichever comes first; an unhealthy pod that is alone does not end it |
| `Commands.ProbeLists` | pkg/operator/redis/check_rediscluster.go:372-396 | its two lists hold the pods that know others and those that do not, each in the order of the pods |
| `Commands.FixCreatingCommands` | pkg/operator/redis/check_rediscluster.go:107-175 | what a creating repair issues: one that goes on with a cluster and reports success has waited, asked every pod, repaired, waited for the cluster and rebalanced, all commands working |
| `Commands.FixUpgradingCommands` | pkg/operator/redis/check_rediscluster.go:202-281 | what an upgrading repair issues, with its index panic exactly on fewer pods than recorded, and the scale-up exactly when as many members are recorded as there are |
| `Commands.FixScalingCommands` | pkg/operator/redis/check_rediscluster.go:183-201 | the scaling branch always starts the scale-up over, or indexes out of range on fewer pods than recorded |
| `Convergence.SplitsExactly` | pkg/operator/redis/check_rediscluster.go:107-201 | for each attempt, all answers and all listings that mistake no name: it always leaves the topology well-formed if and only if it does not split, a condition on the roles before it |
| `Convergence.PerformKeeps` | pkg/operator/redis/check_rediscluster.go:107-281 | each attempt leaves a second cluster if it gets to a command that splits and that takes effect, and is sound otherwise; none hangs, and it panics only on one pod or on fewer pods than recorded |
| `Convergence.RunKeeps` | pkg/operator/redis/check_rediscluster.go:105-281 | over every run of interrupted creations, scale-ups and repairs with pods added in between: the topology ends well-formed if and only if no attempt both splits and takes effect |
| `Convergence.RunExtends` | pkg/operator/redis/check_rediscluster.go:105-281 | over every run whatsoever, splits included, no member changes role or master, and a cluster apart stays apart |
| `Convergence.SplitIsForever` | pkg/operator/redis/check_rediscluster.go:105-281 | once there is a second cluster no run, repairs included, makes the topology well-formed again |
| `Convergence.MendsExactly` | pkg/operator/redis/check_rediscluster.go:107-281 | undisturbed, a creating, scaling or upgrading repair reports success on a complete topology if and only if it has what it needs: a condition on the roles, the pods, the members recorded and the strategy type |
| `Convergence.CrashConvergence` | pkg/operator/redis/check_rediscluster.go:107-281 | after any such run one undisturbed repair of any of the three kinds reports success on a complete topology if and only if no attempt both split and took effect and the repair has what it needs; complete means exactly ⌊n/2⌋ masters with one slave each and n mod 2 addresses outside, and re-planning does nothing |
| `Convergence.SamePodsKeep` | pkg/operator/redis/sync_rediscluster.go:219-236 | while no pod is added, creations and their repairs never break the topology up, whatever interrupts them and whoever is unhealthy: the planned masters are members from the first time on |
| `Convergence.SamePodsConverge` | pkg/operator/redis/check_rediscluster.go:107-181 | so with four pods or more, the same throughout, crash convergence of creation holds without conditions on the run |
| `FailingInputs.NewHostsSplit` | pkg/operator/redis/sync_rediscluster.go:922-942 | a family that splits: at least as many pods added as there were, on hosts of their own that sort before the one host of the old pods |
| `FailingInputs.UnhealthyUpgradeSplits` | pkg/operator/redis/check_rediscluster.go:380-384 | a concrete input: six pods on one host, six more on six hosts, an unhealthy member, and the repaired upgrade leaves two clusters with nine masters |
| `Outcomes.RepairCarriesOutPlan` | pkg/operator/redis/check_rediscluster.go:128-168 | a repair that reports success put each planned slave under its planned parent |
| `Outcomes.ScaleCarriesOutPlan` | pkg/operator/redis/sync_rediscluster.go:1190-1227 | so does a scale-up, although it pairs by position |
| `Outcomes.CreationCarriesOutPlan` | pkg/operator/redis/sync_rediscluster.go:219-272 | a creation that reports success added the planned masters, each with its planned slave |
| `Outcomes.CreationMembers` | pkg/operator/redis/sync_rediscluster.go:1339-1391 | a first creation that reports success takes in every pod but the one its plan leaves over |
| `Outcomes.ScaleUpsSucceed` | pkg/operator/redis/sync_rediscluster.go:1169-1233 | from a complete topology any number of undisturbed scale-ups succeed if and only if the endpoint they ask is a member (or there is only ever one pod), so always for an even number of pods |
| `Outcomes.ScaleUpsAfterCreation` | pkg/operator/redis/sync_rediscluster.go:1184-1206 | after an undisturbed creation the scale-ups succeed if and only if the endpoint they ask is not the pod the creation plan leaves over |
| `FailingInputs.MiddleHostIsLeftOver` | pkg/operator/redis/sync_rediscluster.go:1318-1388 | with an odd number of pods on hosts of their own, the pod left over is the one on the middle host |
| `FailingInputs.FirstPodBlocksScaleUps` | pkg/operator/redis/sync_rediscluster.go:1157-1185 | a concrete input: seven pods on hosts of their own, the first on the middle one, which creation leaves outside; after any run of attempts that leaves it outside no scale-up through it reports success, however the commands answer |
| `Reshard.SlotOperator.ReshareRedisClusterSlotsToMasterNode` | pkg/operator/redis/sync_rediscluster.go:1055-1085 | the strategy loop with its failures and its index panic |
| `Reshard.SlotOperator.FixAssignReceive` | pkg/operator/redis/check_rediscluster.go:300-347 | the masters without slots, in whatever order, get the last strategies; too few strategies are an error |
| `Reshard.ReshareKeeps` | pkg/operator/redis/sync_rediscluster.go:1064-1082 | wherever the loop stops, strategies 0, 1, ... have been used once each and the unassigned masters are exactly those without slots |
| `Reshard.ReshareStops` | pkg/operator/redis/sync_rediscluster.go:1064-1082 | wherever the loop stops, strategy k has gone to master k for every k up to there, in order, and to nobody else; success only at the end, the panic exactly where strategies run out, no command after one that failed |
| `Reshard.FirstAssignment` | pkg/operator/redis/sync_rediscluster.go:1064-1082 | undisturbed, new master k gets strategy k, and exactly those whose strategy moves slots have some |
| `Reshard.ResumeStops` | pkg/operator/redis/check_rediscluster.go:300-347 | resumed: nothing to do and too few strategies end it without a command; otherwise the last strategies go to the masters in the order listed |
| `Reshard.TwoStrategies` | pkg/operator/redis/sync_rediscluster.go:1064-1082 | a concrete input: two new masters, 100 slots from A and 50 from B; the first gets the first |
| `Reshard.EveryStrategyOnce` | pkg/operator/redis/check_rediscluster.go:300-347 | over any number of interrupted attempts each strategy is applied once and each new master receives one |
| `Reshard.ResumeExact` | pkg/operator/redis/check_rediscluster.go:321 | resuming never repeats a strategy, wherever it was cut, if and only if every strategy moves a slot |
| `Reshard.ReshareInRange` | pkg/operator/redis/sync_rediscluster.go:1064-1072 | undisturbed, the loop indexes out of range exactly when strategies are fewer than masters |
| `Reshard.StrategiesMatchMasters` | pkg/operator/redis/redis_operator.go:475-555 | whatever manual upgrade of a complete topology the decision accepts, its strategies are as many as the promoted masters, except from odd to even, where they are one short |
| `Reshard.AcceptedUpgradePanicsExactly` | pkg/operator/redis/redis_operator.go:547-555 | so an accepted upgrade, undisturbed, indexes out of range in the slot assignment exactly from an odd to an even number of pods |
| `Reshard.DecideSync` | pkg/operator/redis/redis_operator.go:475-555 | the decision part of a sync |
| `Reshard.DecisionExactly` | pkg/operator/redis/redis_operator.go:475-555 | exactly when a sync creates, checks, scales up, refuses the type or the strategies, or does nothing |
| `StatusWrites.DeepEqual` | util/rediscluster.go:7-39 | true exactly for statuses equal in everything but observation times |
| `StatusWrites.CanonicalExactly` | pkg/operator/redis/sync_rediscluster.go:529-537 | sorting and comparing accepts two lists if and only if each name has the same observed conditions in the same order |
| `StatusWrites.CanonicalComparison` | pkg/operator/redis/sync_rediscluster.go:529-537 | with distinct names it accepts exactly equal sets of observed conditions |
| `StatusWrites.OrderIndependentExactly` | pkg/operator/redis/sync_rediscluster.go:529-537 | the comparison does not depend on the listing's order if and only if conditions of equal names differ in nothing but their times |
| `StatusWrites.NamelessMembersDependOnOrder` | pkg/operator/redis/sync_rediscluster.go:621-622 | a concrete input on which it does: two members outside the endpoints, both recorded without a name |
| `StatusHistory.ApiServer.UpdateRedisClusterStatus` | pkg/operator/redis/sync_rediscluster.go:407-553 | what a write records, when it is suppressed or refused, what copy it returns and what it leaves in the copy it was given, also when that one is stale from an earlier write |
| `StatusHistory.SuppressedExactly` | pkg/operator/redis/sync_rediscluster.go:536-552 | a Running write is suppressed exactly when phase, reason, replicas and each name's observed conditions are unchanged; repeating a write writes nothing |
| `StatusHistory.CarriedSuppressedExactly` | pkg/operator/redis/sync_rediscluster.go:474-537 | writes that carry the conditions along are suppressed exactly when phase, reason and replicas are unchanged, whatever conditions are recorded |
| `StatusHistory.WriteRecords` | pkg/operator/redis/sync_rediscluster.go:407-553 | for every phase, what a write puts on record; and it is recorded exactly when it can read what it needs, says something new, reaches the API and starts from the current version |
| `StatusHistory.ConditionsTellHistory` | pkg/operator/redis/sync_rediscluster.go:407-553 | over all runs of writes, recorded conditions are empty exactly when no Running write has succeeded since the last Creating write |
| `StatusHistory.CheckDecision` | pkg/operator/redis/check_rediscluster.go:33-106 | the branches of the status check, among them what comes of waiting for the pods |
| `StatusHistory.ApiServer.CheckAndUpdateRedisClusterStatus` | pkg/operator/redis/check_rediscluster.go:33-106 | the check up to its repairs: what it decides from the copy it is given, and the failure it records, if the API takes it, when the pods are not ready |
| `StatusHistory.DecideExactly` | pkg/operator/redis/check_rediscluster.go:33-106 | exactly when a check does which of its six things, by phase, number of recorded members and readiness |
| `StatusHistory.FailedRepairedByHistory` | pkg/operator/redis/check_rediscluster.go:76-99 | a failed cluster whose pods are ready is repaired as created or as scaled according to its true history |
| `Syncs.FirstSyncCreates` | pkg/operator/redis/redis_operator.go:481-531 | without a StatefulSet that has pods, a sync records that the cluster is being created and, undisturbed, with two pods or more, completes it |
| `Syncs.UpgradeSyncExactly` | pkg/operator/redis/redis_operator.go:537-580 | a sync of an accepted upgrade records that it scales, carrying the members along, and undisturbed completes the cluster if and only if the first old endpoint is a member and every master served (or there is one pod) |
| `Syncs.RefusedLeavesCluster` | pkg/operator/redis/redis_operator.go:493-556 | a refused upgrade leaves the live cluster alone and records at most the refusal; with the StatefulSet being deleted a sync does nothing |
| `Syncs.StaleSyncStartsNothing` | pkg/operator/redis/redis_operator.go:502-580 | a sync that creates or scales from a version no longer current, or without the API, ends at its first write, unless its phase is on record in what it read |
| `Syncs.CheckRepairsExactly` | pkg/operator/redis/check_rediscluster.go:76-281 | a check of a cluster that needs repair completes it, undisturbed, if and only if the repair of its phase has what it needs: Scaling starts the scale-up over, Creating and memberless Failed create, Upgrading and other Failed upgrade |
| `Syncs.LeftAloneExactly` | pkg/operator/redis/check_rediscluster.go:88-106 | when the pods are ready a check leaves alone exactly the clusters recorded as Running with another number of members than asked for, and those in a phase no check deals with |
| `Syncs.LeftAloneUntilFailure` | pkg/operator/redis/check_rediscluster.go:74-82 | over all runs of syncs and other changes to the object, such a cluster keeps its roles and its record until the first sync that finds the pods not ready and gets that recorded; that one records a failure with the conditions there were and changes no role |
| `Syncs.LeftAloneThroughoutExactly` | pkg/operator/redis/check_rediscluster.go:74-82 | so roles and record stay the same throughout a run if and only if it has no such sync |
| `Syncs.FailedScaleUpRepairedExactly` | pkg/operator/redis/check_rediscluster.go:76-106 | a failed scale-up is recorded as Running; after the first such sync the next one, undisturbed, completes the cluster if and only if the upgrading repair has what it needs for the roles the scale-up left and the members recorded |
| `Syncs.OddRecordIsNotMended` | pkg/operator/redis/check_rediscluster.go:222-229 | with an odd number of members, all recorded, it does not: it starts the scale-up over with a master that has no slave |
| `Syncs.SixOfEightIsRepaired` | pkg/operator/redis/check_rediscluster.go:76-82 | a concrete input: a scale-up to eight pods failed with six members, recorded as Running; a check leaves it alone, one sync finds the pods not ready, and the next completes the cluster with the specification unchanged |
| `Syncs.SevenOfEightIsNotRepaired` | pkg/operator/redis/check_rediscluster.go:222-229 | the same with seven members: the repair fails |
| `StatusHistory.HealthCheckedExactlyWhenEven` | pkg/operator/redis/check_rediscluster.go:33-38 | a complete cluster recorded from its first pod's listing is health-checked again exactly when its number of pods is even, or one |
| `WorkQueue.OperatorQueue.Enqueue` | pkg/operator/redis/redis_operator.go:335-343 | adding a key: dirty, and queued unless dirty or in processing |
| `WorkQueue.OperatorQueue.ProcessNextWorkItem` | pkg/operator/redis/redis_operator.go:373-391 | taking a key and detaching a goroutine for it |
| `WorkQueue.OperatorQueue.HandleError` | pkg/operator/redis/redis_operator.go:393-409 | forget on success, rate-limited requeue up to maxRetries, then forget |
| `WorkQueue.OperatorQueue.EndSync` | pkg/operator/redis/redis_operator.go:417-440 | recovery and handling in the order the deferred calls run |
| `WorkQueue.SyncEndExactly` | pkg/operator/redis/redis_operator.go:393-409 | a failed sync is put back by a timer unless it has been fifteen times since the key was last forgotten; then, and after success or a panic, the key is forgotten |
| `WorkQueue.FailedSyncIsRetried` | pkg/operator/redis/redis_operator.go:400-404 | in every history a key whose last sync failed and was put back waits in a timer, is dirty, or is being synced |
| `WorkQueue.FifteenRetries` | pkg/operator/redis/redis_operator.go:400-409 | each failure brings a key one closer to its fifteenth put-back; the failure after that one drops it |
| `WorkQueue.AddedIsWaiting` | pkg/operator/redis/redis_operator.go:335-343 | an event, or a timer that fires, makes its key dirty, in the queue or behind its goroutine |
| `WorkQueue.QueueProtocol` | pkg/operator/redis/redis_operator.go:366-441 | in every interleaving at most one goroutine per key, each Get matched by one Done, at most maxRetries limited requeues between Forgets |
| `WorkQueue.EventNotLost` | pkg/operator/redis/redis_operator.go:380-382 | a dirty key stays dirty, queued or behind its goroutine, until some worker gets it |
| `WorkQueue.EventDuringSyncCausesAnother` | pkg/operator/redis/redis_operator.go:380-382 | an event that arrives during a sync is queued when that sync is done |
| `WorkQueue.QueueIsFair` | pkg/operator/redis/redis_operator.go:373-374 | a queued key is reached after as many Gets as keys were queued before it |
| `WorkQueue.SyncsNeverOverlap` | pkg/operator/redis/redis_operator.go:380-414 | in every history a key is done with between any two times it is taken |
| `WorkQueue.DoneReleases` | pkg/operator/redis/redis_operator.go:414 | Done leaves nobody syncing the key, queues it exactly if it became dirty, and affects no other key |
| `WorkQueue.PanicsAreNotRetried` | pkg/operator/redis/redis_operator.go:417-440 | in every run in which the syncs of a key only succeed or panic it is never requeued with rate limit, and synced at most once for each event that adds it |

## Left out

- Convergence.CrashConvergence: follows scaling and upgrading repairs up to the slot migration, which is modelled on its own in `Reshard`.
- Convergence.RunKeeps: its scale-ups mistake no name: ids are found exactly, or by substring with clear names, the condition `Naming.ScaleUpRightExactly` gives; what a mistaken name does is shown by `FailingInputs.WrongIdReportedDone`.
- Passes.ScaleOnceKeeps: the same, as for every statement about a scale-up without a listing.
- Convergence.SamePodsKeep: covers creations and their repair; for a scale-up, or the repair of one, with no pod added there is the general condition of `Convergence.SplitsExactly`.
- Steps.Change: `redis-trib create` is taken to refuse when a node it is given is a member, and `add-node` when the new node is a member or the master id is not a master's; what a check answers through a node outside the cluster is left to the environment.
- Reshard.EveryStrategyOnce: a reshard is one atomic step that gives its target slots and leaves every source some; how redis-trib migrates slots, and automatic rebalancing, are not modelled.
- StatusHistory.ConditionsTellHistory: a copy of the current version is not written from again after the API failed, as in the operator's paths; a Running snapshot lists at least one member.
- Pod exec, command output parsing beyond the address and role fields, readiness polling, timeouts and gossip delay are one answer per command.
- Syncs.LeftAloneUntilFailure: no sync starts from a copy older than the record in question, and the specification does not change.
- The status writes between the steps of a pass are modelled on their own, not interleaved with the topology: what a health check or a repair records is left open in `Syncs`, and a pass that fails to write its status simply ends.
- Pods whose IP changes on restart, failover, and scaling down.
- Slices that are not shared with another live window are sequences reassigned in place of arrays; `sort.Strings` and `sort.SliceStable` are stable insertion sorts on sequences.
- Go compares strings by byte, the model by character; 32-bit replica counts are unbounded integers.
- Sorting endpoints by pod name, and the unused selection of new addresses against old endpoints.
- Queue shutdown, and the lengths of rate-limited delays: a delayed key may be added at any time.
- Construction of Services and StatefulSets (in `Syncs` one answer says whether they could be written), Kubernetes clients, informers, leader election, HTTP and flags.
