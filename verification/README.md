# Verified model of the cluster manager

This project models the decision making of the cluster manager and proves what it guarantees. External commands (Docker
Compose, `wg`, `etcdctl`, HTTP requests) are oracles that succeed, fail or return a value. What the program changes step by
step is a class whose methods are proved against functions on values; what is promised about whole runs is proved about
those functions, mostly as invariants of step machines over every interleaving.

| part | files |
|---|---|
| configuration, node ids, ports | `Models`, `PortAllocation`, `Registry`, `ClusterState`, `Cluster`, `Membership` |
| deployment on one node | `ComposeQueue`, `ServiceDirs`, `Reconciliation`, `SetupQueue`, `HealthPass`, `PassHistory` |
| cluster checks | `LeaderReports`, `PatroniBalancing`, `RebootDrain` |
| leader election | `ElectionOrder`, `ElectionRate` |
| replication and network | `Replication`, `Wireguard` |
| generated files | `KeyOrder`, `Haproxy`, `Texts`, `Template`, `PlainScalar`, `Environment`, `WebServiceFiles`, `Decimal` |

Main results, hardest first:

- Capacity without contention: from the creation of a cluster on, a fresh Patroni service can be deployed exactly while fewer
  than 1024 exist, and a fresh web service exactly while fewer than 50536 exist, although the port ranges overlap; no
  port is ever held twice and re-deploying never moves one.
- Membership over interleavings of a split join with kicks, elections and deployments: the invariant, what every operation
  does in a reachable state and when it is refused, and the exact condition for joins that overlap.
- Deployment on one node: however configuration changes and failing setup runs were interleaved, a drained queue leaves what
  one undisturbed run of the final configuration makes of the node, and a health pass then leaves exactly its containers
  up. With health passes running beside the setup runs the files are the same, and the containers are exactly the wanted
  ones unless a pass came late. Exact conditions say which files are on disk and which containers run them, also after a setup
  run by itself.
- Command queues and setup runs: mutual exclusion, order, nothing lost, no deadlock.
- Balancing: rounds act exactly while some node is above its share, and every successful round uses up one unit of excess;
  draining is greedy, conserving and comes before any reboot. All requests of a round are told apart by where it ends.
- The election comparator is a total order, the winner is the unique node that is preferred to all others, elections do not
  flap and are rate limited.
- Replication over a network that delays, loses, repeats and reorders messages: what a follower can hold, and what a push, a
  pull and a join deliver.
- WireGuard peers, the HAProxy file and the Compose file of a web service, the latter from the command line to the text of
  the file and back.

Some promises do not hold as one might expect them; the model keeps the code and proves when they do:

- A container misses the files of its directory after a setup run and a health pass in exactly two cases
  (`Reconciliation.FreshUnlessStaleUnnoticed`): it was up with other files while the hash file accounted for the present ones
  already, as after a failed `up` (`Reconciliation.FailedUpLeavesStale`), or it is HAProxy on the coordinator and is only
  reloaded although its compose file has changed (`Reconciliation.ReloadKeepsOldComposeFile`). Neither is repaired by
  further rounds with the same configuration while the container stays up (`Reconciliation.StaleIsNeverRepaired`).
- A write that throws between two files leaves a directory whose hash file can claim files that are not there
  (`ServiceDirs.TornWriteIsHidden`); the final files are on disk exactly where the last run did not start on such a
  directory (`SetupQueues.DrainedQueueConverges`).
- A health pass that listed a service before its removal brings the container up again behind the last setup run
  (`PassHistories.LatePassRevives`). Where everything works, the containers are exactly the wanted ones if and only if no
  pass under way at the stop of the last run had still to visit an unwanted directory (`PassHistories.PassesReconcile`).
- Saving the configuration can throw before the setup run is enqueued. The operation then throws although the configuration
  has changed, and the node stays as it is until the next change that can be saved (`SetupQueues.UnsavedChangeWaits`). The
  last run sees the final configuration if it is for the object in force and no change came after its start, as when every
  change could be saved (`SetupQueues.SavedChangesAreSeen`).
- The Compose file of a web service is generated by replacing template tags one after the other. An environment value that
  contains `{WIREGUARD_IP}`, `{EXPOSED_PORT}` or `{INTERNAL_PORT}` is changed (`WebServiceFiles.TagInValueIsReplaced`), an
  image that contains one of them or `{ENVIRONMENT}` as well (`WebServiceFiles.ImagesLost`). A line break or another control
  character in a value makes the block ill-formed (`Environment.LineBreakIsLost`,
  `Environment.ControlCharacterIsRefused`), and a variable named `null` or `true` is no string key
  (`Environment.NullKeyIsRefused`). By the rules of YAML 1.2.2, the file gives image, environment and port mapping back
  exactly when the image is a plain scalar that reads as a string, the keys are strings of at most 1024 characters, the
  values consist of tabs and characters from the space on, and neither image nor values contain a later tag
  (`WebServiceFiles.FileSurvives`); what Compose itself does with a `$` afterwards is not part of this.
- A WireGuard peer that stays keeps an outdated endpoint (`Wireguard.OutdatedTunnelsStay`), which a node that is kicked and
  joins again from another address can bring about (`Wireguard.OldEndpointIsReachable`).
- Two joins selected on the same node list take the same node id (`Membership.OverlappingJoinsCollide`); completing two joins
  keeps the configuration valid exactly when both nodes are new and they differ in id, hostname, key and address
  (`ClusterStates.TwoJoinsKeepInvariant`).
- `setPatroniService` and `setWebService` store texts with white space around them, which other nodes would refuse or load
  trimmed; the configuration stays valid exactly when they are called with trimmed texts (`Registries.NewWebKeepsInvariant`),
  as the command handlers do.

Where comments and code disagree, the model follows the code. The comment on `waitUntilRebootSafe` speaks of 15 seconds;
the code makes two checks with a delay of 5 seconds after each (src/app/httpServer.ts:35-45). `getPatroniHealth` is used as
a yes-or-no answer, but it also throws when no Patroni leader can be determined (src/adapters/patroni.ts:164-166): a third
outcome here, which ends the round.

`dafny verify dfyconfig.toml` checks the whole project.

## Model

| member | source | states |
|---|---|---|
| PortAllocation.AllocatePort | src/cluster/config.ts:593-606 | grants the requested port when it is in range and free, else the lowest free port; adds exactly the granted port to the shared set |
| PortAllocation.LowestFree | src/cluster/config.ts:599-605 | the result is free, in range and no lower one is free; failure means that the whole range is taken |
| PortAllocation.FailsOnlyWhenFull | src/cluster/config.ts:599-605 | the search fails exactly when the used ports of the range are as many as the range |
| PortAllocation.AllocateMeans | src/cluster/config.ts:593-606 | the requested port wins when it is in range and free; else the lowest free one, and failure only when the whole range is taken |
| PortAllocation.LowestFreeStaysBelow | src/cluster/config.ts:599-603 | while a lower part of the range has room, the search never leaves it |
| Registries.DeployFreshPatroni | src/cluster/config.ts:335-352 | a fresh Patroni service is stored iff fewer than 1024 exist, and fails only for lack of ports |
| Registries.DeployFreshWeb | src/cluster/config.ts:315-333 | a fresh web service with valid settings is stored iff fewer than 50536 exist, and fails only for lack of ports |
| Registries.PatroniBound | src/cluster/config.ts:345-346 | no registry with disjoint ports holds more than 1024 Patroni services |
| Registries.FreshPatroniPlan | src/cluster/config.ts:344-347 | the four chained allocations succeed iff the proxy range has room for two more; the ports are new, distinct and below the web range |
| Registries.NewWebMeans | src/cluster/config.ts:315-333 | a web deployment for any registry: refused for another type, for lack of ports or for its settings, in this order, or a service with exactly the given image, domain, port, variables and health path |
| Registries.NewPatroniMeans | src/cluster/config.ts:335-352 | the same for Patroni: four ports, allocated one after the other in their ranges, each different from those before |
| Registries.RedeployPatroni | src/cluster/config.ts:335-352 | re-deploying a Patroni service keeps its four ports and changes the mode only |
| Registries.RedeployWeb | src/cluster/config.ts:315-333 | re-deploying a web service keeps its port; only the schema can refuse it |
| Registries.NewPatroniKeepsInvariant | src/cluster/config.ts:335-352 | a stored Patroni deployment keeps all ports distinct and in the range of their class, and the registry loadable, iff its id is well-formed |
| Registries.NewWebKeepsInvariant | src/cluster/config.ts:315-333 | the same for web services, iff the id is well-formed and the texts are trimmed |
| Registries.RemoveKeepsInvariant | src/cluster/config.ts:354-362 | the same for removals |
| Clusters.ListUsedServicePorts | src/cluster/config.ts:572-591 | collects exactly the ports of all other services |
| Clusters.ValidateClusterConfig | src/cluster/config.ts:608-622 | accepts iff coordinator and leader are members and no hostname occurs twice |
| Clusters.Cluster.FromJson | src/cluster/config.ts:170-177 | loads iff all schemas and cross checks pass, with the trimmed texts that the schemas return and sorted nodes |
| Clusters.Cluster.Save | src/cluster/config.ts:439-452 | stamps the update time and enqueues a setup run unless the files cannot be written |
| Clusters.Cluster.SetLeaderNode | src/cluster/config.ts:252-260 | installs a member as leader, changes nothing for a stranger, and saves only on a change; when the save throws, the leader has changed without a setup run; nothing else changes |
| Clusters.Cluster.SelectJoiningNode | src/cluster/config.ts:266-288 | refuses a known hostname, key or address; takes the lowest free id |
| Clusters.Cluster.CompleteJoin | src/cluster/config.ts:291-296 | adds exactly the selected node to the configuration as it is then, in the order of the ids, also when the save or the interface setup behind it throws |
| Clusters.Cluster.KickNode | src/cluster/config.ts:299-313 | drops exactly that node, never the coordinator; a kicked leader hands over to the coordinator, any other leader stays |
| Clusters.Cluster.SetWebService | src/cluster/config.ts:315-333 | stores a service with the given settings under its id and touches no other, or refuses it and changes nothing; enqueues one setup run iff it stored and saved, and throws with the service stored when the save fails |
| Clusters.Cluster.SetPatroniService | src/cluster/config.ts:335-352 | the same for Patroni services, with four allocations on one set |
| Clusters.Cluster.SetService | src/cluster/config.ts:364-374 | refuses what the schema does not accept and a change of type; else the entry under the service's own id is the service, and no other entry changes |
| Clusters.Cluster.RemoveService | src/cluster/config.ts:354-362 | removes exactly that service, or throws and changes nothing when there is none; without a save it throws with the service removed |
| ClusterStates.LoadsIfAccepted | src/models/config.ts:10-73 | the schemas and cross checks of loading as one condition on the trimmed texts, members and ports |
| ClusterStates.LoadedMeans | src/cluster/config.ts:170-177 | what is loaded, field by field: the same entries with trimmed texts, the nodes in order of their ids |
| ClusterStates.JoiningMeans | src/cluster/config.ts:266-288 | a join is refused for a known hostname, address or key, for lack of ids or by the schema, in this order; else the node has the given fields and the least free id |
| ClusterStates.KickedMeans | src/cluster/config.ts:299-313 | a kick is refused for a stranger and the coordinator; else exactly this node goes, its leadership goes to the coordinator, any other leader stays |
| ClusterStates.SelectedIsNew | src/cluster/config.ts:266-288 | the node selected for a join is new in every respect and takes the least free id |
| ClusterStates.JoinFailsOnlyWhenFull | src/cluster/config.ts:275-286 | a join fails for lack of space iff all 255 ids are taken |
| ClusterStates.KickedKeepsInvariant | src/cluster/config.ts:299-313 | kicking keeps the configuration valid and drops exactly one node |
| ClusterStates.WithNodeKeepsInvariant | src/cluster/config.ts:291-296 | adding a node keeps the configuration valid iff the node is new in every respect |
| ClusterStates.TwoJoinsKeepInvariant | src/cluster/config.ts:288-296 | completing two joins keeps it valid iff both nodes are new and they differ in id, hostname, key and address |
| ClusterStates.InvariantIsAccepted | src/cluster/config.ts:170-177 | whatever keeps the invariant passes every check of a receiving node |
| ClusterStates.LoadedUnchanged | src/cluster/config.ts:170-177 | and is loaded unchanged: trimming texts and sorting nodes have no effect on it |
| ClusterStates.RegistryIsAccepted | src/models/config.ts:55-73 | a valid registry passes the services schema, which returns it unchanged |
| Membership.ReachableInvariant | src/cluster/config.ts:252-374 | over every interleaving since creation: nodes, leader, coordinator, ports and registered etcd peers stay valid |
| Membership.ReachableCapacity | src/cluster/config.ts:315-352 | the exact capacities 1024 and 50536 in every reachable state |
| Membership.ReachableRedeploy | src/cluster/config.ts:315-352 | re-deploying in any reachable state moves no port and touches no other service |
| Membership.ReachableDeployWeb | src/cluster/config.ts:315-333 | in every reachable state a web deployment is accepted iff id, type and settings are valid and a port is left; then exactly this entry is new or replaced, with the given settings, trimmed, and the lowest free port or the one it had |
| Membership.ReachableDeployPatroni | src/cluster/config.ts:335-352 | the same for Patroni deployments and their four ports |
| Membership.ReachableChanges | src/cluster/config.ts:252-362 | removals, leader changes and kicks: when they are refused and nothing changes, and what exactly changes else |
| Membership.ReachableJoin | src/cluster/config.ts:266-296 | when a join is taken up, with which node, and that its completion adds exactly this node |
| Membership.JoinSucceeds | src/cluster/config.ts:266-296 | an undisturbed join goes through: the node is added and the peers of all nodes are registered |
| Membership.FailureEndsJoin | src/cluster/serviceDeployment.ts:225-240 | an etcd command that fails ends the join and changes nothing |
| Membership.BackgroundRegisters | src/cluster/serviceDeployment.ts:356-361 | a peer registered beside the joins stays registered over every run |
| Membership.MembersAreRegistered | src/cluster/etcdConfigFiles.ts:20-22 | in every reachable state etcd knows the peer URL of every node |
| Membership.IdentityIsKept | src/cluster/config.ts:150-168 | over every run the cluster keeps its id, access key, version, creation time and coordinator |
| Membership.CompleteJoinKeeps | src/cluster/config.ts:288-296 | a join completed after any number of other steps keeps the invariant |
| Membership.RegisterKeeps | src/cluster/serviceDeployment.ts:225-240 | registering peers one by one, with failures, keeps the invariant and what a join relies on |
| Membership.OverlappingJoinsCollide | src/cluster/config.ts:275-292 | two joins selected on the same nodes share an id, also when one node asks twice, and completing both breaks the invariant |
| Membership.KickSeparatesJoins | src/cluster/config.ts:275-309 | when a kick in between frees a lower id, the second join takes it or a lower one, and both can be completed iff the nodes do not clash |
| Membership.CollisionIsReachable | src/cluster/config.ts:150-168 | a concrete reachable state with two joins that collide |
| ComposeQueues.SerialFifo | src/cluster/serviceDeployment.ts:300-353 | over every interleaving: at most one running command per directory, starts in order of enqueueing, an entry iff a command is not cleaned up |
| ComposeQueues.QuiescentMeansAllRan | src/cluster/serviceDeployment.ts:318-352 | when nothing is left to do, every command has started exactly once, in order, and the map is empty |
| ComposeQueues.SomeStepEnabled | src/cluster/serviceDeployment.ts:325-342 | while a command is left, some command can start, settle or be cleaned up, whatever failed before |
| ComposeQueues.StepUsesOne | src/cluster/serviceDeployment.ts:325-352 | every step but enqueueing uses up one of finitely many, so nothing starts twice |
| ComposeQueues.ComposeStateIsOldest | src/cluster/serviceDeployment.ts:287-291 | `getComposeState` names the oldest command that is not cleaned up, or nothing |
| ComposeQueues.EveryCommandIsKept | src/cluster/serviceDeployment.ts:318-333 | over every interleaving the commands are those that were enqueued, each once, in order, with directory and arguments |
| ComposeQueues.StartsAfterPredecessor | src/cluster/serviceDeployment.ts:325 | a command can start as soon as those before it in its directory are over, failed or not |
| ComposeQueues.OutcomeIsKept | src/cluster/serviceDeployment.ts:335-337 | how a command ended stays what its caller learns |
| ComposeQueues.ComposeRunner.RunComposeCommand | src/cluster/serviceDeployment.ts:318-333 | chains the command to the entry of its directory or to a new one |
| ComposeQueues.ComposeRunner.FinishCommand | src/cluster/serviceDeployment.ts:338-352 | drops the command from the present entry, and the entry once it is empty |
| ServiceDirs.ServiceDirectory.WriteServiceConfigs | src/cluster/serviceDeployment.ts:171-197 | writes iff the hash differs; afterwards the directory holds the files iff it was not torn |
| ServiceDirs.TornWriteIsHidden | src/cluster/serviceDeployment.ts:183-194 | a concrete write that throws midway and that going back to the former files does not repair |
| Reconciliation.ReconcilesToPlan | src/cluster/serviceDeployment.ts:33-59 | from any state of a node, a setup run and a health pass leave exactly etcd, HAProxy iff coordinator, and the configured services up; a directory holds the generated files iff it was not torn |
| Reconciliation.SetupRunLeaves | src/cluster/serviceDeployment.ts:33-162 | what a setup run alone leaves, from any state: where the hash matched, the directory as it was; where it differed, the generated files and a container that exists and runs them, HAProxy reloaded if it was running; elsewhere no container |
| Reconciliation.UpAfterSetupRun | src/cluster/serviceDeployment.ts:33-162 | when a wanted container is up after a setup run alone |
| Reconciliation.HealthPassLeaves | src/cluster/healthManager.ts:30-112 | what a health pass alone leaves: a wanted container that is up as it is, any other one created from the files of its directory |
| Reconciliation.FailedSetupLeaves | src/cluster/serviceDeployment.ts:120-126 | what setting up a directory can leave when it throws, before, while or after writing; nothing changes where the hash matches |
| Reconciliation.FreshUnlessStaleUnnoticed | src/cluster/healthManager.ts:30-112 | a container runs the files of its directory afterwards iff it was not stale unnoticed and is not merely reloaded for a new compose file |
| Reconciliation.HaproxyFreshness | src/cluster/serviceDeployment.ts:105-111 | the same for HAProxy alone; a reload for a new compose file leaves the container stale unnoticed |
| Reconciliation.ReloadKeepsOldComposeFile | src/cluster/serviceDeployment.ts:105-111 | a concrete release that changes HAProxy's compose file, and a container that keeps the old one in any number of rounds |
| Reconciliation.StaleIsNeverRepaired | src/cluster/serviceDeployment.ts:171-197 | a container that is stale unnoticed stays so over any number of further rounds |
| Reconciliation.FailedUpIsNeverRepeated | src/cluster/serviceDeployment.ts:125 | a concrete service whose `up` fails and that keeps its old container in any number of rounds |
| Reconciliation.FailedUpLeavesStale | src/cluster/serviceDeployment.ts:125 | a command that fails after the files were written leaves a container that was in order stale unnoticed, iff it leaves that container running and the files differ from those before |
| Reconciliation.ReAddedServiceIsHealed | src/cluster/healthManager.ts:81-90 | a re-added service with identical files gets no `up` from the setup run, but from the health pass |
| Reconciliation.ReconciledAt | src/cluster/serviceDeployment.ts:154-162 | the outcome for a directory depends on that directory only |
| Reconciliation.ReconcileKeepsInvariant | src/cluster/serviceDeployment.ts:171-197 | the files that hash files describe exist, and containers come from compose files |
| Reconciliation.NodeServices.SetupServices | src/cluster/serviceDeployment.ts:41-50 | the loop of a setup run computes the specified state of all directories |
| Reconciliation.NodeServices.SetupHaproxyAt | src/cluster/serviceDeployment.ts:93-112 | `down` off the coordinator; on it, after a change, a running HAProxy is made to read its configuration again and stays the container it is, any other is recreated |
| Reconciliation.NodeServices.StopRemovedServices | src/cluster/serviceDeployment.ts:154-162 | stops exactly the directories that belong to no configured or static service |
| Reconciliation.NodeServices.CheckNodeHealth | src/cluster/healthManager.ts:30-58 | repairs every desired directory with an issue |
| Reconciliation.NodeServices.Reconcile | src/cluster/healthManager.ts:66-112 | the two passes one after the other leave up exactly what is desired |
| SetupQueues.RunsAreSerial | src/cluster/serviceDeployment.ts:56-58 | setup runs never overlap and start in order of enqueueing, each once |
| SetupQueues.DrainedQueueIsSetupRun | src/cluster/serviceDeployment.ts:33-59 | a drained queue whose last run saw the final configuration leaves what one undisturbed run of it makes of the state in which the last run was started |
| SetupQueues.DrainedQueueConverges | src/cluster/config.ts:439-452 | then the files of the final configuration are on disk, directory by directory, iff the last run did not start on a torn one |
| SetupQueues.DrainedQueueContainers | src/cluster/serviceDeployment.ts:33-59 | a drained queue without any health pass: no unwanted container exists, and exactly when each wanted one is up |
| SetupQueues.ChangeTakesEffect | src/cluster/config.ts:439-459 | the changed configuration is in force at once, and exactly a saved change chains one run for it |
| SetupQueues.PlanOfMeans | src/cluster/serviceDeployment.ts:41-50 | wanted are etcd, HAProxy on the coordinator and the services of the configuration, each with its own generated files |
| SetupQueues.FailedStopLeaves | src/cluster/serviceDeployment.ts:154-162 | where stopping removed services fails, each of their containers is gone, stopped or as it was, and nothing else changes |
| SetupQueues.FailedHaproxyStopLeaves | src/cluster/serviceDeployment.ts:97-100 | the same where a node that is not the coordinator fails to bring HAProxy down |
| SetupQueues.WholeWritesConverge | src/cluster/serviceDeployment.ts:171-197 | in a history without torn writes they always are |
| SetupQueues.DrainedQueueReconciles | src/cluster/healthManager.ts:30-58 | a health pass after a drained queue leaves exactly the containers of the final configuration up, each running its files iff it was not stale |
| SetupQueues.SavedChangesAreSeen | src/cluster/config.ts:439-459 | when every change could be saved, the last run is for the object in force and no change comes after its start |
| SetupQueues.UnsavedChangeWaits | src/cluster/config.ts:439-452 | after a change that could not be saved, nothing happens on a drained node until the next change |
| SetupQueues.QuiescentMeansAllSetUp | src/cluster/serviceDeployment.ts:56-58 | when nothing but configuration changes is possible, every enqueued run has started, in order, and is over |
| SetupQueues.SomeRunEnabled | src/cluster/serviceDeployment.ts:56-58 | while a run is not over, some run can start or go on, whatever failed before |
| SetupQueues.StepBringsCloser | src/cluster/serviceDeployment.ts:34-54 | every step of a run brings it closer to its end |
| SetupQueues.FailedStepLeavesStale | src/cluster/serviceDeployment.ts:120-126 | a run whose `up` fails leaves a container that was in order stale unnoticed, iff the container keeps running and the files differ |
| SetupQueues.AdvanceKeeps | src/cluster/serviceDeployment.ts:34-54 | a run that goes on, or throws at any point, also between or inside two file writes, keeps what later runs rely on |
| SetupQueues.WellFormedIdsUsable | src/models/config.ts:5-8 | no well-formed service id is the name of a static service directory |
| SetupQueues.SetupQueue.ApplyConfig | src/cluster/config.ts:454-459 | a replaced configuration object enqueues a run for the new object, unless it cannot be saved |
| SetupQueues.SetupQueue.ContinueRun | src/cluster/serviceDeployment.ts:41-50 | a run reads the present content of its object at each step and ends when it throws, with whatever it has written by then |
| HealthPasses.UndisturbedPass | src/cluster/healthManager.ts:30-58 | a pass of single checks and repairs that nothing interferes with is the health pass of the undisturbed node |
| HealthPasses.CheckMeans | src/cluster/healthManager.ts:81-112 | what a check notes: nothing without a compose file or with a command in the queue, a missing container also when the check fails, a container that is not up |
| HealthPasses.RepairMeans | src/cluster/healthManager.ts:66-73 | what a repair leaves, working or failing |
| HealthPasses.PassBeginsAndEnds | src/cluster/healthManager.ts:153-162 | a pass begins on the configuration in force, and only when none is under way; an aborted pass does nothing more |
| HealthPasses.PassesKeepTheRest | src/cluster/healthManager.ts:30-73 | over every interleaving, failures included, passes change containers only: runs, objects and files are those of the queue by itself |
| HealthPasses.OffStays | src/cluster/healthManager.ts:30-73 | a missing unwanted container that no pass under way will visit stays missing, whatever later checks and repairs meet |
| HealthPasses.UnwantedComesUp | src/cluster/healthManager.ts:30-73 | while everything works, an unwanted container comes up iff it was up or the pass under way will visit it |
| HealthPasses.HealthManager.CheckNext | src/cluster/healthManager.ts:81-112 | checks the directory where the pass stands and notes the issue or moves on |
| HealthPasses.HealthManager.RepairNext | src/cluster/healthManager.ts:66-73 | repairs the noted directory as far as the command gets, and moves on |
| PassHistories.FilesConverge | src/cluster/healthManager.ts:153-162 | with passes at any time, too, the final files are on disk iff the last run did not start on a torn directory |
| PassHistories.AfterStop | src/cluster/serviceDeployment.ts:154-162 | the last run leaves no unwanted container, none comes back unless a pass had still to visit it, and then it is up in the end if everything works |
| PassHistories.WantedAreUp | src/cluster/healthManager.ts:30-58 | once a pass that began on the drained node is over, every wanted container is up |
| PassHistories.PassesReconcile | src/cluster/healthManager.ts:153-162 | where everything works, wanted containers are up in the end, and they are the only ones iff no pass under way at the stop of the last run had still to visit an unwanted directory |
| PassHistories.LatePassRevives | src/cluster/healthManager.ts:49-57 | a pass that had listed a removed service brings its container up behind the stop of the run |
| PatroniBalancing.CandidateExists | src/cluster/leaderManager.ts:136-144 | with consistent reports, a node above the optimal count implies another one below it |
| PatroniBalancing.BalanceMeans | src/cluster/leaderManager.ts:124-163 | the first node above the optimal count and the first other one below it are paired; the first health check of the former's services that is not unhealthy decides, and the round ends with that promotion, accepted or not, or with a throw |
| PatroniBalancing.NothingToBalance | src/cluster/leaderManager.ts:124-144 | without reports, Patroni services or such a pair nothing is requested |
| PatroniBalancing.SuccessfulRound | src/cluster/leaderManager.ts:136-159 | a successful round promotes a node below the optimal count for a service of a node above it |
| PatroniBalancing.RoundLowersExcess | src/cluster/leaderManager.ts:136-159 | such a round lowers the total excess by exactly one |
| PatroniBalancing.RoundActs | src/cluster/leaderManager.ts:124-163 | with consistent reports and favourable outcomes, a round acts iff some node is above its share |
| PatroniBalancing.BalancingTerminates | src/cluster/leaderManager.ts:124-163 | successful rounds count down the excess; at zero every node is within its share and no round acts |
| PatroniBalancing.HandlePatroniBalancing | src/cluster/leaderManager.ts:124-163 | the loop makes exactly the specified requests, in order, with every early exit |
| RebootDrain.DrainGreedyBound | src/cluster/leaderManager.ts:197-219 | no candidate ends above both the initial maximum and the rounded-up average; a receiver is at most one above any other |
| RebootDrain.DrainPicks | src/cluster/leaderManager.ts:197-219 | every promotion of a drain goes to the candidate that at that moment has the fewest leaderships, among those the lowest load, and among those is listed first, until one is refused or there is no candidate |
| RebootDrain.DrainConserves | src/cluster/leaderManager.ts:197-219 | a drain moves a prefix of the services and conserves leaderships, also when a promotion fails midway |
| RebootDrain.RebootOnlyAfterDrain | src/cluster/leaderManager.ts:101-117 | at most one reboot request per round, the last one, never to the leader, to the coordinator only idle at 3 AM, after all its services were healthy and handed over, and only if balancing did nothing |
| RebootDrain.RebootsMeans | src/cluster/leaderManager.ts:170-224 | all requests of a reboot round: the checks up to the first one that is not healthy, the drain, and the request for the first node that may go down |
| RebootDrain.RoundReboots | src/cluster/leaderManager.ts:101-117 | a reboot is requested: when balancing is idle, checks and promotions succeed and another node can take the services, the round ends with the request to the first node that may go down |
| RebootDrain.CandidatesInOrder | src/cluster/leaderManager.ts:187 | the candidates are the other nodes without a required restart, in the order of the reports |
| RebootDrain.Best | src/cluster/leaderManager.ts:202-208 | the chosen candidate has the fewest leaderships, among those the lowest load, and among those is listed first |
| RebootDrain.DrainTarget | src/cluster/leaderManager.ts:197-219 | the loop on report objects, which gain what is promoted to them, drains as specified |
| RebootDrain.SelectCandidates | src/cluster/leaderManager.ts:187 | keeps the report objects of the other nodes that need no restart, in order |
| RebootDrain.CheckTargetHealth | src/cluster/leaderManager.ts:190-194 | stops at the first service that is not healthy |
| RebootDrain.HandleRequiredReboots | src/cluster/leaderManager.ts:170-224 | makes exactly the specified requests |
| RebootDrain.CheckCluster | src/cluster/leaderManager.ts:101-117 | only the leader acts; reboots are tried only when balancing did nothing |
| RebootDrain.WaitUntilRebootSafe | src/app/httpServer.ts:38-45 | a reboot is refused iff both checks find the node leading a Patroni service |
| ElectionOrder.ComparatorTotal | src/cluster/leaderElection.ts:195-220 | distinct nodes never tie, and exactly one of two beats the other |
| ElectionOrder.ComparatorTransitive | src/cluster/leaderElection.ts:195-220 | the comparator is transitive in spite of its leader tie-break |
| ElectionOrder.ElectsTheOptimum | src/cluster/leaderElection.ts:184-224 | the elected node is the unique one that is preferred to all others that answered, whatever the order of answers: by lower load, then by fewer answers that call it offline, then as the present leader, then by smaller id |
| ElectionOrder.WinnerStays | src/cluster/leaderElection.ts:214-216 | an installed winner wins again with the same answers |
| ElectionOrder.RebootingNodeLoses | src/cluster/leaderElection.ts:122-132 | a node that needs a reboot never wins against one that reports a load below the reboot value |
| ElectionOrder.ElectionSettles | src/cluster/leaderElection.ts:94-116 | installs the optimum if it is still a member, changes nothing if it was kicked, and electing again changes nothing |
| ElectionOrder.CountOfflineVotes | src/cluster/leaderElection.ts:189-192 | counts for every answering node the nodes that consider it offline |
| ElectionOrder.FindOptimalLeader | src/cluster/leaderElection.ts:184-224 | returns the node that is preferred to all others, load, offline answers, present leader and id in this order |
| ElectionRate.StartsAreSpaced | src/cluster/leaderElection.ts:22-46 | over every trace one election at a time, starts 15 s apart, unforced ones 5 min after the start before |
| ElectionRate.StartRateBounded | src/cluster/leaderElection.ts:29-35 | any window of T ms has at most floor(T / 15000) + 1 starts |
| ElectionRate.AttemptStarts | src/cluster/leaderElection.ts:22-46 | after any trace, an attempt starts an election exactly on the coordinator, with none in flight, 15 s after the last start, or 5 min after it unless forced |
| ElectionRate.CompletionEnds | src/cluster/leaderElection.ts:38-44 | when the running election settles, every election that was started is over |
| ElectionRate.ElectionGate.AttemptLeaderElection | src/cluster/leaderElection.ts:22-46 | starts an election iff coordinator, none running and both cooldowns passed |
| Replication.FollowersHoldHistory | src/cluster/config.ts:454-494 | under any delay, loss, repetition and reordering, a follower holds a configuration the coordinator once held, with its invariants |
| Replication.CompletedPullAgrees | src/cluster/config.ts:513-563 | with the coordinator unchanged and nothing stale in flight, one completed pull gives lasting agreement |
| Replication.CompletedPushAgrees | src/cluster/config.ts:461-494 | the same for a push: a member that receives any push agrees, and the agreement lasts |
| Replication.PushDelivers | src/app/httpServer.ts:106-119 | a member that receives the coordinator's present configuration holds it, whatever else is in flight; a node without a configuration does not take a push |
| Replication.ChangeDelivers | src/cluster/config.ts:461-494 | a push that follows a change carries the changed configuration, and a member that receives it holds that one |
| Replication.PullDelivers | src/cluster/config.ts:513-563 | a pull that is answered at once gives agreement, by a configuration or by `up_to_date` |
| Replication.JoinDelivers | src/cli/join.ts:71-73 | joining gives a node without a configuration the coordinator's one |
| Replication.ResetStays | src/app/httpServer.ts:56-60 | pushes alone never bring back a node that was reset |
| Replication.StepFrame | src/cluster/config.ts:454-494 | a node is touched only by messages to it and its own reset, the coordinator only by a change |
| Replication.ReplyMeans | src/app/httpServer.ts:82-103 | over every run, `up_to_date` means that what the node held when it asked is what the coordinator held when it answered; any other answer carries the coordinator's configuration of that moment |
| Replication.Daemon.ApplyClusterConfig | src/cluster/config.ts:454-459 | replaces the configuration iff it loads, and throws iff it does not load or cannot be saved |
| Replication.Daemon.SetConfigEndpoint | src/app/httpServer.ts:106-119 | a member that gets a push that loads holds it afterwards, saved or not; 503 without a configuration, 204 if it was also saved, else 400 |
| Replication.Daemon.FinishCheck | src/cluster/config.ts:549-559 | installs the configuration of an answer, and nothing for `up_to_date` |
| Replication.Daemon.FinishJoin | src/cli/join.ts:71-73 | a joining node holds what it was answered iff it loads |
| Wireguard.SyncedWithCluster | src/cluster/config.ts:396-413 | after a successful synchronisation the peers are exactly the other nodes; new ones lead to their nodes, kept ones are untouched |
| Wireguard.TunnelsDiffer | src/cluster/config.ts:403-407 | tunnels to different nodes differ in endpoint and address |
| Wireguard.RetryCompletes | src/adapters/wireguard.ts:94-126 | a synchronisation that failed half way is completed by the next as if it had never started |
| Wireguard.OutdatedTunnelsStay | src/adapters/wireguard.ts:110-114 | the peers end up as requested iff every kept peer had the requested tunnel already |
| Wireguard.RejoinSucceeds | src/cluster/config.ts:266-313 | any member but the coordinator can be kicked and join again with its key from an unused address |
| Wireguard.RejoinedPeerKeepsOldEndpoint | src/adapters/wireguard.ts:110-114 | a follower that was away in between keeps the old endpoint of such a node, although both configurations are valid |
| Wireguard.OldEndpointIsReachable | src/adapters/wireguard.ts:110-114 | a concrete pair of valid configurations for which that happens |
| Wireguard.WireguardInterface.SyncPeers | src/adapters/wireguard.ts:94-126 | succeeds iff the peers can be read and every needed change works; says for each failure what has and has not changed |
| Wireguard.WireguardInterface.RemoveUnknown | src/adapters/wireguard.ts:110-121 | removes every unknown peer and leaves the missing ones to be added |
| Wireguard.WireguardInterface.SyncFromCluster | src/cluster/config.ts:396-413 | a node that is not in the configuration leaves the interface alone |
| Models.TrimBlank | src/models/config.ts:12-14 | a trimmed text is non-empty iff it has a character that is not white space |
| Models.TrimTrims | src/models/config.ts:5-14 | trimming gives a text without white space at its ends and changes no other |
| Models.TrimMeans | src/models/config.ts:5-14 | trimming takes away white space at both ends and nothing else |
| KeyOrders.SortedKeysInOrder | src/cluster/config.ts:262-264 | sorting lists every key once, in order |
| Haproxy.TextInjective | service_templates/haproxy/patroni.proxy.template:1-24 | no two frontend, backend or ACL names read alike, across all kinds and services |
| Haproxy.HaproxyIdInjective | src/utils/serviceConfig.ts:15-17 | replacing hyphens by underscores loses nothing on valid ids |
| Haproxy.HaproxyIdMeans | src/utils/serviceConfig.ts:15-17 | a name has underscores in place of the hyphens of its id and is the id else |
| Haproxy.FixedFrontends | service_templates/haproxy/haproxy.cfg.template:14-36 | the fixed frontends and the fallback of the file, with their ports |
| Haproxy.NamesDistinct | src/cluster/haproxyConfigFiles.ts:15-61 | all names of the file are distinct |
| Haproxy.BindsDistinct | service_templates/haproxy/haproxy.cfg.template:14-36 | all bound ports are distinct, 80, 8404 and 8081 included |
| Haproxy.ReachableFileConsistent | src/cluster/haproxyConfigFiles.ts:5-13 | in every reachable state: names and ports distinct, every reference resolves, every server list has every node once |
| Haproxy.PatroniTraffic | src/cluster/haproxyConfigFiles.ts:43-56 | the two proxy ports lead to the service's own Postgres port on every node, checked as primary and as readable |
| Haproxy.WebTraffic | src/cluster/haproxyConfigFiles.ts:21-40 | a host goes to the matching web service of the lowest id, at its own port on every node |
| Haproxy.UnknownHost | src/cluster/haproxyConfigFiles.ts:18-24 | a host that matches no domain meets no rule |
| Haproxy.ServersListNodesOnce | src/cluster/haproxyConfigFiles.ts:38-53 | one server per node, with distinct names and addresses |
| Decimals.DecimalMeans | src/cluster/haproxyConfigFiles.ts:38 | a printed number has digits only, no leading zero, and stands for the number |
| Haproxy.GenerateWebHostRules | src/cluster/haproxyConfigFiles.ts:15-27 | the loop writes the rules of the web services in order |
| Haproxy.GenerateServiceProxySections | src/cluster/haproxyConfigFiles.ts:29-61 | the loop writes the frontends and backends of all services in order |
| Templates.FillPlaces | src/utils/serviceConfig.ts:5-13 | replacing tag after tag puts every value into its place; only inside values later tags are replaced |
| Templates.FillUnchanged | src/utils/serviceConfig.ts:8-10 | a text that contains none of the tags stays as it is, whatever the values |
| Templates.GenerateTemplate | src/utils/serviceConfig.ts:5-13 | the loop replaces the tags in the order of the data |
| Environment.ParseRefuses | src/cli.ts:94-95 | an argument is refused iff no equals sign follows its first character |
| Environment.ParseAllBack | src/cli.ts:93-101 | KEY=VALUE arguments with any non-empty key are parsed back, at the first equals sign |
| Environment.LastWinsMeans | src/cli.ts:97-100 | the last value given for a key counts |
| Environment.PrintOfOne | src/cluster/webServiceConfigFiles.ts:16-20 | the block of a single variable, character by character |
| Environment.ScalarUnchanged | src/cluster/webServiceConfigFiles.ts:19 | a single-quoted scalar stands for its own content iff every character is a tab or comes from the space on |
| Environment.ReadOfPrint | src/cluster/webServiceConfigFiles.ts:16-20 | by the rules of YAML 1.2.2, reading the printed block gives every variable what its value stands for, and nothing when one value is ill-formed or one key is too long or no string |
| Environment.RoundTrip | src/cluster/webServiceConfigFiles.ts:16-20 | reading what was printed gives the environment iff every key is a string of at most 1024 characters and every character of every value is a tab or comes from the space on |
| Environment.KeyReadsUnlessWord | src/models/config.ts:34 | a key of the allowed form is such a string unless it is longer or a word for null or a boolean |
| Environment.NullKeyIsRefused | src/models/config.ts:34 | a concrete variable name that makes the block unreadable |
| Environment.LineBreakIsLost | src/cluster/webServiceConfigFiles.ts:19 | a concrete value of two lines that makes the block ill-formed |
| Environment.IndentedLineIsFolded | src/cluster/webServiceConfigFiles.ts:19 | a second line that is indented deeper than the entries is folded into the first one |
| Environment.ControlCharacterIsRefused | src/cluster/webServiceConfigFiles.ts:19 | a concrete value with a control character that makes the block ill-formed |
| Environment.CommandLineRoundTrip | src/cli.ts:93-101 | from arguments through the printed block back to the last values given, iff the keys are read and the values that won survive |
| WebServiceFiles.FileSurvives | src/cluster/webServiceConfigFiles.ts:4-14 | reading the generated file gives image, environment and port mapping back iff the image is a one-line plain scalar that reads as a string and contains no later tag, every key is read, and every value survives and contains no later tag |
| WebServiceFiles.DeployedFileSurvives | src/models/config.ts:29-38 | the same for every web service of a valid registry |
| WebServiceFiles.EnvironmentSurvives | src/cluster/webServiceConfigFiles.ts:16-20 | the same for the environment part of the file by itself |
| WebServiceFiles.ImagesLost | src/models/config.ts:32 | concrete images that the schema accepts and that do not come back |
| WebServiceFiles.TagInValueIsReplaced | src/utils/serviceConfig.ts:8-10 | a concrete value that is changed by the file generation |
| WebServiceFiles.FileLayout | service_templates/web/docker-compose.yml.template:1-7 | image, environment, address and ports stand in their places; address and ports arrive as they are |
| WebServiceFiles.FileText | service_templates/web/docker-compose.yml.template:1-7 | the text of the generated file, part by part, for an image without a later tag |

## Left out

- Processes, HTTP, IPC, TLS, timers and the file system beyond service directories: oracle steps with success or failure.
- Keys, certificates, passwords, ids and clocks: parameters. SHA-256 is an injective abstraction of what is hashed.
- Command handlers, the daemon, logs, status output and scripts: plumbing.
- Equal configurations need not hash equally, as field order takes part in the hash; only the other direction is claimed.
- Membership.ReachableInvariant: one join at a time, texts trimmed as the command handlers pass them, a host name and generated texts without white space at their ends, and node 1 as the coordinator, as in a created cluster.
- Schema-valid configurations from elsewhere as a starting state: loading checks neither ports nor ids for uniqueness.
- Avoidance of the daemon's own ports 8080, 8081, 8404 and 8443 by the allocator: the code reserves none of them.
- Agreement between nodes on who leads, and followers that never step back: stale messages make both false.
- Removal of etcd members and of leftover service directories: the code does neither.
- Ping counting, and the health decision inside `getPatroniHealth`: parameters of the cluster check.
- Commands that skip the compose queue, and commands that hang.
- Reconciliation.ReconcilesToPlan: all commands succeed, a signal reaches a running HAProxy, the queue is idle and the configuration does not change meanwhile; one container stands for all containers of a service.
- SetupQueues.DrainedQueueReconciles: the health pass follows the drained queue; with passes beside the runs, PassHistories.PassesReconcile says which containers are up, not which files they run.
- PassHistories.PassesReconcile: a command takes effect in one step, and containers do not stop or fall sick on their own.
- SetupQueues.DrainedQueueIsSetupRun: the last run is for the object in force and no change came after its start.
- PatroniBalancing.BalancingTerminates: the reports between the rounds are consistent; leaderships that move on their own are not modelled.
- RebootDrain.RebootOnlyAfterDrain: a reboot target is not the leader in the configuration as the round read it; later changes during the round are not tracked.
- ElectionOrder.ElectsTheOptimum: at least one node answered, as the coordinator always answers for itself.
- ElectionRate.StartsAreSpaced: the clock does not go back within one attempt.
- Wireguard.WireguardInterface.SyncPeers: a failure to configure the interface counts as a failure to read it; the kernel moving an allowed address from one peer to another is not modelled.
- KeyOrders.SortedKeysInOrder: a fixed total order stands for locale-specific sorting; JavaScript prototype keys are ordinary keys.
- Haproxy.ReachableFileConsistent: the file as lists of rules, frontends and backends, not the text of the templates; domains are taken as given.
- WebServiceFiles.FileSurvives: the file as YAML reads it, with the core schema; Compose's own substitution of `$` is not modelled.
- Patroni and etcd file contents: files given as parameters to the deployment part.
