# dns-operator-azure in Dafny

A model of the operator that creates the Azure DNS zones, records and delegations of Cluster API
workload clusters, with proofs about whole sequences of its runs. `dafny verify dfyconfig.toml`
checks everything.

The operator is a reconciler: every run reads remote state and writes what is missing, any call may
fail, with or without having taken effect, and a run may stop between any two calls. The model has
two layers.

* **Step machines.** `PublicRun`, `PrivateRun` and `Finalizer` describe a run as a program counter
  that makes one remote call per step. The environment picks how a call ends (`Done`, `Failed`,
  `FailedAfterEffect`), the order of listings and the name servers of new zones. Histories are
  arbitrary sequences of starts, calls, crashes and writes by others; theorems are about every
  state of every history.
* **The code.** `PublicService`, `PrivateService` and `Reconciler` are classes whose methods follow
  the Go functions, with the same loops, early returns and in-place updates, over clients driven by
  an oracle. Each method's contract says that it takes exactly the steps of the machine, so what is
  proved of machine histories holds of every execution. Contracts of the outermost methods also say
  what the objects are afterwards.

| file | content |
|---|---|
| AzureModel, DesiredRecords | Azure state and the effects of calls; the desired record sets |
| RecordDiff | the diff between desired sets and a listing |
| PublicRun, Clusters | the public run; many clusters at once |
| Delegation, Isolation, Convergence, Completion, Work, Conflicts | theorems about public histories |
| Hostnames, Serving | names and addresses from annotated services, unready services, AKS clusters; what a converged zone answers |
| PublicService | the public service and its client |
| Finalizer, Fleet, Reconciler | the finalizer protocol; all clusters under it at once; the controller and the common patcher |
| PrivateRun, PrivateCompletion, PrivateService | the private run with its theorems; when it succeeds; the private service |
| ResourceTags, Conditions, Credentials | tags from annotations, status conditions, Azure IDs |

Modelling decisions:

* A failed call is answered as an error whether or not it took effect; its effect happens before it
  returns. Reads are fresh, and a cluster has one run at a time.
* Azure may answer a successful listing in any order; a zone keeps its name servers for life and a
  re-created zone may get others; deleting a group deletes the zones in it; deleting an absent
  record set or link succeeds; deleting a private zone that has links is refused.
* Azure's refusal of a CNAME next to other sets of the same name is not built in. The environment
  may refuse any call, so it is covered as a failure.
* A resource group is identified by subscription and name, and a cluster stays in its subscription.
  Nil and empty tag maps are the same.
* Where clusters are compared with each other (`Isolation`, and what is lifted with it), nobody else
  writes, a cluster keeps its kind, and neither the base zone's group nor the group a run asks for a
  location is one that runs of a cluster (for the location, of another cluster) create and delete.
  Groups of AzureClusters, such as the management cluster's, are allowed: the operator never writes them.
  `Isolation.NamesakeInterferes` and `Isolation.LocationGroupInterferes` show that both conditions
  are needed. Delegation safety and the finalizer theorems do not need them.
* Cluster objects, service lists, API server addresses, times and the results of Kubernetes lookups
  are inputs.

Where the code differs from what its comments or its documentation say, the model follows the code:

* The test whether the NS set exists compares addresses of strings (azure/services/dns/dns.go:153),
  so it never succeeds and the NS set is written in every run. `PublicService.DnsService.EnsureDelegation`
  models the comparison with object identity.
* The private listing returns A sets only while the CNAME diff reads it, so the wildcard CNAME is
  written in every private run (`PrivateRun.WildcardAlwaysMissing`).
* Readiness of the load balancer is presence of the condition, not its status
  (`Reconciler.IsClusterReady`).
* The finalizer is registered "immediately to avoid orphaning Azure resources", but for kinds other
  than AzureASOManagedCluster that the common patcher serves it is never persisted
  (`Finalizer.OtherKindsNeverRegister`). Such a cluster is safe from being orphaned exactly if its
  object already carries the finalizer, or nothing exists yet and no run can find a location for its
  group (`Finalizer.OtherKindsNeverOrphanedIff`). For AzureASOManagedCluster no interleaving orphans
  anything.
* Runs have no fixed point for desired A sets of the same name but different addresses. While the A
  set is the first listed set of its name, successful runs alternate for ever; a run that is shown a
  set of another type first writes all of them and the last one stays. What a successful run leaves
  of a record is safe from every later run, whatever the listings, exactly if the desired sets for it
  agree (`Conflicts.StableIff`). Run by run: after a first run the next one changes the record exactly
  if the desired sets disagree and, should another type lead now, none led in the run before and that
  run had found the last desired value (`Conflicts.RunsAlternateIff`).
* Without a subscription an AzureASOManagedCluster gets the management cluster's client ID but
  authenticates with its own identity (`Credentials.CredentialsAgreeIff`, `CredentialsCanDisagree`).

## Model

| member | source | states |
|---|---|---|
| Delegation.NoDanglingDelegation | azure/services/dns/dns.go:88-213 | in every state of every schedule of reconcile and delete runs of any clusters, cut anywhere, with calls that fail with or without effect and respectful other writers, an NS set of a cluster implies its zone exists and lists exactly that zone's name servers with TTL 3600 |
| Delegation.StepKeepsDelegation | azure/services/dns/dns.go:123-175 | each call of the cluster's own run keeps the delegation right, using only what the run read before |
| Delegation.OthersUntouched | azure/services/dns/nsrecords.go:14-52 | a call for one cluster leaves another cluster's NS set and name servers alone, or removes its NS set with the base zone |
| Delegation.GroupDeletionIsSafeIffNotDelegated | azure/services/dns/dns.go:198-212 | dropping a cluster's group keeps the delegation right exactly if its NS set is already gone, which is why the NS set is deleted first |
| Delegation.DeletionIsComplete | azure/services/dns/dns.go:191-216 | a delete run of any kind of cluster, wherever it stops, touches nothing but the cluster's NS set and, unless it is an AzureCluster, its group with the zones in it; if it succeeds they are gone |
| Delegation.DeletionSucceedsIff | azure/services/dns/dns.go:191-216 | a delete run succeeds exactly if the base zone exists and both calls, for an AzureCluster the first, are answered |
| Isolation.InterleavingIsSerial | main.go:216 | any step interleaving of runs of different clusters ends in exactly the state, of Azure and of all runs, of the schedule that plays the clusters one after the other; under the conditions on the base zone's group and on location groups stated above |
| Isolation.SchedulesCommute | main.go:216 | two schedules with the same actions per cluster end in the same state, under the same conditions |
| Isolation.AsIfAlone | azure/services/dns/dns.go:71-189 | a cluster's run, group, zones and NS set are what its own actions alone would have given, under the same conditions |
| Isolation.StepStaysInside | azure/scope/dns.go:110-116 | a call that does not delete the base zone's group changes nothing of another cluster's group, zones (but for the base zone) and NS set |
| Isolation.NamesakeInterferes | azure/services/dns/resourcegroup.go:85-97 | a cluster, not an AzureCluster, named like the base zone's group does change the others, by deleting it |
| Isolation.LocationGroupInterferes | azure/services/dns/resourcegroup.go:27-42 | a run that reads its location from a group another cluster's runs manage does depend on that cluster: deleting the group turns its write of the new group into a failure |
| Isolation.StepKeepsOutside | azure/services/dns/dns.go:88-185 | a call changes nothing that belongs to no cluster, nor the group of an AzureCluster |
| Isolation.StepIsLocal | azure/services/dns/dns.go:136-175 | next call and effect depend only on the cluster's own part and on what no run writes, the management cluster's location included; the shared base listing never influences a write |
| Clusters.RunIsHistory | azure/services/dns/dns.go:71-189 | the steps of one run are a history of the concurrent system |
| Convergence.SuccessMeansConverged | azure/services/dns/dns.go:107-185 | among any other clusters' runs and without foreign writers, whatever interrupted runs came before, after a successful run the group has its location and the union of initial and desired tags, the zone holds its starting sets overlaid with the desired ones, and the delegation is right |
| Convergence.AloneConverges | azure/services/dns/dns.go:71-189 | the same for one cluster, with what holds in every prefix |
| Convergence.ConvergedStatesAgree | azure/services/dns/dns.go:71-189 | any two histories that end in success leave the same zone, NS set and group, up to the name servers of a new zone |
| Convergence.OthersRecordsUntouched | azure/services/dns/arecords.go:45-149 | in every prefix of one cluster's runs a record set that is not desired is as it was |
| Work.OthersRecordsUntouchedAmongOthers | azure/services/dns/arecords.go:45-149 | the same among any other clusters' runs |
| Convergence.StateStaysOnTheWay | azure/services/dns/arecords.go:64-93 | every call keeps the zone heading for the same contents, and the tags between initial and merged |
| Convergence.RunMakesProgress | azure/services/dns/dns.go:88-185 | every call keeps what the rest of the run relies on: tags done, unscheduled sets present, delegation written |
| Work.SuccessfulRunConverges | azure/services/dns/dns.go:71-189 | one successful run converges from any start |
| Completion.AnsweredRunConverges | azure/services/dns/dns.go:71-189 | with the base zone there and a location known, a run whose calls are all answered truly succeeds within eight calls and one per desired set, and has converged |
| Completion.AnsweredStep | azure/services/dns/dns.go:88-185 | every answered call finds what it needs and leaves fewer calls to make |
| Completion.RunSucceedsIff | azure/services/dns/dns.go:71-189 | a reconcile run that has ended has succeeded exactly if its desired sets could be determined, the base zone existed, the group existed or its location was known, and every call it made was answered |
| Completion.ReconcileRunsEnd | azure/services/dns/dns.go:71-189 | eight calls and one per desired set are enough for every reconcile run to end, whatever they answer |
| Completion.AnswersExist | azure/services/dns/client.go:174-190 | from every point of every run such answers exist, so the claim is not empty |
| Work.ConvergedZoneServes | azure/services/dns/cnamerecords.go:95-108 | a converged zone has the wildcard CNAME to ingress or the annotated target with TTL 300, and api and apiserver with the control plane address unless the cluster is AKS |
| Work.TotalWorkIsBounded | azure/services/dns/arecords.go:64-133 | among any other clusters' runs, with distinct names and no other-type set listed before a desired one, successful A-set writes of any sequence of runs plus what is still wrong are at most what was wrong at the start, and exactly that if failed calls have no effect |
| Work.StepIsFrugal | azure/services/dns/arecords.go:64-93 | each A-set write that takes effect lowers the number of wrong sets by exactly one, no other call changes it |
| Work.SettledStateStays | azure/services/dns/dns.go:71-189 | no run, complete or cut short, changes a settled state |
| Work.SettledRunWrites | azure/services/dns/dns.go:150-185 | over a settled state the mutating calls of a successful run are, for every listing, the unchanged NS set and then exactly the desired sets whose name another type leads; a run cut short makes a prefix of them |
| Work.ConvergedIsSettled | azure/services/dns/resourcegroup.go:61-83 | a converged state is settled if all initial tag keys are desired keys |
| Work.GroupWritesStopIff | azure/services/dns/resourcegroup.go:61-83 | later runs leave the group alone exactly if every initial tag key is a desired key |
| Conflicts.SuccessfulRunValue | azure/services/dns/arecords.go:98-149 | for every listing, a successful run gives an A or CNAME set the last desired value if another type leads its name, else the last desired value that differs from the old one, else keeps it; also for a zone created in the run |
| Conflicts.StableIff | azure/services/dns/arecords.go:106-133 | what a successful run leaves of an A or CNAME set is left alone by every successful run that may follow, whatever it is answered, exactly if the desired sets for it agree |
| Conflicts.AgreedRecordsStay | azure/services/dns/arecords.go:98-149 | without a conflict no later successful run of any sequence changes what the first one left |
| Conflicts.RunsAlternateIff | azure/services/dns/arecords.go:213-229 | after a first successful run the next one changes a record exactly if its desired sets disagree and, if another type leads now, none led in the run before and that run had found the last desired value |
| Conflicts.RunsHavePeriodTwo | azure/services/dns/arecords.go:106-133 | while its own type leads, a record that a run has left has after two more runs the value it had |
| RecordDiff.Lookup | azure/services/dns/arecords.go:110 | the first listed set of the name, no earlier one having it, or that no set has it |
| RecordDiff.MissingIsFilter | azure/services/dns/arecords.go:104-148 | scheduled are exactly the desired sets that need a write |
| RecordDiff.NeedsWriteMeaning | azure/services/dns/arecords.go:110-133 | a set is scheduled exactly if the first listed set of its name is not the desired one, type included |
| RecordDiff.NameOnlyLookupIsSound | azure/services/dns/cnamerecords.go:76-88 | for listings of mixed types in any order an unscheduled set exists with right type, payload and TTL, and a right set is scheduled exactly if another type comes first |
| RecordDiff.PassReachesGoal | azure/services/dns/arecords.go:45-149 | if desired sets agree, one pass gives the zone all of them and changes nothing else |
| RecordDiff.PassAt | azure/services/dns/arecords.go:98-149 | what a run makes of every record, for every listing |
| RecordDiff.FixedPointIff | azure/services/dns/arecords.go:106-133 | some value of a record survives a run exactly if the desired sets for it agree, or another type leads its name |
| RecordDiff.NextRunChangesIff | azure/services/dns/arecords.go:106-133 | after a run, the next one changes the value exactly if the desired sets disagree and, if another type leads now, none led in that run and it had found the last desired value |
| RecordDiff.SettlesIff | azure/services/dns/arecords.go:106-133 | the value a run leaves survives every later listing exactly if the desired sets agree |
| RecordDiff.PeriodTwo | azure/services/dns/arecords.go:106-133 | while the own type leads, the value any run has left comes back after two runs |
| RecordDiff.OnlyNotLeadingMissing | azure/services/dns/arecords.go:106-133 | in a zone that has all desired sets exactly those are scheduled whose name another type leads |
| RecordDiff.WriteRepairsOne | azure/services/dns/arecords.go:77-86 | writing a wrong desired set repairs exactly one disagreement |
| RecordDiff.StaleSnapshotIsSafe | azure/services/dns/dns.go:177-185 | A and CNAME writes computed from the listing at the start of the run are those of fresh listings before each step, unless a fresh listing puts another type first |
| RecordDiff.EmptySnapshotIsSafe | azure/services/dns/dns.go:108-121 | the same for the empty snapshot of a zone created in the run, for any order |
| DesiredRecords.DesiredShape | azure/services/dns/arecords.go:151-232 | every desired A set has one address and TTL 300 |
| Hostnames.TrimRoundTrip | azure/services/dns/arecords.go:300 | trimming and re-appending the zone gives the hostname back exactly for in-zone hostnames |
| Hostnames.OutOfZoneCollides | azure/services/dns/arecords.go:345 | every out-of-zone hostname has an in-zone one with the same record name |
| Hostnames.EligibleMeaning | azure/services/dns/arecords.go:330-343 | the gateway services that count are exactly the selected ones with a non-empty first address |
| Hostnames.EligibleSplit | azure/services/dns/arecords.go:328-356 | they keep their order |
| Hostnames.GatewayOneToOne | azure/services/dns/arecords.go:316-359 | gateway records match eligible services one to one in order, each with the trimmed hostname, the first address of the service and TTL 300; an unready service is only skipped |
| Hostnames.FirstIngressDecides | azure/services/dns/arecords.go:285-311 | the first managed ingress LoadBalancer with a hostname gives the record of its trimmed hostname, first address and TTL 300, or the error if it has no IP |
| Hostnames.IngressCases | azure/services/dns/arecords.go:285-314 | the error comes exactly if the first selected service has no address, and no record exactly if no service is selected |
| Hostnames.DesiredFailsIff | azure/services/dns/arecords.go:151-232 | the desired A sets cannot be determined exactly if the cluster is not AKS and its address is missing, or it is of another kind and a service lookup failed or the first ingress service is unready |
| Hostnames.UnreadyIngressBlocksAllRecords | azure/services/dns/arecords.go:50-53 | with such an unready service no run of a cluster that is neither AzureCluster nor AKS writes any A or CNAME set, or succeeds |
| Hostnames.AksRunsWriteNoASets | azure/services/dns/arecords.go:153-160 | runs of an AzureASOManagedCluster put nothing but the wildcard CNAME into the zone |
| Hostnames.DesiredKeys | azure/services/dns/arecords.go:162-232 | the desired list is api, apiserver, then the trimmed hostnames of the ingress and gateway services in order |
| Hostnames.DistinctIffHostsDistinct | azure/services/dns/arecords.go:151-232 | for in-zone hostnames the desired names are distinct exactly if the hostnames differ pairwise and none is the api or apiserver name |
| Serving.ConvergedZoneServesServices | azure/services/dns/arecords.go:213-229 | a converged zone answers every gateway service that counts and the first selected ingress service with the first IP of the service and TTL 300 |
| Serving.ConvergedZoneKeepsTheRest | azure/services/dns/arecords.go:151-232 | every other record is as it was at the start: only "*", api, apiserver and trimmed hostnames of selected services can differ, by kind |
| Serving.DesiredByKind | azure/services/dns/arecords.go:151-232 | AKS desires no A sets, an AzureCluster api and apiserver, other kinds these and the services' |
| PublicService.AzureClient.GetResourceGroup | azure/services/dns/client.go:222-235 | the group, not found, or an error, as the environment decides; nothing changes |
| PublicService.AzureClient.CreateOrUpdateResourceGroup | azure/services/dns/client.go:237-247 | the group is written unless the call failed without effect |
| PublicService.AzureClient.DeleteResourceGroup | azure/services/dns/client.go:249-270 | group and zones go together; an absent group is reported as not found |
| PublicService.AzureClient.GetZone | azure/services/dns/client.go:119-132 | the zone, or an error |
| PublicService.AzureClient.CreateOrUpdateZone | azure/services/dns/client.go:134-147 | a new zone gets name servers and apex sets, an existing one stays |
| PublicService.AzureClient.ListRecordSets | azure/services/dns/client.go:174-190 | all record sets of the zone of every type in any order, or the missing parent |
| PublicService.AzureClient.ListBaseRecordSets | azure/services/dns/client.go:174-190 | the base zone's sets as freshly allocated objects |
| PublicService.AzureClient.CreateOrUpdateRecordSet | azure/services/dns/client.go:192-205 | the set is written unless the call failed without effect or the zone is missing |
| PublicService.AzureClient.DeleteRecordSet | azure/services/dns/client.go:207-220 | the set is gone unless the call failed without effect |
| PublicService.ResourceGroupTagsEqual | azure/services/dns/resourcegroup.go:99-112 | exactly map equality |
| PublicService.MergeResourceTags | azure/services/dns/resourcegroup.go:114-126 | the right-biased union |
| PublicService.ClusterNsRecordExists | azure/services/dns/dns.go:150-158 | true exactly if some listed name is the very object of the cluster's name and has name servers |
| PublicService.IsSelected | azure/services/dns/arecords.go:286-295 | selected exactly if the service is managed, has a hostname, and is of type LoadBalancer |
| PublicService.GetIngressARecord | azure/services/dns/arecords.go:268-314 | the record of the first selected service, its absence if none is selected, the error if that one has no address |
| PublicService.GetGatewayARecords | azure/services/dns/arecords.go:316-359 | one record per eligible service in order, with its first address |
| PublicService.IndexOfName | azure/services/dns/arecords.go:110 | index of the first set of that name, or -1 |
| PublicService.DnsService.UpdateClusterResourceGroup | azure/services/dns/resourcegroup.go:61-83 | exactly the machine's steps: no call if the tags are equal, else one write of the merged tags |
| PublicService.DnsService.CreateClusterResourceGroup | azure/services/dns/resourcegroup.go:12-59 | exactly the machine's steps of the group phase, including the management cluster's location |
| PublicService.DnsService.GetDesiredARecords | azure/services/dns/arecords.go:151-232 | the desired list, or the error |
| PublicService.DnsService.CompareASet | azure/services/dns/arecords.go:110-133 | whether the set needs a write; of the listing only a provisioning state is erased |
| PublicService.DnsService.CalculateMissingARecords | azure/services/dns/arecords.go:98-149 | the missing A sets, in order; the listing is otherwise unchanged for the CNAME diff |
| PublicService.DnsService.CalculateMissingCnameRecords | azure/services/dns/cnamerecords.go:66-93 | the missing CNAME sets |
| PublicService.DnsService.UpdateARecords | azure/services/dns/arecords.go:45-96 | exactly the machine's A writes, stopping at the first failure |
| PublicService.DnsService.UpdateCnameRecords | azure/services/dns/cnamerecords.go:19-64 | exactly the machine's CNAME writes |
| PublicService.DnsService.ListOrCreateZone | azure/services/dns/dns.go:107-121 | exactly the machine's listing and zone creation |
| PublicService.DnsService.EnsureZone | azure/services/dns/dns.go:107-128 | exactly the machine's steps from the listing to the name servers |
| PublicService.DnsService.EnsureDelegation | azure/services/dns/dns.go:136-175 | the listing is read, the address test fails, the NS set is written |
| PublicService.DnsService.Reconcile | azure/services/dns/dns.go:71-189 | exactly the calls of a reconcile run of the machine, with its result |
| PublicService.DnsService.ReconcileDelete | azure/services/dns/dns.go:191-216 | exactly the calls of a delete run, with its result |
| Finalizer.ResourcesAreAlwaysGuarded | controllers/cluster_controller.go:120-150 | for an AzureASOManagedCluster, in every state of every interleaving of runs, ambiguous failures, crashes, other writers and deletion requests, an NS set or group implies the persisted object with the finalizer |
| Finalizer.MoveKeepsGuard | controllers/cluster_controller.go:298-306 | every single move keeps that, and keeps that a local copy lacks the finalizer only while there are no resources |
| Finalizer.DeleteStep | controllers/cluster_controller.go:298-306 | a delete run creates nothing and succeeds only when NS set and group are gone |
| Finalizer.UpdateMeaning | pkg/infracluster/common_patcher.go:72 | an update persists the finalizers and nothing else, exactly if the copy is not stale and adds no finalizer to a deleted object |
| Finalizer.StatusUpdateMeaning | pkg/infracluster/common_patcher.go:68 | a status update persists the conditions and nothing else, exactly if the copy is not stale |
| Finalizer.OtherClustersPlayFair | main.go:216 | calls for other clusters, of any kind and name, are moves the theorem allows |
| Finalizer.DeletionCompletesIff | controllers/cluster_controller.go:298-306 | from any state in which the object is being deleted and guarded, one answered run takes the finalizer away exactly if the base zone exists; then no resources are left, and the object is gone unless it has other finalizers |
| Fleet.NothingIsEverOrphaned | main.go:216 | with clusters of every kind under the protocol at once, sharing one Azure, at every moment every AzureASOManagedCluster with resources has its object with the finalizer |
| Fleet.FleetIsHistory | controllers/cluster_controller.go:120-150 | the runs at the public DNS service of such a fleet are exactly a history of the concurrent system: registration starts a run, leaving cuts it |
| Fleet.FleetNeverDangles | controllers/cluster_controller.go:76-133 | no delegation dangles at any moment of the whole protocol for all clusters |
| Finalizer.OtherKindsKeepFinalizers | pkg/infracluster/common_patcher.go:60-73 | for other kinds no move of the operator changes the finalizers on the server |
| Finalizer.OtherKindsNeverRegister | controllers/cluster_controller.go:143-150 | so no sequence of the operator's moves ever registers or removes the finalizer |
| Finalizer.OtherKindsNeverOrphanedIff | pkg/infracluster/common_patcher.go:60-73 | for other kinds no fair play of runs, other writers and deletion requests orphans anything exactly if the stored object already carries the finalizer, or nothing exists and no run can find a location for the group |
| Finalizer.OrphaningRun | controllers/cluster_controller.go:143-150 | the counter-run: from an object without finalizers a run whose calls are all answered creates the group, and a deletion request removes the object at once |
| Finalizer.Undermined | pkg/infracluster/common_patcher.go:60-73 | fair writers reach such an object from every unguarded one, whatever finalizers of others it carries |
| Reconciler.ApiServer.Update | pkg/infracluster/common_patcher.go:72 | metadata is persisted and answered, stale versions are rejected |
| Reconciler.ApiServer.StatusUpdate | pkg/infracluster/common_patcher.go:68 | status only is persisted, and the answer replaces the local copy |
| Reconciler.CommonPatcher.PatchObject | pkg/infracluster/common_patcher.go:60-73 | it succeeds exactly if its calls are answered and the copy is not stale; for AzureASOManagedCluster it persists the local finalizers, for other kinds the local conditions while the server's finalizers stay; the calls are the protocol's |
| Reconciler.CommonPatcher.Close | pkg/infracluster/common_patcher.go:95-97 | patches once more, with the same effect, and ends the run |
| Reconciler.IsClusterReady | controllers/cluster_controller.go:495-522 | phase Provisioned and, for AzureCluster, presence of LoadBalancersReady whatever its status |
| Reconciler.ClusterReconciler.RegisterFinalizer | controllers/cluster_controller.go:143-150 | a play of the protocol's registration; no call if the finalizer is there; a success leaves an AzureASOManagedCluster's object with it on the server |
| Reconciler.ClusterReconciler.PublishReady | controllers/cluster_controller.go:213-233 | a play of the status condition and the last patch; a success leaves the ready condition "True" on the server for every kind but AzureASOManagedCluster |
| Reconciler.ClusterReconciler.ReconcileNormal | controllers/cluster_controller.go:135-237 | a play from the fetched object to the deferred Close; the DNS service makes one complete run if the cluster is ready with credentials and registered, and none otherwise; success means it succeeded and was published |
| Reconciler.ClusterReconciler.ReconcileDelete | controllers/cluster_controller.go:239-316 | a complete delete run if there are credentials; the finalizer is removed locally exactly after its success |
| Reconciler.ClusterReconciler.Reconcile | controllers/cluster_controller.go:76-133 | if the API server answers, a ready cluster's reconciliation succeeds exactly if the DNS run does (base zone, location, desired sets, answered calls), and has then converged and published; a deletion succeeds exactly if its delete run does, and then the resources and an AzureASOManagedCluster's finalizer are gone; always a play of the operator's own moves, so guarded resources of an AzureASOManagedCluster stay guarded |
| PrivateRun.PrivateHistories | azure/services/privatedns/privatedns.go:39-155 | any number of reconcile and delete runs cut anywhere keep at most one link per network and the links to other networks (a delete run takes the operator-named one), have the operator's link, by name if no link ID is the client ID, past the link step, and leave no zone after a successful delete run |
| PrivateRun.PrivateSuccessMeansConverged | azure/services/privatedns/privatedns.go:39-135 | after a successful reconcile run the zone holds the desired sets over those it started from, or over those of a new zone if delete runs could drop the old one |
| PrivateRun.StepKeeps | azure/services/privatedns/privatedns.go:69-110 | every call keeps the link and record invariants |
| PrivateRun.StepProgresses | azure/services/privatedns/privatedns.go:55-132 | every call keeps what the rest of the run relies on |
| PrivateRun.CutReplacementIsRepaired | azure/services/privatedns/privatedns.go:82-110 | after a cut between deleting the old link and creating the new one, the next run creates it, and it is the only link to the network |
| PrivateRun.PrivateZoneServes | azure/services/privatedns/arecords.go:122-169 | a zone that holds the desired sets answers apiserver, ingress and the wildcard with TTL 300 |
| PrivateRun.PrivateGoalKeys | azure/services/privatedns/arecords.go:122-169 | no other names are desired, and each A set only if it has an address |
| PrivateCompletion.PrivateRunSucceedsIff | azure/services/privatedns/privatedns.go:39-135 | from any zone and from none a reconcile run that has ended has succeeded exactly if its calls were answered; then the zone exists with the operator's link, one to the target network if there was none before, and with the desired sets over those it had or a new zone's |
| PrivateCompletion.ReconcileRunsEnd | azure/services/privatedns/privatedns.go:39-135 | six calls and one per desired set are enough for every run to end |
| PrivateCompletion.AnswersExist | azure/services/privatedns/client.go:108-124 | such answers exist from every point of every run |
| PrivateCompletion.PrivateDeletionSucceedsIff | azure/services/privatedns/privatedns.go:137-155 | a delete run succeeds exactly if both calls are answered and the zone has no link but the operator's; then the zone is gone |
| PrivateRun.WildcardAlwaysMissing | azure/services/privatedns/client.go:108-124 | the A-only listing schedules the wildcard CNAME in every run |
| PrivateRun.SettledRunWritesWildcardOnly | azure/services/privatedns/cnamerecords.go:67-94 | once settled a run changes nothing, and its only mutating call, needed for success, is the wildcard CNAME |
| PrivateRun.DeletionIsOrdered | azure/services/privatedns/privatedns.go:137-155 | a delete run, wherever it stops, takes at most the operator's link from a zone that stays, drops the zone only if it has no other link, and succeeds only without the zone |
| PrivateRun.EndpointIpIsLast | azure/scope/privatedns.go:136-150 | the last endpoint of the name that has an address counts |
| PrivateRun.ApiServerIpMeaning | azure/scope/privatedns.go:115-150 | the annotation takes precedence; else the last endpoint named after the cluster that has an address, over all subnets, counts, and if there is none there is no address |
| PrivateService.PrivateLinkedApiServerIp | azure/scope/privatedns.go:115-150 | the annotation's IP, else the first address of the last endpoint named after the cluster that has one, else nothing |
| PrivateService.MissingRecords | azure/services/privatedns/arecords.go:78-120 | the loop computes the missing sets |
| PrivateService.OwnLinkIndex | azure/services/privatedns/privatedns.go:76-80 | -1 exactly if no link has the operator's name or the client ID |
| PrivateService.VnetLinkIndex | azure/services/privatedns/privatedns.go:84-86 | the first link to the target network, or -1 if there is none |
| PrivateService.PrivateDnsService.GetDesiredPrivateARecords | azure/services/privatedns/arecords.go:122-169 | the desired private A sets |
| PrivateService.PrivateDnsService.ReplaceLink | azure/services/privatedns/privatedns.go:82-110 | exactly the machine's delete and create of the link |
| PrivateService.PrivateDnsService.EnsureLink | azure/services/privatedns/privatedns.go:69-110 | exactly the machine's link steps |
| PrivateService.PrivateDnsService.EnsureZone | azure/services/privatedns/privatedns.go:55-67 | exactly the machine's listing and zone creation |
| PrivateService.PrivateDnsService.FinishZone | azure/services/privatedns/privatedns.go:112-134 | a failed zone lookup aborts, else the record writes follow |
| PrivateService.PrivateDnsService.Reconcile | azure/services/privatedns/privatedns.go:39-135 | exactly the calls of a run of the machine, touching this zone only; success exactly if they are answered, and then the zone has its link and desired sets |
| PrivateService.PrivateDnsService.ReconcileDelete | azure/services/privatedns/privatedns.go:137-155 | exactly the calls of a delete run, touching this zone only; success exactly if both are answered and there is no other link |
| ResourceTags.GetResourceTags | pkg/infracluster/annotation.go:9-28 | the tags are the prefixed annotations with the prefix removed, all of them and no others |
| ResourceTags.ReprefixedTagsAreTheAnnotations | pkg/infracluster/annotation.go:14-20 | putting the prefix back gives exactly the prefixed annotations, and no other tag map does |
| Conditions.SetCapiCondition | pkg/infracluster/scope.go:536-582 | the loop computes the upsert, or the error of an entry that is not a map |
| Conditions.UpsertIsLocal | pkg/infracluster/scope.go:557-570 | other types keep position and content, unique types stay unique, the condition is there afterwards with the given time or the current one |
| Conditions.Upsert | pkg/infracluster/scope.go:557-570 | length grows by one exactly if the type was absent |
| Conditions.UpsertTwice | pkg/infracluster/scope.go:557-570 | a second application changes at most time stamps |
| Credentials.ResolveIds | pkg/infracluster/scope.go:240-289 | the code's assignments never give a mixture of own and management IDs, as stated for `NeverAMixture` |
| Credentials.NeverAMixture | pkg/infracluster/scope.go:240-281 | all three IDs are the cluster's own (annotated or configured subscription, annotated identity or configured IDs) if none of those is empty, and otherwise all three are the management cluster's; an error exactly if the annotated identity's lookup fails, or the management cluster's identity is needed and cannot be had |
| Credentials.AuthenticatesAs | pkg/infracluster/scope.go:151-175 | the identity a run authenticates with is the annotated one; only if none is named the configured reference's, or the management cluster's if that lookup fails |
| Credentials.CredentialsAgreeIff | pkg/infracluster/scope.go:151-175 | for an AKS cluster with an existing annotated identity the patcher's IDs are those of the identity used exactly if a subscription is given or the management identity has the same IDs |
| Credentials.CredentialsCanDisagree | pkg/infracluster/scope.go:266-280 | a setup in which they differ |

## Left out

- Azure SDK clients, credentials, pagers and pollers: I/O; only the effects and the three endings of a call are kept.
- Finalizer persistence for AzureCluster: its patcher is library code of another project (in `Fleet` an AzureCluster takes part with its Azure calls, and nothing is claimed about its object); `Reconciler.ClusterReconciler` is for kinds the common patcher serves, and the private DNS branches of the controller, which need an AzureCluster, are modelled as the private service alone.
- A missing client secret for private DNS (controllers/cluster_controller.go:384-387): yields a nil service that is then used, which panics; it needs an AzureCluster. For the kinds modelled a panic anywhere is the protocol's `Leave` move, because the deferred Close still runs.
- Paused clusters and failures to build a scope: such a reconciliation returns before any call that matters here.
- NS sets of clusters whose group is deleted by its provider: not covered by `Delegation.NoDanglingDelegation`, see `Delegation.GroupDeletionIsSafeIffNotDelegated`.
- Clean-up of a private zone after its annotation is removed: the delete branch depends on the annotation.
- Stale Kubernetes reads, delayed effects of failed Azure calls, and concurrent runs of one cluster.
- The cache of the management cluster and its identity in a scope: lookups are taken as stable within a run.
- `apimeta.SetStatusCondition` and the conversion of unstructured objects: library code; conversion of a map entry is taken as the identity.
- IP parsing and the public IP service: the API server address is an input that may be missing.
- Metrics, logging, events, requeue times, flags, and deployment files.
