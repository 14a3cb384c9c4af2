# The Tunnel reconciler of inlets-operator, verified

inlets-operator gives a Kubernetes Service of type LoadBalancer a public address: it creates a Tunnel object for
the Service, provisions a cloud host, polls it, publishes the host's address on the Service and runs a client
Deployment that connects to the host. All of this is done by two workers and a delete handler that act
concurrently, on caches that lag behind, through calls that may fail, may fail after taking effect, and may be
repeated. This project models that reconciler (`controller.go`), call by call, and proves what holds over whole runs.

## How the model is built

- `Resources`, `Ports`, `ExternalIPs`: the objects, and the controller's functions that only compute a value.
- `Cluster` (module `Clusters`): API server, informer caches and cloud provider as one value; one function per
  call. A call succeeds, is refused, or is lost: it takes effect but its caller sees an error. Status and Service
  writes are compare-and-swap on resourceVersion. `versions`, `edits` and the `place` of a host only record history.
- `Sync`: `syncHandler` and `DeleteFunc` as threads that make one call per step (`Step`), and `Run`, a thread run to
  its end with nobody in between.
- `Machine`: any number of workers, the delete handler, the informers (a cache may show any version ever stored of
  each object, in any order) and all other users, interleaved call by call.
- `Invariant`, `StatusWrites`, `Stability`, `ClusterSteps`, `Preservation`, `Frames`: the inductive invariant and
  the proof that every action keeps it.
- `Lifecycle`: the atomic lifecycle machine, and the proof that the concurrent machine refines it.
- `Guarantees`: the theorems about every state of every run. `Hosts` (module `TunnelHosts`): how many hosts a Tunnel
  gets. `Publication`: who can still publish an address, for ever after. `Races`: what DeleteFunc does to the list,
  and the race that leaves an address behind.
- `Controller` (module `Controllers`): the same functions as methods in their original, imperative form, each proved
  to do exactly what `Run` does. `Solo`: such a run is a path of the machine.
- `SyncRun` (module `SyncRuns`), `Outcome` and `ClientOutcome` (modules `Outcomes`, `ClientOutcomes`): what one
  undisturbed sync changes and reports, for every combination of failing calls, numbered from 0. `Reports`: when a sync
  reports an error, and what it never does without what it needs.
- `Convergence`, `Exposure`, `Fixpoint` (module `Fixpoints`), `TokenLoss`, `SecondHost` (module `SecondHosts`),
  `ServiceSync`: what syncs do when nobody interferes, with the exact conditions under which they fail.
- `Mounts`: the secrets that the clients mount exist.
- `Witness` (module `Witnesses`): runs from an initial state in which properties that one might expect fail.
- `WorkQueue` (module `WorkQueues`), `WorkLoop`: the queue's contract and the worker loop, as a machine and as methods
  that call the real syncHandler.
- `DeepCopy` (module `DeepCopies`): the generated copy functions on the heap.

## What the code does that one might not expect

- At most one host per Tunnel is false: `RefusedWriteRun` (the status write is refused) and `StaleCacheRun` (no call
  fails, the cache lags) end with two hosts for one Tunnel. At most one is ever recorded (`OneRecordedHost`), and
  Provision makes another one exactly when a version of the Tunnel has left the empty HostStatus or an earlier attempt
  came to nothing (`SecondHostExactly`, `OneHostExactly`). `HostLedger` and `OrphansExactly` say where every host is
  and which five actions lose one.
- That deleting a Tunnel takes its address off the Service is false: `LeftBehindRun` shows a run,
  `DeleteFuncWithdrawsExactly` the exits of DeleteFunc that never withdraw, and `PublishedLaterExactly` says that after
  the deletion the address can still be published exactly if some worker can publish it now. The same theorem says
  when a publication that was missed is missed for good.
- An auth secret named `inlets-license` is overwritten by the license copy: `TokenLostRun` loses a token that way.
  Agreement of host and secret survives a sync exactly if no copy is made over the secret or the copy brings the
  host's token (`AgreementSurvivesExactly`). Every other auth secret is never changed.
- A failing read of the auth secret is taken for its existence. A sync leaves a reference to no secret exactly if there
  was none, that read failed and the write took effect (`StrandsExactly`); such a Tunnel is stuck (`StrandedStays`).
- A Tunnel whose client name is taken never gets a client: the failed `Create` is only logged, and an empty reference is
  written, again at every sync (`NameTakenStays`). Its own client blocks it in the same way exactly if a `Create` that
  took effect stays without a stored reference (`ClientBlocksExactly`).
- Errors while a Service is synced are swallowed (`ServiceConvergesExactly` says what is then left). In the sync of a
  Tunnel four failures are not reported, and so not retried: the read of the auth secret, the read of a license copy
  that is not there, the Create of the client and its Update (`SecretOutcome`, `UnconnectedOutcome`, `ConnectedOutcome`).
- The field `updateServiceIP` of a Tunnel's spec is written but never read; the owner references decide whether the
  Service is updated.

## Model

| member | source | states |
|---|---|---|
| Preservation.ActionKeeps | controller.go:344-464 | every call of every thread, every delete event and every change by others keeps the invariant, whatever the interleaving, staleness and failures |
| Preservation.RunKeeps | controller.go:252-279 | so the invariant holds in every state of every run |
| Preservation.ExactMatches | controller.go:1143-1145 | a write that passes the compare-and-swap from a snapshot overwrites that very snapshot |
| StatusWrites.SuccessorIsSound | controller.go:561-570 | each of the five kinds of status write keeps the fields consistent and the incarnation monotone |
| Lifecycle.StepRefines | controller.go:381-460 | each action of the concurrent machine is one enabled event of the atomic lifecycle no-secret, secret, provisioned, activated, connected, or a stutter, and which one is a function of the action |
| Lifecycle.RunRefines | controller.go:381-460 | every run of the concurrent machine, abstracted state by state, is a run of the atomic one from the empty world |
| Lifecycle.LifeDetermines | pkg/apis/inletsoperator/v1alpha1/types.go:69-90 | the atomic life forgets only `generated`, a nameless client reference and the resourceVersion |
| Guarantees.HostLedger | controller.go:133-169 | in every state of every run the hosts ever provisioned split disjointly into recorded, to be deleted, in flight, deleted and orphaned |
| Guarantees.OrphansExactly | controller.go:426-438 | the orphans after an action are those before it plus exactly the host that this action loses |
| Guarantees.OrphansGrowOnlyByLoss | controller.go:133-169 | along a run orphans are never forgotten and grow only by a lost reply of Provision, a provisioning write without effect, a tombstone, a provisioner that cannot be built or a failed Delete |
| Guarantees.HostIdentity | controller.go:426-438 | no two stored Tunnels ever record the same host |
| Guarantees.HostIdForOneIncarnation | controller.go:433-438 | a host id names one incarnation for ever, across deletions and re-creations |
| Guarantees.IncarnationsOnlyEvolve | controller.go:1131-1148 | between any two moments of a run an incarnation's HostStatus does not go back, and HostID, HostIP, secret name, named client and spec, once set, do not change |
| Guarantees.StoredFieldsAgree | controller.go:386-397 | the fields of every stored Tunnel agree with its HostStatus: ids and addresses are set exactly from the status that sets them, and a secret is named before a host exists |
| Guarantees.CacheCoherence | controller.go:679-688 | every cached Tunnel is the version whose resourceVersion it bears, except that an active one without a named client may show a reference written through the lister's pointer |
| Guarantees.StaleReadsNeverLeak | controller.go:679-688 | a write that replaces a version changes only the fields that call means to change, however stale or altered the cache was |
| TunnelHosts.RunKeepsKeys | controller.go:289-304 | in every state of every run no two workers are busy with the same key, each works on the Tunnel its key names, and the delete handler never provisions |
| TunnelHosts.OneRecordedHost | controller.go:426-438 | of all hosts ever provisioned for an incarnation at most one was ever recorded |
| TunnelHosts.SecondHostExactly | controller.go:426-438 | a Provision adds a host to a Tunnel that has one exactly when a version of the Tunnel has left the empty HostStatus or an earlier attempt was wasted |
| TunnelHosts.OneHostExactly | controller.go:426-438 | a Tunnel has at most one host exactly as long as Provision was not called in that situation |
| TunnelHosts.HasHostWhileStored | controller.go:381-397 | while the Tunnel is stored that situation can be read off its HostStatus |
| SecondHosts.RefusedThenAgain | controller.go:426-438 | a refused provisioning write and then a working sync leave one orphaned and one recorded host of one Tunnel |
| SecondHosts.StaleThenAgain | controller.go:366-438 | so does, without any failing call, a second sync that reads the cache before it shows the first one's write |
| Witnesses.RefusedWriteRun | controller.go:426-438 | a run from an initial state that ends so after a refused write |
| Witnesses.StaleCacheRun | controller.go:366-438 | a run from an initial state that ends so without a failing call |
| Guarantees.TokenAgreement | controller.go:746-752 | the recorded host of a Tunnel was provisioned with the token that the Tunnel's secret holds now |
| Guarantees.AuthSecretsFixed | controller.go:518-558 | a secret other than the license copy, once there, is the same for the rest of the run |
| Guarantees.SecretsChangeExactly | controller.go:475-488 | a secret changes exactly when the license copy overwrites it, and to what |
| Guarantees.TokenLostExactly | controller.go:475-488 | a token changes exactly when the license data written over its secret brings another one |
| TokenLoss.SecretsAfterSync | controller.go:466-504 | the data of every secret after a working sync: the license where a copy is made over it, unchanged otherwise |
| TokenLoss.TokenAfterSync | controller.go:475-488 | a Tunnel whose secret is called like the license copy has its old token after a sync if the copy is current, and the license data's token if not |
| TokenLoss.AgreementSurvivesExactly | controller.go:475-488 | whatever its secret is called, host and secret still agree after a working sync exactly if no copy is made over the secret or the license data brings the host's token |
| Witnesses.TokenLostRun | controller.go:475-488 | a run from an initial state in which host and secret agree and, after one more sync, no longer do |
| Guarantees.PublishedAtMostOnce | controller.go:935-943 | over any run a Tunnel incarnation appends an address to a Service at most once |
| Guarantees.PublishedIsRecorded | controller.go:1064-1076 | what was published for a stored Tunnel is its recorded address, on the Service of the name it refers to in its own namespace, and only if one of its owners is a Service |
| Guarantees.ExternalIPsAreTheFold | controller.go:1078-1099 | a Service's list is the fold of all edits ever made to it: no append or withdrawal is lost or applied twice |
| Guarantees.IngressMirrorsList | controller.go:1101-1114 | an ingress write that takes effect makes the ingress the list as it stands |
| Guarantees.ClientAgreement | controller.go:948-1041 | every Deployment made for a stored Tunnel connects to its recorded non-empty address, with its secret, forwards to the Service it refers to, and has a ports annotation equal to its ports argument |
| Mounts.MountedSecretsExist | controller.go:449-459 | in every state of every run both secrets that a client mounts, its token and the license, are in its namespace |
| Guarantees.RewriteHitsWhatWasRead | controller.go:701-736 | a client rewrite targets the Deployment just read |
| Guarantees.RewritesExactly | controller.go:721-722 | an operator-made client is rewritten exactly when the Service's port list is another one |
| ExternalIPs.WithoutRemovesAll | controller.go:1081-1088 | withdrawing removes all occurrences of the address and nothing else |
| ExternalIPs.WithoutCommutes | controller.go:1081-1088 | withdrawals of two addresses commute, as lists |
| ExternalIPs.PublishThenWithdraw | controller.go:1078-1091 | publishing an absent address and withdrawing it again, with any edits of other addresses in between, leaves what those edits alone would have left, in the same order |
| ExternalIPs.OnListExactly | controller.go:1078-1091 | an address is on the list exactly if an edit added it and no later edit took it off |
| Races.UpdateServiceCompletes | controller.go:1064-1114 | an undisturbed updateService makes one edit to the list, mirrors it into the ingress and touches nothing else |
| Publication.ActionKeepsClosed | controller.go:920-946 | once an incarnation is active or gone and no worker can publish its address, no action of anybody publishes it or makes a worker able to |
| Publication.ClosedForGood | controller.go:920-946 | so in every continuation |
| Publication.AblePublishes | controller.go:1064-1099 | a worker that can publish, at whatever stage, does so in some continuation |
| Publication.PublishedLaterExactly | controller.go:920-946 | an active or deleted incarnation is published in some continuation exactly if some worker has yet to read its Service, or read it as it still is |
| Races.DeleteFuncWithdrawsExactly | controller.go:145-167 | DeleteFunc, run undisturbed, takes the address off the list of the Service that the Tunnel refers to in its namespace exactly if none of its six earlier exits is taken, and makes no other edit; the host is gone exactly if the provisioner is there and its Delete works, and lost for ever otherwise |
| Races.DeliveryStartsExactly | controller.go:133-144 | a delete event starts these calls exactly if it brings the Tunnel and a HostID, and is gone either way |
| Races.ActivationIsAboutToPublish | controller.go:935-940 | a successful activation leaves the worker about to publish, with the Tunnel stored |
| Races.DeletionOvertakesPublication | controller.go:133-169 | from every such state the machine can delete Tunnel and host and still end with the address on the Service |
| Witnesses.LeftBehindRun | controller.go:133-169 | a run from an initial state that does so |
| Ports.GetPortsString | controller.go:1218-1229 | the loop computes the printed list |
| Ports.PortsStringIsJoined | controller.go:1228 | exactly the last comma is trimmed |
| Ports.PortsRoundTrip | controller.go:1218-1229 | splitting and parsing the printed list gives back the port list, for every list |
| Ports.PortsStringInjective | controller.go:721-722 | comparing printed lists is comparing port lists |
| Ports.FormatIsCanonical | controller.go:1225 | no number is printed with leading zeros, and a minus sign stands exactly before negative ones |
| Controllers.Controller.SyncHandler | controller.go:344-464 | as a method: leaves the cluster, error and unused answers that `Run` leaves from the work item |
| Controllers.Controller.CreateTunnelResource | controller.go:578-646 | likewise; never fails |
| Controllers.Controller.CreateTunnelAuthTokenSecret | controller.go:518-576 | likewise: only "not found" leads to a new secret, the reference is written in every other case |
| Controllers.Controller.ProvisionExitServer | controller.go:399-438 | likewise, for the case of a Tunnel with a secret and no host; a missing Service reference is an error |
| Controllers.Controller.ProvisionAndRecord | controller.go:426-438 | its end: provision, then record |
| Controllers.Controller.GetSecretValue | controller.go:872-891 | likewise; a missing secret and an empty token are errors |
| Controllers.Controller.SyncProvisioningHostStatus | controller.go:920-946 | likewise; with a missing Service reference the write of the active status is an error |
| Controllers.Controller.UpdateTunnelProvisioningStatus | controller.go:1131-1148 | one status write that sets status, id and address; none without a Service reference |
| Controllers.Controller.FilterAddress | controller.go:1081-1088 | the loop keeps every other address, in order |
| Controllers.Controller.UpdateService | controller.go:1064-1117 | likewise; the loops compute the edited list and its mirror |
| Controllers.Controller.SyncTunnelLicense | controller.go:466-504 | likewise, up to the start of the client calls |
| Controllers.Controller.CreateClientDeployment | controller.go:648-699 | likewise; the reference is written through the cached pointer, and is empty after a failed Create |
| Controllers.Controller.UpdateClientDeploymentRef | controller.go:701-742 | likewise |
| Controllers.Controller.DeleteFunc | controller.go:145-167 | likewise, from the point where the HostID is known; the error of updateService is dropped |
| Sync.StepDescends | controller.go:344-464 | every path of the controller ends after a bounded number of calls |
| Solo.SoloRunIsAPath | controller.go:344-464 | a thread run to its end is a path of the machine, call by call |
| Solo.SyncKeepsInvariant | controller.go:344-464 | so a sync started in a state of the invariant ends in one |
| Convergence.SyncProgresses | controller.go:381-460 | with a fresh cache and working calls one sync brings a Tunnel exactly one step closer to its client, or polls a host that is not ready, and keeps what the next sync needs |
| Convergence.RoundsConverge | controller.go:381-460 | after n syncs from distance d, w of them waiting polls, the distance is exactly d + w - n, or 0 |
| Exposure.SyncAnnounces | controller.go:935-943 | the sync that finds the host ready appends the recorded address once to the owned Service's list and mirrors it; no other sync edits a Service |
| Exposure.RoundsAnnounce | controller.go:935-943 | after any number of syncs from provisioning or before, the address is on the list, once and mirrored, exactly when the Tunnel is active and owns its Service |
| Convergence.ClientStep | controller.go:671-688 | the stored client reference is the default name if that name was free, and empty if not |
| Fixpoints.SettledStays | controller.go:449-460 | a sync of a settled Tunnel changes nothing, whichever of its calls fail |
| Fixpoints.OneSyncSettles | controller.go:701-742 | one working sync settles a Tunnel that has its client, whatever happened to ports, license or client |
| Fixpoints.RestsExactlyWhenSettled | controller.go:478-480 | a working sync makes no write call, not even one without effect, exactly when the Tunnel is settled |
| Fixpoints.PortChangeSettles | controller.go:721-739 | after an edit of the ports one working sync puts the new list into the client, and writes exactly when it is another list |
| Fixpoints.NothingBought | controller.go:404-424 | a Tunnel without a host is left as it is by every sync, each an error, while its Service is not cached, or its named secret is missing or empty |
| Fixpoints.NameTakenStays | controller.go:670-688 | a taken client name blocks the Tunnel at every later sync too |
| Outcomes.UnknownKey | controller.go:351-374 | a key that neither lister knows is an error exactly if a lister fails, and changes nothing |
| Outcomes.NoReference | controller.go:376-379 | a Tunnel without a Service reference is an error and is left alone |
| Outcomes.UnknownStatus | controller.go:381-463 | a HostStatus that the operator does not know is left alone, without an error |
| Outcomes.SecretOutcome | controller.go:518-576 | for all answers: the sync of a Tunnel without a secret stores a password under its name exactly if none was found there, names the secret unless that failed, and reports exactly the failures other than that of the read |
| Outcomes.HostOutcome | controller.go:399-438 | for all answers: a host is provisioned, with the token of the named secret, exactly if the Service is cached, the token is there and the calls before work; recorded exactly if the reply and the write arrive; an error exactly if any of this fails |
| Outcomes.SpecNamesTheSecret | controller.go:1053-1061 | the host gets the token of the secret that the Tunnel's spec names, whatever its status names |
| Outcomes.NoReferenceNoActivation | controller.go:1131-1134 | a ready host of a Tunnel without a Service reference is an error and is not recorded |
| Outcomes.PollOutcome | controller.go:920-946 | for all answers: a Tunnel becomes active exactly if the provider reports an active host with an address and the write takes effect; the address is published exactly if that reply arrives, an owner is a Service, and the Service's calls work |
| Outcomes.ServiceOutcome | controller.go:1064-1117 | for all answers: which writes of list and ingress happen, to the one Service that the Tunnel refers to in its namespace, and when they are reported as an error |
| ClientOutcomes.UnconnectedOutcome | controller.go:648-699 | for all answers of the sync of an active Tunnel without a client: when the license copy is written and with what; the client is made with the Tunnel's address, secret, Service and ports exactly if license and ports are there, the name is free and the Create takes effect; which reference is stored and cached |
| ClientOutcomes.ConnectedOutcome | controller.go:701-742 | for all answers of the sync of a connected Tunnel: the same for the license; the client is rewritten exactly if it is there, shows other ports and the Update takes effect, whose failure is not reported |
| Reports.NoServiceNoHost | controller.go:408-412 | while the Service is not cached every sync of a Tunnel without a host is an error and provisions nothing |
| Reports.NoLicenseNoClient | controller.go:466-472 | without the operator's license every sync of an active Tunnel is an error and makes no client |
| Reports.ClientsHaveLicense | controller.go:449-459 | a sync that changes any Deployment leaves the operator's license in the Tunnel's namespace |
| Reports.NoSilentFailure | controller.go:325-333 | a sync without an error has brought the Tunnel one step closer, except after polling a host that is not ready and after a failed Create of the client; it has put the license in place, and the ports into the client except after a refused Update |
| Reports.ErrsExactlyWhenLacking | controller.go:344-464 | a sync all of whose calls work is an error exactly if something it needs is missing |
| Reports.ProgressesExactly | controller.go:381-460 | a working sync progresses exactly when the Tunnel refers to a Service and, where it needs them, the Service is cached or stored, the named secret has a token, the license is there and the client's name is free |
| Fixpoints.StrandsExactly | controller.go:522-524 | a sync leaves a reference to no secret exactly if there was none, the read of it failed and the status write took effect |
| Fixpoints.StrandedStays | controller.go:872-889 | no sync changes anything for such a Tunnel |
| Fixpoints.FailedReadStrands | controller.go:522-524 | one failing read of the auth secret leaves a Tunnel that no later sync advances |
| Fixpoints.ClientBlocksExactly | controller.go:670-693 | for every outcome of the Create and of the status write: the client is stored exactly if the Create worked and the write took effect, and the Tunnel is blocked exactly if a Create that took effect stays without a stored reference |
| Fixpoints.RefusedRefWriteBlocks | controller.go:670-693 | one refused write of a new client's reference leaves the cached object naming the client and the stored one not, and blocks the Tunnel when the cache catches up |
| ServiceSync.TunnelKeysDiffer | controller.go:579-580 | two Services never generate the same Tunnel |
| ServiceSync.AnnotationDecides | controller.go:1204-1216 | after a working sync a Service without the annotation has its Tunnel exactly if the operator is not in annotated-only mode; with it, exactly if its value is one of the six spellings of true, whatever the mode |
| ServiceSync.SwitchedOff | controller.go:636-643 | setting the annotation from 1 to 0 and syncing again deletes the Tunnel that the first sync made or kept, and its host awaits deletion |
| ServiceSync.ServiceConvergesExactly | controller.go:578-646 | a Service's sync reports an error only if the lister fails, touches only its own Tunnel, and leaves it present iff the Service is managed exactly if it was so already or lister and read worked and the create or delete took effect |
| ServiceSync.ConvergedStays | controller.go:588-646 | a converged Service is a fixpoint, whatever the answers |
| ServiceSync.CreatedForItsService | controller.go:595-627 | the Tunnel a working sync creates is a new incarnation called after the Service, that refers to it, is owned by it, and starts generated, without secret, host and client |
| ServiceSync.OneSyncConverges | controller.go:578-646 | when its calls work one sync leaves the Tunnel present iff the Service is managed and a second one changes nothing |
| WorkQueues.ActionKeeps | controller.go:288-339 | every step of every worker, enqueue, elapsed back-off and shutdown keeps the queue's invariant |
| WorkQueues.NoLostRetries | controller.go:325-328 | until shutdown a key whose last sync failed is pending or in a worker's hands, in every state of every run |
| WorkQueues.DirtyComesBack | controller.go:304 | an item marked while it is being processed is on the queue again after its Done |
| WorkQueues.OneWorkerPerItem | controller.go:289-304 | no item is in the hands of two workers |
| WorkQueues.CallsInOrder | controller.go:296-333 | every worker finishes an item before it gets the next one, after exactly one Forget or AddRateLimited, and forgets only after a nil result or for an item that is no string |
| WorkQueues.EveryGetIsDone | controller.go:304 | each Get of an item is matched by exactly one Done, but for an item still being worked on |
| WorkLoop.ProcessNextWorkItem | controller.go:288-339 | one turn of the loop, as a method: queue and cluster afterwards, with syncHandler's own result deciding on the retry |
| WorkLoop.ProcessItem | controller.go:296-333 | the function literal with its deferred Done: a failed sync is retried, everything else forgotten |
| WorkLoop.RunWorker | controller.go:281-284 | any number of turns, up to a shutdown or a Get that would block |
| WorkLoop.TurnIsAPath | controller.go:288-339 | a turn is four steps of one worker of the machine |
| WorkLoop.TurnSettlesItem | controller.go:304-333 | after a turn the item is on no list but the delayed one, and there exactly if it was before or its sync failed; its counter rises or is cleared |
| WorkLoop.TurnLeavesOthers | controller.go:288-339 | a turn leaves all other items where they are |
| WorkLoop.QueueFreesKeys | controller.go:289-304 | a worker that holds a key on the queue may start on it in the reconciler: no other worker has it |
| DeepCopies.RefObject.DeepCopy | pkg/apis/inletsoperator/v1alpha1/zz_generated.deepcopy.go:29-42 | equal value, new object; nil stays nil |
| DeepCopies.SpecStruct.DeepCopy | pkg/apis/inletsoperator/v1alpha1/zz_generated.deepcopy.go:106-124 | equal value, only new refs |
| DeepCopies.StatusStruct.DeepCopy | pkg/apis/inletsoperator/v1alpha1/zz_generated.deepcopy.go:137-150 | equal value, only new refs |
| DeepCopies.MetaStruct.DeepCopy | pkg/apis/inletsoperator/v1alpha1/zz_generated.deepcopy.go:48 | the metadata's owner slice is copied to a new one with equal contents |
| DeepCopies.TunnelObject.DeepCopyInto | pkg/apis/inletsoperator/v1alpha1/zz_generated.deepcopy.go:45-52 | the target gets an equal value with only new refs; nothing else changes |
| DeepCopies.TunnelObject.DeepCopy | pkg/apis/inletsoperator/v1alpha1/zz_generated.deepcopy.go:55-62 | equal value, and everything reachable through the copy is new |
| DeepCopies.CopyThenWrite | pkg/apis/inletsoperator/v1alpha1/zz_generated.deepcopy.go:55-62 | no sequence of writes through a deep copy changes the original |
| DeepCopies.AssignThenCopy | controller.go:679-684 | the client reference is assigned before the copy is taken, so the cached object itself changes |
| DeepCopies.CopyItems | pkg/apis/inletsoperator/v1alpha1/zz_generated.deepcopy.go:77-83 | a list of any length is copied element by element, with new refs that no two elements share |
| DeepCopies.TunnelListObject.DeepCopyInto | pkg/apis/inletsoperator/v1alpha1/zz_generated.deepcopy.go:73-85 | equal contents, a new slice, only new refs; nil stays nil |
| DeepCopies.TunnelListObject.DeepCopy | pkg/apis/inletsoperator/v1alpha1/zz_generated.deepcopy.go:88-95 | likewise, in a new object |

## Assumptions about the environment

- New Tunnels have an empty status (the status subresource is enabled,
  chart/inlets-operator/crds/operator.inlets.dev_tunnels.yaml:124-125). Other users create and delete Tunnels,
  Services and Deployments, edit Services and create secrets; they do not edit a Tunnel's status or spec, edit or
  delete secrets, or create Deployments controlled by a Tunnel.
- A Tunnel's `spec.authTokenRef` is nil or has a non-empty name.
- The provider gives non-empty ids that it never gave before, and `Status` answers for the id asked for. A refused
  `Provision` creates no host; one whose reply is lost does. Generated passwords are non-empty.
- The queue hands a key to one worker at a time, as its contract says (`QueueFreesKeys`).
- A failed `Create` returns an empty object.
- Convergence also assumes a cache that has caught up before each sync, and no Service with the Tunnel's own
  namespace and name.

## Left out

- Crashes and restarts of the operator, and delete events missed while it is down: such hosts stay "to be deleted".
- Garbage collection of secrets and Deployments owned by a deleted Tunnel.
- The tables of `getProvisioner` and `getHostConfig`: constants per provider. Only that the token enters the host's user data is kept.
- The pod spec beyond name, namespace, annotation, address, ports, upstream, secret and owner: inert data.
- Event recording, logging, timing, password generation, memory quantities: no effect on the modelled state.
- `checkServiceType` and the event handlers' filters: they decide only when a key is enqueued; here any key may be taken up at any time.
- `handleObject`, `enqueueTunnel`, `enqueueService`: likewise.
- `SplitMetaNamespaceKey`: keys are pairs of namespace and name; a malformed key is a sync that returns nil.
- The Deployments lister and informer resync; the Service cache is arbitrary, so nothing is claimed from its contents.
- The difference between a missing key and an empty value in the data of the license secret.
- main.go, validate.go, config.go, pkg/signals, pkg/version, generated clients, listers and informers, chart and scripts: easy or inert.
- `ObjectMeta.DeepCopyInto` and `ListMeta.DeepCopyInto`: library code; of the metadata only the owner slice is on the heap in `DeepCopies`, labels and annotations are not modelled.
- Several Go-level facts of the queue (back-off durations, fairness): only which items are ready, marked, delayed or in process is modelled.
- Guarantees.HostIdForOneIncarnation: rests on ids that are never given twice. The GCE provisioner builds an id from name, zone, project and region (vendor/github.com/inlets/cloud-provision/provision/gce.go:158-162), so there a Tunnel created again under its old name gets its old id back.
- Guarantees.TokenAgreement: leaves out Tunnels whose secret is named `inlets-license`, because the license copy overwrites that secret; `AgreementSurvivesExactly` says when agreement survives there. Garbage collection of the auth secret (owner reference at controller.go:537-543), which could take away a secret that a re-created Tunnel has taken over, is not modelled.
- Guarantees.AuthSecretsFixed: leaves out the secret named `inlets-license`, for the same reason, and garbage collection.
- WorkQueues.NoLostRetries: does not cover a queue that is shut down, because AddRateLimited then drops the key.
- Convergence.SyncProgresses: assumes that nobody else acts during the sync, because any other writer can make its compare-and-swap fail.
