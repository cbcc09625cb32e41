# Verification model of gmos-k8s-operator

The operator turns a GlideinSetCollection into GlideinSets, keeps each GlideinSet up to date with a
git repository and with secrets served by a Glidein Manager, and refreshes the tokens its pods need.
Two reconcilers and several background pollers read and write the same API objects, any API call can
fail, and two in-memory registries decide who polls what. This project models that control protocol
in Dafny and proves what it keeps.

`dafny verify dfyconfig.toml` checks everything.

| file | what it models |
|---|---|
| `Names.dfy` | resource names and registry keys |
| `Kube.dfy` | the API server as a versioned object store, with a fault per call, and the two generic read-modify-write steps |
| `GlideinSets.dfy` | GlideinSet and GlideinSetCollection as values |
| `CollectionReconciler.dfy` | upsert every wanted GlideinSet, then delete the outdated ones |
| `CollectorResources.dfy` | the collector's resources, among them its signing key |
| `SharedObject.dfy` | one object, many writers, Get and Update as separate steps, reads of any age |
| `SharedGlideinSet.dfy`, `SharedSecret.dfy` | the writers of a GlideinSet and of its tokens Secret |
| `ManagerRegistry.dfy` | manager URL -> poller -> handlers, and the life of a poller with its two loops |
| `CollectorClients.dfy` | the flat registry of collector clients and their loops |
| `GlideinSetReconciler.dfy` | the finalizer protocol as a machine with one API call per step, in every interleaving |
| `Operator.dfy` | the same Reconcile as code over the API server and both registries, amid other writers, refining the machine |
| `PollPass.dfy` | one tick of a manager poller: git pass and secret pass |
| `GitHistory.dfy` | runs of git passes at changing commits, with other writers in between |
| `TokenRefresh.dfy` | one tick of a collector client |

How the pieces are modelled:

- Every API call takes a `Fault`: it is served, it is refused, it takes effect but its reply is lost,
  or (for a Get) it is answered with an older state of the object. A method that makes many calls
  takes a function from call number to fault, so a theorem about it is about every pattern of failure.
- The server refuses an Update whose version is not the current one, keeps the deletion mark, refuses
  new finalizers on an object under deletion, and drops an object under deletion with its last
  finalizer. Every accepted write makes a new version, also one that changes nothing.
- Other writers act between the calls of a collection pass or a GlideinSet Reconcile as values of
  `Outside`: they create, delete, or edit an object at one stroke by an arbitrary function. A write between a fetch and the
  post that follows it makes the server refuse the post, which is one of the faults.
  `SharedObject.dfy` has fetch and post of all writers as separate steps; its world is the API server
  seen from one object (`AcceptedIsAccepted`, `WriteMirrors`). `GentleAct` is one that
  deletes nothing and releases nothing under deletion; `MeekAct` is an edit that leaves spec and
  labels alone and releases no wanted set.
- `ApiServer.trail` is a ghost record of every state of the store; ordering guarantees speak of it.
- The listing of GlideinSets selects by an arbitrary predicate on labels. The code hands
  `key=value` to a filter that looks for label *names*
  (`internal/controller/glideinsetcollection_controller.go:317`), so nothing is assumed about what is
  selected; in particular not that it is the collection's own sets.
- The maps of pollers, handlers and clients are iterated in arbitrary order.
- Pollers and clients are heap objects. A send on a done channel is a method that requires a live
  loop to receive it, so verification of `StopPolling` is the proof that a stop does not hang.

What the code does differently from what its comments say is kept as it is, and the theorems say
exactly when it matters:

- a look-up that is answered with an old copy makes a pass skip a wanted set and report success
  (`CompleteExactly`, `SurgesExactly`, `DrainsWithoutSurge`);
- the error of the listing is dropped, so a pass can report success without having deleted anything
  (`UnlistedPassIsRightExactly`);
- a resource that moves to a manager URL without a poller stays in its old poller, and outlives its
  object there (`AddKeepsPictureExactly`, `StrandingExactly`); the comment says it is removed
  elsewhere;
- a git turn is misled by an old copy that is at the commit, and by a false NotFound, which is not
  logged (`GitTurnSyncs`);
- a Reconcile trusts a finalizer that it reads from a cache (`GuidedExactly`);
- tokens are looked for under `cluster.tkn` but written under `collector.tkn`, so that a Secret is
  populated does not stop the refreshing; it stops exactly if remote secrets put that key into both
  Secrets (`RefreshStopsExactly`, `RefreshStopsWhenNested`);
- a secret version shorter than 63 characters panics, and so does a second update of a Secret whose
  only destination was called like the placeholder (`CheckForSecretUpdates`,
  `PlaceholderDestinationPanics`);
- a destination that changes under an unchanged secret version is passed over
  (`SecretIsPlacedExactly`);
- a GlideinSet called like another one plus `-collector` shares a token Secret with it
  (`SecretNamesClashExactly`, `TokensOutlastExactly`).

## Model

| member | source | states |
|---|---|---|
| Names.NamespacedNameInjective | internal/controller/pilotset_resourcenames.go:34-41 | if no namespace contains a slash, two resources have the same registry key exactly when they are the same resource |
| Names.SlashBreaksInjectivity | internal/controller/pilotset_resourcenames.go:34-37 | without that premise two different resources can share a key |
| Names.SecretNamesClashExactly | internal/controller/pilotset_resourcenames.go:12-31 | two different (set, suffix) pairs over the three Secret suffixes give the same name exactly when one set is called like the other plus `-collector`, with suffixes `-tokens` and `-collector-tokens` |
| Kube.ApiServer.Get | internal/controller/api_util.go:87-91 | whatever its fault, a successful read returns some state the object really had, at the version it then had |
| Kube.ApplyUpdate | internal/controller/api_util.go:76-116 | for every fault of its two calls, what the update leaves and returns is the specified effect; every other object keeps its content, version and past |
| Kube.UpdatingIsAtomic | internal/controller/api_util.go:87-106 | all or nothing: however old the fetched copy, what is left is the object as it is or the edit of the object as it is now; success means that the edit was posted, or that some state of the object needed none |
| Kube.HonestUpdating | internal/controller/api_util.go:87-113 | with an honest read exactly the edit of the present object decides what is written, what is left and what is returned, and exactly when NotFound is reported |
| Kube.CreateIfNotExists | internal/controller/api_util.go:30-70 | an object that exists is never touched; after success the object exists if and only if it did before or the look-up did not show an old copy of it |
| CollectionReconciler.ReconcileGlideinSets | internal/controller/glideinsetcollection_controller.go:291-341 | for every fault pattern and every behaviour of other writers: if nobody else deletes and no look-up before a create shows an old copy, then at every intermediate state, of a failed pass too, no wanted set was lost and no set at all was lost or marked before all wanted sets existed; with nobody else at work, a successful pass surges before it drains if and only if no wanted set is missed or nothing is to be drained; if others edit other fields only and no read misleads, success with a listing means the cluster is settled; with nobody else at work the goal stays the same wherever the pass broke off, and a successful pass has reached it if and only if the last entry of every name took effect |
| CollectionReconciler.UpsertAll | internal/controller/glideinsetcollection_controller.go:294-309 | wherever it broke off and amid gentle writers, nothing was lost or marked at any moment; after success with true look-ups all wanted sets exist, amid meek writers with true reads each with the spec of its last entry; with nobody else at work, success leaves exactly the store that `Climb` computes from the start and the faults |
| CollectionReconciler.CompleteExactly | internal/controller/glideinsetcollection_controller.go:294-309 | for all reads: successful upserts leave all wanted sets in place if and only if each that was missing has a look-up that does not show an old copy |
| CollectionReconciler.RaisedExactly | internal/controller/glideinsetcollection_controller.go:294-309 | for all reads: successful upserts leave every wanted set with its spec if and only if for every name the last entry is not passed over, or the spec was there by then |
| CollectionReconciler.SurgesExactly | internal/controller/glideinsetcollection_controller.go:291-341 | the equivalence for surge before drain, stated of the states on the trail |
| CollectionReconciler.EndIsExact | internal/controller/glideinsetcollection_controller.go:291-341 | a pass ends at the desired store of its start if and only if the last entry of every name took effect |
| CollectionReconciler.DrainsWithoutSurge | internal/controller/glideinsetcollection_controller.go:299-338 | from an empty server: a wanted set is deleted, a cache still shows it, and the pass reports success after deleting another set while the wanted one is missing |
| CollectionReconciler.Upsert | internal/controller/glideinsetcollection_controller.go:299-308 | one set, with other writers between the update and the create: everything else is as they leave it; after success the set exists if its look-up is true, and holds its spec if besides no update is told it is missing and nobody writes specs; alone, success leaves exactly the specified store |
| CollectionReconciler.DeleteOutdated | internal/controller/glideinsetcollection_controller.go:320-338 | whatever the order of the listing, wherever it broke off and amid other writers: wanted sets that were all there are there at every moment; amid meek writers every outdated set visited is gone or marked; alone, exactly these are, and all else is untouched |
| CollectionReconciler.DeleteIfOutdated | internal/controller/glideinsetcollection_controller.go:322-337 | one listed set, whatever becomes of the call: nothing else changes, a wanted set is not touched, and success means an unwanted one is gone or marked |
| CollectionReconciler.IsOutdated | internal/controller/glideinsetcollection_controller.go:322-328 | true exactly when no entry of the spec yields the listed name |
| CollectionReconciler.OutdatedByName | internal/controller/glideinsetcollection_controller.go:297-324 | the name built for the upsert and the name compared in the deletion agree: a set is wanted exactly when the comparison finds it |
| CollectionReconciler.SettledWanted | internal/controller/glideinsetcollection_controller.go:294-309 | the desired store holds, for every wanted name, the name and pod fields of the last entry of that name with the collection's manager URL and the collector URL `<collection>-collector.<namespace>.svc.cluster.local`; an object that was there keeps everything but its spec, a new one has the collection as owner, its three labels, no finalizer and no manifest |
| CollectionReconciler.SettledUnwanted | internal/controller/glideinsetcollection_controller.go:311-338 | for every other name: what the listing returns is gone, or marked if a finalizer holds it; all else is as before |
| CollectionReconciler.SettleIdempotent | internal/controller/glideinsetcollection_controller.go:291-341 | the desired store of a settled cluster is the cluster itself: a further pass has nothing to change |
| CollectionReconciler.SettledExactly | internal/controller/glideinsetcollection_controller.go:291-341 | a cluster equals its desired store if and only if every wanted set is there with its spec and every outdated one is gone or marked |
| CollectionReconciler.LiftedSettles | internal/controller/glideinsetcollection_controller.go:294-309 | upserts done early, twice, or with an overridden entry do not change where the pass leads |
| CollectionReconciler.DrainingSettles | internal/controller/glideinsetcollection_controller.go:320-338 | nor do deletions done early |
| CollectionReconciler.RetryUntilServed | internal/controller/glideinsetcollection_controller.go:291-341 | with nobody else at work, any number of passes with any faults and stale reads, followed by one that is served, ends in the store of a single undisturbed pass |
| CollectionReconciler.UnlistedPassIsRightExactly | internal/controller/glideinsetcollection_controller.go:313-318 | a pass whose listing failed and that reported success is right if and only if nothing was left to delete |
| CollectionReconciler.NeighbourSurvivesExactly | internal/controller/glideinsetcollection_controller.go:313-338 | a set of one collection survives the pass of another collection in the same namespace if and only if that one's listing leaves it out (or it is under deletion already) |
| CollectorResources.CreateCollectorForPilotSet | internal/controller/glideinsetcollection_controller.go:190-220 | no state of the pass loses or changes a stored resource; what is new was rendered in this pass; success with no look-up shown an old copy means all manifests exist; served calls succeed, whatever exists already |
| CollectorResources.RunReconciles | internal/controller/collector_schemas.go:17-30 | over any run of reconciles, each with its own random key and failing anywhere, a stored signing key is the same in every later state and was drawn by some reconcile of the run; what a served reconcile rendered is there in the end |
| CollectorResources.GrowthIsStable | internal/controller/glideinsetcollection_controller.go:213-215 | if no single step loses or changes a resource, no stretch of the run does |
| SharedObject.InterleavingsAreAtomic | internal/controller/api_util.go:87-106 | for any number of writers, any interleaving of their Get and Update and reads of any age, the object is what the accepted writes make of it one after the other, and every copy a writer holds is such an object of an earlier moment |
| SharedObject.PostKeepsInv | internal/controller/api_util.go:102 | a copy whose version is current is the current object, however old the fetch |
| SharedObject.RunKeepsInv | internal/controller/api_util.go:87-106 | the invariant behind this holds after every run from every state that satisfies it |
| SharedObject.LogIsAskedFor | internal/controller/api_util.go:102 | every accepted write was asked for by some action of the run |
| SharedObject.AcceptedIsAccepted | internal/controller/api_util.go:102 | the world of one object accepts a post exactly when the API server does, with its versions translated |
| SharedObject.WriteMirrors | internal/controller/api_util.go:102 | every write to the object keeps the world and the API server alike: same object, same version, same past copies; so what is proved of the world holds of the server |
| SharedObject.WriteElsewhereMirrors | internal/controller/api_util.go:102 | a write to any other object leaves the world of this one as it is |
| SharedGlideinSet.NoLostUpdates | internal/controller/glideinset_controller.go:71-105 | in every interleaving of collection reconciler, git poller, GlideinSet reconciler and deletes, the spec is the one last accepted, so is the remote manifest, so is the operator's finalizer, and labels, owner and foreign finalizers are as created |
| SharedGlideinSet.ReplayTells | internal/controller/pilotset_schemas.go:149-172 | the object after a log of writes is, field by field, what each field's last writer left |
| SharedGlideinSet.WritersKeepToTheirField | internal/controller/pilotset_schemas.go:149-172 | an accepted write moves only the field its writer owns, and a refused one moves none |
| SharedSecret.BasenameMeans | internal/controller/pilotset_schemas.go:116 | the destination key is the longest slash-free suffix of the path |
| SharedSecret.SecretBuffer.UpdateCollectorToken | internal/controller/collector_schemas.go:40-49 | the in-place edit, once the server has merged the string data, is the specified edit: the token under `collector.tkn`, no placeholder, all other keys and labels kept |
| SharedSecret.SecretBuffer.UpdateRemoteValue | internal/controller/pilotset_schemas.go:103-128 | an undecodable value changes nothing; otherwise it panics exactly if a destination is given and the map is nil, and else the in-place edit is the specified one |
| SharedSecret.RefreshMeans | internal/controller/collector_schemas.go:40-49 | a refresh, key by key: the token under `collector.tkn`, `sample.cfg` gone, all other keys, labels and metadata kept |
| SharedSecret.RemoteMeans | internal/controller/pilotset_schemas.go:103-128 | a remote secret, key by key: the value under the last part of the destination, `sample.cfg` gone, the version label set, all other keys, labels and metadata kept |
| SharedSecret.ReplayTellsData | internal/controller/pilotset_schemas.go:115-125 | key by key, the Secret is what the last accepted write to that key left |
| SharedSecret.ReplayTellsVersion | internal/controller/pilotset_schemas.go:119-122 | the version label is that of the last accepted remote secret since creation, and absent without one |
| SharedSecret.RemoteStaysExactly | internal/controller/pilotset_schemas.go:115-125 | the last remote secret's value is still at its destination if and only if the destination is not the placeholder and, when it is the collector's key, no later refresh wrote another token |
| SharedSecret.VersionCoherence | internal/controller/pilotset_schemas.go:103-128 | in every interleaving of refreshes and remote updates with reads of any age, label and value belong to the same remote secret, under exactly that condition |
| SharedSecret.PlaceholderIsGone | internal/controller/pilotset_schemas.go:124-125 | after the first accepted update the placeholder key is gone and never returns |
| SharedSecret.DataIsEmptyExactly | internal/controller/pilotset_schemas.go:23-29 | the Data is empty if and only if something was posted since creation and all of it was destined for the placeholder |
| SharedSecret.EditEmptiesExactly | internal/controller/pilotset_schemas.go:115-125 | one update empties the Data exactly if it leaves nothing itself and found nothing but the placeholder |
| SharedSecret.NeverPanics | internal/controller/pilotset_schemas.go:115-117 | if no destination is called like the placeholder, no run of any writers ever writes to a nil map |
| SharedSecret.PlaceholderDestinationPanics | internal/controller/pilotset_schemas.go:115-125 | any destination called like the placeholder leads to that panic, in five steps |
| SharedSecret.ShouldUpdateExactly | internal/controller/glideinsetcollection_controller.go:156-175 | tokens are asked for if and only if both Secrets are read and one lacks `cluster.tkn`; not, if both have it or both are missing; anything else is an error |
| SharedSecret.RefreshStopsExactly | internal/controller/glideinsetcollection_controller.go:156-175 | as long as both Secrets exist, the check stops asking for tokens if and only if each of them was given, since its creation, a remote secret under the key that is looked for, whatever was refreshed |
| TokenRefresh.ApplyTokensUpdate | internal/controller/glideinset_controller.go:182-187 | for all reads, each Secret ends as its own update's fate says, whatever became of the other; no other object changes; success is reported exactly if both updates succeed |
| TokenRefresh.HandleTokenUpdates | internal/controller/collector_client.go:73-98 | nothing changes unless both reads, old or not, call for tokens and both tokens were made; then both updates are tried |
| TokenRefresh.NoAnswerNoTokens | internal/controller/collector_client.go:76-92 | if one of the Secrets is missing or cannot be read, or a token was not made, nothing is written |
| TokenRefresh.RefreshIsClean | internal/controller/collector_schemas.go:40-49 | whatever the reads show, a refresh leaves a Secret alone, or puts its token into the Secret as it is now and touches no other key but the placeholder |
| TokenRefresh.SmoothTickRefreshes | internal/controller/glideinsetcollection_controller.go:161-168 | after an undisturbed tick both tokens are in place, and the Secrets go on asking for new ones |
| TokenRefresh.SharedSecretExactly | internal/controller/pilotset_resourcenames.go:12-31 | two GlideinSets share a token Secret exactly when one is called like the other plus `-collector`, and which of the Secrets it is |
| TokenRefresh.TokensOutlastExactly | internal/controller/glideinset_controller.go:182-187 | one set's tokens outlast another set's tick if and only if neither is so called, or the same token was written |
| TokenRefresh.RefreshStopsWhenNested | internal/controller/glideinsetcollection_controller.go:156-175 | a set's refreshing stops if and only if a remote secret destined for the key that is looked for was placed for the set itself and another one for a set called like it plus `-collector`; with no set so called it never stops |
| ManagerRegistry.RemoveCounts | internal/controller/glideinmanager_client.go:262-283 | a remove lowers the resource's number of registrations by one if it has any, leaves all other resources alone and leaves no empty poller behind |
| ManagerRegistry.AddCounts | internal/controller/glideinmanager_client.go:239-256 | an add registers the resource at the URL, leaves all others alone, and raises its number of registrations exactly when the URL had no poller or the resource had no registration |
| ManagerRegistry.AddKeepsHandlers | internal/controller/glideinmanager_client.go:239-256 | a registration that is there keeps its old handler, a new one gets the one given, and no other resource gets another handler |
| ManagerRegistry.FoundPollerSurvives | internal/controller/glideinmanager_client.go:252-255 | the poller found for the URL is still registered, with the same handlers, when the handler is set on it |
| ManagerRegistry.AddKeepsPictureExactly | internal/controller/glideinmanager_client.go:239-256 | after an add the registry is still the inverse of some map from resource to URL if and only if the resource did not move to a URL without a poller; then it is the old map with this URL |
| ManagerRegistry.RemoveForgetsHome | internal/controller/glideinmanager_client.go:262-283 | while that picture holds, a remove removes the resource for good |
| ManagerRegistry.RunsKeepThePicture | internal/controller/glideinmanager_client.go:229-283 | over every run of adds and removes without such a move, the two-level registry is the inverse of a plain map from resource to URL |
| ManagerRegistry.RemoveIsCompleteExactly | internal/controller/glideinmanager_client.go:268-277 | a remove takes the resource out of the registry if and only if it was registered at most once |
| ManagerRegistry.MovedResourceIsLeftBehind | internal/controller/glideinmanager_client.go:239-250 | a resource moved to a URL without a poller is still registered after its removal |
| ManagerRegistry.DoHandshakeWithRetry | internal/controller/glideinmanager_client.go:206-220 | succeeds exactly if one of the tries does, or if there were to be none |
| ManagerRegistry.Poller.StartPolling | internal/controller/glideinmanager_client.go:61-91 | both loops start, once; a second call changes nothing |
| ManagerRegistry.Poller.SendDone | internal/controller/glideinmanager_client.go:101-103 | one value goes to one of the live loops, which ends |
| ManagerRegistry.Poller.StopPolling | internal/controller/glideinmanager_client.go:94-104 | a poller that never started is left as it is; else its tickers stop and one value ends exactly one live loop, which is there to take it |
| ManagerRegistry.Registry.FindHolder | internal/controller/glideinmanager_client.go:267-277 | finds a poller serving the resource if there is one |
| ManagerRegistry.Registry.Add | internal/controller/glideinmanager_client.go:229-258 | without a client name nothing changes; otherwise the heap of pollers behaves as the registry seen as a value; a new poller is listed, under this URL and not yet polling; a poller that is emptied by the move is stopped as by a remove, and every other goes on as it is |
| ManagerRegistry.Registry.Remove | internal/controller/glideinmanager_client.go:262-283 | likewise; a poller that leaves the registry has its tickers stopped and one of its loops ended, if it had started, and every other poller goes on as it is; what is no longer registered has no handlers |
| ManagerRegistry.Registry.FinishHandshake | internal/controller/glideinmanager_client.go:244-250 | the poller starts, with both loops, if and only if one of 15 tries succeeds, registered or not, and that does no harm to the registry |
| ManagerRegistry.Registry.PollTick | internal/controller/glideinmanager_client.go:129-160 | a poller that is no longer registered serves no handler, even if it started late or a loop outlived its stop; each handler served is under its own resource's key |
| ManagerRegistry.Registry.RefreshTick | internal/controller/glideinmanager_client.go:84-87 | the refresh loop ends exactly when none of 15 tries renews the handshake; nothing else changes |
| CollectorClients.Clients.Add | internal/controller/collector_client.go:179-198 | exactly this name gets the latest handler; a name that is there keeps its client and its one loop |
| CollectorClients.Clients.Remove | internal/controller/collector_client.go:201-212 | exactly this name goes; its loop was alive to take the stop and is dead after it |
| CollectorClients.Clients.Tick | internal/controller/collector_client.go:73-76 | a live loop belongs to a registered client and uses the latest handler given for its name |
| CollectorClients.Client.StopPolling | internal/controller/collector_client.go:62-67 | a stop ends the live loop with one value |
| GlideinSetReconciler.NoOrphanClientsEver | internal/controller/glideinset_controller.go:53-135 | in every interleaving of Reconciles (any call failing, losing its reply or reading an old state) with user creates, user deletes, other writers and restarts, if no first fetch misleads, every registered collector client has its object, carrying the finalizer; and a Reconcile that ended well on an object not under deletion has left it in both registries |
| GlideinSetReconciler.TraceKeepsInv | internal/controller/glideinset_controller.go:53-135 | the invariant behind it, at every moment of every such run |
| GlideinSetReconciler.ClientsStayBacked | internal/controller/glideinset_controller.go:93-105 | every step, also the post that takes the finalizer off, leaves every registered client with its object |
| GlideinSetReconciler.StepKeepsBacked | internal/controller/glideinset_controller.go:71-105 | nothing but the last post of a Reconcile takes the finalizer off an object, and only off its own |
| GlideinSetReconciler.GuidedExactly | internal/controller/glideinset_controller.go:60-81 | from every state that satisfies the invariant, a first fetch keeps every continuation free of orphaned clients if and only if it does not show a finalizer on an undeleted copy of an object that has none now; nothing is asked of any other fetch |
| GlideinSetReconciler.MisledBeginLeavesOrphan | internal/controller/glideinset_controller.go:60-125 | any other first fetch leads in four further steps to a client without an object, whatever the registries hold |
| GlideinSetReconciler.MisledBeginIsReachable | internal/controller/glideinset_controller.go:53-128 | such a fetch can come about from the start: a GlideinSet is created and deleted, and a cache still shows it |
| GlideinSetReconciler.DeletionGoesThrough | internal/controller/glideinset_controller.go:84-107 | from every state that satisfies the invariant, a deletion whose Reconcile is served takes the finalizer off its object, takes one registration of it out of the registry, and touches no other object |
| GlideinSetReconciler.NoOrphanWatchersEver | internal/controller/glideinmanager_client.go:229-283 | on every run on which no add strands a registration, every manager watcher has its object, carrying the finalizer, and no resource is registered twice; managers may change, to a polled URL at any time |
| GlideinSetReconciler.SingleExactly | internal/controller/glideinmanager_client.go:239-256 | over a run every resource keeps to at most one registration if and only if no add strands one, that is, adds a resource that is watched elsewhere at a URL without a poller |
| GlideinSetReconciler.StrandingExactly | internal/controller/glideinmanager_client.go:239-250 | an add keeps every sound continuation free of orphaned watchers if and only if it strands nobody |
| GlideinSetReconciler.StrandedIsLeftBehind | internal/controller/glideinmanager_client.go:239-277 | after a stranding add, deleting the GlideinSet leaves a watcher without an object |
| GlideinSetReconciler.StrandingIsReachable | internal/controller/glideinmanager_client.go:239-250 | such an add can come about from the start: a GlideinSet is reconciled, gets a manager nobody is watched at, and is reconciled again |
| GlideinSetReconciler.WatchersAreAtHome | internal/controller/glideinset_controller.go:119-135 | on runs with fresh reads where an existing GlideinSet keeps its manager URL, every watcher is at its object's URL |
| GlideinSetReconciler.HoldersAreHome | internal/controller/glideinmanager_client.go:229-258 | on such runs a resource is registered nowhere but at its object's URL |
| Operator.Reconciler.Reconcile | internal/controller/glideinset_controller.go:53-128 | the code over the API server and both registries, with any acts of others before each of its calls and registry operations: every state it goes through is recorded, and the record is a run of the machine; what becomes of the registries is tied to how it ended. With nobody else at work, for every fate of the calls, exactly what is left in the store and the registries; if all is served, a GlideinSet ends set up or cleaned up, and one that is absent changes nothing; if its child resources fail, an error is reported and nothing is registered |
| Operator.ServedSetsUp | internal/controller/glideinset_controller.go:71-127 | all served, not under deletion: success, the finalizer on and nothing else changed in the store, the client with the new handler, the watcher at the manager URL, keeping its old handler if it was there, and all other resources registered as before |
| Operator.ServedCleansUp | internal/controller/glideinset_controller.go:84-107 | all served, under deletion with the finalizer: success, the finalizer off or the object gone, the client gone, one watcher fewer, and all other resources as before |
| Operator.ServedIsRefused | internal/controller/glideinset_controller.go:71-81 | under deletion without the finalizer: the server takes no new one, so an error is reported and nothing changes |
| Operator.FailedBuildRegistersNothing | internal/controller/glideinset_controller.go:110-122 | if the child resources fail, or the client name is missing, an error is reported and neither registry changes |
| Operator.AbsentIsFine | internal/controller/glideinset_controller.go:60-64 | an object that is not found is no error, and nothing changes |
| Operator.Reconciler.Run | internal/controller/glideinset_controller.go:53-128 | any sequence of Reconciles from the start, amid what others do: each of them is begun, and all recorded moments form a run of the machine; if no first fetch is stale, at no moment is there an orphaned client |
| Operator.Reconciler.Mark | internal/controller/glideinset_controller.go:71-81 | the post of the finalizer is one step; what goes on is the object as stored |
| Operator.Reconciler.Unregister | internal/controller/glideinset_controller.go:84-90 | whatever others do, one registration and the client are gone; at some moment the watcher is gone and the clients are still as they were |
| Operator.Reconciler.Release | internal/controller/glideinset_controller.go:93-105 | a new fetch, then the post without the finalizer: before success there is a moment with the copy fetched and not yet posted |
| Operator.Reconciler.Register | internal/controller/glideinset_controller.go:109-127 | whatever others do, success if and only if the child resources succeed and there is a client name, and then in both registries, else in neither; before success there is a moment with the watcher in and the clients as they were |
| PollPass.OrderDoesNotMatter | internal/controller/glideinmanager_client.go:129-147 | two passes over the same handlers with the same outcomes end in the same store, in whatever order each went |
| PollPass.SetsApart | internal/controller/glideinmanager_client.go:238-242 | handlers under different keys write different GlideinSets |
| PollPass.TokensApart | internal/controller/glideinset_controller.go:152-156 | and different tokens Secrets |
| PollPass.FirstForMeans | internal/controller/pilotset_schemas.go:49-53 | the manifest entry used is the first one for the namespace |
| PollPass.FirstForNone | internal/controller/pilotset_schemas.go:49-54 | none is found exactly when no entry has the namespace |
| PollPass.ReadManifestForNamespace | internal/controller/pilotset_schemas.go:39-55 | the search loop returns that entry, or an error if the file cannot be read or has none |
| PollPass.GitTurn | internal/controller/glideinmanager_client.go:130-146 | for all reads, one handler's turn leaves its own GlideinSet as specified and every other object with its version untouched, posts nothing if it is at the commit and no old copy shows otherwise, and logs an error exactly if there was trouble |
| PollPass.GitTurnIsAtomic | internal/controller/pilotset_schemas.go:160-172 | for all reads, a turn leaves a resource alone, or writes the first entry for its namespace into it as it is now and touches nothing else |
| PollPass.GitTurnSyncs | internal/controller/glideinmanager_client.go:130-146 | after a turn without trouble a resource that is still there is at the commit if and only if no read misled the turn: an old copy at the commit, or a false NotFound; if it was behind, its manifest then has path, commit and previous commit of the update and all else from the first entry for its namespace; nothing but the manifest changes |
| PollPass.TroubledExactly | internal/controller/glideinmanager_client.go:130-146 | with honest reads, an error is logged if and only if the resource is missing or cannot be read, or it is behind and cannot be updated or has no entry |
| PollPass.QuietExactly | internal/controller/glideinmanager_client.go:130-146 | for all reads, nothing is logged if and only if the resource is seen at the commit, or the update is told that it is gone, truly or not, or there is an entry and the update is accepted or finds the resource gone |
| PollPass.CheckForGitUpdates | internal/controller/glideinmanager_client.go:121-148 | for all reads, the store after the pass is a function of the store before it, whatever the order; the log names exactly the resources with trouble; a failed sync changes nothing; resources at the commit that no old copy shows otherwise keep their version |
| PollPass.GitPassSyncs | internal/controller/pilotset_schemas.go:160-172 | after the pass every registered resource has had trouble, has vanished, or is at the commit if and only if no read misled its turn; one that was behind then has, field by field, path and commits of the update and the first entry for its namespace; nothing but the manifest changes |
| PollPass.GitPassSettles | internal/controller/glideinmanager_client.go:135-140 | a second pass at the same commit changes nothing |
| GitHistory.HistoryIsCoherent | internal/controller/pilotset_schemas.go:39-55 | over every history of turns at changing commits, with any failed calls, any old reads and other writers between any two turns, every stored manifest is the first entry for its namespace in the file at the commit it carries |
| GitHistory.SyncedUntilNextTurn | internal/controller/glideinmanager_client.go:121-148 | after a turn without trouble, whatever others do in between, the resource is at the commit with the first entry for its namespace until its next turn if and only if no read misled the turn |
| GitHistory.RegisteredAreSynced | internal/controller/glideinmanager_client.go:121-148 | after a pass from any store of such a history every registered resource has had trouble in it, has vanished, or is at the commit with the first entry for its namespace, whether it was behind or not, if and only if no read misled its turn |
| PollPass.SecretChangesExactly | internal/controller/glideinmanager_client.go:157-202 | for all reads, a pass changes a resource's tokens Secret if and only if the manifest, as seen, names a secret and a destination that the manager serves, the label seen is not the first 63 characters of the version, the value decodes, the update reaches the Secret as it is now, and there is something to change; then those characters are the label and the remote secret is placed |
| PollPass.SameLabelIsLeftAlone | internal/controller/glideinmanager_client.go:185-195 | a Secret seen with the first 63 characters of the version as its label is left alone |
| PollPass.FatalExactly | internal/controller/glideinmanager_client.go:178-200 | a handler brings the operator down if and only if it is served a version of fewer than 63 characters, or a secret is due on a Secret fetched without data |
| PollPass.CarryOut | internal/controller/glideinmanager_client.go:184-200 | for all reads: a short version panics; an equal one is passed over; else the secret is placed in this Secret only |
| PollPass.SecretTurn | internal/controller/glideinmanager_client.go:160-201 | for all reads, one handler's turn panics exactly in the fatal cases and else changes only its own tokens Secret |
| PollPass.PlaceSecret | internal/controller/glideinset_controller.go:152-156 | fetch, decode and write of one remote secret through the in-place edit, with its nil-map panic |
| PollPass.CheckForSecretUpdates | internal/controller/glideinmanager_client.go:157-202 | for all reads, the pass goes down exactly if some handler is fatal; otherwise the store after it is a function of the store before it, whatever the order |
| PollPass.SecretIsPlacedExactly | internal/controller/glideinmanager_client.go:184-200 | after a smooth turn that does not panic the label is the first 63 characters of the version; the value is at its destination if and only if the label was new and the destination is not the placeholder, or it was there before |

## Left out

- YAML templates, manifest decoding and the Deployment and data Secret built from them: a rendered object is an opaque value, and the child resources of a GlideinSet are one step that succeeds or fails.
- The Glidein Manager client, pod exec, file reads, base64 and random numbers: their answers are parameters.
- Real time, ticker periods, retry delays, logging, work queue and caches: ticks and registry operations are atomic steps, and one Reconcile runs at a time for each controller. Data races of the Go code on its maps are not modelled.
- The handshake goroutine and a loop that is busy when a stop is sent: a send is a meeting with a live loop, so how long the sender waits is not modelled. That one of the two loops can live on after a stop, and that a poller can start after it was dropped, is.
- Prometheus resources, `createRuntimeObjectIfNotExists`, the empty finalizer of the collection and its own finalizer handling: they would only repeat what is proved.
- Failures of `SetControllerReference`; errors of `setResourceValue`, which the code only logs and which the two creators modelled here never return.
- Server-side validation beyond versions, finalizers and deletion; in particular an empty destination basename is stored like any other key.
- Listings are of the present store; a listing from an old cache is not modelled.
- CollectionReconciler.ReconcileGlideinSets: surge before drain assumes that nobody else deletes a GlideinSet or releases one under deletion during the pass, and true look-ups before a create; with nobody else at work the exact condition is given instead. A settled end assumes that others meanwhile edit only existing GlideinSets, and of those neither spec nor labels. That the end equals the desired store of the start, and that a pass cut short does not move it, is stated with no other writer at work, because others may change what is desired.
- RetryUntilServed: with no other writer at work, for the same reason.
- NoOrphanClientsEver: assumes that no first fetch misleads, namespaces without slashes and that nobody else removes the operator's finalizer; GuidedExactly shows that the first premise is exact.
- NoOrphanWatchersEver: assumes besides that no add strands a registration; StrandingExactly shows that this premise is exact.
- WatchersAreAtHome: assumes fresh reads and manager URLs that stay, since a registration is moved only by the next Reconcile.
- RunsKeepThePicture: assumes no move to a URL without a poller; AddKeepsPictureExactly shows the premise is exact.
- Operator.Reconciler.Run: a restart of the operator is a step of the machine only.
- GitHistory.HistoryIsCoherent: assumes that manifests are written by git turns only.
- PollPass.CheckForGitUpdates, PollPass.CheckForSecretUpdates and TokenRefresh.HandleTokenUpdates: run with no other writer between their calls; for git turns, other writers in between are covered by GitHistory.SyncedUntilNextTurn.
- TokenRefresh.RefreshStopsWhenNested: is about Secrets that only the operator writes.
- VersionCoherence: is about Secrets created by the operator and remote secrets with a destination; Secrets edited from outside are not covered.
- CheckForSecretUpdates: says nothing about which Secrets were already written when the pass goes down, since that depends on the order.
- CollectorResources.RunReconciles: no outside deletion of the Secret during the run; after one, the next reconcile draws a new key.
