# Reconciliation protocol of the identity management operator

This project models what the controllers of the operator do to the Kubernetes objects they share, and proves
what that keeps. To check it, run `dafny verify dfyconfig.toml` in this directory.

Two state machines carry the main results.

**One cluster namespace** (`ClusterState`, `Aggregation`, `Hypershift`, `Backplane`, `ClusterOAuthController`,
`ClusterEvents`). The ClusterOAuth controller backs up the OAuth of a cluster, overwrites it with the aggregate of
all ClusterOAuths of the namespace, and restores it when the last one leaves. Each operation is an imperative method
on the class `ClusterStore`, proved equal to a function `…Pass(state, writes)` that says which state it leaves and
how it ends when the API server accepts at most `writes` more writes. Over all values of `writes` this covers every
place where a pass can be cut short. `Event` interleaves such passes with what users, agents and other controllers
do; for a cluster reached through ManifestWorks it includes the OAuth on the cluster itself and what the agent has
applied of each work. The results are in `RoundTrip` (hosted clusters), `BackplaneRoundTrip` (the others),
`Restoring`, `PushProperties`, `PassEndings` (exactly when a pass succeeds) and `RestoringLimits`; `LosingRuns`,
`NewcomerRun`, `ViewRuns` and `HostedLosingRuns` are runs that lose a user's OAuth. "The same OAuth" is always meant
field by field: kind, name and content (`ClusterState.SameOAuth`).

**The hub** (`Hub`). AuthRealms, strategies, placements, DexClients, client secrets, ClusterOAuths, Dex servers and
namespaces, changed by API writes of the placement, AuthRealm and ClusterOAuth controllers and by an environment.
`Enabled` says what the writing controller has checked in the same pass. The passes themselves are methods on the
class `HubStore` (`PlacementSync`, `PlacementCreate`, `PlacementController`, `AuthRealmSetUp`, `AuthRealmTeardown`).
Each returns, as a ghost, the run of writes it made and proves with `Leads` that every one of them was enabled, so
invariants of all runs hold after every prefix of every pass. The results are in `HubInvariant`, `HubLimits`,
`OrphanRun`, `PlacementSafety`, `PlacementController`, `BoundedSync` and `BoundedTeardown`. `ClusterOnHub` ties the
two machines together: what a pass of the first one does to the ClusterOAuths is a write of the second.

Four smaller parts stand beside them: the rewriting of a user's placement (`StrategyPlacement`), the strategy
controller with its owner references (`StrategyController`, `OwnerReferences`, `OwnershipRuns`), the status of an
AuthRealm as a map of maps (`Tables`, `AuthRealmStatus`), and the grouping of GitHub teams (`TeamGrouping`).

## What is presumed

- Passes of different controllers do not overlap, and reads answer truthfully; a write takes effect or fails and
  changes nothing.
- Realms present together differ in their sub-domain, in the name of their ClusterOAuths, and from the value `dex`
  (`WellNamed`). `Names.ClusterOAuthNamesClash` shows why the second part is needed.
- The manager chosen by strategy type and the one chosen by the hosting annotation agree: `BackplaneRoundTrip` is about
  clusters whose ClusterOAuths do not belong to the Hypershift strategy.
- Users change the OAuth of a cluster only while no ClusterOAuth is there (`UserEdits`), and others append only items
  that are not called `cluster`.
- The no-orphan invariant takes three things for granted about the writes of the placement controller
  (`PresumedOfPlacement`, `SyncPresumed`): clusters are configured through the strategy of their type, a placement
  lists the strategies that refer to it among its owners, and a cluster does not come back while its DexClient is
  still being deleted. `HubLimits.RunKeepsExactlyWhenHarmless` gives the exact condition for any run.

## Where the code does not keep a promise

For each of these there is an exact condition, or an input.

- For a cluster reached through ManifestWorks the original is really back when the backup goes exactly when the
  manifests that the agent applied last are those that restore it (`BackplaneRoundTrip.BackExactly`), and they hold
  the OAuth that the cluster had exactly when the view showed it (`BackplaneRoundTrip.SavedExactly`);
  `BackplaneRoundTrip.RestoredExactly` puts both together. Each part fails on a run from an unmanaged cluster:
  - The manager asks to wait by setting only the delay, which its caller does not test, so a first pass pushes before
    anything is saved (`RestoringLimits.PushedUnsaved`). If the agent applies that before the view is filled, the
    operator's own OAuth is saved and later restored as the original (`ViewRuns.SavesTooLate`,
    `ViewRuns.LosesOriginal`).
  - A view that could not be deleted after its result was saved is read again in the next cycle
    (`ViewRuns.RestoresReplaced`).
  - The backup is given up on an Applied condition that the restoring work had before the pass, whatever it was set
    for (`RestoringLimits.AppliedReadBeforehand`). `RestoringLimits.FreshExactly` says when it may have been set for
    other manifests, and `LosingRuns.LosesSecondOriginal` is a run that loses the OAuth that way.
  - Even the condition of the original itself says that the agent has applied it at some time, not that it applied it
    last: a ClusterOAuth that comes while another one is leaving has the operator's OAuth applied again
    (`NewcomerRun.LosesOriginal`).
- Leaving a hosted cluster without an OAuth item keeps the backup (`RestoringLimits.LeftoverBackup`), and the next
  cycle restores by it (`RoundTrip.SaveStarts`, `RoundTrip.RestoredExactly`); `HostedLosingRuns.LosesUsersOAuth` is a
  run from an unmanaged cluster that takes its user's OAuth away.
- The search for the OAuth item looks at the name only and may replace an item of another kind
  (`PushProperties.OtherKindsKept`, `PushProperties.OtherKindLost`).
- A ClusterOAuth that never got its finalizer can be the last one to leave, and nothing is restored
  (`RestoringLimits.UnprocessedLeavesUnrestored`, `RestoringLimits.LeavesWithoutPass`).
- A DexClient that is still being deleted is written again as if it were live (`HubLimits.ReturnsTooEarly`);
  `OrphanRun.ReachesOrphan` is a run to that from a hub on which nothing is set up.
- The shortened list of owner references is dropped; only the overwriting of one element is stored
  (`OwnerReferences.RemovedExactly`, `OwnerReferences.SharedPlacementStays`).
- An update of a strategy that is cut short leaves it unlisted among the owners of its placement in two windows
  (`StrategyController.TyingKeepsOwners`), and a deletion in a third (`StrategyController.LeaverListed`). Being listed
  is one of the three things that a sync takes for granted; `OwnershipRuns.RunKeepsExactly` says when it holds over a
  whole run of strategy passes.
- With two predicates or more, alternatives become conditions (`StrategyPlacement.RewritingDivides`); the comment on
  `addUserDefinedSelectors` speaks of appending the user's selectors.
- The flag of the team grouping is never reset (`TeamGrouping.GroupedCompletely`, `TeamGrouping.LosesTeam`).

## Model

| member | source | states |
|---|---|---|
| Aggregation.AggregateClusterOAuths | controllers/clusteroauth/clusteroauthmgr.go:74-110 | The result holds the entries of the live ClusterOAuths in list order; through the shared pointers each of their secret names has been prefixed exactly once, and those of deleting ones are untouched. |
| Aggregation.RenameNext | controllers/clusteroauth/clusteroauthmgr.go:99-107 | The assignment through one `OpenID` pointer changes that entry and no other one. |
| Aggregation.BuildSingleOAuth | controllers/clusteroauth/clusteroauthmgr.go:74-110 | Decoding, aggregating in place and encoding gives the document built from the stored list alone. |
| Aggregation.LiveProvidersExact | controllers/clusteroauth/clusteroauthmgr.go:90-108 | A provider is pushed if and only if it is a prefixed provider of a live ClusterOAuth. |
| Aggregation.LiveProvidersInOrder | controllers/clusteroauth/clusteroauthmgr.go:90-108 | What is pushed for two parts of the list is pushed one after the other. |
| Aggregation.LiveProvidersOfOne | controllers/clusteroauth/clusteroauthmgr.go:96-107 | For one ClusterOAuth it is nothing when it is deleting, and otherwise its providers in their order, changed in nothing but the prefix of the secret name. |
| ClusterState.NormaliseIsCanonical | controllers/clusteroauth/hypershift.go:66-74 | The canonical text has the kind, name and content of the document, undecodable text stays as it is, and two texts have the same canonical one exactly when they are the same document. |
| HypershiftManager.FirstNamed | controllers/clusteroauth/hypershift.go:275-298 | The result is the first item with the name, whatever its kind, or -1 when no decodable item has it. |
| HypershiftManager.HypershiftDeployment.SearchConfiguration | controllers/clusteroauth/hypershift.go:266-298 | The search finds the first named item, gives the object a configuration when it has none, and changes neither items nor references. |
| HypershiftManager.Save | controllers/clusteroauth/hypershift.go:40-77 | With any number of writes left: an existing backup is kept; otherwise the backup of the current items is created, empty when there is no OAuth; anything but one deployment is an error. What it holds is said field by field by `RoundTrip.SaveStarts` and `ClusterState.NormaliseIsCanonical`. |
| HypershiftManager.CopySecretsOf | controllers/clusteroauth/hypershift.go:128-178 | The secrets are copied one by one until one is missing or a write fails, and references are added once per provider only if the name was not referenced before the loop. |
| HypershiftManager.Push | controllers/clusteroauth/hypershift.go:79-193 | The first item with the name is replaced, or one is appended; secrets are copied first, and the deployment is only written when all copies succeeded; a failed write leaves the copies made so far. |
| HypershiftManager.Unmanage | controllers/clusteroauth/hypershift.go:200-264 | The last deleting ClusterOAuth puts the saved item back at its index or swaps the operator's item out, then deletes the backup; any other one pushes again without saving. |
| BackplaneManager.Save | controllers/clusteroauth/backplane.go:43-130 | The view is applied, the result collected into the backup once it is there, and the view deleted; until then the pass only asks for a delay. |
| BackplaneManager.AddSecretsOf | controllers/clusteroauth/backplane.go:170-216 | One secret manifest per provider is appended, and a missing client secret ends the loop with an error. |
| BackplaneManager.Push | controllers/clusteroauth/backplane.go:132-244 | The work holds the aggregated role, the client secrets and the single OAuth in this order, or nothing is written. |
| BackplaneManager.CreateOrUpdateManifestWork | controllers/clusteroauth/backplane.go:262-288 | An existing work keeps its status and its deletion mark and gets the new manifests. |
| BackplaneManager.DeleteManifestWork | controllers/clusteroauth/backplane.go:420-440 | A work that exists and is not being deleted yet is deleted; otherwise nothing is written. |
| BackplaneManager.Unmanage | controllers/clusteroauth/backplane.go:291-418 | The last deleting ClusterOAuth deletes the pushed work, writes the original, stops with an error unless that work is applied, deletes the backup and then the work; any other one pushes again. What the work holds is said by `Restoring.WritesOriginal`. |
| ClusterOAuthController.Reconcile | controllers/clusteroauth/clusteroauth_controller.go:91-165 | A missing object is done; a deleting one is released only after its deletion pass succeeded; any other one is processed, which is an error as well when the status cannot be updated. |
| ClusterOAuthController.ProcessClusterOAuth | controllers/clusteroauth/clusteroauth_controller.go:167-206 | Finalizer first, then Save and Push of the manager of the strategy type; a delay asked for by Save does not stop the Push. |
| ClusterOAuthController.DeleteClusterOAuth | controllers/clusteroauth/clusteroauth_controller.go:209-227 | The manager is chosen by the hosting annotation; an AuthRealm whose status row cannot be cut, or a missing ManagedCluster, is an error. |
| ClusterOAuthController.UnmanageKeepsOAuths | controllers/clusteroauth/hypershift.go:200-264 | Managing a cluster never changes the list of ClusterOAuths, and ends with success or an error only. |
| ClusterOAuthController.SaveKeepsOAuths | controllers/clusteroauth/backplane.go:43-130 | Saving never asks for a requeue in the way its caller tests, and only Backplane asks for a delay. |
| RoundTrip.RestoresWhatWasSaved | controllers/clusteroauth/hypershift.go:40-264 | From a Save that created the backup, or found one that holds the OAuth of the current items, through any run in which the backup exists and no user changes the OAuth, to the pass that removes it or releases the last ClusterOAuth: every configuration item is the saved one, except that the OAuth, at its old index with its kind, name and content, may be spelled differently; or they are the same items without the operator's: the same sequence when nobody else appended, the same multiset otherwise. |
| RoundTrip.SaveStarts | controllers/clusteroauth/hypershift.go:40-77 | A completed Save makes the current items the base of a round trip, with a backup of the same kind, name and content as their OAuth, exactly when it created the backup or found one that holds this. |
| RoundTrip.RestoredExactly | controllers/clusteroauth/hypershift.go:219-237 | Restoring items that have only been pushed over gives back what was there, field by field, exactly when the backup in use holds its OAuth, or nothing when it had none. |
| RoundTrip.StepTracks | controllers/clusteroauth/hypershift.go:79-264 | Every event but a change by a user keeps the items related to the saved ones: only the OAuth differs at its index, or one item of that name is extra. |
| RoundTrip.RestoreTracks | controllers/clusteroauth/hypershift.go:219-237 | With their own backup, restoring items that track the saved ones gives those back; the swap with the last item loses nothing else. |
| RoundTrip.RunInOrder | controllers/clusteroauth/hypershift.go:103-110 | Without an original OAuth and without appends of others, the items are at all times the original sequence, or that and the operator's item at the end. |
| Restoring.BackupSurvives | controllers/clusteroauth/clusteroauthmgr.go:54-72 | No event changes the backup, except that a pass for the sole, deleting ClusterOAuth removes it; cut short one write earlier that pass leaves the backup in place and the original written. That is confirmed exactly when the cluster is hosted or the Applied condition was that of the original, and the original is really back exactly when the cluster is hosted or had it before the pass. |
| Restoring.NeverLost | controllers/clusteroauth/backplane.go:299-418 | Over any run the backup has its value in every state up to the end, or up to a pass that took it away and had written the original just before; confirmed or not and really back or not exactly as it was before that pass. |
| Restoring.FreshIsConfirmed | controllers/clusteroauth/backplane.go:291-418 | From a state in which no Applied condition of other manifests is there or can come, no run gives the original up before the agent has applied it at some time. |
| Restoring.SaveIsFresh | controllers/clusteroauth/backplane.go:43-130 | A Save leads to such a state when the work of an earlier cycle is gone. |
| Restoring.CutShort | controllers/clusteroauth/backplane.go:341-418 | Just before the backup goes, the original is written into the deployment or into a work with an Applied condition; for a cluster that is not hosted that condition is the original's exactly when it was before the pass, and the original is the OAuth of the cluster exactly when it was before the pass. |
| Restoring.WritesOriginal | controllers/clusteroauth/backplane.go:341-400 | Whenever a restoring pass has got as far as the work, its manifests are exactly one document, of the kind, name and content that were saved, and then the aggregated role. |
| Restoring.Release | controllers/clusteroauth/clusteroauth_controller.go:124-136 | A pass that releases a ClusterOAuth finished the restore branch if it was the only one, and otherwise pushed exactly the providers of those that stay. |
| Restoring.LastLeaverRestores | controllers/clusteroauth/clusteroauth_controller.go:209-227 | In any interleaving in which no ClusterOAuth is deleted before it has its finalizer, the namespace only becomes empty by a pass that finished the restore branch. |
| Restoring.EmptiedExactly | controllers/clusteroauth/clusteroauth_controller.go:124-136 | A step that empties the namespace is a pass that finished the restore branch exactly when it is not the deletion of a ClusterOAuth without finalizer. |
| PassEndings.LastLeaveEnds | controllers/clusteroauth/clusteroauth_controller.go:124-136 | The last leave succeeds exactly when it can be reported, the ManagedCluster is there, the one deployment is there or the restoring work carries an Applied condition, and the writes suffice, counted one by one. |
| PassEndings.EarlierLeaveEnds | controllers/clusteroauth/clusteroauth_controller.go:209-227 | Any other leave succeeds exactly when it can be reported, the ManagedCluster and every client secret are there, a hosted cluster has its one deployment, and the writes suffice for the push and the release. |
| PassEndings.ProcessEnds | controllers/clusteroauth/clusteroauth_controller.go:167-206 | Processing succeeds exactly when the strategy is there and supported, every client secret is there, a hosted cluster is managed and has its one deployment, and the writes suffice; nothing happens before the finalizer is set. |
| PassEndings.DoneIsReported | controllers/clusteroauth/clusteroauth_controller.go:140-163 | A pass that ends well could be reported, or there was nothing to do. |
| PassEndings.HostedPushEnds | controllers/clusteroauth/hypershift.go:79-193 | A push succeeds exactly when the ManagedCluster, its one deployment and every client secret are there and the writes suffice; the deployment is as it was until the last write. |
| PassEndings.HostedSaveEnds | controllers/clusteroauth/hypershift.go:40-77 | Saving succeeds exactly when a backup is there, or one deployment and a write. |
| PassEndings.SaveEnds | controllers/clusteroauth/backplane.go:43-130 | Saving fails exactly when the writes do not suffice, and asks for a delay exactly when there is neither a backup nor a result of the view. |
| PassEndings.PushEnds | controllers/clusteroauth/backplane.go:132-244 | A push succeeds exactly when every client secret and a write are there, and otherwise changes nothing. |
| ClusterOnHub.PassOnHub | controllers/clusteroauth/clusteroauth_controller.go:91-165 | What a pass does to the ClusterOAuths of a namespace is on the hub nothing, the finalizer of a live one, or the release of one in deletion, each as the hub machine makes it. |
| RestoringLimits.LeftoverBackup | controllers/clusteroauth/hypershift.go:214-247 | After a successful last leave of a hosted cluster the backup is left exactly when there was one and no item to put it into. |
| RestoringLimits.PushedUnsaved | controllers/clusteroauth/clusteroauth_controller.go:192-206 | A first Backplane pass pushes in any case; a backup exists afterwards exactly when there was one or the view had a result. |
| RestoringLimits.AppliedReadBeforehand | controllers/clusteroauth/backplane.go:402-418 | The backup goes exactly when the restoring work carried an Applied condition before the pass wrote the original into it, whatever manifests that was set for. |
| RestoringLimits.FreshExactly | controllers/clusteroauth/backplane.go:291-418 | For a last leaver, no run gives the original up on an Applied condition of other manifests exactly when the restoring work has no such condition and its agent will not set one. |
| LosingRuns.CycleManages | controllers/clusteroauth/backplane.go:43-244 | The passes of one cycle of an unmanaged cluster, with its agent and its view, lead to the saved original and the pushed OAuth on the cluster. |
| LosingRuns.LeaveRestores | controllers/clusteroauth/backplane.go:291-418 | The passes of the first leave, with the agent applying the original in between, put the cluster's own OAuth back and leave the restoring work in deletion. |
| LosingRuns.LosesSecondOriginal | controllers/clusteroauth/backplane.go:299-322 | A run of two cycles from an unmanaged cluster, with the work of the first still held, after which the OAuth that the user had put there in between is neither on the cluster nor saved. |
| NewcomerRun.LosesOriginal | controllers/clusteroauth/backplane.go:291-418 | A run of one cycle from an unmanaged cluster without works, in which a second ClusterOAuth comes and goes while the first is leaving: the state after the cycle is fresh, the agent applies the original but not last, and in the end nothing is left but the operator's OAuth on the cluster. |
| ViewRuns.SavesTooLate | controllers/clusteroauth/clusteroauth_controller.go:192-206 | A run from an unmanaged cluster in which the agent applies what the first pass pushed before the view is filled: the backup is the operator's own OAuth. |
| ViewRuns.LosesOriginal | controllers/clusteroauth/backplane.go:82-130 | The same run, continued through the leave: there is no ClusterOAuth, no backup and no work of the operator left, and its OAuth is on the cluster. |
| ViewRuns.RestoresReplaced | controllers/clusteroauth/backplane.go:43-130 | A run of two cycles, the pass that saves in the first one cut short before it deletes the view: the second cycle saves what the old view shows, and the leave replaces the OAuth that the user had put there in between. |
| HostedLosingRuns.LosesUsersOAuth | controllers/clusteroauth/hypershift.go:48-77 | A run of two cycles from an unmanaged hosted cluster, the first cut short between Save and Push, after which the OAuth that the user had added in between is gone. |
| BackplaneRoundTrip.SavedExactly | controllers/clusteroauth/backplane.go:82-130 | What is saved is what the view shows: the OAuth that the cluster had when the view was last filled, by what the agent had applied until then, or an older one when the view was left by an earlier cycle. |
| BackplaneRoundTrip.BackExactly | controllers/clusteroauth/backplane.go:299-418 | From any managed cluster with its own OAuth saved, through any run to the pass that gives the backup up: the original is really back, in kind, name and content, exactly when the manifests that the agent applied last hold it and the role, or when the cluster had it already and the agent has applied nothing else; only the first, when there is no restoring work at the start. |
| BackplaneRoundTrip.RestoredExactly | controllers/clusteroauth/clusteroauth_controller.go:167-227 | From an unmanaged cluster, whatever an earlier cycle has left there, through the pass that saves to the pass that gives the backup up, in any run: the cluster has its own OAuth again, in kind, name and content, exactly when the view showed that OAuth and the manifests that the agent applied last hold what was saved and the role, or the agent has applied nothing, or only a work of an earlier cycle with the same OAuth. |
| RestoringLimits.UnprocessedLeavesUnrestored | controllers/clusteroauth/clusteroauth_controller.go:124-136 | A run in which one ClusterOAuth leaves while another one never got its finalizer ends with an empty namespace and the operator's OAuth in place. |
| RestoringLimits.LeavesWithoutPass | controllers/clusteroauth/clusteroauth_controller.go:167-175 | Deleting the only ClusterOAuth empties the namespace at once exactly when it has no finalizer. |
| PushProperties.PushTwice | controllers/clusteroauth/hypershift.go:79-193 | A second successful push leaves items, references and copied secrets as the first left them. |
| PushProperties.OtherKindsKept | controllers/clusteroauth/hypershift.go:275-283 | A push leaves every item of another kind as it was exactly when no item has the name of the OAuth or the first that has it is an OAuth. |
| PushProperties.OtherKindLost | controllers/clusteroauth/hypershift.go:103-110 | An input whose item of another kind is replaced. |
| PushProperties.DuplicateRefs | controllers/clusteroauth/hypershift.go:124-178 | References stay free of duplicates exactly when every live ClusterOAuth that is not referenced yet has at most one provider. |
| PushProperties.CopiedSecrets | controllers/clusteroauth/hypershift.go:140-170 | A completed copy leaves the current data under every pushed name and every other entry as it was. |
| PushProperties.NamedSecrets | controllers/clusteroauth/clusteroauthmgr.go:90-108 | Every secret named in a pushed OAuth is the prefixed name of a live ClusterOAuth whose secret the push reads. |
| PushProperties.SecretPerProvider | controllers/clusteroauth/hypershift.go:128-178 | The push reads one client secret per pushed provider, in the same order, and it is the one that the provider names. |
| PushProperties.PushedWorkExactly | controllers/clusteroauth/backplane.go:160-240 | The pushed work holds the aggregated role, the secret of each pushed provider with its data in the order of the providers, the single OAuth, and nothing else. |
| PushProperties.HypershiftReferencesClosed | controllers/clusteroauth/hypershift.go:124-183 | After a push every named secret is in the namespace of the deployment with the data of the client secret, and listed in its references. |
| PushProperties.BackplaneReferencesClosed | controllers/clusteroauth/backplane.go:170-235 | After a push every named secret is a manifest, with its data, of the same work as the OAuth. |
| Names.DexServerNamespaceInjective | pkg/helpers/names.go:80-82 | Sub-domains have different Dex namespaces, and only `dex` has that of the operator. |
| Names.RedirectCallsBack | controllers/placement/dex.go:160-262 | The redirect begins with the callback host and ends with the provider name, and providers of one host have different ones. |
| Names.DexClientNameInjective | pkg/helpers/names.go:84-89 | For one realm, clusters have different DexClient names. |
| Names.StrategyNameInjective | pkg/helpers/names.go:113-115 | No two pairs of realm and type share a strategy name. |
| Names.ClusterOAuthNameInjective | pkg/helpers/names.go:91-101 | Realms that share a namespace or a name have different ClusterOAuth names. |
| Names.ClusterOAuthNamesClash | pkg/helpers/names.go:97-101 | Realms of different namespaces may share one. |
| PlacementSync.DeleteClientSecrets | controllers/placement/dex.go:265-315 | The client secrets of the ClusterOAuths owned by a strategy of the placement are gone, and exactly those ClusterOAuths are collected. |
| PlacementSync.DeleteClusterOAuthConfig | controllers/placement/dex.go:265-351 | Unless a write fails, the client secrets of the owned ClusterOAuths are gone, every owned ClusterOAuth of the cluster that is left is being deleted, and it ends with success exactly when none is left; those of other strategies stay as they are. |
| PlacementSync.InPlacementDecision | controllers/placement/common.go:191-208 | True exactly for the decided clusters. |
| PlacementSync.DeleteDexClients | controllers/placement/dex.go:85-97 | Only DexClients of cleared clusters are deleted, each when no owned ClusterOAuth stands on it; unless a write fails, those that are left are being deleted. |
| PlacementSync.DeleteObsoleteConfigs | controllers/placement/dex.go:44-116 | Unless a write fails, it ends with success exactly when every DexClient of the type that is left belongs to a decided cluster of a live realm; otherwise it waits for the ClusterOAuths of one obsolete cluster, all being deleted, or for the obsolete DexClients, all being deleted. DexClients that are not obsolete never change, and every write was an enabled one. |
| PlacementCreate.CreateClientSecret | controllers/placement/common.go:24-54 | An existing secret keeps its random value. |
| PlacementCreate.CreateDexClient | controllers/placement/dex.go:153-263 | The DexClient has client ID, secret and callback of its cluster; other clusters stay as they are, and an existing one keeps label, finalizer and deletion mark. |
| PlacementCreate.CreateClusterOAuth | controllers/placement/common.go:56-163 | The ClusterOAuth refers to realm, strategy and DexClient and has the provider of the realm; an existing one keeps finalizer and deletion mark, a new one has neither. |
| PlacementCreate.CreateConfigs | controllers/placement/dex.go:118-151 | On success every decided cluster is settled; it fails only on a failing write or an unknown address; on settled clusters it changes nothing, including secret values; only objects of decided clusters change, and nothing at all for a realm in deletion. |
| PlacementCreate.SyncDexClients | controllers/placement/dex.go:29-42 | A sync that succeeds leaves the realm in step with the decisions, every address being known; it waits only for obsolete DexClients, and fails only on a failing write or an unknown address. |
| BoundedSync.SyncIsBounded | controllers/placement/dex.go:44-116 | Syncs of one strategy wait at most once for each obsolete DexClient whose cluster has ClusterOAuths of the owners, and once more for the DexClients, provided that the deletions that were issued complete between the passes and nothing obsolete comes back; passes that fail do not count. |
| BoundedSync.ThenInStep | controllers/placement/dex.go:26-116 | After that many waits a sync that does not fail ends with success, in step. |
| BoundedSync.WaitingMakesProgress | controllers/placement/dex.go:265-351 | A pass that waits, once its deletions have completed, lowers what is left to wait for. |
| BoundedSync.ReleaseIsBounded | controllers/placement/placement_controller.go:177-203 | A placement in deletion is waited for at most once per decided cluster that still has a ClusterOAuth of the owners. |
| PlacementCreate.InStepStays | controllers/placement/dex.go:29-151 | A realm that is in step stays so during the sync of another live realm that shares the placement. |
| PlacementCreate.SyncIsExact | controllers/placement/dex.go:29-151 | In step means: the DexClients of the type in the Dex namespace are exactly those of the decided clusters, one each, and none for a realm in deletion. |
| PlacementCreate.SettledAgree | controllers/placement/dex.go:180-240 | Client ID, secret, callback, provider name, realm and strategy agree between the DexClient and the ClusterOAuth. |
| PlacementCreate.SettledIsPushable | controllers/placement/common.go:125-142 | So such a ClusterOAuth meets what closed references need. |
| PlacementSafety.SyncWritePresumed | controllers/placement/dex.go:44-151 | What a sync takes for granted at its start justifies each of its writes when it is made. |
| PlacementSafety.DecidedNotDeleted | controllers/placement/dex.go:64-97 | A sync deletes no DexClient of a decided cluster of any live realm. |
| PlacementSafety.SyncKeeps | controllers/placement/dex.go:29-151 | Every prefix of a sync keeps the invariant of the hub. |
| PlacementController.StrategiesOf | controllers/placement/common.go:165-189 | Exactly the strategies of the namespace that refer to the placement. |
| PlacementController.ProcessStrategies | controllers/placement/placement_controller.go:133-162 | One sync per strategy leaves no orphan wherever it is cut short; with success every strategy is in step that shares the placement with none or with strategies of other, live realms; it waits only for an obsolete DexClient, and fails only on a failing write, a missing AuthRealm, an unknown address or a refused status update. |
| PlacementController.ProcessPlacementUpdate | controllers/placement/placement_controller.go:133-162 | The finalizer comes before everything else; afterwards as above. |
| PlacementController.ReleasePlacement | controllers/placement/placement_controller.go:91-103 | Unless a write fails, a placement in deletion goes exactly when no ClusterOAuth of its strategies is left in a decided cluster; no DexClient changes. |
| PlacementController.Reconcile | controllers/placement/placement_controller.go:78-121 | No pass of the placement controller, cut short anywhere, leaves an orphan; a missing placement is done, and the others end as said for their update or their deletion. |
| HubInvariant.NoOrphanEver | controllers/placement/dex.go:44-351 | After every prefix of every run, each ClusterOAuth has the live DexClient of its realm and cluster, labelled with that cluster. |
| HubInvariant.ActionKeeps | controllers/placement/dex.go:44-351 | Each single write of any controller, and each step of the environment, keeps the invariant. |
| HubInvariant.WriteOAuthKeeps | controllers/placement/dex.go:118-151 | Writing a ClusterOAuth keeps the invariant exactly when its DexClient is not being deleted. |
| HubInvariant.RealmsAreFound | controllers/clusteroauth/authrealm_status.go:63-72 | A ClusterOAuth or a strategy always finds its AuthRealm. |
| HubInvariant.TeardownOrder | controllers/authrealm/authrealm_controller.go:92-102 | An AuthRealm with its finalizer disappears only by its own release, when no DexClient, Dex server, Dex namespace, strategy or ClusterOAuth of it is left. |
| HubInvariant.RealmKeeps | controllers/authrealm/authrealm_controller.go:130-178 | Every write of the AuthRealm controller keeps the invariant, with nothing taken for granted. |
| HubLimits.KeepsExactlyWhenHarmless | controllers/placement/dex.go:44-351 | A write of the placement controller keeps the invariant exactly when it is harmless. |
| HubLimits.RunKeepsExactlyWhenHarmless | controllers/placement/dex.go:44-351 | A run keeps the invariant in every state exactly when each such write is harmless. |
| HubLimits.OwnersNotListed | controllers/placement/dex.go:282-293 | A placement whose owners do not include the strategies of a configured cluster may delete its live DexClient, and leaves an orphan. |
| HubLimits.ReturnsTooEarly | controllers/placement/dex.go:118-151 | A ClusterOAuth written while its DexClient is being deleted has none once that deletion completes. |
| OrphanRun.ReachesOrphan | controllers/placement/dex.go:44-263 | For any realm and cluster, a run of enabled writes from a hub on which nothing is set up ends with a ClusterOAuth that has no DexClient. |
| HubLimits.HoldsAtFirst | controllers/authrealm/authrealm_controller.go:130-138 | The invariant holds before anything is set up. |
| AuthRealmSetUp.CreateDexServer | controllers/authrealm/dex.go:224-287 | The Dex namespace is there unless a write failed, and the Dex server too unless it could not be specified; existing ones stay as they are. |
| AuthRealmSetUp.CreateStrategies | controllers/authrealm/strategy.go:19-53 | On success both exist; existing ones stay, and a new one belongs to the realm, has its type in its name and refers to no placement. |
| AuthRealmSetUp.ProcessAuthRealmUpdate | controllers/authrealm/authrealm_controller.go:130-167 | The realm holds its finalizer before anything of it exists; success means it is set up; a realm that is set up is left alone; it fails only on a failing write or for want of operator or specification; the invariant is kept. |
| AuthRealmSetUp.Reconcile | controllers/authrealm/authrealm_controller.go:69-128 | Every pass of the controller keeps the invariant, does nothing for a missing realm, and follows the stages for one in deletion; for a live realm success means that it is set up, with operator and server there when it uses Dex, and it fails only on a failing write, a status that cannot be updated, or a Dex operator or server that could not be specified. |
| AuthRealmTeardown.ProcessDexServerDeletion | controllers/authrealm/dex.go:505-554 | It waits for DexClients without deleting them, deletes all Dex servers and waits, deletes the namespace and waits, and succeeds only when none of them is left. |
| AuthRealmTeardown.DeleteStrategies | controllers/authrealm/strategy.go:55-89 | One strategy is deleted per pass, and success means that both are gone. |
| AuthRealmTeardown.DeleteDexOperator | controllers/authrealm/dex.go:142-201 | While a live AuthRealm uses Dex nothing is deleted; otherwise namespace, role binding and role go one per pass. |
| AuthRealmTeardown.LiveDexRealms | controllers/authrealm/dex.go:148-156 | The count is zero exactly when every AuthRealm that uses Dex is in deletion. |
| AuthRealmTeardown.ProcessAuthRealmDeletion | controllers/authrealm/authrealm_controller.go:169-178 | It succeeds only when no stage is left, and otherwise did exactly the deletions of the first stage. |
| AuthRealmTeardown.Release | controllers/authrealm/authrealm_controller.go:92-102 | A pass that waits has issued the deletions of one stage; the realm goes exactly when no stage is left; a pass fails only on a failing write, and then changed nothing or deleted some of the Dex servers. |
| BoundedTeardown.TeardownIsBounded | controllers/authrealm/authrealm_controller.go:169-178 | Once the DexClients are gone, any teardown waits at most 4 times while another live AuthRealm uses Dex, whatever that one does to the operator, and at most 7 times when nobody installs the operator again; the other controllers may do anything else in between, and failed passes do not count. |
| BoundedTeardown.ThenReleased | controllers/authrealm/authrealm_controller.go:92-102 | After that many waits a pass that does not fail releases the realm, with nothing of it left. |
| BoundedTeardown.WaitingMakesProgress | controllers/authrealm/dex.go:142-201 | A pass that waits, once its deletions have completed, lowers what is left; while the operator is needed, what is left of the realm's own objects. |
| BoundedTeardown.RunBringsNothing | controllers/authrealm/authrealm_controller.go:130-167 | Nothing of a realm in deletion comes back in any run of the other controllers and the environment. |
| BoundedTeardown.OperatorUntouched | controllers/authrealm/dex.go:148-157 | While another live AuthRealm uses Dex no pass touches the objects of the operator. |
| BoundedTeardown.NothingLeft | controllers/authrealm/authrealm_controller.go:169-178 | No stage is left exactly when nothing of the realm is left and the operator is gone or needed. |
| StrategyPlacement.Placement.AddUserDefinedSelectors | controllers/strategy/common.go:36-49 | The first predicate gets the expressions of all user predicates and the match labels of the last. |
| StrategyPlacement.Placement.Enrich | controllers/strategy/strategy_controller.go:172-184 | Whatever the placement selected before, it has the one rewritten predicate now, so nothing accumulates; other types are an error and change nothing. |
| StrategyPlacement.RewrittenSelects | controllers/strategy/backplane_strategy.go:19-31 | A rewritten placement selects exactly the clusters of its kind that meet every expression and the last match labels. |
| StrategyPlacement.RewritingDivides | controllers/strategy/common.go:36-49 | For any number of predicates the two placements are disjoint, and together select exactly those clusters of the user's selection that meet every expression and the last match labels. |
| StrategyPlacement.OnePredicateIsExact | controllers/strategy/hypershift_strategy.go:18-30 | With at most one predicate their union is the user's selection. |
| StrategyPlacement.ExactForAll | controllers/strategy/common.go:36-49 | For any list the union is the user's selection exactly when every cluster of it meets every expression and the last match labels. |
| StrategyPlacement.TwoPredicatesLoseClusters | controllers/strategy/common.go:36-49 | With two predicates a selected cluster can be in neither. |
| OwnerReferences.IsLastOwnerReference | controllers/strategy/strategy_controller.go:300-303 | True exactly for a list of this owner alone; an empty list is a run-time panic. |
| OwnerReferences.RemoveOwnerReference | controllers/strategy/strategy_controller.go:305-318 | The returned list has one occurrence less; the array itself has its last occurrence overwritten. |
| OwnerReferences.ReleasePlacement | controllers/strategy/strategy_controller.go:279-290 | What a deletion pass decides about the placement, and the references it stores. |
| OwnerReferences.RemovedExactly | controllers/strategy/strategy_controller.go:287-290 | The strategy is gone from the stored list exactly when it was not in it or was in it once and not at the end; the list is never shorter. |
| OwnerReferences.SharedPlacementStays | controllers/strategy/strategy_controller.go:279-290 | A placement with two owners or more is never found to have a last owner, however many strategies are deleted. |
| StrategyController.ProcessStrategyUpdate | controllers/strategy/strategy_controller.go:141-210 | In this order, and no further than writes succeed: finalizer, reference, placement. Success ties the strategy to the placement made for it; without the user placement, those made from it are deleted, and no others. It fails only on a failing write, a missing AuthRealm or an unsupported type. |
| StrategyController.DeleteStrategyPlacement | controllers/strategy/strategy_controller.go:213-232 | Only placements made from the given one go; on success all of them have gone or are being deleted. |
| StrategyController.TyingAgainChangesNothing | controllers/strategy/strategy_controller.go:234-263 | A second update of a tied strategy changes nothing. |
| StrategyController.Release | controllers/strategy/strategy_controller.go:265-298 | A strategy goes exactly when its placement is missing or has other owners; as the only owner it deletes the placement and waits. |
| StrategyController.OwnerLeftBehind | controllers/strategy/strategy_controller.go:287-290 | After the strategy is gone its placement still lists it exactly when it was listed last or more than once. |
| StrategyController.TyingKeepsOwners | controllers/strategy/strategy_controller.go:172-206 | An update cut short anywhere leaves every strategy listed among the owners of the placement it refers to, except exactly between its own two last writes, and when the missing placement of another one is made. |
| StrategyController.UntyingKeepsOwners | controllers/strategy/strategy_controller.go:279-290 | A deletion pass, cut short anywhere, leaves every other strategy listed. |
| StrategyController.DeletingKeepsOwners | controllers/strategy/strategy_controller.go:213-232 | Deleting the placements made from one that is gone leaves every strategy listed. |
| StrategyController.LeaverListed | controllers/strategy/strategy_controller.go:287-290 | Between its two writes the leaving strategy is listed exactly when it was listed twice or at the end. |
| OwnershipRuns.PassKeepsExactly | controllers/strategy/strategy_controller.go:141-298 | A pass from a state in which every strategy is listed, cut short anywhere, leaves every strategy listed exactly when it was not cut in one of the two windows of an update or between the two writes of a deletion that takes the strategy off the list. |
| OwnershipRuns.RunKeepsExactly | controllers/strategy/strategy_controller.go:141-298 | Over any run of such passes and of others that leave owners and references alone, every strategy is listed at all times exactly when no pass was cut in a window. |
| OwnershipRuns.ListedMeansOwners | controllers/placement/dex.go:271-290 | On a hub that shows these objects, the owners of every placement name the strategies that refer to it exactly when every strategy is listed. |
| OwnershipRuns.OwnersNeedNotBePresumed | controllers/placement/dex.go:265-315 | After a run without such cuts, what a sync takes for granted comes down to the type of the decided clusters and to none of them returning. |
| Tables.UpsertIsMapUpdate | pkg/helpers/conditions.go:29-55 | Replacing the first row of a name, or appending one, is the update of one key. |
| Tables.RemoveIsMapRemoval | controllers/clusteroauth/authrealm_status.go:74-79 | With distinct names, cutting a row is the removal of one key. |
| Tables.RemovalExactly | controllers/clusteroauth/authrealm_status.go:74-79 | In general it is exactly when the name has no second row. |
| AuthRealmStatus.MergeStatusConditions | pkg/helpers/conditions.go:15-27 | The loop upserts every new condition by type, in order. |
| AuthRealmStatus.MergedIsOverride | pkg/helpers/conditions.go:15-27 | Types stay distinct, and each has its last new condition or else the old one. |
| AuthRealmStatus.FindRow | pkg/helpers/conditions.go:29-55 | The index searches find the first row of a name. |
| AuthRealmStatus.AuthRealm.UpdateStrategyConditions | controllers/strategy/authrealm_status.go:29-44 | The row of the strategy is found or appended, and gets its conditions. |
| AuthRealmStatus.AuthRealm.UpdatePlacementStatus | controllers/placement/authrealm_status.go:24-46 | The row of the strategy is found or appended, and gets the placement status. |
| AuthRealmStatus.AuthRealm.UpdateClusterOAuthConditions | controllers/clusteroauth/authrealm_status.go:34-61 | Without the strategy an error; otherwise the row of the cluster is found or appended, and the conditions are merged. |
| AuthRealmStatus.AuthRealm.DeleteConditions | controllers/clusteroauth/authrealm_status.go:63-82 | The row of the cluster is cut when it is there. |
| AuthRealmStatus.AuthRealm.UpdateManifestWorkConditions | controllers/manifestwork/authrealm_status.go:22-39 | Without strategy or cluster an error; otherwise the work status is replaced, or cleared on deletion. |
| AuthRealmStatus.AuthRealm.UpdateHypershiftDeploymentConditions | controllers/hypershiftdeployment/authrealm_status.go:25-59 | Without strategy, cluster or work an error that stores nothing; otherwise deployment and work status are replaced, or both cleared on deletion. |
| AuthRealmStatus.AppliedIsMapUpdate | controllers/clusteroauth/authrealm_status.go:34-82 | Each report is one update or removal at its key of the map of maps, and names stay distinct. |
| AuthRealmStatus.StatusRefinesMap | pkg/helpers/conditions.go:15-55 | Over any sequence of reports of the five controllers the nested rows refine the map of maps. |
| AuthRealmStatus.ReportShows | controllers/clusteroauth/authrealm_status.go:34-82 | Field by field and for every kind of report, what the map shows at the key after it: the reported parts, with conditions of a ClusterOAuth merged over the old ones, and every other part as it was; a report is refused exactly when there is no place for it, and then changes nothing. |
| AuthRealmStatus.OthersUnchanged | controllers/hypershiftdeployment/authrealm_status.go:25-59 | A report leaves other strategies, and other clusters of its strategy, as they were. |
| TeamGrouping.Split | controllers/authrealm/dex.go:379-380 | The parts hold no slash, and joined by slashes they are the text again. |
| TeamGrouping.GroupTeams | controllers/authrealm/dex.go:376-396 | For every input the slots are exactly: one for each entry before the first whose organisation is found again, with all teams of that organisation in order; in the next slot the teams without an organisation, unless they have one of their own; nothing in the rest. |
| TeamGrouping.FirstFound | controllers/authrealm/dex.go:382-393 | The first entry without a slot of its own has an organisation that was seen before, or an empty one. |
| TeamGrouping.GroupedCompletely | controllers/authrealm/dex.go:376-396 | Every entry is grouped exactly when each one after the opened slots has no organisation, or one with a slot. |
| TeamGrouping.LosesTeam | controllers/authrealm/dex.go:382-393 | An input that loses an entry. |

## Left out

- BoundedTeardown.TeardownIsBounded: presumes that the deletions of the realm's own objects complete before the next pass and, for the bound of 7, that those of the operator do and nobody installs it again; the DexClients have to be gone, since waiting for them has no bound.
- AuthRealmSetUp.ProcessAuthRealmUpdate: whether the Dex operator could be installed and the Dex server specified are inputs; the applied templates, connectors and certificates are not modelled.
- AuthRealmSetUp.CreateDexServer: what the specification of the server says is left out.
- BoundedSync.SyncIsBounded: presumes that the deletions a pass has issued complete before the next one, that decisions, owners and the deletion of the realm do not change meanwhile, and that nobody else brings an obsolete DexClient or a ClusterOAuth of the owners in its cluster.
- PlacementCreate.SyncIsExact: for clusters decided through the strategy of their type.
- PlacementController.ProcessPlacementUpdate: promises nothing about strategies of one realm that share a placement, nor about a strategy that shares it with one whose realm is in deletion, since that sync deletes the ClusterOAuths of all owners.
- PlacementCreate.CreateDexClient: the callback host of a cluster is looked up in a map; finding it from the infrastructure, the HypershiftDeployment or the client configuration URL, and the DexClient status, are left out.
- PlacementCreate.CreateClusterOAuth: a ClusterOAuth holds the one provider that the controller writes; further ones that somebody else stores are left out.
- AuthRealmStatus.AuthRealm.DeleteConditions: is about an AuthRealm that is there; the error on a missing one is an input of ClusterOAuthController.DeleteClusterOAuth.
- StrategyPlacement.RewritingDivides: is about predicates; the number of clusters, the cluster sets and the prioritizers are copied when the placement is created and not followed afterwards.
- AuthRealmStatus.MergeStatusConditions: transition times and observed generations are left out.
- RoundTrip.RestoresWhatWasSaved: is about a hosted cluster that stays hosted with one HypershiftDeployment.
- OwnershipRuns.RunKeepsExactly: between the passes others neither change owners or references nor make a placement that a strategy already refers to.
- BackplaneRoundTrip.RestoredExactly: the agent applies the whole of a work or nothing of its OAuth, and nobody else writes to the cluster while it is managed.
- OwnerReferences.SharedPlacementStays: is about deletions by the strategy controller; garbage collection by owner is not modelled.
- Hub.Leads: connects the passes of the placement and AuthRealm controllers to runs; the ClusterOAuth controller takes part in these runs with its two finalizer writes only (ClusterOnHub.PassOnHub), its work on the cluster being the first state machine.
- JSON and YAML: an item is an abstract value with a kind, a name, a content and a layout that normalising removes.
- Status updates are no part of the states: whether they are refused is an input where that ends a pass, and the AuthRealm status has a model of its own.
- PlacementDecisions are one flat list per placement, and lists come in an order of the model's choosing where the result does not depend on it.
- The creation of Dex connectors other than the grouping of teams, LDAP URLs, issuer strings and redirect hosts.
- The value of the strategy type constants is not part of the repository; `backplane`, `hypershift` and `grc` stand for them.
- Finalizers of other parties, except that agents and the dex operator may hold an object in deletion.
- Identity providers without an OpenID part, on which the aggregation would dereference a null pointer; the placement controller writes none.
- Client, cache and manager set-up, watches and event mapping, RBAC, the installer, the webhook, the GRC and RHSSO strategies.
- Overlapping passes and stale cached reads.
