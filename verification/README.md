# Verified model of the Garage storage controller

The controller keeps three kinds of Kubernetes objects in step with a Garage cluster: `Bucket`, `AccessKey` and
`AccessPolicy`. This project models its three reconcilers as one step-based distributed system and proves what they
promise over every run.

## How the model works

- **Cluster and calls.** A `Cluster` holds the Kubernetes objects (with versions, generations, owner references,
  labels and finalizers), Garage's keys, buckets, aliases, quotas and permissions, and for policies the work queue and
  its timers. Every remote call is a function of a `World`: a cluster and a tape. Each call takes one entry of the tape,
  which lists what users, the other controllers and the garbage collector do before the call is served, and says whether
  it is delivered, refused without effect, or takes effect while its reply is lost.
- **Crashes.** When the tape runs out the controller has crashed and no later call has an effect. A tape cut short
  after k calls leaves the cluster as it is between two calls of a longer run, so a statement for all tapes holds in
  every intermediate state.
- **Specification and code.** `AccessKeySpec`, `PolicySpec` and `BucketSpec` give each reconcile as a function. The
  modules `*Reconciler` contain the code in its own form: classes for the object in memory and for the clients, methods
  that mutate them, loops over lists. Each method is proved to end in the world and with the result of its function. The
  theorems are about these functions over all runs.
- **Runs.** `Run` performs any sequence of events: actions of others, and reconciles with any tape. A controller has
  one worker, so its reconciles do not overlap; everything else may happen between any two calls.
- **Values.** Names, UIDs and IDs are integers, 0 for the empty string. A hash-suffixed name is a pair of name and UID.
  Durations and the age of an object are 64-bit integers with wrap-around; quotas are integers and Garage's limits
  unsigned.

## Files

| files | content |
|---|---|
| Common, Conditions, Backoff, Quotas, Permissions | errors and replies, condition lists, the retry delay, quotas on the wire, permission requests |
| AccessKeyWorld, AccessKeySpec, AccessKeyReconciler | the AccessKey controller |
| AccessKeyProofs, AccessKeyTheorems, AccessKeyShortcut, AccessKeyCreation, AccessKeyCauses | its invariant, promises, the shortcut over runs, when keys are created, and status and outcome by cause |
| AccessKeyConvergence, AccessKeyDeletion, AccessKeyLimits | undisturbed reconciles, deletion, and where the promises end |
| PolicyWorld, PolicySpec, PolicyReconciler | the AccessPolicy controller with its queue |
| PolicyLabels, PolicyProofs, PolicyGrants, PolicyTheorems, PolicyCauses | label index, invariant, ownership of grants, promises, and status and outcome by cause |
| PolicyConvergence, PolicyDeletion, PolicyLimits, PolicySharing | undisturbed reconciles, deletion, where the promises end, and two policies at one pair |
| BucketWorld, BucketSpec, BucketReconciler | the Bucket controller |
| BucketProofs, BucketMaps, BucketImport, BucketTheorems, BucketCreation, BucketCauses | invariant, ConfigMaps, imports, promises, when buckets are created, and status and outcome by cause |
| BucketConvergence, BucketQuiescence, BucketLimits | undisturbed reconciles, rest, and where the promises end |

## What is assumed of others

These assumptions are part of the state machines: `Permitted` in AccessKeyWorld and PolicyWorld, `Perform` in
BucketWorld. In the first two they bind only a `lawful` cluster. The `*Limits`, `*Creation` and `PolicySharing` modules
show what happens without them.

- AccessKey: a Secret name is given to one AccessKey only and users leave it alone then; nobody else removes Garage keys.
- AccessPolicy: no two policies with the same key refer to, record, or are being reconciled with the same Garage bucket;
  a bucket may well pass from one Bucket resource to another. The watches' list calls succeed; the AccessKey controller
  gives up a Garage key only as its own theorems allow, and no two AccessKeys name the same one.
- Grants (`CarefulRun` in PolicyGrants): a reconcile's computed status is stored, its revocations reach Garage, and no
  Bucket is deleted and recreated without the policy seeing it.
- Bucket: aliases and quotas in Garage are not changed or removed by others; users do not edit a ConfigMap that has a
  controller, though they may delete it. Statements about one identity also assume that the source is not switched
  between `spec.name` and `spec.existingBucket` (`lawful`).

## Findings

Each of these is a lemma in the table below.

- ensureSecret checks the owner of a Secret and then reads it again, so a Secret made in between is adopted unchecked.
- A key removed from Garage behind the controller's back is not missed while its AccessKey is Ready and unedited. A
  reconcile that does miss it creates a new one, and so does the next if this one crashed before its status write.
- A deleted AccessKey that has recorded no key waits for ever when Garage has several keys of its name; one that has
  recorded a key goes and leaves any other key of its name behind.
- When a kept bucket is reclaimed by another Bucket resource, a policy of the old one that still retries its revocation
  takes the permissions of a new policy away, which stays Ready and is not queued.
- A policy that is deleted after its permissions were assigned and before its status is written leaves them behind.
- When neither dependency can be read, a policy that was Ready is stamped Ready for an edited generation.
- The reason "Update Failed" (internal/controller/bucket_controller.go:178) does not match the CRD's pattern
  (config/crd/bases/garage.getclustered.net_buckets.yaml:187), so a failed quota update is never recorded, and neither
  are the ID and alias found in the same reconcile.
- A limit of zero in Garage and no limit in the spec compare as equal, so an imported bucket can be Ready and full.
- A negative quota is sent again by every reconcile.
- A failed import returns no error and keeps the ConfigMap condition, which may still be True.
- The cleanup of ConfigMaps deletes by name what it listed before.

## Model

| member | source | states |
|---|---|---|
| AccessKeyTheorems.OneGuardedKeyPerAccessKey | internal/controller/accesskey_controller.go:98-126 | over every run with crashes, lost replies and concurrent users, at most one Garage key is ever created per AccessKey; while it is in Garage the AccessKey exists and holds its finalizer, so the object goes only after the key |
| AccessKeyTheorems.CredentialsMatch | internal/controller/accesskey_controller.go:163-218 | in every reachable state, also between two calls, an AccessKey that is Ready at its current generation names the Secret it asks for, and that Secret is its own and holds the ID and secret of its own Garage key |
| AccessKeyTheorems.ShortcutRefinesFullPath | internal/controller/accesskey_controller.go:163-169 | whenever the generation-gated shortcut is taken the object is Ready for this generation or recorded as blocked by a foreign Secret; undisturbed, the full path would change neither cluster nor status exactly if a recorded conflict still is one |
| AccessKeyTheorems.LiveReconcileRetries | internal/controller/accesskey_controller.go:128-149 | a reconcile that asks for no retry computed Ready, found a foreign Secret, or lost its status write to a newer version |
| AccessKeyConvergence.QuietReconcileSettles | internal/controller/accesskey_controller.go:88-218 | in every reachable state one undisturbed reconcile settles a live AccessKey without error: it has its key, is Ready at its generation with current credentials in its own Secret, the old Secret is gone and nothing else changed; unless the name of the Secret is taken, which is then what the status says |
| AccessKeyDeletion.DeletedKeyGoes | internal/controller/accesskey_controller.go:98-126 | in every reachable state the next undisturbed reconcile of a deleted AccessKey removes it and the key of its name, whether its ID was recorded, found by name or already gone, and nothing else |
| AccessKeyDeletion.GoesExactlyWhen | internal/controller/accesskey_controller.go:108-126 | for every tape: a deleted AccessKey goes exactly when Garage answered that its key is removed or not there and the update lands at the version read; done exactly when that is answered, a retry otherwise |
| AccessKeyDeletion.QuietDeletion | internal/controller/accesskey_controller.go:235-250 | in any cluster, lawful or not, an undisturbed deletion removes the object and the recorded key or else the one of its name; only several keys of the name and none recorded keep it |
| AccessKeyDeletion.LeavesKeyExactlyWhen | internal/controller/accesskey_controller.go:235-250 | and it leaves a key of that name in Garage exactly when a key is recorded and another one has the name |
| AccessKeyCauses.ReadyReportsKeyFirst | internal/controller/accesskey_conditions.go:96-131 | Ready carries the reason of a False AccessKeyReady, and only otherwise that of a False KeySecretReady; the generation is observed exactly when Ready is True or the name is taken |
| AccessKeyCauses.KeyFailureByCause | internal/controller/accesskey_controller.go:170-183 | a get, lookup or create that fails ends the run with that error, AccessKeyUnknown, and the recorded ID and Secret name as they were |
| AccessKeyCauses.SecretFailureByCause | internal/controller/accesskey_controller.go:184-205 | a foreign Secret is SecretNameConflict and no error, access denied is SecretAccessForbidden, any other failure SecretSetupFailed, both with their error; the key is recorded in each case |
| AccessKeyCauses.CleanupByCause | internal/controller/accesskey_controller.go:206-233 | after a rename the Secret of the old name in the same namespace is deleted; a failure other than not found is SecretCleanupFailed and keeps the old name on record |
| AccessKeyCauses.OutcomeByCause | internal/controller/accesskey_controller.go:128-161 | a run without error whose write was answered or not needed ends in Done; one with an error fails with it; a conflict is Done; another failed write fails a run without error |
| AccessKeyProofs.InvAlways | internal/controller/accesskey_controller.go:88-161 | the invariant behind these theorems holds after every run of reconciles and actions of others |
| AccessKeyShortcut.RemovalGoesUnnoticed | internal/controller/accesskey_controller.go:163-169 | an AccessKey at rest keeps its status, Ready for its generation, over every run in which nobody edits, deletes or creates that AccessKey, whatever is done to its key and Secret: a removed key is never missed before the next edit |
| AccessKeyLimits.ReadyRests | internal/controller/accesskey_controller.go:163-169 | every live AccessKey that is Ready at its generation in a reachable state is at rest in this sense |
| AccessKeyCreation.EnsureMintsExactlyWhen | internal/controller/accesskey_controller.go:252-282 | a key is created exactly when the get by recorded ID, or the lookup by name, is answered NotFound and the create is not refused |
| AccessKeyCreation.ReconcileCreatesExactlyWhen | internal/controller/accesskey_controller.go:128-149 | a live reconcile creates a key exactly when it does not take the shortcut and this happens; no other call of it creates one |
| AccessKeyCreation.SecondKeyExactlyWhen | internal/controller/accesskey_controller.go:252-282 | over any run, lawful or not, an AccessKey gets a second key exactly when two of its reconciles each do so |
| AccessKeyLimits.AdoptsForeignSecretExactlyWhen | internal/controller/accesskey_controller.go:284-330 | the owner check and CreateOrUpdate read the Secret separately: a successful ensureSecret ends with a Secret of somebody else exactly when the second read finds one of somebody else |
| AccessKeyLimits.ReadyWithForeignSecretExactlyWhen | internal/controller/accesskey_controller.go:163-218 | so for all worlds and tapes a full reconcile that computes Ready ends with a foreign Secret exactly when its second read found one, unless others change the Secret after it was published |
| AccessKeyLimits.ReadyWithForeignSecret | internal/controller/accesskey_controller.go:284-330 | a run from an empty cluster that ends Ready at the current generation with a Secret the AccessKey does not control |
| AccessKeyLimits.RenameDeletesExactlyWhen | internal/controller/accesskey_controller.go:184-233 | after a rename the Secret of the old name, whoever controls it, goes exactly when the new one was published and the delete is not refused |
| AccessKeyLimits.CrashAfterRecreation | internal/controller/accesskey_controller.go:256-262 | whenever a recorded key is not in Garage and the shortcut is not taken, a reconcile creates it anew, and a crash before the status write loses its ID |
| AccessKeyLimits.TwoKeysAfterRemoval | internal/controller/accesskey_controller.go:252-282 | a run from an empty cluster, with one removal and two crashes, after which one AccessKey has two keys in Garage |
| AccessKeyReconciler.Reconciler.ReconcileRequest | internal/controller/accesskey_controller.go:88-149 | Reconcile, call by call: new world and result are those of the specification function that the theorems speak of |
| AccessKeyReconciler.Reconciler.ReconcileLiveKey | internal/controller/accesskey_controller.go:128-149 | initialise, reconcile, aggregate, write the status only if it changed, drop a conflict |
| AccessKeyReconciler.Reconciler.FinalizeKey | internal/controller/accesskey_controller.go:108-126 | the finalizer branch: find the ID, delete the key, then drop the finalizer |
| AccessKeyReconciler.Reconciler.ReconcileKey | internal/controller/accesskey_controller.go:163-169 | the shortcut or the full path |
| AccessKeyReconciler.Reconciler.FullReconcile | internal/controller/accesskey_controller.go:170-183 | the key is ensured and recorded, or reported as unknown |
| AccessKeyReconciler.Reconciler.PublishSecret | internal/controller/accesskey_controller.go:184-218 | publish the Secret, classify its failures, clean up after a rename |
| AccessKeyReconciler.Reconciler.EnsureKey | internal/controller/accesskey_controller.go:252-282 | get by recorded ID or look up by name, create on not found |
| AccessKeyReconciler.Reconciler.EnsureOwnSecret | internal/controller/accesskey_controller.go:284-330 | refuse a foreign Secret, otherwise create or update |
| AccessKeyReconciler.Reconciler.CleanupSecret | internal/controller/accesskey_controller.go:220-233 | delete by name, a missing Secret is no error |
| AccessKeyReconciler.Reconciler.UpdateKeyStatus | internal/controller/accesskey_controller.go:151-161 | read the latest object and replace its status |
| AccessKeyReconciler.AccessKey.UpdateCondition | internal/controller/accesskey_conditions.go:96-131 | the switch over the two sub-conditions is the aggregate in priority order; the observed generation advances on Ready and on a permanent failure only |
| AccessKeyReconciler.ReconcileKeepsConditions | internal/controller/accesskey_conditions.go:96-104 | no path drops a condition, so the two lookups are never nil |
| PolicyTheorems.NoStrandedPolicy | internal/controller/accesspolicy_controller.go:69-250 | over every run, each policy, also one being deleted, is queued, waits on a timer, or is not being deleted and has everything in place: labels, ready key and bucket, Ready for the current generation, exactly the asked permissions in Garage (unless its key is being deleted) |
| PolicyTheorems.GrantConservation | internal/controller/accesspolicy_controller.go:94-301 | over every careful run each permission of an AccessKey's Garage key belongs to exactly one policy, which holds its finalizer and whose status names that key and bucket; a pair that no policy records has none |
| PolicyTheorems.LiveReconcileRetries | internal/controller/accesspolicy_controller.go:146-186 | a reconcile of a live policy that asks for no retry has just assigned the permissions and computed Ready for this generation, or met a conflict |
| PolicyTheorems.ReadyMeaning | internal/controller/accesspolicy_controller.go:252-374 | exactly when a reconcile computes Ready: both dependencies were read as ready and the permissions set, or the API server did not answer and the earlier conditions are taken over |
| PolicyDeletion.DeletedPolicyGoes | internal/controller/accesspolicy_controller.go:106-137 | in every reachable state a deleted policy is queued or on a timer, and its next reconcile, if undisturbed, removes it and the permissions of its recorded pair, also when key or bucket is gone or an ID is missing; other pairs and policies stay |
| PolicyDeletion.GoesExactlyWhen | internal/controller/accesspolicy_controller.go:106-137 | for every tape: a deleted policy goes exactly when it has no pair on record or Garage answered that the pair is revoked or gone, and the update lands at the version read; done exactly when that is answered, a retry otherwise |
| PolicyCauses.StatusByCause | internal/controller/accesspolicy_controller.go:252-374 | each dependency is reported by its own answer: missing, not ready, ready, or unchanged when nothing was learned; IDs follow the answers, the assignment is reported only if attempted, and Ready reports bucket before key before assignment |
| PolicyCauses.CallsByCause | internal/controller/accesspolicy_controller.go:252-301 | the calls of a run: a dependency that is gone is revoked under the ID on record, both are always looked at, and permissions are set for the two IDs just read exactly when both are ready |
| PolicyCauses.OutcomeByCause | internal/controller/accesspolicy_controller.go:156-186 | 15 seconds when the first error that the API server answered is not found, otherwise 10 when something is not ready, otherwise the first error; done only after an assignment; a conflict on the write is Done |
| PolicyProofs.InvAlways | internal/controller/accesspolicy_controller.go:94-186 | the invariant behind NoStrandedPolicy holds after every run |
| PolicyProofs.ReconcileMeaning | internal/controller/accesspolicy_controller.go:94-186 | every exit of one reconcile, wherever it crashes, keeps the invariant and leaves its policy retried or tended |
| PolicyProofs.ActionKeepsWatching | internal/controller/accesspolicy_controller.go:69-78 | every change of a labelled policy, its key or its bucket puts the policy in the queue |
| PolicyGrants.GrantsAlwaysOwned | internal/controller/accesspolicy_controller.go:94-186 | grants stay owned over every careful run |
| PolicyGrants.ReconcileKeepsGrants | internal/controller/accesspolicy_controller.go:94-186 | one careful reconcile, whatever Garage answers to the assignment, leaves no permission without an owner |
| PolicyGrants.FinalizeKeepsGrants | internal/controller/accesspolicy_controller.go:115-137 | the finalizer goes only after the recorded pair has lost its permissions |
| PolicyConvergence.QuietReconcilesSettle | internal/controller/accesspolicy_controller.go:139-186 | two undisturbed reconciles bring a labelled policy with ready dependencies to rest: permissions applied, status Ready, not queued again |
| PolicyConvergence.AssignedAgain | internal/controller/accesspolicy_conditions.go:104-145 | computing the status of a settled policy again changes nothing |
| PolicyConvergence.QuietMetaWrite | internal/controller/accesspolicy_controller.go:106-149 | before that, an undisturbed reconcile of a policy without its finalizer or labels writes just these and ends |
| PolicyLabels.LabelIndexAgrees | internal/controller/accesspolicy_controller.go:188-250 | once right, the labels stay right until a user relabels, through every reconcile and crash; a list by label finds the policy exactly for the key and the bucket that its spec names |
| PolicyLabels.EnsuredLabelsMeaning | internal/controller/accesspolicy_controller.go:236-250 | ensureLabels makes both labels match, keeps all others, is idempotent, and changes nothing exactly if they matched |
| PolicyLimits.LeavesGrantExactlyWhen | internal/controller/accesspolicy_controller.go:139-186 | a live reconcile whose revocations arrive leaves a grant that no policy records exactly when its pair has permissions before the status write, the old status does not name it, and the write does not land on the version that was read |
| PolicyLimits.FinalizerLeavesGrantExactlyWhen | internal/controller/accesspolicy_controller.go:115-137 | a dropped finalizer leaves the grant made last behind exactly when it still has permissions and is not the recorded pair |
| PolicyLimits.GrantOutlivesPolicy | internal/controller/accesspolicy_controller.go:115-137 | a policy deleted between assignment and status write goes away and leaves its permissions |
| PolicyLimits.StaleReadyRestamped | internal/controller/accesspolicy_controller.go:303-374 | when the API server fails to answer for key and bucket, an old Ready is recorded for an edited generation; the error makes the queue retry |
| PolicySharing.RevocationStrikesExactlyWhen | internal/garage/client.go:369-393 | a revocation undoes a settled policy exactly when it is for that policy's recorded pair and reaches Garage; it never queues the policy |
| PolicySharing.ReclaimedBucketLosesPermissions | internal/controller/accesspolicy_controller.go:252-275 | a run in which a kept bucket is reclaimed by another Bucket resource while an old policy still records it: the old policy's retried revocation leaves the new policy Ready, unqueued and without permissions |
| PolicyReconciler.Reconciler.ReconcileRequest | internal/controller/accesspolicy_controller.go:94-186 | Reconcile, call by call, is the specification function that the theorems speak of |
| PolicyReconciler.Reconciler.ReconcileLivePolicy | internal/controller/accesspolicy_controller.go:139-186 | initialise, reconcile, aggregate, patch only a changed status, classify the errors |
| PolicyReconciler.Reconciler.Classify | internal/controller/accesspolicy_controller.go:156-167 | the switch over the joined errors |
| PolicyReconciler.Reconciler.FinalizePolicy | internal/controller/accesspolicy_controller.go:115-137 | revoke the recorded pair unless an ID is missing, keep the finalizer on failure |
| PolicyReconciler.Reconciler.ReconcileAccessPolicy | internal/controller/accesspolicy_controller.go:252-301 | both dependencies are checked, errors are collected, permissions are set only if there are none |
| PolicyReconciler.Reconciler.ReconcileDependencies | internal/controller/accesspolicy_controller.go:252-275 | a dependency that is gone loses its grant and its recorded ID, whatever Garage answers |
| PolicyReconciler.Reconciler.CheckPolicyBucket | internal/controller/accesspolicy_controller.go:303-338 | the bucket's ID is taken over even when it is not ready; only not found and not ready set the condition |
| PolicyReconciler.Reconciler.CheckPolicyKey | internal/controller/accesspolicy_controller.go:340-374 | the same for the access key |
| PolicyReconciler.AccessPolicy.EnsureLabels | internal/controller/accesspolicy_controller.go:236-250 | the map edited in place is EnsuredLabels, and the result says whether it changed |
| PolicyReconciler.AccessPolicy.UpdateCondition | internal/controller/accesspolicy_conditions.go:104-145 | the switch over three conditions is the aggregate in the order bucket, key, policy |
| PolicyReconciler.Reconciler.FindPoliciesForAccessKey | internal/controller/accesspolicy_controller.go:188-210 | the requests are those of the policies labelled with the key, each once, and none if the list fails |
| PolicyReconciler.Reconciler.FindPoliciesForBucket | internal/controller/accesspolicy_controller.go:212-234 | the same for the bucket |
| PolicyReconciler.ReconcileKeepsConditions | internal/controller/accesspolicy_conditions.go:104-112 | no path drops a condition, so the three lookups are never nil |
| BucketTheorems.ReadyExactlyWhen | internal/controller/bucket_controller.go:137-219 | a reconcile computes Ready exactly when it resolved the bucket, put its quotas in place and published the ConfigMap in this run; the only error that leaves Ready True is a failed cleanup |
| BucketTheorems.ReadyBucketIsConfigured | internal/controller/bucket_controller.go:161-182 | then the bucket that the alias leads to has the quotas of the spec, and without a switch of source it is the one the status names |
| BucketTheorems.ReadyEnforcesSpecExactlyWhen | internal/controller/bucket_controller.go:161-182 | when a reconcile computes Ready, Garage admits into the bucket behind the alias exactly what the spec's quotas allow, if and only if that bucket has no limit of zero |
| BucketTheorems.ReadyConfigMapIsCurrent | internal/controller/bucket_controller.go:222-270 | and the ConfigMap named by spec.configMapName, or like the Bucket if that is empty, is the Bucket's own and holds the recorded alias and the endpoint |
| Quotas.MeetsExactly | internal/controller/bucket_controller.go:300-307 | Garage then enforces what the spec promises, exactly if it had no limit of zero, which the comparison takes for none |
| Quotas.WireRoundTrip | internal/garage/api_types.go:48-67 | quotas survive the wire exactly when neither is negative |
| Quotas.LimitsOnTheWire | internal/garage/api_types.go:48-57 | a positive limit is enforced as written, any other means unlimited |
| BucketTheorems.CleanupNeedsNoHistory | internal/controller/bucket_controller.go:185-219 | a reconcile without error or delay that reports its ConfigMap ready leaves exactly one ConfigMap under the Bucket's control, named by spec.configMapName or else like the Bucket, whatever earlier renames and failures left |
| BucketMaps.StaleSetShrinks | internal/controller/bucket_controller.go:272-298 | the stale ConfigMaps never grow in number, are gone after a successful cleanup, and shrink whenever the first delete is not refused |
| BucketMaps.CleanupLeavesOne | internal/controller/bucket_controller.go:272-298 | a cleanup without error leaves at most the ConfigMap named by spec.configMapName, or like the Bucket if that is empty |
| BucketTheorems.ForeignConfigMapStays | internal/controller/bucket_controller.go:222-298 | no reconcile changes or deletes a ConfigMap that the Bucket does not control |
| BucketTheorems.LiveReconcileRetries | internal/controller/bucket_controller.go:103-135 | a reconcile that does not compute Ready asks for a retry, except for a foreign ConfigMap or a conflict |
| BucketTheorems.ImportDelayIsPositive | internal/controller/bucket_controller.go:145-153 | the delay after a failed import is positive for every age |
| BucketTheorems.OneBucketPerResource | internal/controller/bucket_controller.go:309-327 | over every run at most one Garage bucket is created per alias, and per Bucket if its source is not switched; Garage never loses a bucket |
| BucketTheorems.IdentityIsStable | internal/controller/bucket_controller.go:161-166 | recorded ID and alias never change while the Bucket exists, and without a switch the alias leads to that very bucket ever after |
| BucketTheorems.FailedQuotasAreNotRecorded | internal/controller/bucket_controller.go:168-182 | when quotas cannot be set the status is rejected, since the reason "Update Failed" breaks the CRD's pattern: the stored status stays as it was and the queue retries |
| BucketTheorems.UpdateFailedIsNeverStored | internal/controller/bucket_controller.go:176-180 | no reachable state records that reason |
| BucketImport.ImportSafety | internal/controller/bucket_controller.go:329-369 | for an existing bucket nothing is created, and quotas and ConfigMaps are sent only after a read showed the Secret's key to own that very bucket |
| BucketQuiescence.Quiescence | internal/controller/bucket_controller.go:103-135 | undisturbed, the reconcile after a Ready one changes nothing, and sends nothing at all exactly if no quota is negative |
| BucketQuiescence.RestReconcile | internal/controller/bucket_controller.go:137-219 | what a reconcile of a Bucket at rest does |
| BucketConvergence.QuietReconcileSettles | internal/controller/bucket_controller.go:103-219 | in every reachable state one undisturbed reconcile does and records all that is possible: everything in place and Ready if the bucket can be had and the name of the ConfigMap is free; else the taken name, or what the import lacks first, with the delay of its age |
| BucketConvergence.ComputesReadyExactlyWhen | internal/controller/bucket_controller.go:137-219 | undisturbed, Ready is computed exactly when the source is new, or alias, Secret and an owner's key are there, and nobody else has the name of the ConfigMap |
| BucketCauses.ReadyReportsBucketFirst | internal/controller/bucket_conditions.go:79-119 | Ready carries the reason of a False BucketReady, and only otherwise that of a False BucketConfigMapReady |
| BucketCauses.ResolveFailureByCause | internal/controller/bucket_controller.go:309-369 | each call that can fail on the way to the bucket has its reason, nothing else is done or recorded, and only a new bucket returns the error |
| BucketCauses.UnresolvedOutcome | internal/controller/bucket_controller.go:143-159 | a failed import is retried after 5 seconds doubled for each such wait that fits into the age of the Bucket, at most 15 minutes; a failed new bucket fails with that error |
| BucketCauses.MapFailureByCause | internal/controller/bucket_controller.go:185-215 | a foreign ConfigMap is ConfigMapNameConflict and Done, access denied ConfigMapAccessForbidden, any other failure ConfigMapCreateError, both with their error |
| BucketCauses.OutcomeByCause | internal/controller/bucket_controller.go:120-134 | the outcome is that of the run when the status write was answered or not needed; a conflict is Done; another failure fails a run that had not failed |
| BucketLimits.CleanupFailsExactlyWhen | internal/controller/bucket_controller.go:272-298 | the cleanup fails exactly with the error of its list, or of a stale ConfigMap's delete that it came to; not found is none |
| BucketProofs.InvAlways | internal/controller/bucket_controller.go:103-135 | the invariant behind these theorems holds after every run |
| BucketLimits.ReadyNamesItsBucketExactlyWhen | internal/controller/bucket_controller.go:161-166 | a Ready reconcile names the bucket it configured exactly when no other ID was recorded before |
| BucketCreation.ReconcileCreatesExactlyWhen | internal/controller/bucket_controller.go:309-327 | a reconcile creates a bucket exactly when the source is a new one, nothing has its alias by Garage's answer, and the create is not refused and finds the alias free |
| BucketCreation.SecondBucketExactlyWhen | internal/controller/bucket_controller.go:309-327 | over any run, lawful or not, one Bucket gets two buckets exactly when two of its reconciles under different names each do so |
| BucketLimits.TwoBucketsAfterSwitching | api/v1alpha1/bucket_types.go:46-62 | a run from an empty cluster: exchanging spec.name for spec.existingBucket and that for another name, with crashes, creates two buckets for one resource |
| BucketLimits.FailedImportKeepsMapCondition | internal/controller/bucket_controller.go:143-153 | a failed import returns no error and leaves the ConfigMap condition as it was |
| BucketLimits.CleanupDeletesForeignExactlyWhen | internal/controller/bucket_controller.go:272-298 | for any list and tape, the cleanup deletes a ConfigMap of somebody else exactly when a stale one of its name was listed, the loop gets to it, it is foreign when its delete arrives, and the delete is not refused |
| BucketLimits.RecreatedConfigMapIsDeleted | internal/controller/bucket_controller.go:289-296 | for instance one that a user made anew between list and delete |
| BucketReconciler.Reconciler.ReconcileRequest | internal/controller/bucket_controller.go:103-135 | Reconcile, call by call, is the specification function that the theorems speak of |
| BucketReconciler.Reconciler.ReconcileGarageBucket | internal/controller/bucket_controller.go:137-166 | resolve, then record ID and alias; a failed import only delays |
| BucketReconciler.Reconciler.ConfigureBucket | internal/controller/bucket_controller.go:168-185 | quotas are sent only if they differ; a failure is reported and ends the reconcile |
| BucketReconciler.Reconciler.PublishMap | internal/controller/bucket_controller.go:185-219 | publish, classify the failures, clean up |
| BucketReconciler.Reconciler.EnsureMap | internal/controller/bucket_controller.go:222-270 | read once; create, refuse a foreign ConfigMap, leave an equal one, or update |
| BucketReconciler.Reconciler.DeleteStaleMaps | internal/controller/bucket_controller.go:272-298 | the loop over the listed ConfigMaps stops at the first failure other than not found |
| BucketReconciler.Reconciler.ResolveNew | internal/controller/bucket_controller.go:309-327 | get by suffixed alias, create on not found, report either failure |
| BucketReconciler.Reconciler.ResolveExisting | internal/controller/bucket_controller.go:329-369 | Secret, bucket, permissions, in this order, each failure with its reason |
| BucketReconciler.Bucket.Record | internal/controller/bucket_controller.go:161-166 | ID and alias are set once |
| BucketReconciler.Bucket.UpdateReadyCondition | internal/controller/bucket_conditions.go:79-119 | the switch over two conditions is the aggregate; nothing happens when one is missing |
| BucketReconciler.ReconcileKeepsConditions | internal/controller/bucket_conditions.go:79-90 | none is ever missing |
| Conditions.ListStaysMap | internal/controller/conditions.go:37-67 | under any sequence of init, mark and update steps types stay unique and untouched entries keep value and position |
| Conditions.InitOnce | internal/controller/conditions.go:37-49 | initialising again, also after other steps, changes nothing, and every type can be looked up |
| Conditions.AggregateMeaning | internal/controller/bucket_conditions.go:79-119 | the aggregate is True or False, True exactly when every sub-condition is, and otherwise carries the reason of the first False one |
| Conditions.FirstFailureIsFirst | internal/controller/accesspolicy_conditions.go:120-132 | the reported reason is that of the first False condition, wherever it stands in the order |
| Conditions.InitResourceConditions | internal/controller/conditions.go:37-49 | the loop appends an Unknown entry for each missing type |
| Permissions.CallMeaning | internal/garage/client.go:369-393 | however its two requests end, SetPermissions stays within old state and target, never interrupts what both grant, touches one pair, and succeeds exactly with the target in place |
| Permissions.NeverInterrupted | internal/garage/client.go:369-393 | over any sequence of calls, what the old state and all targets grant is there in every intermediate state |
| Permissions.StaysWithin | internal/garage/client.go:369-393 | once a Deny has landed the pair stays within the target in every later state, as long as later calls ask for no more |
| Permissions.OtherPairsUntouched | internal/garage/client.go:369-393 | no call touches another pair, in any state |
| Permissions.PermissionClient.Get | internal/garage/client.go:395-411 | GetPermissions, request and search, answers what Garage stores for the pair, and an error for an unknown key or a failed request |
| Permissions.GetPermissions | internal/garage/client.go:399-410 | the linear search over any list that describes the key finds the pair's permissions, and none for a bucket without a row |
| Permissions.PermissionClient.Set | internal/garage/client.go:369-393 | the method with its two early exits is the function that the lemmas speak of |
| Backoff.BackoffExact | internal/controller/backoff.go:24-35 | min(base * 2^n, max) for the bracket n of the age, exactly when the shift fits in 63 bits; otherwise the result is negative |
| Backoff.NoOverflow | internal/controller/backoff.go:24-35 | no overflow if age plus base is a duration |
| Backoff.ControllerConstantsNeverOverflow | internal/controller/bucket_controller.go:57-86 | with 5 seconds and 15 minutes every 64-bit age is safe and the interval is between the two |
| Backoff.IntervalMonotone | internal/controller/backoff.go:24-35 | an older resource never waits less |
| Backoff.IntervalBounds | internal/controller/backoff.go:24-35 | the interval lies between base and maximum |
| Backoff.BracketsDisjoint | internal/controller/backoff.go:28-29 | no age lies in two brackets |
| Backoff.NextRetry | internal/controller/bucket_controller.go:145-153 | an uncapped wait ends in the next bracket, and no wait goes past min(2 * age + base, age + max) |
| Backoff.CappedAfterLogRetries | internal/controller/bucket_controller.go:145-153 | at most ceil(log2(max / base)) retries wait less than the maximum |
| Backoff.ScheduleFromCreation | internal/controller/backoff.go:24-35 | from age zero the retries hit (2^k - 1) * base exactly |

## Left out

- HTTP, JSON and URL handling in internal/garage/client.go: calls are abstract and return a value, not found or an error.
- Messages, timestamps, events and logs: statuses that differ only in a message count as equal, so a status write that
  only updates a message is not modelled.
- Requests that take effect after the controller has given up on them: an effect happens during its call or never.
- Stale caches: reads see the current state, although the controller reads through an informer cache.
- Several workers per controller, rate limiting, leader election and the order of the queue: a queued request is worked
  on at some point.
- Garbage collection beyond owned ConfigMaps and Secrets whose owner is gone.
- SHA-256 and resource.Quantity: suffixed names are injective, sizes are integers.
- Validation of names, RBAC, the Helm chart, cmd/, metrics, preflight and health checks: wiring and configuration.
- One owned Secret per AccessKey: not promised across failed renames, and not claimed.
- PolicyTheorems.GrantConservation: speaks of keys that some AccessKey has named; permissions of other Garage keys are
  not the controller's.
- PolicyProofs.ActionKeepsWatching: a watch whose list call fails loses its event in the code; here the list succeeds.
- BucketTheorems.ReadyBucketIsConfigured: speaks of the state before the status is patched; the patch changes only the status.
- BucketMaps.StaleSetShrinks: says that a retry makes progress, not when the queue runs it.
