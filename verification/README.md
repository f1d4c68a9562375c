# Object storage operator: a verified model

The operator reconciles `Bucket` resources of a management cluster. For each it provides
a bucket and an access role on AWS, or a storage account, a container, a private endpoint
with DNS records and a credentials secret on Azure, and takes them down again when the
resource is deleted. It guards its cloud resources with a finalizer on the `Bucket`
resource, and the Azure secret with one of its own. This project models that protocol and
the stores it drives, and proves what the operator keeps over whole runs and what a
reconciliation leaves behind. `dafny verify dfyconfig.toml` checks all of it.

How the model is laid out:

- `Base`, `Cloud`: the resources and the services. Every service is a store with the
  effect of each request, the answers of a fault-free service, and the faults: a call may
  fail before taking effect, or take effect and lose its answer. S3 may silently keep some
  of the objects it was asked to delete. Reads of `Bucket` resources are cached: they return
  any version not older than the last one read.
- `Protocol`: the reconciler as a state machine over its calls, one program counter per
  resource, with a stage for every call of creation, update and configuration. Calls for any
  number of resources, users' steps and crashes interleave freely.
- `NoOrphans`, `Evidence`, `Isolation`, `Collision`: theorems about all runs of that machine.
- `Sessions`: what a reconciliation works with. Between any two of its calls everybody else
  may move, and every call it makes has to be one the machine allows, so that whatever
  happens is a run and the theorems about runs hold of it.
- `S3Adapter`, `IamAdapter`, `AzureAdapter`, `Reconciler`: the operator's methods, call by
  call, with their loops and early returns. `Quiet()` in a contract says that nobody else
  moved meanwhile, `Clean()` that, moreover, no call was answered faultily.
- `Convergence`, `Outcome`: repeated reconciliations, and what a settled resource looks like.
- `Templates`, `Documents`, `Json`, `Policies`, `Access`: the policy templates as text, the
  documents they write, and what IAM reads in them.
- `Tags`, `Names`: the tag lists and merges, and the name sanitiser.

Where the code and its descriptions disagree, the model follows the code:

- The controller tests speak of a resource left "free of its finalizer" when the bucket is
  absent; the code keeps the finalizer, and a deletion that fails once the
  storage is gone is never completed (`Isolation.StuckForever`).
- The Azure lifecycle policy is created under the name "default" but deleted under the name
  of its rule, so that taking the expiration out of the spec does not remove it
  (`AzureAdapter.RemovalMissesPolicy`).
- If a user has deleted the Azure secret before, taking the finalizer off makes it disappear
  and the deletion that follows fails; the resource is then stuck as above
  (`Isolation.UserDeletedSecretSticks`).
- Two Azure buckets whose names are sanitised alike share an account, and deleting one
  deletes the other (`Isolation.CollisionDestroys`, `Collision.CollisionHappens`), although the README promises one account
  per container.

## Model

| member | source | states |
|---|---|---|
| `NoOrphans.NoOrphansInRuns` | internal/controller/bucket_controller.go:92-191 | In every state of every run, with any number of resources, users editing and deleting them and their secrets, stale reads, lost responses and crashes anywhere, whatever bucket, role, account, container, secret or finalizer on a secret the operator made and has not taken down belongs to a Bucket resource that still carries the finalizer; a secret counts until it is marked and the operator's finalizer is off it |
| `NoOrphans.StepKeeps` | internal/controller/bucket_controller.go:51-191 | The invariant behind it is kept by every step: feeds in order, every made resource named after a live Bucket resource, and at each program counter what the reconciliation may rely on (after the storage is dropped none is left, before the release nothing is left) |
| `NoOrphans.CallMakes` | internal/controller/bucket_controller.go:95-148 | A call, failed or not, makes at most the one resource it names (a secret together with its finalizer), in the name of the resource being reconciled, provided that patches never set the secret's finalizer |
| `NoOrphans.DropsAreReal` | internal/controller/bucket_controller.go:166-178 | A successful delete answer, or the answer that the role is missing, means that the resource is gone from the store; a deleted secret is left only if the operator's finalizer holds it, and that finalizer is off after the patch that takes it off |
| `NoOrphans.SecretAdvances` | internal/pkg/service/objectstorage/cloud/azure/storage.go:223-248 | Read, patch, delete: at each of the three calls the worker knows what the next one needs, so that after the deletion neither the secret nor its finalizer is left in its name |
| `NoOrphans.FinalizeKeeps` | internal/controller/bucket_controller.go:95-102 | Registering the finalizer, even from a stale copy, keeps the feed in order, and success means that the stored resource is live under the name in the refreshed copy |
| `NoOrphans.ReleaseKeeps` | internal/controller/bucket_controller.go:181-183 | The release patch keeps the feed in order and writes nothing when the copy did not carry the finalizer |
| `Evidence.DeletesAreAuthorised` | internal/controller/bucket_controller.go:79-84 | Every object, bucket, account, secret, policy, profile or role deletion in the call history of a run is preceded, in the same reconciliation, by a read of a deletion mark with the reclaim policy "Delete", spelled so, and an error-free answer that the storage exists, and names only what belongs to the resource read, instance profiles included |
| `Evidence.ReleaseIsEarned` | internal/controller/bucket_controller.go:163-183 | If the finalizer disappears in a step of a run, that reconciliation was told before that the storage exists, that it is deleted, and, when a role is named, that the role is deleted or missing; afterwards nothing made for the resource is left |
| `Evidence.SecretOutlivesAccount` | internal/pkg/service/objectstorage/cloud/azure/storage.go:217-251 | A secret with the operator's finalizer loses it or disappears, whatever users do to it, only in a call of a reconciliation that was already told that the account is deleted |
| `Evidence.ReadyIsEarned` | internal/controller/bucket_controller.go:104-137 | In every reachable state, a ready status with identifier n was written by a patch that followed, in its reconciliation, the success of every call creation or update and then configuration of a copy named n consist of, one after the other: on AWS bucket, lifecycle, policy, tags; on Azure settings, account, container, endpoint and records when private, keys, secret, management policy |
| `Evidence.BuiltInOrder` | internal/pkg/service/objectstorage/cloud/azure/storage.go:133-207 | These successes are there exactly when increasing positions in the history hold them, each with the arguments and answers the code passes on: privacy to the account, addresses to the records, the first key to the secret |
| `Evidence.StageAdvances` | internal/controller/bucket_controller.go:104-125 | Every accepted answer leads to a stage whose successes the history then shows |
| `Evidence.ReadyIsNeverCleared` | internal/controller/bucket_controller.go:127-137 | No call of the operator takes a ready status back |
| `Evidence.RetainConserves` | internal/controller/bucket_controller.go:156-189 | While a resource asks for "Retain", for nothing or for anything but "Delete", no call of its reconciliation removes an object, bucket, container, account, secret, role, policy or profile, whatever other resources ask for |
| `Evidence.TrailAdvances` | internal/controller/bucket_controller.go:51-191 | Every answer adds to the history of a reconciliation exactly what its next program counter relies on |
| `Isolation.CallsDoNotInterfere` | internal/pkg/service/objectstorage/cloud/azure/storage.go:133-251 | In every run, as long as no two resources' bucket names are sanitised alike, a call for one resource leaves account, containers, endpoint, records and secret of every other as they are |
| `Isolation.CollisionDestroys` | internal/pkg/service/objectstorage/cloud/azure/storage.go:214-222 | In every run, when the account of one resource is deleted, a container made for another survives exactly when the two names are sanitised differently, and the other resource carries the finalizer either way |
| `Isolation.NamesDoCollide` | internal/pkg/service/objectstorage/cloud/azure/storageaccount.go:172-176 | Two concrete names that share an account |
| `Collision.CollisionHappens` | internal/pkg/service/objectstorage/cloud/azure/storage.go:133-251 | For every two names that are sanitised alike there is a run, from a state the operator has not touched, in which deleting one bucket removes the container made for the other, whose resource is not even marked |
| `Isolation.OneContainerPerAccount` | README.md:15 | While sanitised names are distinct, an account holds at most one container the operator made |
| `Isolation.StuckForever` | internal/controller/bucket_controller.go:156-190 | A deletion whose mark has been read while the finalizer is on and the storage gone stays like that in every run in which nobody else recreates the storage: the operator neither recreates it nor ever takes the finalizer off |
| `Isolation.EndingEarlySticks` | internal/controller/bucket_controller.go:166-183 | A reconciliation that ends or dies once the storage is gone but before the release leaves exactly such a deletion behind |
| `Isolation.FailingSticks` | internal/controller/bucket_controller.go:166-183 | So does a reconciliation that ends by a failing call |
| `Isolation.UserDeletedSecretSticks` | internal/pkg/service/objectstorage/cloud/azure/storage.go:223-248 | If a user has deleted the secret, taking the finalizer off removes it, the deletion that follows fails, and the finalizer of the Bucket resource stays for good unless somebody else recreates the storage |
| `Sessions.Session.Call` | internal/controller/bucket_controller.go:51-89 | Others move, then the call is answered: what happened is still a run of the protocol, whatever the answer, and the tally of answers is that of the call history |
| `Sessions.RunGrows` | internal/controller/bucket_controller.go:51-89 | A run followed by any moves of the others is a run |
| `Reconciler.Reconcile` | internal/controller/bucket_controller.go:51-89 | Whatever the services answer and others do, a reconciliation is a run of the protocol, orphans nothing, and reports success only if its read found nothing or both read and cluster lookup were answered; undisturbed and reading an up-to-date cache, it settles an unmarked resource, unwinds a marked one, and leaves a missing one alone. For a marked one it reports an error, without faults, exactly when the storage was to be deleted and something kept role or secret in place, and a success that changed anything means that all is gone and released |
| `Reconciler.ReconcileNormal` | internal/controller/bucket_controller.go:92-149 | Settles the resource when it reports success; without faults succeeds exactly when no tag key occurs twice (AWS), or the account name is free or ours and has a "key1" (Azure); even a failed attempt touches nothing else |
| `Reconciler.ProvideAws` | internal/controller/bucket_controller.go:94-125 | Finalizer, existence check, creation if absent, configuration: on success the bucket is settled and the role untouched |
| `Reconciler.ReconcileNormalAws` | internal/controller/bucket_controller.go:92-149 | Success leaves finalizer, ready status, bucket and role exactly as spec and cluster ask for, from any state, the role following the refreshed copy; a failure keeps the objects, every other bucket and role, attached policies and other inline policies |
| `Reconciler.ReconcileNormalAzure` | internal/controller/bucket_controller.go:92-149 | Success leaves finalizer, ready status, account, container, endpoint, records, policies and secret as asked for, from any state; a failure keeps what belongs to other buckets, and of its own account the containers, their makers and all policies but the configured one |
| `Reconciler.RegisterFinalizer` | internal/controller/bucket_controller.go:95-102 | Appends the finalizer to the copy's list, unless it is there, and goes on with the copy the server returns |
| `Reconciler.BuildAws` | internal/controller/bucket_controller.go:104-125 | Existence check, creation if absent, configuration: the bucket is settled on success and keeps its objects in any case |
| `Reconciler.BuildAzure` | internal/controller/bucket_controller.go:104-125 | Existence check, creation or update, configuration: everything is provisioned on success, and the account survives a failure with what is in it |
| `Reconciler.ReportReady` | internal/controller/bucket_controller.go:127-137 | Writes the ready status and goes on with the copy the server returns |
| `Reconciler.ReconcileDelete` | internal/controller/bucket_controller.go:152-191 | Does nothing and reports success when the storage is absent, the existence check fails or the policy is not "Delete"; an error is reported only after the storage was seen; the finalizer goes only when everything named after the copy is gone, the copy's other finalizers stay; without faults it goes if and only if the storage existed, was to be deleted, and nothing kept role or secret in place; a success that changed anything means that all is gone and the finalizer off |
| `Reconciler.DestroyAws` | internal/controller/bucket_controller.go:166-178 | Deletes bucket and role in this order; touches no other bucket or role |
| `Reconciler.DestroyAzure` | internal/controller/bucket_controller.go:166-178 | Deletes account and secret in this order; touches nothing of other buckets |
| `Reconciler.RecordedIs` | internal/controller/bucket_controller.go:94-137 | The two patches together leave the stored resource with finalizer and ready status and no other resource changed |
| `Convergence.FailuresLeaveNoTrace` | internal/controller/bucket_controller.go:92-149 | On AWS, after any number of attempts cut short anywhere, what success leads to is what it would have led to before the first attempt |
| `Convergence.AwsConverges` | internal/controller/bucket_controller.go:92-149 | From any state, after any number of failed attempts, one success leaves bucket and role exactly as spec and cluster ask for |
| `Convergence.AzureFailuresLeaveNoTrace` | internal/pkg/service/objectstorage/cloud/azure/storage.go:133-212 | On Azure, what success leads to after any number of attempts cut short anywhere is something it could have led to before the first attempt, with the same secret |
| `Convergence.AzureConverges` | internal/controller/bucket_controller.go:92-149 | From any state, after any number of failed attempts, one success leaves account, container, endpoint, records, policies and secret as spec and cluster ask for |
| `Convergence.AwsSettledTwice` | internal/controller/bucket_controller.go:92-149 | A success after a success changes nothing on AWS, nor the stored resource |
| `Convergence.AzureSettledTwice` | internal/controller/bucket_controller.go:92-149 | A success after a success changes nothing on Azure, when colliding cluster tags agree |
| `Convergence.RecordedTwice` | internal/controller/bucket_controller.go:94-137 | A resource reported ready carries the finalizer and is reported ready again without a change |
| `Outcome.SettledIsReported` | internal/controller/bucket_controller.go:94-137 | A settled resource carries the finalizer "objectstorage.giantswarm.io/bucket" and the ready status with its bucket's name |
| `Outcome.AwsOutcome` | internal/controller/bucket_controller.go:92-149 | A settled bucket keeps its objects and has the lifecycle asked for and exactly the tags of spec and cluster with a key and a value; so has the role, which keeps every policy but its own |
| `Outcome.AzureOutcome` | internal/controller/bucket_controller.go:92-149 | A settled account is public unless the cluster is private and has the container; the secret holds its credentials; in a private cluster the endpoint points at it and the records hold the addresses in order; an expiration is its policy "default" |
| `S3Adapter.ExistsBucket` | internal/pkg/service/objectstorage/cloud/aws/s3.go:39-56 | Tells whether the bucket exists; only a not-found answer means absent, and any other error comes with the answer "exists" |
| `S3Adapter.CreateBucket` | internal/pkg/service/objectstorage/cloud/aws/s3.go:58-75 | Success leaves the bucket there, a new one empty; nothing else changes |
| `S3Adapter.SetLifecycleRules` | internal/pkg/service/objectstorage/cloud/aws/s3.go:145-181 | The lifecycle is set to the expiration, or removed when there is none |
| `S3Adapter.SetBucketPolicy` | internal/pkg/service/objectstorage/cloud/aws/s3.go:183-200 | The bucket policy is replaced by the rendered one |
| `S3Adapter.SetTags` | internal/pkg/service/objectstorage/cloud/aws/s3.go:202-230 | The tags are replaced by the wanted ones; without faults this succeeds exactly when no key occurs twice |
| `S3Adapter.ConfigureBucket` | internal/pkg/service/objectstorage/cloud/aws/s3.go:124-143 | From any configuration the bucket ends up with exactly the one asked for, keeping its objects; a failure changes no other bucket and no object |
| `S3Adapter.PurgePage` | internal/pkg/service/objectstorage/cloud/aws/s3.go:87-111 | One page: everything listed is submitted, only submitted objects go, the token is an object beyond the last token |
| `S3Adapter.EmptyBucket` | internal/pkg/service/objectstorage/cloud/aws/s3.go:83-112 | The paginated loop terminates once others come to rest; every object the bucket had is submitted, only submitted ones go, and without faults the bucket is empty |
| `S3Adapter.EmptyingGoesOn` | internal/pkg/service/objectstorage/cloud/aws/s3.go:87-111 | The loop's invariant: whatever is gone or at or below the continuation token was submitted |
| `S3Adapter.PurgedDecreases` | internal/pkg/service/objectstorage/cloud/aws/s3.go:87-111 | Fewer objects are left to be listed after each page |
| `S3Adapter.DropServed` | internal/pkg/service/objectstorage/cloud/aws/s3.go:114-121 | The bucket goes only when it is empty, and after success it is gone |
| `S3Adapter.DeleteBucket` | internal/pkg/service/objectstorage/cloud/aws/s3.go:82-122 | The bucket goes only after all of its objects were submitted for deletion; with silent per-object failures it stays, with no new object, to be tried again; without faults it is deleted |
| `IamAdapter.GetRole` | internal/pkg/service/objectstorage/cloud/aws/iam.go:49-68 | The role's tags, or none when IAM does not know the role; any other answer is an error |
| `IamAdapter.SyncTags` | internal/pkg/service/objectstorage/cloud/aws/iam.go:136-157 | Untag-then-tag, or the skip when the lists are equal, both amount to replacing the tags |
| `IamAdapter.UntaggedThenTagged` | internal/pkg/service/objectstorage/cloud/aws/iam.go:136-157 | Removing every key read and then tagging is plain replacement |
| `IamAdapter.UpsertRole` | internal/pkg/service/objectstorage/cloud/aws/iam.go:117-158 | Creates the role, or brings trust policy and tags of the existing one up to date |
| `IamAdapter.ConfigureRole` | internal/pkg/service/objectstorage/cloud/aws/iam.go:78-181 | From any state the role ends up with trust policy, tags and own inline policy exactly as asked for; attached policies and inline policies of other names are never touched; without faults it succeeds exactly when no tag key occurs twice |
| `IamAdapter.ConfiguredTwice` | internal/pkg/service/objectstorage/cloud/aws/iam.go:78-181 | Configuring a configured role changes nothing |
| `IamAdapter.DetachPolicies` | internal/pkg/service/objectstorage/cloud/aws/iam.go:240-263 | Detaches every attached policy and nothing else |
| `IamAdapter.DeleteInlinePolicies` | internal/pkg/service/objectstorage/cloud/aws/iam.go:265-286 | Deletes every inline policy and nothing else |
| `IamAdapter.CleanAttachedPolicies` | internal/pkg/service/objectstorage/cloud/aws/iam.go:240-290 | Success leaves no policy on the role |
| `IamAdapter.RemoveProfile` | internal/pkg/service/objectstorage/cloud/aws/iam.go:200-229 | The instance profile of the role's name is gone after success unless a call on it failed without the service reporting it, which is said exactly when the call history shows such an answer |
| `IamAdapter.DeleteRole` | internal/pkg/service/objectstorage/cloud/aws/iam.go:183-238 | Success means that the role is absent, and its profile too unless the call history shows a passed-over error; an absent role is a success; other roles and profiles stay; without faults it succeeds exactly when nothing but the profile of its own name holds the role and that profile holds nothing else |
| `IamAdapter.TryProfile` | internal/pkg/service/objectstorage/cloud/aws/iam.go:200-229 | On the profile of the role's own name: an error the service reports is an error, a missing profile is none, any other failure is passed over |
| `IamAdapter.DropStripped` | internal/pkg/service/objectstorage/cloud/aws/iam.go:230-235 | The last call: success means that the role is gone; profiles stay |
| `IamAdapter.DroppedWhenRemovable` | internal/pkg/service/objectstorage/cloud/aws/iam.go:200-235 | Against a store that refuses to delete a role in use, the delete goes through exactly for such roles |
| `Json.TextParses` | internal/pkg/service/objectstorage/cloud/aws/templates.go:27-134 | A document spelled the way the templates lay it out is a JSON text (RFC 8259) with the intended value exactly when no string in it needs escaping |
| `Documents.RangeSpellsItems` | internal/pkg/service/objectstorage/cloud/aws/templates.go:38-45 | What the range loop writes, for any list of extra names, is one item per line with a comma between any two and none after the last |
| `Documents.RolePolicyRenders` | internal/pkg/service/objectstorage/cloud/aws/templates.go:27-57 | The template, line by line with its range and substitutions, writes the role policy document, for all names |
| `Documents.TrustRenders` | internal/pkg/service/objectstorage/cloud/aws/templates.go:68-108 | The template, with the conditional block and its comma or without, writes the trust policy document |
| `Documents.BucketPolicyRenders` | internal/pkg/service/objectstorage/cloud/aws/templates.go:115-134 | The template writes the bucket policy document |
| `Policies.RolePolicyMeans` | internal/pkg/service/objectstorage/cloud/aws/templates.go:27-57 | The rendered role policy reads back as exactly the object grants on the two resources of every extra bucket, in order, then of the bucket, plus the account grants, if and only if no name in it needs escaping |
| `Policies.TrustPolicyMeans` | internal/pkg/service/objectstorage/cloud/aws/templates.go:68-108 | The rendered trust policy reads back as exactly one statement per admitted subject, one or three, if and only if no input needs escaping |
| `Policies.SubjectDetermines` | internal/pkg/service/objectstorage/cloud/aws/templates.go:80 | For namespaces without a colon the subject determines namespace and service account |
| `Policies.BucketPolicyMeans` | internal/pkg/service/objectstorage/cloud/aws/templates.go:115-134 | The rendered bucket policy reads back as the one denial of insecure transport, if and only if no input needs escaping |
| `Access.TrustAdmits` | internal/pkg/service/objectstorage/cloud/aws/templates.go:68-108 | Read back, the trust document admits exactly the listed subjects of its own identity provider |
| `Access.SettledRoleGrants` | internal/pkg/service/objectstorage/cloud/aws/iam.go:70-181 | The role a successful reconciliation leaves can be assumed exactly by the named service account and, for names in which "grafana-postgresql" occurs, the two fixed ones, as the provider of the cluster identifies them; its inline policy grants the actions on exactly the extra buckets and the bucket; resources and provider are in the partition "aws-cn" exactly when "cn-" occurs in the region, in "aws" otherwise |
| `Access.DomainsMean` | internal/pkg/service/objectstorage/cloud/aws/templates.go:13-25 | Partition and token issuer as the region, account, name and base domain of the cluster make them |
| `Templates.ContainsMeans` | internal/pkg/service/objectstorage/cloud/aws/templates.go:23-25 | Containing means occurring at some position |
| `Access.NoRoleSettlesNothing` | internal/controller/bucket_controller.go:140-147 | A resource without a role, or with an empty role name, leaves IAM alone |
| `Access.SettledBucketDenies` | internal/pkg/service/objectstorage/cloud/aws/s3.go:183-200 | The bucket a successful reconciliation leaves denies everybody everything on it and its objects over insecure transport, named in the partition of its region |
| `Tags.TagList` | internal/pkg/service/objectstorage/cloud/aws/s3.go:202-219 | Whatever the iteration order, the list stands for the wanted tags, and its keys are distinct exactly when no meaningful key occurs twice in spec and cluster |
| `Tags.WantedExactly` | internal/pkg/service/objectstorage/cloud/aws/iam.go:85-100 | When no key occurs twice, the wanted tags are exactly those of spec and cluster with a key and a value |
| `Tags.SanitizeTagKey` | internal/pkg/service/objectstorage/cloud/azure/tags.go:9-11 | Character by character, dashes become underscores |
| `Tags.GetBucketTags` | internal/pkg/service/objectstorage/cloud/azure/tags.go:13-26 | The result is a merge: exactly the sanitised keys of meaningful entries, cluster tags over spec tags, later spec tags over earlier ones, no dash in a key |
| `Tags.OrderIndependence` | internal/pkg/service/objectstorage/cloud/azure/tags.go:13-26 | The merge is the same for every iteration order exactly when cluster tags that collide after sanitising carry equal values |
| `Tags.MergeIsUnique` | internal/pkg/service/objectstorage/cloud/azure/tags.go:13-26 | Under that condition there is only one merge |
| `Names.AccountNameIsLegal` | internal/pkg/service/objectstorage/cloud/azure/storageaccount.go:172-176 | At most 24 characters, each a letter or digit of ASCII, and sanitising twice is sanitising once |
| `Names.AccountNameExactly` | internal/pkg/service/objectstorage/cloud/azure/storageaccount.go:172-176 | Every letter or digit preceded by fewer than 24 others stands in the account name at its rank, and nothing else stands there |
| `Names.SomeAccountNames` | internal/pkg/service/objectstorage/cloud/azure/storage_test.go:16-30 | The three names and account names of the repository's own table, with digits, dashes and one name too long |
| `Names.FilterAt` | internal/pkg/service/objectstorage/cloud/azure/storageaccount.go:172-176 | A letter or digit stands in the filtered name at its rank, the number of letters and digits before it |
| `Names.CollisionCondition` | internal/pkg/service/objectstorage/cloud/azure/storageaccount.go:172-176 | Two names share an account exactly when they have the same letter or digit, or none, at each of the ranks below 24 |
| `AzureAdapter.ExistsBucket` | internal/pkg/service/objectstorage/cloud/azure/storage.go:75-89 | The bucket exists exactly when its account has the container; errors answer "absent" |
| `AzureAdapter.UpsertStorageAccount` | internal/pkg/service/objectstorage/cloud/azure/storageaccount.go:18-73 | The account is there with the merged tags, public exactly when the cluster is not private; without faults this fails exactly when a stranger holds the name |
| `AzureAdapter.UpsertContainer` | internal/pkg/service/objectstorage/cloud/azure/container.go:39-83 | The container is there with the merged tags, created or updated |
| `AzureAdapter.PutContainer` | internal/pkg/service/objectstorage/cloud/azure/container.go:44-80 | Creates the container or updates the one found; after a failure all is as before or the container is there |
| `AzureAdapter.UpdateIsCreate` | internal/pkg/service/objectstorage/cloud/azure/container.go:60-80 | Updating an existing container comes to the same as creating it over |
| `AzureAdapter.UpsertPrivateEndpoint` | internal/pkg/service/objectstorage/cloud/azure/privateendpoint.go:62-99 | The endpoint points at the account and carries the merged tags |
| `AzureAdapter.CollectAddresses` | internal/pkg/service/objectstorage/cloud/azure/privateendpoint.go:25-34 | The addresses of all DNS configurations in order, those without a list skipped |
| `AzureAdapter.AddressesFlatten` | internal/pkg/service/objectstorage/cloud/azure/privateendpoint.go:25-34 | Each address of each configuration stands after as many addresses as the configurations before it list and its own position, and there are no others |
| `AzureAdapter.ARecords` | internal/pkg/service/objectstorage/cloud/azure/privateendpoint.go:36-39 | One record per address, in order |
| `AzureAdapter.UpsertPrivateEndpointARecords` | internal/pkg/service/objectstorage/cloud/azure/privateendpoint.go:22-60 | The record set of the account holds exactly those addresses |
| `AzureAdapter.FindCredentials` | internal/pkg/service/objectstorage/cloud/azure/storage.go:187-200 | Data with exactly the keys "accountName" and "accountKey", holding the account's name and the value of the first key named "key1"; nothing exactly when no key is named so |
| `AzureAdapter.UpsertSecret` | internal/pkg/service/objectstorage/cloud/azure/storage.go:172-203 | The secret holds exactly the account's name and the value of the first "key1"; a new one carries the finalizer, an existing one keeps everything but its data; a failure leaves all secrets as they were or exactly that; without faults it succeeds exactly when there is a "key1" |
| `AzureAdapter.WriteSecret` | internal/pkg/service/objectstorage/cloud/azure/storage.go:185-199 | Creates the secret with its finalizer, or replaces the data of the one read; a secret changed meanwhile is left alone |
| `AzureAdapter.StoreCredentials` | internal/pkg/service/objectstorage/cloud/azure/storage.go:159-206 | The access keys are read after the account is there; no other secret changes |
| `AzureAdapter.StoredIsReady` | internal/pkg/service/objectstorage/cloud/azure/storage.go:172-203 | What is stored is that secret: the account's name under "accountName", the value of the first key named "key1" under "accountKey", and no other secret differs |
| `AzureAdapter.ProvideStorage` | internal/pkg/service/objectstorage/cloud/azure/storage.go:133-157 | Settings, account, container and, when private, endpoint and records; a failure keeps the account with its containers and policies |
| `AzureAdapter.CreateBucket` | internal/pkg/service/objectstorage/cloud/azure/storage.go:133-207 | From any partial state, success leaves account, container and, when private, endpoint and records as asked for, and the secret with exactly the account's name and the value of the first "key1"; a failure keeps what belongs to other buckets, and the account with its containers and policies; without faults it succeeds exactly when the name is not a stranger's and there is a "key1" |
| `AzureAdapter.UpdateBucket` | internal/pkg/service/objectstorage/cloud/azure/storage.go:210-212 | The same as a creation |
| `AzureAdapter.ProvisionedTwice` | internal/pkg/service/objectstorage/cloud/azure/storage.go:133-212 | Provisioning what is provisioned changes nothing when colliding cluster tags agree |
| `AzureAdapter.StoredTwice` | internal/pkg/service/objectstorage/cloud/azure/storage.go:172-203 | Storing the credentials again stores the same secret |
| `AzureAdapter.ConfigureBucket` | internal/pkg/service/objectstorage/cloud/azure/storageaccount.go:108-170 | Sets the policy under the default name, or removes the one under the rule's name; a missing policy is no error |
| `AzureAdapter.RemovalMissesPolicy` | internal/pkg/service/objectstorage/cloud/azure/storageaccount.go:108-170 | After configuring, the lifecycle is as asked for exactly when an expiration is set or there was no policy before |
| `AzureAdapter.DeleteCredentials` | internal/pkg/service/objectstorage/cloud/azure/storage.go:223-248 | Takes the finalizer off, then deletes the secret: success means that it is gone, or marked with the operator's finalizer off; without faults this succeeds exactly when the secret is there and was not deleted by somebody else with the operator's finalizer as its last |
| `AzureAdapter.DeleteBucket` | internal/pkg/service/objectstorage/cloud/azure/storage.go:217-251 | The secret is touched only after the account is gone; endpoint and records stay |

## Left out

- SDK clients, credentials, role and service factories: their errors count as errors of the cluster lookup.
- Cluster lookup (`GetCluster`) and the decoding of the cluster's user values: each is one call with a fixed answer or an error.
- Manager setup, leader election and the work queue: a resource has at most one reconciliation under way.
- Logging, error texts, metrics, Helm charts, CRDs and generated code.
- Properties of accounts, endpoints and roles that are constants in the code (SKU, encryption, TLS version, subnet, description, record lifetime).
- S3 object versions and IAM listings of more than one page: the code handles neither, and the stores of the model have neither.
- Long-running Azure operations: beginning one and polling it is one call.
- Cached reads of the Azure secret: they return the stored secret, while cached reads of `Bucket` resources may be stale.
- The status is patched as a whole, not field by field.
- Users are assumed not to set or strip the operator's finalizers, not to rename a bucket or its role, and not to write the status.
- Cleanup of Azure private endpoints and DNS records: the code does none.
- Letters and digits outside ASCII in the sanitiser, and the rounding of Azure's expiration days to a float.
- Numbers, literals and escape sequences in JSON: the templates render none of them, and a text that would need an escape is not accepted.
- When emptying a bucket and when configuring or taking apart a role, the state machine leaves the order of calls open, since no theorem about runs depends on it; the adapter methods fix the order and are proved to make only calls the machine allows.
- The state machine leaves the tags and policy documents of a call open; the adapter methods fix them.
- S3Adapter.CreateBucket: does not model the location constraint of a new bucket, because the store of the model has no regions.
- S3Adapter.EmptyBucket: terminates because others are assumed to come to rest eventually; against a writer who never stops, the loop of the code need not end.
- Convergence.AzureSettledTwice: for cluster tags that collide with different values the code may write either value on every run, so repetition is only claimed without such a conflict.
