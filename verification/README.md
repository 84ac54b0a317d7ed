# Qiniu CSI driver: a verified model

The driver gives Kubernetes volumes backed by Qiniu Kodo buckets and KodoFS volumes. This project models
the parts of it in which much can go wrong at once, and proves what they keep:

- **Emptying a bucket** (`Batching`, `Lister`, `Pipeline`, `PipelineInvariant`, `PipelineResults`,
  `PipelineDeadlock`, `PipelineReturns`, `Emptying`, `EmptyingResults`, `EmptyingRuns`). `CleanObjects` is a step
  machine of a lister, a forwarder, a batcher, ten delete workers and the caller over bounded channels. A run is any
  interleaving, with any delete request refused, the listing failing anywhere, and the context cancelled at any
  time. The lister's and the batcher's loops are also modelled as loops. `Emptying` joins the two halves: the lister
  pages through a bucket that replies to delete requests shrink. This machine and the pipeline simulate each other.
- **The TTL cache** (`CacheKeys`, `CacheValues`, `Cache`, `CacheFlights`, `CacheItems`, `CacheResults`,
  `CacheAnswers`, `CacheDerived`). Any number of goroutines run the check, the single flight, the re-check and the store of
  `getCacheValueByKey` under any schedule, with endpoint and bucket lookups cached on top of cached lists. Keys are
  the real strings, and different clients may share some. `CacheResults` holds for all clients, `CacheAnswers` says
  what the values are, and for which clients; `CacheDerived` says what each lookup answers.
- **The life of a Kodo volume** (`Lifecycle`, `LifecycleResults`, `LifecycleOutcomes`, `VolumeDeletion`). CreateVolume and
  DeleteVolume change the `volumes` map and the account's buckets, IAM users, policies and grants one remote call at a time;
  every call can be done, refused, or done but reported as failed.
- **Parameters, from the storage class to rclone** (`Text`, `Fields`, `Parameters`, `VolumeParameters`,
  `ParameterOrders`, `VolumeOrders`, `ParameterWords`, `VolumeRecords`, `VolumeContext`, `PublishedContext`,
  `VolumeExample`, `Flags`, `CommandLine`, `MountCommand`, `MountArguments`, `MountOptions`, `RcloneConfig`). The parsers over maps that Go iterates in any order, the published volume context,
  the node's parse of it, the mount command, rclone's arguments with a reader that takes them apart again, and its
  config section.
- **Mounting through the connector** (`MountProtocol`, `MountProtocolSafety`, `CacheTree`) and **archiving a
  KodoFS volume** (`Archive`).

Facts of the code that the model follows:

- Starting a goroutine and the `wg.Add` written after the `go` statement are one step (qiniu/kodo.go:107, 635, 662).
- A batch reply of 298, the status of a batch of which only some operations succeeded, counts as accepted
  (qiniu/kodo.go:593). `CleanObjects` then returns nil although objects are left;
  `EmptyingResults.NilLeaves` says which, and `EmptyingRuns.PartialReplyLeavesExactly` when.
- A first page that is cut off before its first line ends the listing without an error, because the last marker is
  still empty (qiniu/kodo.go:503-511, 551-553). This happens on cancellation, and when the body does not decode,
  which is only logged. `CleanObjects` then returns nil and leaves the bucket as it is; `PipelineReturns` says exactly
  when, and `EmptyingRuns.CutOffLeavesExactly` what that means for the bucket.
- A failed type assertion on a cached value panics (qiniu/kodo.go:702, 870, 911). The cache machine goes on, so that
  `CacheAnswers.TypeSafeRunsExactly` speaks about the first failure as well as about any later one; the results of
  `CacheResults` hold whether or not assertions fail.
- The names and batch channels are closed by their only sender, after its last send (qiniu/kodo.go:97, 639).
- The batcher's sends are not in a `select` (qiniu/kodo.go:653, 659). This is why a large bucket can hang the
  RPC for ever, and `PipelineDeadlock` says exactly when.
- `normalizeDirKey` keeps a leading slash in some cases although its comment excludes it (protocol/utils.go:41-52);
  `MountCommand.NormalizeDirExactly` says in which.
- An unset path style reaches the config file as false (plugin/utils.go:315-317, connector/utils.go:144), although
  docs/private-cloud.md:40 gives true as the default; `RcloneConfig.ConfigHolds` says so.
- The archive loop has no return after a successful rename (plugin/kodofs_controller_server.go:186-196), so it
  always ends with an error; `Archive.Store.ArchiveVolume` says with which.
- A message stream that ends without Terminate is reported as a successful mount (plugin/utils.go:260), and the
  connector may end it early, for example at the 30-second deadline of the connection (connector/main.go:200).
  `MountProtocolSafety.MisledExactly` says when a client can be misled.

What the environment is taken to do:

- Lister: the server lists in key order, resumes after the marker of any line, gives the empty marker on the last
  object, and answers a request that has objects left with at least one line. A body may break off after any line,
  or before its first one; only in `Lister`, whose loop is shown to end, later pages have one line that decodes.
  Nobody else deletes or adds objects.
- Delete requests: a reply, accepted or refused, takes away any part of its batch.
- Cache: time is a natural number of seconds that does not run backwards. URL parsing is a parameter.
- Parameters: URL and duration printing and parsing are parameters; the round trips ask that the values at hand
  survive them, and that lower-casing keeps lower-case ASCII. Decimal numbers are printed and parsed by the model.
- Lifecycle: a lookup answers truthfully, misses, or fails. Creating a policy under a name that exists overwrites it;
  the failing halves of `AlwaysIntactExactly` and `IsolationExactly` rest on this. The attributes of a volume to be
  deleted are those that CreateVolume published, which `VolumeDeletion` shows to name the bucket created for it.
- Cache tree: the digest of mount paths is injective, and removing a directory works. A volume id is one path
  component, except where `CacheTree.UnmountTakesExactly` says what others do: ids with a slash give several
  components, and the ids "", "." and ".." none, or a path outside the cache directory, which is not modelled.
- Archive: renaming a volume that does not exist fails.

## Model

| member | source | states |
|---|---|---|
| `Batching.CollectBatches` | qiniu/kodo.go:637-660 | the batcher loop hands over the name stream divided into hundreds, in order and without an empty batch; no array is handed over twice, and each slice still holds its batch at the end |
| `Batching.BatchCount` | qiniu/kodo.go:640-660 | the number of batches is the number of names divided by 100, rounded up |
| `Batching.BatchesUnique` | qiniu/kodo.go:640-660 | a name stream has only one division into batches |
| `Lister.ListObjects` | qiniu/kodo.go:532-555 | every object present at the start is emitted once and in key order, however pages are cut and whichever emitted objects are deleted meanwhile; the loop fails only when the context is cancelled or one of its requests is not answered, and leaves a prefix; otherwise the listing is complete, or nothing was listed at all because of a cancellation or a broken first page; the loop ends |
| `Lister.EmitPage` | qiniu/kodo.go:542-550 | forwarding one page, to its end, to where its reader gives up, or to a cancellation, emits the next consecutive objects and leaves the marker of the last line sent |
| `Lister.Consecutive` | qiniu/kodo.go:482-530 | while nothing unlisted disappears, a page is a run of consecutive objects, and only the last object carries the empty marker |
| `PipelineInvariant.ReachableInv` | qiniu/kodo.go:84-120 | the invariant of all five kinds of goroutine holds in every reachable state of every interleaving |
| `PipelineResults.NothingIsLost` | qiniu/kodo.go:84-120 | at all times a listed name is in exactly one place: results channel, forwarder, names channel, buffer, a batch, or given up after a cancellation; and a batch waits, is in the hands of one worker, or is decided |
| `PipelineResults.NilReturn` | qiniu/kodo.go:102-120 | nil means that every goroutine ended, every batch was accepted, the batches are the listing divided into hundreds, and the listing is complete, or was cut off before its first item by a cancellation or a broken first page |
| `PipelineResults.NilExactly` | qiniu/kodo.go:663-670 | without cancellation, a started run that returns returns nil exactly when the lister reported no error and no request was refused |
| `PipelineReturns.NilAfterNothing` | qiniu/kodo.go:503-511 | whatever the bucket holds, some run returns nil with nothing listed, after a cancellation or after a broken first page |
| `PipelineReturns.NilAfterAll` | qiniu/kodo.go:84-120 | for every listing that does not fail, some run without cancellation accepts every batch and returns nil after the whole listing |
| `PipelineReturns.EmptyPromiseExactly` | qiniu/kodo.go:545-553 | some run returns nil without a complete listing if and only if there was something to list or an error to report |
| `PipelineReturns.UncancelledEmptyPromiseExactly` | qiniu/kodo.go:503-507 | without cancellation such a run exists if and only if, in addition, the first page can break off |
| `PipelineReturns.NilCompleteExactly` | qiniu/kodo.go:545-553 | a given nil return has a complete listing if and only if something was listed, or there was nothing to list and no error |
| `EmptyingResults.RunRefines` | qiniu/kodo.go:482-670 | every state of the paging lister on the shrinking bucket is a reachable state of the pipeline, for the listing that it turns out to be; unlisted objects are still there, and an object of an accepted batch is there exactly when a reply left it |
| `EmptyingResults.NilLeaves` | qiniu/kodo.go:84-120 | after a nil return the objects that are left are exactly those that accepted requests left behind; when nothing was listed all are left, and then there were none or the listing was cut off before its first line |
| `EmptyingResults.NilEmptiesExactly` | qiniu/kodo.go:84-120 | a nil return empties the bucket if and only if there was nothing in it, or something was listed and no accepted request left an object behind |
| `EmptyingResults.CleanNilEmptiesBucket` | qiniu/kodo.go:584-600 | without cancellation, with a first page that is whole and accepted batches that are deleted whole, nil means an empty bucket |
| `EmptyingRuns.Realise` | qiniu/kodo.go:482-670 | the converse simulation: every reachable state of the pipeline is reached on a bucket that holds the listed objects |
| `EmptyingRuns.CutOffLeavesExactly` | qiniu/kodo.go:503-511 | some run returns nil and leaves objects behind without a delete request leaving any if and only if the bucket holds an object |
| `EmptyingRuns.PartialReplyLeavesExactly` | qiniu/kodo.go:593 | some run without cancellation and with a whole first page returns nil and leaves objects behind if and only if the bucket holds an object |
| `EmptyingRuns.BucketHangsExactlyAboveThousand` | qiniu/kodo.go:605-663 | some run on a bucket hangs if and only if it holds more than 1000 objects |
| `EmptyingRuns.BucketHangsUncancelledExactlyAboveTwoThousand` | qiniu/kodo.go:605-663 | some run without cancellation does if and only if it holds more than 2000 |
| `EmptyingRuns.BucketRunsEnd` | qiniu/kodo.go:532-670 | a run on a bucket of n objects has at most 24 n + 263 moves, and two more for each page that broke off before its first line |
| `PipelineResults.ErrorSendsFindRoom` | qiniu/kodo.go:89-118 | every send on an error channel finds room, and the workers' error channel is closed only after all its senders ended |
| `PipelineResults.RunsEnd` | qiniu/kodo.go:605-670 | every run of the pipeline has at most 8 steps per name and 87 more, list requests not counted |
| `PipelineDeadlock.DeadlockIsFinal` | qiniu/kodo.go:640-660 | no step and no cancellation resolves a deadlock |
| `PipelineDeadlock.StuckMeansDeadlocked` | qiniu/kodo.go:605-663 | a reachable state in which nobody can move is a return, or has all ten workers ended with an error and the batcher blocked on a full channel |
| `PipelineDeadlock.DeadlockNeeds` | qiniu/kodo.go:605-663 | a deadlock needs more than 1000 names, and without cancellation ten refused requests and more than 2000 names |
| `PipelineDeadlock.HangsExactlyAboveThousand` | qiniu/kodo.go:605-663 | some run hangs if and only if the listing yields more than 1000 names |
| `PipelineDeadlock.HangsUncancelledExactlyAboveTwoThousand` | qiniu/kodo.go:605-663 | some run without cancellation hangs if and only if the listing yields more than 2000 names |
| `PipelineDeadlock.SmallBucketsReturn` | qiniu/kodo.go:84-120 | with a listing of at most 1000 names, a run that cannot go on has returned, whatever fails or is cancelled |
| `PipelineDeadlock.NineRefusalsAreHarmless` | qiniu/kodo.go:616-635 | without cancellation and with at most nine refused requests no state is stuck |
| `CacheKeys.SuffixInjective` | qiniu/kodo.go:696-945 | for one client the eight key families are injective and disjoint for all region and bucket names |
| `CacheKeys.KeysAreFormatted` | qiniu/kodo.go:696-945 | the eight formats as they are spelled |
| `CacheKeys.ClashExactly` | qiniu/kodo.go:696-945 | two key prefixes share a key if and only if they are equal or one continues the other with the text of a family |
| `CacheKeys.TypeSafeExactly` | qiniu/kodo.go:696-945 | no key of one client belongs to a lookup of another type of another client if and only if neither prefix continues the other |
| `CacheKeys.KeysInjective` | qiniu/kodo.go:696-945 | keys of compatible clients are equal only for the same lookup |
| `CacheKeys.ClientsMayClash` | qiniu/kodo.go:696-945 | two clients for which a cached list is found where a URL is expected |
| `CacheFlights.ReachableInv` | qiniu/kodo.go:982-1006 | whatever keys clients share, the invariant of flights, leaders, waiters and stores holds in every reachable state |
| `CacheItems.ReachableGood` | qiniu/kodo.go:982-1006 | a judgement of values that every fetch and every derivation keeps is kept by cache, flights and goroutines in every reachable state |
| `CacheResults.OneFetchPerKey` | qiniu/kodo.go:990-1003 | for all clients, at most one goroutine fetches for a key at any time |
| `CacheResults.FetchesAreApart` | qiniu/kodo.go:982-1006 | for all clients, a new fetch for a key starts no earlier than the previous store plus the time to live it was stored with |
| `CacheResults.StoresInWindow` | qiniu/kodo.go:982-1006 | for all clients, in a window of T seconds at most 1 + T / TTL stores with at least that time to live happen for a key |
| `CacheResults.NobodyWaitsForEver` | qiniu/kodo.go:982-1006 | for all clients, while a goroutine is inside a lookup, someone can move: flights never wait in a circle, even where a list shares its key with another client's derived lookup |
| `CacheAnswers.ReturnedValueIsGenuine` | qiniu/kodo.go:982-1006 | for clients none of whose prefixes continues another, equal prefixes included, a returned value has the expected type, was stored by a successful fetch under that key, and was unexpired when last checked |
| `CacheAnswers.TypeSafeRunsExactly` | qiniu/kodo.go:702-988 | over all runs of a set of clients, no type assertion on a cached value fails, neither a caller's nor that on the list inside a derived fetch, if and only if no prefix continues another |
| `CacheAnswers.HandedOver` | qiniu/kodo.go:696-705 | a client whose key is that of another client's region list is handed that list in some run |
| `CacheAnswers.CacheIsInvisibleExactly` | qiniu/kodo.go:695-953 | with unchanging servers every cached lookup of every run returns what its uncached form returns if and only if different clients have different prefixes and none continues another |
| `CacheDerived.AnswersExactly` | qiniu/kodo.go:706-942 | what each lookup answers, told from the two lists: S3, RS and RSF endpoints are the first domain of that service of the first region with the id, the API endpoint that of the first region, an S3 region id and a bucket those of the first match; a region or bucket that is missing is nil, a service without a domain an error; a domain without "://" gets the scheme of the UC endpoint |
| `CacheDerived.CachedAnswers` | qiniu/kodo.go:695-953 | with unchanging servers and clients that do not share keys, the cached lookups of every run give these answers |
| `CacheAnswers.StoresHold` | qiniu/kodo.go:695-953 | for compatible clients every store under a lookup's key is kept for that lookup's time to live |
| `CacheAnswers.FreshExactly` | qiniu/kodo.go:697-945 | for compatible clients a lookup is answered from the cache if and only if a value was stored under its key less than 86400 seconds ago, or less than one for the bucket list |
| `CacheAnswers.StalenessBound` | qiniu/kodo.go:706-728 | for compatible clients, a fresh derived entry rests on a list stored less than both times to live ago, plus the time spent inside the flights |
| `CacheAnswers.StalenessInSeconds` | qiniu/kodo.go:903-953 | that is 172800 seconds for endpoints and S3 regions, and 86401 for buckets |
| `Lifecycle.Controller.CreateVolume` | plugin/kodo_controller_server.go:45-208 | the RPC goes through exactly the steps of its specification, whatever fails, and returns the volume in the map or an error; a new volume has the requested capacity, the context of the request, and a bucket named after it |
| `Lifecycle.Controller.DeleteVolume` | plugin/kodo_controller_server.go:210-259 | the same for deletion, which takes the volume out of the map first and whose cleaning may leave objects even when it reports success |
| `LifecycleOutcomes.CreationStops` | plugin/kodo_controller_server.go:57-200 | a creation makes its calls in order: bucket, user, key pair, policy, grant, insertion; after a call that failed it takes no further step |
| `LifecycleOutcomes.CreationLeaves` | plugin/kodo_controller_server.go:57-200 | the exact account and map after a creation, for every outcome of every lookup and call |
| `LifecycleOutcomes.DeletionStops` | plugin/kodo_controller_server.go:232-256 | a deletion makes its calls in order: revoke, drop the policy, drop the user, clean and drop the bucket; after a call that failed it takes no further step |
| `LifecycleOutcomes.DeletionLeaves` | plugin/kodo_controller_server.go:232-256 | the exact account and map after a deletion, for every outcome of every call |
| `LifecycleOutcomes.BucketGoesExactly` | plugin/kodo_controller_server.go:246-256 | the bucket goes if and only if the reclaim policy is Delete, every earlier call was done and dropping it was not refused; when an earlier call failed, or cleaning was refused, it keeps all its objects |
| `LifecycleResults.VolumesStayIntact` | plugin/kodo_controller_server.go:49-246 | in every intermediate state of every sequence of RPCs with any faults, each volume in the map has its bucket, IAM user, policy naming that bucket, and grant |
| `LifecycleResults.StepKeeps` | plugin/kodo_controller_server.go:96-246 | every single step of an RPC keeps that invariant |
| `LifecycleResults.RepeatedCreate` | plugin/kodo_controller_server.go:52-55 | until a volume is deleted, creating it again returns the same volume without a remote call |
| `LifecycleResults.AlwaysIntactExactly` | plugin/kodo_controller_server.go:96-246 | all runs over a set of volumes, from an empty account, keep every volume intact in every state if and only if no two of them share a policy name |
| `LifecycleResults.OthersKept` | plugin/kodo_controller_server.go:232-256 | in any state, no RPC takes a resource from a volume with another policy name, at any step |
| `LifecycleResults.IsolationExactly` | plugin/kodo_controller_server.go:232-256 | after any run on two volumes, RPCs on one never take a resource from the other if and only if their policy names differ |
| `LifecycleResults.PolicyInjective` | plugin/utils.go:499-501 | names with dashes at the same places have different policy names |
| `LifecycleResults.PolicyDropsDashes` | plugin/utils.go:499-501 | a policy name is the name without its dashes, piece by piece |
| `LifecycleResults.SharedPolicyExample` | plugin/utils.go:499-501 | other names may share one |
| `LifecycleResults.BucketsDiffer` | plugin/kodo_controller_server.go:63 | the suffix of fixed length keeps bucket names of different volumes apart |
| `LifecycleResults.CreateThenDelete` | plugin/kodo_controller_server.go:57-256 | a fault-free creation, any writes, and a successful deletion restore the account exactly, or leave only the bucket when it is retained |
| `VolumeDeletion.DeletionFindsItsBucket` | plugin/kodo_controller_server.go:213-234 | the attributes of a created volume parse, name the bucket created for it, and give back the keys of the account |
| `Text.UintRoundTrip` | plugin/kodo_parameters.go:491-497 | printing and parsing a 64-bit number gives it back |
| `Text.TrimSpaceExactly` | plugin/kodo_parameters.go:469-471 | trimming takes away the white space at both ends, all of it and nothing else |
| `Fields.FieldOf` | plugin/kodo_parameters.go:14-50 | the field can be told from its published name, so no two fields share one |
| `Fields.NamesAreSpelled` | plugin/kodo_parameters.go:14-50 | the spelling of every published name |
| `Fields.RecogniseExactly` | plugin/kodo_parameters.go:84-102 | a stage of parsing recognises a key as a field if and only if the key is the field's published name and the field is one of that stage |
| `Parameters.RunLoop` | plugin/kodo_parameters.go:200-408 | the loop over the map computes the specified record for some order of the keys |
| `Parameters.LoopVerdict` | plugin/kodo_parameters.go:200-408 | the loop fails if and only if a recognised value is invalid, in any order |
| `Parameters.LoopExactly` | plugin/kodo_parameters.go:200-408 | when keys for the same field agree, the loop succeeds exactly on valid maps, with exactly what the map says |
| `Parameters.OrderFreeExactly` | plugin/kodo_parameters.go:84-103 | the result is independent of the map order if and only if a value is invalid or keys that lower-case to the same field carry the same value |
| `VolumeParameters.CompleteExactly` | plugin/kodo_parameters.go:409-464 | completion from the secrets succeeds exactly when each field can be completed, independently of the others, and changes no other field |
| `VolumeParameters.ClassVerdict` | plugin/kodo_parameters.go:197-467 | the storage class parser accepts exactly the maps whose recognised values are valid, whose mandatory fields are supplied, and whose path style is readable |
| `ParameterWords.ParseUintExactly` | plugin/kodo_parameters.go:491-493 | a text is read as a number if and only if it is its decimal text, with any number of leading zeros, and the number fits into 64 bits |
| `ParameterWords.ParseValueExactly` | plugin/kodo_parameters.go:469-501 | which texts stand for which values: yes, true, y, on; no, false, n, off; the words of the cache modes; numbers, durations, URLs; case and white space around do not count |
| `ParameterWords.RecordExactly` | plugin/kodo_parameters.go:197-467 | each field of an accepted record is what the map says in these words, or else, for seven fields, what the secrets say, or the default |
| `ParameterWords.SwitchExactly` | plugin/kodo_parameters.go:200-408 | a switch of an accepted record is on if and only if the map gives it as yes, true, y or on |
| `VolumeParameters.ClassRecord` | plugin/kodo_parameters.go:409-464 | each field of an accepted record is what the map gives, or else what the secrets say; a region that neither gives is "z0", a storage class "STANDARD", and any other field empty |
| `VolumeParameters.VolumeOrderFree` | plugin/kodo_parameters.go:73-173 | with keys distinct after lower-casing, the volume parser does not depend on the order of either of its loops |
| `VolumeRecords.VolumeExactly` | plugin/kodo_parameters.go:73-173 | the volume parser returns what map, secrets and server say, each lookup made only for what is missing and with the keys and the region of the record; it accepts if and only if the class parser does, no recognised value is invalid, and everything missing is found |
| `ParameterOrders.LoopYieldsExactly` | plugin/kodo_parameters.go:200-408 | over all orders, the loop on a valid map yields exactly the records that take one of the given values for each given field |
| `ParameterOrders.DecidedExactly` | plugin/kodo_parameters.go:409-464 | whichever of the given values are taken, completion gives the same result if and only if the values of each field end alike, or some field fails for all of its values |
| `ParameterOrders.ClassOrderFreeExactly` | plugin/kodo_parameters.go:197-467 | the storage class parser does not depend on the order if and only if a value is invalid, the values of each field end alike after completion, or some field fails for all of its values |
| `VolumeOrders.ShownExactly` | plugin/kodo_parameters.go:128-172 | the lookups give the same result for two records, whatever the server answers, if and only if neither can be resolved, being missing or without bucket id and name, or they are equal up to a region that the lookup of the bucket replaces |
| `VolumeOrders.VolumeFreeExactly` | plugin/kodo_parameters.go:73-173 | the volume parser does not depend on its two orders, whatever the server answers, if and only if a value is invalid, some field fails for all of its values, the bucket is left without id and name, or the values of each field end alike after completion, a region that the lookup of the bucket replaces excepted |
| `VolumeContext.ContextRoundTrip` | plugin/kodo_controller_server.go:111-200 | for every accepted record the published context is parsed back, in every order, with the same secrets and no remote lookup, into a record with the server's answers, the IAM keys, the account's keys under their original names, and every other field as accepted, except that an unset cache mode is read as "off" |
| `PublishedContext.OptionPublished` | plugin/kodo_controller_server.go:111-200 | every option is published under its name with its value, a switch only when it is on, an option only when it is set |
| `PublishedContext.AnswersPublished` | plugin/kodo_controller_server.go:111-125 | the bucket, the endpoint, the regions and both key pairs are published under the names spelled here |
| `PublishedContext.OnlyFieldsPublished` | plugin/kodo_controller_server.go:111-200 | nothing else is published |
| `VolumeExample.RoundTripApplies` | plugin/kodo_parameters.go:409-435 | the hypotheses of the round trip hold together: an empty storage class with the mandatory secrets is accepted and can be published |
| `VolumeContext.ClassIsProper` | plugin/kodo_parameters.go:197-501 | every accepted record holds trimmed texts, 64-bit numbers and known cache modes only |
| `CommandLine.LineRoundTrip` | protocol/kodo_cmd.go:138-149 | a command line of global flags, mount, mount flags, source and target is read back whatever its values are |
| `MountCommand.RcloneArguments` | protocol/kodo_cmd.go:60-149 | the conditional appends print exactly the options of the command, and the reader gets them back |
| `MountCommand.ExecCommand` | protocol/kodo_cmd.go:153-158 | rclone, or systemd-run with these five options in front of it and the unit's name, gets exactly these arguments |
| `MountCommand.EachFlagOnce` | protocol/kodo_cmd.go:60-136 | every flag stands in its own section, once and with its own value if the command asks for it, and otherwise not at all |
| `MountArguments.ArgvIsSpelled` | protocol/kodo_cmd.go:60-149 | the whole list of arguments, token by token as it is spelled |
| `MountArguments.FlagStands` | protocol/kodo_cmd.go:60-136 | each flag that the command asks for stands in the arguments under its spelling, followed by its value |
| `MountCommand.SameArgvExactly` | protocol/kodo_cmd.go:60-149 | commands have the same arguments if and only if they agree on every option, on the mount point, and on the text of bucket, slash and normal directory |
| `MountCommand.ArgvLosesNothing` | protocol/kodo_cmd.go:145-149 | for bucket ids without a slash, commands with the same arguments agree on every field, up to the normal form of the directory |
| `MountCommand.SlashedBucketsCollide` | protocol/kodo_cmd.go:146 | bucket "a/b" with directory "c" and bucket "a" with directory "b/c" give the same arguments |
| `MountCommand.NormalizeDirExactly` | protocol/utils.go:41-52 | a directory gets its final slash, and keeps a leading one exactly when it is empty, a slash, or starts with two |
| `MountCommand.NormalizeDirForms` | protocol/utils.go:41-52 | a directory comes out the same with or without a slash before or after it |
| `MountOptions.OptionArrives` | plugin/utils.go:295-365 | every option of a parameter record can be read off rclone's arguments with its own value |
| `MountOptions.OptionReachesRclone` | plugin/kodo_node_server.go:36-50 | the whole way: an option accepted from the storage class is published, read back by the node, and reaches rclone with its own value; rclone mounts the accepted sub-directory of the created bucket at the mount point |
| `RcloneConfig.WriteConfig` | connector/utils.go:131-154 | the section holds exactly the entries that the command asks for |
| `RcloneConfig.ConfigHolds` | plugin/utils.go:295-365 | the IAM keys, the S3 region, also as location constraint, and endpoint, the accepted storage class and upload options reach the config file with their own values, a path style that was not given as "false", and type, provider, acl and bucket check with their fixed values |
| `MountProtocolSafety.RunInv` | connector/main.go:210-485 | the invariant of client, connection, handler and child holds in every state of every run |
| `MountProtocolSafety.NoRejections` | connector/main.go:372-377 | the handler never meets a second init command nor data before the process was started, and starts at most one child |
| `MountProtocolSafety.OneTerminate` | connector/main.go:396-411 | at most one Terminate is sent, with the child's exit code |
| `MountProtocolSafety.StdinIsAnswers` | connector/main.go:471-479 | the child's input is always a prefix of the client's replies, which are the answers to the child's prompts in order |
| `MountProtocolSafety.RepliesFollowPrompts` | plugin/utils.go:229-247 | the replies answer the recognised prompts in order: the address where it is asked for, the token where only that is asked for, and nothing for error output and other text; only a client that failed can owe a reply, and only one |
| `MountProtocolSafety.KodoFsReplies` | plugin/utils.go:232-243 | the same with the words of the two prompts |
| `MountProtocolSafety.SuccessExactly` | plugin/utils.go:216-261 | the client reports success if and only if it received Terminate(0), and then the child exited with 0, or the stream ended without any Terminate |
| `MountProtocolSafety.PatientSuccess` | connector/main.go:263-323 | if the connector hangs up only on clients that are over, success is reported if and only if Terminate(0) was received |
| `MountProtocolSafety.MisledExactly` | plugin/utils.go:252-260 | a client that is still looping can be told of a success that nobody reported if and only if the connector has hung up while no Terminate was on its socket |
| `MountProtocolSafety.SuccessWithoutChild` | plugin/utils.go:260 | a run in which the client reports success and no child was started |
| `MountProtocolSafety.SuccessWithAnyChild` | plugin/utils.go:260 | runs in which it does while the child is alive, or after it exited with any code |
| `CacheTree.CacheDirectory.PrepareMount` | connector/main.go:445-450 | a mount creates the directories of its specification |
| `CacheTree.CacheDirectory.CleanAfterUnmount` | connector/main.go:463-470 | an unmount removes the leaf, and the volume's directory if that is empty |
| `CacheTree.TreeFollowsHistory` | connector/main.go:445-470 | over every history on volume ids that are one path component, a leaf exists exactly when the last command that got to it was a mount, and a volume's directory exactly when it has a leaf or a mount stopped halfway since its last unmount |
| `CacheTree.UnmountTakesExactly` | connector/main.go:463-470 | exactly when an unmount takes away another mount's leaf, which needs a volume id that is not one path component |
| `Archive.Store.ArchiveVolume` | plugin/kodofs_controller_server.go:186-196 | the loop ends, always with an error, at an index that is at most the number of volumes, and at the first whose lookup fails; the volume is moved at most once, before that, to the first free name, or everything stays; without faults it is moved, and the error is that of renaming it once more, at the next free name |
| `Archive.NameIsSpelled` | plugin/kodofs_controller_server.go:187 | an archive name is "deleted-", the decimal index, a dash and the id |
| `Archive.TakenNames` | plugin/kodofs_controller_server.go:187 | archive names are injective in their index, so n of them cannot all be taken by fewer than n volumes |
| `Archive.FirstFreeExists` | plugin/kodofs_controller_server.go:186-190 | the first free index exists and is at most the number of volumes |
| `Archive.MovedKeeps` | plugin/kodofs_controller_server.go:191-193 | renaming overwrites no volume and preserves the contents of every one |

## Left out

- KodoFS parameters and the KodoFS CreateVolume context: the same shape as the Kodo ones, with fewer fields.
- Request signing (qiniu/auth.go): HMAC and base64 are not modelled.
- HTTP requests, status codes, JSON and URL syntax: remote calls are steps with an outcome.
- The text of the rclone config file (connector/utils.go:156-157): the model has its entries, not the file that two mounts of one volume share.
- Objects added to a bucket while it is emptied, and servers that give the last object a marker.
- The racing close of the connector's channels (connector/main.go:326, 365-368, 402-405): no claim is made about it; a handler that has stopped drops its messages in the model.
- Which stream a message names: both output readers read stdout (connector/main.go:357).
- Mounting Kodo (plugin/utils.go:263-404): the client loop is the one modelled for KodoFS without its replies.
- Commands handled concurrently on the cache directories, failing removals, and the log directory (connector/main.go:466-469).
- Deleting KodoFS volumes under the reclaim policy Delete (plugin/kodofs_controller_server.go:127-181).
- Retries by Kubernetes after a failed RPC, and IAM calls on names that other programs use.
- MountCommand.RcloneArguments: the appends are grouped into methods of seven flags.
- Fields.RecogniseExactly: the two switches are modelled by the names of their cases, not by their order, which does not matter because the names differ.
- Lifecycle.Controller.CreateVolume: the volume context is an input of the request; `VolumeContext` and `VolumeDeletion` say what it holds.
- Lifecycle.Controller.DeleteVolume: the lookup in Kubernetes before the lock is an input of the request.
- Clocks, randomness, the file system and the operating system are inputs.
