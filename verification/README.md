# Coroot operator: a verified model of the reconcile engine

The operator watches `Coroot` resources and drives a Kubernetes object store towards what they ask for.  This project
models the code that does it and proves what that code keeps, call by call and over whole runs.
`dafny verify dfyconfig.toml` checks everything.

What is modelled, from the bottom up:

* **Three-way merge** (`Json`, `ThreeWayMerge`, `LastApplied`, `GoMaps`).  An object's annotations remember what the
  operator applied last.  A merge drops what it used to own, enforces what it wants, and keeps what others added.
  Annotation maps are heap objects, because on creation the wanted map and the object's map are one Go map.
* **Names** (`Text`, `ObjectNames`, `Topology`, `Keeper`).  Which objects belong to a resource, how they are called, and
  why claims, StatefulSets, generated configuration and the keepers' host name parser agree on it.
* **Normalisation** (`Resource`, `Normalisation`, `Consultation`, `References`, `Validation`, `ConfigEnvs`, `Checksum`,
  `Collisions`, `KnownChecksums`, `Problems`, `Sorting`).  Validation replaces secret selectors by references to
  environment variables named by CRC-32 checksums, drops unusable parts and collects problems.  `Normalisation` is the
  specification, `Consultation` says which lookups it depends on, `References` which references it writes and what they
  deliver, `Problems` exactly what it reports, `Validation` is the code that rewrites the resource in place.
* **Store and plan** (`Store`, `ApiServer`, `Plan`, `Inventory`, `Prerequisites`, `Stored`, `Reconciler`).  `Store` says what one
  write does to one object, `Plan` which writes a reconcile makes.  `Inventory`, `Prerequisites` and `Stored` say, of the
  resource as given, which objects these are, in which order they come, and what is in the store afterwards.
  `ApiServer` and `Reconciler` are the wrappers and the reconcile loop as they change state; their methods are proved to
  have exactly the planned effect.
* **Repeated reconciles** (`Convergence`, `Generation`, `FirstReconcile`, `Events`, `Independence`, `WholeOperator`,
  `Settled`).  One resource settles with its second reconcile, and with its first exactly under a stated condition; resources do
  not interfere, so the whole operator settles.
* **Runs** (`Runs`).  What every interleaving of API calls keeps: secrets, claims, claim templates, and what each
  merge reads as last applied.
* **Concurrency** (`RoleSafety`, `Tracking`, `SelfHealing`, `Overtaken`).  Worker and ticker threads as a state machine whose steps end at every
  API call and every lock operation.
* **Images and Postgres** (`Versions`, `Postgres`).  Maps that are updated in place and then visited in arbitrary order.

Six properties one might expect fail.  For each there is the exact condition under which it holds, and an input for which
it does not:

* Claims and the StatefulSets that mount them agree exactly for counts that are non-negative and fit 32 bits, because
  claims default on zero only; a negative number of keepers becomes three, so there only counts of 2^31 and more fail
  (`Topology.CountsThatDisagree`).
* A reference leads to its selector exactly if no later selector has the same checksum; two keys of five characters in
  one secret collide (`Normalisation.ReferenceLeadsToSelector`, `ConfigEnvs.KeysCollide`).
* Normalising again changes nothing exactly if no SAML metadata was let through that does not parse as it stands
  (`Normalisation.NormaliseAgain`, `Normalisation.SamlLostSecondTime`).
* A pass of the ticker deletes the cluster role and binding of the last resource exactly if something was still tracked
  when it started, or they were gone already; a reconcile overtaken by the deletion of its resource leaves them behind
  for good (`Overtaken.PassDeletesLastRoles`, `Overtaken.OvertakenReconcile`).
* The text of the Postgres connection is read back as the parameters exactly if no key holds an equals sign and no value
  a quote (`Postgres.TextReadsBackIff`, `Postgres.QuotesMislead`).
* One reconcile is enough exactly if it generates nothing that a lookup has just missed
  (`FirstReconcile.OneReconcileSuffices`).

## Model

| member | source | states |
|---|---|---|
| `ThreeWayMerge.MergePatchIsReconciled` | controller/utils.go:79-93 | for all JSON trees, building the three-way patch and applying it gives the merge defined without patches: wanted values win, values no longer wanted go, others stay |
| `ThreeWayMerge.MergeIsReconciled` | controller/utils.go:79-93 | the early return on an empty patch agrees with the general path |
| `ThreeWayMerge.WantedPaths` | controller/utils.go:79-93 | after a merge every wanted path is there, with the wanted value if it is a leaf |
| `ThreeWayMerge.OtherPaths` | controller/utils.go:79-93 | a path that is not wanted stays, unchanged, exactly when no step to it is a wanted leaf or was applied before and is no longer wanted; otherwise it is absent |
| `ThreeWayMerge.DroppedPaths` | controller/utils.go:79-93 | every path that was applied last and is no longer wanted is gone |
| `ThreeWayMerge.RemergeFindsNothing` | controller/utils.go:79-87 | merging the result again with what was just recorded yields exactly the empty patch |
| `ThreeWayMerge.MergeFresh` | controller/utils.go:79-87 | on creation the live object already is what is wanted |
| `ThreeWayMerge.NoLeftovers` | controller/utils.go:52-101 | over any run of merges without foreign edits, nothing that was ever wanted outlives the wish for it |
| `LastApplied.MergeSpecs` | controller/utils.go:37-103 | the method on shared, mutable annotation maps: new annotations, record and specification as functions of the old ones, also when the wanted map is the object's own map and when the record is malformed; the wanted map itself stays as it was unless it is the object's |
| `LastApplied.StampAnnotations` | controller/utils.go:52-73 | the loops over the annotation map and the record taken between them, also for shared maps |
| `LastApplied.AnnotationsTracked` | controller/utils.go:38-73 | after any run of merges the annotations are the initial ones without any key ever wanted, plus the latest wish, plus the record, which holds exactly the latest wish |
| `LastApplied.StampAgain` | controller/utils.go:52-73 | stamping the same wish again changes nothing |
| `LastApplied.MarkerMeans` | controller/utils.go:56-73 | what the record annotation tells: nothing applied if it is absent or empty, what was applied last if it holds a record, and an error if its text cannot be read |
| `ApiServer.ApiServer.Mutate` | controller/controller.go:194-203 | the mutate function on a live object, or on the wanted object itself whose annotations are the resource's own map, has exactly the effect of one merging write; with a live object the resource's map stays as it was |
| `ApiServer.ApiServer.CreateOrUpdateMerged` | controller/controller.go:261-301 | wrappers for Deployments, DaemonSets, StatefulSets, claims, Services and Ingresses: the store changes by one merging write |
| `ApiServer.ApiServer.CreateOrUpdateReplaced` | controller/controller.go:313-327 | roles, cluster roles and configuration maps: content overwritten, other parts of the object kept |
| `ApiServer.ApiServer.CreateOrUpdateEnsured` | controller/controller.go:303-311 | accounts and bindings: an existing object keeps its content |
| `ApiServer.ApiServer.CreateOrUpdateSecret` | controller/controller.go:233-251 | at every key of the store: missing data keys are filled in, existing values and all other objects stay, no keys means no write |
| `ApiServer.ApiServer.GenerateSecrets` | controller/coroot.go:140-142 | generating several secrets in arbitrary map order is one simultaneous write |
| `ApiServer.HistoryApplies` | controller/controller.go:113-173 | the store after a history of writes is the composition of their effects |
| `Store.ApplyAllAt` | controller/controller.go:188-216 | objects under different keys never influence each other |
| `Store.MergeAfterAdjusting` | controller/controller.go:275-301 | restoring claim templates, or forcing service ports, after the merge leaves it idempotent |
| `Store.EffectTwice` | controller/controller.go:188-251 | every single write is idempotent, whatever random values the second one would generate |
| `Store.EffectAllTwice` | controller/controller.go:113-173 | a list of writes without conflicting writes to one key is idempotent at that key, controller references included |
| `Store.ApplyAllTwice` | controller/controller.go:113-173 | the same for the whole store |
| `Store.ApplyOnceMore` | controller/controller.go:140-143 | leaving out one write the second time, as the deletion of the former Deployment, changes nothing either |
| `Store.DataAfter` | controller/controller.go:233-251 | what generating makes of a secret, key by key |
| `Store.ApplyAllCommute` | controller/controller.go:113-173 | two lists of writes commute at every key that only one of them touches |
| `ObjectNames.KeysDisjoint` | controller/controller.go:113-173 | equal keys mean the same part of the same resource, for all names, shards and replicas; cluster-scoped keys ignore the namespace |
| `ObjectNames.NumberedInjective` | controller/clickhouse.go:108 | dash-separated ordinals can be read back from a name |
| `ObjectNames.StemsSuffixFree` | controller/controller.go:303-308 | no name stem of a kind is a suffix of another one of that kind |
| `ObjectNames.AccountNames` | controller/controller.go:303-308 | roles, accounts and bindings are called after the resource and the component; a binding names its account and the role of its security constraint, privileged for the node agent alone |
| `ObjectNames.AgentNames` | controller/node_agent.go:16-24 | the agents' DaemonSet and Deployment, cluster role and binding have the names written out here |
| `ObjectNames.ServerNames` | controller/coroot.go:230-365 | configuration, StatefulSet, Service and the former Deployment of the server share one name; the ingress is called like the resource |
| `ObjectNames.ClickhouseNames` | controller/clickhouse.go:16-29 | headless and ordinary service and the password secret of ClickHouse |
| `ObjectNames.ShardClaimName` | controller/clickhouse.go:104-112 | the claim of a shard and replica is called `data-`, resource, shard, replica |
| `ObjectNames.KindsOfParts` | controller/controller.go:253-331 | which kind of object each part is |
| `Plan.WritesCoherent` | controller/controller.go:113-173 | one reconcile never makes two different writes to one key, except that both may generate a secret |
| `Text.ReadPrint` | controller/utils.go:121 | printed numbers can be read back (decimal and hexadecimal) |
| `Text.LeqAtDifference` | controller/utils.go:131 | texts are ordered by the first byte in which they differ |
| `Text.LeqPrefix` | controller/utils.go:131 | and a proper prefix comes first |
| `Normalisation.NormaliseIsSafe` | controller/coroot.go:32-229 | every selector of a project becomes a reference or a reported problem; integrations, basic authentication, single sign-on and AI provider are kept exactly if usable; references are to given selectors only; several replicas have Postgres; everything else stays |
| `Problems.ProblemsInOrder` | controller/coroot.go:32-229 | the problems reported are exactly those of the specification, each in its place: a list that is computed without normalising anything |
| `Problems.SecretReportedIff` | controller/coroot.go:43-229 | a secret is reported for a subject, with a reason, if and only if that subject's credential is given by it, is looked up, and the lookup fails for that reason |
| `Problems.SamlReportedIff` | controller/coroot.go:150-171 | invalid metadata is reported if and only if an enterprise resource enables single sign-on with metadata that is not empty and does not parse |
| `Problems.ProviderReportedIff` | controller/coroot.go:172-229 | a provider is reported as unknown if and only if an enterprise resource chooses it and it is none of the three |
| `Problems.ReplicasReportedIff` | controller/coroot.go:32-37 | too many replicas are reported if and only if there are several without Postgres |
| `Problems.NoProblemIff` | controller/coroot.go:23-232 | nothing is reported if and only if every secret looked up is there, metadata parses, the provider is known, and several replicas have Postgres |
| `Problems.HealthyIff` | controller/controller.go:178-184 | a reconcile ends healthy if and only if that holds of the resource and the secrets in the store, and otherwise misconfigured with exactly its problems |
| `Normalisation.NormaliseAgain` | controller/coroot.go:32-229 | normalising the result against secrets that still exist changes nothing outside SAML and reports at most license or SAML problems; it changes nothing at all if and only if no unparsable SAML metadata was let through |
| `Normalisation.VariablesNamedByChecksum` | controller/utils.go:119-124 | every variable is named by the checksum of the selector it holds, and every added selector has its variable |
| `Normalisation.ReferenceLeadsToSelector` | controller/utils.go:119-124 | the name read back from the text of a reference is a variable that takes its value from the selector the reference was written for, if and only if no selector referred to later has the same checksum |
| `References.ReferredInOrder` | controller/coroot.go:59-228 | validation refers to exactly the available selectors, and all API keys, in the order of the specification |
| `References.LastOfChecksumWins` | controller/utils.go:119-133 | in the list handed to the server, the name read from a reference's text is a variable of that selector if and only if the selector is the last of its checksum in that order |
| `References.DifferentChecksumsSuffice` | controller/utils.go:119-133 | if the selectors of a specification have different checksums, the text of every reference names a listed variable of its own selector |
| `References.KeysBecome` | controller/coroot.go:51-59 | of the normalised specification: the value of every API key given by a selector is such a text, and every other one is as given |
| `References.PartsBecome` | controller/coroot.go:60-128 | likewise every credential of an integration that is kept: a delivering reference if the secret was there, and otherwise the plain text given |
| `References.EnterpriseBecomes` | controller/coroot.go:150-229 | likewise the metadata of an enabled single sign-on and the key of the chosen AI provider |
| `Normalisation.ReferenceMayMislead` | controller/coroot.go:61-71 | it can fail: for two existing keys of one secret the name read from the Slack token is a variable that takes its value from the PagerDuty key |
| `Normalisation.SamlLostSecondTime` | controller/coroot.go:150-171 | normalising again can change something: metadata in a secret that parses is kept the first time and dropped the second, for every parser that rejects the reference |
| `Consultation.NormaliseAgrees` | controller/coroot.go:23-232 | what validation makes of a resource depends only on the answers to the lookups it makes: the administrator's password and the integrations before API keys are generated, license, enabled SAML and the chosen AI provider afterwards |
| `Consultation.MissingIsReported` | controller/coroot.go:43-229 | every lookup that finds no value is reported, with its reason |
| `Validation.Validator.ValidateCoroot` | controller/coroot.go:23-232 | the step-by-step rewriting of the resource, with API keys generated on the way, yields exactly the normalised specification, references and problems, and makes exactly the API-key write |
| `Validation.Validator.LookUp` | controller/controller.go:218-231 | a lookup finds the key of the secret, or says which of the two is missing |
| `ConfigEnvs.ConfigEnvs.Add` | controller/utils.go:119-124 | adds the variable and returns a text from which exactly its name is read back; other variables stay unless the names collide |
| `ConfigEnvs.ReferenceReadsBack` | controller/utils.go:123 | the name between the braces is read back from every reference, so references with one text name one variable |
| `ConfigEnvs.EnvNameText` | controller/utils.go:120-122 | a variable's name is the prefix followed by the checksum in hexadecimal, which can be read back |
| `ConfigEnvs.ConfigEnvs.List` | controller/utils.go:126-133 | the list is strictly sorted by name and holds exactly the entries, for every visiting order of the map |
| `ConfigEnvs.ListIsUnique` | controller/utils.go:126-133 | there is only one such list |
| `ConfigEnvs.NearSelectorsSeparated` | controller/utils.go:120-121 | two selectors with equally long texts that differ only within four consecutive bytes never share a variable |
| `ConfigEnvs.NearTextsSeparated` | controller/utils.go:120 | the same for texts and checksums |
| `ConfigEnvs.KeysCollide` | controller/utils.go:119-124 | the bound of four is tight: two keys of five letters and digits share a variable in every secret |
| `Checksum.BurstDetected` | controller/utils.go:120 | CRC-32 with the IEEE polynomial detects every change confined to four consecutive bytes |
| `Collisions.FiveByteBursts` | controller/utils.go:120 | a change within five consecutive bytes goes undetected if and only if the polynomial divides the difference |
| `Collisions.FiveBytesCollide` | controller/utils.go:120 | two different texts of five letters and digits collide wherever they stand |
| `Checksum.PolynomialValue` | controller/utils.go:120 | the polynomial of the register is 0xEDB88320 |
| `KnownChecksums.KnownValue` | controller/utils.go:120 | the checksum of the bytes FF FF FF 7F is 0x12477CDF |
| `KnownChecksums.OwnChecksum` | controller/utils.go:120 | a text followed by its own checksum, least significant byte first, has one and the same checksum for all texts |
| `Topology.CorootClaims` | controller/coroot.go:264-297 | the loop lists one claim per replica |
| `Topology.KeeperClaims` | controller/clickhouse_keeper.go:57-85 | the loop lists one claim per keeper |
| `Topology.ShardClaims` | controller/clickhouse.go:91-129 | the nested loops list one claim per shard and replica |
| `Topology.ShardSets` | controller/clickhouse.go:131-146 | the loop lists one StatefulSet per shard |
| `Topology.ClaimNamesDistinct` | controller/clickhouse.go:106-110 | no two claims of a resource share a name, for any counts |
| `Topology.CorootClaimsAgree` | controller/coroot.go:270-280 | the claims are exactly those that the pods of the Coroot StatefulSet mount if and only if the count is non-negative and fits 32 bits |
| `Topology.KeeperClaimsAgree` | controller/clickhouse_keeper.go:64-68 | the claims are exactly those that the keeper pods mount if and only if the requested count fits 32 bits |
| `Topology.RequestedKeepers` | controller/clickhouse_keeper.go:16-21 | as many claims, and pods if the count fits 32 bits, as keepers are requested, or three if the number is not positive |
| `Topology.RequestedServers` | controller/coroot.go:264-280 | as many claims and pods as replicas are requested, or one |
| `Topology.RequestedShards` | controller/clickhouse.go:93-146 | as many StatefulSets as shards, pods as replicas, and claims as both together are requested, each at least one |
| `Topology.ShardClaimsAgree` | controller/clickhouse.go:93-140 | the claims are exactly those that the pods of all shards mount if and only if the counts are non-negative and the replicas fit 32 bits |
| `Topology.CountsThatDisagree` | controller/clickhouse.go:93-140 | counts of -1 for which claims and pods of Coroot and ClickHouse differ, and 2^31 keepers; -1 keepers become three and agree |
| `Topology.ClickhouseConfigOf` | controller/clickhouse.go:244-267 | the template enumerates one list of hosts per shard, then the keepers |
| `Topology.ShardConfig` | controller/clickhouse.go:184-194 | the configured remote servers are exactly the pods of the generated StatefulSets under their own headless service; the configured keepers are as many as requested, or three, and are the keeper pods if and only if the requested count fits 32 bits |
| `Keeper.ServerIdMatches` | controller/clickhouse_keeper.go:193 | the host name parser returns the digits that end the name after a dash |
| `Keeper.ServerIdMismatches` | controller/clickhouse_keeper.go:193 | and the name itself if it does not end like that |
| `Keeper.PodParsesItsOrdinal` | controller/clickhouse_keeper.go:193 | a keeper pod parses its own ordinal |
| `Keeper.RaftServers` | controller/clickhouse_keeper.go:179-192 | the template enumerates the members |
| `Keeper.RaftConfig` | controller/clickhouse_keeper.go:97-131 | as many members as keepers are requested, or three; every keeper pod's own id occurs exactly once among them, beside that pod's own host name, and there is no other member |
| `Versions.VersionTable.FetchAppVersions` | controller/versions.go:66-92 | whatever was in the table and whichever fetches fail, the critical section leaves exactly the eight images of this fetch, for every visiting order |
| `Versions.VersionTable.PrefixAll` | controller/versions.go:89-91 | rewriting the map while ranging over it prefixes each entry once |
| `Versions.VersionTable.GetAppImage` | controller/versions.go:35-64 | the image given in the resource for that very app wins, otherwise the table's; pull policy and secrets are the resource's |
| `Versions.PrefixedOnce` | controller/versions.go:66-92 | every app has an entry, prefixed with the registry exactly once |
| `Versions.FixedEntries` | controller/versions.go:24-33 | the images of ClickHouse, keeper, Prometheus and the state metrics, in full |
| `Versions.ReleasedEntries` | controller/versions.go:66-92 | the image of each release: registry, name, and the fetched version, or latest if none was fetched |
| `Versions.OverridesApart` | controller/versions.go:35-64 | each image given in a resource is for one app only |
| `Postgres.ConnectionString` | controller/postgres.go:11-34 | the text is the sorted join of the non-empty effective parameters for every visiting order of the map, and the caller's map is left with the effective parameters |
| `Postgres.OrderIrrelevant` | controller/postgres.go:26-33 | the visiting order does not matter |
| `Postgres.TextReadsBackIff` | controller/postgres.go:26-33 | a reader of `k='v'` pairs gets back exactly the non-empty effective parameters, each once, if and only if no key holds an equals sign and no value a quote |
| `Postgres.QuotesMislead` | controller/postgres.go:26-33 | otherwise two different sets of parameters may have one text |
| `Postgres.ExplicitFieldsOverride` | controller/postgres.go:16-25 | explicit fields override parameters, the port only when given; the mode defaults to disable; other parameters stay; nothing else is added |
| `Postgres.SecondCallSame` | controller/postgres.go:11-25 | the map mutated by one call is what the next call makes of it |
| `Postgres.CallTwice` | controller/postgres.go:11-34 | two calls in a row return the same text |
| `Reconciler.CorootReconciler.Reconcile` | controller/controller.go:80-186 | one whole reconcile: an unreadable resource changes nothing and fails; a missing one is untracked, and with the last one the cluster role and binding go; an existing one is tracked, store, flag and status become exactly what the plan says, and it is queued again after a minute exactly if it is misconfigured |
| `Reconciler.CorootReconciler.ReconcileGone` | controller/controller.go:85-102 | only the request is untracked, and the shared roles go exactly if nothing is tracked then |
| `Reconciler.CorootReconciler.ReconcileFound` | controller/controller.go:109-185 | roles, validation, the sections in order, and the status together have the effect of the plan |
| `Reconciler.CorootReconciler.MakePlan` | controller/controller.go:113-176 | the store afterwards is what the planned writes make of the store before |
| `Reconciler.CorootReconciler.ReconcileParts` | controller/controller.go:119-176 | exactly the planned parts are written, in order, and the former Deployment is deleted at most once |
| `Reconciler.CorootReconciler.Validate` | controller/controller.go:116-117 | validation inside the reconcile: normalised resource, sorted variables, problems, and the API-key write |
| `Reconciler.QueuedAgainIff` | controller/controller.go:178-185 | a reconcile is queued again, after a minute, if and only if it serves more than agents and the resource is not in order with the secrets in the store |
| `Inventory.PlannedIffAskedFor` | controller/controller.go:113-173 | the objects written are exactly those the resource asks for, told part by part from its counts and from what it switches off |
| `Prerequisites.NeedsComeFirst` | controller/controller.go:113-173 | an object is written only after everything it refers to: role and account before binding, binding before workload, claims, configuration, headless service and secret before the sets that use them |
| `Prerequisites.CutShort` | controller/controller.go:113-173 | so a reconcile that is cut short after any number of writes leaves in the store everything that what it has written needs |
| `Stored.RolesStored` | controller/controller.go:113-114 | after a reconcile the roles for the security constraints hold the operator's rules |
| `Stored.AccountsStored` | controller/controller.go:303-311 | account and binding of everything deployed are there, unchanged, or else with the content built |
| `Stored.ConfigStored` | controller/controller.go:253-259 | the configuration is what was built; annotations and other data of the object stay |
| `Stored.MergedStored` | controller/controller.go:261-301 | every merged object is there, records exactly what was built and the annotations the resource gives for it, carries these annotations, and a Service has exactly the ports built |
| `Stored.NotAskedForStays` | controller/controller.go:137-173 | what the resource does not ask for is left alone, whatever is stored under its key |
| `Stored.IngressFollows` | controller/controller.go:145 | there is an ingress after a reconcile with a server if and only if the resource has one |
| `Stored.LegacyDeletedOnce` | controller/controller.go:140-143 | the former Deployment is deleted by the first reconcile with a server and by no later one |
| `Stored.OwnershipFollows` | controller/controller.go:195-199 | what a reconcile makes is owned by the resource, except for cluster-scoped objects and claims whose own reclaim policy retains them |
| `Stored.SecretsOwned` | controller/controller.go:117-151 | the secret of the ClickHouse password is owned by the resource, those of API keys are not |
| `Convergence.ReconcilesConverge` | controller/controller.go:80-186 | from the second completed reconcile on, every further one leaves store, clean-up flag and status as they are, for any specification, any starting store and any generated values |
| `Convergence.ThirdReconcileChangesNothing` | controller/controller.go:80-186 | the third reconcile is the identity on the result of the first two |
| `Convergence.TwoReconcilesFix` | controller/controller.go:80-186 | after two reconciles the cluster is a fixed point for every choice of random values |
| `FirstReconcile.OneReconcileSuffices` | controller/controller.go:80-186 | one reconcile already reaches the fixed point if, and unless only agents are deployed only if, no lookup misses a secret or key that is generated after it; the condition speaks of the specification and the secrets before |
| `FirstReconcile.FirstReconcileMayNotSuffice` | controller/coroot.go:59-78 | a concrete resource for which the first reconcile reports a missing secret that it then generates, and only the second is healthy |
| `Generation.AnswerAfterReconcile` | controller/controller.go:233-251 | what a lookup answers after a reconcile: the value from before, or else the generated one, or else exactly what is missing |
| `Generation.AnswerDuringReconcile` | controller/coroot.go:140-142 | the same for lookups between the generation of API keys and the rest |
| `Generation.AskedBySpec` | controller/coroot.go:51-59 | the API keys generated are exactly those given by selectors |
| `WholeOperator.OperatorConverges` | controller/controller.go:80-186 | for any set of resources with separate secrets, those of one name agreeing on the cluster role, once each has been reconciled twice, in any order and with any alternation, no further run of reconciles changes store, flag or statuses |
| `WholeOperator.DisagreementNeverSettles` | controller/cluster_agent.go:36-66 | and only then: a world settled for two resources of one name is one in which they agree on the cluster role |
| `Settled.SettledForGood` | controller/controller.go:80-186 | from then on reconciles may interleave call by call and still change nothing |
| `WholeOperator.TwiceIsEnough` | controller/controller.go:80-186 | a resource reconciled twice has settled, whatever the others did or have yet to do |
| `WholeOperator.StepReconciles` | controller/controller.go:80-186 | a step of that run is one reconcile of the resource, and leaves other statuses alone |
| `Convergence.SecretsStay` | controller/controller.go:233-251 | a further reconcile leaves the set of secrets and their data as they are |
| `Convergence.NothingToGenerate` | controller/coroot.go:140-142 | after one reconcile, the lookups before and after API-key generation see the same secrets |
| `Convergence.OutcomeApiKeys` | controller/coroot.go:51-59 | which API keys are generated depends on the specification alone |
| `Runs.SecretsConserved` | controller/controller.go:244-248 | in any interleaving of the calls of any reconciles, no secret value is ever changed or removed |
| `Runs.ReconcileIsRun` | controller/controller.go:113-173 | one undisturbed reconcile is the run of its calls |
| `Runs.GoneIsRun` | controller/controller.go:93-99 | so is one that finds its resource gone and nothing else tracked |
| `Generation.SelectorsResolve` | controller/controller.go:117-151 | after a complete reconcile every API-key selector, and the ClickHouse password selector, points at an existing value |
| `Generation.PasswordGenerated` | controller/clickhouse.go:16-24 | after a reconcile with its own ClickHouse the secret called after the resource holds a password: the one it held, or else a new one |
| `Runs.ClaimsFollowLastPolicy` | controller/controller.go:285-291 | after any interleaving, a claim carries its resource's controller reference exactly when the last call that wrote it was not told to retain it; unwritten, it is as it was |
| `Runs.OutcomeKeepsPolicies` | controller/coroot.go:23-232 | the policies a reconcile goes by are those of its resource |
| `Runs.ClaimsSurviveIffRetained` | controller/controller.go:195-199 | owner-based collection after the resource is gone removes exactly the claims last written without retention |
| `Stored.CorootClaimFollows` | controller/controller.go:127-129 | after any interleaving a claim of the server stays behind when the resource is collected, unowned, exactly if the reclaim policy of the server's storage was to retain when it was last written |
| `Stored.PrometheusClaimFollows` | controller/controller.go:148 | the same for Prometheus and the policy of its own storage |
| `Stored.KeeperClaimFollows` | controller/controller.go:155-157 | the same for the keepers and the policy of theirs |
| `Stored.ShardClaimFollows` | controller/controller.go:162-164 | the same for the shards and the policy of theirs |
| `Runs.ClaimsNeverDeleted` | controller/controller.go:285-291 | no interleaving of calls deletes a claim |
| `Runs.NothingElseDeleted` | controller/controller.go:85-144 | no call deletes anything but ingresses, Deployments, cluster roles and their bindings |
| `Runs.TemplatesImmutable` | controller/controller.go:275-283 | over any interleaving the live claim templates of a stored StatefulSet stay |
| `Runs.TemplatesAsCreated` | controller/controller.go:275-283 | a StatefulSet is there exactly once a run has created it, and has, and keeps, the claim templates of the target it was created from |
| `Runs.RunFollowsWishes` | controller/utils.go:37-103 | along any interleaving each merged object follows the wishes of its own calls, starting from the stored object or the creating target: annotations, record and every member the wrapper does not adjust are those of that sequence of merges, each of which reads the wish before as last applied |
| `Runs.AnnotationsInRuns` | controller/utils.go:38-73 | hence its annotations are the first ones without any key ever wanted, plus the last wish and its record |
| `Runs.NoLeftoversInRuns` | controller/utils.go:52-101 | hence nothing the operator ever wanted of it outlives the wish, but for claim templates and service ports |
| `Runs.SetsFollowMerge` | controller/controller.go:275-283 | every other member of a StatefulSet follows the three-way merge, and the record holds the whole target, templates included |
| `Independence.ReconcilesCommute` | controller/controller.go:113-173 | reconciles of different resources commute on every namespaced object, and of different names on every object, as long as neither generates a secret that the other generates or looks up |
| `Independence.StoresCommute` | controller/controller.go:113-173 | on the whole store, also for resources of one name, if these agree on the cluster role and its binding, which keeps the subject of its creator, exists |
| `Events.RoleAfter` | controller/controller.go:321-327 | a reconcile overwrites the cluster role and gives up owning it |
| `Events.BindingAfter` | controller/controller.go:329-331 | an existing cluster role binding keeps its subject |
| `Independence.NothingInCommon` | controller/controller.go:113-173 | they never write one object, but for cluster-scoped ones of one name |
| `Independence.OutcomeUnaffected` | controller/coroot.go:23-232 | another resource's reconcile does not change the outcome of normalisation |
| `Independence.ClusterScopedShared` | controller/cluster_agent.go:14-40 | cluster-scoped objects are shared exactly by resources of one name |
| `RoleSafety.RolesAlwaysPresent` | controller/controller.go:85-124 | in every interleaving of any number of threads, at every moment: if a request is tracked and the reconcile that last inserted it has passed its role writes, its cluster role and binding exist |
| `RoleSafety.NextKeepsInvariant` | controller/controller.go:85-124 | every step of every thread keeps the inductive invariant: lock ownership, deletion only while nothing is tracked, stamps of insertions, role before binding |
| `Tracking.OnlyRemovalUntracks` | controller/controller.go:85-102 | a request leaves the tracked set only when a thread that found its resource missing removes it, holding the lock |
| `Tracking.OnlyInsertionTracks` | controller/controller.go:105-107 | and enters it only by an insertion |
| `Tracking.InsertionAndRemoval` | controller/controller.go:91-107 | a thread past its insertion, or removal, has tracked, or untracked, its request |
| `Tracking.TrackedStays` | controller/controller.go:85-107 | over whole runs: a tracked request whose resource exists throughout, and which no reconcile in flight has missed, stays tracked at every moment of every interleaving |
| `Tracking.RolesStay` | controller/controller.go:93-99 | and while it does, no cluster role or binding of any name is deleted |
| `SelfHealing.PassUntracksTheGone` | controller/controller.go:52-64 | once resources stop changing, one pass of the ticker leaves only existing resources tracked, whatever other reconciles do meanwhile |
| `SelfHealing.ListedPassUntracksTheGone` | controller/controller.go:55-64 | the same for the whole pass, from the listing of the tracked requests on |
| `Overtaken.PassDeletesLastRoles` | controller/controller.go:85-102 | if no resource is left, the pass leaves nothing tracked; cluster role and binding of the name untracked last are gone if something was tracked when the pass started or they were gone already, at every moment and whoever untracked it, and, if no other reconcile works for the name, only then |
| `Overtaken.OvertakenReconcile` | controller/controller.go:82-124 | a run from the start in which a reconcile is overtaken by the deletion of its resource: in the end nothing exists, is tracked or under way, and the role and binding it wrote stay |
| `Overtaken.StaysAbandoned` | controller/controller.go:52-64 | and they stay for good: without a reconcile for the name, no number of passes of the ticker changes them |
| `SelfHealing.PassLeavesOtherNames` | controller/controller.go:93-99 | with several names and other reconciles in between, of all names the others do not work for exactly that of the request visited last loses its role and binding |

## Left out

Assumptions about what surrounds the operator:

- The client, caches, watches, conflicts and retries: the store is a map from kind, namespace and name to objects; API calls are atomic, succeed, and see the latest state.
- Admission, defaulting and other writers: only the operator writes. `ThreeWayMerge` says what a merge does to anybody's fields in a single step.
- The patch library: lists are atomic values; `$patch` and merge-key directives and null members such as `creationTimestamp` are not modelled.
- JSON encoding: records are values that round-trip; annotation texts given by users do not parse as records.
- Owner references: one optional controller per object, identified by namespace and name of the resource.
- Labels: they are written on creation only and nothing modelled reads them.
- Object contents: the builders for pods, services, rules and configuration are one arbitrary function of the normalised resource, its variables and the part. It is deterministic, so `Convergence` covers at most one custom Prometheus header and an unchanged image table.
- SAML parsing is an arbitrary predicate and generated values are arbitrary functions of secret name and key, new for every reconcile; SHA-256, YAML, HTTP and the shell around the generated configuration are not part of this model.
- Error texts and log output: problems are datatype values.
- The `optional` field of a secret selector. The enterprise image is asked for only if the resource has an enterprise section, as its one caller sees to.
- Strings are byte strings; names are not restricted to what Kubernetes admits.

Contracts that say less than one might expect:

- WholeOperator.OperatorConverges: resources may be made to share secrets; such sets are left out. That resources of one name agree on the cluster role is true of the role the operator builds, whose rules are fixed. Reconciles are made one after the other until the store has settled.
- Settled.SettledForGood: an API key kept in the secret of the ClickHouse password is left out: each reconcile gives up owning that secret and takes it again, which other calls may see.
- FirstReconcile.OneReconcileSuffices: with agents only, no status is written, and a changed outcome may then go unnoticed, so the condition is only sufficient there.
- Independence.ReconcilesCommute: the flag for deleting the former Deployment, which all resources share, is a parameter of each reconcile.
- Runs.ClaimsFollowLastPolicy: assumes that no other controller owns the claim and that its record can be read; otherwise the wrapper writes nothing or leaves the reference alone.
- Runs.RunFollowsWishes: an ingress that is deleted meanwhile starts over, so its runs are those between deletions; the first record must be readable.
- Runs.AnnotationsInRuns: assumes that no annotation given by a user has the key of the record.
- RoleSafety.RolesAlwaysPresent: says nothing about a resource that exists but is not tracked: a reconcile that found it missing before it was created again may untrack it afterwards, and the next reconcile inserts it.
- Tracking.TrackedStays: assumes that no reconcile under way at the start has found the resource missing, for that very reason.
- Prerequisites.CutShort: assumes that the resource does not give its service the annotation of the record, with which it could not be created.
- Stored.MergedStored: a record that cannot be read leaves the object as it is.
- SelfHealing.PassUntracksTheGone: reconciles in flight for resources that are gone must have finished before the pass starts.
- Overtaken.PassDeletesLastRoles: another reconcile for the very name may delete the roles although nothing was tracked.
- SelfHealing.PassLeavesOtherNames: other reconciles must not work for the request visited last; a name they do work for may lose its role as well.
- Versions.VersionTable.FetchAppVersions: the lock is modelled by making the whole critical section one call.
- Keeper.ServerIdMatches: only the parsing expression is modelled, not the shell that runs it.

Parts of the repository that would only add easy members: the literals in the container, probe and resource definitions,
the deep copies in `api/v1`, and the manager start-up in `main.go`.
