# terraform-provider-octal: the component engine, in Dafny

This project models the part of the Octal Terraform provider that turns a
component's manifest templates into an ordered list of Kubernetes objects
and then drives each object through its cluster lifecycle. It states and
proves what that engine promises.

- **FlatConfig.** Config flattening (`flattenConfig`): nested maps become
  dotted keys, and a list becomes a `.size` key plus one key per element.
  It is modelled as a specification function (`Flattened`) and as a
  `FlatMap` class whose recursive `Flatten` method writes into the map it
  owns, as the Go function writes into the caller's map.
- **Decoding.** `contentToObject`: the decode loop returns the first
  non-null document of a stream, or the error that stops the stream first.
- **ComponentObjects.** `objectFromManifest`. The object copies its
  identity out of the decoded object, sets its annotations to its labels
  (as the code does), keeps the manifest text exactly, and hashes only the
  `spec` subtree. The hash is SHA-256 (FIPS 180-4) of the spec's JSON
  (RFC 8259) encoding, printed as lowercase hex. `GetFlat` is the persisted
  record.
- **Components.** `GetComponent`:
  - it joins the ten template categories in dependency order;
  - it flattens the config over an injected `namespace`;
  - it renders every template and keeps each text;
  - it decodes each non-empty text, and a text that does not decode is
    skipped.
  The render loop is a method proved against `RenderAll`. `Kept` is an
  independent reference definition of the objects kept.
- **LegacyComponents.** The older `resource_component` copy. It renders
  only deployment templates, its config has no injected namespace, and its
  value-receiver `AddUnstructuredObject` leaves the caller's list as it was.
- **Readiness.** The two refresh classifiers: readiness (pending, ready or
  error) and deletion (deleting, deleted or error).
- **Polling.** The plugin SDK's `StateChangeConf.WaitForState` wait, with
  the timeout as a budget of polls. It is modelled as a loop proved against
  the function `Waited`.
- **Cluster.** A scripted cluster client whose calls are logged. Its `Get`
  overwrites the caller's object, as controller-runtime's does.
- **Lifecycle.** Create, Read, Update and Delete of one component object,
  each proved against a function describing its run: the error, the calls
  made and the replies consumed.
- **LegacyManifest.** The older create path of `internal/util/manifest.go`.
  It decodes the manifest, defaults an empty namespace to `default`,
  creates, waits, and reads back.
- **Metadata.** `updateMetadata` on an `ObjectMeta` class, and
  `flattenMetadata`. The object is named after the resource and component,
  the namespace is set only when namespaced, the user labels are overridden
  by eight fixed labels, and the annotations are left as they were.

Foreign code is a `Library` value of function fields, passed as a
parameter: template parse and execute, the YAML/JSON decoder, `json.Marshal`,
SHA-256, `mapstructure`, and the status viewers.

Where the code and its documentation differ, the model follows the code:

- The load-balancer check reads whether the `status.loadBalancer` map is
  non-empty, not the ingress list.
- The Service branches that fail to find a spec or type return no error
  and no object. The wait therefore counts them as not-found polls.
- `resourceK8sManifestUpdate` waits with `waitForReadyStatus`, so a failed
  update wait is reported as a wait "to be created".
- `updateMetadata` computes the configured annotations but never applies
  them, and drops any labels the object had.
- A status with none of readyReplicas, phase and loadBalancer, for a kind
  with no status viewer, is ready, not pending.

## Model

| member | source | states |
|---|---|---|
| FlatConfig.Flattened | internal/octal/components/util.go:29-46 | flattening only adds or overwrites keys: every key already in the map survives |
| FlatConfig.FlatMap.Flatten | internal/octal/components/util.go:29-46 | the recursive in-place flatten leaves the map equal to `Flattened(prefix, value, old map)` |
| FlatConfig.FlatMap.FlattenEach | internal/octal/components/resource_component.go:80-82 | flattening each top-level entry in turn, keyed by its name, gives `FlattenedTop` of the old map |
| FlatConfig.FlattenedOverlay | internal/octal/components/util.go:29-46 | flattening into m is m overlaid with what the value writes on its own |
| FlatConfig.ProducedUnder | internal/octal/components/util.go:29-46 | every key flattening writes is the prefix itself or lies below `prefix.` |
| FlatConfig.FlattenFrame | internal/octal/components/util.go:29-46 | a key not under the prefix keeps its presence and its value |
| FlatConfig.ScalarEntry | internal/octal/components/util.go:45 | a scalar writes exactly one entry, prefix mapped to its text |
| FlatConfig.EmptyListEntry | internal/octal/components/util.go:37-43 | an empty list writes only `prefix.size` = "0" |
| FlatConfig.ListSizeEntry | internal/octal/components/util.go:39 | a list writes `prefix.size` with the decimal length, and no element overwrites it |
| FlatConfig.ListItemEntries | internal/octal/components/util.go:40-42 | every entry element i writes at `prefix.i` is in the result with its value |
| FlatConfig.ListOnlyEntries | internal/octal/components/util.go:37-43 | a list writes nothing but its size entry and what its elements write |
| FlatConfig.KeyedMapEntries | internal/octal/components/util.go:30-35 | each key's child is flattened under `prefix.key`; nothing else is written; with dot-free distinct keys every child's entries survive |
| FlatConfig.ChildrenIntact | internal/octal/components/util.go:32-41 | children with distinct dot-free names never overwrite each other's entries |
| FlatConfig.ChildrenLastWriter | internal/octal/components/util.go:32-41 | a key several children write holds the value of the last of them, as Go's sequential writes leave it |
| FlatConfig.TopEntries | internal/octal/components/resource_component.go:80-82 | every top-level config entry is flattened under its own key and nothing else is written; with dot-free distinct keys every entry's writes survive |
| FlatConfig.TopOverlay | internal/octal/components/resource_component.go:78-82 | flattening the config into a map is that map overlaid with the config's own entries |
| Decimal.NatToString | internal/octal/components/util.go:39 | the `%d` text of a number is non-empty and all digits, one digit exactly below 10 |
| Decimal.ParseNatToString | internal/octal/components/util.go:39 | reading the decimal text back gives the number |
| Decimal.NatToStringInjective | internal/octal/components/util.go:41 | distinct list indices print as distinct key segments |
| Decoding.ContentToObject | internal/octal/components/util.go:12-27 | the decode loop returns what `Unmarshalled` says: the first non-null document, or the prefixed error |
| Decoding.FirstDocumentAt | internal/octal/components/util.go:17-26 | after only null documents, a non-null document is returned and a decode error is returned as the failure |
| Decoding.FirstDocumentAllNull | internal/octal/components/util.go:17-21 | a stream of null documents, the empty one included, fails with end of input |
| Decoding.FirstDocumentFound | internal/octal/components/util.go:23-25 | a success is a document the stream holds, preceded only by null documents |
| Hex.ToHex | internal/octal/components/component_object.go:60 | `%x` prints two lowercase hex characters per byte |
| Hex.FromHexToHex | internal/octal/components/component_object.go:60 | the hex text decodes back to the digest bytes |
| Hex.DigestText | internal/octal/components/component_object.go:60 | a SHA-256 digest prints as 64 characters, and distinct digests print differently |
| Objects.KeyIgnoresVersion | internal/octal/structure_manifest.go:139-141 | stamping the live resource version onto an object does not change the key it is updated and polled under |
| Objects.KeyFollowsNamespace | internal/util/manifest.go:37-41 | setting an object's namespace makes its key that namespace and its own name |
| Objects.SplitJoinApiVersion | internal/octal/components/component_object.go:52-54 | group and version split back out of a joined apiVersion |
| ComponentObjects.ObjectFromManifest | internal/octal/components/component_object.go:38-65 | a decode error is passed on and no object is built; the manifest is kept verbatim; the spec hash is 64 lowercase hex characters; annotations equal labels |
| ComponentObjects.ObjectIdentity | internal/octal/components/component_object.go:51-61 | group, version, kind, name, namespace and labels are those of the decoded object, which is kept |
| ComponentObjects.MarshalFailure | internal/octal/components/component_object.go:45-49 | a spec that cannot be encoded yields the prefixed marshal error |
| ComponentObjects.SpecHashOnlySpec | internal/octal/components/component_object.go:45-60 | two manifests with equal specs get equal hashes, whatever their metadata |
| ComponentObjects.SpecHashFaithful | internal/octal/components/component_object.go:60 | the hash texts are equal exactly when the digests of the spec encodings are |
| ComponentObjects.Flat | internal/octal/components/component_object.go:107-118 | the record has exactly the eight keys group, version, kind, name, namespace, labels, annotations, spec_hash |
| ComponentObjects.FlatOfManifest | internal/octal/components/component_object.go:51-60 | for an object decoded from a manifest, the record holds its group, version, kind, name, namespace and labels, the labels again as annotations, and the hex SHA-256 of its spec's JSON |
| ComponentObjects.FlatDeterminesFields | internal/octal/components/component_object.go:107-118 | two records are equal iff the objects agree on those eight fields |
| Components.ComponentConfig | internal/octal/components/resource_component.go:42-54 | an absent or empty block, or a nil first element, gives the empty config; otherwise the first element |
| Components.ResourceComponent.GetConfig | internal/octal/components/resource_component.go:123-131 | the flat config is `namespace` overlaid by every flattened config entry |
| Components.ResourceComponent.GetFlat | internal/octal/components/resource_component.go:137-150 | one record whose only key is `objects`, holding each object's record in object order |
| Components.RenderOne | internal/octal/components/resource_component.go:73-100 | one loop pass equals `RenderTemplate`: parse and execute errors stop the loop, a non-empty text is decoded, a decode failure keeps no object |
| Components.RenderTemplates | internal/octal/components/resource_component.go:70-101 | the render loop equals `RenderAll` over the templates |
| Components.GetComponent | internal/octal/components/resource_component.go:41-113 | the component built is `BuildComponent`: name, namespace, config, rendered texts and objects, or the render error |
| Components.ConfigFlatNamespace | internal/octal/components/resource_component.go:78-82 | the flat config maps `namespace` to the component namespace unless the config writes its own `namespace` key, which wins |
| Components.ConfigScalarSeen | internal/octal/components/resource_component.go:78-85 | with dot-free distinct keys, a top-level scalar config entry reaches every template under its own key with its own text |
| Components.RenderAllStep | internal/octal/components/resource_component.go:89-99 | each rendered template appends its text, and its object if any |
| Components.RenderAllSuccess | internal/octal/components/resource_component.go:72-88 | the loop succeeds iff every template parses and executes |
| Components.RenderAllTexts | internal/octal/components/resource_component.go:89 | on success there is exactly one text per template, in template order, empty ones included |
| Components.RenderAllObjects | internal/octal/components/resource_component.go:91-100 | on success the loop's objects are exactly those of the reference definition `Kept` |
| Components.RenderAllFailure | internal/octal/components/resource_component.go:73-88 | the first template that fails to parse or execute decides the error |
| Components.RenderAllStops | internal/octal/components/resource_component.go:73-88 | once the templates before it rendered, a failing template stops the loop with its error |
| Components.KeptFromRenders | internal/octal/components/resource_component.go:72-101 | there are no more objects than templates, and each object decodes a non-empty text some template rendered |
| Components.SkippedTemplate | internal/octal/components/resource_component.go:93-99 | an empty text, or one that does not decode, adds no object, and later templates still count |
| Components.ObjectsByCategory | internal/octal/components/resource_component.go:57-67 | the objects come category by category: CRDs, roles, cluster roles, service accounts, role bindings, cluster role bindings, mutating and validating webhooks, deployments, services |
| LegacyComponents.LegacyComponent.GetConfig | internal/component/resource_component.go:46-53 | the flat config is every config entry flattened, with no injected namespace |
| LegacyComponents.LegacyComponent.RenderManifests | internal/component/resource_component.go:55-76 | the texts are `RenderedTexts` of the deployment templates only |
| LegacyComponents.LegacyComponent.AddUnstructuredObject | internal/component/resource_component.go:78-90 | the value receiver leaves the component's object list unchanged |
| LegacyComponents.AddThenList | internal/component/resource_component.go:78-95 | adding then listing returns the list as it was; the added object is not in it unless it already was |
| LegacyComponents.RenderedTextsSuccess | internal/component/resource_component.go:58-73 | rendering succeeds iff every template parses and executes, and then yields one text per template, in order |
| LegacyComponents.RenderedTextsFailure | internal/component/resource_component.go:61-70 | the first template that fails decides the error |
| LegacyComponents.NamespaceOnlyInNewerCopy | internal/component/resource_component.go:46-53 | the newer copy's flat config is this one's with `namespace` underneath it |
| Readiness.ReadyRefresh | internal/octal/structure_manifest.go:161-239 | the state is pending, ready or error; it is found iff not error; a Get error is reported as the fault |
| Readiness.DeleteRefresh | internal/octal/structure_manifest.go:99-110 | deleted iff the Get says not found, deleting iff the Get succeeds, error otherwise |
| Readiness.NoStatusIsReady | internal/octal/structure_manifest.go:170-238 | an object without a status is ready |
| Readiness.ViewerDecides | internal/octal/structure_manifest.go:173-182 | when a status viewer exists for the kind it alone decides: its error is an error state with that fault, otherwise ready or pending as it says, whatever the status decoder does |
| Readiness.DecodeFailureFails | internal/octal/structure_manifest.go:184-189 | a status that cannot be decoded gives an error state with the decoder's error as the fault |
| Readiness.UnrecognisedStatusIsReady | internal/octal/structure_manifest.go:184-238 | a decodable status with none of readyReplicas, phase and loadBalancer, and no viewer for its kind, is ready |
| Readiness.ReadyReplicasDecide | internal/octal/structure_manifest.go:192-198 | a present readyReplicas decides alone: ready iff positive |
| Readiness.PhaseDecides | internal/octal/structure_manifest.go:200-206 | without readyReplicas, a phase is ready iff it is Active, Bound, Running, Ready, Online or Healthy |
| Readiness.ServiceLoadBalancer | internal/octal/structure_manifest.go:208-235 | a v1 Service needs a non-empty load balancer only with type LoadBalancer; a missing spec or type returns no object and no error |
| Readiness.OtherLoadBalancer | internal/octal/structure_manifest.go:229-234 | any other kind with a load-balancer status is ready iff the block is not empty |
| Cluster.Client.Get | internal/octal/structure_manifest.go:162 | a successful Get overwrites the caller's object; a failed one leaves it and returns the error |
| Cluster.Client.Create | internal/octal/structure_manifest.go:32 | Create logs the object sent and, on success, overwrites it with the cluster's copy |
| Cluster.Client.Update | internal/octal/structure_manifest.go:141 | Update logs the object sent and, on success, overwrites it with the cluster's copy |
| Cluster.Client.Delete | internal/octal/structure_manifest.go:86 | Delete logs the object and returns the script's error, if any |
| Polling.Waited | internal/octal/structure_manifest.go:240-246 | a wait takes at most its budget of polls, and at least one when it has any |
| Polling.Refresh | internal/octal/structure_manifest.go:161-162 | one refresh is a Get into the caller's object followed by the classifier on its reply |
| Polling.Poll | internal/octal/structure_manifest.go:246 | one poll keeps the loop on track with `Waited`, or leaves exactly the state `Waited` ends with |
| Polling.WaitForState | internal/octal/structure_manifest.go:246 | the poll loop's outcome, calls, consumed replies and final object are those of `Waited` |
| Polling.SuccessSawTarget | internal/octal/structure_manifest.go:246-249 | a wait that succeeds ended on a found result in the target states |
| Polling.TimeoutUsesBudget | internal/octal/structure_manifest.go:240 | a wait that times out used its whole budget |
| Polling.FaultEndsWait | internal/octal/structure_manifest.go:162-166 | a refresh error ends the wait at once with that error |
| Polling.NotFoundGivesUp | internal/octal/structure_manifest.go:246 | polls that find nothing give up after the not-found limit is exceeded, after exactly that many polls |
| Polling.StuckPendingTimesOut | internal/octal/structure_manifest.go:240-246 | an object that stays pending runs the budget out and times out in that state |
| Lifecycle.ReadyWait | internal/octal/structure_manifest.go:151-252 | the wait polls the object's key only, within the budget, and a failure is wrapped with the resource id as a wait to be created |
| Lifecycle.WaitForReadyStatus | internal/octal/structure_manifest.go:151-252 | the method's error, calls, replies and object are those of `ReadyWait` on the object's key |
| Lifecycle.Submitted | internal/octal/structure_manifest.go:26-45 | the first call submits the object; a failure returns before any wait; otherwise only Gets of the returned object's key follow |
| Lifecycle.SubmitAndWait | internal/octal/structure_manifest.go:26-45 | the method's error, calls and replies are those of `Submitted`; the object is left as sent when the call fails, else it is the cluster's copy overwritten by each object a poll fetched |
| Lifecycle.SubmittedLeavesReady | internal/octal/structure_manifest.go:32-45 | a submission whose wait succeeds had its call succeed, and leaves behind an object the readiness refresh finds ready |
| Lifecycle.Create | internal/octal/structure_manifest.go:26-45 | Create submits the component's object and runs as `Submitted` says |
| Lifecycle.ReadDecision | internal/octal/structure_manifest.go:55-70 | present iff the Get succeeded; gone iff it failed with not found or no kind match; any other error fails the read |
| Lifecycle.Read | internal/octal/structure_manifest.go:47-77 | Read gets the object by key, clears the id exactly when it is gone, and returns only other errors |
| Lifecycle.Stamped | internal/octal/structure_manifest.go:139 | the submitted object carries the live resourceVersion and is otherwise the caller's object |
| Lifecycle.Updated | internal/octal/structure_manifest.go:127-149 | Update first Gets the key; a failure ends it before any Update; otherwise it submits the stamped object |
| Lifecycle.Update | internal/octal/structure_manifest.go:127-149 | the method's error, calls and replies are those of `Updated`; a failed Get leaves the object, otherwise it is the object stamped with the live resource version and then submitted as in `SubmitAndWait` |
| Lifecycle.Deleted | internal/octal/structure_manifest.go:79-125 | a failed Delete returns before any poll; otherwise the wait polls the object's key and a failure names the deleted goal |
| Lifecycle.Delete | internal/octal/structure_manifest.go:79-125 | the method's error, calls and replies are those of `Deleted` |
| Lifecycle.DeleteGoneAtFirstPoll | internal/octal/structure_manifest.go:99-105 | an object not found at the first poll is deleted after one poll |
| Lifecycle.DeletePollError | internal/octal/structure_manifest.go:106-120 | any other Get error while waiting fails Delete with that error after one poll |
| Lifecycle.UpdateWaitNamesCreated | internal/octal/structure_manifest.go:246-249 | a failed Update wait is reported as a wait to be created |
| LegacyManifest.DefaultNamespace | internal/util/manifest.go:37-41 | an empty namespace becomes "default", a non-empty one is kept, and nothing else changes |
| LegacyManifest.DefaultNamespaceIdempotent | internal/util/manifest.go:37-41 | defaulting twice is defaulting once |
| LegacyManifest.Skeleton | internal/util/manifest.go:166-173 | the object read back has the kind, namespace and name of the object submitted |
| LegacyManifest.CreatedThenRead | internal/util/manifest.go:46-58 | a failed Create ends the run with one call; a run that succeeds ends with the Get of the created key |
| LegacyManifest.CreateThenRead | internal/util/manifest.go:46-58 | the method's error, calls and replies are those of `CreatedThenRead`; the object is left as the create and its wait left it, since the read-back fills a copy |
| LegacyManifest.LegacyCreated | internal/util/manifest.go:28-59 | an undecodable manifest fails with no call; otherwise the object Create sends has its namespace defaulted |
| LegacyManifest.LegacyCreate | internal/util/manifest.go:28-59 | the method runs as `LegacyCreated`, and clears the id only when the read-back finds the object gone |
| LegacyManifest.UndecodableMakesNoCall | internal/util/manifest.go:29-33 | a decode failure returns before any cluster call |
| Metadata.ComponentNameBare | internal/octal/structure_metadata.go:61-70 | the object takes the bare resource name iff the component is `namespace` |
| Metadata.ComponentNameInjective | internal/octal/structure_metadata.go:61-70 | different components of one resource get different names |
| Metadata.FixedLabelValues | internal/octal/structure_metadata.go:90-97 | the eight fixed labels are distinct keys, each carrying its own value |
| Metadata.NameAndNamespace | internal/octal/structure_metadata.go:51-70 | the name is the component name; the namespace is the configured one iff namespaced, else unchanged |
| Metadata.FixedLabelsWin | internal/octal/structure_metadata.go:80-100 | the labels are the configured ones plus the eight fixed ones, and a fixed label wins a clash |
| Metadata.AnnotationsUntouched | internal/octal/structure_metadata.go:107-120 | annotations, uid and resourceVersion are left as they were |
| Metadata.LabelsReplaced | internal/octal/structure_metadata.go:99-100 | the labels the object had do not matter |
| Metadata.UpdateIdempotent | internal/octal/structure_metadata.go:41-121 | updating twice with the same inputs is updating once |
| Metadata.CopyStringMap | internal/octal/structure_metadata.go:83-87 | the entry-by-entry copy of the configured labels equals them |
| Metadata.ComponentLabels | internal/octal/structure_metadata.go:80-98 | the label map built is the configured labels overlaid by the fixed labels |
| Metadata.UpdateMetadata | internal/octal/structure_metadata.go:41-121 | the object's metadata becomes `UpdatedMeta` of its old value |
| Metadata.FlattenMetadata | internal/octal/structure_metadata.go:9-18 | one record with exactly uid, resource_version, name, component, labels and annotations |
| Metadata.FlattenUpdatedMeta | internal/octal/structure_metadata.go:9-18 | after an update the record's name is the component name, its labels the config's plus the fixed ones, and its uid, resource version and annotations those of the metadata |
| Metadata.FlattenMetadataDetermines | internal/octal/structure_metadata.go:9-18 | two records are equal iff they agree on the component and those five metadata fields |

## Left out

- Logging (`log`, `tflog`), `embed` template loading (`ReadEmbeddedFiles`), kubeconfig and client construction, and context cancellation are I/O and are not modelled.
- Real time is not modelled: the 5-second delay, the minimum timeout and `d.Timeout` become a budget of polls.
- Template parse and execute, YAML/JSON decoding, `json.Marshal`, SHA-256, `mapstructure.Decode` and the `polymorphichelpers` status viewers are foreign code. They are parameters in a `Library` value, and the model proves nothing about how they work inside.
- The plugin SDK's `StateChangeConf` is not part of this model's sources. `Polling.Waited` follows its documented rules for one target occurrence. Its error texts are reduced to the `WaitError` cases.
- A panic (template parse or execute) is a `Failure` result, not a crash.
- Go map iteration order is not fixed. A config map is an ordered sequence of entries, the order of one run, and the lemmas say which results do not depend on it.
- Config keys that are not strings would panic in `flattenConfig`; keys are strings here. Any other kind of map value is an opaque scalar, printed by the foreign `%v`.
- JSON numbers are integers; floating point is not modelled.
- The legacy create's read-back builds its object from identifiers that `internal/util/manifest.go` does not define. `LegacyManifest.Skeleton` takes them to be those of the object submitted.
- `updateMetadata` reads the component block with `d.Get(component)[0]`, which panics when the block is missing; the block is passed in, so that panic is not modelled.
- `updateMetadata` also asserts the types of the values it reads (internal/octal/structure_metadata.go:52, 77, 85, 107 and 115), and a wrong type would panic. `ComponentMeta` has typed fields, so these panics cannot occur in the model, and `AnnotationsUntouched` describes only runs in which none of them fires.
- Go ranges over `componentConfig` afresh for every template (internal/octal/components/resource_component.go:80-82) and again in `GetConfig` (line 126), each time in its own order. The model uses one fixed order for every pass. So when top-level writes collide, every template in the model sees the same value, while Go's templates may see different ones.
- The getters that only return a field are datatype fields or one-line functions, with no separate contracts.
- `excludeIgnoreFields`, `yaml2GoData` and `json2Yaml` are thin wrappers over jq and YAML libraries and are not modelled.
- The two copies of `waitForReadyStatus`, `contentToObject` and `flattenConfig` are identical apart from the error prefix, so each is modelled once. The prefix is a parameter.
