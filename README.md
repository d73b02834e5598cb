# dockyards-rbac reconciler, modelled in Dafny

The repository is a Kubernetes controller. For every Cluster resource that is
live and owned by an Organization, it keeps one companion Workload,
`<cluster-name>-rbac`, in the Cluster's namespace. That Workload is labelled
with the cluster name, owned by the Cluster, points at the shared `rbac`
WorkloadTemplate in the configured public namespace, and carries a JSON
payload. The payload installs three cluster role bindings, for reader,
editor and admin. A Workload with the skip-remediation annotation is left
alone.

The model has two layers.

- **Specification functions** (modules `Types`, `Payload`, `Synthesis`). Each step is a
  function of explicit inputs. The Cluster Get result, the owner-organization
  resolver, the configuration provider's values and the store's faults are
  oracle parameters. The Workload store is a `map` from namespace and name to a
  Workload.
  - Every call returns its status, the operation result it would log, the new
    store and the list of collaborator calls it made. So properties can say
    "no owner lookup", "no configuration read" and "no store write" directly.
  - `Synthesis.CreateOrPatch` stands in for controller-runtime's
    `controllerutil.CreateOrPatch`, which is library code outside this model.
    It works as follows:
    - Get the object. A fault is returned. If the object is absent, start from the caller's object.
    - Apply the mutate function. A mutate error is returned and nothing is written.
    - A mutation that changes the key is refused.
    - If the object was absent, Create it (`Created`).
    - If it is present and equal to before, write nothing (`Unchanged`).
    - Otherwise Patch it (`Updated`).
    - A write fault is returned and nothing is written.
- **Imperative classes** (module `Controller`). These follow the source step by step:
  - `WorkloadObject` is the in-memory `workload`. Its `Mutate` method assigns
    the managed fields in place, the way the closure does.
  - `DockyardsClusterReconciler` owns the store's state and runs the guard chain and create-or-patch.
  - Each method's `ensures` equates its results and new state with the
    specification function. The specification functions carry the lemmas.

Constants that the dockyards API and config packages define are fields of an
`Externals` parameter, so every property holds whatever their values are:
the role names, group version, kinds, label and annotation keys, provenience
value and configuration key. The same goes for `strings.ToLower`. JSON is
modelled as values (`JsonValues.Json`), not bytes. Decoding follows
`encoding/json`'s behaviour when it fills a zeroed struct: an absent or
`null` member leaves the zero value, and unknown members are ignored.

Points where the code differs from a first reading, and where the model follows the code:

- A not-found Get of the Cluster does not return early. `client.IgnoreNotFound`
  turns it into no error. Reconcile then continues with the zero-valued
  Cluster. That Cluster has no deletion timestamp, so it is handed to the
  owner resolver. The no-op comes from the resolver finding no owner
  (`NotFoundContinuesWithZeroCluster`, `NotFoundWithoutOwnerIsNoop`).
- The stored payload has no `roleBindings` member. Only `clusterRoleBindings`
  is written, although `RBACWorkloadInput` declares both. Decoding still gives
  an empty `roleBindings` list (`DecodePayload`, `PayloadIsNotAnEncodedInput`).
- The code and its test disagree:
  - The code binds the admin group to `cluster-admin`. The test in
    `controllers/dockyardscluster_controller_test.go` expects `admin`.
  - The test builds names with a `RolePrefix` constant that the modelled files
    do not define. The code uses the literal `dockyards:`.
  - The model follows the code. `DecodedPayloadDiffersFromTestExpectation`
    shows that the decoded payload never equals the test's expected value,
    and that with the code's prefix the two differ only in that role reference.

## Model

| member | source | states |
|---|---|---|
| `Types.EncodeRoleRef` | controllers/types.go:7 | a role reference is written as an object with exactly the members `apiGroup`, `kind` and `name` |
| `Types.EncodeSubject` | controllers/types.go:8 | a subject is written as an object with the members `kind` and `name`, plus `apiGroup` and `namespace` only when they are non-empty |
| `Types.EncodeSubjects` | controllers/types.go:8 | the subjects list is written element by element, keeping its length |
| `Types.EncodeRoleBinding` | controllers/types.go:5-9 | a RoleBinding is written as an object whose members are exactly `bindingName`, `roleRef` and `subjects` |
| `Types.EncodeRoleBindings` | controllers/types.go:12-13 | a binding list is written element by element, keeping its length |
| `Types.EncodeInput` | controllers/types.go:11-14 | an RBACWorkloadInput is written as an object whose members are exactly `clusterRoleBindings` and `roleBindings` |
| `Types.DecodeSubjects` | controllers/types.go:8 | decoding a JSON array of subjects, when it succeeds, yields one subject per element |
| `Types.DecodeRoleBindings` | controllers/types.go:12-13 | decoding a JSON array of bindings, when it succeeds, yields one binding per element |
| `Types.DecodeEncodeSubjects` | controllers/types.go:8 | decoding the wire form of any subject list gives it back |
| `Types.DecodeEncodeRoleBinding` | controllers/types.go:5-9 | decoding the wire form of any RoleBinding gives it back |
| `Types.DecodeEncodeRoleBindings` | controllers/types.go:12-13 | decoding the wire form of any binding list gives it back |
| `Types.DecodeEncodeInput` | controllers/types.go:11-14 | decoding the wire form of any RBACWorkloadInput gives it back |
| `Types.DecodeString` | controllers/types.go:6 | how `encoding/json` fills a string field: a string sets it, null or absence leaves it empty, any other value fails. Carried by `Types.DecodeEncodeRoleBinding` and `Payload.BindingObjectDecodes` |
| `Types.DecodeRoleRef` | controllers/types.go:7 | how a role reference is filled from an object member by member, with null giving the zero value. Carried by `Types.DecodeEncodeRoleBinding` and `Payload.BindingObjectDecodes` |
| `Types.DecodeSubject` | controllers/types.go:8 | how a subject is filled from an object member by member, with null giving the zero value. Carried by `Types.DecodeEncodeSubjects` |
| `Types.DecodeSubjectList` | controllers/types.go:8 | a subjects slice: null leaves it nil (empty), an array is decoded element by element. Carried by `Types.DecodeEncodeRoleBinding` |
| `Types.DecodeRoleBinding` | controllers/types.go:5-9 | a RoleBinding filled from its three members. Carried by `Types.DecodeEncodeRoleBinding` and `Payload.BindingObjectDecodes` |
| `Types.DecodeRoleBindingList` | controllers/types.go:12-13 | a binding slice: null leaves it nil (empty), an array is decoded element by element. Carried by `Types.DecodeEncodeInput` and `Payload.DecodePayload` |
| `Types.DecodeInput` | controllers/dockyardscluster_controller_test.go:136-141 | the `json.Unmarshal` of a document into a zero RBACWorkloadInput. Carried by `Types.DecodeEncodeInput`, `Types.AbsentRoleBindingsDecodeEmpty` and `Payload.DecodePayload` |
| `Types.AbsentRoleBindingsDecodeEmpty` | controllers/types.go:13 | any decodable document without a `roleBindings` member decodes to an input with an empty roleBindings list |
| `Api.IsZeroTime` | controllers/dockyardscluster_controller.go:52 | stand-in for `metav1.Time.IsZero`: a nil timestamp or the zero time. Carried by `SynthesisProperties.DeletingClusterIsNoop` and `SynthesisProperties.OwnerResolutionDecides` |
| `Api.HasAnnotation` | controllers/dockyardscluster_controller.go:86 | stand-in for `metav1.HasAnnotation`: the key is present, whatever its value. Carried by `SynthesisProperties.MutateRespectsSkip` and `SynthesisProperties.SkipAnnotationFreezesWorkload` |
| `Payload.RBACPayload` | controllers/dockyardscluster_controller.go:117-159 | the marshalled document is an object whose only member is `clusterRoleBindings`, a list of three entries; it has no `roleBindings` member |
| `Payload.BindingObjectDecodes` | controllers/dockyardscluster_controller.go:119-131 | each untyped binding map in the source decodes to the typed RoleBinding that grants that cluster role to the one Group of the same name |
| `Payload.BindingObjectOmitsApiGroup` | controllers/dockyardscluster_controller.go:121-124 | each binding map is the wire form of that RoleBinding except that its role reference lacks the `apiGroup` member, so the two are not equal |
| `Payload.DecodePayload` | controllers/dockyardscluster_controller_test.go:136-141 | decoding the payload into RBACWorkloadInput gives the three expected bindings and an empty roleBindings list |
| `Payload.DecodedPayloadShape` | controllers/dockyardscluster_controller.go:113-159 | the decoded payload has three bindings in the order reader, editor, admin. Each is named `dockyards:` plus the lower-cased role. Their role references are ClusterRole `view`, `edit` and `cluster-admin`. Each has one Group subject named like the binding, and roleBindings is empty |
| `Payload.PayloadIsNotAnEncodedInput` | controllers/dockyardscluster_controller.go:117-159 | the payload differs from the wire form of every RBACWorkloadInput, because it lacks the `roleBindings` member |
| `Payload.DecodedPayloadDiffersFromTestExpectation` | controllers/dockyardscluster_controller_test.go:143-191 | whatever prefix the test uses, the decoded payload is not the test's expected value. With the code's prefix the two differ only in the admin role reference, `cluster-admin` rather than `admin` |
| `Synthesis.Mutate` | controllers/dockyardscluster_controller.go:86-166 | the mutate closure as a function of the current object, the Cluster and the public namespace. Carried by `SynthesisProperties.MutateRespectsSkip`, `MutateSetsManagedFields`, `MutateIdempotent` and `MutateKeepsKey` |
| `Synthesis.Start` | controllers/dockyardscluster_controller.go:85 | the object create-or-patch mutates: the stored one under the caller's key, otherwise the caller's own. Carried by `SynthesisProperties.StartHasKey` and `SynthesisProperties.EndToEndScenario` |
| `Synthesis.CreateOrPatch` | controllers/dockyardscluster_controller.go:85-169 | the assumed stand-in for `controllerutil.CreateOrPatch`. Carried by `SynthesisProperties.CreateOrPatchMutateErrorWritesNothing` and `SynthesisProperties.CreateOrPatchWritesOnlyItsKey` |
| `Synthesis.ReconcileRBACWorkload` | controllers/dockyardscluster_controller.go:70-177 | the synthesiser: config read, then create-or-patch of `<name>-rbac` in the Cluster's namespace. Carried by `SynthesisProperties.MissingConfigFails`, `SynthesisWritesOnlyTarget`, `SynthesisStoresDesired`, `SkipAnnotationFreezesWorkload` and `SynthesisWriteCondition` |
| `Synthesis.FetchedCluster` | controllers/dockyardscluster_controller.go:46-47 | the `cluster` variable after the Get: the fetched object, or its zero value when the Get failed. Carried by `SynthesisProperties.NotFoundContinuesWithZeroCluster` |
| `Synthesis.Reconcile` | controllers/dockyardscluster_controller.go:43-68 | the guard chain in front of the synthesiser. Carried by `SynthesisProperties.GetErrorIsReturned`, `NotFoundContinuesWithZeroCluster`, `DeletingClusterIsNoop`, `OwnerResolutionDecides`, `ReconcileWriteCondition` and `ReconcileIdempotent` |
| `SynthesisProperties.MutateRespectsSkip` | controllers/dockyardscluster_controller.go:86-88 | with the skip-remediation annotation present, mutate returns the object unchanged |
| `SynthesisProperties.MutateSetsManagedFields` | controllers/dockyardscluster_controller.go:90-166 | without the annotation, mutate sets the managed fields and keeps all other metadata, such as name, namespace, uid, annotations and deletion timestamp. The labels become exactly the cluster-name label. The owner references become exactly one, carrying the group version, kind, name and UID of the Cluster. Provenience, cluster-component=true and target namespace `kube-system` are set. The template reference becomes WorkloadTemplate `rbac` in the public namespace, and the input becomes the payload |
| `SynthesisProperties.MutateIdempotent` | controllers/dockyardscluster_controller.go:86-166 | applying mutate twice gives the same object as applying it once |
| `SynthesisProperties.MutateKeepsKey` | controllers/dockyardscluster_controller.go:86-166 | mutate never changes the object's name or namespace |
| `SynthesisProperties.CreateOrPatchMutateErrorWritesNothing` | controllers/dockyardscluster_controller.go:160-162 | a mutate error is returned by create-or-patch and nothing is written |
| `SynthesisProperties.CreateOrPatchWritesOnlyItsKey` | controllers/dockyardscluster_controller.go:85-169 | create-or-patch writes either nothing or the mutated object under its key. It reports Created only for an absent key, Updated only for a changed object, and writes nothing when it reports Unchanged. Conversely, with no faults and a successful mutate that keeps the key, it reports Created for an absent key, Unchanged for an equal object and Updated otherwise |
| `SynthesisProperties.GetErrorIsReturned` | controllers/dockyardscluster_controller.go:46-50 | a Cluster Get error other than not-found is returned unchanged. No call follows the Get: no owner lookup, no configuration read, no store access |
| `SynthesisProperties.NotFoundContinuesWithZeroCluster` | controllers/dockyardscluster_controller.go:46-56 | a not-found Get behaves exactly like fetching the zero-valued Cluster, and the owner resolver is then consulted on it |
| `SynthesisProperties.NotFoundWithoutOwnerIsNoop` | controllers/dockyardscluster_controller.go:46-65 | if the resolver finds no owner for the zero-valued Cluster, a not-found Get ends in success with the store untouched |
| `SynthesisProperties.DeletingClusterIsNoop` | controllers/dockyardscluster_controller.go:52-54 | a Cluster with a non-zero deletion timestamp yields success, with no owner lookup and no store call |
| `SynthesisProperties.OwnerResolutionDecides` | controllers/dockyardscluster_controller.go:56-67 | after the first two guards, a resolver error is returned and a missing owner is a success with the store untouched. Only a found owner leads to synthesis, and the outcome is then synthesis's own |
| `SynthesisProperties.MissingConfigFails` | controllers/dockyardscluster_controller.go:73-76 | an empty public-namespace value is an error naming the key. Create-or-patch is never called and the store is untouched |
| `SynthesisProperties.SynthesisWritesOnlyTarget` | controllers/dockyardscluster_controller.go:78-85 | synthesis leaves the store unchanged or changes only the key `<name>-rbac` in the Cluster's namespace, to the mutated object |
| `SynthesisProperties.SynthesisStoresDesired` | controllers/dockyardscluster_controller.go:85-176 | with a public namespace and no store faults, synthesis succeeds and stores the mutated object. It reports Created for an absent target, Unchanged when nothing changed and Updated otherwise |
| `SynthesisProperties.SkipAnnotationFreezesWorkload` | controllers/dockyardscluster_controller.go:86-88 | a stored target with the skip annotation causes no write and the store stays equal. With configuration and a working store the result is Unchanged |
| `SynthesisProperties.SynthesisWriteCondition` | controllers/dockyardscluster_controller.go:73-172 | synthesis writes exactly when the public namespace is set, the Get answers, and the mutated object differs from the stored one or none is stored. A changed store implies such a write succeeded |
| `SynthesisProperties.ReconcileWriteCondition` | controllers/dockyardscluster_controller.go:43-68 | Reconcile writes exactly when every guard passes, the public namespace is set, the Get answers and the target needs a change. The store only ever changes at the target key, to the mutated object |
| `SynthesisProperties.ReconcileIdempotent` | controllers/dockyardscluster_controller.go:43-177 | after a Reconcile that reached create-or-patch, a second Reconcile on the same inputs and the resulting store reports Unchanged and writes nothing |
| `SynthesisProperties.OwnerReferenceFollowsClusterUid` | controllers/dockyardscluster_controller.go:94-101 | the synthesised Workload's only owner reference carries the Cluster's UID. Re-running with a new UID reports Updated and re-points it |
| `SynthesisProperties.ReconcilePreservesWellKeyed` | controllers/dockyardscluster_controller.go:43-177 | Reconcile keeps every stored Workload under its own name and namespace |
| `SynthesisProperties.EndToEndScenario` | controllers/dockyardscluster_controller.go:43-177 | a scenario of the model's own (the names `cluster1`, `ns1` and `pub` are not the test's): an owned Cluster `cluster1` in `ns1` with public namespace `pub` and an empty store yields exactly one created Workload, `cluster1-rbac` in `ns1`. It has the cluster-name label, an owner reference to the Cluster, template `rbac` in `pub`, target namespace `kube-system`, and a payload that decodes to the three bindings |
| `Controller.WorkloadObject.constructor` | controllers/dockyardscluster_controller.go:78-83 | the new object has only its name and namespace set |
| `Controller.WorkloadObject.Load` | controllers/dockyardscluster_controller.go:85 | the Get inside create-or-patch overwrites the object with the stored one |
| `Controller.WorkloadObject.Mutate` | controllers/dockyardscluster_controller.go:85-169 | the closure, assigning fields in place, returns no error and leaves exactly the value the mutate specification gives |
| `Controller.DockyardsClusterReconciler.constructor` | controllers/dockyardscluster_controller.go:34-37 | the reconciler starts with the given store and configuration values and has made no calls |
| `Controller.DockyardsClusterReconciler.CreateOrPatch` | controllers/dockyardscluster_controller.go:85-172 | result, new store and calls made are those of the create-or-patch stand-in with the RBAC mutate step. On success the object holds what was stored |
| `Controller.DockyardsClusterReconciler.ReconcileRBACWorkload` | controllers/dockyardscluster_controller.go:70-177 | status, logged operation result, new store and calls made are those of the synthesis specification |
| `Controller.DockyardsClusterReconciler.Reconcile` | controllers/dockyardscluster_controller.go:43-68 | status, new store and calls made are those of the Reconcile specification |
| `Controller.ReconcileTwice` | controllers/dockyardscluster_controller.go:43-177 | a client of the model's own, not the repository's test (which calls the synthesiser once): a client reconciling an owned, live Cluster twice against an empty store gets the Workload owned by the Cluster after the first run, and the same store after the second |

## Left out

- `SetupWithManager` (controller registration and scheme wiring), `main.go` (flags, signals, manager construction) and `test/mockcrds/mockcrds.go` (a CRD fixture): process plumbing with no behaviour to verify.
- The test's envtest harness and manager goroutine: a foreign API server and concurrency. Only its expected value and scenario are used.
- Logging (the "ignoring cluster" and "Reconciled Workload" lines). The logged operation result is exposed as `Outcome.operation`.
- Work-queue concurrency, retry, backoff and context cancellation: the framework owns them. Errors are returned, and each call is modelled as one sequential step.
- The internals of `controllerutil.CreateOrPatch`: merge-patch computation, status patching and conflict retry. `Synthesis.CreateOrPatch` is an assumed stand-in, and its `equality.Semantic.DeepEqual` comparison is modelled as value equality.
- The internals of `apiutil.GetOwnerOrganization`: it is an oracle parameter. `NotFoundWithoutOwnerIsNoop` assumes, as its requires clause, that the resolver finds no owner for the zero-valued Cluster.
- `ConfigManager`'s background refresh: the provider is a map of last known values.
- The values of the dockyards API constants and the definition of `strings.ToLower`: they are parameters (`Api.Externals`), so no property depends on them.
- The bytes of `json.Marshal` output, member order and escaping: the payload is modelled as a JSON value.
- `Types.EncodeInput` and `Types.EncodeRoleBinding` write an empty list (`roleBindings`, `clusterRoleBindings`, `subjects`) as `[]`. Go writes a nil slice as `null`. The source never marshals these structs, and both forms decode to an empty list.
- `Api.IgnoreNotFound` and `Api.GetValueOrDefault` are assumed stand-ins for `client.IgnoreNotFound` (no error for not-found, the error itself otherwise) and `ConfigManager.GetValueOrDefault` (the last known value, or the default). Their properties are carried by `SynthesisProperties.GetErrorIsReturned`, `NotFoundContinuesWithZeroCluster` and `MissingConfigFails`.
- `encoding/json`'s case-insensitive member-name fallback and its number handling: decoding matches member names exactly. The payload's names match exactly.
- `rbacv1.RoleRef` and `rbacv1.Subject` are library types. The model gives them the members and JSON names of the Kubernetes RBAC API: `apiGroup`, `kind`, `name`, and for a subject also `namespace`. The payload never writes `apiGroup` or `namespace`, so they decode to empty strings.
- `Controller.WorkloadObject.Mutate`: the `json.Marshal` error branch (:160-162) is not modelled in the closure. It is unreachable because the map holds only strings. The generic `Synthesis.CreateOrPatch` still models a mutate function that fails.
- Workload fields that the source never writes or reads are not modelled: status, other spec fields, resourceVersion and finalizers.
- Nil-valued fields the source resets are not modelled: the `APIGroup` of the template reference (the source replaces the whole reference at :107-111) and the `Controller` and `BlockOwnerDeletion` members of an owner reference (the source replaces the whole list at :94-101). A stored Workload with any of them set would be patched by the source (Updated), but the model cannot represent such a Workload.
- Lemmas about the store assume its own invariant, `Synthesis.WellKeyed`: every object is stored under its own name and namespace.
