/** The reconciler of controllers/dockyardscluster_controller.go as functions
    over explicit inputs: the result of the Cluster lookup, the owner
    resolver, the configuration provider's values and the Workload store.
    Each function returns the status, the new store and the sequence of
    external calls made, so that properties can say which collaborators were
    consulted and whether the store was written. */
module Synthesis {
  import opened Wrappers
  import opened JsonValues
  import opened Payload
  import opened Api

  /** The Workload store, keyed by namespace and name. */
  type Store = map<ObjectKey, Workload>

  /** The store's own invariant: every object is stored under its own name and namespace. */
  predicate WellKeyed(store: Store)
  {
    forall k :: k in store ==> KeyOf(store[k].meta) == k
  }

  /** Failures the store may report instead of answering (oracle inputs). */
  datatype StoreFaults = StoreFaults(getFault: Option<nat>, writeFault: Option<nat>)

  function NoFaults(): StoreFaults { StoreFaults(None, None) }

  /** A call into a collaborator. */
  datatype Event =
    | GetCluster(key: ObjectKey)
    | ResolveOwner(cluster: ObjectKey)
    | ReadConfig(configKey: string)
    | GetWorkload(key: ObjectKey)
    | CreateWorkload(key: ObjectKey)
    | PatchWorkload(key: ObjectKey)

  predicate IsWrite(e: Event) { e.CreateWorkload? || e.PatchWorkload? }

  predicate HasWrite(events: seq<Event>)
  {
    exists i :: 0 <= i < |events| && IsWrite(events[i])
  }

  datatype OperationResult = Created | Updated | Unchanged

  /** Reconcile always returns an empty ctrl.Result; only the error matters. */
  datatype Status = Ok | Failed(err: Error)

  /** The outcome of one call: its status, the operation result that would be
      logged (present only when create-or-patch succeeded), the store afterwards
      and the calls made, in order. */
  datatype Outcome = Outcome(status: Status, operation: Option<OperationResult>, store: Store, events: seq<Event>)

  /** The owner-organization resolver, an oracle. */
  type OwnerResolver = Cluster -> Result<Option<Organization>, Error>

  // ---------------------------------------------------------------- the mutate step

  /** The Workload identity derived from a Cluster. */
  function TargetKey(c: Cluster): ObjectKey
  {
    ObjectKey(c.meta.namespace, c.meta.name + "-rbac")
  }

  /** The single owner reference pointing at the Cluster. */
  function ClusterOwnerRef(c: Cluster, ext: Externals): OwnerReference
  {
    OwnerReference(ext.groupVersion, ext.clusterKind, c.meta.name, c.meta.uid)
  }

  function TemplateRef(publicNamespace: string, ext: Externals): TypedObjectReference
  {
    TypedObjectReference(ext.workloadTemplateKind, "rbac", Some(publicNamespace))
  }

  /** The body of the mutate closure on the Workload create-or-patch holds:
      nothing when the skip annotation is present, otherwise overwrite the
      managed fields. */
  function Mutate(w: Workload, c: Cluster, publicNamespace: string, ext: Externals): Workload
  {
    if HasAnnotation(w.meta, ext.annotationSkipRemediation) then w
    else
      Workload(
        w.meta.(labels := map[ext.labelClusterName := c.meta.name],
                ownerReferences := [ClusterOwnerRef(c, ext)]),
        w.spec.(provenience := ext.provenienceDockyards,
                clusterComponent := true,
                targetNamespace := "kube-system",
                workloadTemplateRef := Some(TemplateRef(publicNamespace, ext)),
                input := Some(RBACPayload(ext))))
  }

  /** The closure handed to create-or-patch. Marshalling the payload cannot
      fail (it holds only strings), so the closure never returns an error. */
  function MutateFn(c: Cluster, publicNamespace: string, ext: Externals): Workload -> Result<Workload, Error>
  {
    w => Success(Mutate(w, c, publicNamespace, ext))
  }

  // ---------------------------------------------------------------- create-or-patch

  /** The outcome of create-or-patch: its result, the store afterwards and the
      store calls made. */
  datatype PatchOutcome = PatchOutcome(result: Result<OperationResult, Error>, store: Store, events: seq<Event>)

  /** The object create-or-patch mutates: the stored one when the Get finds
      it (the Get overwrites the caller's object), otherwise the caller's own. */
  function Start(store: Store, obj: Workload): Workload
  {
    if KeyOf(obj.meta) in store then store[KeyOf(obj.meta)] else obj
  }

  /** A stand-in for controllerutil.CreateOrPatch, which is library code: Get
      the object under `obj`'s key (a transport fault is returned; absence
      means start from `obj` itself), apply the mutate function, refuse a
      mutation that changes the key, then Create when absent, do nothing when
      the object is equal to before, and Patch otherwise. A write fault is
      returned and nothing is written. */
  function CreateOrPatch(store: Store, obj: Workload, mutate: Workload -> Result<Workload, Error>, faults: StoreFaults): PatchOutcome
  {
    var key := KeyOf(obj.meta);
    var get := [GetWorkload(key)];
    if faults.getFault.Some? then PatchOutcome(Failure(Transport(faults.getFault.value)), store, get)
    else
      var before := Start(store, obj);
      match mutate(before)
      case Failure(e) => PatchOutcome(Failure(e), store, get)
      case Success(after) =>
        if KeyOf(after.meta) != key then PatchOutcome(Failure(KeyMutated), store, get)
        else if key !in store then
          var events := get + [CreateWorkload(key)];
          if faults.writeFault.Some? then PatchOutcome(Failure(Transport(faults.writeFault.value)), store, events)
          else PatchOutcome(Success(Created), store[key := after], events)
        else if after == before then PatchOutcome(Success(Unchanged), store, get)
        else
          var events := get + [PatchWorkload(key)];
          if faults.writeFault.Some? then PatchOutcome(Failure(Transport(faults.writeFault.value)), store, events)
          else PatchOutcome(Success(Updated), store[key := after], events)
  }

  // ---------------------------------------------------------------- reconcileRBACWorkload

  /** reconcileRBACWorkload: read the public namespace, fail when it is empty,
      otherwise create-or-patch the Workload `<name>-rbac` in the Cluster's
      namespace. */
  function ReconcileRBACWorkload(c: Cluster, config: map<string, string>, store: Store, faults: StoreFaults, ext: Externals): Outcome
  {
    var read := [ReadConfig(ext.keyPublicNamespace)];
    var publicNamespace := GetValueOrDefault(config, ext.keyPublicNamespace, "");
    if publicNamespace == "" then Outcome(Failed(NoConfigValue(ext.keyPublicNamespace)), None, store, read)
    else
      var p := CreateOrPatch(store, NewWorkload(TargetKey(c)), MutateFn(c, publicNamespace, ext), faults);
      match p.result
      case Failure(e) => Outcome(Failed(e), None, p.store, read + p.events)
      case Success(op) => Outcome(Ok, Some(op), p.store, read + p.events)
  }

  // ---------------------------------------------------------------- Reconcile

  /** The Cluster variable after the Get: the fetched object, or its zero value
      when the Get failed. */
  function FetchedCluster(fetched: Result<Cluster, Error>): Cluster
  {
    if fetched.Success? then fetched.value else ZeroCluster()
  }

  /** Reconcile: the guard chain in front of reconcileRBACWorkload. `fetched`
      is what the Get of the requested Cluster returned. A not-found error is
      ignored and leaves the zero-valued Cluster to the later guards. */
  function Reconcile(req: ObjectKey, fetched: Result<Cluster, Error>, resolve: OwnerResolver,
                     config: map<string, string>, store: Store, faults: StoreFaults, ext: Externals): Outcome
  {
    var get := [GetCluster(req)];
    var err := if fetched.Failure? then Some(fetched.error) else None;
    var cluster := FetchedCluster(fetched);
    if IgnoreNotFound(err).Some? then Outcome(Failed(err.value), None, store, get)
    else if !IsZeroTime(cluster.meta.deletionTimestamp) then Outcome(Ok, None, store, get)
    else
      var resolved := get + [ResolveOwner(KeyOf(cluster.meta))];
      match resolve(cluster)
      case Failure(e) => Outcome(Failed(e), None, store, resolved)
      case Success(owner) =>
        if owner.None? then Outcome(Ok, None, store, resolved)
        else
          var o := ReconcileRBACWorkload(cluster, config, store, faults, ext);
          o.(events := resolved + o.events)
  }
}
