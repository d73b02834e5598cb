/** The reconciler as the source writes it: a Workload object whose fields the
    mutate step assigns in place, and a reconciler object that owns the
    Workload store and runs the guard chain and create-or-patch step by step.
    Every method is tied to the specification functions of module Synthesis. */
module Controller {
  import opened Wrappers
  import opened JsonValues
  import opened Payload
  import opened Api
  import opened Synthesis

  /** The in-memory `workload` that create-or-patch fills and the mutate
      closure updates. */
  class WorkloadObject {
    var name: string
    var namespace: string
    var uid: string
    var labels: map<string, string>
    var annotations: map<string, string>
    var ownerReferences: seq<OwnerReference>
    var deletionTimestamp: Option<Time>
    var provenience: string
    var clusterComponent: bool
    var targetNamespace: string
    var workloadTemplateRef: Option<TypedObjectReference>
    var input: Option<Json>

    /** The object's current value. */
    function Value(): Workload
      reads this
    {
      Workload(
        ObjectMeta(name, namespace, uid, labels, annotations, ownerReferences, deletionTimestamp),
        WorkloadSpec(provenience, clusterComponent, targetNamespace, workloadTemplateRef, input))
    }

    /** A Workload with only its name and namespace set. */
    constructor (key: ObjectKey)
      ensures Value() == NewWorkload(key)
    {
      name, namespace := key.name, key.namespace;
      uid := "";
      labels, annotations := map[], map[];
      ownerReferences := [];
      deletionTimestamp := None;
      provenience, clusterComponent, targetNamespace := "", false, "";
      workloadTemplateRef, input := None, None;
    }

    /** What a successful Get does to the object: overwrite it with the stored one. */
    method Load(w: Workload)
      modifies this
      ensures Value() == w
    {
      name, namespace, uid := w.meta.name, w.meta.namespace, w.meta.uid;
      labels, annotations := w.meta.labels, w.meta.annotations;
      ownerReferences, deletionTimestamp := w.meta.ownerReferences, w.meta.deletionTimestamp;
      provenience, clusterComponent := w.spec.provenience, w.spec.clusterComponent;
      targetNamespace, workloadTemplateRef, input := w.spec.targetNamespace, w.spec.workloadTemplateRef, w.spec.input;
    }

    /** The mutate closure: return at once when the skip annotation is present,
        otherwise assign the managed fields one by one. */
    method Mutate(c: Cluster, publicNamespace: string, ext: Externals) returns (err: Option<Error>)
      modifies this
      ensures err == None
      ensures Value() == Synthesis.Mutate(old(Value()), c, publicNamespace, ext)
    {
      if ext.annotationSkipRemediation in annotations {
        return None;
      }
      labels := map[ext.labelClusterName := c.meta.name];
      ownerReferences := [OwnerReference(ext.groupVersion, ext.clusterKind, c.meta.name, c.meta.uid)];
      provenience := ext.provenienceDockyards;
      clusterComponent := true;
      targetNamespace := "kube-system";
      workloadTemplateRef := Some(TypedObjectReference(ext.workloadTemplateKind, "rbac", Some(publicNamespace)));
      var raw := RBACPayload(ext);
      input := Some(raw);
      return None;
    }
  }

  /** DockyardsClusterReconciler with the state of the collaborators it
      writes to or reads from: the Workload store, the configuration
      provider's values, and a record of the calls it makes. */
  class DockyardsClusterReconciler {
    var workloads: Store
    var config: map<string, string>
    var events: seq<Event>
    const ext: Externals

    constructor (workloads: Store, config: map<string, string>, ext: Externals)
      ensures this.workloads == workloads && this.config == config && this.events == []
      ensures this.ext == ext
    {
      this.workloads := workloads;
      this.config := config;
      this.events := [];
      this.ext := ext;
    }

    /** Create-or-patch of `obj` with the RBAC mutate step. */
    method CreateOrPatch(obj: WorkloadObject, c: Cluster, publicNamespace: string, faults: StoreFaults)
      returns (result: Result<OperationResult, Error>)
      modifies this, obj
      ensures config == old(config)
      ensures var p := Synthesis.CreateOrPatch(old(workloads), old(obj.Value()), MutateFn(c, publicNamespace, ext), faults);
        result == p.result && workloads == p.store && events == old(events) + p.events
      ensures result.Success? ==> KeyOf(old(obj.Value()).meta) in workloads && obj.Value() == workloads[KeyOf(old(obj.Value()).meta)]
    {
      var key := ObjectKey(obj.namespace, obj.name);
      events := events + [GetWorkload(key)];
      if faults.getFault.Some? {
        return Failure(Transport(faults.getFault.value));
      }
      var found := key in workloads;
      if found {
        obj.Load(workloads[key]);
      }
      var before := obj.Value();
      var err := obj.Mutate(c, publicNamespace, ext);
      // The closure's only error is a marshalling failure, which a payload of strings cannot cause.
      assert err.None?;
      if ObjectKey(obj.namespace, obj.name) != key {
        return Failure(KeyMutated);
      }
      if !found {
        events := events + [CreateWorkload(key)];
        if faults.writeFault.Some? {
          return Failure(Transport(faults.writeFault.value));
        }
        workloads := workloads[key := obj.Value()];
        return Success(Created);
      }
      if obj.Value() == before {
        return Success(Unchanged);
      }
      events := events + [PatchWorkload(key)];
      if faults.writeFault.Some? {
        return Failure(Transport(faults.writeFault.value));
      }
      workloads := workloads[key := obj.Value()];
      return Success(Updated);
    }

    /** reconcileRBACWorkload. `operation` is the result the source logs. */
    method ReconcileRBACWorkload(c: Cluster, faults: StoreFaults) returns (status: Status, operation: Option<OperationResult>)
      modifies this
      ensures config == old(config)
      ensures var o := Synthesis.ReconcileRBACWorkload(c, old(config), old(workloads), faults, ext);
        status == o.status && operation == o.operation && workloads == o.store && events == old(events) + o.events
    {
      events := events + [ReadConfig(ext.keyPublicNamespace)];
      var publicNamespace := GetValueOrDefault(config, ext.keyPublicNamespace, "");
      if publicNamespace == "" {
        return Failed(NoConfigValue(ext.keyPublicNamespace)), None;
      }
      var workload := new WorkloadObject(ObjectKey(c.meta.namespace, c.meta.name + "-rbac"));
      var result := CreateOrPatch(workload, c, publicNamespace, faults);
      if result.Failure? {
        return Failed(result.error), None;
      }
      return Ok, Some(result.value);
    }

    /** Reconcile for the Cluster `req`; `fetched` is what the store's Get
        returned and `resolve` the owner-organization lookup. */
    method Reconcile(req: ObjectKey, fetched: Result<Cluster, Error>, resolve: OwnerResolver, faults: StoreFaults)
      returns (status: Status)
      modifies this
      ensures config == old(config)
      ensures var o := Synthesis.Reconcile(req, fetched, resolve, old(config), old(workloads), faults, ext);
        status == o.status && workloads == o.store && events == old(events) + o.events
    {
      events := events + [GetCluster(req)];
      var cluster := ZeroCluster();
      var err: Option<Error> := None;
      if fetched.Success? {
        cluster := fetched.value;
      } else {
        err := Some(fetched.error);
      }
      if IgnoreNotFound(err).Some? {
        return Failed(err.value);
      }
      if !IsZeroTime(cluster.meta.deletionTimestamp) {
        return Ok;
      }
      events := events + [ResolveOwner(ObjectKey(cluster.meta.namespace, cluster.meta.name))];
      var owner := resolve(cluster);
      if owner.Failure? {
        return Failed(owner.error);
      }
      if owner.value.None? {
        return Ok;
      }
      var operation;
      status, operation := ReconcileRBACWorkload(cluster, faults);
    }
  }

  /** A client of the reconciler: on a well-keyed store, driving Reconcile
      twice for an owned, live Cluster without faults creates the Workload
      and then leaves it unchanged. */
  method ReconcileTwice(c: Cluster, org: Organization, publicNamespace: string, ext: Externals)
    returns (first: Store, second: Store)
    requires publicNamespace != ""
    ensures TargetKey(c) in first && first[TargetKey(c)].meta.ownerReferences == [ClusterOwnerRef(c, ext)]
    ensures second == first
  {
    var r := new DockyardsClusterReconciler(map[], map[ext.keyPublicNamespace := publicNamespace], ext);
    var req := KeyOf(c.meta);
    var resolve: OwnerResolver := _ => Success(Some(org));
    var live := Cluster(c.meta.(deletionTimestamp := None));
    var s1 := r.Reconcile(req, Success(live), resolve, NoFaults());
    first := r.workloads;
    var s2 := r.Reconcile(req, Success(live), resolve, NoFaults());
    second := r.workloads;
  }
}
