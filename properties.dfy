/** Properties of the reconciler model: what each guard of Reconcile
    decides, when the store can be written, what the mutate step changes and
    keeps, idempotence, and the ownership link to the Cluster. */
module SynthesisProperties {
  import opened Wrappers
  import opened JsonValues
  import opened Types
  import opened Payload
  import opened Api
  import opened Synthesis

  // ---------------------------------------------------------------- the mutate step

  /** With the skip annotation present, mutate changes nothing at all. */
  lemma MutateRespectsSkip(w: Workload, c: Cluster, publicNamespace: string, ext: Externals)
    requires HasAnnotation(w.meta, ext.annotationSkipRemediation)
    ensures Mutate(w, c, publicNamespace, ext) == w
  {
  }

  /** Without it, mutate sets exactly the managed fields and keeps the rest of
      the metadata (name, namespace, uid, annotations, deletion timestamp). */
  lemma MutateSetsManagedFields(w: Workload, c: Cluster, publicNamespace: string, ext: Externals)
    requires !HasAnnotation(w.meta, ext.annotationSkipRemediation)
    ensures var r := Mutate(w, c, publicNamespace, ext);
      && r.meta.labels == map[ext.labelClusterName := c.meta.name]
      && |r.meta.ownerReferences| == 1
      && r.meta.ownerReferences[0].apiVersion == ext.groupVersion
      && r.meta.ownerReferences[0].kind == ext.clusterKind
      && r.meta.ownerReferences[0].name == c.meta.name
      && r.meta.ownerReferences[0].uid == c.meta.uid
      && r.spec.provenience == ext.provenienceDockyards
      && r.spec.clusterComponent
      && r.spec.targetNamespace == "kube-system"
      && r.spec.workloadTemplateRef == Some(TypedObjectReference(ext.workloadTemplateKind, "rbac", Some(publicNamespace)))
      && r.spec.input == Some(RBACPayload(ext))
      && r.meta.(labels := w.meta.labels, ownerReferences := w.meta.ownerReferences) == w.meta
  {
  }

  /** Applying mutate twice gives the object applying it once gives. */
  lemma MutateIdempotent(w: Workload, c: Cluster, publicNamespace: string, ext: Externals)
    ensures var once := Mutate(w, c, publicNamespace, ext);
      Mutate(once, c, publicNamespace, ext) == once
  {
  }

  /** Mutate never renames the object, so create-or-patch's key check never fires. */
  lemma MutateKeepsKey(w: Workload, c: Cluster, publicNamespace: string, ext: Externals)
    ensures KeyOf(Mutate(w, c, publicNamespace, ext).meta) == KeyOf(w.meta)
  {
  }

  // ---------------------------------------------------------------- create-or-patch stand-in

  /** In a well-keyed store the starting object carries the caller's key. */
  lemma StartHasKey(store: Store, obj: Workload)
    requires WellKeyed(store)
    ensures KeyOf(Start(store, obj).meta) == KeyOf(obj.meta)
  {
  }

  /** A mutate error is returned and nothing is written. */
  lemma CreateOrPatchMutateErrorWritesNothing(store: Store, obj: Workload, mutate: Workload -> Result<Workload, Error>, faults: StoreFaults)
    requires faults.getFault.None?
    requires mutate(Start(store, obj)).Failure?
    ensures var p := CreateOrPatch(store, obj, mutate, faults);
      p.result == Failure(mutate(Start(store, obj)).error) && p.store == store && !HasWrite(p.events)
  {
  }

  /** Create-or-patch writes only under its key, and only the mutated object.
      It reports Created only for an absent key, Updated only for a changed
      object, and Unchanged only with the store as it was. Conversely, without
      faults and with a successful mutate that keeps the key, the result is
      Created for an absent key, Unchanged for an equal object and Updated
      otherwise. */
  lemma CreateOrPatchWritesOnlyItsKey(store: Store, obj: Workload, mutate: Workload -> Result<Workload, Error>, faults: StoreFaults)
    ensures var p := CreateOrPatch(store, obj, mutate, faults);
      var key := KeyOf(obj.meta);
      && (p.store == store || (mutate(Start(store, obj)).Success? && p.store == store[key := mutate(Start(store, obj)).value]))
      && (p.result == Success(Created) ==> key !in store)
      && (p.result == Success(Updated) ==> key in store && p.store[key] != store[key])
      && (p.result == Success(Unchanged) ==> p.store == store)
      && (faults == NoFaults() && mutate(Start(store, obj)).Success? && KeyOf(mutate(Start(store, obj)).value.meta) == key ==>
            p.result == Success(if key !in store then Created
                                else if mutate(Start(store, obj)).value == store[key] then Unchanged
                                else Updated))
  {
  }

  // ---------------------------------------------------------------- Reconcile guards

  /** A Get error other than not-found is returned unchanged, before any owner
      lookup, configuration read or store call. */
  lemma GetErrorIsReturned(req: ObjectKey, e: Error, resolve: OwnerResolver,
                           config: map<string, string>, store: Store, faults: StoreFaults, ext: Externals)
    requires e != NotFound
    ensures Reconcile(req, Failure(e), resolve, config, store, faults, ext)
      == Outcome(Failed(e), None, store, [GetCluster(req)])
  {
  }

  /** A not-found Get is not an error: Reconcile goes on exactly as if it had
      fetched the zero-valued Cluster, and consults the owner resolver on it. */
  lemma NotFoundContinuesWithZeroCluster(req: ObjectKey, resolve: OwnerResolver,
                                         config: map<string, string>, store: Store, faults: StoreFaults, ext: Externals)
    ensures Reconcile(req, Failure(NotFound), resolve, config, store, faults, ext)
      == Reconcile(req, Success(ZeroCluster()), resolve, config, store, faults, ext)
    ensures var o := Reconcile(req, Failure(NotFound), resolve, config, store, faults, ext);
      |o.events| >= 2 && o.events[1] == ResolveOwner(ObjectKey("", ""))
  {
  }

  /** When the resolver finds no owner for an object without owner references,
      a not-found Cluster ends in success with no store call. */
  lemma NotFoundWithoutOwnerIsNoop(req: ObjectKey, resolve: OwnerResolver,
                                   config: map<string, string>, store: Store, faults: StoreFaults, ext: Externals)
    requires resolve(ZeroCluster()) == Success(None)
    ensures Reconcile(req, Failure(NotFound), resolve, config, store, faults, ext)
      == Outcome(Ok, None, store, [GetCluster(req), ResolveOwner(ObjectKey("", ""))])
  {
  }

  /** A Cluster being deleted ends in success before the owner lookup. */
  lemma DeletingClusterIsNoop(req: ObjectKey, c: Cluster, resolve: OwnerResolver,
                              config: map<string, string>, store: Store, faults: StoreFaults, ext: Externals)
    requires !IsZeroTime(c.meta.deletionTimestamp)
    ensures Reconcile(req, Success(c), resolve, config, store, faults, ext)
      == Outcome(Ok, None, store, [GetCluster(req)])
  {
  }

  /** The Get and deletion guards let the Cluster through to the owner lookup. */
  predicate PassesFetchGuards(fetched: Result<Cluster, Error>)
  {
    && (fetched.Success? || fetched.error == NotFound)
    && IsZeroTime(FetchedCluster(fetched).meta.deletionTimestamp)
  }

  /** An owner-resolution error is returned, a missing owner is a success with
      no store call, and only an owner leads on to synthesis. */
  lemma OwnerResolutionDecides(req: ObjectKey, fetched: Result<Cluster, Error>, resolve: OwnerResolver,
                               config: map<string, string>, store: Store, faults: StoreFaults, ext: Externals)
    requires PassesFetchGuards(fetched)
    ensures var c := FetchedCluster(fetched);
      var o := Reconcile(req, fetched, resolve, config, store, faults, ext);
      var prefix := [GetCluster(req), ResolveOwner(KeyOf(c.meta))];
      && (resolve(c).Failure? ==> o == Outcome(Failed(resolve(c).error), None, store, prefix))
      && (resolve(c) == Success(None) ==> o == Outcome(Ok, None, store, prefix))
      && (resolve(c).Success? && resolve(c).value.Some? ==>
            var s := ReconcileRBACWorkload(c, config, store, faults, ext);
            o == s.(events := prefix + s.events))
  {
  }

  // ---------------------------------------------------------------- reconcileRBACWorkload

  /** An empty public namespace is an error, and create-or-patch is never called. */
  lemma MissingConfigFails(c: Cluster, config: map<string, string>, store: Store, faults: StoreFaults, ext: Externals)
    requires GetValueOrDefault(config, ext.keyPublicNamespace, "") == ""
    ensures ReconcileRBACWorkload(c, config, store, faults, ext)
      == Outcome(Failed(NoConfigValue(ext.keyPublicNamespace)), None, store, [ReadConfig(ext.keyPublicNamespace)])
  {
  }

  /** The public namespace the synthesiser uses. */
  function PublicNamespace(config: map<string, string>, ext: Externals): string
  {
    GetValueOrDefault(config, ext.keyPublicNamespace, "")
  }

  /** The Workload the synthesiser would store for `c`. */
  function Desired(c: Cluster, config: map<string, string>, store: Store, ext: Externals): Workload
  {
    Mutate(Existing(store, TargetKey(c)), c, PublicNamespace(config, ext), ext)
  }

  /** The object synthesis starts from: the stored target, or a new one. */
  function Existing(store: Store, key: ObjectKey): Workload
  {
    Start(store, NewWorkload(key))
  }

  /** Only the target key `<name>-rbac` in the Cluster's namespace can change,
      and when it does it holds the mutated object. */
  lemma SynthesisWritesOnlyTarget(c: Cluster, config: map<string, string>, store: Store, faults: StoreFaults, ext: Externals)
    ensures var o := ReconcileRBACWorkload(c, config, store, faults, ext);
      o.store == store || o.store == store[ObjectKey(c.meta.namespace, c.meta.name + "-rbac") := Desired(c, config, store, ext)]
  {
  }

  /** Without store faults and with a public namespace, synthesis succeeds
      and leaves the desired Workload under the target key; the operation is
      Created, Updated or Unchanged according to what was there before. */
  lemma SynthesisStoresDesired(c: Cluster, config: map<string, string>, store: Store, ext: Externals)
    requires WellKeyed(store)
    requires PublicNamespace(config, ext) != ""
    ensures var o := ReconcileRBACWorkload(c, config, store, NoFaults(), ext);
      var key := TargetKey(c);
      && o.status == Ok
      && key in o.store && o.store[key] == Desired(c, config, store, ext)
      && o.operation == Some(if key !in store then Created
                             else if Desired(c, config, store, ext) == store[key] then Unchanged
                             else Updated)
  {
    StartHasKey(store, NewWorkload(TargetKey(c)));
    MutateKeepsKey(Existing(store, TargetKey(c)), c, PublicNamespace(config, ext), ext);
  }

  /** A Workload carrying the skip annotation is left exactly as it is. */
  lemma SkipAnnotationFreezesWorkload(c: Cluster, config: map<string, string>, store: Store, faults: StoreFaults, ext: Externals)
    requires WellKeyed(store)
    requires TargetKey(c) in store
    requires HasAnnotation(store[TargetKey(c)].meta, ext.annotationSkipRemediation)
    ensures var o := ReconcileRBACWorkload(c, config, store, faults, ext);
      o.store == store && !HasWrite(o.events)
      && (PublicNamespace(config, ext) != "" && faults.getFault.None? ==> o.operation == Some(Unchanged))
  {
  }

  /** A write happens exactly when the configuration is set, the store answers
      the Get, and the mutated object differs from what is stored (or nothing
      is). A write fault then leaves the store as it was. */
  lemma SynthesisWriteCondition(c: Cluster, config: map<string, string>, store: Store, faults: StoreFaults, ext: Externals)
    requires WellKeyed(store)
    ensures var o := ReconcileRBACWorkload(c, config, store, faults, ext);
      var key := TargetKey(c);
      && (HasWrite(o.events) <==>
           && PublicNamespace(config, ext) != ""
           && faults.getFault.None?
           && (key !in store || Desired(c, config, store, ext) != store[key]))
      && (o.store != store ==> HasWrite(o.events) && o.status == Ok && faults.writeFault.None?)
  {
    var o := ReconcileRBACWorkload(c, config, store, faults, ext);
    var key := TargetKey(c);
    StartHasKey(store, NewWorkload(key));
    MutateKeepsKey(Existing(store, key), c, PublicNamespace(config, ext), ext);
    if PublicNamespace(config, ext) != "" && faults.getFault.None? && (key !in store || Desired(c, config, store, ext) != store[key]) {
      assert IsWrite(o.events[2]);
    }
  }

  // ---------------------------------------------------------------- Reconcile as a whole

  /** Reconcile reaches synthesis: the Get and deletion guards pass and an
      owner is found. */
  predicate ReachesSynthesis(fetched: Result<Cluster, Error>, resolve: OwnerResolver)
  {
    PassesFetchGuards(fetched) && resolve(FetchedCluster(fetched)).Success? && resolve(FetchedCluster(fetched)).value.Some?
  }

  /** When Reconcile can write the store: only after every guard has passed,
      with a public namespace and a store that answered; and the store only
      ever changes through such a write, on the Cluster's target key. */
  lemma ReconcileWriteCondition(req: ObjectKey, fetched: Result<Cluster, Error>, resolve: OwnerResolver,
                                config: map<string, string>, store: Store, faults: StoreFaults, ext: Externals)
    requires WellKeyed(store)
    ensures var o := Reconcile(req, fetched, resolve, config, store, faults, ext);
      var c := FetchedCluster(fetched);
      && (HasWrite(o.events) <==>
           && ReachesSynthesis(fetched, resolve)
           && PublicNamespace(config, ext) != ""
           && faults.getFault.None?
           && (TargetKey(c) !in store || Desired(c, config, store, ext) != store[TargetKey(c)]))
      && (o.store != store ==> HasWrite(o.events) && o.status == Ok && o.store == store[TargetKey(c) := Desired(c, config, store, ext)])
  {
    var o := Reconcile(req, fetched, resolve, config, store, faults, ext);
    var c := FetchedCluster(fetched);
    if ReachesSynthesis(fetched, resolve) {
      var s := ReconcileRBACWorkload(c, config, store, faults, ext);
      OwnerResolutionDecides(req, fetched, resolve, config, store, faults, ext);
      SynthesisWriteCondition(c, config, store, faults, ext);
      SynthesisWritesOnlyTarget(c, config, store, faults, ext);
      var prefix := [GetCluster(req), ResolveOwner(KeyOf(c.meta))];
      assert o.events == prefix + s.events;
      if HasWrite(s.events) {
        var i :| 0 <= i < |s.events| && IsWrite(s.events[i]);
        assert o.events[i + 2] == s.events[i];
      }
      if HasWrite(o.events) {
        var i :| 0 <= i < |o.events| && IsWrite(o.events[i]);
        assert s.events[i - 2] == o.events[i];
      }
    }
  }

  /** Idempotence: after a successful Reconcile, running it again on the same
      inputs and the resulting store writes nothing and reports Unchanged. */
  lemma ReconcileIdempotent(req: ObjectKey, fetched: Result<Cluster, Error>, resolve: OwnerResolver,
                            config: map<string, string>, store: Store, faults: StoreFaults, ext: Externals)
    requires WellKeyed(store)
    requires Reconcile(req, fetched, resolve, config, store, faults, ext).operation.Some?
    ensures var first := Reconcile(req, fetched, resolve, config, store, faults, ext);
      var second := Reconcile(req, fetched, resolve, config, first.store, NoFaults(), ext);
      && second.store == first.store
      && second.operation == Some(Unchanged)
      && !HasWrite(second.events)
  {
    var first := Reconcile(req, fetched, resolve, config, store, faults, ext);
    var c := FetchedCluster(fetched);
    var key := TargetKey(c);
    var p := PublicNamespace(config, ext);
    OwnerResolutionDecides(req, fetched, resolve, config, store, faults, ext);
    OwnerResolutionDecides(req, fetched, resolve, config, first.store, NoFaults(), ext);
    MutateKeepsKey(Existing(store, key), c, p, ext);
    assert key in first.store && first.store[key] == Desired(c, config, store, ext);
    MutateIdempotent(Existing(store, key), c, p, ext);
    SynthesisWriteCondition(c, config, first.store, NoFaults(), ext);
    SynthesisStoresDesired(c, config, first.store, ext);
  }

  /** Ownership: after synthesis of a Workload without the skip annotation,
      its single owner reference carries the Cluster's current UID; so a
      Cluster recreated under a new UID re-points the owner reference. */
  lemma OwnerReferenceFollowsClusterUid(c: Cluster, newUid: string, config: map<string, string>, store: Store, ext: Externals)
    requires WellKeyed(store)
    requires PublicNamespace(config, ext) != ""
    requires !HasAnnotation(Existing(store, TargetKey(c)).meta, ext.annotationSkipRemediation)
    requires newUid != c.meta.uid
    ensures var first := ReconcileRBACWorkload(c, config, store, NoFaults(), ext);
      var c' := Cluster(c.meta.(uid := newUid));
      var second := ReconcileRBACWorkload(c', config, first.store, NoFaults(), ext);
      var key := TargetKey(c);
      && first.store[key].meta.ownerReferences == [OwnerReference(ext.groupVersion, ext.clusterKind, c.meta.name, c.meta.uid)]
      && second.operation == Some(Updated)
      && second.store[key].meta.ownerReferences == [OwnerReference(ext.groupVersion, ext.clusterKind, c.meta.name, newUid)]
  {
    var c' := Cluster(c.meta.(uid := newUid));
    var first := ReconcileRBACWorkload(c, config, store, NoFaults(), ext);
    assert TargetKey(c') == TargetKey(c);
    SynthesisStoresDesired(c, config, store, ext);
    SynthesisStoresDesired(c', config, first.store, ext);
  }

  /** Reconcile keeps the store well keyed. */
  lemma ReconcilePreservesWellKeyed(req: ObjectKey, fetched: Result<Cluster, Error>, resolve: OwnerResolver,
                                    config: map<string, string>, store: Store, faults: StoreFaults, ext: Externals)
    requires WellKeyed(store)
    ensures WellKeyed(Reconcile(req, fetched, resolve, config, store, faults, ext).store)
  {
    var c := FetchedCluster(fetched);
    ReconcileWriteCondition(req, fetched, resolve, config, store, faults, ext);
    StartHasKey(store, NewWorkload(TargetKey(c)));
    MutateKeepsKey(Existing(store, TargetKey(c)), c, PublicNamespace(config, ext), ext);
  }

  /** The end-to-end scenario: Cluster `cluster1` in `ns1`, owned by an
      organization, public namespace `pub`, empty store. Reconcile creates
      `cluster1-rbac` in `ns1`, labelled with the cluster name, owned by the
      Cluster, referring to template `rbac` in `pub`, carrying the payload. */
  lemma EndToEndScenario(uid: string, org: Organization, ext: Externals)
    ensures
      var c := Cluster(ZeroMeta().(name := "cluster1", namespace := "ns1", uid := uid));
      var req := ObjectKey("ns1", "cluster1");
      var resolve: OwnerResolver := _ => Success(Some(org));
      var config := map[ext.keyPublicNamespace := "pub"];
      var o := Reconcile(req, Success(c), resolve, config, map[], NoFaults(), ext);
      var key := ObjectKey("ns1", "cluster1-rbac");
      && o.status == Ok
      && o.operation == Some(Created)
      && o.store.Keys == {key}
      && o.store[key].meta.labels == map[ext.labelClusterName := "cluster1"]
      && o.store[key].meta.ownerReferences == [OwnerReference(ext.groupVersion, ext.clusterKind, "cluster1", uid)]
      && o.store[key].spec.workloadTemplateRef == Some(TypedObjectReference(ext.workloadTemplateKind, "rbac", Some("pub")))
      && o.store[key].spec.targetNamespace == "kube-system"
      && o.store[key].spec.input == Some(RBACPayload(ext))
      && DecodeInput(o.store[key].spec.input.value) == Some(RBACWorkloadInput(ExpectedBindings(ext), []))
  {
    var c := Cluster(ZeroMeta().(name := "cluster1", namespace := "ns1", uid := uid));
    assert TargetKey(c) == ObjectKey("ns1", "cluster1-rbac");
    DecodePayload(ext);
  }
}
