/** The resource shapes the controller reads and writes (the parts of the
    dockyards API and of Kubernetes object metadata it touches), the
    constants that package defines, and the error values that flow through
    the controller. */
module Api {
  import opened Wrappers
  import opened JsonValues

  /** Constants defined outside this model (dockyardsv1 and dyconfig) and the
      lower-casing function strings.ToLower; the model treats their values as
      unknown, so every property holds for every choice of them. */
  datatype Externals = Externals(
    roleReader: string,
    roleUser: string,
    roleSuperUser: string,
    groupVersion: string,          // dockyardsv1.GroupVersion.String()
    clusterKind: string,
    workloadTemplateKind: string,
    labelClusterName: string,
    annotationSkipRemediation: string,
    provenienceDockyards: string,
    keyPublicNamespace: string,
    toLower: string -> string)

  /** A namespaced name, the identity of an object in the store. */
  datatype ObjectKey = ObjectKey(namespace: string, name: string)

  datatype OwnerReference = OwnerReference(apiVersion: string, kind: string, name: string, uid: string)

  /** A timestamp, in seconds after Go's zero time. */
  type Time = int

  /** Object metadata; a nil map or slice is the empty one. */
  datatype ObjectMeta = ObjectMeta(
    name: string,
    namespace: string,
    uid: string,
    labels: map<string, string>,
    annotations: map<string, string>,
    ownerReferences: seq<OwnerReference>,
    deletionTimestamp: Option<Time>)

  function ZeroMeta(): ObjectMeta
  {
    ObjectMeta("", "", "", map[], map[], [], None)
  }

  function KeyOf(m: ObjectMeta): ObjectKey
  {
    ObjectKey(m.namespace, m.name)
  }

  /** metav1.Time.IsZero: a nil pointer or the zero time. */
  predicate IsZeroTime(t: Option<Time>)
  {
    t.None? || t.value == 0
  }

  /** metav1.HasAnnotation: the key is present, with any value. */
  predicate HasAnnotation(m: ObjectMeta, key: string)
  {
    key in m.annotations
  }

  /** A Cluster; only its metadata is read by the controller. */
  datatype Cluster = Cluster(meta: ObjectMeta)

  /** The Cluster a Get leaves behind when nothing was found: its zero value. */
  function ZeroCluster(): Cluster
  {
    Cluster(ZeroMeta())
  }

  /** An Organization, used only as an existence check. */
  datatype Organization = Organization(meta: ObjectMeta)

  datatype TypedObjectReference = TypedObjectReference(kind: string, name: string, namespace: Option<string>)

  /** WorkloadSpec, restricted to the fields the controller writes. */
  datatype WorkloadSpec = WorkloadSpec(
    provenience: string,
    clusterComponent: bool,
    targetNamespace: string,
    workloadTemplateRef: Option<TypedObjectReference>,
    input: Option<Json>)

  datatype Workload = Workload(meta: ObjectMeta, spec: WorkloadSpec)

  function ZeroSpec(): WorkloadSpec
  {
    WorkloadSpec("", false, "", None, None)
  }

  /** A Workload with only its name and namespace set. */
  function NewWorkload(key: ObjectKey): Workload
  {
    Workload(ZeroMeta().(name := key.name, namespace := key.namespace), ZeroSpec())
  }

  /** The errors that reach the controller's caller. */
  datatype Error =
    | NotFound                   // the store has no object under the key
    | Transport(code: nat)       // any other store, network or resolver failure
    | NoConfigValue(key: string) // the required configuration value is empty
    | KeyMutated                 // create-or-patch refuses a mutation that renames the object

  /** client.IgnoreNotFound. */
  function IgnoreNotFound(err: Option<Error>): Option<Error>
  {
    if err.Some? && err.value == NotFound then None else err
  }

  /** ConfigManager.GetValueOrDefault, as a lookup in the provider's last known values. */
  function GetValueOrDefault(values: map<string, string>, key: string, default: string): string
  {
    if key in values then values[key] else default
  }
}
