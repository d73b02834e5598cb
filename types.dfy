/** The payload shapes of controllers/types.go: the typed view of the JSON
    document stored in a Workload's input, with the wire form that the struct
    tags give it (encoding) and the Go JSON decoder's reading of it (decoding). */
module Types {
  import opened Wrappers
  import opened JsonValues

  /** rbacv1.RoleRef. */
  datatype RoleRef = RoleRef(apiGroup: string, kind: string, name: string)

  /** rbacv1.Subject. */
  datatype Subject = Subject(kind: string, apiGroup: string, name: string, namespace: string)

  /** RoleBinding: exactly three fields. */
  datatype RoleBinding = RoleBinding(bindingName: string, roleRef: RoleRef, subjects: seq<Subject>)

  /** RBACWorkloadInput: two lists of bindings. */
  datatype RBACWorkloadInput = RBACWorkloadInput(clusterRoleBindings: seq<RoleBinding>, roleBindings: seq<RoleBinding>)

  // Wire names given by the struct tags.
  const BindingNameKey := "bindingName"
  const RoleRefKey := "roleRef"
  const SubjectsKey := "subjects"
  const ClusterRoleBindingsKey := "clusterRoleBindings"
  const RoleBindingsKey := "roleBindings"
  const ApiGroupKey := "apiGroup"
  const KindKey := "kind"
  const NameKey := "name"
  const NamespaceKey := "namespace"

  // ---------------------------------------------------------------- encoding

  /** A role reference is written with all three members. */
  function EncodeRoleRef(r: RoleRef): (j: Json)
    ensures j.JObject? && j.fields.Keys == {ApiGroupKey, KindKey, NameKey}
  {
    JObject(map[ApiGroupKey := JString(r.apiGroup), KindKey := JString(r.kind), NameKey := JString(r.name)])
  }

  /** A subject's `apiGroup` and `namespace` are `omitempty`: written only when non-empty. */
  function EncodeSubject(s: Subject): (j: Json)
    ensures j.JObject?
    ensures j.fields.Keys == {KindKey, NameKey}
                             + (if s.apiGroup == "" then {} else {ApiGroupKey})
                             + (if s.namespace == "" then {} else {NamespaceKey})
  {
    var required := map[KindKey := JString(s.kind), NameKey := JString(s.name)];
    var withGroup := if s.apiGroup == "" then required else required[ApiGroupKey := JString(s.apiGroup)];
    JObject(if s.namespace == "" then withGroup else withGroup[NamespaceKey := JString(s.namespace)])
  }

  function EncodeSubjects(ss: seq<Subject>): (js: seq<Json>)
    ensures |js| == |ss|
  {
    if ss == [] then [] else [EncodeSubject(ss[0])] + EncodeSubjects(ss[1..])
  }

  /** A RoleBinding is written as an object with exactly its three wire names. */
  function EncodeRoleBinding(b: RoleBinding): (j: Json)
    ensures j.JObject? && j.fields.Keys == {BindingNameKey, RoleRefKey, SubjectsKey}
  {
    JObject(map[
      BindingNameKey := JString(b.bindingName),
      RoleRefKey := EncodeRoleRef(b.roleRef),
      SubjectsKey := JArray(EncodeSubjects(b.subjects))])
  }

  function EncodeRoleBindings(bs: seq<RoleBinding>): (js: seq<Json>)
    ensures |js| == |bs|
  {
    if bs == [] then [] else [EncodeRoleBinding(bs[0])] + EncodeRoleBindings(bs[1..])
  }

  /** An RBACWorkloadInput is written as an object with both list keys. */
  function EncodeInput(x: RBACWorkloadInput): (j: Json)
    ensures j.JObject? && j.fields.Keys == {ClusterRoleBindingsKey, RoleBindingsKey}
  {
    JObject(map[
      ClusterRoleBindingsKey := JArray(EncodeRoleBindings(x.clusterRoleBindings)),
      RoleBindingsKey := JArray(EncodeRoleBindings(x.roleBindings))])
  }

  // ---------------------------------------------------------------- decoding
  // Decoding follows encoding/json.Unmarshal into a zero-valued target:
  // an absent or null member leaves the field at its zero value, members
  // with other names are ignored, and a value of the wrong JSON type fails.

  function DecodeString(j: Json): Option<string>
  {
    match j
    case JNull => Some("")
    case JString(s) => Some(s)
    case _ => None
  }

  function DecodeRoleRef(j: Json): Option<RoleRef>
  {
    match j
    case JNull => Some(RoleRef("", "", ""))
    case JObject(f) =>
      var apiGroup :- DecodeString(Member(f, ApiGroupKey));
      var kind :- DecodeString(Member(f, KindKey));
      var name :- DecodeString(Member(f, NameKey));
      Some(RoleRef(apiGroup, kind, name))
    case _ => None
  }

  function DecodeSubject(j: Json): Option<Subject>
  {
    match j
    case JNull => Some(Subject("", "", "", ""))
    case JObject(f) =>
      var kind :- DecodeString(Member(f, KindKey));
      var apiGroup :- DecodeString(Member(f, ApiGroupKey));
      var name :- DecodeString(Member(f, NameKey));
      var namespace :- DecodeString(Member(f, NamespaceKey));
      Some(Subject(kind, apiGroup, name, namespace))
    case _ => None
  }

  function DecodeSubjects(js: seq<Json>): (r: Option<seq<Subject>>)
    ensures r.Some? ==> |r.value| == |js|
  {
    if js == [] then Some([])
    else
      var s :- DecodeSubject(js[0]);
      var rest :- DecodeSubjects(js[1..]);
      Some([s] + rest)
  }

  /** A Go slice: null leaves it nil (the empty sequence). */
  function DecodeSubjectList(j: Json): Option<seq<Subject>>
  {
    match j
    case JNull => Some([])
    case JArray(items) => DecodeSubjects(items)
    case _ => None
  }

  function DecodeRoleBinding(j: Json): Option<RoleBinding>
  {
    match j
    case JNull => Some(RoleBinding("", RoleRef("", "", ""), []))
    case JObject(f) =>
      var name :- DecodeString(Member(f, BindingNameKey));
      var ref :- DecodeRoleRef(Member(f, RoleRefKey));
      var subjects :- DecodeSubjectList(Member(f, SubjectsKey));
      Some(RoleBinding(name, ref, subjects))
    case _ => None
  }

  function DecodeRoleBindings(js: seq<Json>): (r: Option<seq<RoleBinding>>)
    ensures r.Some? ==> |r.value| == |js|
  {
    if js == [] then Some([])
    else
      var b :- DecodeRoleBinding(js[0]);
      var rest :- DecodeRoleBindings(js[1..]);
      Some([b] + rest)
  }

  function DecodeRoleBindingList(j: Json): Option<seq<RoleBinding>>
  {
    match j
    case JNull => Some([])
    case JArray(items) => DecodeRoleBindings(items)
    case _ => None
  }

  /** json.Unmarshal of a document into a zero RBACWorkloadInput. */
  function DecodeInput(j: Json): Option<RBACWorkloadInput>
  {
    match j
    case JNull => Some(RBACWorkloadInput([], []))
    case JObject(f) =>
      var crbs :- DecodeRoleBindingList(Member(f, ClusterRoleBindingsKey));
      var rbs :- DecodeRoleBindingList(Member(f, RoleBindingsKey));
      Some(RBACWorkloadInput(crbs, rbs))
    case _ => None
  }

  // ---------------------------------------------------------------- round trips

  lemma {:induction false} DecodeEncodeSubjects(ss: seq<Subject>)
    ensures DecodeSubjects(EncodeSubjects(ss)) == Some(ss)
  {
    if ss != [] {
      var js := EncodeSubjects(ss);
      assert js[0] == EncodeSubject(ss[0]);
      assert js[1..] == EncodeSubjects(ss[1..]);
      DecodeEncodeSubjects(ss[1..]);
      assert [ss[0]] + ss[1..] == ss;
    }
  }

  lemma DecodeEncodeRoleBinding(b: RoleBinding)
    ensures DecodeRoleBinding(EncodeRoleBinding(b)) == Some(b)
  {
    DecodeEncodeSubjects(b.subjects);
  }

  lemma {:induction false} DecodeEncodeRoleBindings(bs: seq<RoleBinding>)
    ensures DecodeRoleBindings(EncodeRoleBindings(bs)) == Some(bs)
  {
    if bs != [] {
      var js := EncodeRoleBindings(bs);
      assert js[0] == EncodeRoleBinding(bs[0]);
      assert js[1..] == EncodeRoleBindings(bs[1..]);
      DecodeEncodeRoleBinding(bs[0]);
      DecodeEncodeRoleBindings(bs[1..]);
      assert [bs[0]] + bs[1..] == bs;
    }
  }

  /** Decoding the wire form of any input gives that input back. */
  lemma DecodeEncodeInput(x: RBACWorkloadInput)
    ensures DecodeInput(EncodeInput(x)) == Some(x)
  {
    DecodeEncodeRoleBindings(x.clusterRoleBindings);
    DecodeEncodeRoleBindings(x.roleBindings);
  }

  /** A document without the `roleBindings` member decodes to an input whose
      roleBindings list is empty, whatever else it holds. */
  lemma AbsentRoleBindingsDecodeEmpty(f: map<string, Json>)
    requires RoleBindingsKey !in f
    requires DecodeInput(JObject(f)).Some?
    ensures DecodeInput(JObject(f)).value.roleBindings == []
  {
  }
}
