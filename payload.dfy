/** The RBAC payload the controller stores in a Workload's input
    (controllers/dockyardscluster_controller.go, lines 113-159): an untyped
    JSON object built from constants, and what it means once decoded into
    the types of controllers/types.go. */
module Payload {
  import opened Wrappers
  import opened JsonValues
  import opened Types
  import opened Api

  /** The literal prefix of every group and binding name. */
  const GroupPrefix := "dockyards:"

  const ClusterRoleKind := "ClusterRole"
  const GroupKind := "Group"

  /** The cluster roles granted to the reader, editor and admin group, in payload order. */
  const ViewRole := "view"
  const EditRole := "edit"
  const AdminRole := "cluster-admin"

  function GroupName(ext: Externals, role: string): string
  {
    GroupPrefix + ext.toLower(role)
  }

  function ReaderGroup(ext: Externals): string { GroupName(ext, ext.roleReader) }
  function EditorGroup(ext: Externals): string { GroupName(ext, ext.roleUser) }
  function AdminGroup(ext: Externals): string { GroupName(ext, ext.roleSuperUser) }

  /** One element of the `clusterRoleBindings` list, as the source spells it
      out: a map with a binding name, a role reference and one Group subject. */
  function BindingObject(group: string, clusterRole: string): Json
  {
    JObject(map[
      "bindingName" := JString(group),
      "roleRef" := JObject(map["kind" := JString(ClusterRoleKind), "name" := JString(clusterRole)]),
      "subjects" := JArray([JObject(map["kind" := JString(GroupKind), "name" := JString(group)])])])
  }

  /** The document passed to json.Marshal: an object whose only member is
      `clusterRoleBindings`. */
  function RBACPayload(ext: Externals): (j: Json)
    ensures j.JObject? && j.fields.Keys == {ClusterRoleBindingsKey}
    ensures RoleBindingsKey !in j.fields
    ensures j.fields[ClusterRoleBindingsKey].JArray? && |j.fields[ClusterRoleBindingsKey].items| == 3
  {
    JObject(map[
      "clusterRoleBindings" := JArray([
        BindingObject(ReaderGroup(ext), ViewRole),
        BindingObject(EditorGroup(ext), EditRole),
        BindingObject(AdminGroup(ext), AdminRole)])])
  }

  /** The typed binding granting `clusterRole` to the group of the same name;
      the API group and subject namespace are left empty. */
  function GroupBinding(group: string, clusterRole: string): RoleBinding
  {
    RoleBinding(group, RoleRef("", ClusterRoleKind, clusterRole), [Subject(GroupKind, "", group, "")])
  }

  /** The three typed bindings, reader, editor, admin. */
  function ExpectedBindings(ext: Externals): seq<RoleBinding>
  {
    [ GroupBinding(ReaderGroup(ext), ViewRole),
      GroupBinding(EditorGroup(ext), EditRole),
      GroupBinding(AdminGroup(ext), AdminRole) ]
  }

  /** A binding that grants one cluster role to exactly one Group whose name is
      the binding's own name. */
  predicate GrantsToOwnGroup(b: RoleBinding)
  {
    && b.roleRef.kind == ClusterRoleKind
    && b.roleRef.apiGroup == ""
    && b.roleRef.name in {ViewRole, EditRole, AdminRole}
    && |b.subjects| == 1
    && b.subjects[0].kind == GroupKind
    && b.subjects[0].name == b.bindingName
    && b.subjects[0].apiGroup == "" && b.subjects[0].namespace == ""
  }

  /** Each untyped binding map the source writes decodes to the typed
      RoleBinding granting that cluster role to the group of the same name. */
  lemma BindingObjectDecodes(group: string, clusterRole: string)
    ensures DecodeRoleBinding(BindingObject(group, clusterRole)) == Some(GroupBinding(group, clusterRole))
  {
    var f := BindingObject(group, clusterRole).fields;
    var subject := JObject(map["kind" := JString(GroupKind), "name" := JString(group)]);
    assert Member(f, BindingNameKey) == JString(group);
    assert Member(f, RoleRefKey) == JObject(map["kind" := JString(ClusterRoleKind), "name" := JString(clusterRole)]);
    assert DecodeRoleRef(Member(f, RoleRefKey)) == Some(RoleRef("", ClusterRoleKind, clusterRole));
    assert Member(f, SubjectsKey) == JArray([subject]);
    assert DecodeSubject(subject) == Some(Subject(GroupKind, "", group, ""));
    assert [subject][0] == subject && [subject][1..] == [];
    assert DecodeSubjects([]) == Some([]);
    assert [Subject(GroupKind, "", group, "")] + [] == [Subject(GroupKind, "", group, "")];
    assert DecodeSubjects([subject]) == Some([Subject(GroupKind, "", group, "")]);
  }

  /** The map is the wire form of that RoleBinding except for the role
      reference, which the source writes without its `apiGroup` member. */
  lemma BindingObjectOmitsApiGroup(group: string, clusterRole: string)
    ensures BindingObject(group, clusterRole) != EncodeRoleBinding(GroupBinding(group, clusterRole))
    ensures var b := GroupBinding(group, clusterRole);
      var e := EncodeRoleBinding(b).fields;
      BindingObject(group, clusterRole)
        == JObject(e[RoleRefKey := JObject(map[KindKey := JString(b.roleRef.kind), NameKey := JString(b.roleRef.name)])])
  {
    var b := GroupBinding(group, clusterRole);
    assert EncodeSubjects(b.subjects) == [EncodeSubject(b.subjects[0])];
    assert ApiGroupKey in EncodeRoleBinding(b).fields[RoleRefKey].fields;
    assert ApiGroupKey !in BindingObject(group, clusterRole).fields[RoleRefKey].fields;
  }

  /** Decoding the payload into RBACWorkloadInput gives the three bindings and
      an empty roleBindings list, since the payload has no such member. */
  lemma DecodePayload(ext: Externals)
    ensures DecodeInput(RBACPayload(ext)) == Some(RBACWorkloadInput(ExpectedBindings(ext), []))
  {
    var items := RBACPayload(ext).fields[ClusterRoleBindingsKey].items;
    var bs := ExpectedBindings(ext);
    BindingObjectDecodes(ReaderGroup(ext), ViewRole);
    BindingObjectDecodes(EditorGroup(ext), EditRole);
    BindingObjectDecodes(AdminGroup(ext), AdminRole);
    assert DecodeRoleBindings(items[2..]) == Some(bs[2..]) by {
      assert items[2..] == [items[2]];
      assert items[2..][1..] == [];
      assert DecodeRoleBindings([]) == Some([]);
      assert bs[2..] == [bs[2]];
      assert DecodeRoleBinding(items[2..][0]) == Some(bs[2]);
      assert [bs[2]] + [] == [bs[2]];
    }
    assert DecodeRoleBindings(items[1..]) == Some(bs[1..]) by {
      assert items[1..][1..] == items[2..];
      assert [bs[1]] + bs[2..] == bs[1..];
    }
    assert [bs[0]] + bs[1..] == bs;
  }

  /** What the decoded payload says: three bindings, in the order reader,
      editor, admin, each named by the prefixed lower-cased role, each granting
      its cluster role to its own group only; roleBindings is empty. */
  lemma DecodedPayloadShape(ext: Externals)
    ensures DecodeInput(RBACPayload(ext)).Some?
    ensures var x := DecodeInput(RBACPayload(ext)).value;
      && x.roleBindings == []
      && |x.clusterRoleBindings| == 3
      && x.clusterRoleBindings[0].bindingName == GroupPrefix + ext.toLower(ext.roleReader)
      && x.clusterRoleBindings[1].bindingName == GroupPrefix + ext.toLower(ext.roleUser)
      && x.clusterRoleBindings[2].bindingName == GroupPrefix + ext.toLower(ext.roleSuperUser)
      && x.clusterRoleBindings[0].roleRef == RoleRef("", "ClusterRole", "view")
      && x.clusterRoleBindings[1].roleRef == RoleRef("", "ClusterRole", "edit")
      && x.clusterRoleBindings[2].roleRef == RoleRef("", "ClusterRole", "cluster-admin")
      && forall i :: 0 <= i < 3 ==> GrantsToOwnGroup(x.clusterRoleBindings[i])
  {
    DecodePayload(ext);
  }

  /** The payload is not the wire form of any RBACWorkloadInput: that form
      always carries both list members. */
  lemma PayloadIsNotAnEncodedInput(ext: Externals, x: RBACWorkloadInput)
    ensures RBACPayload(ext) != EncodeInput(x)
  {
    assert RoleBindingsKey in EncodeInput(x).fields;
  }

  /** The value the repository's test compares the decoded payload against,
      with its prefix constant left as a parameter (it is not defined in the
      modelled files). */
  function TestExpectedInput(ext: Externals, rolePrefix: string): RBACWorkloadInput
  {
    var reader := rolePrefix + ext.toLower(ext.roleReader);
    var editor := rolePrefix + ext.toLower(ext.roleUser);
    var admin := rolePrefix + ext.toLower(ext.roleSuperUser);
    RBACWorkloadInput(
      [ GroupBinding(reader, "view"),
        GroupBinding(editor, "edit"),
        GroupBinding(admin, "admin") ],
      [])
  }

  /** The code and its test disagree on the admin role reference: whatever the
      test's prefix is, the decoded payload is not the expected value; with the
      code's prefix the two differ only in that role reference's name. */
  lemma DecodedPayloadDiffersFromTestExpectation(ext: Externals, rolePrefix: string)
    ensures DecodeInput(RBACPayload(ext)) != Some(TestExpectedInput(ext, rolePrefix))
    ensures var e := TestExpectedInput(ext, GroupPrefix).clusterRoleBindings;
      DecodeInput(RBACPayload(ext))
        == Some(RBACWorkloadInput(e[2 := e[2].(roleRef := e[2].roleRef.(name := "cluster-admin"))], []))
  {
    DecodePayload(ext);
    var got := ExpectedBindings(ext);
    var want := TestExpectedInput(ext, rolePrefix).clusterRoleBindings;
    assert got[2].roleRef.name != want[2].roleRef.name;
    var e := TestExpectedInput(ext, GroupPrefix).clusterRoleBindings;
    var fixed := e[2 := e[2].(roleRef := e[2].roleRef.(name := "cluster-admin"))];
    assert fixed[0] == got[0] && fixed[1] == got[1] && fixed[2] == got[2];
    assert fixed == got;
  }
}
