/** Pod identities, label maps and the label updater's two map edits:
    `UpsertMap` (used to set the role) and `delete` (used to clear it). */
module Labels {

  type Labels = map<string, string>

  /** A pod is identified by its namespace and name. */
  datatype PodId = PodId(namespace: string, name: string)

  /** The labels of every pod the controller can see or patch. */
  type Store = map<PodId, Labels>

  /** Label keys and role values of the KubeDB API group. Only their
      distinctness matters to the model. */
  const RoleKey: string := "kubedb.com/role"
  const NameKey: string := "kubedb.com/name"
  const KindKey: string := "kubedb.com/kind"
  const PrimaryRole: string := "primary"
  const StandbyRole: string := "standby"

  /** The all-namespaces scope of a lister or informer (`corev1.NamespaceAll`). */
  const AllNamespaces: string := ""

  /** `UpsertMap(m, u)`: every entry of `u` is written into `m`. */
  function Upsert(m: Labels, u: Labels): (r: Labels)
    ensures r.Keys == m.Keys + u.Keys
    ensures forall k :: k in u ==> r[k] == u[k]
    ensures forall k :: k in m && k !in u ==> r[k] == m[k]
  {
    m + u
  }

  /** Writing the same entries twice leaves the same map as writing them once. */
  lemma UpsertIdempotent(m: Labels, u: Labels)
    ensures Upsert(Upsert(m, u), u) == Upsert(m, u)
  {
  }

  /** `delete(m, k)`: the key is gone and every other entry is kept. */
  function Delete(m: Labels, k: string): (r: Labels)
    ensures k !in r
    ensures forall j :: j in m && j != k ==> j in r && r[j] == m[j]
    ensures r.Keys <= m.Keys
  {
    m - {k}
  }

  /** Deleting a key twice leaves the same map as deleting it once. */
  lemma DeleteIdempotent(m: Labels, k: string)
    ensures Delete(Delete(m, k), k) == Delete(m, k)
  {
  }

  /** Upserting the role label sets it to `role` and keeps every other label. */
  function WithRole(m: Labels, role: string): (r: Labels)
    ensures RoleKey in r && r[RoleKey] == role
    ensures r.Keys == m.Keys + {RoleKey}
    ensures forall j :: j in m && j != RoleKey ==> r[j] == m[j]
  {
    Upsert(m, map[RoleKey := role])
  }

  /** Whether a label map already carries the role `role`. */
  predicate HasRole(m: Labels, role: string)
  {
    RoleKey in m && m[RoleKey] == role
  }

  /** Setting the role changes nothing exactly when the pod already has it. */
  lemma WithRoleUnchanged(m: Labels, role: string)
    ensures WithRole(m, role) == m <==> HasRole(m, role)
  {
    if WithRole(m, role) == m {
      assert m[RoleKey] == WithRole(m, role)[RoleKey];
    }
  }

  /** Deleting a key changes nothing exactly when the key is absent. */
  lemma DeleteUnchanged(m: Labels, k: string)
    ensures Delete(m, k) == m <==> k !in m
  {
    if k in m {
      assert k !in Delete(m, k);
    }
  }

  /** Setting the role twice leaves the same labels as setting it once. */
  lemma WithRoleIdempotent(m: Labels, role: string)
    ensures WithRole(WithRole(m, role), role) == WithRole(m, role)
  {
    UpsertIdempotent(m, map[RoleKey := role]);
  }

  /** A set-based label selector (`labels.SelectorFromSet(sel)`) matches a
      label map that carries every entry of `sel`. */
  predicate Matches(sel: Labels, m: Labels)
  {
    forall k :: k in sel ==> k in m && m[k] == sel[k]
  }

  /** `getPrimaryLabels(name, kind)`: the labels of the primary pod of one
      database. */
  function PrimaryLabels(name: string, kind: string): (r: Labels)
    ensures r.Keys == {NameKey, KindKey, RoleKey}
  {
    map[NameKey := name, KindKey := kind, RoleKey := PrimaryRole]
  }

  /** A pod is selected as primary of database `name` of kind `kind` exactly
      when it carries all three labels with those values. */
  lemma PrimaryLabelsMeaning(name: string, kind: string, m: Labels)
    ensures Matches(PrimaryLabels(name, kind), m) <==>
      && NameKey in m && m[NameKey] == name
      && KindKey in m && m[KindKey] == kind
      && RoleKey in m && m[RoleKey] == PrimaryRole
  {
    var sel := PrimaryLabels(name, kind);
    assert sel[NameKey] == name && sel[KindKey] == kind && sel[RoleKey] == PrimaryRole;
  }

  /** Clearing the role, or setting it to standby, takes a pod out of every
      primary selection. */
  lemma DemotedNeverMatches(name: string, kind: string, m: Labels)
    ensures !Matches(PrimaryLabels(name, kind), Delete(m, RoleKey))
    ensures !Matches(PrimaryLabels(name, kind), WithRole(m, StandbyRole))
  {
    PrimaryLabelsMeaning(name, kind, Delete(m, RoleKey));
    PrimaryLabelsMeaning(name, kind, WithRole(m, StandbyRole));
  }

  /** Whether a pod in `namespace` is visible through a lister or informer
      scoped to `scope`. */
  predicate InScope(scope: string, namespace: string)
  {
    scope == AllNamespaces || scope == namespace
  }
}
