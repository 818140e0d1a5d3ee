/** One reconciliation step of the pod labeler (`podLabeler`) as a pure
    transition over the labels of the pods the controller can see.

    The informer cache, the namespace lister and the patch verb of the API
    are replaced by a `Cluster` value: the pods' labels, the cache's failure
    (if any), the lister's answer and the patches the API rejects. The
    primary detector's answer is an input; `CheckPrimary` models how it is
    computed from the query or command result. */
module Reconciler {
  import opened Outcomes
  import opened Labels
  import Text
  import MySQL
  import MongoDB

  /** Database kinds the detector dispatches on. */
  const MySQLKind: string := "MySQL"
  const MongoDBKind: string := "MongoDB"

  /** The controller's own identity and configuration. The informer, and the
      lister built on it, cache only the pods of `watchNamespace` (every
      namespace when it is empty) whose labels match `cacheSelector`, the
      label selector its list options carry. */
  datatype Controller = Controller(
    namespace: string,
    podName: string,
    dbName: string,
    dbKind: string,
    watchNamespace: string,
    cacheSelector: Labels)

  /** What the controller sees of, and can do to, the cluster during one step. */
  datatype Cluster = Cluster(
    /** the pods' labels, as cached by the informer and held by the API */
    pods: Store,
    /** a failure of the cache lookup, if it fails */
    lookupFault: Option<Error>,
    /** the lister's answer for the primary selector */
    listing: Result<seq<PodId>>,
    /** patches the API rejects, with the error it returns */
    patchFaults: map<PodId, Error>)

  /** The pods' labels after a step, and the error the step returned. Patches
      made before a failure stay applied. */
  datatype Patched = Patched(pods: Store, error: Option<Error>)

  function SelfId(c: Controller): PodId
  {
    PodId(c.namespace, c.podName)
  }

  /** The cache key of a pod: `namespace/name`. */
  function KeyOf(id: PodId): (k: string)
    ensures |k| == |id.namespace| + 1 + |id.name|
    ensures k[..|id.namespace|] == id.namespace && k[|id.namespace|] == '/'
    ensures k[|id.namespace| + 1..] == id.name
  {
    id.namespace + "/" + id.name
  }

  /** The pod a cache key names: the text before the first `/` is the
      namespace, the rest the name; a key without `/` has no namespace. */
  function ParseKey(key: string): PodId
  {
    var ns := Text.Before(key, '/');
    if ns == key then PodId("", key) else PodId(ns, key[|ns| + 1..])
  }

  /** Keys built from namespaces without `/` name the pod they were built from. */
  lemma ParseKeyOf(id: PodId)
    ensures '/' !in id.namespace ==> ParseKey(KeyOf(id)) == id
  {
    if '/' !in id.namespace {
      var key := KeyOf(id);
      assert key == id.namespace + ['/'] + id.name;
      Text.BeforeConcat(id.namespace, '/', id.name);
      assert key[|id.namespace| + 1..] == id.name;
    }
  }

  /** The key `podLabeler` evaluates: whatever key woke it up, it looks at
      the controller's own pod, `namespace/podName`. */
  function ResolveKey(c: Controller, key: string): (k: string)
    ensures k == KeyOf(SelfId(c))
  {
    var selfKey := c.namespace + "/" + c.podName;
    if key != selfKey then selfKey else key
  }

  /** Whether pod `id` is in the informer's cache: it exists, its namespace
      is watched and its labels match the cache's selector. */
  predicate Visible(c: Controller, pods: Store, id: PodId)
  {
    id in pods && InScope(c.watchNamespace, id.namespace) && Matches(c.cacheSelector, pods[id])
  }

  /** The selector the lister is asked for: this database's primary. */
  function PrimarySelector(c: Controller): Labels
  {
    PrimaryLabels(c.dbName, c.dbKind)
  }

  /** Whether the lister returns pod `id` for the primary selector. */
  predicate Listed(c: Controller, pods: Store, id: PodId)
  {
    Visible(c, pods, id) && Matches(PrimarySelector(c), pods[id])
  }

  /** The lister's answer for the primary selector: exactly the cached pods
      that match it, in some order. */
  predicate IsListing(c: Controller, pods: Store, ids: seq<PodId>)
  {
    && (forall id :: id in ids ==> Listed(c, pods, id))
    && (forall id :: id in pods && Listed(c, pods, id) ==> id in ids)
  }

  /** `core_util.PatchPod` on pod `id`. The patch is computed from the pod's
      current labels: when `edit` leaves them as they are the patch is empty,
      no request is made and the call succeeds. Otherwise a rejected patch
      returns the API's error, a patch of a pod that no longer exists returns
      NotFound, and an accepted one applies `edit` to that pod's labels only. */
  function PatchPod(pods: Store, id: PodId, faults: map<PodId, Error>,
                    edit: Labels -> Labels): (r: Result<Store>)
    ensures r.Ok? <==> id in pods && (edit(pods[id]) == pods[id] || id !in faults)
    ensures id in pods && edit(pods[id]) == pods[id] ==> r == Ok(pods)
    ensures id in faults && !(id in pods && edit(pods[id]) == pods[id]) ==> r == Err(faults[id])
    ensures id !in faults && id !in pods ==> r == Err(NotFound(id.namespace, id.name))
    ensures r.Ok? ==> r.value.Keys == pods.Keys && r.value[id] == edit(pods[id])
    ensures r.Ok? ==> forall other :: other in pods && other != id ==> r.value[other] == pods[other]
  {
    if id in pods && edit(pods[id]) == pods[id] then Ok(pods)
    else if id in faults then Err(faults[id])
    else if id !in pods then Err(NotFound(id.namespace, id.name))
    else Ok(pods[id := edit(pods[id])])
  }

  /** `ensurePrimaryRoleLabel` (role `primary`) and `ensureStandbyRoleLabel`
      (role `standby`): upsert the role label on one pod. A pod that already
      has the role needs no request; otherwise a rejected patch is returned.
      Every other label of that pod, and every other pod, is left as it was. */
  function EnsureRoleLabel(pods: Store, id: PodId, faults: map<PodId, Error>, role: string): (r: Result<Store>)
    ensures r.Ok? <==> id in pods && (HasRole(pods[id], role) || id !in faults)
    ensures id in pods && HasRole(pods[id], role) ==> r == Ok(pods)
    ensures id in faults && !(id in pods && HasRole(pods[id], role)) ==> r == Err(faults[id])
    ensures r.Ok? ==>
      && r.value.Keys == pods.Keys
      && RoleKey in r.value[id] && r.value[id][RoleKey] == role
      && r.value[id].Keys == pods[id].Keys + {RoleKey}
      && (forall k :: k in pods[id] && k != RoleKey ==> r.value[id][k] == pods[id][k])
      && (forall other :: other in pods && other != id ==> r.value[other] == pods[other])
  {
    WithRoleUnchanged(GetOr(pods, id, map[]), role);
    PatchPod(pods, id, faults, m => WithRole(m, role))
  }

  /** Ensuring the same role a second time changes nothing. */
  lemma EnsureRoleLabelIdempotent(pods: Store, id: PodId, faults: map<PodId, Error>, role: string)
    requires EnsureRoleLabel(pods, id, faults, role).Ok?
    ensures var once := EnsureRoleLabel(pods, id, faults, role).value;
      EnsureRoleLabel(once, id, faults, role) == Ok(once)
  {
    var once := EnsureRoleLabel(pods, id, faults, role).value;
    WithRoleIdempotent(pods[id], role);
    assert once[id := WithRole(once[id], role)] == once;
  }

  /** The loop of `removeInvalidPrimaryLabel` over the listed pods: every
      pod whose name differs from the primary's loses its role label; the
      loop stops at the first rejected patch. */
  function RemoveStale(pods: Store, ids: seq<PodId>, primaryName: string,
                       faults: map<PodId, Error>): (r: Patched)
    ensures r.pods.Keys == pods.Keys
    ensures forall id :: id in pods && (id.name == primaryName || id !in ids) ==> r.pods[id] == pods[id]
    ensures forall id :: id in pods ==> r.pods[id] == pods[id] || r.pods[id] == Delete(pods[id], RoleKey)
    ensures r.error.None? <==>
      forall id :: id in ids && id.name != primaryName ==> id in pods && (RoleKey !in pods[id] || id !in faults)
    ensures r.error.None? ==>
      forall id :: id in ids && id.name != primaryName ==> id in r.pods && r.pods[id] == Delete(pods[id], RoleKey)
    decreases |ids|
  {
    if |ids| == 0 then Patched(pods, None)
    else if ids[0].name == primaryName then RemoveStale(pods, ids[1..], primaryName, faults)
    else
      var labels := GetOr(pods, ids[0], map[]);
      DeleteUnchanged(labels, RoleKey);
      DeleteIdempotent(labels, RoleKey);
      match PatchPod(pods, ids[0], faults, m => Delete(m, RoleKey))
      case Err(e) => Patched(pods, Some(e))
      case Ok(next) => RemoveStale(next, ids[1..], primaryName, faults)
  }

  /** `removeInvalidPrimaryLabel`: a lister failure is returned with no pod
      changed; otherwise the stale labels are removed from the listed pods. */
  function RemoveInvalidPrimaryLabel(pods: Store, primary: PodId, listing: Result<seq<PodId>>,
                                     faults: map<PodId, Error>): (r: Patched)
    ensures listing.Err? ==> r == Patched(pods, Some(listing.error))
    ensures r.pods.Keys == pods.Keys
    ensures forall id :: id in pods && id.name == primary.name ==> r.pods[id] == pods[id]
    ensures forall id :: id in pods ==> r.pods[id] == pods[id] || r.pods[id] == Delete(pods[id], RoleKey)
    ensures listing.Ok? ==> forall id :: id in pods && id !in listing.value ==> r.pods[id] == pods[id]
    ensures listing.Ok? && r.error.None? ==>
      forall id :: id in listing.value && id.name != primary.name ==>
        id in pods && r.pods[id] == Delete(pods[id], RoleKey)
  {
    match listing
    case Err(e) => Patched(pods, Some(e))
    case Ok(ids) => RemoveStale(pods, ids, primary.name, faults)
  }

  /** Whether the removal patch of listed pod `id` fails: it does not carry
      the primary's name and it is gone, or it still has a role label to
      delete and the API refuses the patch. */
  predicate Rejected(pods: Store, id: PodId, primaryName: string, faults: map<PodId, Error>)
  {
    id.name != primaryName && (id !in pods || (RoleKey in pods[id] && id in faults))
  }

  /** The position of the first listed pod whose removal patch is rejected;
      `|ids|` when there is none. */
  function FirstRejected(pods: Store, ids: seq<PodId>, primaryName: string,
                         faults: map<PodId, Error>): (k: nat)
    ensures k <= |ids|
    ensures forall i :: 0 <= i < k ==> !Rejected(pods, ids[i], primaryName, faults)
    ensures k < |ids| ==> Rejected(pods, ids[k], primaryName, faults)
    decreases |ids|
  {
    if |ids| == 0 then 0
    else if Rejected(pods, ids[0], primaryName, faults) then 0
    else 1 + FirstRejected(pods, ids[1..], primaryName, faults)
  }

  /** `FirstRejected` depends on the labels only through `Rejected`. */
  lemma {:induction false} FirstRejectedAgrees(a: Store, b: Store, ids: seq<PodId>, primaryName: string,
                                               faults: map<PodId, Error>)
    requires forall id :: Rejected(a, id, primaryName, faults) == Rejected(b, id, primaryName, faults)
    ensures FirstRejected(a, ids, primaryName, faults) == FirstRejected(b, ids, primaryName, faults)
    decreases |ids|
  {
    if |ids| > 0 {
      FirstRejectedAgrees(a, b, ids[1..], primaryName, faults);
    }
  }

  /** The removal loop stops at the first rejected patch and returns its
      error; the deletions made before it stay, exactly as a successful run
      over the pods listed before it leaves them. */
  lemma {:induction false} RemoveStaleStopsAtFirstRejected(pods: Store, ids: seq<PodId>, primaryName: string,
                                                          faults: map<PodId, Error>)
    ensures var k := FirstRejected(pods, ids, primaryName, faults);
      var r := RemoveStale(pods, ids, primaryName, faults);
      && (k == |ids| <==> r.error.None?)
      && (k < |ids| ==>
            && RemoveStale(pods, ids[..k], primaryName, faults) == Patched(r.pods, None)
            && (ids[k] in faults ==> r.error == Some(faults[ids[k]]))
            && (ids[k] !in faults ==> r.error == Some(NotFound(ids[k].namespace, ids[k].name))))
    decreases |ids|
  {
    var k := FirstRejected(pods, ids, primaryName, faults);
    if |ids| > 0 && k > 0 {
      var rest := ids[1..];
      assert ids[..k][1..] == rest[..k - 1];
      if ids[0].name == primaryName {
        RemoveStaleStopsAtFirstRejected(pods, rest, primaryName, faults);
      } else {
        var id := ids[0];
        DeleteUnchanged(pods[id], RoleKey);
        var next := PatchPod(pods, id, faults, m => Delete(m, RoleKey)).value;
        forall other
          ensures Rejected(next, other, primaryName, faults) == Rejected(pods, other, primaryName, faults)
        {
        }
        FirstRejectedAgrees(next, pods, rest, primaryName, faults);
        RemoveStaleStopsAtFirstRejected(next, rest, primaryName, faults);
      }
    } else if |ids| > 0 {
      assert ids[..0] == [];
    }
  }

  /** Stale-label removal changes nothing when every listed pod carries the
      primary's name. */
  lemma {:induction false} RemoveStaleNothingStale(pods: Store, ids: seq<PodId>, primaryName: string,
                                                  faults: map<PodId, Error>)
    requires forall id :: id in ids ==> id.name == primaryName
    ensures RemoveStale(pods, ids, primaryName, faults) == Patched(pods, None)
    decreases |ids|
  {
    if |ids| > 0 {
      assert ids[0] in ids;
      RemoveStaleNothingStale(pods, ids[1..], primaryName, faults);
    }
  }

  /** The primary branch of `podLabeler`: stale primary labels are removed
      first; only when that succeeds is this pod labelled `primary`. If the
      removal fails this pod is left as it was; if labelling fails the
      removals stay. */
  function Promote(pods: Store, self: PodId, listing: Result<seq<PodId>>,
                   faults: map<PodId, Error>): (r: Patched)
    requires self in pods
    ensures r.pods.Keys == pods.Keys
    ensures var removed := RemoveInvalidPrimaryLabel(pods, self, listing, faults);
      && (removed.error.Some? ==> r == removed && r.pods[self] == pods[self])
      && (removed.error.None? && self in faults && !HasRole(pods[self], PrimaryRole) ==>
            r == Patched(removed.pods, Some(faults[self])))
      && (r.error.None? <==>
            removed.error.None? && (self !in faults || HasRole(pods[self], PrimaryRole)))
      && (r.error.None? ==>
            && r.pods[self] == WithRole(pods[self], PrimaryRole)
            && forall id :: id in pods && id != self ==> r.pods[id] == removed.pods[id])
  {
    var removed := RemoveInvalidPrimaryLabel(pods, self, listing, faults);
    if removed.error.Some? then removed
    else
      match EnsureRoleLabel(removed.pods, self, faults, PrimaryRole)
      case Err(e) => Patched(removed.pods, Some(e))
      case Ok(labelled) => Patched(labelled, None)
  }

  /** The non-primary branch of `podLabeler`: this pod is labelled
      `standby`, nothing else changes; a pod already `standby` needs no
      request; a rejected patch changes nothing. */
  function Demote(pods: Store, self: PodId, faults: map<PodId, Error>): (r: Patched)
    requires self in pods
    ensures r.error.None? <==> self !in faults || HasRole(pods[self], StandbyRole)
    ensures HasRole(pods[self], StandbyRole) ==> r == Patched(pods, None)
    ensures self in faults && !HasRole(pods[self], StandbyRole) ==> r == Patched(pods, Some(faults[self]))
    ensures r.error.None? ==> r.pods == pods[self := WithRole(pods[self], StandbyRole)]
  {
    match EnsureRoleLabel(pods, self, faults, StandbyRole)
    case Err(e) => Patched(pods, Some(e))
    case Ok(labelled) => Patched(labelled, None)
  }

  /** `podLabeler` for one key. A cache failure is returned; a pod missing
      from the informer's cache (gone, outside the watched namespace, or not
      matching the cache's selector) is a successful no-op; a detector error is returned; a
      primary answer promotes this pod, any other answer demotes it. */
  function Reconcile(c: Controller, key: string, cluster: Cluster, detected: Result<bool>): (r: Patched)
    ensures r.pods.Keys == cluster.pods.Keys
    ensures cluster.lookupFault.Some? ==> r == Patched(cluster.pods, cluster.lookupFault)
    ensures '/' !in c.namespace && cluster.lookupFault.None? ==>
      && (!Visible(c, cluster.pods, SelfId(c)) ==> r == Patched(cluster.pods, None))
      && (Visible(c, cluster.pods, SelfId(c)) && detected.Err? ==> r == Patched(cluster.pods, Some(detected.error)))
      && (Visible(c, cluster.pods, SelfId(c)) && detected == Ok(true) ==>
            r == Promote(cluster.pods, SelfId(c), cluster.listing, cluster.patchFaults))
      && (Visible(c, cluster.pods, SelfId(c)) && detected == Ok(false) ==>
            r == Demote(cluster.pods, SelfId(c), cluster.patchFaults))
  {
    var id := ParseKey(ResolveKey(c, key));
    ParseKeyOf(SelfId(c));
    match cluster.lookupFault
    case Some(e) => Patched(cluster.pods, Some(e))
    case None =>
      if !Visible(c, cluster.pods, id) then Patched(cluster.pods, None)
      else
        match detected
        case Err(e) => Patched(cluster.pods, Some(e))
        case Ok(primary) =>
          if primary then Promote(cluster.pods, id, cluster.listing, cluster.patchFaults)
          else Demote(cluster.pods, id, cluster.patchFaults)
  }

  /** The key that woke the controller up makes no difference. */
  lemma ReconcileIgnoresKey(c: Controller, k1: string, k2: string, cluster: Cluster, detected: Result<bool>)
    ensures Reconcile(c, k1, cluster, detected) == Reconcile(c, k2, cluster, detected)
  {
  }

  /** A successful promotion settles the labels: this pod is `primary`;
      every other cached pod selected as primary under another name has lost
      its role label (it is not relabelled standby); no other pod gains
      anything; and afterwards every pod the lister would return for the
      primary selector carries this pod's name. */
  lemma PromoteSettles(c: Controller, pods: Store, ids: seq<PodId>, faults: map<PodId, Error>)
    requires SelfId(c) in pods
    requires IsListing(c, pods, ids)
    requires Promote(pods, SelfId(c), Ok(ids), faults).error.None?
    ensures var r := Promote(pods, SelfId(c), Ok(ids), faults);
      && r.pods[SelfId(c)] == WithRole(pods[SelfId(c)], PrimaryRole)
      && (forall id :: id in pods && id != SelfId(c) ==>
            r.pods[id] == pods[id] || r.pods[id] == Delete(pods[id], RoleKey))
      && (forall id :: id in pods && id != SelfId(c) && !Listed(c, pods, id) ==> r.pods[id] == pods[id])
      && (forall id :: Listed(c, pods, id) && id.name != c.podName ==> r.pods[id] == Delete(pods[id], RoleKey))
      && (forall id :: Listed(c, r.pods, id) ==> id.name == c.podName)
  {
    var self := SelfId(c);
    var r := Promote(pods, self, Ok(ids), faults);
    var removed := RemoveStale(pods, ids, c.podName, faults);
    assert removed.error.None?;
    forall id | id in pods && id != self && !Listed(c, pods, id)
      ensures r.pods[id] == pods[id]
    {
      assert id !in ids;
    }
    forall id | Listed(c, r.pods, id)
      ensures id.name == c.podName
    {
      if id.name != c.podName {
        assert r.pods[id] == removed.pods[id];
        DemotedNeverMatches(c.dbName, c.dbKind, pods[id]);
      }
    }
  }

  /** A primary reconciliation of a cached pod, with the lister answering for
      the current labels, succeeds exactly when no stale primary's patch and
      no needed patch of this pod is rejected. */
  lemma PrimaryReconcileSucceeds(c: Controller, key: string, cluster: Cluster, ids: seq<PodId>)
    requires '/' !in c.namespace
    requires cluster.lookupFault.None? && Visible(c, cluster.pods, SelfId(c))
    requires cluster.listing == Ok(ids)
    requires IsListing(c, cluster.pods, ids)
    ensures Reconcile(c, key, cluster, Ok(true)).error.None? <==>
      && (forall id :: Listed(c, cluster.pods, id) && id.name != c.podName ==> id !in cluster.patchFaults)
      && (SelfId(c) !in cluster.patchFaults || HasRole(cluster.pods[SelfId(c)], PrimaryRole))
  {
    var removed := RemoveStale(cluster.pods, ids, c.podName, cluster.patchFaults);
    forall id | Listed(c, cluster.pods, id)
      ensures RoleKey in cluster.pods[id]
    {
      PrimaryLabelsMeaning(c.dbName, c.dbKind, cluster.pods[id]);
    }
    assert removed.error.None? <==>
      forall id :: Listed(c, cluster.pods, id) && id.name != c.podName ==> id !in cluster.patchFaults;
  }

  /** A successful primary reconciliation of a cached pod settles the labels
      as `PromoteSettles` describes, whatever key woke the controller up. */
  lemma PrimaryReconcileSettles(c: Controller, key: string, cluster: Cluster, ids: seq<PodId>)
    requires '/' !in c.namespace
    requires cluster.lookupFault.None? && Visible(c, cluster.pods, SelfId(c))
    requires cluster.listing == Ok(ids)
    requires IsListing(c, cluster.pods, ids)
    ensures var r := Reconcile(c, key, cluster, Ok(true));
      r.error.None? ==>
      && r.pods[SelfId(c)] == WithRole(cluster.pods[SelfId(c)], PrimaryRole)
      && HasRole(r.pods[SelfId(c)], PrimaryRole)
      && (forall id :: id in cluster.pods && id != SelfId(c) && !Listed(c, cluster.pods, id) ==>
            r.pods[id] == cluster.pods[id])
      && (forall id :: Listed(c, cluster.pods, id) && id.name != c.podName ==> RoleKey !in r.pods[id])
      && (forall id :: Listed(c, r.pods, id) ==> id.name == c.podName)
  {
    if Reconcile(c, key, cluster, Ok(true)).error.None? {
      PromoteSettles(c, cluster.pods, ids, cluster.patchFaults);
    }
  }

  /** With the watch restricted to the controller's own namespace, a
      successful primary reconciliation leaves this pod as the only pod of
      that namespace the lister returns as primary, and the lister returns it
      when it carries the database's name and kind labels and still matches
      the cache's selector. */
  lemma SinglePrimaryInOwnNamespace(c: Controller, key: string, cluster: Cluster, ids: seq<PodId>)
    requires '/' !in c.namespace && c.watchNamespace == c.namespace
    requires cluster.lookupFault.None? && Visible(c, cluster.pods, SelfId(c))
    requires cluster.listing == Ok(ids)
    requires IsListing(c, cluster.pods, ids)
    ensures var r := Reconcile(c, key, cluster, Ok(true));
      r.error.None? ==>
      forall id: PodId :: id.namespace == c.namespace && Listed(c, r.pods, id) ==> id == SelfId(c)
    ensures var r := Reconcile(c, key, cluster, Ok(true));
      var own := cluster.pods[SelfId(c)];
      (r.error.None? && NameKey in own && own[NameKey] == c.dbName && KindKey in own && own[KindKey] == c.dbKind
       && Visible(c, r.pods, SelfId(c))) ==>
        Listed(c, r.pods, SelfId(c))
  {
    var r := Reconcile(c, key, cluster, Ok(true));
    if r.error.None? {
      PromoteSettles(c, cluster.pods, ids, cluster.patchFaults);
      PrimaryLabelsMeaning(c.dbName, c.dbKind, r.pods[SelfId(c)]);
    }
  }

  /** With no rejected patches a promotion succeeds, and a second one, the
      lister answering for the new labels, changes nothing: the only pod
      still selected is this one, which the removal skips, and its role is
      already `primary`, so no request is made. */
  lemma PromoteIdempotent(c: Controller, pods: Store, ids: seq<PodId>, again: seq<PodId>)
    requires SelfId(c) in pods
    requires IsListing(c, pods, ids)
    requires IsListing(c, Promote(pods, SelfId(c), Ok(ids), map[]).pods, again)
    ensures var r := Promote(pods, SelfId(c), Ok(ids), map[]);
      && r.error.None?
      && Promote(r.pods, SelfId(c), Ok(again), map[]) == r
  {
    var self := SelfId(c);
    var r := Promote(pods, self, Ok(ids), map[]);
    assert r.error.None?;
    PromoteSettles(c, pods, ids, map[]);
    forall id | id in again
      ensures id.name == c.podName
    {
    }
    RemoveStaleNothingStale(r.pods, again, c.podName, map[]);
  }

  /** A second primary reconciliation, with no rejected patches and the
      lister answering for the new labels, changes nothing. */
  lemma PrimaryReconcileIdempotent(c: Controller, key: string, cluster: Cluster, ids: seq<PodId>, again: seq<PodId>)
    requires '/' !in c.namespace
    requires cluster.lookupFault.None? && Visible(c, cluster.pods, SelfId(c)) && cluster.patchFaults == map[]
    requires cluster.listing == Ok(ids)
    requires IsListing(c, cluster.pods, ids)
    requires IsListing(c, Reconcile(c, key, cluster, Ok(true)).pods, again)
    ensures var r := Reconcile(c, key, cluster, Ok(true));
      && r.error.None?
      && Reconcile(c, key, Cluster(r.pods, None, Ok(again), map[]), Ok(true)) == r
  {
    PromoteIdempotent(c, cluster.pods, ids, again);
  }

  /** A non-primary answer touches only this pod: it is labelled `standby`
      with every other label kept; a pod already `standby` needs no request;
      if the patch is rejected nothing changes. Repeating the step changes
      nothing more. */
  lemma StandbyReconcile(c: Controller, key: string, cluster: Cluster)
    requires '/' !in c.namespace
    requires cluster.lookupFault.None? && Visible(c, cluster.pods, SelfId(c))
    ensures var r := Reconcile(c, key, cluster, Ok(false));
      var own := cluster.pods[SelfId(c)];
      && (r.error.None? <==> SelfId(c) !in cluster.patchFaults || HasRole(own, StandbyRole))
      && (HasRole(own, StandbyRole) ==> r == Patched(cluster.pods, None))
      && (r.error.Some? ==> r.pods == cluster.pods)
      && (forall id :: id in cluster.pods && id != SelfId(c) ==> r.pods[id] == cluster.pods[id])
      && (r.error.None? ==>
            && HasRole(r.pods[SelfId(c)], StandbyRole)
            && (forall k :: k in own && k != RoleKey ==> r.pods[SelfId(c)][k] == own[k])
            && Reconcile(c, key, Cluster(r.pods, None, cluster.listing, cluster.patchFaults), Ok(false)) == r)
  {
  }

  /** A pod the informer does not cache (outside the watched namespace, or
      not matching the cache's selector) is never relabelled, whatever the
      detector answers. */
  lemma UncachedPodUntouched(c: Controller, key: string, cluster: Cluster, detected: Result<bool>)
    requires '/' !in c.namespace && cluster.lookupFault.None?
    requires SelfId(c) in cluster.pods
    requires !InScope(c.watchNamespace, c.namespace) || !Matches(c.cacheSelector, cluster.pods[SelfId(c)])
    ensures Reconcile(c, key, cluster, detected) == Patched(cluster.pods, None)
  {
  }

  /** `checkPrimary` as `podLabeler` calls it. For MySQL only the DNS short
      name of the first row's host is compared with the pod name (the code
      indexes the first row unchecked, hence the precondition); for MongoDB
      the `isMaster` test decides; any other kind is not primary and no
      error. */
  function CheckPrimary(kind: string, podName: string, mysql: Result<MySQL.Rows>,
                        mongoClient: Result<MongoDB.ClientOptions>,
                        mongoReply: Result<MongoDB.Reply>): (r: Result<bool>)
    requires kind == MySQLKind && mysql.Ok? ==> |mysql.value| > 0
    ensures kind == MySQLKind && mysql.Err? ==> r == Err(mysql.error)
    ensures kind == MySQLKind && mysql.Ok? ==>
      r == Ok(Text.Before(MySQL.PrimaryHost(mysql.value), '.') == podName)
    ensures kind == MongoDBKind ==> r == MongoDB.IsPrimary(mongoClient, mongoReply)
    ensures kind != MySQLKind && kind != MongoDBKind ==> r == Ok(false)
  {
    if kind == MySQLKind then
      match mysql
      case Err(e) => Err(e)
      case Ok(rows) => Ok(MySQL.ShortNameIs(MySQL.PrimaryHost(rows), podName))
    else if kind == MongoDBKind then MongoDB.IsPrimary(mongoClient, mongoReply)
    else Ok(false)
  }

  /** The short-name check used by `podLabeler` never calls a pod primary
      that `isMySQLPrimary` would not, whatever the pod's addresses. */
  lemma ShortNameCheckImpliesIsPrimary(podName: string, rows: MySQL.Rows, status: MySQL.PodStatus,
                                       mongoClient: Result<MongoDB.ClientOptions>,
                                       mongoReply: Result<MongoDB.Reply>)
    requires |rows| > 0
    requires CheckPrimary(MySQLKind, podName, Ok(rows), mongoClient, mongoReply) == Ok(true)
    ensures MySQL.IsPrimary(status, podName, Ok(rows)) == Ok(true)
  {
  }

  /** The converse fails: when `status.podIPs` is non-empty, a host equal to
      `status.podIP` whose short name is not the pod's name makes the pod
      primary in `isMySQLPrimary` but not in the short-name check. */
  lemma IsPrimaryStrongerThanShortNameCheck(name: string, rows: MySQL.Rows, status: MySQL.PodStatus,
                                            mongoClient: Result<MongoDB.ClientOptions>,
                                            mongoReply: Result<MongoDB.Reply>)
    requires |rows| > 0 && |status.podIPs| > 0
    requires MySQL.PrimaryHost(rows) == status.podIP
    requires Text.Before(status.podIP, '.') != name
    ensures MySQL.IsPrimary(status, name, Ok(rows)) == Ok(true)
    ensures CheckPrimary(MySQLKind, name, Ok(rows), mongoClient, mongoReply) == Ok(false)
  {
  }

  /** The whole MySQL detector chain as `podLabeler` runs it: with the root
      user name missing from the environment, a cached pod's step returns
      that error and changes no label. */
  lemma MissingUserChangesNothing(c: Controller, key: string, cluster: Cluster,
                                  env: map<string, string>, resource: Result<MySQL.Spec>,
                                  serverSecret: Status, registerTls: Status, newEngine: Status,
                                  connected: Status, answer: Result<Option<MySQL.ResultSet>>,
                                  mongoClient: Result<MongoDB.ClientOptions>,
                                  mongoReply: Result<MongoDB.Reply>)
    requires '/' !in c.namespace && c.dbKind == MySQLKind
    requires cluster.lookupFault.None? && Visible(c, cluster.pods, SelfId(c))
    requires MySQL.RootUserVariable !in env
    ensures var client := MySQL.GetClient(env, c.namespace, c.podName, resource, serverSecret, registerTls, newEngine);
      var detected := CheckPrimary(c.dbKind, c.podName, MySQL.QueryDatabase(client, connected, answer),
                                   mongoClient, mongoReply);
      Reconcile(c, key, cluster, detected) ==
        Patched(cluster.pods, Some(MissingVariable(MySQL.RootUserVariable, c.namespace, c.podName)))
  {
  }

  /** A nil result set from a working client makes a cached pod's step
      return the nil-result error and change no label. */
  lemma NilAnswerChangesNothing(c: Controller, key: string, cluster: Cluster, client: Result<string>,
                                mongoClient: Result<MongoDB.ClientOptions>,
                                mongoReply: Result<MongoDB.Reply>)
    requires '/' !in c.namespace && c.dbKind == MySQLKind && client.Ok?
    requires cluster.lookupFault.None? && Visible(c, cluster.pods, SelfId(c))
    ensures var detected := CheckPrimary(c.dbKind, c.podName, MySQL.QueryDatabase(client, Done, Ok(None)),
                                         mongoClient, mongoReply);
      Reconcile(c, key, cluster, detected) == Patched(cluster.pods, Some(NilQueryResult))
  {
  }
}
