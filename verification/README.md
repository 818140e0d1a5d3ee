# Replication-mode detector: a Dafny model

The replication-mode detector is a sidecar that runs next to each member of a
KubeDB MySQL Group Replication cluster or MongoDB replica set. Whenever a pod
of its database changes, it asks the database whether its own pod is the
primary. It then labels the pods so that other components can select the
primary by label:

- the primary gets `role=primary`;
- any stale `role=primary` label on another pod is removed;
- a non-primary pod gets `role=standby`.

This project models the decision logic of one reconciliation step. It is
written as pure functions over immutable values, and it proves their
contracts and the properties that relate them. Kubernetes, the databases and
the work queue are not modelled. Their answers (cache lookups, lister
results, patch rejections, query rows, command replies, secrets,
environment variables) are inputs.

## Modules

- `outcomes.dfy`, module `Outcomes`: `Result`, `Option`, `Status` and the
  controller's errors. Errors from collaborators outside the model are
  opaque `External` values that are passed through unchanged.
- `text.dfy`, module `Text`: Go's `strings.Split(s, sep)[0]` (`Before`) and
  `strings.LastIndex`, each characterised by its defining property, plus
  `AfterLast` for reading strings back.
- `labels.dfy`, module `Labels`:
  - pod identities and label maps;
  - `UpsertMap` and `delete` as map operations;
  - the primary selector (`getPrimaryLabels`) and namespace scope.
- `mysql.dfy`, module `MySQL`:
  - `getMySQLClient`: credential checks, TLS-mode selection and the data
    source name;
  - `eventuallyConnectWithMySQL`: bounded polling over a sequence of ping
    outcomes;
  - `queryMySQLDatabase`: error propagation and the nil-result check;
  - `isMySQLPrimary`: address-then-short-name matching.
- `mongodb.dfy`, module `MongoDB`:
  - the governing-service URL;
  - the X.509 or basic-auth client URI, and the client set-up chain;
  - the `ismaster` reply test.
- `reconciler.dfy`, module `Reconciler`: `podLabeler` as a transition over
  the pods' labels.
  - The result is `Patched(pods, error)`: the labels after the step plus the
    returned error. Patches applied before a failure therefore remain
    visible.
  - Stale-label removal runs first; only then is the pod labelled.
  - The module also holds `checkPrimary`, the older MySQL match that uses
    the short name only.
- `options.dfy`, module `Options`: option defaults, the watch-namespace
  scope and `Apply`.

`pkg/controller/util.go` is an older copy of functions in
`pkg/controller/mysql.go` and `pkg/controller/mongodb.go`. Its copies are the
ones that `podLabeler` calls (`queryInMySQLDatabase`, `GetURL`, `IsMaster`).
The copies behave the same apart from the SQL text, and the query answer is
an input here, so each behaviour is modelled once. Table rows cite whichever
copy shows the behaviour.

What the code does, in the places where a reader might expect otherwise:

- Stale `role=primary` labels on other pods are removed before this pod is
  labelled.
- A stale primary loses its `role` key; the removal step does not give it
  another role value.
- The non-primary label value is `standby`.
- `isMySQLPrimary` compares the host only with `status.podIP`, and only
  when `status.podIPs` is non-empty.
- Every ping failure is retried, whatever its cause.
- Only the first row of the query answer is read. The code indexes it
  without checking that the answer is non-empty.
- The pod is looked up in the informer's cache. That cache holds only the
  pods of the watched namespace whose labels match the informer's list
  selector (`pkg/controller/controller.go:88-97`,
  `pkg/controller/config.go:64-66`). A pod outside it is left alone.
- `core_util.PatchPod` computes a patch from the pod's current labels and
  sends nothing when the patch is empty. Ensuring a role the pod already has
  therefore always succeeds.

## Model

| member | source | states |
|---|---|---|
| `Text.Before` | pkg/controller/mysql.go:145 | the short name is the longest prefix without the separator that ends at the first separator or at the end |
| `Text.BeforeUnique` | pkg/controller/workqueue.go:106 | any prefix with those three properties is the short name, so the characterisation is exact |
| `Text.LastIndex` | pkg/controller/mongodb.go:37 | the index of the last `-`, or -1; no `-` occurs after it |
| `Labels.Upsert` | pkg/controller/workqueue.go:120-122 | upserted entries win, every other label is kept, the key set is the union |
| `Labels.UpsertIdempotent` | pkg/controller/workqueue.go:118-127 | upserting the same entries twice equals upserting them once |
| `Labels.Delete` | pkg/controller/workqueue.go:147 | the role key is gone and every other label is kept |
| `Labels.WithRole` | pkg/controller/workqueue.go:129-137 | after the role upsert the role has the given value and every other label is unchanged |
| `Labels.WithRoleIdempotent` | pkg/controller/workqueue.go:129-137 | setting the role twice equals setting it once |
| `Labels.WithRoleUnchanged` | pkg/controller/workqueue.go:119-123 | setting the role leaves the labels as they are iff the pod already has that role, which is when the patch is empty |
| `Labels.DeleteUnchanged` | pkg/controller/workqueue.go:146-149 | deleting the role key leaves the labels as they are iff the key is absent |
| `Labels.PrimaryLabels` | pkg/controller/workqueue.go:158-164 | the primary selector has exactly the db name, db kind and role keys |
| `Labels.PrimaryLabelsMeaning` | pkg/controller/workqueue.go:158-164 | a pod matches the primary selector iff it carries the db name, db kind and `role=primary` labels |
| `Labels.Matches` | pkg/controller/workqueue.go:140 | `labels.SelectorFromSet(sel)` matches a label map exactly when the map carries every entry of `sel` with the same value |
| `Labels.DemotedNeverMatches` | pkg/controller/workqueue.go:145-152 | a pod whose role was deleted, or set to standby, is never selected as primary |
| `MySQL.TlsParameter` | pkg/controller/mysql.go:84-106 | no TLS spec gives no parameter; with TLS, `requireSSL` selects the custom config and otherwise skip-verify |
| `MySQL.Dsn` | pkg/controller/mysql.go:107 | the data source name starts with the user and a `:`, and ends with `?` and the TLS parameter |
| `MySQL.DsnTlsRoundTrip` | pkg/controller/mysql.go:107 | the text after the last `?` of the data source name is the chosen TLS parameter, whatever the credentials hold |
| `MySQL.DsnUserRoundTrip` | pkg/controller/util.go:113 | the text before the first `:` of the data source name is the root user, when the user has no `:` |
| `MySQL.GetClient` | pkg/controller/util.go:74-116 | a missing user, then a missing password, is an error naming the variable and the pod, before any API call; then the resource, server-secret (only with TLS), TLS-registration (only with `requireSSL`) and engine failures are each returned unchanged, in that order; success iff every step that runs succeeds, and the DSN carries the selected TLS parameter and the user |
| `MySQL.EventuallyConnect` | pkg/controller/mysql.go:112-119 | succeeds iff one of the first 61 pings succeeds (at 0, 5, …, 300 s; the last one when the timeout closes the poller), stopping at the first success; otherwise times out; ping errors are never returned |
| `MySQL.QueryDatabase` | pkg/controller/util.go:52-70 | client, connection and query errors propagate unchanged in that order; a nil answer is "query result is nil"; otherwise the rows are returned, and there is at least one, as the driver hands an empty result set over as nil |
| `MySQL.DetectionChainAnswers` | pkg/controller/mysql.go:121-150 | for every driver answer, the client → query → `isMySQLPrimary` chain answers exactly when client, connection and query succeed with a result set, and then says primary iff `podIPs` is non-empty and `podIP` equals the first row's `MEMBER_HOST`, or that host's short name equals the pod name |
| `MySQL.MissingUserFailsDetection` | pkg/controller/mysql.go:68-72 | through client, query and `isMySQLPrimary`, a missing root user name is the answer, whatever the API, driver and server say |
| `MySQL.NilAnswerFailsDetection` | pkg/controller/util.go:68-70 | a nil result set from a working client is the nil-result error all the way to the detector's answer |
| `MySQL.AnyAddressIs` | pkg/controller/mysql.go:138-142 | the address loop finds the host iff the host is among the compared addresses |
| `MySQL.PrimaryHost` | pkg/controller/mysql.go:126 | the host is the first row's `MEMBER_HOST`, or `""` when that column is absent |
| `MySQL.ComparedAddresses` | pkg/controller/mysql.go:132-137 | with no `podIPs` no address is compared; with some, exactly `podIP` is compared |
| `MySQL.IsPrimary` | pkg/controller/mysql.go:121-150 | a query error is returned; otherwise primary iff (`podIPs` non-empty and `podIP` equals the first row's host) or the host's short name equals the pod name |
| `MySQL.EmptyPodIPsSkipsAddress` | pkg/controller/mysql.go:132-137 | for every status with empty `podIPs` and every non-empty answer whose host's short name differs from the pod name, the pod is not primary, whatever `podIP` holds (for instance a host equal to `podIP`) |
| `MySQL.DnsHostMatchesPod` | pkg/controller/mysql.go:145-148 | for a pod name without `.`, a host `<pod>.<service>` makes that pod primary whatever its addresses |
| `MongoDB.NodeType` | pkg/controller/mongodb.go:37 | the node type is the name before its last `-`, so the rest contains no `-` |
| `MongoDB.NodeTypeSplit` | pkg/controller/util.go:129 | the node type of `<prefix>-<ordinal>` is the prefix when the ordinal has no `-` |
| `MongoDB.ConnectionUrl` | pkg/controller/mongodb.go:35-39 | the URL starts with the pod name and a dot and ends with `.svc` |
| `MongoDB.ConnectionUrlShortName` | pkg/controller/util.go:127-131 | for a pod name with a `-` and without `.`, the first DNS label of the URL is the pod name |
| `MongoDB.RootCredentials` | pkg/controller/mongodb.go:41-47 | a secret error propagates; otherwise user and password are the secret's `username`/`password` entries, empty when absent |
| `MongoDB.X509Uri` | pkg/controller/mongodb.go:72 | the X.509 URI has the pod's URL right after the scheme, followed by `/` |
| `MongoDB.BasicUri` | pkg/controller/mongodb.go:80 | the basic-auth URI has the user and a `:` right after the scheme, and ends with `@` and the pod's URL |
| `MongoDB.BasicUriCredentials` | pkg/controller/mongodb.go:80 | the text between the scheme and the first `@` of the basic-auth URI is `user:password`, when neither contains `@` |
| `MongoDB.X509UriHost` | pkg/controller/mongodb.go:72 | the host read back from the X.509 URI is the URL it was built for |
| `MongoDB.BasicUriHost` | pkg/controller/mongodb.go:80 | for a URL without `/` or `@` and credentials without `/`, the host read back from the basic-auth URI is the URL it was built for |
| `MongoDB.ClientOpts` | pkg/controller/mongodb.go:49-86 | `requireSSL` uses the X.509 URI after secret, save and lookup succeed; other modes use the basic-auth URI; every failure is returned with no options; every success sets direct connection |
| `MongoDB.ClientOptsTargetsUrl` | pkg/controller/util.go:140-177 | for a URL without `/` or `@` (and, on the basic branch, credentials without `/`), whichever branch is taken the client URI names the pod's URL |
| `MongoDB.ClientOptsCarriesCredentials` | pkg/controller/mongodb.go:74-80 | without `requireSSL` the client logs in with the auth secret's `username` and `password` entries, empty when absent |
| `MongoDB.GetClient` | pkg/controller/mongodb.go:88-112 | resource, options, connect and ping failures are each returned unchanged, in that order; success iff all succeed, and then the options are the ones built for the pod's URL, with direct connection set |
| `MongoDB.IsPrimary` | pkg/controller/util.go:205-222 | client and command errors propagate; otherwise primary iff the reply has `ismaster` equal to boolean true |
| `MongoDB.IsPrimaryReadsOnlyIsMaster` | pkg/controller/mongodb.go:127-130 | replies that agree on `ismaster` give the same answer; the string "true" is not primary |
| `MongoDB.DetectionStopsAtFirstFailure` | pkg/controller/mongodb.go:114-131 | through `GetMongoClient` and `isMongoDBPrimary` the first failing step's error is the answer; when all succeed the reply's `ismaster` decides |
| `Reconciler.ParseKeyOf` | pkg/controller/workqueue.go:65 | the cache key `namespace/name` names the pod it was built from |
| `Reconciler.KeyOf` | pkg/controller/workqueue.go:60 | the key is the namespace, then `/`, then the name, and nothing else |
| `Reconciler.IsListing` | pkg/controller/workqueue.go:56 | the namespace lister returns every cached pod of the watch scope that matches the primary selector, and nothing else |
| `Reconciler.ResolveKey` | pkg/controller/workqueue.go:60-63 | whatever key arrives, the controller's own `namespace/podName` is evaluated |
| `Reconciler.PatchPod` | pkg/controller/workqueue.go:146-149 | an edit that changes nothing succeeds with no request; otherwise a rejected patch returns the API's error, a missing pod NotFound, and an accepted one edits only that pod's labels |
| `Reconciler.EnsureRoleLabel` | pkg/controller/workqueue.go:118-137 | a pod that already has the role succeeds unchanged; otherwise a rejection is returned; on success the role is set and the pod's other labels and all other pods are unchanged |
| `Reconciler.EnsureRoleLabelIdempotent` | pkg/controller/workqueue.go:118-127 | ensuring the same role again returns the same labels |
| `Reconciler.RemoveStale` | pkg/controller/workqueue.go:144-154 | pods with the primary's name or not listed are untouched; the others can only lose the role key; no error iff every such listed pod exists and either has no role key or its patch is accepted, and then every such pod has lost the role key |
| `Reconciler.RemoveInvalidPrimaryLabel` | pkg/controller/workqueue.go:139-156 | a lister error is returned with nothing changed; pods named like the primary and pods the lister did not return are never touched; every pod is unchanged or lost only the `role` key; on success each returned pod with another name lost it |
| `Reconciler.FirstRejected` | pkg/controller/workqueue.go:145-152 | the first listed pod, not named like the primary, that is gone or still has a role key and a rejected patch |
| `Reconciler.RemoveStaleStopsAtFirstRejected` | pkg/controller/workqueue.go:144-155 | removal fails iff some patch is rejected; then it returns that patch's error and keeps exactly the deletions made before it |
| `Reconciler.RemoveStaleNothingStale` | pkg/controller/workqueue.go:145 | a listing holding only pods named like the primary changes nothing |
| `Reconciler.Promote` | pkg/controller/workqueue.go:80-87 | removal runs first; if it fails, its error is returned and this pod is unchanged; success iff removal succeeds and this pod is already `primary` or its patch is accepted; a rejected label patch keeps the removals; on success this pod is `primary` and other pods are as the removal left them |
| `Reconciler.Demote` | pkg/controller/workqueue.go:88-93 | success iff this pod is already `standby` or its patch is accepted; a pod already `standby` changes nothing; a rejected patch changes nothing and is returned; on success only this pod changes, to `standby` |
| `Reconciler.Reconcile` | pkg/controller/workqueue.go:59-96 | a cache error is returned with nothing changed; a pod missing from the informer's cache (gone, outside the watched namespace, or not matching the cache's selector) is success with nothing changed; a detector error is returned with nothing changed; otherwise primary promotes and non-primary demotes the own pod |
| `Reconciler.ReconcileIgnoresKey` | pkg/controller/workqueue.go:60-63 | two different incoming keys give the same step |
| `Reconciler.PromoteSettles` | pkg/controller/workqueue.go:139-164 | after a successful promotion: this pod is `primary`; other pods are unchanged or lost only the role key; a pod the lister did not return is unchanged; each pod the lister returned under another name lost it; every pod the lister would now return as primary carries this pod's name |
| `Reconciler.PrimaryReconcileSucceeds` | pkg/controller/workqueue.go:80-87 | a primary step of a cached pod succeeds iff no listed stale primary's patch is rejected and this pod is already `primary` or its patch is accepted |
| `Reconciler.PrimaryReconcileSettles` | pkg/controller/workqueue.go:80-86 | after a successful primary step of a cached pod, this pod's labels are its old labels with `role=primary`, every other pod the lister did not return is unchanged, listed stale primaries have no `role` key, and the lister would return no pod with another name as primary |
| `Reconciler.SinglePrimaryInOwnNamespace` | pkg/controller/workqueue.go:56 | with the watch restricted to the own namespace, after a successful primary step this pod is the only pod of that namespace the lister returns as primary, and it is returned when it carries the db name and kind labels and stays cached |
| `Reconciler.PromoteIdempotent` | pkg/controller/workqueue.go:139-156 | with no rejected patches a promotion succeeds, and a second one, with the lister answering for the new labels, returns the same labels: the only pod still selected is this one, which the removal skips |
| `Reconciler.PrimaryReconcileIdempotent` | pkg/controller/workqueue.go:118-127 | with no rejected patches a second primary step changes nothing |
| `Reconciler.StandbyReconcile` | pkg/controller/workqueue.go:129-137 | on a non-primary answer for a cached pod only this pod changes: its role becomes standby, other labels kept; success iff it is already `standby` or the patch is accepted; a rejection changes nothing; repeating changes nothing |
| `Reconciler.UncachedPodUntouched` | pkg/controller/workqueue.go:65-72 | a pod outside the watched namespace or not matching the cache's selector is never relabelled, whatever the detector answers |
| `Reconciler.CheckPrimary` | pkg/controller/workqueue.go:98-116 | MySQL: a query error is returned, else primary iff the first row's host short name equals the pod name; MongoDB: the `ismaster` test; any other kind: not primary, no error |
| `Reconciler.ShortNameCheckImpliesIsPrimary` | pkg/controller/workqueue.go:105-110 | when the short-name check says primary, `isMySQLPrimary` does too, whatever the addresses |
| `Reconciler.IsPrimaryStrongerThanShortNameCheck` | pkg/controller/mysql.go:131-142 | for every answer whose first row's host equals `status.podIP` while `podIPs` is non-empty, and whose short name differs from the pod name, `isMySQLPrimary` says primary and the short-name check says not primary, whatever the MongoDB inputs |
| `Reconciler.MissingUserChangesNothing` | pkg/controller/workqueue.go:76-79 | for a MySQL database, a missing root user name makes the step return that error and change no label |
| `Reconciler.NilAnswerChangesNothing` | pkg/controller/workqueue.go:76-79 | for a MySQL database, a nil query answer makes the step return the nil-result error and change no label |
| `Options.NewOptions` | pkg/cmds/server/option.go:50-65 | defaults: own namespace, restricted scope, 5 requeues, 2 threads, 10-minute resync, QPS and burst of one million |
| `Options.WatchNamespace` | pkg/cmds/server/option.go:82-87 | restricted gives the operator namespace, otherwise all namespaces (`""`) |
| `Options.WatchScope` | pkg/cmds/server/option.go:83-86 | for a non-empty operator namespace, a namespace is in scope iff the scope is unrestricted or it is the operator's namespace |
| `Options.DefaultScopeIsOwnNamespace` | pkg/cmds/server/option.go:63 | by default only the operator's own namespace is in scope |
| `Options.Apply` | pkg/cmds/server/option.go:92-98 | burst, resync period, requeues, threads, db name and the resolved watch namespace are copied unchanged |
| `Options.DefaultConfig` | pkg/cmds/server/option.go:58-60 | applying the defaults gives 5 requeues, 2 threads, a 10-minute resync and the own namespace |

## Left out

- Informer and event-handler wiring and the `kmodules` work queue (`initWatcher`, `pkg/controller/controller.go`). Deduplication, backoff, the retry ceiling and single-flight execution live in a library that is not part of this model.
- Database I/O (xorm, the MySQL driver, the mongo-driver connect, ping and `RunCommand`), Kubernetes and custom-resource GETs, and `os.LookupEnv`. Their results are inputs.
- TLS certificate pools, `RegisterTLSConfig` and certificate saving. Only whether each step fails is modelled, and the CA and PEM paths are opaque strings.
- Concurrency between worker goroutines, and the wall-clock behaviour of polling.
- The float QPS conversion in `Apply` and client construction in `Apply` (its two `NewForConfig` error returns).
- Process bootstrap and flag glue: `cmds/`, `pkg/cmds/server/start.go`, `pkg/controller/config.go`. The older copy `cmds/server/option.go` is also left out: nothing in the modelled build uses it (it imports the earlier `mysql-primary-labeler` controller package, has no `DBName` field or `--db-name` flag, defaults `RestrictToOperatorNamespace` to false, and its `Apply` fills a `LabelerConfig` rather than a `Config`).
- Constants from the KubeDB API package, which is not part of this model: label keys, role values, environment-variable names, TLS configuration names, port 3306 and the kind names. They use that package's values, and only their distinctness matters to the proofs. `GoverningServiceName` is a function parameter.
- The informer's list selector is a parameter (`cacheSelector`), not the kind-MySQL selector built in `pkg/controller/controller.go:79-82`. That file is an older version whose controller lacks fields `workqueue.go` uses, so its selector cannot be tied to the modelled code. The lister's answer for the primary selector is an input, constrained by `IsListing`.
- `core_util.PatchPod` and `UpsertMap` belong to a library that is not part of this model. Their behaviour is modelled as the library defines it: a two-way merge patch of the labels, with no request when the patch is empty.
- Reconciler.Reconcile: one label store serves both the informer cache and the API, so a stale cache is not modelled. Its guarantees about the own pod assume a namespace without `/`, which Kubernetes namespaces never contain.
- Reconciler.CheckPrimary: requires a non-empty MySQL answer, because the code indexes the first row unchecked and would panic; every answer `MySQL.QueryDatabase` returns meets it, since the driver's `QueryString` hands an empty result set over as nil (the `MySQL.ResultSet` type).
- MySQL.IsPrimary: requires a non-empty answer, for the same reason.
- The xorm driver is not part of this model: that `QueryString` returns nil rather than an empty slice for an empty result set is taken from its behaviour and built into the `MySQL.ResultSet` type.
- MongoDB.NodeType: requires a `-` in the pod name; without one the code slices at -1 and panics.
- The MySQL detector chain (`MySQL.QueryDatabase`, `MySQL.DetectionChainAnswers` and the lemmas built on them) takes the connection outcome as a parameter `connected`; no lemma ties it to the outcome of `MySQL.EventuallyConnect`, which is a method modelled on its own.
- MySQL.EventuallyConnect: models the 5 s / 5 min poll as 61 attempts (0 to 300 s). When the tick at 300 s is delivered before the timeout closes the poller's channel, the library evaluates the condition a 62nd time; the model does not include that extra attempt.
