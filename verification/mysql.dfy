/** The MySQL side of primary detection: building the connection string,
    connecting with bounded retries, running the group-replication query and
    deciding from its first row whether this pod is the primary member.

    Environment variables, the MySQL custom resource, the server certificate
    secret, TLS registration, the driver and the query answer are inputs. */
module MySQL {
  import opened Outcomes
  import Text

  /** Names of the pod environment variables holding the root credentials. */
  const RootUserVariable: string := "MYSQL_ROOT_USERNAME"
  const RootPasswordVariable: string := "MYSQL_ROOT_PASSWORD"

  /** The server is reached on the pod itself, on the standard port, in the
      `mysql` schema. */
  const LocalHost: string := "localhost"
  const DatabasePort: string := "3306"
  const DatabaseName: string := "mysql"

  /** Names under which the driver knows the two TLS configurations. */
  const TlsCustom: string := "custom"
  const TlsSkipVerify: string := "skip-verify"

  /** Column of the query answer that holds the primary member's host. */
  const MemberHostColumn: string := "MEMBER_HOST"

  /** The two fields of the MySQL resource spec that the connection depends on:
      whether `spec.tls` is set and `spec.requireSSL`. */
  datatype Spec = Spec(tls: bool, requireSSL: bool)

  /** The addresses recorded in a pod's status: `status.podIP`, `status.podIPs`. */
  datatype PodStatus = PodStatus(podIP: string, podIPs: seq<string>)

  type Row = map<string, string>
  type Rows = seq<Row>

  /** A result set as the driver's `QueryString` hands it over: the driver
      appends each row to a nil slice, so an empty result set arrives as nil
      (`None` in an answer) and a present one has at least one row. */
  type ResultSet = rows: Rows | |rows| > 0 witness [map[]]

  /** The query parameter selecting TLS: none without `spec.tls`; the custom
      trust configuration when SSL is required; skip-verify otherwise. */
  function TlsParameter(spec: Spec): (p: string)
    ensures p == "" <==> !spec.tls
    ensures spec.tls && spec.requireSSL ==> p == "tls=" + TlsCustom
    ensures spec.tls && !spec.requireSSL ==> p == "tls=" + TlsSkipVerify
    ensures '?' !in p
  {
    if !spec.tls then ""
    else if spec.requireSSL then "tls=" + TlsCustom
    else "tls=" + TlsSkipVerify
  }

  /** The data source name `user:password@tcp(localhost:3306)/mysql?<tls>`:
      the credentials come first, separated by `:`, and the TLS parameter is
      the query string, last. */
  function Dsn(user: string, password: string, tls: string): (d: string)
    ensures |d| > |user| && d[..|user|] == user && d[|user|] == ':'
    ensures |d| > |tls| && d[|d| - |tls| - 1] == '?' && d[|d| - |tls|..] == tls
  {
    user + ":" + password + "@tcp(" + LocalHost + ":" + DatabasePort + ")/" + DatabaseName + "?" + tls
  }

  /** Reading back the TLS parameter: the text after the last `?` of the data
      source name is exactly the chosen TLS parameter, whatever the
      credentials contain. */
  lemma DsnTlsRoundTrip(user: string, password: string, spec: Spec)
    ensures Text.AfterLast(Dsn(user, password, TlsParameter(spec)), '?') == TlsParameter(spec)
  {
    var tls := TlsParameter(spec);
    var head := user + ":" + password + "@tcp(" + LocalHost + ":" + DatabasePort + ")/" + DatabaseName;
    assert Dsn(user, password, tls) == head + ['?'] + tls;
    Text.AfterLastConcat(head, '?', tls);
  }

  /** Reading back the user: the text before the first `:` of the data source
      name is the user, when the user name has no `:`. */
  lemma DsnUserRoundTrip(user: string, password: string, tls: string)
    ensures ':' !in user ==> Text.Before(Dsn(user, password, tls), ':') == user
  {
    if ':' !in user {
      var rest := password + "@tcp(" + LocalHost + ":" + DatabasePort + ")/" + DatabaseName + "?" + tls;
      assert Dsn(user, password, tls) == user + [':'] + rest;
      Text.BeforeConcat(user, ':', rest);
    }
  }

  /** `getMySQLClient`: the data source name the driver is opened with, or the
      first failure. Missing credentials are reported before any API call;
      then the custom resource is read, the CA secret is read only when TLS is
      declared, and the custom TLS configuration is registered only when SSL
      is required. */
  function GetClient(env: map<string, string>, namespace: string, pod: string,
                     resource: Result<Spec>, serverSecret: Status,
                     registerTls: Status, newEngine: Status): (r: Result<string>)
    ensures RootUserVariable !in env ==>
      r == Err(MissingVariable(RootUserVariable, namespace, pod))
    ensures RootUserVariable in env && RootPasswordVariable !in env ==>
      r == Err(MissingVariable(RootPasswordVariable, namespace, pod))
    ensures RootUserVariable in env && RootPasswordVariable in env && resource.Err? ==>
      r == Err(resource.error)
    ensures RootUserVariable in env && RootPasswordVariable in env && resource.Ok? ==>
      var spec := resource.value;
      && (spec.tls && serverSecret.Failed? ==> r == Err(serverSecret.error))
      && (spec.tls && serverSecret.Done? && spec.requireSSL && registerTls.Failed? ==>
            r == Err(registerTls.error))
    ensures RootUserVariable in env && RootPasswordVariable in env && resource.Ok?
      && (resource.value.tls ==> serverSecret.Done?)
      && (resource.value.tls && resource.value.requireSSL ==> registerTls.Done?)
      && newEngine.Failed?
      ==> r == Err(newEngine.error)
    ensures r.Ok? <==>
      && RootUserVariable in env && RootPasswordVariable in env
      && resource.Ok?
      && (resource.value.tls ==> serverSecret.Done?)
      && (resource.value.tls && resource.value.requireSSL ==> registerTls.Done?)
      && newEngine.Done?
    ensures r.Ok? ==>
      && Text.AfterLast(r.value, '?') == TlsParameter(resource.value)
      && (':' !in env[RootUserVariable] ==> Text.Before(r.value, ':') == env[RootUserVariable])
  {
    if RootUserVariable !in env then Err(MissingVariable(RootUserVariable, namespace, pod))
    else if RootPasswordVariable !in env then Err(MissingVariable(RootPasswordVariable, namespace, pod))
    else
      match resource
      case Err(e) => Err(e)
      case Ok(spec) =>
        if spec.tls && serverSecret.Failed? then Err(serverSecret.error)
        else if spec.tls && spec.requireSSL && registerTls.Failed? then Err(registerTls.error)
        else if newEngine.Failed? then Err(newEngine.error)
        else
          var user, password := env[RootUserVariable], env[RootPasswordVariable];
          DsnTlsRoundTrip(user, password, spec);
          DsnUserRoundTrip(user, password, TlsParameter(spec));
          Ok(Dsn(user, password, TlsParameter(spec)))
  }

  /** Polling: a ping is tried at once and then every `PollInterval`
      seconds; when `PollTimeout` seconds have passed the poller closes its
      channel and the condition is evaluated one last time. */
  const PollInterval: nat := 5
  const PollTimeout: nat := 300
  /** Attempts start at 0, 5, ..., 300 seconds: the immediate one, one per
      tick before the timeout, and the last one when the channel closes. */
  const MaxAttempts: nat := PollTimeout / PollInterval + 1

  /** `eventuallyConnectWithMySQL`: `pings[k]` is whether the ping of attempt
      `k` (made `k * PollInterval` seconds after the start) succeeds; a
      missing entry is a failed ping. Ping errors are never reported; the
      call succeeds as soon as one ping succeeds within the time bound and
      times out otherwise. `attempts` is how many pings were made. */
  method EventuallyConnect(pings: seq<bool>) returns (s: Status, attempts: nat)
    ensures 1 <= attempts <= MaxAttempts
    ensures s.Done? <==> exists k :: 0 <= k < MaxAttempts && k < |pings| && pings[k]
    ensures s.Failed? ==> s.error == WaitTimeout && attempts == MaxAttempts
    ensures s.Done? ==> attempts <= |pings| && pings[attempts - 1]
    ensures forall j :: 0 <= j < attempts - 1 && j < |pings| ==> !pings[j]
  {
    attempts := 0;
    while attempts < MaxAttempts
      invariant attempts <= MaxAttempts
      invariant forall j :: 0 <= j < attempts && j < |pings| ==> !pings[j]
    {
      var up := attempts < |pings| && pings[attempts];
      attempts := attempts + 1;
      if up {
        return Done, attempts;
      }
    }
    s := Failed(WaitTimeout);
  }

  /** `queryMySQLDatabase` (and its older copy `queryInMySQLDatabase`): client,
      connection and query failures are returned unchanged, in that order; a
      nil answer is an error; any other answer is the result. */
  function QueryDatabase(client: Result<string>, connected: Status,
                         answer: Result<Option<ResultSet>>): (r: Result<Rows>)
    ensures client.Err? ==> r == Err(client.error)
    ensures client.Ok? && connected.Failed? ==> r == Err(connected.error)
    ensures client.Ok? && connected.Done? && answer.Err? ==> r == Err(answer.error)
    ensures r.Ok? <==> client.Ok? && connected.Done? && answer.Ok? && answer.value.Some?
    ensures r.Ok? ==> r.value == answer.value.value && |r.value| > 0
    ensures client.Ok? && connected.Done? && answer == Ok(None) ==> r == Err(NilQueryResult)
  {
    match client
    case Err(e) => Err(e)
    case Ok(_) =>
      match connected
      case Failed(e) => Err(e)
      case Done =>
        match answer
        case Err(e) => Err(e)
        case Ok(None) => Err(NilQueryResult)
        case Ok(Some(rows)) => Ok(rows)
  }

  /** The host named by the first row of the answer; `""` when the column is
      absent, as a Go map read gives. Later rows are never read. */
  function PrimaryHost(rows: Rows): (host: string)
    requires |rows| > 0
    ensures MemberHostColumn in rows[0] ==> host == rows[0][MemberHostColumn]
    ensures MemberHostColumn !in rows[0] ==> host == ""
  {
    GetOr(rows[0], MemberHostColumn, "")
  }

  /** The DNS short name of a host (its text before the first `.`) is the pod's name. */
  predicate ShortNameIs(host: string, name: string)
  {
    Text.Before(host, '.') == name
  }

  /** Whether `host` is one of `addrs`, scanning them in order. */
  function AnyAddressIs(addrs: seq<string>, host: string): (found: bool)
    ensures found <==> host in addrs
  {
    if |addrs| == 0 then false
    else if addrs[0] == host then true
    else AnyAddressIs(addrs[1..], host)
  }

  /** The addresses `isMySQLPrimary` compares with the host: the code keeps
      only `status.podIP`, and only when `status.podIPs` is non-empty. */
  function ComparedAddresses(status: PodStatus): (addrs: seq<string>)
    ensures |status.podIPs| == 0 ==> addrs == []
    ensures |status.podIPs| > 0 ==> addrs == [status.podIP]
  {
    if |status.podIPs| > 0 then [status.podIP] else []
  }

  /** `isMySQLPrimary`: a query failure is returned unchanged; otherwise the
      pod is primary when the first row's host equals `status.podIP` (only
      consulted when `status.podIPs` is non-empty) or when the host's DNS
      short name equals the pod's name. */
  function IsPrimary(status: PodStatus, name: string, query: Result<Rows>): (r: Result<bool>)
    requires query.Ok? ==> |query.value| > 0
    ensures query.Err? ==> r == Err(query.error)
    ensures query.Ok? ==> r.Ok? && (r.value <==>
      || (|status.podIPs| > 0 && status.podIP == PrimaryHost(query.value))
      || Text.Before(PrimaryHost(query.value), '.') == name)
  {
    match query
    case Err(e) => Err(e)
    case Ok(rows) =>
      var host := PrimaryHost(rows);
      if AnyAddressIs(ComparedAddresses(status), host) then Ok(true)
      else Ok(ShortNameIs(host, name))
  }

  /** With an empty `status.podIPs` no address is compared: whatever
      `status.podIP` says, a host whose short name differs from the pod name
      is not recognised as this pod, even a host equal to `status.podIP`. */
  lemma EmptyPodIPsSkipsAddress(status: PodStatus, name: string, rows: Rows)
    requires |status.podIPs| == 0 && |rows| > 0
    requires Text.Before(PrimaryHost(rows), '.') != name
    ensures IsPrimary(status, name, Ok(rows)) == Ok(false)
    ensures IsPrimary(PodStatus("10.0.0.7", []), "mysql-0", Ok([map[MemberHostColumn := "10.0.0.7"]])) == Ok(false)
  {
    var host := "10.0.0.7";
    assert PrimaryHost([map[MemberHostColumn := host]]) == host;
    Text.BeforeConcat("10", '.', "0.0.7");
    assert host == "10" + ['.'] + "0.0.7";
  }

  /** A host given by DNS name matches the pod whose name is its first label. */
  lemma DnsHostMatchesPod(status: PodStatus, name: string, service: string)
    requires '.' !in name
    ensures IsPrimary(status, name, Ok([map[MemberHostColumn := name + "." + service]])) == Ok(true)
  {
    var host := name + "." + service;
    assert PrimaryHost([map[MemberHostColumn := host]]) == host;
    assert host == name + ['.'] + service;
    Text.BeforeConcat(name, '.', service);
  }

  /** The detector chain `isMySQLPrimary(queryMySQLDatabase(getMySQLClient))`
      with the root user name missing from the environment: the answer is
      that error, naming the variable and the pod, whatever the API, the
      driver and the server would have said. */
  lemma MissingUserFailsDetection(env: map<string, string>, namespace: string, pod: string,
                                  resource: Result<Spec>, serverSecret: Status,
                                  registerTls: Status, newEngine: Status, connected: Status,
                                  answer: Result<Option<ResultSet>>, status: PodStatus)
    requires RootUserVariable !in env
    ensures var client := GetClient(env, namespace, pod, resource, serverSecret, registerTls, newEngine);
      IsPrimary(status, pod, QueryDatabase(client, connected, answer)) ==
        Err(MissingVariable(RootUserVariable, namespace, pod))
  {
  }

  /** A nil result set from a working client reaches the detector's answer
      as the nil-result error, whatever the pod's addresses. */
  lemma NilAnswerFailsDetection(client: Result<string>, status: PodStatus, name: string)
    requires client.Ok?
    ensures IsPrimary(status, name, QueryDatabase(client, Done, Ok(None))) == Err(NilQueryResult)
  {
  }

  /** The whole detector chain for any driver answer: it answers exactly when
      the client, the connection and the query all succeed with a result
      set, and then says whether the first row's host names this pod. */
  lemma DetectionChainAnswers(client: Result<string>, connected: Status,
                              answer: Result<Option<ResultSet>>, status: PodStatus, name: string)
    ensures var r := IsPrimary(status, name, QueryDatabase(client, connected, answer));
      && (r.Ok? <==> client.Ok? && connected.Done? && answer.Ok? && answer.value.Some?)
      && (r.Ok? ==> (r.value <==>
            || (|status.podIPs| > 0 && status.podIP == GetOr(answer.value.value[0], MemberHostColumn, ""))
            || Text.Before(GetOr(answer.value.value[0], MemberHostColumn, ""), '.') == name))
  {
  }
}
