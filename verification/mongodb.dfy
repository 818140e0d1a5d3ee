/** The MongoDB side of primary detection: the pod's governing-service URL,
    the client URI (X.509 or basic authentication), the client set-up chain
    and the `isMaster` reply test.

    The MongoDB resource, secrets, the certificate holder, the driver's
    connect and ping, and the command reply are inputs. */
module MongoDB {
  import opened Outcomes
  import Text

  /** `spec.sslMode` of the MongoDB resource. */
  datatype SslMode = Disabled | AllowSSL | PreferSSL | RequireSSL

  /** The field of the MongoDB resource the client depends on. */
  datatype Resource = Resource(sslMode: SslMode)

  /** File paths of the saved client certificate. */
  datatype CertPaths = CertPaths(caCert: string, pem: string)

  /** What the certificate path does: read the client-certificate secret,
      save it through the certificate holder, look the saved paths up. */
  datatype CertInputs = CertInputs(secret: Status, save: Status, paths: Result<CertPaths>)

  /** The client options that matter here: the URI and direct connection. */
  datatype ClientOptions = ClientOptions(uri: string, direct: bool)

  /** A decoded value of the command reply. */
  datatype BsonValue = Bool(b: bool) | Str(s: string) | Number(n: int) | Other

  type Reply = map<string, BsonValue>

  /** Keys of a basic-auth secret. */
  const UsernameKey: string := "username"
  const PasswordKey: string := "password"

  const Scheme: string := "mongodb://"
  const IsMasterField: string := "ismaster"
  /** Path and parameters of the X.509 URI, up to the CA file path. */
  const X509Query: string := "admin?tls=true&authMechanism=MONGODB-X509&tlsCAFile="

  /** The node type of a pod: its name up to, not including, the last `-`
      (`shard0-1` belongs to `shard0`). The code slices at that index, so a
      name without `-` is outside its domain. */
  function NodeType(podName: string): (t: string)
    requires '-' in podName
    ensures |t| < |podName| && podName[|t|] == '-'
    ensures t == podName[..|t|]
    ensures '-' !in podName[|t| + 1..]
  {
    Text.LastIndexAbsent(podName, '-');
    podName[..Text.LastIndex(podName, '-')]
  }

  /** The node type is the part before the ordinal: putting back the `-` and
      the `-`-free rest gives the pod name. */
  lemma NodeTypeSplit(prefix: string, ordinal: string)
    requires '-' !in ordinal
    ensures NodeType(prefix + "-" + ordinal) == prefix
  {
    var name := prefix + "-" + ordinal;
    assert name == prefix + ['-'] + ordinal;
    Text.AfterLastConcat(prefix, '-', ordinal);
  }

  /** `GetMongoDBConnectionURL` / `GetURL`:
      `<pod>.<governing service of the node type>.<namespace>.svc`. */
  function ConnectionUrl(podName: string, namespace: string, governing: string -> string): (url: string)
    requires '-' in podName
    ensures |url| > |podName| && url[..|podName|] == podName && url[|podName|] == '.'
    ensures |url| >= 4 && url[|url| - 4..] == ".svc"
  {
    podName + "." + governing(NodeType(podName)) + "." + namespace + ".svc"
  }

  /** The URL's first DNS label names the pod, so the MySQL-style short-name
      test recognises it. */
  lemma ConnectionUrlShortName(podName: string, namespace: string, governing: string -> string)
    requires '-' in podName && '.' !in podName
    ensures Text.Before(ConnectionUrl(podName, namespace, governing), '.') == podName
  {
    var rest := governing(NodeType(podName)) + "." + namespace + ".svc";
    assert ConnectionUrl(podName, namespace, governing) == podName + ['.'] + rest;
    Text.BeforeConcat(podName, '.', rest);
  }

  /** `GetMongoDBRootCredentials`: the user name and password of the auth
      secret; an absent key reads as empty. */
  function RootCredentials(authSecret: Result<map<string, string>>): (r: Result<(string, string)>)
    ensures authSecret.Err? ==> r == Err(authSecret.error)
    ensures authSecret.Ok? ==>
      && r.Ok?
      && (UsernameKey in authSecret.value ==> r.value.0 == authSecret.value[UsernameKey])
      && (UsernameKey !in authSecret.value ==> r.value.0 == "")
      && (PasswordKey in authSecret.value ==> r.value.1 == authSecret.value[PasswordKey])
      && (PasswordKey !in authSecret.value ==> r.value.1 == "")
  {
    match authSecret
    case Err(e) => Err(e)
    case Ok(data) => Ok((GetOr(data, UsernameKey, ""), GetOr(data, PasswordKey, "")))
  }

  /** The URI authenticating with the client certificate: the pod's URL
      right after the scheme and no credentials before it. */
  function X509Uri(url: string, paths: CertPaths): (uri: string)
    ensures |uri| > |Scheme| + |url| && uri[..|Scheme| + |url|] == Scheme + url && uri[|Scheme| + |url|] == '/'
  {
    Scheme + url + "/" + X509Query + paths.caCert + "&tlsCertificateKeyFile=" + paths.pem
  }

  /** The URI authenticating with user name and password: the credentials
      right after the scheme, the pod's URL last, after an `@`. */
  function BasicUri(user: string, password: string, url: string): (uri: string)
    ensures |uri| > |Scheme| + |user| && uri[..|Scheme| + |user|] == Scheme + user && uri[|Scheme| + |user|] == ':'
    ensures |uri| > |url| && uri[|uri| - |url| - 1] == '@' && uri[|uri| - |url|..] == url
  {
    Scheme + user + ":" + password + "@" + url
  }

  /** Reading the credentials back out of a URI: after the scheme, up to the
      first `@`. */
  function UriUserInfo(uri: string): string
  {
    if |uri| >= |Scheme| && uri[..|Scheme|] == Scheme
    then Text.Before(uri[|Scheme|..], '@')
    else ""
  }

  /** The basic-auth URI carries the user name and password it was built
      from, when neither contains `@`. */
  lemma BasicUriCredentials(user: string, password: string, url: string)
    requires '@' !in user && '@' !in password
    ensures UriUserInfo(BasicUri(user, password, url)) == user + ":" + password
  {
    var auth := user + ":" + password;
    var uri := BasicUri(user, password, url);
    assert uri == Scheme + (auth + ['@'] + url);
    assert uri[|Scheme|..] == auth + ['@'] + url;
    assert '@' !in auth by {
      assert auth == user + [':'] + password;
    }
    Text.BeforeConcat(auth, '@', url);
  }

  /** Reading the host back out of a URI: after the scheme, up to the first
      `/`, after the last `@`. */
  function UriHost(uri: string): string
  {
    if |uri| >= |Scheme| && uri[..|Scheme|] == Scheme
    then Text.AfterLast(Text.Before(uri[|Scheme|..], '/'), '@')
    else ""
  }

  /** The certificate URI names the same host it was built for. */
  lemma X509UriHost(url: string, paths: CertPaths)
    requires '/' !in url && '@' !in url
    ensures UriHost(X509Uri(url, paths)) == url
  {
    var uri := X509Uri(url, paths);
    var tail := X509Query + paths.caCert + "&tlsCertificateKeyFile=" + paths.pem;
    assert uri == Scheme + (url + ['/'] + tail);
    assert uri[|Scheme|..] == url + ['/'] + tail;
    Text.BeforeConcat(url, '/', tail);
    Text.AfterLastAbsent(url, '@');
  }

  /** The basic-auth URI names the same host it was built for, whatever
      `@` the password holds, as long as no credential contains `/`. */
  lemma BasicUriHost(user: string, password: string, url: string)
    requires '/' !in url && '@' !in url
    requires '/' !in user && '/' !in password
    ensures UriHost(BasicUri(user, password, url)) == url
  {
    var uri := BasicUri(user, password, url);
    var auth := user + ":" + password;
    var rest := auth + ['@'] + url;
    assert uri == Scheme + rest;
    assert uri[|Scheme|..] == rest;
    assert '/' !in rest;
    Text.BeforeAbsent(rest, '/');
    Text.AfterLastConcat(auth, '@', url);
  }

  /** `GetMongoDBClientOpts`: with SSL mode `requireSSL`, the certificate
      secret is read, saved and its paths looked up, and the URI uses X.509
      authentication; any other mode reads the auth secret and uses its
      credentials. Every failure is returned unchanged with no options;
      every success sets direct connection. */
  function ClientOpts(url: string, sslMode: SslMode, cert: CertInputs,
                      authSecret: Result<map<string, string>>): (r: Result<ClientOptions>)
    ensures r.Ok? ==> r.value.direct
    ensures sslMode == RequireSSL ==>
      && (cert.secret.Failed? ==> r == Err(cert.secret.error))
      && (cert.secret.Done? && cert.save.Failed? ==> r == Err(cert.save.error))
      && (cert.secret.Done? && cert.save.Done? && cert.paths.Err? ==> r == Err(cert.paths.error))
      && (r.Ok? <==> cert.secret.Done? && cert.save.Done? && cert.paths.Ok?)
      && (r.Ok? ==> r.value.uri == X509Uri(url, cert.paths.value))
    ensures sslMode != RequireSSL ==>
      && (authSecret.Err? ==> r == Err(authSecret.error))
      && (r.Ok? <==> authSecret.Ok?)
      && (r.Ok? ==> r.value.uri == BasicUri(RootCredentials(authSecret).value.0,
                                            RootCredentials(authSecret).value.1, url))
  {
    if sslMode == RequireSSL then
      if cert.secret.Failed? then Err(cert.secret.error)
      else if cert.save.Failed? then Err(cert.save.error)
      else match cert.paths
        case Err(e) => Err(e)
        case Ok(paths) => Ok(ClientOptions(X509Uri(url, paths), true))
    else
      match RootCredentials(authSecret)
      case Err(e) => Err(e)
      case Ok(creds) => Ok(ClientOptions(BasicUri(creds.0, creds.1, url), true))
  }

  /** Whichever authentication is chosen, the client connects to the URL
      built for the pod. */
  lemma ClientOptsTargetsUrl(url: string, sslMode: SslMode, cert: CertInputs,
                             authSecret: Result<map<string, string>>)
    requires '/' !in url && '@' !in url
    requires authSecret.Ok? && sslMode != RequireSSL ==>
      forall k :: k in authSecret.value ==> '/' !in authSecret.value[k]
    ensures var r := ClientOpts(url, sslMode, cert, authSecret);
      r.Ok? ==> UriHost(r.value.uri) == url
  {
    var r := ClientOpts(url, sslMode, cert, authSecret);
    if r.Ok? {
      if sslMode == RequireSSL {
        X509UriHost(url, cert.paths.value);
      } else {
        var creds := RootCredentials(authSecret).value;
        BasicUriHost(creds.0, creds.1, url);
      }
    }
  }

  /** `GetMongoClient`: read the resource, build the URL and options, connect
      and ping; the first failure is returned unchanged. */
  function GetClient(podName: string, namespace: string, governing: string -> string,
                     resource: Result<Resource>, cert: CertInputs,
                     authSecret: Result<map<string, string>>,
                     connect: Status, ping: Status): (r: Result<ClientOptions>)
    requires resource.Ok? ==> '-' in podName
    ensures resource.Err? ==> r == Err(resource.error)
    ensures resource.Ok? ==>
      var opts := ClientOpts(ConnectionUrl(podName, namespace, governing), resource.value.sslMode, cert, authSecret);
      && (opts.Err? ==> r == Err(opts.error))
      && (opts.Ok? && connect.Failed? ==> r == Err(connect.error))
      && (opts.Ok? && connect.Done? && ping.Failed? ==> r == Err(ping.error))
      && (r.Ok? <==> opts.Ok? && connect.Done? && ping.Done?)
      && (r.Ok? ==> r == opts && r.value.direct)
    ensures r.Ok? ==> resource.Ok? && connect.Done? && ping.Done?
  {
    match resource
    case Err(e) => Err(e)
    case Ok(db) =>
      match ClientOpts(ConnectionUrl(podName, namespace, governing), db.sslMode, cert, authSecret)
      case Err(e) => Err(e)
      case Ok(opts) =>
        if connect.Failed? then Err(connect.error)
        else if ping.Failed? then Err(ping.error)
        else Ok(opts)
  }

  /** `isMongoDBPrimary` / `IsMaster`: client and command failures are
      returned unchanged; otherwise the pod is primary exactly when the reply
      has `ismaster` set to the boolean `true`. */
  function IsPrimary(client: Result<ClientOptions>, reply: Result<Reply>): (r: Result<bool>)
    ensures client.Err? ==> r == Err(client.error)
    ensures client.Ok? && reply.Err? ==> r == Err(reply.error)
    ensures client.Ok? && reply.Ok? ==>
      && r.Ok?
      && (r.value <==> IsMasterField in reply.value && reply.value[IsMasterField] == Bool(true))
  {
    match client
    case Err(e) => Err(e)
    case Ok(_) =>
      match reply
      case Err(e) => Err(e)
      case Ok(res) =>
        if IsMasterField in res then
          match res[IsMasterField]
          case Bool(b) => Ok(b)
          case _ => Ok(false)
        else Ok(false)
  }

  /** Only the `ismaster` entry of the reply matters; other fields, and a
      non-boolean `ismaster` such as the string "true", do not make a primary. */
  lemma IsPrimaryReadsOnlyIsMaster(client: Result<ClientOptions>, a: Reply, b: Reply)
    requires client.Ok?
    requires IsMasterField in a <==> IsMasterField in b
    requires IsMasterField in a ==> a[IsMasterField] == b[IsMasterField]
    ensures IsPrimary(client, Ok(a)) == IsPrimary(client, Ok(b))
    ensures IsPrimary(client, Ok(a[IsMasterField := Str("true")])) == Ok(false)
  {
  }

  /** With basic authentication the client logs in with the auth secret's
      `username` and `password` entries (empty when absent), whenever those
      contain no `@`. */
  lemma ClientOptsCarriesCredentials(url: string, sslMode: SslMode, cert: CertInputs,
                                     secret: map<string, string>)
    requires sslMode != RequireSSL
    requires '@' !in GetOr(secret, UsernameKey, "") && '@' !in GetOr(secret, PasswordKey, "")
    ensures var r := ClientOpts(url, sslMode, cert, Ok(secret));
      && r.Ok?
      && UriUserInfo(r.value.uri) == GetOr(secret, UsernameKey, "") + ":" + GetOr(secret, PasswordKey, "")
  {
    BasicUriCredentials(GetOr(secret, UsernameKey, ""), GetOr(secret, PasswordKey, ""), url);
  }

  /** The detector chain `isMongoDBPrimary(GetMongoClient)`: the first failing
      step's error is the answer; when every step succeeds, the reply's
      `ismaster` entry decides. */
  lemma DetectionStopsAtFirstFailure(podName: string, namespace: string, governing: string -> string,
                                     resource: Result<Resource>, cert: CertInputs,
                                     authSecret: Result<map<string, string>>,
                                     connect: Status, ping: Status, reply: Result<Reply>)
    requires resource.Ok? ==> '-' in podName
    ensures var r := IsPrimary(GetClient(podName, namespace, governing, resource, cert, authSecret, connect, ping), reply);
      && (resource.Err? ==> r == Err(resource.error))
      && (resource.Ok? ==>
            var opts := ClientOpts(ConnectionUrl(podName, namespace, governing), resource.value.sslMode, cert, authSecret);
            && (opts.Err? ==> r == Err(opts.error))
            && (opts.Ok? && connect.Failed? ==> r == Err(connect.error))
            && (opts.Ok? && connect.Done? && ping.Failed? ==> r == Err(ping.error))
            && (opts.Ok? && connect.Done? && ping.Done? ==> r == IsPrimary(opts, reply)))
  {
  }
}
