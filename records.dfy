/** The configuration snapshot both generators read: flat records linked by
    string ids. An optional text field that is absent (JavaScript `undefined`,
    `null`, or an empty string; Go's zero value) is the empty string; an
    optional count that is absent or zero is 0; a list that is absent is empty.
    The Go generator reads a subset of these fields. */
module Records {

  datatype General = General(
    enabled: bool,
    enableLayer4: bool,
    httpPort: string,
    httpsPort: string,
    logLevel: string,
    autoHttps: string,
    tlsEmail: string,
    httpVersions: string,
    timeoutReadBody: string,
    timeoutReadHeader: string,
    timeoutWrite: string,
    timeoutIdle: string,
    logCredentials: bool,
    logRollSizeMb: int,
    logRollKeep: int)

  datatype Domain = Domain(
    id: string,
    enabled: bool,
    fromDomain: string,
    fromPort: string,
    accesslist: seq<string>,
    basicauth: seq<string>,
    accessLog: bool,
    disableTls: bool,
    customCert: string,
    clientAuthMode: string,
    clientAuthTrustPool: string)

  datatype Subdomain = Subdomain(
    id: string,
    enabled: bool,
    reverse: string,
    fromDomain: string)

  /** Upstream transport settings of a handler. */
  datatype Transport = Transport(
    httpTls: bool,
    tlsInsecureSkipVerify: bool,
    tlsServerName: string,
    tlsTrustedCaCerts: string,
    httpVersion: string,
    keepalive: string,
    ntlm: bool)

  datatype LoadBalancing = LoadBalancing(
    policy: string,
    retries: int,
    tryDuration: string,
    tryInterval: string)

  datatype ActiveHealth = ActiveHealth(
    uri: string,
    port: string,
    interval: string,
    timeout: string,
    status: string,
    body: string,
    passes: int,
    fails: int,
    followRedirects: bool)

  datatype PassiveHealth = PassiveHealth(
    failDuration: string,
    maxFails: int,
    unhealthyStatus: string,
    unhealthyLatency: string,
    unhealthyRequestCount: int)

  datatype Handler = Handler(
    id: string,
    enabled: bool,
    reverse: string,
    subdomain: string,
    handleType: string,
    handlePath: string,
    accesslist: seq<string>,
    basicauth: seq<string>,
    header: seq<string>,
    handleDirective: string,
    toDomain: seq<string>,
    toPort: string,
    transport: Transport,
    lb: LoadBalancing,
    active: ActiveHealth,
    passive: PassiveHealth,
    redirStatus: string)

  datatype AccessList = AccessList(
    id: string,
    clientIps: seq<string>,
    invert: bool,
    requestMatcher: string,
    httpResponseCode: string,
    httpResponseMessage: string)

  datatype BasicAuth = BasicAuth(
    id: string,
    user: string,
    passHash: string)

  datatype Header = Header(
    id: string,
    upDown: string,
    name: string,
    value: string)

  datatype Layer4Route = Layer4Route(
    id: string,
    enabled: bool,
    fromDomain: seq<string>,
    fromPort: string,
    matchers: string,
    toDomain: seq<string>,
    toPort: string,
    terminateTls: bool,
    proxyProtocol: string,
    originateTls: string,
    lbPolicy: string,
    passiveHealthFailDuration: string,
    passiveHealthMaxFails: int)

  datatype Config = Config(
    general: General,
    domains: seq<Domain>,
    subdomains: seq<Subdomain>,
    handlers: seq<Handler>,
    accessLists: seq<AccessList>,
    basicAuths: seq<BasicAuth>,
    headers: seq<Header>,
    layer4: seq<Layer4Route>)
}
