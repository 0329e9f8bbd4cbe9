/** The values every other module works on: targets, probe results and the comparison of two
    target configurations (internal/config/config.go, internal/config/hash.go, internal/probe/prober.go).

    Durations and timestamps are integers (nanoseconds, Unix seconds); float64 values are reals. */
module Targets {

  datatype Option<+T> = None | Some(value: T)

  /** A probe type as read from YAML; `OtherType` is any string outside the eight known ones. */
  datatype ProbeType =
    | TCP | HTTP | ICMP | MTU | DNS | TLSCert | HTTPBody | ProxyConnect
    | OtherType(text: string)
  {
    function Text(): string {
      match this
      case TCP => "tcp"
      case HTTP => "http"
      case ICMP => "icmp"
      case MTU => "mtu"
      case DNS => "dns"
      case TLSCert => "tls_cert"
      case HTTPBody => "http_body"
      case ProxyConnect => "proxy_connect"
      case OtherType(text) => text
    }
  }

  datatype Credentials = Credentials(username: string, password: string)

  /** The fields of a proxy that enter a target's hash. */
  datatype ProxyIdentity = ProxyIdentity(
    endpoint: string, tlsSkipVerify: bool,
    username: string, usernameEnv: string, usernameFile: string,
    passwordEnv: string, passwordFile: string)

  /** A proxy attached to a target: the hashed identity plus runtime-only credentials. */
  datatype ResolvedProxy = ResolvedProxy(identity: ProxyIdentity, credentials: Credentials)

  /** The options other modules look at; `rest` stands for all remaining hashed options. */
  datatype ProbeOptions = ProbeOptions(
    httpMethod: string, headers: map<string, string>, followRedirects: bool,
    tlsEmitCertMetrics: bool, requestBodyBytes: int,
    icmpPayloadSizes: seq<int>, expectedMinMTU: int, mtuRetries: int, mtuPerAttemptTimeout: int,
    rest: string)

  datatype TargetConfig = TargetConfig(
    name: string, address: string, probeType: ProbeType,
    interval: int, timeout: int, tags: map<string, string>,
    opts: ProbeOptions, proxyName: string, resolvedProxy: Option<ResolvedProxy>,
    dnsResolver: Option<string>)
  {
    /** What HashTarget serialises: everything except the credentials, which are excluded from JSON. */
    function Hashed(): TargetConfig {
      match resolvedProxy
      case None => this
      case Some(p) => this.(resolvedProxy := Some(p.(credentials := Credentials("", ""))))
    }

    /** Equality by hash, with the hash taken to be injective on the serialised fields. */
    predicate Equal(other: TargetConfig) {
      Hashed() == other.Hashed()
    }
  }

  /** What a change must leave alone to count as none: everything but the credentials. */
  lemma EqualMeans(a: TargetConfig, b: TargetConfig)
    ensures a.Equal(b) <==>
      && a.name == b.name && a.address == b.address && a.probeType == b.probeType && a.interval == b.interval && a.timeout == b.timeout
      && a.tags == b.tags && a.opts == b.opts && a.proxyName == b.proxyName && a.dnsResolver == b.dnsResolver
      && (a.resolvedProxy.Some? <==> b.resolvedProxy.Some?)
      && (a.resolvedProxy.Some? && b.resolvedProxy.Some? ==> a.resolvedProxy.value.identity == b.resolvedProxy.value.identity)
  {
  }

  /** A certificate of the observed chain: its expiry and whether issuer and subject coincide. */
  datatype Certificate = Certificate(notAfter: int, selfIssued: bool)

  datatype ProbeResult = ProbeResult(
    success: bool, duration: int, timedOut: bool, phases: map<string, int>,
    statusCode: int, httpResponseReceived: bool,
    proxyConnectStatusCode: int, proxyConnectResponseReceived: bool,
    certExpiry: int, certObserved: bool, tlsCertificates: seq<Option<Certificate>>,
    pathMTU: int, mtuState: string, mtuDetail: string,
    packetLoss: real, icmpRepliesObserved: int, icmpAvgRTT: int, icmpStddevRTT: int,
    dnsResolveTime: int, dnsMatchEvaluated: bool, dnsMatched: bool,
    httpTruncationEvaluated: bool, httpResponseTruncated: bool,
    httpBodyEvaluated: bool, bodyMatch: bool)

  /** Every phase label a prober may emit (AllPhases). */
  const AllPhases: seq<string> := [
    "dns_resolve", "tcp_connect", "tls_handshake", "request_write", "ttfb", "transfer",
    "proxy_dial", "proxy_tls", "proxy_connect"]

  /** A success that observed nothing else. */
  const PlainSuccess := ProbeResult(true, 0, false, map[], 0, false, 0, false, 0, false, [], 0, "", "", 0.0, 0, 0, 0, 0, false, false, false, false, false, false)

  predicate PhasesKnown(r: ProbeResult) {
    forall p <- r.phases :: p in AllPhases
  }
}
