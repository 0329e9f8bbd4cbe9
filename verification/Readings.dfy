/** What a scrape says of a live target, vector by vector, in the fields of its configuration and of its last result
    (internal/metrics/metrics.go). The values are spelled out here and not through the exporter's own effects. */
module Readings {
  import opened Targets
  import opened Exporter

  /** A gauge that is 1 for true and 0 for false. */
  predicate IsFlag(v: Option<real>, b: bool) { (b ==> v == Some(1.0)) && (!b ==> v == Some(0.0)) }

  /** A gauge in seconds of a duration in nanoseconds. */
  predicate IsDuration(v: Option<real>, ns: int) { v.Some? && v.value * 1000000000.0 == ns as real }

  predicate IsNumber(v: Option<real>, n: int) { v.Some? && v.value == n as real }

  /** What a live target shows under its common labels. */
  function Seen(l: Labels, e: LiveTarget, m: Metric): Option<real> { VisibleAt(l, e, Series(m, l)) }

  /** The labels themselves: address, name, type, proxy and every tag key, empty where the target has no such tag. */
  lemma LabelsRead(tagKeys: seq<string>, t: TargetConfig)
    requires Unclashing(tagKeys)
    ensures var l := LabelsOf(tagKeys, t);
      && l.Keys == {"target", "target_name", "probe_type", "proxy_name"} + (set k | k in tagKeys)
      && l["target"] == t.address && l["target_name"] == t.name && l["proxy_name"] == t.proxyName
      && l["probe_type"] == TypeName(t.probeType)
      && forall k <- tagKeys :: l[k] == if k in t.tags then t.tags[k] else ""
  {
  }

  function TypeName(p: ProbeType): string {
    if p == TCP then "tcp" else if p == HTTP then "http" else if p == ICMP then "icmp" else if p == MTU then "mtu"
    else if p == DNS then "dns" else if p == TLSCert then "tls_cert" else if p == HTTPBody then "http_body"
    else if p == ProxyConnect then "proxy_connect" else p.text
  }

  /** What every live target shows from its start on. */
  lemma ConfiguredRead(l: Labels, e: LiveTarget)
    ensures IsDuration(Seen(l, e, Timeout), e.target.timeout) && IsDuration(Seen(l, e, Interval), e.target.interval)
    ensures IsNumber(Seen(l, e, SkippedOverlap), e.overlaps)
  {
  }

  /** The mapping to its proxy, if it has one. */
  lemma ProxyRead(l: Labels, e: LiveTarget, k: Series)
    requires k.metric == TargetProxyInfo
    ensures var t := e.target;
      if t.resolvedProxy.Some? && t.proxyName != "" &&
         k.labels == map["target_name" := t.name, "proxy_name" := t.proxyName, "proxy_endpoint" := t.resolvedProxy.value.identity.endpoint]
      then VisibleAt(l, e, k) == Some(1.0) else VisibleAt(l, e, k) == None
  {
  }

  /** Before the first result there is nothing else. */
  lemma NothingYet(l: Labels, e: LiveTarget, k: Series)
    requires e.last.None? && k.metric !in {Timeout, Interval, SkippedOverlap, TargetProxyInfo}
    ensures VisibleAt(l, e, k) == None
  {
  }

  /** What every result shows. */
  lemma CommonRead(l: Labels, e: LiveTarget, r: ProbeResult)
    requires e.last == Some(r)
    ensures IsFlag(Seen(l, e, Success), r.success) && IsFlag(Seen(l, e, TimedOut), r.timedOut)
    ensures IsDuration(Seen(l, e, Duration), r.duration)
  {
  }

  /** The status codes: the one of the response, if there was one, and the one of CONNECT, if it was observed, on
      the probe types that can have them. */
  lemma StatusRead(l: Labels, e: LiveTarget, r: ProbeResult)
    requires e.last == Some(r)
    ensures var p := e.target.probeType;
      && (if (p == HTTP || p == HTTPBody) && r.httpResponseReceived
          then IsNumber(Seen(l, e, HttpStatus), r.statusCode) else Seen(l, e, HttpStatus) == None)
      && (if (p == HTTP || p == HTTPBody || p == TLSCert || p == ProxyConnect) && r.proxyConnectResponseReceived
          then IsNumber(Seen(l, e, ProxyConnectStatus), r.proxyConnectStatusCode) else Seen(l, e, ProxyConnectStatus) == None)
  {
  }

  /** What was judged of the body: truncation by http, the match by http_body. */
  lemma BodyRead(l: Labels, e: LiveTarget, r: ProbeResult)
    requires e.last == Some(r)
    ensures var p := e.target.probeType;
      && (if p == HTTP && r.httpTruncationEvaluated then IsFlag(Seen(l, e, HttpTruncated), r.httpResponseTruncated)
          else Seen(l, e, HttpTruncated) == None)
      && (if p == HTTPBody && r.httpBodyEvaluated then IsFlag(Seen(l, e, HttpBodyMatch), r.bodyMatch)
          else Seen(l, e, HttpBodyMatch) == None)
  {
  }

  /** The echo statistics: loss for icmp, an average from the first reply on for icmp and mtu, a deviation from
      the second on for icmp. */
  lemma EchoRead(l: Labels, e: LiveTarget, r: ProbeResult)
    requires e.last == Some(r)
    ensures var p := e.target.probeType;
      && Seen(l, e, PacketLoss) == (if p == ICMP then Some(r.packetLoss) else None)
      && (if (p == ICMP || p == MTU) && r.icmpRepliesObserved >= 1 then IsDuration(Seen(l, e, AvgRTT), r.icmpAvgRTT)
          else Seen(l, e, AvgRTT) == None)
      && (if p == ICMP && r.icmpRepliesObserved >= 2 then IsDuration(Seen(l, e, StddevRTT), r.icmpStddevRTT)
          else Seen(l, e, StddevRTT) == None)
  {
  }

  lemma DnsRead(l: Labels, e: LiveTarget, r: ProbeResult)
    requires e.last == Some(r)
    ensures var p := e.target.probeType;
      && (if p == DNS then IsDuration(Seen(l, e, DnsResolveTime), r.dnsResolveTime) else Seen(l, e, DnsResolveTime) == None)
      && (if p == DNS && r.dnsMatchEvaluated then IsFlag(Seen(l, e, DnsResultMatch), r.dnsMatched)
          else Seen(l, e, DnsResultMatch) == None)
  {
  }

  /** One series per phase of the result, with that phase's duration. */
  lemma PhaseRead(l: Labels, e: LiveTarget, r: ProbeResult, phase: string)
    requires e.last == Some(r)
    ensures var v := VisibleAt(l, e, Series(PhaseDuration, l["phase" := phase]));
      if phase in r.phases then IsDuration(v, r.phases[phase]) else v == None
  {
    var k := Series(PhaseDuration, l["phase" := phase]);
    assert IsPhaseOf(k, l) && k.labels["phase"] == phase;
  }

  /** The MTU: its size if positive, and exactly one state series, with the result's state and detail. */
  lemma MtuRead(l: Labels, e: LiveTarget, r: ProbeResult, state: string, detail: string)
    requires e.last == Some(r) && "state" !in l && "detail" !in l
    ensures var p, v := e.target.probeType, VisibleAt(l, e, Series(MtuState, l["state" := state]["detail" := detail]));
      && (if p == MTU && r.pathMTU > 0 then IsNumber(Seen(l, e, MtuBytes), r.pathMTU) else Seen(l, e, MtuBytes) == None)
      && v == (if p == MTU && state == r.mtuState && detail == r.mtuDetail then Some(1.0) else None)
  {
    var labels := l["state" := state]["detail" := detail];
    assert labels["state"] == state && labels["detail"] == detail;
    assert Extends(labels, l);
    var mine := StateLabels(l, r);
    assert mine["state"] == r.mtuState && mine["detail"] == r.mtuDetail;
  }

  // ---------- certificates ----------

  /** Certificates are shown by tls_cert, and by http if it is asked to. */
  predicate ShowsCerts(t: TargetConfig) { t.probeType == TLSCert || (t.probeType == HTTP && t.opts.tlsEmitCertMetrics) }

  lemma ExpiryRead(l: Labels, e: LiveTarget, r: ProbeResult)
    requires e.last == Some(r)
    ensures if ShowsCerts(e.target) && r.certObserved then IsNumber(Seen(l, e, CertExpiry), r.certExpiry) else Seen(l, e, CertExpiry) == None
  {
  }

  lemma {:induction false} DigitsDiffer(m: nat, n: nat)
    ensures Digits(m) == Digits(n) ==> m == n
    decreases m
  {
    if Digits(m) == Digits(n) {
      DigitsLength(m);
      DigitsLength(n);
      var a, b := Digits(m), Digits(n);
      assert a[|a| - 1] == b[|b| - 1];
      if m >= 10 && n >= 10 {
        assert a[..|a| - 1] == Digits(m / 10) && b[..|b| - 1] == Digits(n / 10);
        DigitsDiffer(m / 10, n / 10);
      }
    }
  }

  lemma {:induction false} DigitsLength(n: nat)
    ensures |Digits(n)| >= 1 && (n >= 10 ==> |Digits(n)| >= 2)
  {
    if n >= 10 { DigitsLength(n / 10); }
  }

  lemma {:induction false} ChainRead(l: Labels, certs: seq<Option<Certificate>>, n: nat, i: nat)
    requires i < n <= |certs| && certs[i].Some?
    ensures ChainValue(l, certs, n, CertLabels(l, i, certs[i].value)) == Some(certs[i].value.notAfter as real)
  {
    if i < n - 1 {
      DigitsDiffer(i, n - 1);
      if certs[n - 1].Some? {
        assert CertLabels(l, i, certs[i].value)["cert_index"] == Digits(i);
        assert CertLabels(l, n - 1, certs[n - 1].value)["cert_index"] == Digits(n - 1);
      }
      ChainRead(l, certs, n - 1, i);
    }
  }

  function RoleName(i: nat, c: Certificate): string {
    if c.selfIssued && i != 0 then "root" else if i != 0 then "intermediate" else "leaf"
  }

  /** The i-th certificate of the chain is shown at its place, in its role, with its own expiry. */
  lemma CertRead(l: Labels, e: LiveTarget, r: ProbeResult, i: nat)
    requires e.last == Some(r) && i < |r.tlsCertificates| && r.tlsCertificates[i].Some? && "cert_index" !in l && "cert_role" !in l
    ensures var c := r.tlsCertificates[i].value;
      var v := VisibleAt(l, e, Series(CertChainExpiry, l["cert_index" := Digits(i)]["cert_role" := RoleName(i, c)]));
      if ShowsCerts(e.target) then IsNumber(v, c.notAfter) else v == None
  {
    var c := r.tlsCertificates[i].value;
    var labels := CertLabels(l, i, c);
    assert labels == l["cert_index" := Digits(i)]["cert_role" := RoleName(i, c)];
    assert Extends(labels, l);
    ChainRead(l, r.tlsCertificates, |r.tlsCertificates|, i);
  }

  /** The index label is the position in decimal. */
  lemma DigitsRead()
    ensures Digits(0) == "0" && Digits(7) == "7" && Digits(12) == "12"
    ensures forall n: nat | n >= 10 :: Digits(n) == Digits(n / 10) + Digits(n % 10)
  {
    assert Digits(12) == Digits(1) + Digits(2);
  }
}
