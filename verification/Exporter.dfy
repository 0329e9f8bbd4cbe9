/** The Prometheus exporter as a store of series (internal/metrics/metrics.go).

    A series is a metric vector plus a label map; the store maps series to values. The effect of
    each exporter operation is specified pointwise: the value of one series after the operation as
    a function of its value before. */
module Exporter {
  import opened Targets
  import opened Ordering

  type Labels = map<string, string>

  /** The metric vectors whose series belong to a target. */
  datatype Metric =
    | Success | Duration | Timeout | Interval | TimedOut | PhaseDuration
    | HttpStatus | ProxyConnectStatus
    | CertExpiry | CertChainExpiry
    | PacketLoss | AvgRTT | StddevRTT
    | MtuBytes | MtuState
    | DnsResolveTime | DnsResultMatch
    | HttpBodyMatch | HttpTruncated
    | SkippedOverlap
    | TargetProxyInfo

  /** The vectors DeleteTarget clears with one exact delete each. */
  const CommonVectors: set<Metric> := {
    Success, Duration, Timeout, Interval, TimedOut, ProxyConnectStatus, HttpStatus, CertExpiry,
    PacketLoss, AvgRTT, StddevRTT, MtuBytes, SkippedOverlap, DnsResolveTime, DnsResultMatch,
    HttpBodyMatch, HttpTruncated}

  datatype Series = Series(metric: Metric, labels: Labels)

  /** What a scrape of the store shows for each series. */
  type Scrape = Series -> Option<real>

  const BaseLabelList: seq<string> := ["target", "target_name", "probe_type", "proxy_name"]
  const BaseLabels: set<string> := {"target", "target_name", "probe_type", "proxy_name"}
  const ExtraLabels: set<string> := {"phase", "cert_index", "cert_role", "state", "detail"}

  /** The labels that one vector adds to the common ones. */
  function AddedLabels(m: Metric): seq<string> {
    match m
    case PhaseDuration => ["phase"]
    case CertChainExpiry => ["cert_index", "cert_role"]
    case MtuState => ["state", "detail"]
    case _ => []
  }

  /** The label list a vector is created with. */
  function LabelList(tagKeys: seq<string>, m: Metric): seq<string> {
    if m == TargetProxyInfo then ["target_name", "proxy_name", "proxy_endpoint"] else BaseLabelList + tagKeys + AddedLabels(m)
  }

  /** The client library reserves label names that begin with two underscores and refuses a vector with one. */
  predicate ReservedPrefix(k: string) { |k| >= 2 && k[0] == '_' && k[1] == '_' }

  /** A vector the client library registers: no label twice and none reserved. That names are well-formed is
      the pattern validation itself applies. */
  predicate Registers(labels: seq<string>) { Distinct(labels) && forall k <- labels :: !ReservedPrefix(k) }

  /** Registration does not panic. */
  ghost predicate Registrable(tagKeys: seq<string>) { forall m: Metric :: Registers(LabelList(tagKeys, m)) }

  /** No tag key is a label that the exporter sets itself. */
  predicate Unclashing(tagKeys: seq<string>) {
    forall k <- tagKeys :: k !in BaseLabels && k !in ExtraLabels
  }

  predicate Unreserved(tagKeys: seq<string>) { forall k <- tagKeys :: !ReservedPrefix(k) }

  /** The label names a vector was registered with. */
  function LabelNames(tagKeys: seq<string>, m: Metric): set<string> {
    if m == TargetProxyInfo then {"target_name", "proxy_name", "proxy_endpoint"}
    else BaseLabels + Elements(tagKeys) + Elements(AddedLabels(m))
  }

  lemma LabelNamesAreListed(tagKeys: seq<string>, m: Metric)
    ensures LabelNames(tagKeys, m) == Elements(LabelList(tagKeys, m))
  {
    assert Elements(BaseLabelList) == BaseLabels;
    forall k ensures k in LabelNames(tagKeys, m) <==> k in LabelList(tagKeys, m) { }
  }

  lemma AddedIsExtra(m: Metric, k: string)
    ensures k in AddedLabels(m) ==> k in ExtraLabels
    ensures k in ExtraLabels ==> k in AddedLabels(PhaseDuration) || k in AddedLabels(CertChainExpiry) || k in AddedLabels(MtuState)
    ensures Distinct(AddedLabels(m)) && ExtraLabels !! BaseLabels && Distinct(BaseLabelList)
  {
  }

  /** A list in three distinct parts names no label twice exactly if the parts share none. */
  lemma DistinctParts(a: seq<string>, b: seq<string>, c: seq<string>)
    requires Distinct(a) && Distinct(b) && Distinct(c) && Elements(a) !! Elements(c)
    ensures Distinct(a + b + c) <==> Elements(b) !! Elements(a) && Elements(b) !! Elements(c)
  {
    var all := a + b + c;
    assert forall i | 0 <= i < |a| :: all[i] == a[i] && a[i] in Elements(a);
    assert forall i | 0 <= i < |b| :: all[|a| + i] == b[i] && b[i] in Elements(b);
    assert forall i | 0 <= i < |c| :: all[|a| + |b| + i] == c[i] && c[i] in Elements(c);
    if Distinct(all) {
      forall k <- b ensures k !in a && k !in c {
        var j :| 0 <= j < |b| && b[j] == k;
        assert all[|a| + j] == k;
      }
    }
    if Elements(b) !! Elements(a) && Elements(b) !! Elements(c) {
      forall i, j | 0 <= i < j < |all| ensures all[i] != all[j] {
        assert all[i] == if i < |a| then a[i] else if i < |a| + |b| then b[i - |a|] else c[i - |a| - |b|];
        assert all[j] == if j < |a| then a[j] else if j < |a| + |b| then b[j - |a|] else c[j - |a| - |b|];
      }
    }
  }

  /** The exporter's own labels are not reserved, so only tag keys can be. */
  lemma ReservedAreTags(tagKeys: seq<string>, m: Metric)
    ensures m != TargetProxyInfo ==> (Unreserved(LabelList(tagKeys, m)) <==> Unreserved(tagKeys))
    ensures m == TargetProxyInfo ==> Unreserved(LabelList(tagKeys, m))
  {
    assert Unreserved(BaseLabelList) && Unreserved(AddedLabels(m));
    assert m != TargetProxyInfo ==> forall k <- tagKeys :: k in LabelList(tagKeys, m);
  }

  /** The vectors register exactly if the tag keys are distinct, none is one of the exporter's own labels and
      none is reserved. */
  lemma RegistersIff(tagKeys: seq<string>)
    ensures Registrable(tagKeys) <==> Distinct(tagKeys) && Unclashing(tagKeys) && Unreserved(tagKeys)
  {
    if Registrable(tagKeys) {
      var list := LabelList(tagKeys, Success);
      assert Registers(list);
      assert forall i | 0 <= i < |tagKeys| :: tagKeys[i] == list[|BaseLabelList| + i];
      ReservedAreTags(tagKeys, Success);
    }
    if Distinct(tagKeys) {
      DistinctRegistersIff(tagKeys);
      forall m: Metric | Unclashing(tagKeys) && Unreserved(tagKeys) ensures Registers(LabelList(tagKeys, m)) {
        ReservedAreTags(tagKeys, m);
      }
      assert Registrable(tagKeys) ==> forall m: Metric :: Distinct(LabelList(tagKeys, m)) by {
        assert forall m: Metric :: Registers(LabelList(tagKeys, m)) ==> Distinct(LabelList(tagKeys, m));
      }
    }
  }

  lemma DistinctRegistersIff(tagKeys: seq<string>)
    requires Distinct(tagKeys)
    ensures (forall m: Metric :: Distinct(LabelList(tagKeys, m))) <==> Unclashing(tagKeys)
  {
    forall m: Metric | m != TargetProxyInfo
      ensures Distinct(LabelList(tagKeys, m)) <==> Elements(tagKeys) !! Elements(BaseLabelList) && Elements(tagKeys) !! Elements(AddedLabels(m))
    {
      VectorRegistersIff(tagKeys, m);
    }
    assert Elements(BaseLabelList) == BaseLabels;
    if forall m: Metric :: Distinct(LabelList(tagKeys, m)) {
      assert Distinct(LabelList(tagKeys, PhaseDuration)) && Distinct(LabelList(tagKeys, CertChainExpiry)) && Distinct(LabelList(tagKeys, MtuState));
      forall k <- tagKeys ensures k !in BaseLabels && k !in ExtraLabels {
        assert k in Elements(tagKeys);
        AddedIsExtra(Success, k);
      }
    }
    if Unclashing(tagKeys) {
      forall m: Metric ensures Distinct(LabelList(tagKeys, m)) {
        forall k ensures k in AddedLabels(m) ==> k in ExtraLabels { AddedIsExtra(m, k); }
      }
    }
  }

  lemma VectorRegistersIff(tagKeys: seq<string>, m: Metric)
    requires Distinct(tagKeys) && m != TargetProxyInfo
    ensures Distinct(LabelList(tagKeys, m)) <==> Elements(tagKeys) !! Elements(BaseLabelList) && Elements(tagKeys) !! Elements(AddedLabels(m))
  {
    assert Elements(BaseLabelList) == BaseLabels;
    forall k ensures k in AddedLabels(m) ==> k !in BaseLabels { AddedIsExtra(m, k); }
    AddedIsExtra(m, "");
    DistinctParts(BaseLabelList, tagKeys, AddedLabels(m));
  }

  function TagValue(t: TargetConfig, key: string): string {
    if key in t.tags then t.tags[key] else ""
  }

  function BaseLabelsOf(t: TargetConfig): Labels {
    map["target" := t.address, "target_name" := t.name,
        "probe_type" := t.probeType.Text(), "proxy_name" := t.proxyName]
  }

  /** The common labels of a target's series. */
  function LabelsOf(tagKeys: seq<string>, t: TargetConfig): Labels {
    BaseLabelsOf(t) + (map k | k in tagKeys :: TagValue(t, k))
  }

  /** DeletePartialMatch selects the series whose labels agree with `part` wherever `part` is defined. */
  predicate Extends(labels: Labels, part: Labels) {
    forall l <- part :: l in labels && labels[l] == part[l]
  }

  /** The target a series belongs to, read off its labels. */
  predicate OwnedBy(k: Series, name: string) {
    "target_name" in k.labels && k.labels["target_name"] == name
  }

  // ---------- values ----------

  function Bit(b: bool): real { if b then 1.0 else 0.0 }

  function Seconds(ns: int): real { ns as real / 1000000000.0 }

  function When(shown: bool, v: real): Option<real> { if shown then Some(v) else None }

  function Digits(n: nat): string {
    if n < 10 then [(n + '0' as int) as char] else Digits(n / 10) + [(n % 10 + '0' as int) as char]
  }

  function CertRole(i: nat, c: Certificate): string {
    if i == 0 then "leaf" else if c.selfIssued then "root" else "intermediate"
  }

  function PhaseLabels(l: Labels, phase: string): Labels { l["phase" := phase] }

  function CertLabels(l: Labels, i: nat, c: Certificate): Labels {
    l["cert_index" := Digits(i)]["cert_role" := CertRole(i, c)]
  }

  function StateLabels(l: Labels, r: ProbeResult): Labels {
    l["state" := r.mtuState]["detail" := r.mtuDetail]
  }

  function ProxyInfoLabels(t: TargetConfig): Labels
    requires t.resolvedProxy.Some?
  {
    map["target_name" := t.name, "proxy_name" := t.proxyName,
        "proxy_endpoint" := t.resolvedProxy.value.identity.endpoint]
  }

  predicate HasProxyInfo(t: TargetConfig) { t.resolvedProxy.Some? && t.proxyName != "" }

  /** The chain expiry shown under `labels` by the first n certificates; a later one wins. */
  function ChainValue(l: Labels, certs: seq<Option<Certificate>>, n: nat, labels: Labels): Option<real>
    requires n <= |certs|
  {
    if n == 0 then None
    else if certs[n - 1].Some? && labels == CertLabels(l, n - 1, certs[n - 1].value) then
      Some(certs[n - 1].value.notAfter as real)
    else ChainValue(l, certs, n - 1, labels)
  }

  predicate ObservesConnect(p: ProbeType) { p in {ProxyConnect, HTTP, HTTPBody, TLSCert} }

  // ---------- pointwise effects ----------

  /** The value of series `k` after Record(t, r), given its value before. */
  function AfterRecord(l: Labels, t: TargetConfig, r: ProbeResult, k: Series, before: Option<real>): Option<real> {
    if k.metric == PhaseDuration then AfterPhases(l, r, k, before)
    else if k.metric in {CertExpiry, CertChainExpiry} then AfterTLS(l, t, r, k, before)
    else if k.metric in {MtuState, MtuBytes} then
      if t.probeType == MTU then AfterMTU(l, r, k, before) else before
    else if k.labels == l then AfterGauge(t, r, k.metric, before)
    else before
  }

  /** The vectors that carry the common labels only. */
  function AfterGauge(t: TargetConfig, r: ProbeResult, m: Metric, before: Option<real>): Option<real> {
    var p := t.probeType;
    match m
    case Success => Some(Bit(r.success))
    case Duration => Some(Seconds(r.duration))
    case TimedOut => Some(Bit(r.timedOut))
    case ProxyConnectStatus =>
      if ObservesConnect(p) then When(r.proxyConnectResponseReceived, r.proxyConnectStatusCode as real) else before
    case HttpStatus => if p in {HTTP, HTTPBody} then When(r.httpResponseReceived, r.statusCode as real) else before
    case HttpTruncated => if p == HTTP then When(r.httpTruncationEvaluated, Bit(r.httpResponseTruncated)) else before
    case PacketLoss => if p == ICMP then Some(r.packetLoss) else before
    case AvgRTT => if p in {ICMP, MTU} then When(r.icmpRepliesObserved >= 1, Seconds(r.icmpAvgRTT)) else before
    case StddevRTT => if p == ICMP then When(r.icmpRepliesObserved >= 2, Seconds(r.icmpStddevRTT)) else before
    case DnsResolveTime => if p == DNS then Some(Seconds(r.dnsResolveTime)) else before
    case DnsResultMatch => if p == DNS then When(r.dnsMatchEvaluated, Bit(r.dnsMatched)) else before
    case HttpBodyMatch => if p == HTTPBody then When(r.httpBodyEvaluated, Bit(r.bodyMatch)) else before
    case _ => before
  }

  predicate IsPhaseOf(k: Series, l: Labels) {
    k.metric == PhaseDuration && "phase" in k.labels && k.labels == PhaseLabels(l, k.labels["phase"])
  }

  function AfterPhases(l: Labels, r: ProbeResult, k: Series, before: Option<real>): Option<real> {
    if IsPhaseOf(k, l) && k.labels["phase"] in r.phases then Some(Seconds(r.phases[k.labels["phase"]]))
    else AfterDeletePhases(l, AllPhases, k, before)
  }

  function AfterDeletePhases(l: Labels, phases: seq<string>, k: Series, before: Option<real>): Option<real> {
    if IsPhaseOf(k, l) && k.labels["phase"] in phases then None else before
  }

  function AfterClearCerts(l: Labels, k: Series, before: Option<real>): Option<real> {
    if k == Series(CertExpiry, l) || (k.metric == CertChainExpiry && Extends(k.labels, l)) then None else before
  }

  function AfterCerts(l: Labels, r: ProbeResult, k: Series, before: Option<real>): Option<real> {
    if k == Series(CertExpiry, l) then When(r.certObserved, r.certExpiry as real)
    else if k.metric == CertChainExpiry && Extends(k.labels, l) then
      ChainValue(l, r.tlsCertificates, |r.tlsCertificates|, k.labels)
    else before
  }

  /** HTTP targets that do not emit certificate metrics clear them; TLS targets always rewrite them. */
  function AfterTLS(l: Labels, t: TargetConfig, r: ProbeResult, k: Series, before: Option<real>): Option<real> {
    if t.probeType == TLSCert || (t.probeType == HTTP && t.opts.tlsEmitCertMetrics) then AfterCerts(l, r, k, before)
    else if t.probeType == HTTP then AfterClearCerts(l, k, before)
    else before
  }

  function AfterMTU(l: Labels, r: ProbeResult, k: Series, before: Option<real>): Option<real> {
    if k.metric == MtuState && Extends(k.labels, l) then When(k.labels == StateLabels(l, r), 1.0)
    else if k == Series(MtuBytes, l) then When(r.pathMTU > 0, r.pathMTU as real)
    else before
  }

  function AfterEnsure(l: Labels, t: TargetConfig, k: Series, before: Option<real>): Option<real> {
    var exact := k.labels == l;
    match k.metric
    case Timeout => if exact then Some(Seconds(t.timeout)) else before
    case Interval => if exact then Some(Seconds(t.interval)) else before
    case SkippedOverlap => if exact && before.None? then Some(0.0) else before
    case TargetProxyInfo => AfterProxyInfo(t, k, before)
    case _ => before
  }

  function AfterProxyInfo(t: TargetConfig, k: Series, before: Option<real>): Option<real> {
    if k.metric == TargetProxyInfo && HasProxyInfo(t) && k.labels == ProxyInfoLabels(t) then Some(1.0) else before
  }

  function AfterIncr(l: Labels, t: TargetConfig, k: Series, before: Option<real>): Option<real> {
    if k.metric == SkippedOverlap && k.labels == l then
      Some((if before.Some? then before.value else 0.0) + 1.0)
    else before
  }

  function AfterDelete(l: Labels, t: TargetConfig, k: Series, before: Option<real>): Option<real> {
    if k.metric == PhaseDuration then AfterDeletePhases(l, AllPhases, k, before)
    else if k.metric == TargetProxyInfo then AfterDeleteProxyInfo(t, k, before)
    else AfterDeleteVectors(l, k, before)
  }

  function AfterDeleteVectors(l: Labels, k: Series, before: Option<real>): Option<real> {
    if k.metric in CommonVectors then if k.labels == l then None else before
    else if k.metric in {CertChainExpiry, MtuState} && Extends(k.labels, l) then None
    else before
  }

  function AfterDeleteProxyInfo(t: TargetConfig, k: Series, before: Option<real>): Option<real> {
    if k.metric == TargetProxyInfo && (if HasProxyInfo(t) then k.labels == ProxyInfoLabels(t) else OwnedBy(k, t.name))
    then None else before
  }

  // ---------- what a live target shows ----------

  /** A target that was ensured: its last recorded result and its number of counted overlaps. */
  datatype LiveTarget = LiveTarget(target: TargetConfig, last: Option<ProbeResult>, overlaps: nat)

  /** The value of series `k` for a live target: a function of its configuration, its overlap count
      and its last result only. */
  function VisibleAt(l: Labels, e: LiveTarget, k: Series): Option<real> {
    var idle :=
      if k.metric == SkippedOverlap && k.labels == l then Some(e.overlaps as real)
      else AfterEnsure(l, e.target, k, None);
    if e.last.None? then idle else AfterRecord(l, e.target, e.last.value, k, idle)
  }

  lemma LabelsNameTheTarget(tagKeys: seq<string>, t: TargetConfig)
    requires Unclashing(tagKeys)
    ensures NamedBy(LabelsOf(tagKeys, t), t)
  {
  }

  predicate NamedBy(l: Labels, t: TargetConfig) {
    "target_name" in l && l["target_name"] == t.name
  }

  /** An operation on a target changes no series of a target with another name. */
  lemma EffectsAreFramed(l: Labels, t: TargetConfig, r: ProbeResult, k: Series, before: Option<real>)
    requires NamedBy(l, t) && !OwnedBy(k, t.name)
    ensures AfterRecord(l, t, r, k, before) == before
    ensures AfterEnsure(l, t, k, before) == before
    ensures AfterIncr(l, t, k, before) == before
    ensures AfterDelete(l, t, k, before) == before
  {
    assert k.labels != l && !Extends(k.labels, l) && !IsPhaseOf(k, l);
  }

  /** The last result absorbs every earlier one. */
  lemma RecordAbsorbs(l: Labels, t: TargetConfig, r: ProbeResult, r': ProbeResult, k: Series, before: Option<real>)
    requires PhasesKnown(r)
    ensures AfterRecord(l, t, r', k, AfterRecord(l, t, r, k, before)) == AfterRecord(l, t, r', k, before)
  {
    if k.metric == PhaseDuration {
    } else if k.metric in {CertExpiry, CertChainExpiry} {
    } else if k.metric in {MtuState, MtuBytes} {
    } else {
      GaugeAbsorbs(t, r, r', k.metric, before);
    }
  }

  lemma GaugeAbsorbs(t: TargetConfig, r: ProbeResult, r': ProbeResult, m: Metric, before: Option<real>)
    ensures AfterGauge(t, r', m, AfterGauge(t, r, m, before)) == AfterGauge(t, r', m, before)
  {
  }

  /** The value of series `k` after Record(t, rs[0]), Record(t, rs[1]), ... */
  function AfterRecords(l: Labels, t: TargetConfig, rs: seq<ProbeResult>, k: Series, before: Option<real>): Option<real> {
    if rs == [] then before
    else AfterRecord(l, t, rs[|rs| - 1], k, AfterRecords(l, t, rs[..|rs| - 1], k, before))
  }

  /** History independence: any number of records leaves what the last one alone would have left. */
  lemma {:induction false} OnlyLastResultMatters(l: Labels, t: TargetConfig, rs: seq<ProbeResult>, k: Series, before: Option<real>)
    requires rs != [] && forall r <- rs :: PhasesKnown(r)
    ensures AfterRecords(l, t, rs, k, before) == AfterRecord(l, t, rs[|rs| - 1], k, before)
  {
    var init := rs[..|rs| - 1];
    if init != [] {
      OnlyLastResultMatters(l, t, init, k, before);
      RecordAbsorbs(l, t, init[|init| - 1], rs[|rs| - 1], k, before);
    }
  }

  /** Nothing of an earlier result stays visible: phases, certificates, MTU state and status codes
      on display all belong to the last result. */
  lemma NoResidue(l: Labels, e: LiveTarget, k: Series)
    requires VisibleAt(l, e, k).Some?
    ensures k.metric == PhaseDuration ==> e.last.Some? && IsPhaseOf(k, l) && k.labels["phase"] in e.last.value.phases
    ensures k.metric == MtuState ==> e.last.Some? && k.labels == StateLabels(l, e.last.value)
    ensures k.metric == HttpStatus ==> e.last.Some? && e.last.value.httpResponseReceived
    ensures k.metric == ProxyConnectStatus ==> e.last.Some? && e.last.value.proxyConnectResponseReceived
    ensures k.metric == CertChainExpiry ==> e.last.Some? && ShowsCert(l, e.last.value.tlsCertificates, k.labels)
  {
    if k.metric == CertChainExpiry {
      ChainShowsCert(l, e.last.value.tlsCertificates, |e.last.value.tlsCertificates|, k.labels);
    }
  }

  ghost predicate ShowsCert(l: Labels, certs: seq<Option<Certificate>>, labels: Labels) {
    exists i :: 0 <= i < |certs| && certs[i].Some? && labels == CertLabels(l, i, certs[i].value)
  }

  lemma {:induction false} ChainShowsCert(l: Labels, certs: seq<Option<Certificate>>, n: nat, labels: Labels)
    requires n <= |certs| && ChainValue(l, certs, n, labels).Some?
    ensures ShowsCert(l, certs, labels)
  {
    if !(certs[n - 1].Some? && labels == CertLabels(l, n - 1, certs[n - 1].value)) {
      ChainShowsCert(l, certs, n - 1, labels);
    }
  }

  lemma RecordShows(l: Labels, e: LiveTarget, r: ProbeResult, k: Series)
    requires e.last.Some? ==> PhasesKnown(e.last.value)
    ensures AfterRecord(l, e.target, r, k, VisibleAt(l, e, k)) == VisibleAt(l, e.(last := Some(r)), k)
  {
    if e.last.Some? {
      RecordAbsorbs(l, e.target, e.last.value, r, k, VisibleAt(l, e.(last := None), k));
    }
  }

  lemma IncrShows(l: Labels, e: LiveTarget, k: Series)
    ensures AfterIncr(l, e.target, k, VisibleAt(l, e, k)) == VisibleAt(l, e.(overlaps := e.overlaps + 1), k)
  {
  }

  lemma EnsureShows(l: Labels, t: TargetConfig, k: Series)
    ensures AfterEnsure(l, t, k, None) == VisibleAt(l, LiveTarget(t, None, 0), k)
  {
  }

  /** A value that tells of a recorded result or a counted skip. */
  predicate Telling(k: Series, v: Option<real>) {
    v.Some? && (k.metric == Success || (k.metric == SkippedOverlap && v.value > 0.0))
  }

  /** Nothing but a delete takes such a value away. */
  lemma TellingStays(l: Labels, t: TargetConfig, r: ProbeResult, k: Series, before: Option<real>)
    requires Telling(k, before)
    ensures Telling(k, AfterRecord(l, t, r, k, before)) && Telling(k, AfterIncr(l, t, k, before)) && Telling(k, AfterEnsure(l, t, k, before))
  {
  }

  /** A delete does, and any write after it makes one. */
  lemma WriteTells(l: Labels, t: TargetConfig, r: ProbeResult, before: Option<real>)
    ensures AfterDelete(l, t, Series(SkippedOverlap, l), before) == None
    ensures Telling(Series(Success, l), AfterRecord(l, t, r, Series(Success, l), before))
    ensures Telling(Series(SkippedOverlap, l), AfterIncr(l, t, Series(SkippedOverlap, l), None))
  {
  }

  /** A target that has recorded and skipped nothing shows none. */
  lemma IdleTellsNothing(l: Labels, t: TargetConfig, k: Series)
    ensures !Telling(k, VisibleAt(l, LiveTarget(t, None, 0), k))
  {
  }

  /** Deleting a live target leaves none of its series. */
  lemma DeleteShowsNothing(l: Labels, e: LiveTarget, k: Series)
    requires e.last.Some? ==> PhasesKnown(e.last.value)
    ensures AfterDelete(l, e.target, k, VisibleAt(l, e, k)) == None
  {
    if k.metric == PhaseDuration {
    } else if k.metric == TargetProxyInfo {
    } else {
      assert k.metric in CommonVectors || k.metric in {CertChainExpiry, MtuState};
    }
  }

  // ---------- the exporter object ----------

  /** The share of Record done before the phases are rewritten. */
  function AfterCommon(l: Labels, t: TargetConfig, r: ProbeResult, k: Series, before: Option<real>): Option<real> {
    if k.labels == l && k.metric in {Success, Duration, TimedOut, ProxyConnectStatus} then AfterGauge(t, r, k.metric, before)
    else before
  }

  /** The share of Record that depends on the probe type. */
  function AfterTyped(l: Labels, t: TargetConfig, r: ProbeResult, k: Series, before: Option<real>): Option<real> {
    if k.metric in {CertExpiry, CertChainExpiry} then AfterTLS(l, t, r, k, before)
    else if k.metric in {MtuState, MtuBytes} then
      if t.probeType == MTU then AfterMTU(l, r, k, before) else before
    else if k.labels == l && k.metric !in {Success, Duration, TimedOut, ProxyConnectStatus, PhaseDuration} then
      AfterGauge(t, r, k.metric, before)
    else before
  }

  /** The phases of `r` outside `todo` have been set. */
  function AfterSomePhases(l: Labels, r: ProbeResult, todo: set<string>, k: Series, before: Option<real>): Option<real> {
    if IsPhaseOf(k, l) && k.labels["phase"] in r.phases && k.labels["phase"] !in todo then
      Some(Seconds(r.phases[k.labels["phase"]]))
    else before
  }

  lemma LabelsStep(tagKeys: seq<string>, t: TargetConfig, key: string)
    ensures LabelsOf(tagKeys + [key], t) == LabelsOf(tagKeys, t)[key := TagValue(t, key)]
  {
  }

  lemma LabelsKeys(tagKeys: seq<string>, t: TargetConfig)
    ensures LabelsOf(tagKeys, t).Keys == LabelNames(tagKeys, Success)
  {
    assert BaseLabelsOf(t).Keys == BaseLabels;
  }

  /** The first n certificates of the chain have been set. */
  function AfterChain(l: Labels, certs: seq<Option<Certificate>>, n: nat, k: Series, before: Option<real>): Option<real>
    requires n <= |certs|
  {
    if k.metric == CertChainExpiry && ChainValue(l, certs, n, k.labels).Some? then ChainValue(l, certs, n, k.labels) else before
  }

  lemma {:induction false} ChainExtends(l: Labels, certs: seq<Option<Certificate>>, n: nat, labels: Labels)
    requires n <= |certs| && "cert_index" !in l && "cert_role" !in l
    ensures ChainValue(l, certs, n, labels).Some? ==> Extends(labels, l)
  {
    if n > 0 { ChainExtends(l, certs, n - 1, labels); }
  }

  lemma CertNames(tagKeys: seq<string>, labels: Labels, i: nat, c: Certificate)
    requires labels.Keys == LabelNames(tagKeys, Success)
    ensures CertLabels(labels, i, c).Keys == LabelNames(tagKeys, CertChainExpiry)
  {
  }

  function Get(store: map<Series, real>, k: Series): Option<real> {
    if k in store then Some(store[k]) else None
  }

  class MetricsExporter {
    const tagKeys: seq<string>
    var store: map<Series, real>

    /** Registration of the vectors succeeded. */
    ghost predicate Valid()
    {
      Unclashing(tagKeys)
    }

    constructor (tagKeys: seq<string>)
      requires Registrable(tagKeys)
      ensures Valid() && this.tagKeys == tagKeys && store == map[]
    {
      RegistersIff(tagKeys);
      this.tagKeys := tagKeys;
      store := map[];
    }

    /** `vec.With(labels).Set(v)`; With panics unless the label names are those of the vector's list. */
    method Set(m: Metric, labels: Labels, v: real)
      requires Valid() && labels.Keys == LabelNames(tagKeys, m)
      modifies this
      ensures forall k :: Get(store, k) == if k == Series(m, labels) then Some(v) else Get(old(store), k)
    {
      assert labels.Keys == Elements(LabelList(tagKeys, m)) by { LabelNamesAreListed(tagKeys, m); }
      store := store[Series(m, labels) := v];
    }

    /** `vec.Delete(labels)` */
    method Delete(m: Metric, labels: Labels)
      requires Valid()
      modifies this
      ensures forall k :: Get(store, k) == if k == Series(m, labels) then None else Get(old(store), k)
    {
      store := store - {Series(m, labels)};
    }

    /** Set when the observation is present, delete otherwise. */
    method SetOrDelete(m: Metric, labels: Labels, shown: bool, v: real)
      requires Valid() && labels.Keys == LabelNames(tagKeys, m)
      modifies this
      ensures forall k :: Get(store, k) == if k == Series(m, labels) then When(shown, v) else Get(old(store), k)
    {
      if shown { Set(m, labels, v); } else { Delete(m, labels); }
    }

    /** `vec.DeletePartialMatch(labels)` */
    method DeletePartialMatch(m: Metric, labels: Labels)
      requires Valid()
      modifies this
      ensures forall k :: Get(store, k) == if k.metric == m && Extends(k.labels, labels) then None else Get(old(store), k)
    {
      store := map k | k in store && !(k.metric == m && Extends(k.labels, labels)) :: store[k];
    }

    method BuildLabels(t: TargetConfig) returns (labels: Labels)
      requires Valid()
      ensures labels == LabelsOf(tagKeys, t)
      ensures labels.Keys == LabelNames(tagKeys, Success)
    {
      labels := BaseLabelsOf(t);
      for i := 0 to |tagKeys|
        invariant labels == LabelsOf(tagKeys[..i], t)
      {
        LabelsStep(tagKeys[..i], t, tagKeys[i]);
        assert tagKeys[..i + 1] == tagKeys[..i] + [tagKeys[i]];
        labels := labels[tagKeys[i] := TagValue(t, tagKeys[i])];
      }
      assert tagKeys[..|tagKeys|] == tagKeys;
      LabelsKeys(tagKeys, t);
    }

    method Record(t: TargetConfig, r: ProbeResult)
      requires Valid()
      modifies this
      ensures forall k :: Get(store, k) == AfterRecord(LabelsOf(tagKeys, t), t, r, k, Get(old(store), k))
    {
      var labels := BuildLabels(t);
      RecordAt(labels, t, r);
    }

    method RecordAt(labels: Labels, t: TargetConfig, r: ProbeResult)
      requires Valid() && labels.Keys == LabelNames(tagKeys, Success)
      modifies this
      ensures forall k :: Get(store, k) == AfterRecord(labels, t, r, k, Get(old(store), k))
    {
      RecordCommon(labels, t, r);
      RecordPhases(labels, r);
      RecordTyped(labels, t, r);
    }

    method RecordCommon(labels: Labels, t: TargetConfig, r: ProbeResult)
      requires Valid() && labels.Keys == LabelNames(tagKeys, Success)
      modifies this
      ensures forall k :: Get(store, k) == AfterCommon(labels, t, r, k, Get(old(store), k))
    {
      Set(Success, labels, Bit(r.success));
      Set(Duration, labels, Seconds(r.duration));
      Set(TimedOut, labels, Bit(r.timedOut));
      if ObservesConnect(t.probeType) {
        SetOrDelete(ProxyConnectStatus, labels, r.proxyConnectResponseReceived, r.proxyConnectStatusCode as real);
      }
    }

    /** Delete every known phase series, then set the phases of this result. */
    method RecordPhases(labels: Labels, r: ProbeResult)
      requires Valid() && labels.Keys == LabelNames(tagKeys, Success)
      modifies this
      ensures forall k :: Get(store, k) == AfterPhases(labels, r, k, Get(old(store), k))
    {
      DeletePhases(labels);
      label cleared:
      var todo := r.phases.Keys;
      while todo != {}
        invariant todo <= r.phases.Keys
        invariant forall k :: Get(store, k) == AfterSomePhases(labels, r, todo, k, Get(old@cleared(store), k))
      {
        var phase :| phase in todo;
        Set(PhaseDuration, PhaseLabels(labels, phase), Seconds(r.phases[phase]));
        todo := todo - {phase};
      }
    }

    method DeletePhases(labels: Labels)
      requires Valid()
      modifies this
      ensures forall k :: Get(store, k) == AfterDeletePhases(labels, AllPhases, k, Get(old(store), k))
    {
      for i := 0 to |AllPhases|
        invariant forall k :: Get(store, k) == AfterDeletePhases(labels, AllPhases[..i], k, Get(old(store), k))
      {
        Delete(PhaseDuration, PhaseLabels(labels, AllPhases[i]));
        assert AllPhases[..i + 1] == AllPhases[..i] + [AllPhases[i]];
      }
      assert AllPhases[..|AllPhases|] == AllPhases;
    }

    /** The probe-type-specific vectors. */
    method RecordTyped(labels: Labels, t: TargetConfig, r: ProbeResult)
      requires Valid() && labels.Keys == LabelNames(tagKeys, Success)
      modifies this
      ensures forall k :: Get(store, k) == AfterTyped(labels, t, r, k, Get(old(store), k))
    {
      match t.probeType {
        case HTTP => RecordHTTP(labels, t, r);
        case ICMP => RecordICMP(labels, t, r);
        case MTU => RecordMTU(labels, t, r);
        case DNS => RecordDNS(labels, t, r);
        case TLSCert => RecordTLSResult(labels, r);
        case HTTPBody => RecordHTTPBody(labels, t, r);
        case TCP =>
        case ProxyConnect =>
        case OtherType(_) =>
      }
    }

    method RecordHTTP(labels: Labels, t: TargetConfig, r: ProbeResult)
      requires Valid() && labels.Keys == LabelNames(tagKeys, Success) && t.probeType == HTTP
      modifies this
      ensures forall k :: Get(store, k) == AfterTyped(labels, t, r, k, Get(old(store), k))
    {
      SetOrDelete(HttpStatus, labels, r.httpResponseReceived, r.statusCode as real);
      RecordHTTPCerts(labels, t, r);
      SetOrDelete(HttpTruncated, labels, r.httpTruncationEvaluated, Bit(r.httpResponseTruncated));
    }

    method RecordHTTPCerts(labels: Labels, t: TargetConfig, r: ProbeResult)
      requires Valid() && labels.Keys == LabelNames(tagKeys, Success) && t.probeType == HTTP
      modifies this
      ensures forall k :: Get(store, k) == AfterTLS(labels, t, r, k, Get(old(store), k))
    {
      if t.opts.tlsEmitCertMetrics { RecordTLSResult(labels, r); } else { ClearTLSResult(labels); }
    }

    method RecordICMP(labels: Labels, t: TargetConfig, r: ProbeResult)
      requires Valid() && labels.Keys == LabelNames(tagKeys, Success) && t.probeType == ICMP
      modifies this
      ensures forall k :: Get(store, k) == AfterTyped(labels, t, r, k, Get(old(store), k))
    {
      Set(PacketLoss, labels, r.packetLoss);
      SetOrDelete(AvgRTT, labels, r.icmpRepliesObserved >= 1, Seconds(r.icmpAvgRTT));
      SetOrDelete(StddevRTT, labels, r.icmpRepliesObserved >= 2, Seconds(r.icmpStddevRTT));
    }

    method RecordMTU(labels: Labels, t: TargetConfig, r: ProbeResult)
      requires Valid() && labels.Keys == LabelNames(tagKeys, Success) && t.probeType == MTU
      modifies this
      ensures forall k :: Get(store, k) == AfterTyped(labels, t, r, k, Get(old(store), k))
    {
      RecordMTUResult(labels, r);
      SetOrDelete(AvgRTT, labels, r.icmpRepliesObserved >= 1, Seconds(r.icmpAvgRTT));
    }

    method RecordDNS(labels: Labels, t: TargetConfig, r: ProbeResult)
      requires Valid() && labels.Keys == LabelNames(tagKeys, Success) && t.probeType == DNS
      modifies this
      ensures forall k :: Get(store, k) == AfterTyped(labels, t, r, k, Get(old(store), k))
    {
      Set(DnsResolveTime, labels, Seconds(r.dnsResolveTime));
      SetOrDelete(DnsResultMatch, labels, r.dnsMatchEvaluated, Bit(r.dnsMatched));
    }

    method RecordHTTPBody(labels: Labels, t: TargetConfig, r: ProbeResult)
      requires Valid() && labels.Keys == LabelNames(tagKeys, Success) && t.probeType == HTTPBody
      modifies this
      ensures forall k :: Get(store, k) == AfterTyped(labels, t, r, k, Get(old(store), k))
    {
      SetOrDelete(HttpBodyMatch, labels, r.httpBodyEvaluated, Bit(r.bodyMatch));
      SetOrDelete(HttpStatus, labels, r.httpResponseReceived, r.statusCode as real);
    }

    method ClearTLSResult(labels: Labels)
      requires Valid()
      modifies this
      ensures forall k :: Get(store, k) == AfterClearCerts(labels, k, Get(old(store), k))
    {
      Delete(CertExpiry, labels);
      DeletePartialMatch(CertChainExpiry, labels);
    }

    method RecordTLSResult(labels: Labels, r: ProbeResult)
      requires Valid() && labels.Keys == LabelNames(tagKeys, Success)
      modifies this
      ensures forall k :: Get(store, k) == AfterCerts(labels, r, k, Get(old(store), k))
    {
      ClearTLSResult(labels);
      if r.certObserved {
        Set(CertExpiry, labels, r.certExpiry as real);
      }
      RecordChain(labels, r.tlsCertificates);
      forall k: Series { ChainExtends(labels, r.tlsCertificates, |r.tlsCertificates|, k.labels); }
    }

    /** One entry of the chain, at its place in it. */
    method RecordCert(labels: Labels, i: nat, c: Certificate)
      requires Valid() && labels.Keys == LabelNames(tagKeys, Success)
      modifies this
      ensures forall k :: Get(store, k) == if k == Series(CertChainExpiry, CertLabels(labels, i, c)) then Some(c.notAfter as real) else Get(old(store), k)
    {
      CertNames(tagKeys, labels, i, c);
      Set(CertChainExpiry, CertLabels(labels, i, c), c.notAfter as real);
    }

    method RecordChain(labels: Labels, certs: seq<Option<Certificate>>)
      requires Valid() && labels.Keys == LabelNames(tagKeys, Success)
      modifies this
      ensures forall k :: Get(store, k) == AfterChain(labels, certs, |certs|, k, Get(old(store), k))
    {
      for i := 0 to |certs|
        invariant forall k :: Get(store, k) == AfterChain(labels, certs, i, k, Get(old(store), k))
      {
        if certs[i].Some? { RecordCert(labels, i, certs[i].value); }
      }
    }

    method RecordMTUResult(labels: Labels, r: ProbeResult)
      requires Valid() && labels.Keys == LabelNames(tagKeys, Success)
      modifies this
      ensures forall k :: Get(store, k) == AfterMTU(labels, r, k, Get(old(store), k))
    {
      DeletePartialMatch(MtuState, labels);
      SetOrDelete(MtuBytes, labels, r.pathMTU > 0, r.pathMTU as real);
      Set(MtuState, StateLabels(labels, r), 1.0);
    }

    method DeleteTarget(t: TargetConfig)
      requires Valid()
      modifies this
      ensures forall k :: Get(store, k) == AfterDelete(LabelsOf(tagKeys, t), t, k, Get(old(store), k))
    {
      var labels := BuildLabels(t);
      DeleteTargetAt(labels, t);
    }

    method DeleteTargetAt(labels: Labels, t: TargetConfig)
      requires Valid() && labels.Keys == LabelNames(tagKeys, Success)
      modifies this
      ensures forall k :: Get(store, k) == AfterDelete(labels, t, k, Get(old(store), k))
    {
      DeleteVectors(labels);
      DeleteTargetProxyInfo(t);
      DeletePhases(labels);
    }

    method DeleteVectors(labels: Labels)
      requires Valid()
      modifies this
      ensures forall k :: Get(store, k) == AfterDeleteVectors(labels, k, Get(old(store), k))
    {
      DeleteExact(CommonVectors, labels);
      DeletePartialMatch(CertChainExpiry, labels);
      DeletePartialMatch(MtuState, labels);
    }

    method DeleteExact(ms: set<Metric>, labels: Labels)
      requires Valid()
      modifies this
      ensures forall k :: Get(store, k) == if k.metric in ms && k.labels == labels then None else Get(old(store), k)
    {
      var todo := ms;
      while todo != {}
        invariant todo <= ms
        invariant forall k :: Get(store, k) == if k.metric in ms - todo && k.labels == labels then None else Get(old(store), k)
      {
        var m :| m in todo;
        Delete(m, labels);
        todo := todo - {m};
      }
    }

    method DeleteTargetProxyInfo(t: TargetConfig)
      requires Valid()
      modifies this
      ensures forall k :: Get(store, k) == AfterDeleteProxyInfo(t, k, Get(old(store), k))
    {
      if t.proxyName == "" || t.resolvedProxy.None? {
        DeletePartialMatch(TargetProxyInfo, map["target_name" := t.name]);
        assert forall k: Series :: Extends(k.labels, map["target_name" := t.name]) == OwnedBy(k, t.name);
        return;
      }
      Delete(TargetProxyInfo, ProxyInfoLabels(t));
    }

    method EnsureTarget(t: TargetConfig)
      requires Valid()
      modifies this
      ensures forall k :: Get(store, k) == AfterEnsure(LabelsOf(tagKeys, t), t, k, Get(old(store), k))
    {
      var labels := BuildLabels(t);
      EnsureTargetAt(labels, t);
    }

    method EnsureTargetAt(labels: Labels, t: TargetConfig)
      requires Valid() && labels.Keys == LabelNames(tagKeys, Success)
      modifies this
      ensures forall k :: Get(store, k) == AfterEnsure(labels, t, k, Get(old(store), k))
    {
      Set(Timeout, labels, Seconds(t.timeout));
      Set(Interval, labels, Seconds(t.interval));
      if Series(SkippedOverlap, labels) !in store {
        Set(SkippedOverlap, labels, 0.0);
      }
      EnsureProxyInfo(t);
    }

    method EnsureProxyInfo(t: TargetConfig)
      requires Valid()
      modifies this
      ensures forall k :: Get(store, k) == AfterProxyInfo(t, k, Get(old(store), k))
    {
      if t.resolvedProxy.Some? && t.proxyName != "" {
        Set(TargetProxyInfo, ProxyInfoLabels(t), 1.0);
      }
    }

    method IncrSkippedOverlap(t: TargetConfig)
      requires Valid()
      modifies this
      ensures forall k :: Get(store, k) == AfterIncr(LabelsOf(tagKeys, t), t, k, Get(old(store), k))
    {
      var labels := BuildLabels(t);
      var counter := Series(SkippedOverlap, labels);
      Set(SkippedOverlap, labels, (if counter in store then store[counter] else 0.0) + 1.0);
    }
  }
}
