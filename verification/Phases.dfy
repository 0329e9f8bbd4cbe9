/** Phase timing: buildPhases, buildProxyPhases and their helpers (internal/probe/http.go,
    internal/probe/http_proxy_path.go, internal/probe/prober.go). A zero time.Time is `None`. */
module Phases {
  import opened Targets

  datatype Phase =
    | DNSResolve | TCPConnect | TLSHandshake | RequestWrite | TTFB | Transfer
    | ProxyDial | ProxyTLS | ProxyConnect

  type Stamp = Option<int>

  function Label(p: Phase): string {
    match p
    case DNSResolve => AllPhases[0]
    case TCPConnect => AllPhases[1]
    case TLSHandshake => AllPhases[2]
    case RequestWrite => AllPhases[3]
    case TTFB => AllPhases[4]
    case Transfer => AllPhases[5]
    case ProxyDial => AllPhases[6]
    case ProxyTLS => AllPhases[7]
    case ProxyConnect => AllPhases[8]
  }

  /** Different phases have different labels, so labelling a phase map loses nothing. */
  lemma LabelsDiffer(p: Phase, q: Phase)
    ensures Label(p) == Label(q) ==> p == q
  {
    assert AllPhases[0][0] != AllPhases[1][0] && AllPhases[4][1] != AllPhases[5][1];
    assert AllPhases[6][6] != AllPhases[8][6];
  }

  function Labelled(phases: map<Phase, int>): (r: map<string, int>)
    ensures forall l <- r :: l in AllPhases
    ensures forall p <- phases :: Label(p) in r && r[Label(p)] == phases[p]
  {
    assert forall p, q | p in phases && q in phases && Label(p) == Label(q) :: p == q by {
      forall p, q | p in phases && q in phases && Label(p) == Label(q) ensures p == q { LabelsDiffer(p, q); }
    }
    map p | p in phases :: Label(p) := phases[p]
  }

  function SafeSub(end: int, start: int): (d: nat)
    ensures start <= end ==> start + d == end
    ensures end <= start ==> d == 0
  {
    if end - start < 0 then 0 else end - start
  }

  function AddObservedPhase(phases: map<Phase, int>, phase: Phase, end: Stamp, start: Stamp): map<Phase, int> {
    if start.None? || end.None? then phases else phases[phase := SafeSub(end.value, start.value)]
  }

  /** The later of two stamps; an unobserved one is before any other. */
  function LaterOf(a: Stamp, b: Stamp): (r: Stamp)
    ensures r == a || r == b
    ensures r.None? <==> a.None? && b.None?
    ensures forall t <- [a, b] | t.Some? :: t.value <= r.value
  {
    if a.Some? && (b.None? || a.value > b.value) then a else b
  }

  /** The stamps of a direct exchange, in the order of the exchange. */
  datatype Trace = Trace(
    dnsStart: Stamp, dnsEnd: Stamp, connectStart: Stamp, connectEnd: Stamp, tlsStart: Stamp, tlsEnd: Stamp,
    wroteRequest: Stamp, gotFirstByte: Stamp, transferEnd: Stamp)

  function SetupPhases(t: Trace): map<Phase, int> {
    var p1 := AddObservedPhase(map[], DNSResolve, t.dnsEnd, t.dnsStart);
    var p2 := AddObservedPhase(p1, TCPConnect, t.connectEnd, t.connectStart);
    AddObservedPhase(p2, TLSHandshake, t.tlsEnd, t.tlsStart)
  }

  /** When the request could be written, and what time to first byte counts from. */
  function RequestReady(t: Trace): Stamp { LaterOf(t.tlsEnd, t.connectEnd) }

  function TtfbStart(t: Trace): Stamp { if t.wroteRequest.None? then RequestReady(t) else t.wroteRequest }

  function BuildPhases(t: Trace): map<Phase, int> {
    var p4 := AddObservedPhase(SetupPhases(t), RequestWrite, t.wroteRequest, RequestReady(t));
    var p5 := AddObservedPhase(p4, TTFB, t.gotFirstByte, TtfbStart(t));
    AddObservedPhase(p5, Transfer, t.transferEnd, t.gotFirstByte)
  }

  /** A phase is reported exactly if both its ends were observed, never as a zero placeholder. */
  lemma ReportedIffObserved(t: Trace)
    ensures var p := BuildPhases(t);
      && (DNSResolve in p <==> t.dnsStart.Some? && t.dnsEnd.Some?)
      && (TCPConnect in p <==> t.connectStart.Some? && t.connectEnd.Some?)
      && (TLSHandshake in p <==> t.tlsStart.Some? && t.tlsEnd.Some?)
      && (RequestWrite in p <==> t.wroteRequest.Some? && (t.tlsEnd.Some? || t.connectEnd.Some?))
      && (TTFB in p <==> t.gotFirstByte.Some? && (t.wroteRequest.Some? || t.tlsEnd.Some? || t.connectEnd.Some?))
      && (Transfer in p <==> t.transferEnd.Some? && t.gotFirstByte.Some?)
  {
  }

  /** Plain HTTP: a hostname resolved at 0..1, connected by 2, written at 3, answered at 4, read by 5. */
  const PlainHTTP := Trace(Some(0), Some(1), Some(1), Some(2), None, None, Some(3), Some(4), Some(5))

  /** Its phases have no handshake, not a zero one. */
  lemma PlainHTTPHasNoHandshake()
    ensures TLSHandshake !in BuildPhases(PlainHTTP) && BuildPhases(PlainHTTP).Keys == {DNSResolve, TCPConnect, RequestWrite, TTFB, Transfer}
  {
    ReportedIffObserved(PlainHTTP);
  }

  function BuildProxyPhases(phases: map<Phase, int>, setupEnd: Stamp, wroteRequest: Stamp, gotFirstByte: Stamp, transferEnd: Stamp): map<Phase, int> {
    var p1 := AddObservedPhase(phases, RequestWrite, wroteRequest, setupEnd);
    var p2 := AddObservedPhase(p1, TTFB, gotFirstByte, wroteRequest);
    AddObservedPhase(p2, Transfer, transferEnd, gotFirstByte)
  }

  /** The end of a stretch less its start, or zero if the clock went back. */
  predicate Lasts(phases: map<Phase, int>, p: Phase, start: Stamp, end: Stamp) {
    p in phases && start.Some? && end.Some? && phases[p] == if end.value > start.value then end.value - start.value else 0
  }

  /** What the finished proxy phases say: writing took from the end of setup to the last byte of the request, the first
      byte of the response came after that, and the transfer lasted from there to the end, each exactly if both its
      ends were observed; everything else is as setup left it. */
  lemma ProxyPhasesRead(phases: map<Phase, int>, setupEnd: Stamp, wroteRequest: Stamp, gotFirstByte: Stamp, transferEnd: Stamp)
    requires RequestWrite !in phases && TTFB !in phases && Transfer !in phases
    ensures var p := BuildProxyPhases(phases, setupEnd, wroteRequest, gotFirstByte, transferEnd);
      && (if setupEnd.Some? && wroteRequest.Some? then Lasts(p, RequestWrite, setupEnd, wroteRequest) else RequestWrite !in p)
      && (if wroteRequest.Some? && gotFirstByte.Some? then Lasts(p, TTFB, wroteRequest, gotFirstByte) else TTFB !in p)
      && (if gotFirstByte.Some? && transferEnd.Some? then Lasts(p, Transfer, gotFirstByte, transferEnd) else Transfer !in p)
      && p - {RequestWrite, TTFB, Transfer} == phases
  {
  }

  /** The labels the phases are exported under. */
  lemma LabelsRead()
    ensures Label(DNSResolve) == "dns_resolve" && Label(TCPConnect) == "tcp_connect" && Label(TLSHandshake) == "tls_handshake"
    ensures Label(RequestWrite) == "request_write" && Label(TTFB) == "ttfb" && Label(Transfer) == "transfer"
    ensures Label(ProxyDial) == "proxy_dial" && Label(ProxyTLS) == "proxy_tls" && Label(Phase.ProxyConnect) == "proxy_connect"
  {
  }

  /** A second finalisation adds nothing to the first, and none overwrites what the setup recorded. */
  lemma BuildProxyPhasesIdempotent(phases: map<Phase, int>, setupEnd: Stamp, wroteRequest: Stamp, gotFirstByte: Stamp, transferEnd: Stamp)
    ensures var once := BuildProxyPhases(phases, setupEnd, wroteRequest, gotFirstByte, transferEnd);
      && BuildProxyPhases(once, setupEnd, wroteRequest, gotFirstByte, transferEnd) == once
      && (forall p | p !in {RequestWrite, TTFB, Transfer} :: p in once <==> p in phases)
      && (forall p <- phases | p !in {RequestWrite, TTFB, Transfer} :: once[p] == phases[p])
  {
  }

  // ---------- intervals ----------

  /** What is known of the order: the observed stamps never go back. */
  predicate Ordered(stamps: seq<Stamp>) {
    forall i, j | 0 <= i < j < |stamps| && stamps[i].Some? && stamps[j].Some? :: stamps[i].value <= stamps[j].value
  }

  function Stamps(start: int, t: Trace, end: int): seq<Stamp> {
    [Some(start), t.dnsStart, t.dnsEnd, t.connectStart, t.connectEnd, t.tlsStart, t.tlsEnd,
     t.wroteRequest, t.gotFirstByte, t.transferEnd, Some(end)]
  }

  /** A phase as the stretch of time it stands for. */
  datatype Interval = Interval(phase: Phase, start: int, end: int)

  /** The stretches are forward, follow one another without overlap, and lie within [lo, hi]. */
  predicate Disjoint(spans: seq<Interval>, lo: int, hi: int) {
    if spans == [] then lo <= hi else
      var n := |spans| - 1;
      Disjoint(spans[..n], lo, spans[n].start) && spans[n].start <= spans[n].end <= hi
  }

  /** The phases recorded for the stretches. */
  function Recorded(spans: seq<Interval>): map<Phase, int> {
    if spans == [] then map[] else
      var n := |spans| - 1;
      Recorded(spans[..n])[spans[n].phase := spans[n].end - spans[n].start]
  }

  /** Each stretch is of another phase, in the order of the phases. */
  predicate InPhaseOrder(spans: seq<Interval>, below: nat) {
    if spans == [] then true else
      var n := |spans| - 1;
      InPhaseOrder(spans[..n], Index(spans[n].phase)) && Index(spans[n].phase) < below
  }

  function Index(p: Phase): nat {
    match p
    case ProxyDial => 0
    case ProxyTLS => 1
    case ProxyConnect => 2
    case DNSResolve => 3
    case TCPConnect => 4
    case TLSHandshake => 5
    case RequestWrite => 6
    case TTFB => 7
    case Transfer => 8
  }

  function Value(phases: map<Phase, int>, p: Phase): int { if p in phases then phases[p] else 0 }

  const InOrder: seq<Phase> := [ProxyDial, ProxyTLS, Phase.ProxyConnect, DNSResolve, TCPConnect, TLSHandshake, RequestWrite, TTFB, Transfer]

  /** The sum of the recorded phases among the first `n`. */
  function TotalOf(phases: map<Phase, int>, n: nat): int
    requires n <= |InOrder|
  {
    if n == 0 then 0 else TotalOf(phases, n - 1) + Value(phases, InOrder[n - 1])
  }

  function Total(phases: map<Phase, int>): int { TotalOf(phases, |InOrder|) }

  lemma {:induction false} TotalOfAdds(phases: map<Phase, int>, p: Phase, d: int, n: nat)
    requires p !in phases && n <= |InOrder|
    ensures TotalOf(phases[p := d], n) == TotalOf(phases, n) + if Index(p) < n then d else 0
  {
    if n > 0 {
      TotalOfAdds(phases, p, d, n - 1);
      assert InOrder[n - 1] == p <==> Index(p) == n - 1;
    }
  }

  lemma {:induction false} TotalOfNothing(n: nat)
    requires n <= |InOrder|
    ensures TotalOf(map[], n) == 0
  {
    if n > 0 { TotalOfNothing(n - 1); }
  }

  lemma TotalAdds(phases: map<Phase, int>, p: Phase, d: int)
    requires p !in phases
    ensures Total(phases[p := d]) == Total(phases) + d
  {
    TotalOfAdds(phases, p, d, |InOrder|);
  }

  lemma {:induction false} RecordedInOrder(spans: seq<Interval>, below: nat)
    requires InPhaseOrder(spans, below)
    ensures forall p <- Recorded(spans) :: Index(p) < below
  {
    if spans != [] { RecordedInOrder(spans[..|spans| - 1], Index(spans[|spans| - 1].phase)); }
  }

  /** Disjoint stretches add up to no more than the time they lie in. */
  lemma {:induction false} DisjointTotal(spans: seq<Interval>, lo: int, hi: int, below: nat)
    requires Disjoint(spans, lo, hi) && InPhaseOrder(spans, below)
    ensures 0 <= Total(Recorded(spans)) <= hi - lo
    ensures forall p <- Recorded(spans) :: Recorded(spans)[p] >= 0
  {
    if spans == [] {
      TotalOfNothing(|InOrder|);
    } else {
      var n := |spans| - 1;
      var last := spans[n];
      DisjointTotal(spans[..n], lo, last.start, Index(last.phase));
      RecordedInOrder(spans[..n], Index(last.phase));
      TotalAdds(Recorded(spans[..n]), last.phase, last.end - last.start);
    }
  }

  function AddSpan(spans: seq<Interval>, phase: Phase, end: Stamp, start: Stamp): seq<Interval> {
    if start.None? || end.None? then spans else spans + [Interval(phase, start.value, end.value)]
  }

  /** The end of the last stretch. */
  function Cursor(at: int, end: Stamp, start: Stamp): int { if start.None? || end.None? then at else end.value }

  lemma AddSpanKeeps(spans: seq<Interval>, phase: Phase, end: Stamp, start: Stamp, lo: int, at: int)
    requires Disjoint(spans, lo, at) && InPhaseOrder(spans, Index(phase))
    requires start.Some? && end.Some? ==> at <= start.value <= end.value
    ensures var spans' := AddSpan(spans, phase, end, start);
      && Disjoint(spans', lo, Cursor(at, end, start)) && InPhaseOrder(spans', Index(phase) + 1)
      && Recorded(spans') == AddObservedPhase(Recorded(spans), phase, end, start)
  {
    var spans' := AddSpan(spans, phase, end, start);
    if start.Some? && end.Some? {
      assert spans'[..|spans|] == spans;
      Widen(spans, lo, at, start.value);
    } else {
      WidenOrder(spans, Index(phase), Index(phase) + 1);
    }
  }

  lemma Widen(spans: seq<Interval>, lo: int, hi: int, hi': int)
    requires Disjoint(spans, lo, hi) && hi <= hi'
    ensures Disjoint(spans, lo, hi')
  {
  }

  lemma WidenOrder(spans: seq<Interval>, below: nat, below': nat)
    requires InPhaseOrder(spans, below) && below <= below'
    ensures InPhaseOrder(spans, below')
  {
  }

  /** The stretches `BuildPhases` measures: connection setup, then the exchange. */
  function SetupSpans(t: Trace): seq<Interval> {
    var s1 := AddSpan([], DNSResolve, t.dnsEnd, t.dnsStart);
    var s2 := AddSpan(s1, TCPConnect, t.connectEnd, t.connectStart);
    AddSpan(s2, TLSHandshake, t.tlsEnd, t.tlsStart)
  }

  function Spans(t: Trace): seq<Interval> {
    var s4 := AddSpan(SetupSpans(t), RequestWrite, t.wroteRequest, RequestReady(t));
    var s5 := AddSpan(s4, TTFB, t.gotFirstByte, TtfbStart(t));
    AddSpan(s5, Transfer, t.transferEnd, t.gotFirstByte)
  }

  /** `a` is not after `b`, as far as both were observed. */
  predicate Before(a: Stamp, b: Stamp) { a.Some? && b.Some? ==> a.value <= b.value }

  /** The stamps are ordered along the exchange, whichever were observed, from `start` to `end`. */
  predicate ChainOrdered(start: int, t: Trace, end: int) { Ordered(Stamps(start, t, end)) }

  lemma StampsAre(start: int, t: Trace, end: int)
    ensures var s := Stamps(start, t, end);
      && s[0] == Some(start) && s[1] == t.dnsStart && s[2] == t.dnsEnd && s[3] == t.connectStart && s[4] == t.connectEnd
      && s[5] == t.tlsStart && s[6] == t.tlsEnd && s[7] == t.wroteRequest && s[8] == t.gotFirstByte && s[9] == t.transferEnd
      && s[10] == Some(end)
  {
  }

  /** What the order says of the stamps that setup leaves behind. */
  lemma SetupOrder(start: int, t: Trace, end: int)
    requires ChainOrdered(start, t, end)
    ensures Before(Some(start), t.dnsStart) && Before(t.dnsStart, t.dnsEnd)
    ensures Before(Some(start), t.connectStart) && Before(t.dnsEnd, t.connectStart) && Before(t.connectStart, t.connectEnd)
    ensures Before(Some(start), t.tlsStart) && Before(t.dnsEnd, t.tlsStart) && Before(t.connectEnd, t.tlsStart) && Before(t.tlsStart, t.tlsEnd)
  {
    StampsAre(start, t, end);
  }

  lemma LaterOrder(start: int, t: Trace, end: int, s: Stamp)
    requires ChainOrdered(start, t, end) && s in [t.wroteRequest, t.gotFirstByte, t.transferEnd, Some(end)]
    ensures Before(Some(start), s) && Before(t.dnsEnd, s) && Before(t.connectEnd, s) && Before(t.tlsEnd, s) && Before(RequestReady(t), s)
  {
    StampsAre(start, t, end);
  }

  lemma ReadyOrder(start: int, t: Trace, end: int)
    requires ChainOrdered(start, t, end)
    ensures Before(Some(start), RequestReady(t)) && Before(t.dnsEnd, RequestReady(t))
  {
    StampsAre(start, t, end);
  }

  lemma ExchangeOrder(start: int, t: Trace, end: int)
    requires ChainOrdered(start, t, end)
    ensures Before(t.wroteRequest, t.gotFirstByte) && Before(t.gotFirstByte, t.transferEnd)
    ensures Before(t.wroteRequest, Some(end)) && Before(t.gotFirstByte, Some(end)) && Before(t.transferEnd, Some(end))
  {
    StampsAre(start, t, end);
  }

  /** The setup phases, and the end of the last one. */
  lemma SetupStretches(start: int, t: Trace) returns (at: int)
    requires Before(Some(start), t.dnsStart) && Before(t.dnsStart, t.dnsEnd)
    requires Before(Some(start), t.connectStart) && Before(t.dnsEnd, t.connectStart) && Before(t.connectStart, t.connectEnd)
    requires Before(Some(start), t.tlsStart) && Before(t.dnsEnd, t.tlsStart) && Before(t.connectEnd, t.tlsStart) && Before(t.tlsStart, t.tlsEnd)
    ensures Disjoint(SetupSpans(t), start, at) && InPhaseOrder(SetupSpans(t), 6) && Recorded(SetupSpans(t)) == SetupPhases(t)
    ensures at == start || t.dnsEnd == Some(at) || t.connectEnd == Some(at) || t.tlsEnd == Some(at)
  {
    AddSpanKeeps([], DNSResolve, t.dnsEnd, t.dnsStart, start, start);
    at := Cursor(start, t.dnsEnd, t.dnsStart);
    var s1 := AddSpan([], DNSResolve, t.dnsEnd, t.dnsStart);
    AddSpanKeeps(s1, TCPConnect, t.connectEnd, t.connectStart, start, at);
    at := Cursor(at, t.connectEnd, t.connectStart);
    AddSpanKeeps(AddSpan(s1, TCPConnect, t.connectEnd, t.connectStart), TLSHandshake, t.tlsEnd, t.tlsStart, start, at);
    at := Cursor(at, t.tlsEnd, t.tlsStart);
  }

  /** The exchange phases follow on any setup that ended by `at`. */
  lemma ExchangeStretches(start: int, t: Trace, end: int, at: int)
    requires Disjoint(SetupSpans(t), start, at) && InPhaseOrder(SetupSpans(t), 6) && Recorded(SetupSpans(t)) == SetupPhases(t) && at <= end
    requires Before(Some(at), RequestReady(t)) && Before(Some(at), t.wroteRequest) && Before(Some(at), t.gotFirstByte)
    requires Before(RequestReady(t), t.wroteRequest) && Before(RequestReady(t), t.gotFirstByte)
    requires Before(t.wroteRequest, t.gotFirstByte) && Before(t.gotFirstByte, t.transferEnd)
    requires Before(t.wroteRequest, Some(end)) && Before(t.gotFirstByte, Some(end)) && Before(t.transferEnd, Some(end))
    ensures Recorded(Spans(t)) == BuildPhases(t) && Disjoint(Spans(t), start, end) && InPhaseOrder(Spans(t), 9)
  {
    AddSpanKeeps(SetupSpans(t), RequestWrite, t.wroteRequest, RequestReady(t), start, at);
    var s4 := AddSpan(SetupSpans(t), RequestWrite, t.wroteRequest, RequestReady(t));
    var at4 := Cursor(at, t.wroteRequest, RequestReady(t));
    AddSpanKeeps(s4, TTFB, t.gotFirstByte, TtfbStart(t), start, at4);
    var at5 := Cursor(at4, t.gotFirstByte, TtfbStart(t));
    AddSpanKeeps(AddSpan(s4, TTFB, t.gotFirstByte, TtfbStart(t)), Transfer, t.transferEnd, t.gotFirstByte, start, at5);
    Widen(Spans(t), start, Cursor(at5, t.transferEnd, t.gotFirstByte), end);
  }

  /** Whatever subset was observed, the phases are non-negative lengths of disjoint stretches of
      [start, end], so they never sum to more than the duration. */
  lemma PhasesAreDisjoint(start: int, t: Trace, end: int)
    requires ChainOrdered(start, t, end)
    ensures Recorded(Spans(t)) == BuildPhases(t) && Disjoint(Spans(t), start, end)
    ensures 0 <= Total(BuildPhases(t)) <= end - start
    ensures forall p <- BuildPhases(t) :: BuildPhases(t)[p] >= 0
  {
    SetupOrder(start, t, end);
    var at := SetupStretches(start, t);
    LaterOrder(start, t, end, t.wroteRequest);
    LaterOrder(start, t, end, t.gotFirstByte);
    LaterOrder(start, t, end, Some(end));
    ReadyOrder(start, t, end);
    ExchangeOrder(start, t, end);
    ExchangeStretches(start, t, end, at);
    DisjointTotal(Spans(t), start, end, 9);
  }

  predicate AllObserved(t: Trace) {
    && t.dnsStart.Some? && t.dnsEnd.Some? && t.connectStart.Some? && t.connectEnd.Some? && t.tlsStart.Some? && t.tlsEnd.Some?
    && t.wroteRequest.Some? && t.gotFirstByte.Some? && t.transferEnd.Some?
  }

  /** When everything was observed, only the three gaps before setup steps are missing from the sum. */
  lemma ShortfallIsTheGaps(start: int, t: Trace)
    requires AllObserved(t) && ChainOrdered(start, t, t.transferEnd.value)
    ensures t.transferEnd.value - start - Total(BuildPhases(t)) ==
      (t.dnsStart.value - start) + (t.connectStart.value - t.dnsEnd.value) + (t.tlsStart.value - t.connectEnd.value)
  {
    StampsAre(start, t, t.transferEnd.value);
    TotalOfNothing(|InOrder|);
    var p1: map<Phase, int> := map[][DNSResolve := t.dnsEnd.value - t.dnsStart.value];
    TotalAdds(map[], DNSResolve, t.dnsEnd.value - t.dnsStart.value);
    TotalAdds(p1, TCPConnect, t.connectEnd.value - t.connectStart.value);
    TotalAdds(p1[TCPConnect := t.connectEnd.value - t.connectStart.value], TLSHandshake, t.tlsEnd.value - t.tlsStart.value);
    var p3 := SetupPhases(t);
    TotalAdds(p3, RequestWrite, t.wroteRequest.value - t.tlsEnd.value);
    var p4 := p3[RequestWrite := t.wroteRequest.value - t.tlsEnd.value];
    TotalAdds(p4, TTFB, t.gotFirstByte.value - t.wroteRequest.value);
    TotalAdds(p4[TTFB := t.gotFirstByte.value - t.wroteRequest.value], Transfer, t.transferEnd.value - t.gotFirstByte.value);
  }

  // ---------- redirected exchanges ----------

  function Later(kept: Stamp, seen: Stamp): Stamp { if seen.Some? then seen else kept }

  /** A hop overwrites the stamps it observes and leaves the others as an earlier hop set them. */
  function Overwrite(t: Trace, hop: Trace): Trace {
    Trace(Later(t.dnsStart, hop.dnsStart), Later(t.dnsEnd, hop.dnsEnd), Later(t.connectStart, hop.connectStart),
      Later(t.connectEnd, hop.connectEnd), Later(t.tlsStart, hop.tlsStart), Later(t.tlsEnd, hop.tlsEnd),
      Later(t.wroteRequest, hop.wroteRequest), Later(t.gotFirstByte, hop.gotFirstByte), Later(t.transferEnd, hop.transferEnd))
  }

  const NoTrace := Trace(None, None, None, None, None, None, None, None, None)

  /** What the tracer holds after a chain of hops. */
  function Traced(hops: seq<Trace>): Trace {
    if hops == [] then NoTrace else Overwrite(Traced(hops[..|hops| - 1]), hops[|hops| - 1])
  }

  /** How far a hop on a connection of its own can get: each step is observed only after what it needs. */
  predicate Stepwise(t: Trace) {
    && (t.dnsEnd.Some? ==> t.dnsStart.Some?) && (t.connectEnd.Some? ==> t.connectStart.Some?)
    && (t.tlsEnd.Some? ==> t.tlsStart.Some? && t.connectEnd.Some?) && (t.wroteRequest.Some? ==> t.connectEnd.Some?)
    && (t.gotFirstByte.Some? ==> t.wroteRequest.Some?) && (t.transferEnd.Some? ==> t.gotFirstByte.Some?)
  }

  /** All that was observed lies by `at`, or from `at` on. */
  predicate By(t: Trace, at: int) { forall s <- Listed(t) :: Before(s, Some(at)) }

  predicate From(t: Trace, at: int) { forall s <- Listed(t) :: Before(Some(at), s) }

  function Listed(t: Trace): seq<Stamp> {
    [t.dnsStart, t.dnsEnd, t.connectStart, t.connectEnd, t.tlsStart, t.tlsEnd, t.wroteRequest, t.gotFirstByte, t.transferEnd]
  }

  lemma ListedAre(t: Trace)
    ensures t.dnsStart in Listed(t) && t.dnsEnd in Listed(t) && t.connectStart in Listed(t) && t.connectEnd in Listed(t)
    ensures t.tlsStart in Listed(t) && t.tlsEnd in Listed(t) && t.wroteRequest in Listed(t) && t.gotFirstByte in Listed(t) && t.transferEnd in Listed(t)
  {
    var l := Listed(t);
    assert l[0] == t.dnsStart && l[1] == t.dnsEnd && l[2] == t.connectStart && l[3] == t.connectEnd && l[4] == t.tlsStart;
    assert l[5] == t.tlsEnd && l[6] == t.wroteRequest && l[7] == t.gotFirstByte && l[8] == t.transferEnd;
  }

  /** What one phase measures. */
  function Measured(end: Stamp, start: Stamp): int { if start.None? || end.None? then 0 else SafeSub(end.value, start.value) }

  lemma PhaseValues(t: Trace)
    ensures var p := BuildPhases(t);
      && Value(p, DNSResolve) == Measured(t.dnsEnd, t.dnsStart) && Value(p, TCPConnect) == Measured(t.connectEnd, t.connectStart)
      && Value(p, TLSHandshake) == Measured(t.tlsEnd, t.tlsStart) && Value(p, RequestWrite) == Measured(t.wroteRequest, RequestReady(t))
      && Value(p, TTFB) == Measured(t.gotFirstByte, TtfbStart(t)) && Value(p, Transfer) == Measured(t.transferEnd, t.gotFirstByte)
      && Value(p, ProxyDial) == 0 && Value(p, ProxyTLS) == 0 && Value(p, Phase.ProxyConnect) == 0
  {
  }

  /** A phase whose end is only fresh if its start is measures the old stretch, the fresh one, or nothing. */
  lemma OverwrittenStretch(end: Stamp, start: Stamp, end': Stamp, start': Stamp, at: int)
    requires Before(end, Some(at)) && Before(start, Some(at)) && Before(Some(at), end') && Before(Some(at), start')
    requires end'.Some? ==> start'.Some?
    ensures Measured(Later(end, end'), Later(start, start')) <= Measured(end, start) + Measured(end', start')
  {
  }

  lemma OverwrittenPhase(t: Trace, hop: Trace, at: int, p: Phase)
    requires Stepwise(t) && Stepwise(hop) && By(t, at) && From(hop, at)
    ensures Value(BuildPhases(Overwrite(t, hop)), p) <= Value(BuildPhases(t), p) + Value(BuildPhases(hop), p)
  {
    var u := Overwrite(t, hop);
    ListedAre(t);
    ListedAre(hop);
    PhaseValues(t);
    PhaseValues(hop);
    PhaseValues(u);
    match p
    case DNSResolve => OverwrittenStretch(t.dnsEnd, t.dnsStart, hop.dnsEnd, hop.dnsStart, at);
    case TCPConnect => OverwrittenStretch(t.connectEnd, t.connectStart, hop.connectEnd, hop.connectStart, at);
    case TLSHandshake => OverwrittenStretch(t.tlsEnd, t.tlsStart, hop.tlsEnd, hop.tlsStart, at);
    case RequestWrite =>
      OverwrittenStretch(t.wroteRequest, RequestReady(t), hop.wroteRequest, RequestReady(hop), at);
      assert hop.connectEnd.Some? ==> RequestReady(u) == RequestReady(hop);
      assert hop.connectEnd.None? ==> RequestReady(u) == RequestReady(t);
    case TTFB => OverwrittenStretch(t.gotFirstByte, t.wroteRequest, hop.gotFirstByte, hop.wroteRequest, at);
    case Transfer => OverwrittenStretch(t.transferEnd, t.gotFirstByte, hop.transferEnd, hop.gotFirstByte, at);
    case _ =>
  }

  lemma {:induction false} TotalAtMost(a: map<Phase, int>, b: map<Phase, int>, c: map<Phase, int>, n: nat)
    requires n <= |InOrder| && forall p: Phase :: Value(a, p) <= Value(b, p) + Value(c, p)
    ensures TotalOf(a, n) <= TotalOf(b, n) + TotalOf(c, n)
  {
    if n > 0 { TotalAtMost(a, b, c, n - 1); }
  }

  lemma {:induction false} TotalNonNegative(a: map<Phase, int>, n: nat)
    requires n <= |InOrder| && forall p: Phase :: Value(a, p) >= 0
    ensures TotalOf(a, n) >= 0
  {
    if n > 0 { TotalNonNegative(a, n - 1); }
  }

  lemma PhasesNonNegative(t: Trace)
    ensures Total(BuildPhases(t)) >= 0
  {
    PhaseValues(t);
    forall p: Phase ensures Value(BuildPhases(t), p) >= 0 { }
    TotalNonNegative(BuildPhases(t), |InOrder|);
  }

  lemma OverwrittenTotal(t: Trace, hop: Trace, at: int)
    requires Stepwise(t) && Stepwise(hop) && By(t, at) && From(hop, at)
    ensures 0 <= Total(BuildPhases(Overwrite(t, hop))) <= Total(BuildPhases(t)) + Total(BuildPhases(hop))
  {
    var u := BuildPhases(Overwrite(t, hop));
    forall p: Phase ensures Value(u, p) <= Value(BuildPhases(t), p) + Value(BuildPhases(hop), p) { OverwrittenPhase(t, hop, at, p); }
    TotalAtMost(u, BuildPhases(t), BuildPhases(hop), |InOrder|);
    PhasesNonNegative(Overwrite(t, hop));
  }

  lemma HopInWindow(lo: int, hop: Trace, hi: int)
    requires ChainOrdered(lo, hop, hi)
    ensures From(hop, lo) && By(hop, hi) && lo <= hi
  {
    StampsAre(lo, hop, hi);
    var l, s := Listed(hop), Stamps(lo, hop, hi);
    assert forall i | 0 <= i < |l| :: l[i] == s[i + 1];
  }

  /** The i-th hop of a chain, ordered within its own stretch of time. */
  predicate HopOk(hops: seq<Trace>, cuts: seq<int>, i: nat)
    requires i < |hops| && |cuts| == |hops| + 1
  {
    ChainOrdered(cuts[i], hops[i], cuts[i + 1]) && Stepwise(hops[i])
  }

  /** A chain of hops, one after the other. */
  predicate Chained(hops: seq<Trace>, cuts: seq<int>) {
    |cuts| == |hops| + 1 && forall i | 0 <= i < |hops| :: HopOk(hops, cuts, i)
  }

  lemma ByLater(t: Trace, at: int, at': int)
    requires By(t, at) && at <= at'
    ensures By(t, at')
  {
  }

  lemma OverwriteBy(t: Trace, hop: Trace, at: int)
    requires By(t, at) && By(hop, at)
    ensures By(Overwrite(t, hop), at)
  {
    ListedAre(t);
    ListedAre(hop);
  }

  /** Redirects followed on the direct path leave stamps of several hops in one trace, out of order. Still the
      phases are non-negative and never sum to more than the whole chain took. */
  lemma {:induction false} RedirectedPhasesFit(hops: seq<Trace>, cuts: seq<int>)
    requires Chained(hops, cuts)
    ensures Stepwise(Traced(hops)) && By(Traced(hops), cuts[|hops|])
    ensures 0 <= Total(BuildPhases(Traced(hops))) <= cuts[|hops|] - cuts[0]
    decreases |hops|
  {
    if hops == [] {
      assert BuildPhases(NoTrace) == map[];
      TotalOfNothing(|InOrder|);
    } else {
      var n := |hops| - 1;
      var before, t, hop := hops[..n], Traced(hops[..n]), hops[n];
      var cuts' := cuts[..n + 1];
      forall i | 0 <= i < n ensures HopOk(before, cuts', i) { assert HopOk(hops, cuts, i); }
      RedirectedPhasesFit(before, cuts');
      assert HopOk(hops, cuts, n);
      HopInWindow(cuts[n], hop, cuts[n + 1]);
      OverwrittenTotal(t, hop, cuts[n]);
      PhasesAreDisjoint(cuts[n], hop, cuts[n + 1]);
      ByLater(t, cuts[n], cuts[n + 1]);
      OverwriteBy(t, hop, cuts[n + 1]);
    }
  }

  lemma {:induction false} TracedHandshake(hops: seq<Trace>)
    requires forall i | 0 <= i < |hops| :: Stepwise(hops[i])
    ensures Traced(hops).tlsEnd.Some? <==> exists i | 0 <= i < |hops| :: hops[i].tlsEnd.Some?
    ensures Traced(hops).tlsEnd.Some? ==> Traced(hops).tlsStart.Some?
    decreases |hops|
  {
    if hops != [] {
      var n := |hops| - 1;
      TracedHandshake(hops[..n]);
      assert Stepwise(hops[n]);
      if i :| 0 <= i < n && hops[..n][i].tlsEnd.Some? { assert hops[i].tlsEnd.Some?; }
      if i :| 0 <= i < n && hops[i].tlsEnd.Some? { assert hops[..n][i].tlsEnd.Some?; }
    }
  }

  /** So a handshake is reported for a chain exactly if any of its hops made one, even if the last is plain HTTP. */
  lemma HandshakeIffAnyHop(hops: seq<Trace>)
    requires forall i | 0 <= i < |hops| :: Stepwise(hops[i])
    ensures TLSHandshake in BuildPhases(Traced(hops)) <==> exists i | 0 <= i < |hops| :: hops[i].tlsEnd.Some?
  {
    TracedHandshake(hops);
    ReportedIffObserved(Traced(hops));
  }
}
