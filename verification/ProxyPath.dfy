/** Connection setup and one HTTP exchange through a proxy (internal/probe/proxy_tunnel.go and
    internal/probe/http_proxy_path.go): who owns which connection, on every exit, and what is timed. */
module ProxyPath {
  import opened Targets
  import opened Phases

  datatype Url = Url(scheme: string, text: string)

  /** What a response carries as far as the probers look at it: `bodyOk` tells whether reading the body goes
      well, `size` how much there is to read, and `certificates` whether the target's handshake showed any. */
  datatype Response = Response(status: int, location: string, bodyOk: bool, size: nat, certificates: bool)

  /** How the network treats one exchange: which steps succeed and what the peers answer. */
  datatype Script = Script(
    dialOk: bool, proxyTLSOk: bool, deadlineOk: bool, connectWriteOk: bool, connect: Option<int>,
    targetTLSOk: bool, requestOk: bool, writeOk: bool, firstByte: bool, response: Option<Response>)

  /** A connection, possibly wrapped by TLS; closing the wrapper closes the connection under it. */
  datatype Conn = Tcp(id: nat) | Tls(under: Conn)

  function Root(c: Conn): nat {
    match c
    case Tcp(id) => id
    case Tls(under) => Root(under)
  }

  /** The open connections and the clock. */
  class Net {
    const time: nat -> int
    var looks: nat
    var open: set<nat>
    var issued: nat

    constructor (time: nat -> int)
      ensures this.time == time && looks == 0 && open == {} && issued == 0
    {
      this.time := time;
      looks, open, issued := 0, {}, 0;
    }

    ghost predicate Valid() reads this { forall c <- open :: c < issued }

    method Now() returns (t: Stamp)
      modifies this`looks
      ensures t == Some(time(old(looks))) && looks == old(looks) + 1
    {
      t := Some(time(looks));
      looks := looks + 1;
    }

    method Dial(ok: bool) returns (c: Option<Conn>)
      requires Valid()
      modifies this`open, this`issued
      ensures Valid() && (c.Some? <==> ok)
      ensures c.Some? ==> Root(c.value) !in old(open) && open == old(open) + {Root(c.value)}
      ensures c.None? ==> open == old(open)
    {
      if !ok { return None; }
      c := Some(Tcp(issued));
      open := open + {issued};
      issued := issued + 1;
    }

    method Close(c: Conn)
      requires Valid() && Root(c) in open
      modifies this`open
      ensures Valid() && open == old(open) - {Root(c)}
    {
      open := open - {Root(c)};
    }
  }

  /** The clock never goes back. */
  ghost predicate Monotone(time: nat -> int) { forall i: nat, j: nat | i <= j :: time(i) <= time(j) }

  /** The recorded phases account for no more than `d`. */
  predicate Within(phases: map<Phase, int>, d: int) { Total(phases) <= d }

  lemma AddWithin(phases: map<Phase, int>, p: Phase, end: Stamp, start: Stamp, d: int)
    requires p !in phases && Within(phases, d) && start.Some? && end.Some? && start.value <= end.value
    ensures Within(AddObservedPhase(phases, p, end, start), d + end.value - start.value)
  {
    TotalAdds(phases, p, end.value - start.value);
  }

  // ---------- what an exchange comes to ----------

  predicate Accepted(status: int) { 200 <= status <= 299 }

  predicate ProxyReached(s: Script, proxyHttps: bool) { s.dialOk && (proxyHttps ==> s.proxyTLSOk) }

  function ConnectSeen(s: Script, proxyHttps: bool): Option<int> {
    if ProxyReached(s, proxyHttps) && s.deadlineOk && s.connectWriteOk then s.connect else None
  }

  predicate TunnelOpens(s: Script, proxyHttps: bool) {
    ConnectSeen(s, proxyHttps).Some? && Accepted(ConnectSeen(s, proxyHttps).value)
  }

  predicate SetUp(s: Script, proxyHttps: bool, scheme: string) {
    if scheme == "https" then TunnelOpens(s, proxyHttps) && s.targetTLSOk
    else scheme == "http" && ProxyReached(s, proxyHttps)
  }

  /** Which setup steps were begun, and so timed. */
  function ProxyTimed(s: Script, proxyHttps: bool): set<Phase> { {ProxyDial} + if s.dialOk && proxyHttps then {ProxyTLS} else {} }

  function TunnelTimed(s: Script, proxyHttps: bool): set<Phase> {
    ProxyTimed(s, proxyHttps) + if ProxyReached(s, proxyHttps) && s.deadlineOk then {Phase.ProxyConnect} else {}
  }

  function SetupSteps(s: Script, proxyHttps: bool, scheme: string): set<Phase> {
    if scheme == "https" then TunnelTimed(s, proxyHttps) + if TunnelOpens(s, proxyHttps) then {TLSHandshake} else {}
    else if scheme == "http" then ProxyTimed(s, proxyHttps) else {}
  }

  /** The CONNECT status seen, if any, and the response, if the exchange got that far. */
  datatype Exchanged = Exchanged(connect: Option<int>, response: Option<Response>)

  function ExchangeOf(s: Script, proxyHttps: bool, scheme: string): Exchanged {
    Exchanged(
      if scheme == "https" then ConnectSeen(s, proxyHttps) else None,
      if SetUp(s, proxyHttps, scheme) && s.requestOk && s.writeOk then s.response else None)
  }

  // ---------- setup ----------

  /** Times one step: a clock reading before it, one after it, and the phase recorded. */
  method Timed(net: Net, phases: map<Phase, int>, p: Phase, ghost from: int) returns (timed: map<Phase, int>, end: Stamp)
    requires p !in phases
    modifies net`looks
    ensures net.looks == old(net.looks) + 2 && end == Some(net.time(old(net.looks) + 1))
    ensures timed == phases[p := SafeSub(end.value, net.time(old(net.looks)))]
    ensures Monotone(net.time) && Within(phases, net.time(old(net.looks)) - from) ==> Within(timed, end.value - from)
  {
    var start := net.Now();
    end := net.Now();
    timed := AddObservedPhase(phases, p, end, start);
    if Monotone(net.time) && Within(phases, start.value - from) {
      AddWithin(phases, p, end, start, start.value - from);
    }
  }

  datatype Tunnel = Tunnel(conn: Option<Conn>, phases: map<Phase, int>, connect: Option<int>)

  /** What happens between the dial and the deferred close. */
  method OpenTunnel(net: Net, s: Script, proxyHttps: bool, dialled: Conn, phases0: map<Phase, int>, ghost from: int)
      returns (conn: Conn, phases: map<Phase, int>, connect: Option<int>, ok: bool)
    requires phases0.Keys == {ProxyDial} && s.dialOk
    modifies net`looks
    ensures net.looks >= old(net.looks)
    ensures Root(conn) == Root(dialled) && (ok <==> TunnelOpens(s, proxyHttps)) && connect == ConnectSeen(s, proxyHttps)
    ensures phases.Keys == TunnelTimed(s, proxyHttps)
    ensures Monotone(net.time) && Within(phases0, net.time(old(net.looks)) - from) ==> Within(phases, net.time(net.looks) - from)
  {
    conn, phases, connect, ok := dialled, phases0, None, false;
    var end;
    if proxyHttps {
      phases, end := Timed(net, phases, ProxyTLS, from);
      if !s.proxyTLSOk { return; }
      conn := Tls(conn);
    }
    if !s.deadlineOk { return; }
    phases, end := Timed(net, phases, Phase.ProxyConnect, from);
    if !s.connectWriteOk { return; }
    if s.connect.None? { return; }
    connect := s.connect;
    if s.connect.value < 200 || s.connect.value > 299 { return; }
    ok := true;
  }

  method DialProxyTunnel(net: Net, s: Script, proxyHttps: bool) returns (r: Tunnel)
    requires net.Valid()
    modifies net
    ensures net.Valid() && net.looks > old(net.looks)
    ensures r.conn.Some? <==> TunnelOpens(s, proxyHttps)
    ensures r.conn.Some? ==> Root(r.conn.value) !in old(net.open) && net.open == old(net.open) + {Root(r.conn.value)}
    ensures r.conn.None? ==> net.open == old(net.open)
    ensures r.connect == ConnectSeen(s, proxyHttps)
    ensures r.phases.Keys == TunnelTimed(s, proxyHttps)
    ensures Monotone(net.time) ==> Within(r.phases, net.time(net.looks) - net.time(old(net.looks)))
  {
    ghost var from := net.time(net.looks);
    TotalOfNothing(|InOrder|);
    var dialled := net.Dial(s.dialOk);
    var phases, end := Timed(net, map[], ProxyDial, from);
    if dialled.None? { return Tunnel(None, phases, None); }
    var conn, timed, connect, ok := OpenTunnel(net, s, proxyHttps, dialled.value, phases, from);
    r := Tunnel(if ok then Some(conn) else None, timed, connect);
    var closeOnError := !ok;
    if closeOnError { net.Close(conn); }
  }

  /** A connection ready for a request, or None, with what was recorded on the way. */
  datatype Setup = Setup(conn: Option<Conn>, phases: map<Phase, int>, setupEnd: Stamp, connect: Option<int>, targetTLS: bool)

  ghost predicate SetupTimed(time: nat -> int, r: Setup, from: nat, now: nat) {
    && (r.conn.Some? ==> now > 0 && r.setupEnd == Some(time(now - 1)))
    && (Monotone(time) ==> Within(r.phases, time(now) - time(from)))
    && (Monotone(time) && r.conn.Some? ==> Within(r.phases, r.setupEnd.value - time(from)) && r.setupEnd.value <= time(now))
  }

  method SetupProxyTLSConn(net: Net, s: Script, proxyHttps: bool) returns (r: Setup)
    requires net.Valid()
    modifies net
    ensures net.Valid() && net.looks >= old(net.looks)
    ensures r.conn.Some? <==> SetUp(s, proxyHttps, "https")
    ensures r.conn.Some? ==> Root(r.conn.value) !in old(net.open) && net.open == old(net.open) + {Root(r.conn.value)}
    ensures r.conn.None? ==> net.open == old(net.open)
    ensures r.connect == ConnectSeen(s, proxyHttps) && r.phases.Keys == SetupSteps(s, proxyHttps, "https") && r.targetTLS == r.conn.Some?
    ensures SetupTimed(net.time, r, old(net.looks), net.looks)
  {
    var tunnel := DialProxyTunnel(net, s, proxyHttps);
    r := Setup(None, tunnel.phases, None, tunnel.connect, false);
    if tunnel.conn.None? { return; }
    var phases, tlsEnd := Timed(net, tunnel.phases, TLSHandshake, net.time(old(net.looks)));
    r := r.(phases := phases);
    if !s.targetTLSOk {
      net.Close(tunnel.conn.value);
      return;
    }
    r := r.(setupEnd := tlsEnd, conn := Some(Tls(tunnel.conn.value)), targetTLS := true);
  }

  method SetupProxyPlainConn(net: Net, s: Script, proxyHttps: bool) returns (r: Setup)
    requires net.Valid()
    modifies net
    ensures net.Valid() && net.looks >= old(net.looks)
    ensures r.conn.Some? <==> ProxyReached(s, proxyHttps)
    ensures r.conn.Some? ==> Root(r.conn.value) !in old(net.open) && net.open == old(net.open) + {Root(r.conn.value)}
    ensures r.conn.None? ==> net.open == old(net.open)
    ensures r.connect == None && r.phases.Keys == SetupSteps(s, proxyHttps, "http") && !r.targetTLS
    ensures SetupTimed(net.time, r, old(net.looks), net.looks)
  {
    ghost var from := net.time(net.looks);
    TotalOfNothing(|InOrder|);
    var dialled := net.Dial(s.dialOk);
    var phases, dialEnd := Timed(net, map[], ProxyDial, from);
    r := Setup(None, phases, None, None, false);
    if dialled.None? { return; }
    r := r.(setupEnd := dialEnd);
    var conn := dialled.value;
    if proxyHttps {
      var timed, tlsEnd := Timed(net, phases, ProxyTLS, from);
      r := r.(phases := timed);
      if !s.proxyTLSOk {
        net.Close(conn);
        return;
      }
      return r.(setupEnd := tlsEnd, conn := Some(Tls(conn)));
    }
    r := r.(conn := Some(conn));
  }

  method SetupProxyHTTPConn(net: Net, s: Script, proxyHttps: bool, scheme: string) returns (r: Setup)
    requires net.Valid()
    modifies net
    ensures net.Valid() && net.looks >= old(net.looks)
    ensures r.conn.Some? <==> SetUp(s, proxyHttps, scheme)
    ensures r.conn.Some? ==> Root(r.conn.value) !in old(net.open) && net.open == old(net.open) + {Root(r.conn.value)}
    ensures r.conn.None? ==> net.open == old(net.open)
    ensures r.connect == ExchangeOf(s, proxyHttps, scheme).connect && r.phases.Keys == SetupSteps(s, proxyHttps, scheme)
    ensures r.conn.Some? ==> r.targetTLS == (scheme == "https")
    ensures SetupTimed(net.time, r, old(net.looks), net.looks)
  {
    if scheme == "https" {
      r := SetupProxyTLSConn(net, s, proxyHttps);
    } else if scheme == "http" {
      r := SetupProxyPlainConn(net, s, proxyHttps);
    } else {
      TotalOfNothing(|InOrder|);
      r := Setup(None, map[], None, None, false);
    }
  }

  // ---------- one exchange ----------

  /** The outcome of one exchange. With a response comes the connection its body owns; `Close` of the body
      closes that connection. */
  datatype ExchangeResult = ExchangeResult(
    response: Option<Response>, body: Option<Conn>, phases: map<Phase, int>,
    setupEnd: Stamp, wroteRequest: Stamp, gotFirstByte: Stamp, connect: Option<int>, targetTLS: bool)

  /** Finalising adds to the exchange's phases the transfer and nothing else. */
  predicate Finalised(r: ExchangeResult) {
    Transfer !in r.phases && BuildProxyPhases(r.phases, r.setupEnd, r.wroteRequest, r.gotFirstByte, None) == r.phases
  }

  /** The last three looks at the clock were at the end of setup, after the request and at the first byte. */
  ghost predicate LastStamps(time: nat -> int, r: ExchangeResult, now: nat) {
    now >= 3 && r.setupEnd == Some(time(now - 3)) && r.wroteRequest == Some(time(now - 2)) && r.gotFirstByte == Some(time(now - 1))
  }

  ghost predicate ExchangeTimed(time: nat -> int, r: ExchangeResult, from: nat, now: nat) {
    && (Monotone(time) ==> Within(r.phases, time(now) - time(from)))
    && (r.response.Some? ==> LastStamps(time, r, now))
    && (Monotone(time) && r.response.Some? ==> Within(r.phases, r.gotFirstByte.value - time(from)) && r.gotFirstByte.value <= time(now))
  }

  function ExchangeSteps(s: Script): set<Phase> {
    if !s.requestOk then {}
    else {RequestWrite} + if s.writeOk && (s.firstByte || s.response.Some?) then {TTFB} else {}
  }

  /** What happens between setup and the deferred close. */
  method SendAndReceive(net: Net, s: Script, r0: ExchangeResult, ghost from: int) returns (r: ExchangeResult)
    requires net.looks > 0 && r0.setupEnd == Some(net.time(net.looks - 1)) && r0.wroteRequest.None? && r0.gotFirstByte.None? && r0.response.None?
    requires r0.phases.Keys !! {RequestWrite, TTFB, Transfer}
    requires Monotone(net.time) ==> Within(r0.phases, r0.setupEnd.value - from)
    modifies net`looks
    ensures net.looks >= old(net.looks)
    ensures r.response == (if s.requestOk && s.writeOk then s.response else None) && r.connect == r0.connect && r.body == r0.body && r.targetTLS == r0.targetTLS
    ensures r.phases.Keys == r0.phases.Keys + ExchangeSteps(s)
    ensures Finalised(r) && (r.response.Some? ==> LastStamps(net.time, r, net.looks))
    ensures Monotone(net.time) ==> Within(r.phases, net.time(net.looks) - from)
    ensures Monotone(net.time) && r.response.Some? ==> Within(r.phases, r.gotFirstByte.value - from) && r.gotFirstByte.value <= net.time(net.looks)
  {
    r := r0;
    if !s.requestOk { return; }
    var wroteRequest := net.Now();
    if Monotone(net.time) { AddWithin(r.phases, RequestWrite, wroteRequest, r.setupEnd, r.setupEnd.value - from); }
    r := r.(wroteRequest := wroteRequest, phases := AddObservedPhase(r.phases, RequestWrite, wroteRequest, r.setupEnd));
    if !s.writeOk { return; }
    if s.firstByte || s.response.Some? {
      var first := net.Now();
      r := r.(gotFirstByte := first);
      if Monotone(net.time) { AddWithin(r.phases, TTFB, first, wroteRequest, wroteRequest.value - from); }
    }
    r := r.(phases := AddObservedPhase(r.phases, TTFB, r.gotFirstByte, wroteRequest), response := s.response);
  }

  method ExecuteProxyHTTPExchange(net: Net, s: Script, proxyHttps: bool, scheme: string) returns (r: ExchangeResult)
    requires net.Valid()
    modifies net
    ensures net.Valid() && net.looks >= old(net.looks)
    ensures Exchanged(r.connect, r.response) == ExchangeOf(s, proxyHttps, scheme)
    ensures (r.response.Some? <==> r.body.Some?) && (r.response.Some? ==> r.targetTLS == (scheme == "https"))
    ensures r.body.Some? ==> Root(r.body.value) !in old(net.open) && net.open == old(net.open) + {Root(r.body.value)}
    ensures r.body.None? ==> net.open == old(net.open)
    ensures r.phases.Keys == SetupSteps(s, proxyHttps, scheme) + if SetUp(s, proxyHttps, scheme) then ExchangeSteps(s) else {}
    ensures Finalised(r) && ExchangeTimed(net.time, r, old(net.looks), net.looks)
  {
    var setup := SetupProxyHTTPConn(net, s, proxyHttps, scheme);
    r := ExchangeResult(None, None, setup.phases, setup.setupEnd, None, None, setup.connect, setup.targetTLS);
    if setup.conn.None? { return; }
    r := SendAndReceive(net, s, r, net.time(old(net.looks)));
    var closeConnOnError := r.response.None?;
    if closeConnOnError { net.Close(setup.conn.value); } else { r := r.(body := setup.conn); }
  }
}
