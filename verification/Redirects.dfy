/** The redirect machine of the proxy path, in its two copies: the http prober's and the http_body prober's
    probeViaProxy (internal/probe/http.go, internal/probe/http_body.go).

    The server may answer each request by all that was requested so far, so a run is a whole redirect chain. */
module Redirects {
  import opened Targets
  import opened Phases
  import opened ProxyPath

  /** One request of a chain; `body` is the number of body bytes, zero for no body. */
  datatype Request = Request(url: Url, verb: string, headers: map<string, string>, body: int)

  /** The peers, and the library calls on URLs and header names. */
  datatype World = World(
    server: seq<Request> -> Script, proxyHttps: bool,
    parse: string -> Option<Url>, resolve: (Url, string) -> Option<Url>, canonical: string -> string)

  const Limit := 10

  predicate IsRedirect(code: int) { code == 301 || code == 302 || code == 303 || code == 307 || code == 308 }

  /** The redirects that keep method and body. */
  predicate Preserves(code: int) { code == 307 || code == 308 }

  datatype Follow = Stay | Bad | To(url: Url)

  function ResolveRedirect(w: World, base: Url, resp: Response): Follow {
    if resp.location == "" then Stay else
      match w.resolve(base, resp.location)
      case None => Bad
      case Some(url) => if url.scheme != "http" && url.scheme != "https" then Bad else To(url)
  }

  predicate IsBodyHeader(w: World, key: string) { w.canonical(key) == "Content-Type" || w.canonical(key) == "Content-Length" }

  function StripRequestBodyHeaders(w: World, headers: map<string, string>): map<string, string> {
    map k | k in headers && !IsBodyHeader(w, k) :: headers[k]
  }

  function RedirectedRequest(w: World, verb: string, code: int, headers: map<string, string>, bytes: int, url: Url): Request {
    if code == 301 || code == 302 || code == 303 then
      Request(url, if verb != "GET" && verb != "HEAD" then "GET" else verb, StripRequestBodyHeaders(w, headers), 0)
    else if code == 307 || code == 308 then
      if verb == "POST" && bytes > 0 then Request(url, verb, headers, bytes)
      else if verb == "GET" || verb == "HEAD" then Request(url, verb, StripRequestBodyHeaders(w, headers), 0)
      else Request(url, verb, headers, 0)
    else Request(url, verb, headers, 0)
  }

  // ---------- the chain ----------

  datatype Stop = BadTarget | Final(response: Response) | ExchangeError | BadLocation | HopLimit

  /** Where a chain stands: the request to send, what was sent, the redirects followed and the first CONNECT
      status seen. */
  datatype Hop = Hop(cur: Request, sent: seq<Request>, codes: seq<int>, connect: Option<int>)

  datatype Chain = Chain(sent: seq<Request>, codes: seq<int>, connect: Option<int>, stop: Stop)

  function Exchange(w: World, h: Hop): Exchanged { ExchangeOf(w.server(h.sent + [h.cur]), w.proxyHttps, h.cur.url.scheme) }

  function FirstConnect(h: Hop, x: Exchanged): Option<int> { if h.connect.None? then x.connect else h.connect }

  /** What follows an exchange: the next hop, or why the chain stops. */
  datatype Outcome = Stopped(stop: Stop) | Next(hop: Hop)

  function After(w: World, follow: bool, headers: map<string, string>, bytes: int, h: Hop): Outcome {
    var x := Exchange(w, h);
    if x.response.None? then Stopped(ExchangeError) else
      var resp := x.response.value;
      if !follow || !IsRedirect(resp.status) then Stopped(Final(resp)) else
        match ResolveRedirect(w, h.cur.url, resp)
        case Stay => Stopped(Final(resp))
        case Bad => Stopped(BadLocation)
        case To(url) =>
          if |h.sent| >= Limit - 1 then Stopped(HopLimit)
          else Next(Hop(RedirectedRequest(w, h.cur.verb, resp.status, headers, bytes, url), h.sent + [h.cur], h.codes + [resp.status], FirstConnect(h, x)))
  }

  function Walk(w: World, follow: bool, headers: map<string, string>, bytes: int, h: Hop): Chain
    decreases Limit - |h.sent|
  {
    match After(w, follow, headers, bytes, h)
    case Stopped(stop) => Chain(h.sent + [h.cur], h.codes, FirstConnect(h, Exchange(w, h)), stop)
    case Next(h') => Walk(w, follow, headers, bytes, h')
  }

  function VerbOf(o: ProbeOptions): string { if o.httpMethod == "" then "GET" else o.httpMethod }

  /** The headers the http prober starts with: a request body gets a content type if it has none. */
  function HeadersOf(o: ProbeOptions): map<string, string> {
    if o.requestBodyBytes > 0 && ("Content-Type" !in o.headers || o.headers["Content-Type"] == "")
    then o.headers["Content-Type" := "application/octet-stream"] else o.headers
  }

  function BodyOf(o: ProbeOptions): int { if o.requestBodyBytes > 0 then o.requestBodyBytes else 0 }

  /** The chain of the http prober. */
  function ChainOf(w: World, follow: bool, address: string, o: ProbeOptions): Chain {
    match w.parse(address)
    case None => Chain([], [], None, BadTarget)
    case Some(url) => Walk(w, follow, HeadersOf(o), o.requestBodyBytes, Hop(Request(url, VerbOf(o), HeadersOf(o), BodyOf(o)), [], [], None))
  }

  /** The chain of the http_body prober, which never sends a body. */
  function BodyChainOf(w: World, follow: bool, address: string, o: ProbeOptions): Chain {
    match w.parse(address)
    case None => Chain([], [], None, BadTarget)
    case Some(url) => Walk(w, follow, o.headers, 0, Hop(Request(url, VerbOf(o), o.headers, 0), [], [], None))
  }

  // ---------- laws of a chain ----------

  /** What came of the i-th request, given all that went before. */
  function AnswerTo(w: World, sent: seq<Request>, i: nat): Exchanged
    requires i < |sent|
  {
    ExchangeOf(w.server(sent[..i + 1]), w.proxyHttps, sent[i].url.scheme)
  }

  /** Each request after the first answers the redirect before it. */
  predicate Linked(w: World, headers: map<string, string>, bytes: int, sent: seq<Request>, codes: seq<int>) {
    && |sent| == |codes| + 1
    && forall i | 0 <= i < |codes| :: LinkedAt(w, headers, bytes, sent, codes, i)
  }

  predicate LinkedAt(w: World, headers: map<string, string>, bytes: int, sent: seq<Request>, codes: seq<int>, i: nat)
    requires i < |codes| && i + 1 < |sent|
  {
    && var answer := AnswerTo(w, sent, i).response;
    && answer.Some? && answer.value.status == codes[i] && IsRedirect(codes[i])
    && ResolveRedirect(w, sent[i].url, answer.value) == To(sent[i + 1].url)
    && sent[i + 1] == RedirectedRequest(w, sent[i].verb, codes[i], headers, bytes, sent[i + 1].url)
  }

  /** Why a chain may stop, read off its last answer. */
  predicate StopsRightly(w: World, follow: bool, c: Chain)
    requires c.sent != []
  {
    var last := AnswerTo(w, c.sent, |c.sent| - 1).response;
    var redirected := last.Some? && follow && IsRedirect(last.value.status);
    var to := if redirected then ResolveRedirect(w, c.sent[|c.sent| - 1].url, last.value) else Stay;
    match c.stop
    case BadTarget => false
    case ExchangeError => last == None
    case Final(resp) => last == Some(resp) && to == Stay
    case BadLocation => to == Bad
    case HopLimit => to.To? && |c.sent| == 10
  }

  lemma {:induction false} WalkIsLinked(w: World, follow: bool, headers: map<string, string>, bytes: int, h: Hop)
    requires |h.sent| < Limit && Linked(w, headers, bytes, h.sent + [h.cur], h.codes)
    ensures var c := Walk(w, follow, headers, bytes, h);
      && Linked(w, headers, bytes, c.sent, c.codes) && |c.sent| <= Limit && h.sent + [h.cur] <= c.sent && StopsRightly(w, follow, c)
    decreases Limit - |h.sent|
  {
    var sent := h.sent + [h.cur];
    assert sent[..|sent|] == sent;
    match After(w, follow, headers, bytes, h)
    case Stopped(_) =>
    case Next(h') =>
      var all, codes := h'.sent + [h'.cur], h'.codes;
      forall i | 0 <= i < |codes| ensures LinkedAt(w, headers, bytes, all, codes, i) {
        assert all[..i + 1] == sent[..i + 1];
        if i < |h.codes| { assert LinkedAt(w, headers, bytes, sent, h.codes, i); }
      }
      WalkIsLinked(w, follow, headers, bytes, h');
  }

  /** Once a request is GET or HEAD its method never changes. */
  lemma {:induction false} VerbSticks(w: World, headers: map<string, string>, bytes: int, sent: seq<Request>, codes: seq<int>, i: nat, j: nat)
    requires Linked(w, headers, bytes, sent, codes) && i <= j < |sent| && (sent[i].verb == "GET" || sent[i].verb == "HEAD")
    ensures sent[j].verb == sent[i].verb
  {
    if i < j {
      VerbSticks(w, headers, bytes, sent, codes, i, j - 1);
      assert LinkedAt(w, headers, bytes, sent, codes, j - 1);
    }
  }

  predicate AllPreserve(codes: seq<int>) { forall i | 0 <= i < |codes| :: Preserves(codes[i]) }

  /** A chain is still POST exactly while every redirect kept it so. */
  lemma {:induction false} StillPost(w: World, headers: map<string, string>, bytes: int, sent: seq<Request>, codes: seq<int>, k: nat)
    requires Linked(w, headers, bytes, sent, codes) && k < |sent|
    ensures sent[k].verb == "POST" <==> sent[0].verb == "POST" && AllPreserve(codes[..k])
  {
    if k > 0 {
      StillPost(w, headers, bytes, sent, codes, k - 1);
      assert LinkedAt(w, headers, bytes, sent, codes, k - 1);
      assert codes[..k] == codes[..k - 1] + [codes[k - 1]];
    }
  }

  /** After the first request, a body is sent exactly when one is configured and the chain is still POST,
      that is, when it began so and every redirect was a 307 or 308. */
  lemma BodyIffStillPost(w: World, headers: map<string, string>, bytes: int, sent: seq<Request>, codes: seq<int>, k: nat)
    requires Linked(w, headers, bytes, sent, codes) && 0 < k < |sent|
    ensures sent[k].body == if bytes > 0 && sent[0].verb == "POST" && AllPreserve(codes[..k]) then bytes else 0
    ensures sent[k].body > 0 ==> sent[k].verb == "POST" && sent[k].headers == headers
  {
    StillPost(w, headers, bytes, sent, codes, k);
    StillPost(w, headers, bytes, sent, codes, k - 1);
    assert LinkedAt(w, headers, bytes, sent, codes, k - 1);
    assert codes[..k] == codes[..k - 1] + [codes[k - 1]];
  }

  /** After the first request, a GET or HEAD carries no header that describes a body, and all the others. */
  lemma NoBodyHeaders(w: World, headers: map<string, string>, bytes: int, sent: seq<Request>, codes: seq<int>, k: nat)
    requires Linked(w, headers, bytes, sent, codes) && 0 < k < |sent| && (sent[k].verb == "GET" || sent[k].verb == "HEAD")
    ensures forall h <- sent[k].headers :: !IsBodyHeader(w, h)
    ensures forall h <- headers | !IsBodyHeader(w, h) :: h in sent[k].headers && sent[k].headers[h] == headers[h]
  {
    assert LinkedAt(w, headers, bytes, sent, codes, k - 1);
  }

  /** The status a chain reports for CONNECT is the first one any of its exchanges saw. */
  predicate FirstSeen(w: World, sent: seq<Request>, connect: Option<int>) {
    if connect.None? then forall i | 0 <= i < |sent| :: AnswerTo(w, sent, i).connect == None
    else exists i | 0 <= i < |sent| :: AnswerTo(w, sent, i).connect == connect && forall j | 0 <= j < i :: AnswerTo(w, sent, j).connect == None
  }

  lemma ConnectExtends(w: World, h: Hop)
    requires FirstSeen(w, h.sent, h.connect)
    ensures FirstSeen(w, h.sent + [h.cur], FirstConnect(h, Exchange(w, h)))
  {
    var all := h.sent + [h.cur];
    assert all[..|all|] == all;
    assert AnswerTo(w, all, |h.sent|) == Exchange(w, h);
    forall i | 0 <= i < |h.sent| ensures AnswerTo(w, all, i) == AnswerTo(w, h.sent, i) { assert all[..i + 1] == h.sent[..i + 1]; }
    if h.connect.Some? {
      var i :| 0 <= i < |h.sent| && AnswerTo(w, h.sent, i).connect == h.connect && forall j | 0 <= j < i :: AnswerTo(w, h.sent, j).connect == None;
      assert AnswerTo(w, all, i).connect == h.connect;
    }
  }

  lemma {:induction false} WalkReportsFirstConnect(w: World, follow: bool, headers: map<string, string>, bytes: int, h: Hop)
    requires FirstSeen(w, h.sent, h.connect)
    ensures FirstSeen(w, Walk(w, follow, headers, bytes, h).sent, Walk(w, follow, headers, bytes, h).connect)
    decreases Limit - |h.sent|
  {
    ConnectExtends(w, h);
    match After(w, follow, headers, bytes, h)
    case Stopped(_) =>
    case Next(h') => WalkReportsFirstConnect(w, follow, headers, bytes, h');
  }

  /** Every chain of the http prober is linked, stops for the reason it gives, sends at most ten requests and
      reports the first CONNECT status. */
  lemma ChainLaws(w: World, follow: bool, address: string, o: ProbeOptions)
    requires w.parse(address).Some?
    ensures var c := ChainOf(w, follow, address, o);
      && 0 < |c.sent| <= 10 && Linked(w, HeadersOf(o), o.requestBodyBytes, c.sent, c.codes) && FirstSeen(w, c.sent, c.connect)
      && StopsRightly(w, follow, c) && c.sent[0] == Request(w.parse(address).value, VerbOf(o), HeadersOf(o), BodyOf(o))
  {
    var first := Request(w.parse(address).value, VerbOf(o), HeadersOf(o), BodyOf(o));
    var h := Hop(first, [], [], None);
    assert [] + [first] == [first];
    WalkIsLinked(w, follow, HeadersOf(o), o.requestBodyBytes, h);
    WalkReportsFirstConnect(w, follow, HeadersOf(o), o.requestBodyBytes, h);
  }

  /** For a validated target, where a request body means POST, a request carries the body exactly when all
      redirects before it were 307 or 308. */
  lemma BodyIffPostKept(w: World, follow: bool, address: string, o: ProbeOptions, k: nat)
    requires w.parse(address).Some? && (o.requestBodyBytes != 0 ==> o.httpMethod == "POST")
    requires k < |ChainOf(w, follow, address, o).sent|
    ensures var c := ChainOf(w, follow, address, o);
      && |c.codes| + 1 == |c.sent|
      && (c.sent[k].body > 0 <==> o.requestBodyBytes > 0 && AllPreserve(c.codes[..k]))
      && (c.sent[k].body > 0 ==> c.sent[k].verb == "POST" && c.sent[k].body == o.requestBodyBytes)
  {
    ChainLaws(w, follow, address, o);
    var c := ChainOf(w, follow, address, o);
    if k > 0 { BodyIffStillPost(w, HeadersOf(o), o.requestBodyBytes, c.sent, c.codes, k); }
  }

  /** The status codes that redirect. */
  const RedirectCodes: set<int> := {301, 302, 303, 307, 308}

  /** What follows a redirect, spelled out: the code is one of five; the url is the Location resolved against the url
      before, over http or https; a 307 or 308 keeps the method, and so does HEAD, anything else becomes GET. */
  lemma RedirectRule(w: World, headers: map<string, string>, bytes: int, sent: seq<Request>, codes: seq<int>, i: nat)
    requires Linked(w, headers, bytes, sent, codes) && i < |codes|
    ensures var answer := ExchangeOf(w.server(sent[..i + 1]), w.proxyHttps, sent[i].url.scheme).response;
      && answer.Some? && answer.value.status == codes[i] && codes[i] in RedirectCodes
      && answer.value.location != "" && w.resolve(sent[i].url, answer.value.location) == Some(sent[i + 1].url)
      && sent[i + 1].url.scheme in {"http", "https"}
    ensures sent[i + 1].verb == if codes[i] in {307, 308} || sent[i].verb == "HEAD" then sent[i].verb else "GET"
  {
    assert LinkedAt(w, headers, bytes, sent, codes, i);
  }

  /** The headers of a follow-up: all the initial ones as long as the method may have a body, otherwise those that
      do not describe a body. */
  lemma HeaderRule(w: World, headers: map<string, string>, bytes: int, sent: seq<Request>, codes: seq<int>, i: nat)
    requires Linked(w, headers, bytes, sent, codes) && i < |codes|
    ensures if sent[i + 1].verb in {"GET", "HEAD"}
      then sent[i + 1].headers == map h | h in headers && w.canonical(h) !in {"Content-Type", "Content-Length"} :: headers[h]
      else sent[i + 1].headers == headers
  {
    assert LinkedAt(w, headers, bytes, sent, codes, i);
    assert StripRequestBodyHeaders(w, headers) == map h | h in headers && w.canonical(h) !in {"Content-Type", "Content-Length"} :: headers[h];
  }

  /** When a chain ends in a response, it is one that is not to be followed; when it ends in a bad Location, that one
      cannot be resolved to http or https; when it ends at the limit, the tenth response was one more redirect. */
  lemma StopRule(w: World, follow: bool, c: Chain)
    requires c.sent != [] && StopsRightly(w, follow, c)
    ensures var n := |c.sent| - 1; var answer := ExchangeOf(w.server(c.sent), w.proxyHttps, c.sent[n].url.scheme).response;
      && (c.stop.ExchangeError? ==> answer == None)
      && (c.stop.Final? ==> answer == Some(c.stop.response) && (!follow || c.stop.response.status !in RedirectCodes || c.stop.response.location == ""))
      && (c.stop.BadLocation? || c.stop.HopLimit? ==> follow && answer.Some? && answer.value.status in RedirectCodes && answer.value.location != "")
      && (c.stop.BadLocation? ==> var to := w.resolve(c.sent[n].url, answer.value.location); to.Some? ==> to.value.scheme !in {"http", "https"})
      && (c.stop.HopLimit? ==> |c.sent| == 10)
  {
    assert c.sent[..|c.sent|] == c.sent;
  }

  /** The first request: the configured method or GET, the configured headers, and, with a body, a content type. */
  lemma FirstRequestRead(w: World, follow: bool, address: string, o: ProbeOptions)
    requires w.parse(address).Some?
    ensures ChainOf(w, follow, address, o).sent != []
    ensures var first := ChainOf(w, follow, address, o).sent[0];
      && first.url == w.parse(address).value && first.verb == (if o.httpMethod == "" then "GET" else o.httpMethod)
      && (forall h <- o.headers | h != "Content-Type" :: h in first.headers && first.headers[h] == o.headers[h])
      && (forall h <- first.headers :: h in o.headers || h == "Content-Type")
      && (if o.requestBodyBytes > 0 then
           && first.body == o.requestBodyBytes && "Content-Type" in first.headers
           && first.headers["Content-Type"] == (if "Content-Type" in o.headers && o.headers["Content-Type"] != "" then o.headers["Content-Type"] else "application/octet-stream")
         else first.body == 0 && first.headers == o.headers)
  {
    ChainLaws(w, follow, address, o);
  }

  lemma {:induction false} NoBytesWalkAlike(w: World, follow: bool, headers: map<string, string>, bytes: int, h: Hop)
    requires bytes <= 0
    ensures Walk(w, follow, headers, bytes, h) == Walk(w, follow, headers, 0, h)
    decreases Limit - |h.sent|
  {
    match After(w, follow, headers, bytes, h)
    case Stopped(_) =>
    case Next(h') => NoBytesWalkAlike(w, follow, headers, bytes, h');
  }

  /** Without a request body the two probers send the same requests and stop for the same reason. */
  lemma ProbersAgree(w: World, follow: bool, address: string, o: ProbeOptions)
    requires o.requestBodyBytes <= 0
    ensures ChainOf(w, follow, address, o) == BodyChainOf(w, follow, address, o)
  {
    match w.parse(address)
    case None =>
    case Some(url) => NoBytesWalkAlike(w, follow, o.headers, o.requestBodyBytes, Hop(Request(url, VerbOf(o), o.headers, 0), [], [], None));
  }

  // ---------- the two probers ----------

  /** The result of a probe: the chain it sent and what it reports of the final response. */
  datatype HttpResult = HttpResult(
    chain: Chain, received: bool, status: int, success: bool, phases: map<Phase, int>, duration: int,
    certObserved: bool, truncated: Option<bool>)

  const DefaultBodyLimit := 1048576
  const MaxBodyBytes := 1048576

  /** A probe that got no response to report on. */
  function NoResponse(chain: Chain, phases: map<Phase, int>, duration: int): HttpResult {
    HttpResult(chain, false, 0, false, phases, duration, false, None)
  }

  /** The url that answered last. */
  function LastScheme(chain: Chain): string { if chain.sent == [] then "" else chain.sent[|chain.sent| - 1].url.scheme }

  /** Closing a response body closes the connection it owns. */
  method CloseBody(net: Net, body: Option<Conn>)
    requires net.Valid() && body.Some? && Root(body.value) in net.open
    modifies net`open
    ensures net.Valid() && net.open == old(net.open) - {Root(body.value)}
  {
    net.Close(body.value);
  }

  /** What the loops leave: the chain, the last exchange, and its connection only if the chain ended in a response. */
  ghost predicate Followed(net: Net, chain: Chain, x: ExchangeResult, before: set<nat>)
    reads net
  {
    && (chain.stop.Final? ==>
         && x.response == Some(chain.stop.response) && x.body.Some? && Root(x.body.value) !in before
         && chain.sent != [] && x.targetTLS == (chain.sent[|chain.sent| - 1].url.scheme == "https")
         && net.open == before + {Root(x.body.value)})
    && (!chain.stop.Final? ==> net.open == before)
  }

  ghost predicate LastTimed(time: nat -> int, x: ExchangeResult, start: nat, now: nat) {
    exists from: nat :: start <= from && Finalised(x) && ExchangeTimed(time, x, from, now)
  }

  /** The http prober's loop. */
  method FollowRedirects(net: Net, w: World, follow: bool, headers: map<string, string>, bytes: int, first: Request) returns (chain: Chain, x: ExchangeResult)
    requires net.Valid()
    modifies net
    ensures net.Valid() && net.looks >= old(net.looks)
    ensures chain == Walk(w, follow, headers, bytes, Hop(first, [], [], None))
    ensures Followed(net, chain, x, old(net.open)) && LastTimed(net.time, x, old(net.looks), net.looks)
  {
    var cur, sent, codes, connect := first, [], [], None;
    while true
      invariant net.Valid() && net.open == old(net.open) && net.looks >= old(net.looks)
      invariant |sent| < Limit && Walk(w, follow, headers, bytes, Hop(first, [], [], None)) == Walk(w, follow, headers, bytes, Hop(cur, sent, codes, connect))
      decreases Limit - |sent|
    {
      ghost var from := net.looks;
      x := ExecuteProxyHTTPExchange(net, w.server(sent + [cur]), w.proxyHttps, cur.url.scheme);
      assert ExchangeTimed(net.time, x, from, net.looks);
      ghost var h := Hop(cur, sent, codes, connect);
      assert Exchange(w, h) == Exchanged(x.connect, x.response);
      sent := sent + [cur];
      if x.connect.Some? && connect.None? { connect := x.connect; }
      if x.response.None? { return Chain(sent, codes, connect, ExchangeError), x; }
      var resp := x.response.value;
      if !follow || !IsRedirect(resp.status) { return Chain(sent, codes, connect, Final(resp)), x; }
      var to := ResolveRedirect(w, cur.url, resp);
      if to.Stay? { return Chain(sent, codes, connect, Final(resp)), x; }
      CloseBody(net, x.body);
      if to.Bad? { return Chain(sent, codes, connect, BadLocation), x; }
      if |sent| >= Limit { return Chain(sent, codes, connect, HopLimit), x; }
      codes := codes + [resp.status];
      cur := RedirectedRequest(w, cur.verb, resp.status, headers, bytes, to.url);
    }
  }

  /** The http_body prober's loop: the second copy, without a request body. */
  method FollowBodyRedirects(net: Net, w: World, follow: bool, headers: map<string, string>, first: Request) returns (chain: Chain, x: ExchangeResult)
    requires net.Valid()
    modifies net
    ensures net.Valid() && net.looks >= old(net.looks)
    ensures chain == Walk(w, follow, headers, 0, Hop(first, [], [], None))
    ensures Followed(net, chain, x, old(net.open)) && LastTimed(net.time, x, old(net.looks), net.looks)
  {
    var cur, sent, codes, connect := first, [], [], None;
    while true
      invariant net.Valid() && net.open == old(net.open) && net.looks >= old(net.looks)
      invariant |sent| < Limit && Walk(w, follow, headers, 0, Hop(first, [], [], None)) == Walk(w, follow, headers, 0, Hop(cur, sent, codes, connect))
      decreases Limit - |sent|
    {
      ghost var from := net.looks;
      x := ExecuteProxyHTTPExchange(net, w.server(sent + [cur]), w.proxyHttps, cur.url.scheme);
      assert ExchangeTimed(net.time, x, from, net.looks);
      assert Exchange(w, Hop(cur, sent, codes, connect)) == Exchanged(x.connect, x.response);
      sent := sent + [cur];
      if x.connect.Some? && connect.None? { connect := x.connect; }
      if x.response.None? { return Chain(sent, codes, connect, ExchangeError), x; }
      var resp := x.response.value;
      if !follow || !IsRedirect(resp.status) { return Chain(sent, codes, connect, Final(resp)), x; }
      var to := ResolveRedirect(w, cur.url, resp);
      if to.Stay? { return Chain(sent, codes, connect, Final(resp)), x; }
      CloseBody(net, x.body);
      if to.Bad? { return Chain(sent, codes, connect, BadLocation), x; }
      if |sent| >= Limit { return Chain(sent, codes, connect, HopLimit), x; }
      codes := codes + [resp.status];
      cur := RedirectedRequest(w, cur.verb, resp.status, headers, 0, to.url).(body := 0);
    }
  }

  /** The phases of the last exchange, finalised, fit in the time since `start`. */
  lemma FinalWithin(time: nat -> int, x: ExchangeResult, start: nat, now: nat)
    requires Monotone(time) && LastTimed(time, x, start, now)
    ensures BuildProxyPhases(x.phases, x.setupEnd, x.wroteRequest, x.gotFirstByte, None) == x.phases
    ensures Within(x.phases, time(now) - time(start))
    ensures x.response.Some? ==> Within(BuildProxyPhases(x.phases, x.setupEnd, x.wroteRequest, x.gotFirstByte, Some(time(now))), time(now) - time(start))
  {
    var from: nat :| start <= from && Finalised(x) && ExchangeTimed(time, x, from, now);
    assert time(start) <= time(from);
    if x.response.Some? {
      assert BuildProxyPhases(x.phases, x.setupEnd, x.wroteRequest, x.gotFirstByte, Some(time(now))) == AddObservedPhase(x.phases, Transfer, Some(time(now)), x.gotFirstByte);
      AddWithin(x.phases, Transfer, Some(time(now)), x.gotFirstByte, x.gotFirstByte.value - time(from));
    }
  }

  /** What the http prober reports of a final response: its status and certificates, and, if its body was read,
      whether more than the limit was there. */
  predicate Reports(r: HttpResult, resp: Response, expected: seq<int>, limit: int) {
    && r.status == resp.status
    && r.certObserved == (LastScheme(r.chain) == "https" && resp.certificates)
    && r.truncated == (if resp.bodyOk then Some(resp.size > if limit > 0 then limit else 1048576) else None)
    && r.success == (resp.bodyOk && (expected == [] || resp.status in expected))
  }

  lemma FinalRead(time: nat -> int, x: ExchangeResult, start: nat, now: nat)
    requires LastTimed(time, x, start, now) && x.response.Some?
    ensures FinalPhases(time, BuildProxyPhases(x.phases, x.setupEnd, x.wroteRequest, x.gotFirstByte, Some(time(now))), now + 1)
  {
    var from: nat :| start <= from && Finalised(x) && ExchangeTimed(time, x, from, now);
  }

  /** The last four looks at the clock were at the end of setup, after the request, at the first byte and at the end of
      the body, and the phases between them are reported as such. */
  ghost predicate FinalPhases(time: nat -> int, phases: map<Phase, int>, now: nat) {
    && now >= 4 && Lasts(phases, RequestWrite, Some(time(now - 4)), Some(time(now - 3)))
    && Lasts(phases, TTFB, Some(time(now - 3)), Some(time(now - 2))) && Lasts(phases, Transfer, Some(time(now - 2)), Some(time(now - 1)))
  }

  /** The phases reported for a chain: those of the last exchange, with the transfer if there was a response, and
      none for a bad location. They fit in the time since `began`. */
  method ReportedPhases(stop: Stop, x: ExchangeResult, transferEnd: Stamp, ghost time: nat -> int, ghost began: nat, ghost now: nat) returns (phases: map<Phase, int>)
    requires began <= now && LastTimed(time, x, began, now) && transferEnd == Some(time(now)) && (stop.Final? ==> x.response.Some?)
    ensures Transfer in phases <==> stop.Final?
    ensures stop.Final? ==> FinalPhases(time, phases, now + 1)
    ensures Monotone(time) ==> Within(phases, time(now) - time(began))
  {
    TotalOfNothing(|InOrder|);
    if Monotone(time) { FinalWithin(time, x, began, now); }
    if stop.Final? { FinalRead(time, x, began, now); }
    match stop {
      case Final(_) => phases := BuildProxyPhases(x.phases, x.setupEnd, x.wroteRequest, x.gotFirstByte, transferEnd);
      case BadLocation => phases := map[];
      case _ => phases := BuildProxyPhases(x.phases, x.setupEnd, x.wroteRequest, x.gotFirstByte, None);
    }
  }

  /** Reading the final response's body up to the limit and judging its status. */
  method ReadResponse(r0: HttpResult, resp: Response, targetTLS: bool, expected: seq<int>, limit: int) returns (r: HttpResult)
    requires targetTLS == (LastScheme(r0.chain) == "https") && r0 == NoResponse(r0.chain, r0.phases, r0.duration)
    ensures Reports(r, resp, expected, limit) && r.received && r.chain == r0.chain && r.phases == r0.phases && r.duration == r0.duration
  {
    r := r0.(received := true, status := resp.status, certObserved := targetTLS && resp.certificates);
    var effectiveLimit := if limit <= 0 then DefaultBodyLimit else limit;
    var bytesRead := if resp.size > effectiveLimit + 1 then effectiveLimit + 1 else resp.size;
    if !resp.bodyOk { return; }
    r := r.(truncated := Some(bytesRead > effectiveLimit), success := |expected| == 0 || resp.status in expected);
  }

  lemma LastTimedSince(time: nat -> int, x: ExchangeResult, start: nat, began: nat, now: nat)
    requires LastTimed(time, x, start, now) && began <= start
    ensures LastTimed(time, x, began, now)
  {
    var from: nat :| start <= from && Finalised(x) && ExchangeTimed(time, x, from, now);
    assert began <= from && Finalised(x) && ExchangeTimed(time, x, from, now);
  }

  /** The http prober's chain and its timing, up to the final response's body. */
  method TimedChain(net: Net, w: World, follow: bool, headers: map<string, string>, bytes: int, first: Request, start: int, ghost began: nat) returns (x: ExchangeResult, r: HttpResult)
    requires net.Valid() && began < net.looks && start == net.time(began)
    modifies net
    ensures net.Valid() && Followed(net, r.chain, x, old(net.open))
    ensures r == NoResponse(Walk(w, follow, headers, bytes, Hop(first, [], [], None)), r.phases, r.duration)
    ensures r.chain.stop.Final? ==> FinalPhases(net.time, r.phases, net.looks)
    ensures net.looks > 0 && r.duration == net.time(net.looks - 1) - start
    ensures (Transfer in r.phases <==> r.chain.stop.Final?) && (Monotone(net.time) ==> Within(r.phases, r.duration))
  {
    var chain;
    chain, x := FollowRedirects(net, w, follow, headers, bytes, first);
    LastTimedSince(net.time, x, old(net.looks), began, net.looks);
    var transferEnd := net.Now();
    var phases := ReportedPhases(chain.stop, x, transferEnd, net.time, began, net.looks - 1);
    r := NoResponse(chain, phases, transferEnd.value - start);
  }

  /** The end of the http prober: the final response, if there is one, is read and its connection closed. */
  method ReadAndClose(net: Net, x: ExchangeResult, r0: HttpResult, ghost before: set<nat>, expected: seq<int>, limit: int) returns (r: HttpResult)
    requires net.Valid() && Followed(net, r0.chain, x, before) && r0 == NoResponse(r0.chain, r0.phases, r0.duration)
    modifies net`open
    ensures net.Valid() && net.open == before && r.chain == r0.chain && r.phases == r0.phases && r.duration == r0.duration
    ensures r.received <==> r.chain.stop.Final?
    ensures r.received ==> Reports(r, r.chain.stop.response, expected, limit)
    ensures !r.received ==> r == r0
  {
    r := r0;
    if r.chain.stop.Final? {
      r := ReadResponse(r, r.chain.stop.response, x.targetTLS, expected, limit);
      CloseBody(net, x.body);
    }
  }

  /** The http prober. Every connection it opened is closed on every return, and the reported phases never
      exceed the reported duration. */
  method ProbeViaProxy(net: Net, w: World, follow: bool, address: string, o: ProbeOptions, expected: seq<int>, limit: int) returns (r: HttpResult)
    requires net.Valid()
    modifies net
    ensures net.Valid() && net.open == old(net.open)
    ensures r.chain == ChainOf(w, follow, address, o)
    ensures r.received <==> r.chain.stop.Final?
    ensures r.received ==> Reports(r, r.chain.stop.response, expected, limit)
    ensures !r.received ==> r == NoResponse(r.chain, r.phases, r.duration)
    ensures Transfer in r.phases <==> r.received
    ensures r.received ==> FinalPhases(net.time, r.phases, net.looks)
    ensures net.looks > 0 && r.duration == net.time(net.looks - 1) - net.time(old(net.looks))
    ensures Monotone(net.time) ==> Within(r.phases, r.duration)
  {
    var start := net.Now();
    var parsed := w.parse(address);
    if parsed.None? {
      TotalOfNothing(|InOrder|);
      var end := net.Now();
      return NoResponse(Chain([], [], None, BadTarget), map[], end.value - start.value);
    }
    var x;
    var first := Request(parsed.value, VerbOf(o), HeadersOf(o), BodyOf(o));
    x, r := TimedChain(net, w, follow, HeadersOf(o), o.requestBodyBytes, first, start.value, net.looks - 1);
    r := ReadAndClose(net, x, r, old(net.open), expected, limit);
  }

  /** The http_body prober's chain and its timing, up to the final response's body. */
  method TimedBodyChain(net: Net, w: World, follow: bool, headers: map<string, string>, first: Request, start: int, ghost began: nat) returns (x: ExchangeResult, r: HttpResult)
    requires net.Valid() && began < net.looks && start == net.time(began)
    modifies net
    ensures net.Valid() && Followed(net, r.chain, x, old(net.open))
    ensures r == NoResponse(Walk(w, follow, headers, 0, Hop(first, [], [], None)), r.phases, r.duration)
    ensures r.chain.stop.Final? ==> FinalPhases(net.time, r.phases, net.looks)
    ensures (Transfer in r.phases <==> r.chain.stop.Final?) && (Monotone(net.time) ==> Within(r.phases, r.duration))
  {
    var chain;
    chain, x := FollowBodyRedirects(net, w, follow, headers, first);
    LastTimedSince(net.time, x, old(net.looks), began, net.looks);
    var transferEnd := net.Now();
    var phases := ReportedPhases(chain.stop, x, transferEnd, net.time, began, net.looks - 1);
    r := NoResponse(chain, phases, transferEnd.value - start);
  }

  /** The http_body prober; `matches` is the verdict of the body patterns on a body that was read whole. Its
      duration is taken by the caller. */
  method ProbeBodyViaProxy(net: Net, w: World, follow: bool, address: string, o: ProbeOptions, expected: seq<int>, matches: bool) returns (r: HttpResult)
    requires net.Valid()
    modifies net
    ensures net.Valid() && net.open == old(net.open)
    ensures r.chain == BodyChainOf(w, follow, address, o)
    ensures r.received <==> r.chain.stop.Final?
    ensures r.received ==> var resp := r.chain.stop.response;
      r.status == resp.status && r.success == (resp.bodyOk && resp.size <= 1048576 && matches && (expected == [] || r.status in expected))
    ensures !r.received ==> r == NoResponse(r.chain, r.phases, r.duration)
    ensures Transfer in r.phases <==> r.received
    ensures r.received ==> FinalPhases(net.time, r.phases, net.looks)
    ensures Monotone(net.time) ==> Within(r.phases, r.duration)
  {
    var start := net.Now();
    var parsed := w.parse(address);
    if parsed.None? {
      TotalOfNothing(|InOrder|);
      return NoResponse(Chain([], [], None, BadTarget), map[], 0);
    }
    var x;
    x, r := TimedBodyChain(net, w, follow, o.headers, Request(parsed.value, VerbOf(o), o.headers, 0), start.value, net.looks - 1);
    if r.chain.stop.Final? {
      CloseBody(net, x.body);
      var resp := r.chain.stop.response;
      r := r.(received := true, status := resp.status);
      var read := if resp.size > MaxBodyBytes + 1 then MaxBodyBytes + 1 else resp.size;
      if resp.bodyOk && read <= MaxBodyBytes {
        r := r.(success := matches && (|expected| == 0 || resp.status in expected));
      }
    }
  }
}
