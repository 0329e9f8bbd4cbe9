/** Configuration defaults, validation, tag keys and the canonical form behind the configuration
    hash (internal/config/config.go, internal/config/hash.go).

    Calls into libraries (URL parsing, regular expressions, environment and files, address syntax)
    and the option-by-probe-type rejections are the fields of `Library`. */
module Configuration {
  import opened Targets
  import opened Ordering

  datatype ProxyConfig = ProxyConfig(url: string, identity: ProxyIdentity, credentials: Credentials)

  datatype AgentConfig = AgentConfig(
    listenAddr: string, metricsPath: string, defaultInterval: int, defaultTimeout: int,
    initialProbeJitter: int, defaultICMPPayloadSizes: seq<int>, logLevel: string, logFormat: string,
    enableRuntimeMetrics: bool, allowedTagKeys: seq<string>, dnsResolver: string)

  datatype Config = Config(agent: AgentConfig, proxies: map<string, ProxyConfig>, targets: seq<TargetConfig>)

  datatype ProxyURL = ProxyURL(endpoint: string, https: bool)

  datatype Library = Library(
    metricsPathOk: string -> bool,
    resolverOk: string -> bool,
    labelNameOk: string -> bool,
    proxyNameOk: string -> bool,
    parseProxy: string -> Option<ProxyURL>,
    credentials: ProxyConfig -> Option<Credentials>,
    optionsOk: TargetConfig -> bool)

  const FixedLabels: set<string> := {"target", "target_name", "probe_type", "proxy_name", "proxy_endpoint"}
  const ValidLogLevels: set<string> := {"debug", "info", "warn", "error"}
  const ValidLogFormats: set<string> := {"text", "json"}
  const MaxTagsPerTarget := 20
  const MaxGlobalTagKeys := 30
  const MaxProxies := 64
  const DefaultICMPPayloadSizes: seq<int> := [1472, 1392, 1372, 1272, 1172, 1072]
  const DefaultMTURetries := 3
  const DefaultMTUPerAttemptTimeout := 2000000000
  const IPAndICMPHeaders := 28

  // ---------- defaults ----------

  function Or(s: string, default: string): string { if s == "" then default else s }

  function OrInt(n: int, default: int): int { if n == 0 then default else n }

  function AgentWithDefaults(a: AgentConfig): AgentConfig {
    a.(listenAddr := Or(a.listenAddr, ":9275"), metricsPath := Or(a.metricsPath, "/metrics"),
       logLevel := Or(a.logLevel, "info"), logFormat := Or(a.logFormat, "text"))
  }

  function OptsWithDefaults(a: AgentConfig, o: ProbeOptions): ProbeOptions {
    var sizes :=
      if o.icmpPayloadSizes != [] then o.icmpPayloadSizes
      else if a.defaultICMPPayloadSizes != [] then a.defaultICMPPayloadSizes
      else DefaultICMPPayloadSizes;
    o.(icmpPayloadSizes := sizes,
       mtuRetries := OrInt(o.mtuRetries, DefaultMTURetries),
       mtuPerAttemptTimeout := OrInt(o.mtuPerAttemptTimeout, DefaultMTUPerAttemptTimeout),
       expectedMinMTU := OrInt(o.expectedMinMTU, sizes[0] + IPAndICMPHeaders))
  }

  function TargetWithDefaults(a: AgentConfig, t: TargetConfig): TargetConfig {
    t.(interval := OrInt(t.interval, a.defaultInterval),
       timeout := OrInt(t.timeout, a.defaultTimeout),
       dnsResolver := if t.dnsResolver.None? then Some(a.dnsResolver) else t.dnsResolver,
       opts := if t.probeType == MTU then OptsWithDefaults(a, t.opts) else t.opts)
  }

  function WithDefaults(c: Config): Config {
    var a := AgentWithDefaults(c.agent);
    Config(a, c.proxies, seq(|c.targets|, i requires 0 <= i < |c.targets| => TargetWithDefaults(a, c.targets[i])))
  }

  lemma DefaultsAreIdempotent(c: Config)
    ensures WithDefaults(WithDefaults(c)) == WithDefaults(c)
  {
    var a := AgentWithDefaults(c.agent);
    forall i | 0 <= i < |c.targets|
      ensures TargetWithDefaults(a, TargetWithDefaults(a, c.targets[i])) == TargetWithDefaults(a, c.targets[i])
    {
      var t := c.targets[i];
      assert OptsWithDefaults(a, OptsWithDefaults(a, t.opts)) == OptsWithDefaults(a, t.opts);
    }
    assert WithDefaults(WithDefaults(c)).targets == WithDefaults(c).targets;
  }

  /** Defaults fill gaps and nothing else: a value that was given stays, and these are the values of the rest. */
  lemma DefaultsFillOnlyGaps(c: Config, i: nat)
    requires i < |c.targets|
    ensures var d := WithDefaults(c); |d.targets| == |c.targets| && d.proxies == c.proxies
    ensures var a, b := c.agent, WithDefaults(c).agent;
      && AgentGiven(a, b)
      && (a.listenAddr == "" ==> b.listenAddr == ":9275") && (a.metricsPath == "" ==> b.metricsPath == "/metrics")
      && (a.logLevel == "" ==> b.logLevel == "info") && (a.logFormat == "" ==> b.logFormat == "text")
    ensures var t, u := c.targets[i], WithDefaults(c).targets[i];
      && TargetGiven(t, u)
      && (t.interval == 0 ==> u.interval == c.agent.defaultInterval) && (t.timeout == 0 ==> u.timeout == c.agent.defaultTimeout)
      && (t.dnsResolver.None? ==> u.dnsResolver == Some(c.agent.dnsResolver))
      && (t.probeType != MTU ==> u.opts == t.opts)
      && (t.probeType == MTU ==> MtuGapsFilled(c.agent, t.opts, u.opts))
  {
  }

  /** What an MTU target gets for options it does not give: the agent's sizes or these six, three retries, two seconds
      per attempt, and the largest size with its headers as the expected minimum. */
  predicate MtuGapsFilled(a: AgentConfig, given: ProbeOptions, o: ProbeOptions) {
    && (given.icmpPayloadSizes == [] ==>
         o.icmpPayloadSizes == if a.defaultICMPPayloadSizes != [] then a.defaultICMPPayloadSizes else [1472, 1392, 1372, 1272, 1172, 1072])
    && (given.mtuRetries == 0 ==> o.mtuRetries == 3) && (given.mtuPerAttemptTimeout == 0 ==> o.mtuPerAttemptTimeout == 2000000000)
    && o.icmpPayloadSizes != [] && (given.expectedMinMTU == 0 ==> o.expectedMinMTU == o.icmpPayloadSizes[0] + 28)
  }

  /** Everything `a` gives is in `b`. */
  predicate AgentGiven(a: AgentConfig, b: AgentConfig) {
    && b == a.(listenAddr := b.listenAddr, metricsPath := b.metricsPath, logLevel := b.logLevel, logFormat := b.logFormat)
    && (a.listenAddr != "" ==> b.listenAddr == a.listenAddr) && (a.metricsPath != "" ==> b.metricsPath == a.metricsPath)
    && (a.logLevel != "" ==> b.logLevel == a.logLevel) && (a.logFormat != "" ==> b.logFormat == a.logFormat)
  }

  predicate TargetGiven(t: TargetConfig, u: TargetConfig) {
    && u == t.(interval := u.interval, timeout := u.timeout, dnsResolver := u.dnsResolver, opts := u.opts)
    && (t.interval != 0 ==> u.interval == t.interval) && (t.timeout != 0 ==> u.timeout == t.timeout)
    && (t.dnsResolver.Some? ==> u.dnsResolver == t.dnsResolver)
    && u.opts == t.opts.(icmpPayloadSizes := u.opts.icmpPayloadSizes, mtuRetries := u.opts.mtuRetries,
                         mtuPerAttemptTimeout := u.opts.mtuPerAttemptTimeout, expectedMinMTU := u.opts.expectedMinMTU)
    && (t.opts.icmpPayloadSizes != [] ==> u.opts.icmpPayloadSizes == t.opts.icmpPayloadSizes)
    && (t.opts.mtuRetries != 0 ==> u.opts.mtuRetries == t.opts.mtuRetries)
    && (t.opts.mtuPerAttemptTimeout != 0 ==> u.opts.mtuPerAttemptTimeout == t.opts.mtuPerAttemptTimeout)
    && (t.opts.expectedMinMTU != 0 ==> u.opts.expectedMinMTU == t.opts.expectedMinMTU)
  }

  // ---------- what validation accepts ----------

  predicate Descending(sizes: seq<int>) {
    && (forall i | 0 <= i < |sizes| :: sizes[i] > 0)
    && (forall i, j | 0 <= i < j < |sizes| :: sizes[i] > sizes[j])
  }

  predicate LabelNameOk(lib: Library, k: string) { lib.labelNameOk(k) && k !in FixedLabels }

  predicate AllowedKeysOk(lib: Library, keys: seq<string>) {
    |keys| <= MaxGlobalTagKeys && Distinct(keys) && forall k <- keys :: LabelNameOk(lib, k)
  }

  predicate AgentOk(lib: Library, a: AgentConfig) {
    && a.logLevel in ValidLogLevels && a.logFormat in ValidLogFormats
    && lib.metricsPathOk(a.metricsPath) && a.initialProbeJitter >= 0 && lib.resolverOk(a.dnsResolver)
    && Descending(a.defaultICMPPayloadSizes) && AllowedKeysOk(lib, a.allowedTagKeys)
  }

  predicate ProxyOk(lib: Library, name: string, p: ProxyConfig) {
    && lib.proxyNameOk(name) && p.url != "" && lib.parseProxy(p.url).Some?
    && (p.identity.tlsSkipVerify ==> lib.parseProxy(p.url).value.https)
    && lib.credentials(WithEndpoint(lib, p)).Some?
  }

  function WithEndpoint(lib: Library, p: ProxyConfig): ProxyConfig
    requires lib.parseProxy(p.url).Some?
  {
    p.(identity := p.identity.(endpoint := lib.parseProxy(p.url).value.endpoint))
  }

  /** A proxy after validation: its canonical endpoint and its credentials. */
  function ResolveProxy(lib: Library, name: string, p: ProxyConfig): ProxyConfig
    requires ProxyOk(lib, name, p)
  {
    WithEndpoint(lib, p).(credentials := lib.credentials(WithEndpoint(lib, p)).value)
  }

  predicate ProxiesOk(lib: Library, proxies: map<string, ProxyConfig>) {
    && |proxies| <= MaxProxies
    && (forall n <- proxies :: ProxyOk(lib, n, proxies[n]))
    && (forall n, m | n in proxies && m in proxies && n != m :: Endpoint(lib, proxies[n]) != Endpoint(lib, proxies[m]))
  }

  function Endpoint(lib: Library, p: ProxyConfig): Option<string> {
    var u := lib.parseProxy(p.url);
    if u.None? then None else Some(u.value.endpoint)
  }

  function ResolveProxies(lib: Library, proxies: map<string, ProxyConfig>): map<string, ProxyConfig>
    requires ProxiesOk(lib, proxies)
  {
    map n | n in proxies :: ResolveProxy(lib, n, proxies[n])
  }

  predicate MtuOk(t: TargetConfig) {
    var o := t.opts;
    && o.icmpPayloadSizes != [] && Descending(o.icmpPayloadSizes)
    && 0 < o.expectedMinMTU <= o.icmpPayloadSizes[0] + IPAndICMPHeaders
    && o.mtuRetries >= 1 && 0 < o.mtuPerAttemptTimeout <= t.timeout
  }

  predicate SupportsProxy(p: ProbeType) { p in {HTTP, HTTPBody, TLSCert, ProxyConnect} }

  predicate ProxyRefOk(lib: Library, names: set<string>, t: TargetConfig) {
    if t.proxyName == "" then t.probeType != ProxyConnect
    else SupportsProxy(t.probeType) && lib.proxyNameOk(t.proxyName) && t.proxyName in names
  }

  predicate TagKeyOk(lib: Library, allowed: seq<string>, k: string) {
    if allowed != [] then k in allowed else LabelNameOk(lib, k)
  }

  predicate TargetOk(lib: Library, allowed: seq<string>, names: set<string>, t: TargetConfig) {
    && t.name != "" && t.address != "" && !t.probeType.OtherType?
    && 0 < t.timeout <= t.interval
    && |t.tags| <= MaxTagsPerTarget && (forall k <- t.tags :: TagKeyOk(lib, allowed, k))
    && (t.dnsResolver.Some? ==> lib.resolverOk(t.dnsResolver.value))
    && lib.optionsOk(t) && ProxyRefOk(lib, names, t) && (t.probeType == MTU ==> MtuOk(t))
  }

  function DynamicKeys(targets: seq<TargetConfig>): set<string> {
    if targets == [] then {} else DynamicKeys(targets[..|targets| - 1]) + targets[|targets| - 1].tags.Keys
  }

  predicate UniqueNames(targets: seq<TargetConfig>) {
    forall i, j | 0 <= i < j < |targets| :: targets[i].name != targets[j].name
  }

  function NameOf(t: TargetConfig): string { t.name }

  predicate Accepts(lib: Library, c: Config) {
    && AgentOk(lib, c.agent) && ProxiesOk(lib, c.proxies)
    && (forall t <- c.targets :: TargetOk(lib, c.agent.allowedTagKeys, c.proxies.Keys, t))
    && UniqueNames(c.targets)
    && (c.agent.initialProbeJitter > 0 ==> forall t <- c.targets :: c.agent.initialProbeJitter <= t.interval)
    && (c.agent.allowedTagKeys == [] ==> |DynamicKeys(c.targets)| <= MaxGlobalTagKeys)
  }

  /** What validation attaches to a target: the registry entry its proxy name refers to. */
  function ResolveTarget(proxies: map<string, ProxyConfig>, t: TargetConfig): TargetConfig {
    if t.proxyName in proxies && t.proxyName != "" then
      var p := proxies[t.proxyName];
      t.(resolvedProxy := Some(ResolvedProxy(p.identity, p.credentials)))
    else t
  }

  function ResolveTargets(proxies: map<string, ProxyConfig>, targets: seq<TargetConfig>): seq<TargetConfig> {
    seq(|targets|, i requires 0 <= i < |targets| => ResolveTarget(proxies, targets[i]))
  }

  function Resolve(lib: Library, c: Config): Config
    requires Accepts(lib, c)
  {
    var proxies := ResolveProxies(lib, c.proxies);
    Config(c.agent, proxies, ResolveTargets(proxies, c.targets))
  }

  /** A configuration the agent may run: what the scheduler, the exporter and the probers rely on. */
  ghost predicate Sound(c: Config) {
    UniqueNames(c.targets) && ProxiesSound(c) && TagsSound(c) && forall t <- c.targets :: TargetSound(c, t)
  }

  ghost predicate TargetSound(c: Config, t: TargetConfig) {
    && t.name != "" && 0 < t.timeout <= t.interval
    && (c.agent.initialProbeJitter > 0 ==> c.agent.initialProbeJitter <= t.interval)
    && (t.probeType == MTU ==> MtuOk(t))
    && (t.resolvedProxy.Some? <==> t.proxyName != "")
    && (t.proxyName != "" ==>
         && t.proxyName in c.proxies
         && t.resolvedProxy == Some(ResolvedProxy(c.proxies[t.proxyName].identity, c.proxies[t.proxyName].credentials)))
  }

  ghost predicate ProxiesSound(c: Config) {
    forall n, m | n in c.proxies && m in c.proxies && n != m :: c.proxies[n].identity.endpoint != c.proxies[m].identity.endpoint
  }

  ghost predicate TagsSound(c: Config) {
    && (forall t <- c.targets :: t.tags.Keys <= TagKeySet(c))
    && (forall k <- TagKeySet(c) :: k !in FixedLabels)
    && |TagKeySet(c)| <= MaxGlobalTagKeys
  }

  function TagKeySet(c: Config): set<string> {
    if c.agent.allowedTagKeys != [] then Elements(c.agent.allowedTagKeys) else DynamicKeys(c.targets)
  }

  lemma {:induction false} InDynamicKeys(targets: seq<TargetConfig>, k: string)
    ensures k in DynamicKeys(targets) <==> exists t :: t in targets && k in t.tags
    decreases |targets|
  {
    if targets != [] {
      var last := |targets| - 1;
      InDynamicKeys(targets[..last], k);
      assert targets == targets[..last] + [targets[last]];
      assert forall t :: t in targets <==> t in targets[..last] || t == targets[last];
    }
  }

  lemma {:induction false} ElementsBound(keys: seq<string>)
    ensures |Elements(keys)| <= |keys|
  {
    if keys != [] {
      ElementsBound(keys[1..]);
      assert Elements(keys) == Elements(keys[1..]) + {keys[0]};
    }
  }

  lemma {:induction false} DynamicKeysResolved(proxies: map<string, ProxyConfig>, targets: seq<TargetConfig>)
    ensures DynamicKeys(ResolveTargets(proxies, targets)) == DynamicKeys(targets)
    decreases |targets|
  {
    if targets != [] {
      var last := |targets| - 1;
      DynamicKeysResolved(proxies, targets[..last]);
      assert ResolveTargets(proxies, targets)[..last] == ResolveTargets(proxies, targets[..last]);
    }
  }

  lemma AcceptedTags(lib: Library, c: Config)
    requires Accepts(lib, c)
    ensures TagsSound(c)
  {
    ElementsBound(c.agent.allowedTagKeys);
    forall k | k in TagKeySet(c) ensures k !in FixedLabels {
      if c.agent.allowedTagKeys == [] { InDynamicKeys(c.targets, k); }
    }
    forall t, k | t in c.targets && k in t.tags ensures k in TagKeySet(c) {
      assert TagKeyOk(lib, c.agent.allowedTagKeys, k);
      InDynamicKeys(c.targets, k);
    }
  }

  lemma ResolvedTags(c: Config, r: Config)
    requires TagsSound(c) && r.agent == c.agent && r.targets == ResolveTargets(r.proxies, c.targets)
    ensures TagsSound(r)
  {
    DynamicKeysResolved(r.proxies, c.targets);
    forall t | t in r.targets ensures t.tags.Keys <= TagKeySet(c) {
      var i :| 0 <= i < |r.targets| && r.targets[i] == t;
      assert c.targets[i] in c.targets;
    }
  }

  /** A freshly loaded configuration that validates is sound. */
  lemma AcceptedIsSound(lib: Library, c: Config)
    requires Accepts(lib, c) && forall t <- c.targets :: t.resolvedProxy.None?
    ensures Sound(Resolve(lib, c))
  {
    var r := Resolve(lib, c);
    AcceptedTags(lib, c);
    ResolvedTags(c, r);
    forall i | 0 <= i < |c.targets| ensures TargetSound(r, r.targets[i]) {
      assert TargetOk(lib, c.agent.allowedTagKeys, c.proxies.Keys, c.targets[i]);
    }
  }

  /** The limits and fixed sets an accepted configuration keeps to. */
  lemma AcceptedWithinLimits(lib: Library, c: Config)
    requires Accepts(lib, c)
    ensures |c.proxies| <= 64 && |TagKeySet(c)| <= 30 && forall t <- c.targets :: |t.tags| <= 20
    ensures c.agent.logLevel in {"debug", "info", "warn", "error"} && c.agent.logFormat in {"text", "json"}
    ensures forall k <- TagKeySet(c) :: k !in {"target", "target_name", "probe_type", "proxy_name", "proxy_endpoint"}
  {
    AcceptedTags(lib, c);
    forall t <- c.targets ensures |t.tags| <= 20 { assert TargetOk(lib, c.agent.allowedTagKeys, c.proxies.Keys, t); }
  }

  /** What validation makes of a proxy entry: the endpoint its URL parses to and the credentials its sources give; the
      rest stays. */
  lemma ResolvedProxyRead(lib: Library, c: Config, n: string)
    requires Accepts(lib, c) && n in c.proxies
    ensures var p, q := c.proxies[n], Resolve(lib, c).proxies[n];
      && Resolve(lib, c).proxies.Keys == c.proxies.Keys
      && q.url == p.url && lib.parseProxy(p.url) == Some(ProxyURL(q.identity.endpoint, lib.parseProxy(p.url).value.https))
      && q.identity == p.identity.(endpoint := q.identity.endpoint)
      && lib.credentials(q.(credentials := p.credentials)) == Some(q.credentials)
  {
  }

  // ---------- the loader ----------

  class ConfigFile {
    var cfg: Config

    constructor (parsed: Config)
      ensures cfg == parsed
    {
      cfg := parsed;
    }

    method ApplyDefaults()
      modifies this
      ensures cfg == WithDefaults(old(cfg))
    {
      var a := cfg.agent;
      if a.listenAddr == "" { a := a.(listenAddr := ":9275"); }
      if a.metricsPath == "" { a := a.(metricsPath := "/metrics"); }
      if a.logLevel == "" { a := a.(logLevel := "info"); }
      if a.logFormat == "" { a := a.(logFormat := "text"); }
      cfg := cfg.(agent := a);
      for i := 0 to |cfg.targets|
        invariant |cfg.targets| == |old(cfg.targets)|
        invariant cfg.agent == a == AgentWithDefaults(old(cfg.agent)) && cfg.proxies == old(cfg.proxies)
        invariant forall j | 0 <= j < i :: cfg.targets[j] == TargetWithDefaults(a, old(cfg.targets)[j])
        invariant forall j | i <= j < |cfg.targets| :: cfg.targets[j] == old(cfg.targets)[j]
      {
        var t := ApplyTargetDefaults(a, cfg.targets[i]);
        cfg := cfg.(targets := cfg.targets[i := t]);
      }
      assert cfg.targets == WithDefaults(old(cfg)).targets;
    }

    static method ApplyTargetDefaults(a: AgentConfig, t0: TargetConfig) returns (t: TargetConfig)
      ensures t == TargetWithDefaults(a, t0)
    {
      t := t0;
      if t.interval == 0 { t := t.(interval := a.defaultInterval); }
      if t.timeout == 0 { t := t.(timeout := a.defaultTimeout); }
      if t.dnsResolver.None? { t := t.(dnsResolver := Some(a.dnsResolver)); }
      if t.probeType == MTU {
        var o := ApplyMTUDefaults(a, t.opts);
        t := t.(opts := o);
      }
    }

    static method ApplyMTUDefaults(a: AgentConfig, o0: ProbeOptions) returns (o: ProbeOptions)
      ensures o == OptsWithDefaults(a, o0)
    {
      o := o0;
      if |o.icmpPayloadSizes| == 0 {
        o := o.(icmpPayloadSizes := if |a.defaultICMPPayloadSizes| > 0 then a.defaultICMPPayloadSizes else DefaultICMPPayloadSizes);
      }
      if o.mtuRetries == 0 { o := o.(mtuRetries := DefaultMTURetries); }
      if o.mtuPerAttemptTimeout == 0 { o := o.(mtuPerAttemptTimeout := DefaultMTUPerAttemptTimeout); }
      if o.expectedMinMTU == 0 && |o.icmpPayloadSizes| > 0 {
        o := o.(expectedMinMTU := o.icmpPayloadSizes[0] + IPAndICMPHeaders);
      }
    }

    /** Validation succeeds exactly on the acceptable configurations and resolves them. */
    method Validate(lib: Library) returns (ok: bool)
      modifies this
      ensures ok <==> Accepts(lib, old(cfg))
      ensures ok ==> cfg == Resolve(lib, old(cfg))
    {
      ok := ValidateAgent(lib, cfg.agent);
      if !ok { return; }
      ok := ValidateProxies(lib);
      if !ok { return; }
      ok := ValidateTargets(lib, old(cfg.proxies));
      if !ok { return; }
      if |cfg.agent.allowedTagKeys| == 0 {
        DynamicKeysResolved(cfg.proxies, old(cfg.targets));
        var keys := CollectDynamicTagKeys(cfg.targets);
        SortedListSize(keys);
        ok := |keys| <= MaxGlobalTagKeys;
      }
    }

    static method ValidateAgent(lib: Library, a: AgentConfig) returns (ok: bool)
      ensures ok <==> AgentOk(lib, a)
    {
      if a.logLevel !in ValidLogLevels || a.logFormat !in ValidLogFormats || !lib.metricsPathOk(a.metricsPath)
        || a.initialProbeJitter < 0 || !lib.resolverOk(a.dnsResolver)
      {
        return false;
      }
      ok := ValidateSizes(a.defaultICMPPayloadSizes);
      if !ok { return; }
      ok := ValidateAllowedTagKeys(lib, a.allowedTagKeys);
    }

    static method ValidateSizes(sizes: seq<int>) returns (ok: bool)
      ensures ok <==> Descending(sizes)
    {
      for i := 0 to |sizes|
        invariant forall j | 0 <= j < i :: sizes[j] > 0
      {
        if sizes[i] <= 0 { return false; }
      }
      if |sizes| == 0 { return true; }
      for i := 1 to |sizes|
        invariant forall j, k | 0 <= j < k < i :: sizes[j] > sizes[k]
      {
        if sizes[i] >= sizes[i - 1] { return false; }
      }
      return true;
    }

    static method ValidateAllowedTagKeys(lib: Library, keys: seq<string>) returns (ok: bool)
      ensures ok <==> AllowedKeysOk(lib, keys)
    {
      if |keys| > MaxGlobalTagKeys { return false; }
      var seen: set<string> := {};
      for i := 0 to |keys|
        invariant seen == Elements(keys[..i]) && Distinct(keys[..i])
        invariant forall k <- keys[..i] :: LabelNameOk(lib, k)
      {
        assert keys[..i + 1] == keys[..i] + [keys[i]] && keys[i] in keys;
        if keys[i] in seen { return false; }
        seen := seen + {keys[i]};
        if !lib.labelNameOk(keys[i]) || keys[i] in FixedLabels { return false; }
      }
      assert keys[..|keys|] == keys;
      return true;
    }

    /** Each proxy gets its canonical endpoint and credentials; endpoints must be distinct. */
    method ValidateProxies(lib: Library) returns (ok: bool)
      modifies this
      ensures ok <==> ProxiesOk(lib, old(cfg.proxies))
      ensures ok ==> cfg == old(cfg).(proxies := ResolveProxies(lib, old(cfg.proxies)))
      ensures cfg.agent == old(cfg.agent) && cfg.targets == old(cfg.targets)
    {
      if |cfg.proxies| > MaxProxies { return false; }
      var todo := cfg.proxies.Keys;
      var endpoints: map<string, string> := map[];
      ghost var start := cfg.proxies;
      while todo != {}
        invariant todo <= start.Keys && cfg.proxies.Keys == start.Keys
        invariant cfg.agent == old(cfg.agent) && cfg.targets == old(cfg.targets)
        invariant ProxyProgress(lib, start, cfg.proxies, todo, endpoints)
      {
        var name :| name in todo;
        assert ProxyStep(lib, start, cfg.proxies, todo, name);
        var p := ValidateProxy(lib, name, cfg.proxies[name]);
        if p.None? { return false; }
        var endpoint := p.value.identity.endpoint;
        if endpoint in endpoints {
          EndpointClash(lib, start, cfg.proxies, todo, endpoints, name);
          return false;
        }
        ProxyProgressStep(lib, start, cfg.proxies, todo, endpoints, name);
        endpoints := endpoints[endpoint := name];
        cfg := cfg.(proxies := cfg.proxies[name := p.value]);
        todo := todo - {name};
      }
      ProxyProgressDone(lib, start, cfg.proxies, endpoints);
      return true;
    }

    static method ValidateProxy(lib: Library, name: string, p0: ProxyConfig) returns (r: Option<ProxyConfig>)
      ensures r.Some? <==> ProxyOk(lib, name, p0)
      ensures r.Some? ==> r.value == ResolveProxy(lib, name, p0)
    {
      if !lib.proxyNameOk(name) || p0.url == "" { return None; }
      var u := lib.parseProxy(p0.url);
      if u.None? { return None; }
      var p := p0.(identity := p0.identity.(endpoint := u.value.endpoint));
      if p.identity.tlsSkipVerify && !u.value.https { return None; }
      var creds := lib.credentials(p);
      if creds.None? { return None; }
      return Some(p.(credentials := creds.value));
    }

    /** Per-target checks, unique names, proxy references and the jitter bound. */
    method ValidateTargets(lib: Library, ghost start: map<string, ProxyConfig>) returns (ok: bool)
      requires start.Keys == cfg.proxies.Keys
      modifies this
      ensures ok <==>
        && Checked(lib, old(cfg.agent.allowedTagKeys), start.Keys, old(cfg.targets))
        && (old(cfg.agent.initialProbeJitter) > 0 ==> forall t <- old(cfg.targets) :: old(cfg.agent.initialProbeJitter) <= t.interval)
      ensures ok ==> cfg == old(cfg).(targets := ResolveTargets(old(cfg.proxies), old(cfg.targets)))
    {
      var targets, allowed, names := cfg.targets, cfg.agent.allowedTagKeys, cfg.proxies.Keys;
      var seen: set<string> := {};
      var shortest := 0;
      for i := 0 to |targets|
        invariant cfg == old(cfg).(targets := cfg.targets)
        invariant cfg.targets == ResolveTargets(cfg.proxies, targets[..i]) + targets[i..]
        invariant Checked(lib, allowed, names, targets[..i]) && seen == NamesOf(targets[..i])
        invariant IsShortest(targets[..i], shortest)
      {
        var t := targets[i];
        CheckedStep(lib, allowed, names, targets, i);
        ShortestStep(targets, i, shortest);
        if t.name in seen { return false; }
        ok := ValidateTarget(lib, allowed, names, t);
        if !ok { return; }
        seen := seen + {t.name};
        if shortest == 0 || t.interval < shortest { shortest := t.interval; }
        ResolveStep(cfg.proxies, targets, i);
        cfg := cfg.(targets := cfg.targets[i := ResolveTarget(cfg.proxies, t)]);
      }
      assert targets[..|targets|] == targets;
      ok := !(cfg.agent.initialProbeJitter > 0 && shortest > 0 && cfg.agent.initialProbeJitter > shortest);
    }

    static method ValidateTarget(lib: Library, allowed: seq<string>, names: set<string>, t: TargetConfig) returns (ok: bool)
      ensures ok <==> TargetOk(lib, allowed, names, t)
    {
      if t.name == "" || t.address == "" || t.probeType.OtherType? || t.interval <= 0 || t.timeout <= 0
        || t.timeout > t.interval || |t.tags| > MaxTagsPerTarget
      {
        return false;
      }
      ok := ValidateTagKeys(lib, allowed, t);
      if !ok { return; }
      if t.dnsResolver.Some? && !lib.resolverOk(t.dnsResolver.value) { return false; }
      if !lib.optionsOk(t) { return false; }
      match t.probeType {
        case TCP => ok := t.proxyName == "";
        case ICMP => ok := t.proxyName == "";
        case DNS => ok := t.proxyName == "";
        case MTU =>
          if t.proxyName != "" { return false; }
          ok := ValidateICMPPayloadSizes(t);
        case _ =>
          if t.proxyName == "" { return t.probeType != ProxyConnect; }
          ok := lib.proxyNameOk(t.proxyName) && t.proxyName in names;
      }
    }

    static method ValidateTagKeys(lib: Library, allowed: seq<string>, t: TargetConfig) returns (ok: bool)
      ensures ok <==> forall k <- t.tags :: TagKeyOk(lib, allowed, k)
    {
      var todo := t.tags.Keys;
      while todo != {}
        invariant todo <= t.tags.Keys
        invariant forall k <- t.tags :: k in todo || TagKeyOk(lib, allowed, k)
      {
        var k :| k in todo;
        if |allowed| > 0 {
          if k !in allowed { return false; }
        } else {
          if !lib.labelNameOk(k) || k in FixedLabels { return false; }
        }
        todo := todo - {k};
      }
      return true;
    }

    static method ValidateICMPPayloadSizes(t: TargetConfig) returns (ok: bool)
      ensures ok <==> MtuOk(t)
    {
      var sizes := t.opts.icmpPayloadSizes;
      if |sizes| == 0 { return false; }
      ok := ValidateSizes(sizes);
      if !ok { return; }
      ok := t.opts.expectedMinMTU > 0 && t.opts.expectedMinMTU <= sizes[0] + IPAndICMPHeaders
        && t.opts.mtuRetries >= 1 && t.opts.mtuPerAttemptTimeout > 0 && t.opts.mtuPerAttemptTimeout <= t.timeout;
    }
  }

  predicate Checked(lib: Library, allowed: seq<string>, names: set<string>, targets: seq<TargetConfig>) {
    (forall t <- targets :: TargetOk(lib, allowed, names, t)) && UniqueNames(targets)
  }

  function NamesOf(targets: seq<TargetConfig>): set<string> { set t | t in targets :: t.name }

  /** The shortest interval of the targets, zero when there are none. */
  ghost predicate IsShortest(targets: seq<TargetConfig>, shortest: int) {
    if targets == [] then shortest == 0
    else (forall t <- targets :: shortest <= t.interval) && exists t <- targets :: t.interval == shortest
  }

  lemma CheckedStep(lib: Library, allowed: seq<string>, names: set<string>, targets: seq<TargetConfig>, i: nat)
    requires i < |targets| && Checked(lib, allowed, names, targets[..i])
    ensures NamesOf(targets[..i + 1]) == NamesOf(targets[..i]) + {targets[i].name}
    ensures Checked(lib, allowed, names, targets[..i + 1]) <==>
      TargetOk(lib, allowed, names, targets[i]) && targets[i].name !in NamesOf(targets[..i])
    ensures Checked(lib, allowed, names, targets) ==> Checked(lib, allowed, names, targets[..i + 1])
  {
    assert targets[..i + 1] == targets[..i] + [targets[i]];
    UniqueStep(targets[..i], targets[i]);
  }

  lemma UniqueStep(init: seq<TargetConfig>, t: TargetConfig)
    requires UniqueNames(init)
    ensures UniqueNames(init + [t]) <==> t.name !in NamesOf(init)
  {
    if t.name in NamesOf(init) {
      var u :| u in init && u.name == t.name;
      var j :| 0 <= j < |init| && init[j] == u;
      assert (init + [t])[j].name == (init + [t])[|init|].name;
    } else {
      forall j | 0 <= j < |init| ensures init[j].name != t.name {
        assert init[j] in init;
      }
    }
  }

  lemma ShortestStep(targets: seq<TargetConfig>, i: nat, shortest: int)
    requires i < |targets| && IsShortest(targets[..i], shortest) && forall t <- targets[..i] :: t.interval > 0
    ensures IsShortest(targets[..i + 1], if shortest == 0 || targets[i].interval < shortest then targets[i].interval else shortest)
  {
    assert targets[..i + 1] == targets[..i] + [targets[i]];
    assert targets[i] in targets[..i + 1];
  }

  lemma ResolveStep(proxies: map<string, ProxyConfig>, targets: seq<TargetConfig>, i: nat)
    requires i < |targets|
    ensures (ResolveTargets(proxies, targets[..i]) + targets[i..])[i := ResolveTarget(proxies, targets[i])]
         == ResolveTargets(proxies, targets[..i + 1]) + targets[i + 1..]
  {
  }

  /** Proxy `n` is resolved once it has left the work list. */
  ghost predicate ProxyStep(lib: Library, start: map<string, ProxyConfig>, now: map<string, ProxyConfig>, todo: set<string>, n: string)
    requires n in start
  {
    n in now && if n in todo then now[n] == start[n] else ProxyOk(lib, n, start[n]) && now[n] == ResolveProxy(lib, n, start[n])
  }

  ghost predicate EndpointTaken(endpoints: map<string, string>, now: map<string, ProxyConfig>, n: string) {
    n in now && now[n].identity.endpoint in endpoints && endpoints[now[n].identity.endpoint] == n
  }

  ghost predicate EndpointOf(now: map<string, ProxyConfig>, done: set<string>, e: string, n: string) {
    n in done && n in now && now[n].identity.endpoint == e
  }

  /** The proxies outside `todo` are resolved and `endpoints` lists exactly their endpoints. */
  ghost predicate ProxyProgress(lib: Library, start: map<string, ProxyConfig>, now: map<string, ProxyConfig>, todo: set<string>, endpoints: map<string, string>) {
    && todo <= start.Keys && now.Keys == start.Keys
    && (forall n | n in start :: ProxyStep(lib, start, now, todo, n))
    && (forall n | n in start && n !in todo :: EndpointTaken(endpoints, now, n))
    && (forall e | e in endpoints :: EndpointOf(now, start.Keys - todo, e, endpoints[e]))
  }

  lemma ProxyProgressStep(lib: Library, start: map<string, ProxyConfig>, now: map<string, ProxyConfig>, todo: set<string>, endpoints: map<string, string>, name: string)
    requires ProxyProgress(lib, start, now, todo, endpoints) && name in todo && ProxyOk(lib, name, start[name])
    requires ResolveProxy(lib, name, start[name]).identity.endpoint !in endpoints
    ensures var p := ResolveProxy(lib, name, start[name]);
      ProxyProgress(lib, start, now[name := p], todo - {name}, endpoints[p.identity.endpoint := name])
  {
    var p := ResolveProxy(lib, name, start[name]);
    var now', todo', endpoints' := now[name := p], todo - {name}, endpoints[p.identity.endpoint := name];
    forall n | n in start ensures ProxyStep(lib, start, now', todo', n) {
      assert ProxyStep(lib, start, now, todo, n);
    }
    forall n | n in start && n !in todo' ensures EndpointTaken(endpoints', now', n) {
      assert n != name ==> EndpointTaken(endpoints, now, n);
    }
    forall e | e in endpoints' ensures EndpointOf(now', start.Keys - todo', e, endpoints'[e]) {
      assert e in endpoints ==> EndpointOf(now, start.Keys - todo, e, endpoints[e]);
    }
  }

  lemma EndpointClash(lib: Library, start: map<string, ProxyConfig>, now: map<string, ProxyConfig>, todo: set<string>, endpoints: map<string, string>, name: string)
    requires ProxyProgress(lib, start, now, todo, endpoints) && name in todo && ProxyOk(lib, name, start[name])
    requires ResolveProxy(lib, name, start[name]).identity.endpoint in endpoints
    ensures !ProxiesOk(lib, start)
  {
    var e := ResolveProxy(lib, name, start[name]).identity.endpoint;
    var first := endpoints[e];
    assert EndpointOf(now, start.Keys - todo, e, first);
    assert ProxyStep(lib, start, now, todo, first);
  }

  lemma ProxyProgressOk(lib: Library, start: map<string, ProxyConfig>, now: map<string, ProxyConfig>, endpoints: map<string, string>)
    requires ProxyProgress(lib, start, now, {}, endpoints) && |start| <= MaxProxies
    ensures ProxiesOk(lib, start)
  {
    forall n | n in start ensures ProxyOk(lib, n, start[n]) {
      assert ProxyStep(lib, start, now, {}, n);
    }
    forall n, m | n in start && m in start && n != m ensures Endpoint(lib, start[n]) != Endpoint(lib, start[m]) {
      DistinctEndpoints(lib, start, now, endpoints, n, m);
    }
  }

  lemma ProxyProgressDone(lib: Library, start: map<string, ProxyConfig>, now: map<string, ProxyConfig>, endpoints: map<string, string>)
    requires ProxyProgress(lib, start, now, {}, endpoints) && |start| <= MaxProxies
    ensures ProxiesOk(lib, start) && now == ResolveProxies(lib, start)
  {
    ProxyProgressOk(lib, start, now, endpoints);
    forall n | n in start ensures now[n] == ResolveProxies(lib, start)[n] {
      assert ProxyStep(lib, start, now, {}, n);
    }
  }

  lemma DistinctEndpoints(lib: Library, start: map<string, ProxyConfig>, now: map<string, ProxyConfig>, endpoints: map<string, string>, n: string, m: string)
    requires ProxyProgress(lib, start, now, {}, endpoints) && n in start && m in start && n != m
    ensures Endpoint(lib, start[n]) != Endpoint(lib, start[m])
  {
    assert ProxyStep(lib, start, now, {}, n) && ProxyStep(lib, start, now, {}, m);
    assert EndpointTaken(endpoints, now, n) && EndpointTaken(endpoints, now, m);
  }

  // ---------- tag keys ----------

  method CollectDynamicTagKeys(targets: seq<TargetConfig>) returns (keys: seq<string>)
    ensures StrictlySorted(keys) && Elements(keys) == DynamicKeys(targets)
  {
    var seen: set<string> := {};
    for i := 0 to |targets|
      invariant seen == DynamicKeys(targets[..i])
    {
      assert targets[..i + 1][..i] == targets[..i];
      seen := seen + targets[i].tags.Keys;
    }
    assert targets[..|targets|] == targets;
    keys := [];
    ghost var all := seen;
    while seen != {}
      invariant seen <= all && Elements(keys) == all - seen && Distinct(keys)
    {
      var k :| k in seen;
      assert k !in Elements(keys) && Elements(keys + [k]) == Elements(keys) + {k};
      keys := keys + [k];
      seen := seen - {k};
    }
    keys := SortStrings(keys);
  }

  method SortStrings(keys: seq<string>) returns (sorted: seq<string>)
    ensures multiset(sorted) == multiset(keys) && Elements(sorted) == Elements(keys)
    ensures Distinct(keys) ==> StrictlySorted(sorted)
  {
    var key := (s: string) => s;
    sorted := Sort(keys, key);
    SortSorts(keys, key);
    assert forall k :: k in sorted <==> k in multiset(sorted);
    assert forall k :: k in keys <==> k in multiset(keys);
    if Distinct(keys) {
      DistinctByCount(keys, sorted);
      DistinctSortedIsStrict(sorted);
    }
  }

  lemma DistinctByCount(keys: seq<string>, sorted: seq<string>)
    requires Distinct(keys) && multiset(sorted) == multiset(keys)
    ensures Distinct(sorted)
  {
    forall i, j | 0 <= i < j < |sorted| && sorted[i] == sorted[j] ensures false {
      TwiceCounted(sorted, i, j);
      OnceCounted(keys, sorted[i]);
    }
  }

  lemma TwiceCounted<T>(xs: seq<T>, i: int, j: int)
    requires 0 <= i < j < |xs| && xs[i] == xs[j]
    ensures multiset(xs)[xs[i]] >= 2
  {
    assert xs == xs[..i] + [xs[i]] + xs[i + 1..j] + [xs[j]] + xs[j + 1..];
  }

  lemma {:induction false} OnceCounted(xs: seq<string>, x: string)
    requires Distinct(xs)
    ensures multiset(xs)[x] <= 1
  {
    if xs != [] {
      TailMultiset(xs);
      OnceCounted(xs[1..], x);
      if x == xs[0] { assert x !in xs[1..]; assert x !in multiset(xs[1..]); }
    }
  }

  lemma {:induction false} SortedListSize(keys: seq<string>)
    requires StrictlySorted(keys)
    ensures |keys| == |Elements(keys)|
  {
    if keys != [] {
      TailElements(keys);
      SortedListSize(keys[1..]);
    }
  }

  method CollectTagKeys(c: Config) returns (keys: seq<string>)
    ensures Elements(keys) == TagKeySet(c)
    ensures Distinct(c.agent.allowedTagKeys) ==> StrictlySorted(keys)
  {
    if |c.agent.allowedTagKeys| > 0 {
      keys := SortStrings(c.agent.allowedTagKeys);
    } else {
      keys := CollectDynamicTagKeys(c.targets);
    }
  }

  // ---------- the configuration hash ----------

  /** What of a proxy entry is serialised: neither the raw URL nor the credentials. */
  function SerialisedProxies(proxies: map<string, ProxyConfig>): map<string, ProxyConfig> {
    map n | n in proxies :: ProxyConfig("", proxies[n].identity, Credentials("", ""))
  }

  function SerialisedTargets(targets: seq<TargetConfig>): seq<TargetConfig> {
    seq(|targets|, i requires 0 <= i < |targets| => targets[i].Hashed())
  }

  /** Two registries serialise alike exactly if they have the same names with the same identities. */
  lemma SerialisedAlike(p: map<string, ProxyConfig>, q: map<string, ProxyConfig>)
    ensures SerialisedProxies(p) == SerialisedProxies(q) <==> p.Keys == q.Keys && forall n <- p :: n in q && p[n].identity == q[n].identity
  {
    if SerialisedProxies(p) == SerialisedProxies(q) {
      assert SerialisedProxies(p).Keys == p.Keys && SerialisedProxies(q).Keys == q.Keys;
      forall n <- p ensures n in q && p[n].identity == q[n].identity {
        assert n in SerialisedProxies(p) && n in SerialisedProxies(q);
        assert SerialisedProxies(p)[n] == SerialisedProxies(q)[n];
      }
    }
  }

  /** The form that is hashed: what is serialised, with the targets sorted by name. */
  function Canonical(c: Config): Config {
    Config(c.agent, SerialisedProxies(c.proxies), Sort(SerialisedTargets(c.targets), NameOf))
  }

  /** Two configurations with unique names have the same canonical form, and so (the hash being injective on
      canonical forms) the same hash, exactly if they agree up to the order of the targets and up to what is
      not serialised: raw proxy URLs and credentials. */
  lemma CanonicalIgnoresOrder(c: Config, d: Config)
    requires UniqueNames(c.targets)
    ensures Canonical(c) == Canonical(d) <==>
      && c.agent == d.agent && SerialisedProxies(c.proxies) == SerialisedProxies(d.proxies)
      && multiset(SerialisedTargets(c.targets)) == multiset(SerialisedTargets(d.targets))
  {
    var xs, ys := SerialisedTargets(c.targets), SerialisedTargets(d.targets);
    SortSorts(xs, NameOf);
    SortSorts(ys, NameOf);
    if multiset(xs) == multiset(ys) {
      DistinctUnderSort(xs);
      SortedIsUnique(Sort(xs, NameOf), Sort(ys, NameOf), NameOf);
    }
  }

  function Without(xs: seq<TargetConfig>, j: nat): seq<TargetConfig>
    requires j < |xs|
  {
    xs[..j] + xs[j + 1..]
  }

  lemma WithoutOne(xs: seq<TargetConfig>, j: nat)
    requires j < |xs|
    ensures multiset(xs) == multiset(Without(xs, j)) + multiset{xs[j]}
  {
    assert xs == xs[..j] + [xs[j]] + xs[j + 1..];
  }

  lemma SerialisedWithoutOne(xs: seq<TargetConfig>, j: nat)
    requires j < |xs|
    ensures multiset(SerialisedTargets(xs)) == multiset(SerialisedTargets(Without(xs, j))) + multiset{xs[j].Hashed()}
  {
    var ys := SerialisedTargets(xs);
    WithoutOne(ys, j);
    assert Without(ys, j) == SerialisedTargets(Without(xs, j));
  }

  lemma {:induction false} PermutedAlike(xs: seq<TargetConfig>, ys: seq<TargetConfig>)
    requires multiset(xs) == multiset(ys)
    ensures multiset(SerialisedTargets(xs)) == multiset(SerialisedTargets(ys))
    decreases |xs|
  {
    assert |xs| == |multiset(xs)| == |multiset(ys)| == |ys|;
    if xs != [] {
      assert xs[0] in multiset(ys);
      var j :| 0 <= j < |ys| && ys[j] == xs[0];
      WithoutOne(xs, 0);
      WithoutOne(ys, j);
      assert multiset(Without(xs, 0)) == multiset(xs) - multiset{xs[0]};
      assert multiset(Without(ys, j)) == multiset(ys) - multiset{xs[0]};
      PermutedAlike(Without(xs, 0), Without(ys, j));
      SerialisedWithoutOne(xs, 0);
      SerialisedWithoutOne(ys, j);
    }
  }

  /** The hash ignores any reordering of the targets and any change of a raw proxy URL or of credentials alone. */
  lemma PermutationKeepsCanonical(c: Config, d: Config)
    requires UniqueNames(c.targets) && multiset(c.targets) == multiset(d.targets)
    requires c.agent == d.agent && SerialisedProxies(c.proxies) == SerialisedProxies(d.proxies)
    ensures Canonical(c) == Canonical(d)
  {
    PermutedAlike(c.targets, d.targets);
    CanonicalIgnoresOrder(c, d);
  }

  lemma DistinctUnderSort(targets: seq<TargetConfig>)
    requires UniqueNames(targets)
    ensures UniqueNames(Sort(targets, NameOf))
  {
    SortSorts(targets, NameOf);
    var sorted := Sort(targets, NameOf);
    forall i, j | 0 <= i < j < |sorted| && sorted[i].name == sorted[j].name ensures false {
      SameNameSame(targets, sorted, i, j);
      TwiceCounted(sorted, i, j);
      TargetOnce(targets, sorted[i]);
    }
  }

  lemma SameNameSame(targets: seq<TargetConfig>, sorted: seq<TargetConfig>, i: nat, j: nat)
    requires UniqueNames(targets) && multiset(sorted) == multiset(targets)
    requires i < |sorted| && j < |sorted| && sorted[i].name == sorted[j].name
    ensures sorted[i] == sorted[j]
  {
    assert sorted[i] in multiset(sorted) && sorted[j] in multiset(sorted);
    var a :| 0 <= a < |targets| && targets[a] == sorted[i];
    var b :| 0 <= b < |targets| && targets[b] == sorted[j];
    assert a == b;
  }

  lemma {:induction false} TargetOnce(targets: seq<TargetConfig>, t: TargetConfig)
    requires UniqueNames(targets)
    ensures multiset(targets)[t] <= 1
  {
    if targets != [] {
      TailMultiset(targets);
      TargetOnce(targets[1..], t);
      if t == targets[0] {
        forall i | 0 <= i < |targets[1..]| ensures targets[1..][i] != t { assert targets[1..][i] == targets[i + 1]; }
        assert t !in multiset(targets[1..]);
      }
    }
  }
}
