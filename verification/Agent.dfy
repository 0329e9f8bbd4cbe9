/** The reload gate of the signal loop (cmd/agent/main.go, run and handleReload). */
module Agent {
  import opened Targets
  import opened Ordering
  import opened Configuration
  import opened Scheduler
  import opened Exporter

  /** The values that need a restart to change, fixed when the agent starts. */
  datatype Startup = Startup(tagKeys: seq<string>, logFormat: string, listenAddr: string, metricsPath: string, runtimeMetrics: bool)

  /** LoadConfig on a parsed file; `None` is an unreadable or unparsable one. */
  function Load(lib: Library, file: Option<Config>): Option<Config> {
    if file.Some? && Accepts(lib, WithDefaults(file.value)) then Some(Resolve(lib, WithDefaults(file.value))) else None
  }

  /** The `--listen-addr` flag overrides the file at startup only. */
  function Overridden(c: Config, flag: string): Config {
    if flag == "" then c else c.(agent := c.agent.(listenAddr := flag))
  }

  predicate SameStartup(st: Startup, c: Config) {
    && TagKeySet(c) == Elements(st.tagKeys)
    && c.agent.logFormat == st.logFormat && c.agent.listenAddr == st.listenAddr
    && c.agent.metricsPath == st.metricsPath && c.agent.enableRuntimeMetrics == st.runtimeMetrics
  }

  /** The configuration after one SIGHUP: the new one if it loads and keeps the startup values. */
  function Next(lib: Library, st: Startup, running: Config, file: Option<Config>): Config {
    var loaded := Load(lib, file);
    if loaded.Some? && SameStartup(st, loaded.value) then loaded.value else running
  }

  function NextAll(lib: Library, st: Startup, running: Config, files: seq<Option<Config>>): Config {
    if files == [] then running
    else Next(lib, st, NextAll(lib, st, running, files[..|files| - 1]), files[|files| - 1])
  }

  predicate FreshlyParsed(file: Option<Config>) {
    file.Some? ==> forall t <- file.value.targets :: t.resolvedProxy.None?
  }

  class Agent {
    const lib: Library
    const startup: Startup
    var config: Config

    /** The running configuration has the startup values, and the startup tag keys are a sorted list. */
    ghost predicate Valid()
      reads this
    {
      StrictlySorted(startup.tagKeys) && SameStartup(startup, config) && Admissible(startup.tagKeys, config)
    }

    /** Startup with a configuration that loads. */
    constructor (lib: Library, file: Config, flag: string)
      requires FreshlyParsed(Some(file)) && Load(lib, Some(file)).Some?
      ensures Valid() && this.lib == lib && config == Overridden(Load(lib, Some(file)).value, flag)
    {
      var f := new ConfigFile(file);
      f.ApplyDefaults();
      var ok := f.Validate(lib);
      AcceptedIsSound(lib, WithDefaults(file));
      var c := Overridden(f.cfg, flag);
      var keys := CollectTagKeys(c);
      this.lib := lib;
      config := c;
      startup := Startup(keys, c.agent.logFormat, c.agent.listenAddr, c.agent.metricsPath, c.agent.enableRuntimeMetrics);
      SoundOverridden(f.cfg, flag);
    }

    /** SIGHUP: a rejected reload changes nothing, an accepted one hands the scheduler a sound
        configuration with the startup tag keys. */
    method HandleReload(file: Option<Config>) returns (accepted: bool)
      requires Valid() && FreshlyParsed(file)
      modifies this
      ensures Valid() && config == Next(lib, startup, old(config), file)
      ensures accepted <==> Load(lib, file).Some? && SameStartup(startup, Load(lib, file).value)
    {
      if file.None? { return false; }
      var f := new ConfigFile(file.value);
      f.ApplyDefaults();
      var ok := f.Validate(lib);
      if !ok { return false; }
      var newCfg := f.cfg;
      AcceptedIsSound(lib, WithDefaults(file.value));
      var newTagKeys := CollectTagKeys(newCfg);
      SortedListsDecideSets(startup.tagKeys, newTagKeys);
      if startup.tagKeys != newTagKeys { return false; }
      if newCfg.agent.logFormat != startup.logFormat { return false; }
      if newCfg.agent.listenAddr != startup.listenAddr { return false; }
      if newCfg.agent.metricsPath != startup.metricsPath { return false; }
      if newCfg.agent.enableRuntimeMetrics != startup.runtimeMetrics { return false; }
      config := newCfg;
      return true;
    }
  }

  lemma SoundOverridden(c: Config, flag: string)
    requires Sound(c)
    ensures Sound(Overridden(c, flag)) && TagKeySet(Overridden(c, flag)) == TagKeySet(c)
  {
    var o := Overridden(c, flag);
    forall t <- o.targets ensures TargetSound(o, t) { assert TargetSound(c, t); }
  }

  /** Over any sequence of reloads the tag keys and the other startup-only values never change. */
  lemma {:induction false} StartupValuesAreConstant(lib: Library, st: Startup, running: Config, files: seq<Option<Config>>)
    requires SameStartup(st, running)
    ensures SameStartup(st, NextAll(lib, st, running, files))
  {
    if files != [] {
      StartupValuesAreConstant(lib, st, running, files[..|files| - 1]);
    }
  }

  /** The same field by field: whatever is reloaded, the effective tag keys, the log format, the address, the metrics
      path and the runtime metrics are those the agent started with. */
  lemma StartupFieldsAreConstant(lib: Library, st: Startup, running: Config, files: seq<Option<Config>>)
    requires SameStartup(st, running)
    ensures var now := NextAll(lib, st, running, files);
      && TagKeySet(now) == TagKeySet(running) && now.agent.logFormat == running.agent.logFormat && now.agent.listenAddr == running.agent.listenAddr
      && now.agent.metricsPath == running.agent.metricsPath && now.agent.enableRuntimeMetrics == running.agent.enableRuntimeMetrics
  {
    StartupValuesAreConstant(lib, st, running, files);
  }

  /** Startup with a `--listen-addr` flag and then a reload of the very same file. */
  method StartAndReload(lib: Library, file: Config, flag: string) returns (accepted: bool)
    requires FreshlyParsed(Some(file)) && Load(lib, Some(file)).Some?
    ensures accepted <==> flag == "" || flag == WithDefaults(file).agent.listenAddr
  {
    var agent := new Agent(lib, file, flag);
    OverrideBlocksReload(lib, agent.startup, file, flag);
    accepted := agent.HandleReload(Some(file));
  }

  /** The file's own address is compared with the overridden one: of the values fixed when the agent started
      with `file` and `flag`, reloading the same file passes exactly if the flag was absent or said the same. */
  lemma OverrideBlocksReload(lib: Library, st: Startup, file: Config, flag: string)
    requires Load(lib, Some(file)).Some? && SameStartup(st, Overridden(Load(lib, Some(file)).value, flag))
    ensures SameStartup(st, Load(lib, Some(file)).value) <==> flag == "" || flag == WithDefaults(file).agent.listenAddr
  {
    var c := Load(lib, Some(file)).value;
    assert c.agent == WithDefaults(file).agent;
    assert TagKeySet(Overridden(c, flag)) == TagKeySet(c);
  }

  /** With a flag that none of the files says, no sequence of reloads changes anything. */
  lemma {:induction false} OverrideBlocksForever(lib: Library, st: Startup, running: Config, flag: string, files: seq<Option<Config>>)
    requires flag != "" && SameStartup(st, Overridden(running, flag))
    requires forall f <- files :: f.Some? ==> WithDefaults(f.value).agent.listenAddr != flag
    ensures NextAll(lib, st, Overridden(running, flag), files) == Overridden(running, flag)
  {
    if files != [] {
      var last := |files| - 1;
      OverrideBlocksForever(lib, st, running, flag, files[..last]);
      assert files[last] in files;
    }
  }

  /** Every library call succeeds, but no proxy URL parses. */
  const Lenient := Library(_ => true, _ => true, _ => true, _ => true, _ => None, _ => None, _ => true)

  /** A file that sets nothing but an allow list. */
  function Allowing(keys: seq<string>): Config {
    Config(AgentConfig("", "", 0, 0, 0, [], "", "", false, keys, ""), map[], [])
  }

  lemma AllowingIsAccepted(lib: Library, keys: seq<string>)
    requires lib.metricsPathOk("/metrics") && lib.resolverOk("") && AllowedKeysOk(lib, keys)
    ensures Accepts(lib, WithDefaults(Allowing(keys))) && TagKeySet(Resolve(lib, WithDefaults(Allowing(keys)))) == Elements(keys)
  {
    assert DynamicKeys([]) == {};
    assert WithDefaults(Allowing(keys)).targets == [];
  }

  /** A concrete case: an empty file listens on :9275, so started with --listen-addr :9000 the agent rejects a
      reload of that file. */
  method OverrideExample() returns (accepted: bool)
    ensures !accepted
  {
    AllowingIsAccepted(Lenient, []);
    accepted := StartAndReload(Lenient, Allowing([]), ":9000");
    assert ":9000"[2] != ":9275"[2];
  }

  /** A key that validation lets through although no vector can be registered with it: one of the five labels
      that single vectors add, or a name the client library reserves. */
  predicate Unregistrable(k: string) { k in ExtraLabels || ReservedPrefix(k) }

  /** Validation keeps tag keys clear of FixedLabels only, so an accepted configuration registers its vectors
      exactly when no tag key is of that kind. */
  lemma AcceptedRegistersIff(c: Config, keys: seq<string>)
    requires Sound(c) && StrictlySorted(keys) && Elements(keys) == TagKeySet(c)
    ensures Registrable(keys) <==> forall k <- TagKeySet(c) :: !Unregistrable(k)
  {
    StrictIsDistinct(keys);
    RegistersIff(keys);
    assert forall k <- keys :: k in TagKeySet(c);
    assert forall k <- TagKeySet(c) :: k in keys;
  }

  /** Each key of that kind that is a well-formed name makes a whole configuration that validates and then
      panics at registration. */
  lemma AcceptedMayNotRegister(lib: Library, k: string)
    requires Unregistrable(k) && lib.labelNameOk(k) && lib.metricsPathOk("/metrics") && lib.resolverOk("")
    ensures var loaded := Load(lib, Some(Allowing([k])));
      loaded.Some? && forall keys :: Elements(keys) == TagKeySet(loaded.value) ==> !Registrable(keys)
  {
    UnregistrableAreNotFixed(k);
    AllowingIsAccepted(lib, [k]);
    forall keys | Elements(keys) == Elements([k]) ensures !Registrable(keys) {
      assert k in Elements([k]);
      RegistersIff(keys);
    }
  }

  /** One case of each kind. */
  lemma UnregistrableExamples()
    ensures Unregistrable("phase") && Unregistrable("__x")
  {
  }

  lemma UnregistrableAreNotFixed(k: string)
    requires Unregistrable(k)
    ensures k !in FixedLabels
  {
  }
}
