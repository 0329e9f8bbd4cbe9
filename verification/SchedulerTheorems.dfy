/** The scheduler's promises over whole runs: every sequence of events from the initial state. */
module SchedulerTheorems {
  import opened Targets
  import opened Exporter
  import opened ProbeLoop
  import opened Configuration
  import opened Ordering
  import opened Scheduler
  import opened SchedulerInvariants

  /** s is the state after some run from the initial state. */
  ghost predicate Reached(late: bool, s: State) {
    exists tagKeys: seq<string>, es: seq<Event> :: ReachedBy(late, tagKeys, es, s)
  }

  ghost predicate ReachedBy(late: bool, tagKeys: seq<string>, es: seq<Event>, s: State) {
    Unclashing(tagKeys) && CanRun(late, Init(tagKeys), es) && AfterRun(late, Init(tagKeys), es) == s
  }

  lemma ReachedHasAll(late: bool, s: State)
    requires Reached(late, s)
    ensures AllInv(late, s)
  {
    var tagKeys: seq<string>, es: seq<Event> :| ReachedBy(late, tagKeys, es, s);
    InitHasAll(late, tagKeys);
    RunKeepsAll(late, Init(tagKeys), es);
  }

  /** At most one goroutine per target name is running. */
  ghost predicate OnePerName(s: State) {
    forall g, h | g in s.gs && h in s.gs && s.gs[g].Running() && s.gs[h].Running() && s.gs[g].target.name == s.gs[h].target.name :: g == h
  }

  /** s.probes is exactly the set of uncancelled goroutines, by name. */
  ghost predicate ProbesAreUncancelled(s: State) {
    && (forall g <- s.gs :: !s.gs[g].cancelled <==> (s.gs[g].target.name in s.probes && s.probes[s.gs[g].target.name] == g))
    && (forall n <- s.probes :: s.probes[n] in s.gs && s.gs[s.probes[n]].target.name == n)
  }

  lemma BookMeans(s: State)
    requires Book(s)
    ensures OnePerName(s) && ProbesAreUncancelled(s)
    ensures s.wg == 0 ==> forall g <- s.gs :: s.gs[g].pc.Gone?
  {
    forall g, h | g in s.gs && h in s.gs && s.gs[g].Running() && s.gs[h].Running() && s.gs[g].target.name == s.gs[h].target.name
      ensures g == h
    {
      assert PairOk(s, g, h);
    }
    forall g <- s.gs ensures !s.gs[g].cancelled <==> (s.gs[g].target.name in s.probes && s.probes[s.gs[g].target.name] == g) {
      assert GoroutineOk(s, g) && NameOk(s, s.gs[g].target.name);
    }
    forall n <- s.probes ensures s.probes[n] in s.gs && s.gs[s.probes[n]].target.name == n {
      assert NameOk(s, n);
    }
    if s.wg == 0 {
      forall g <- s.gs ensures s.gs[g].pc.Gone? { assert g !in Alive(s.gs); }
    }
  }

  /** In every reachable state of every interleaving at most one goroutine per target name is running,
      s.probes is exactly the set of uncancelled goroutines, the WaitGroup counts those that have not
      finished, and when Stop has returned there are neither probes nor goroutines left. */
  lemma OneGoroutinePerTarget(late: bool, s: State)
    requires Reached(late, s)
    ensures OnePerName(s) && ProbesAreUncancelled(s) && s.wg == |Alive(s.gs)|
    ensures s.ctl.Halted? ==> s.probes == map[] && forall g <- s.gs :: s.gs[g].pc.Gone?
  {
    ReachedHasAll(late, s);
    BookMeans(s);
  }

  // ---------- Reload ----------

  predicate ChangesPlan(e: Event) { e.Launch? || e.BeginReload? || e.BeginStop? }

  predicate SameAim(job: Job, job': Job) {
    job.cfg == job'.cfg && job.kept == job'.kept && job.dirtyBefore == job'.dirtyBefore
  }

  predicate HasJob(ctl: Ctl) { !ctl.Fresh? && !ctl.Halting? && !ctl.Halted? }

  /** Nothing but a new Start, Reload or Stop changes what the job aims at; goroutines keep their targets. */
  lemma {:induction false} JobPersists(late: bool, s: State, es: seq<Event>)
    requires CanRun(late, s, es) && HasJob(s.ctl) && forall e <- es :: !ChangesPlan(e)
    ensures var s' := AfterRun(late, s, es); HasJob(s'.ctl) && SameAim(s'.ctl.job, s.ctl.job)
  {
    if es != [] {
      var last := |es| - 1;
      JobPersists(late, s, es[..last]);
      EventKeepsAim(late, AfterRun(late, s, es[..last]), es[last]);
    }
  }

  lemma EventKeepsAim(late: bool, s: State, e: Event)
    requires Enabled(s, e) && HasJob(s.ctl) && !ChangesPlan(e)
    ensures var s' := Apply(late, s, e); HasJob(s'.ctl) && SameAim(s'.ctl.job, s.ctl.job)
  {
  }

  lemma {:induction false} TargetsPersist(late: bool, s: State, es: seq<Event>, g: Gid)
    requires AllInv(late, s) && CanRun(late, s, es) && g in s.gs
    ensures var s' := AfterRun(late, s, es); g in s'.gs && s'.gs[g].target == s.gs[g].target
  {
    if es != [] {
      var last := |es| - 1;
      TargetsPersist(late, s, es[..last], g);
      RunKeepsAll(late, s, es[..last]);
      EventKeepsTarget(late, AfterRun(late, s, es[..last]), es[last], g);
    }
  }

  lemma EventKeepsTarget(late: bool, s: State, e: Event, g: Gid)
    requires Book(s) && Enabled(s, e) && g in s.gs
    ensures var s' := Apply(late, s, e); g in s'.gs && s'.gs[g].target == s.gs[g].target
  {
    assert GoroutineOk(s, g);
  }

  /** Exactly the wanted names run, each with a target equal to the wanted one. */
  ghost predicate Converged(s: State, wanted: map<string, TargetConfig>) {
    s.probes.Keys == wanted.Keys && forall n <- wanted :: n in Running(s) && Running(s)[n].Equal(wanted[n])
  }

  /** A target still runs in its old goroutine exactly if its configuration did not change. */
  ghost predicate RestartsOnlyChanged(s: State, s': State, wanted: map<string, TargetConfig>) {
    forall n <- Running(s) :: n in wanted && n in s'.probes ==> (s'.probes[n] == s.probes[n] <==> Running(s)[n].Equal(wanted[n]))
  }

  lemma IdleConverges(s: State)
    requires Book(s) && s.ctl.Idle? && Plan(s, s.ctl.job) && s.ctl.job.toStop == [] && s.ctl.job.toStart == []
    ensures Converged(s, s.ctl.job.cfg)
  {
    forall n: string ensures n in s.probes <==> n in s.ctl.job.cfg { assert PlanFor(s, s.ctl.job, n); }
    forall n <- s.ctl.job.cfg ensures n in Running(s) && Running(s)[n].Equal(s.ctl.job.cfg[n]) {
      assert PlanFor(s, s.ctl.job, n) && NameOk(s, n);
    }
  }

  lemma ReloadOutcome(s: State, s': State, c: Config, toStop: seq<TargetConfig>, toStart: seq<TargetConfig>)
    requires IsDiff(Running(s), ByName(c.targets), toStop, toStart)
    requires Book(s') && s'.ctl.Idle? && Plan(s', s'.ctl.job) && s'.ctl.job.toStop == [] && s'.ctl.job.toStart == []
    requires s'.ctl.job.cfg == ByName(c.targets) && s'.ctl.job.kept == NewJob(s, c, toStop, toStart).kept
    requires forall n <- Running(s) :: s.probes[n] in s'.gs && s'.gs[s.probes[n]].target == Running(s)[n]
    ensures Converged(s', ByName(c.targets)) && RestartsOnlyChanged(s, s', ByName(c.targets))
  {
    IdleConverges(s');
    var wanted := ByName(c.targets);
    forall n <- Running(s) | n in wanted && n in s'.probes
      ensures s'.probes[n] == s.probes[n] <==> Running(s)[n].Equal(wanted[n])
    {
      assert PlanFor(s', s'.ctl.job, n);
      if Running(s)[n].Equal(wanted[n]) {
        assert !MustStop(Running(s), wanted, n);
      } else {
        assert n in Running(s');
      }
    }
  }

  /** Whenever a Reload returns, whatever the probe goroutines did meanwhile: exactly the names of the
      new configuration run, each with a target equal to the configured one, and of the targets running
      before only the changed ones were restarted. */
  lemma ReloadConverges(late: bool, s: State, c: Config, toStop: seq<TargetConfig>, toStart: seq<TargetConfig>, during: seq<Event>)
    requires Reached(late, s) && s.ctl.Idle? && Admissible(s.tagKeys, c) && IsDiff(Running(s), ByName(c.targets), toStop, toStart)
    requires CanRun(late, ApplyReload(s, c, toStop, toStart), during) && forall e <- during :: !ChangesPlan(e)
    ensures var s' := AfterRun(late, ApplyReload(s, c, toStop, toStart), during);
      s'.ctl.Idle? ==> Converged(s', ByName(c.targets)) && RestartsOnlyChanged(s, s', ByName(c.targets))
  {
    var s1 := ApplyReload(s, c, toStop, toStart);
    ReachedHasAll(late, s);
    ReloadKeepsAll(late, s, c, toStop, toStart);
    RunKeepsAll(late, s1, during);
    JobPersists(late, s1, during);
    var s' := AfterRun(late, s1, during);
    forall n <- Running(s) ensures s.probes[n] in s'.gs && s'.gs[s.probes[n]].target == Running(s)[n] {
      TargetsPersist(late, s1, during, s.probes[n]);
    }
    if s'.ctl.Idle? {
      ReloadOutcome(s, s', c, toStop, toStart);
    }
  }

  /** Whenever Start returns, exactly the names of its configuration run, each with the configured target. */
  lemma StartConverges(late: bool, s: State, c: Config, during: seq<Event>)
    requires Reached(late, s) && Enabled(s, Launch(c)) && CanRun(late, Apply(late, s, Launch(c)), during) && forall e <- during :: !ChangesPlan(e)
    ensures var s' := AfterRun(late, Apply(late, s, Launch(c)), during);
      s'.ctl.Idle? ==> Converged(s', ByName(c.targets)) && s'.probes.Keys == NamesOf(c.targets)
  {
    var s1 := Apply(late, s, Launch(c));
    ReachedHasAll(late, s);
    LaunchKeepsAll(late, s, c);
    RunKeepsAll(late, s1, during);
    JobPersists(late, s1, during);
    var s' := AfterRun(late, s1, during);
    if s'.ctl.Idle? {
      IdleConverges(s');
      forall n ensures n in ByName(c.targets) <==> n in NamesOf(c.targets) { InByName(c.targets, n); }
    }
  }

  /** A goroutine whose done channel is closed never writes again. */
  lemma {:induction false} ClosedNeverWrites(late: bool, s: State, es: seq<Event>, g: Gid)
    requires AllInv(late, s) && CanRun(late, s, es) && g in s.gs && !s.gs[g].Running()
    ensures var s' := AfterRun(late, s, es); g in s'.gs && !s'.gs[g].Running()
    ensures forall e <- es :: !WritesAs(e, g)
  {
    if es != [] {
      var last := |es| - 1;
      ClosedNeverWrites(late, s, es[..last], g);
      RunKeepsAll(late, s, es[..last]);
      ClosedStaysClosed(late, AfterRun(late, s, es[..last]), es[last], g);
      assert es == es[..last] + [es[last]];
    }
  }

  predicate WritesAs(e: Event, g: Gid) { e.Step? && e.g == g && (e.a == Record || e.a == CountSkip) }

  lemma ClosedStaysClosed(late: bool, s: State, e: Event, g: Gid)
    requires Book(s) && Enabled(s, e) && g in s.gs && !s.gs[g].Running()
    ensures g in Apply(late, s, e).gs && !Apply(late, s, e).gs[g].Running()
    ensures !WritesAs(e, g)
  {
    assert GoroutineOk(s, g);
  }

  /** After a Start or Reload has returned, and already when startTarget is about to ensure a
      replacement, no goroutine that was cancelled earlier writes again in any continuation. */
  lemma NoWriteAfterReload(late: bool, s: State, more: seq<Event>, g: Gid)
    requires Reached(late, s) && (s.ctl.Idle? || s.ctl.Starting?) && CanRun(late, s, more) && g in s.gs && s.gs[g].cancelled
    ensures forall e <- more :: !WritesAs(e, g)
  {
    ReachedHasAll(late, s);
    ClosedNeverWrites(late, s, more, g);
  }

  predicate WritesIn(es: seq<Event>, g: Gid) { exists e <- es :: WritesAs(e, g) }

  lemma QuietStaysQuiet(late: bool, s: State, e: Event, g: Gid)
    requires Book(s) && Enabled(s, e) && g in s.gs && s.gs[g].cancelled && !MayWrite(s.gs[g])
    ensures !WritesAs(e, g)
    ensures var s' := Apply(late, s, e); g in s'.gs && s'.gs[g].cancelled && !MayWrite(s'.gs[g])
  {
    assert GoroutineOk(s, g);
    if e.Step? && e.g == g { NeverWritesStep(s.gs[g], e.a); }
  }

  lemma {:induction false} QuietNeverWrites(late: bool, s: State, es: seq<Event>, g: Gid)
    requires AllInv(late, s) && CanRun(late, s, es) && g in s.gs && s.gs[g].cancelled && !MayWrite(s.gs[g])
    ensures !WritesIn(es, g)
    ensures var s' := AfterRun(late, s, es); g in s'.gs && s'.gs[g].cancelled && !MayWrite(s'.gs[g])
  {
    if es != [] {
      var last := |es| - 1;
      QuietNeverWrites(late, s, es[..last], g);
      RunKeepsAll(late, s, es[..last]);
      QuietStaysQuiet(late, AfterRun(late, s, es[..last]), es[last], g);
      assert es == es[..last] + [es[last]];
    }
  }

  lemma {:induction false} WriteReachable(late: bool, s: State, es: seq<Event>, g: Gid) returns (es': seq<Event>)
    requires CanRun(late, s, es) && g in AfterRun(late, s, es).gs
    requires AfterRun(late, s, es).gs[g].cancelled && MayWrite(AfterRun(late, s, es).gs[g])
    ensures CanRun(late, s, es') && WritesIn(es', g)
    decreases Distance(AfterRun(late, s, es).gs[g])
  {
    var a := TowardsWrite(AfterRun(late, s, es).gs[g]);
    Snoc(late, s, es, Step(g, a));
    es' := es + [Step(g, a)];
    if IsWrite(a) {
      assert WritesAs(Step(g, a), g) && es'[|es|] in es';
    } else {
      es' := WriteReachable(late, s, es', g);
    }
  }

  /** Exactly which cancelled goroutines some continuation lets write again: those that, as Reload could see
      at the cancel, have not left their loop and are not at a zero jitter's context check. */
  lemma WriteAfterCancelIff(late: bool, s: State, g: Gid)
    requires Reached(late, s) && g in s.gs && s.gs[g].cancelled
    ensures (exists es :: CanRun(late, s, es) && WritesIn(es, g)) <==> MayWrite(s.gs[g])
  {
    ReachedHasAll(late, s);
    if MayWrite(s.gs[g]) {
      var es := WriteReachable(late, s, [], g);
    } else {
      forall es | CanRun(late, s, es) ensures !WritesIn(es, g) { QuietNeverWrites(late, s, es, g); }
    }
  }

  // ---------- the exporter shows the live targets ----------

  /** No event of the run is a write by a goroutine whose target was deleted before. */
  ghost predicate NoStaleWrite(late: bool, s: State, es: seq<Event>)
    requires CanRun(late, s, es)
  {
    es == [] || (NoStaleWrite(late, s, es[..|es| - 1]) && !IsStaleWrite(AfterRun(late, s, es[..|es| - 1]), es[|es| - 1]))
  }

  lemma {:induction false} DirtyIffStale(late: bool, s: State, es: seq<Event>)
    requires CanRun(late, s, es) && s.dirty == {}
    ensures AfterRun(late, s, es).dirty == {} <==> NoStaleWrite(late, s, es)
  {
    if es != [] {
      var last := |es| - 1;
      DirtyIffStale(late, s, es[..last]);
      EventDirties(late, AfterRun(late, s, es[..last]), es[last]);
    }
  }

  lemma EventDirties(late: bool, s: State, e: Event)
    requires Enabled(s, e)
    ensures Apply(late, s, e).dirty == if IsStaleWrite(s, e) then s.dirty + {s.gs[e.g].target.name} else s.dirty
  {
  }

  lemma CleanMeansAgree(s: State)
    requires StoreInv(s) && s.dirty == {}
    ensures Agree(s)
  {
    forall k: Series ensures s.store(k) == Want(s, k) {
      assert IsDirty(s, k) || s.store(k) == Want(s, k);
    }
  }

  /** With deletes after the done-waits, in every reachable state of every interleaving a scrape shows
      exactly the live targets with their last results. */
  lemma LateDeleteKeepsStoreExact(s: State)
    requires Reached(true, s)
    ensures Agree(s)
  {
    ReachedHasAll(true, s);
    CleanMeansAgree(s);
  }

  /** As written the same holds of every run without a stale write. */
  lemma StoreExactWithoutStaleWrite(tagKeys: seq<string>, es: seq<Event>)
    requires Unclashing(tagKeys) && CanRun(false, Init(tagKeys), es) && NoStaleWrite(false, Init(tagKeys), es)
    ensures Agree(AfterRun(false, Init(tagKeys), es))
  {
    InitHasAll(false, tagKeys);
    RunKeepsAll(false, Init(tagKeys), es);
    DirtyIffStale(false, Init(tagKeys), es);
    CleanMeansAgree(AfterRun(false, Init(tagKeys), es));
  }

  lemma DirtyDisagrees(s: State)
    requires ResidueInv(s) && s.ctl.Waiting? && s.ctl.job.dirtyBefore == {} && s.dirty != {}
    ensures !Agree(s)
  {
    var n :| n in s.dirty;
    ResidueDisagrees(s, n);
  }

  lemma ResidueDisagrees(s: State, n: string)
    requires n !in s.live && Residue(s, n)
    ensures !Agree(s)
  {
    var k: Series :| OwnedBy(k, n) && s.store(k).Some?;
    assert s.store(k) != Want(s, k);
  }

  /** For one Reload of a store that was exact: when its done-waits are over, the store is exact if and
      only if no goroutine wrote after its target's delete. */
  lemma ReloadExactIffNoStaleWrite(s: State, c: Config, toStop: seq<TargetConfig>, toStart: seq<TargetConfig>, during: seq<Event>)
    requires Reached(false, s) && s.ctl.Idle? && s.dirty == {}
    requires Admissible(s.tagKeys, c) && IsDiff(Running(s), ByName(c.targets), toStop, toStart)
    requires CanRun(false, ApplyReload(s, c, toStop, toStart), during) && forall e <- during :: !ChangesPlan(e)
    requires AfterRun(false, ApplyReload(s, c, toStop, toStart), during).ctl.Waiting?
    ensures Agree(AfterRun(false, ApplyReload(s, c, toStop, toStart), during))
       <==> NoStaleWrite(false, ApplyReload(s, c, toStop, toStart), during)
  {
    var s1 := ApplyReload(s, c, toStop, toStart);
    ReachedHasAll(false, s);
    ReloadKeepsAll(false, s, c, toStop, toStart);
    RunKeepsAll(false, s1, during);
    JobPersists(false, s1, during);
    DirtyIffStale(false, s1, during);
    var s' := AfterRun(false, s1, during);
    if s'.dirty == {} { CleanMeansAgree(s'); } else { DirtyDisagrees(s'); }
  }

  /** The only goroutine is number 0, it probes t, and its state is `go`. */
  ghost predicate Alone(s: State, t: TargetConfig, go: Goroutine) {
    s.gs == map[0 := go] && go.target == t
  }

  /** One more step of that goroutine. */
  lemma Move(s0: State, es: seq<Event>, t: TargetConfig, go: Goroutine, a: Action) returns (es': seq<Event>)
    requires CanRun(false, s0, es) && Alone(AfterRun(false, s0, es), t, go) && CanDo(go, a)
    ensures es' == es + [Step(0, a)] && CanRun(false, s0, es')
    ensures AfterRun(false, s0, es') == ApplyStep(AfterRun(false, s0, es), 0, a)
    ensures Alone(AfterRun(false, s0, es'), t, Do(go, a))
    ensures var s, s' := AfterRun(false, s0, es), AfterRun(false, s0, es');
      && s'.tagKeys == s.tagKeys && s'.probes == s.probes && s'.live == s.live && s'.ctl == s.ctl
      && (a != Record && a != CountSkip ==> s'.store == s.store)
  {
    Snoc(false, s0, es, Step(0, a));
    es' := es + [Step(0, a)];
  }

  /** Start, jitter, entry check, probe, context check. */
  lemma RunToCheck(tagKeys: seq<string>, c: Config, t: TargetConfig, r: ProbeResult) returns (es: seq<Event>)
    requires Admissible(tagKeys, c) && c.targets == [t] && PhasesKnown(r)
    ensures CanRun(false, Init(tagKeys), es)
    ensures var s := AfterRun(false, Init(tagKeys), es);
      && Alone(s, t, Spawn(t, 0).(pc := Recording(false, r))) && s.tagKeys == tagKeys
      && s.probes == map[t.name := 0] && s.live == map[t.name := 0] && s.ctl.Idle?
  {
    var s0 := Init(tagKeys);
    Snoc(false, s0, [], Launch(c));
    es := [] + [Launch(c)];
    Snoc(false, s0, es, StartNext(0));
    es := es + [StartNext(0)];
    assert Alone(AfterRun(false, s0, es), t, Spawn(t, 0));
    es := Move(s0, es, t, Spawn(t, 0), JitterElapsed);
    es := Move(s0, es, t, Spawn(t, 0).(pc := Entry(false)), CheckEntry);
    es := Move(s0, es, t, Spawn(t, 0).(pc := Probing(false)), ProbeReturns(r));
  }

  /** Reload with no targets, up to the done-waits. */
  lemma ReloadToWait(s0: State, es: seq<Event>, empty: Config, t: TargetConfig, go: Goroutine) returns (es': seq<Event>)
    requires CanRun(false, s0, es)
    requires var s := AfterRun(false, s0, es);
      && Alone(s, t, go) && s.probes == map[t.name := 0] && s.live == map[t.name := 0] && s.ctl.Idle?
      && Admissible(s.tagKeys, empty) && empty.targets == []
    ensures CanRun(false, s0, es')
    ensures var s, s' := AfterRun(false, s0, es), AfterRun(false, s0, es');
      && Alone(s', t, Cancel(go)) && s'.probes == map[] && s'.live == map[] && s'.tagKeys == s.tagKeys
      && s'.ctl.Waiting? && s'.ctl.job.waiting == {0} && s'.ctl.job.toDelete == [] && s'.ctl.job.toStart == []
  {
    var s := AfterRun(false, s0, es);
    RemovingOnly(s, t, go);
    Snoc(false, s0, es, BeginReload(empty, [t], []));
    es' := es + [BeginReload(empty, [t], [])];
    var s1 := AfterRun(false, s0, es');
    assert s1.ctl == Cancelling(NewJob(s, empty, [t], []));
    Snoc(false, s0, es', CancelNext);
    es' := es' + [CancelNext];
    var s2 := AfterRun(false, s0, es');
    assert s2.ctl.Deleting? && s2.ctl.target == t && s2.ctl.job.toStop == [];
    Snoc(false, s0, es', DeleteNext);
    es' := es' + [DeleteNext];
  }

  lemma RemovingOnly(s: State, t: TargetConfig, go: Goroutine)
    requires Alone(s, t, go) && s.probes == map[t.name := 0]
    ensures IsDiff(Running(s), ByName([]), [t], [])
  {
    assert Running(s) == map[t.name := t] && NamesOf([t]) == {t.name};
  }

  /** The cancelled goroutine records, sees the cancellation and exits, and the Reload returns. */
  lemma RecordAndExit(s0: State, es: seq<Event>, t: TargetConfig, go: Goroutine) returns (es': seq<Event>)
    requires CanRun(false, s0, es) && Alone(AfterRun(false, s0, es), t, go) && go.cancelled && go.pc.Recording? && !go.pc.ticked
    requires var s := AfterRun(false, s0, es);
      s.ctl.Waiting? && s.ctl.job.waiting == {0} && s.ctl.job.toDelete == [] && s.ctl.job.toStart == []
    ensures CanRun(false, s0, es')
    ensures var s, s' := AfterRun(false, s0, es), AfterRun(false, s0, es');
      s'.ctl.Idle? && s'.probes == s.probes && s'.live == s.live && s'.store == ApplyStep(s, 0, Record).store
  {
    var s := AfterRun(false, s0, es);
    es' := Move(s0, es, t, go, Record);
    var s1 := AfterRun(false, s0, es');
    es' := Move(s0, es', t, Do(go, Record), SeeCancel);
    var s2 := AfterRun(false, s0, es');
    assert s2.store == s1.store && s2.ctl == s.ctl && s2.probes == s.probes && s2.live == s.live;
    es' := Move(s0, es', t, Do(Do(go, Record), SeeCancel), CloseDone);
    var s3 := AfterRun(false, s0, es');
    assert s3.store == s1.store && s3.ctl == s.ctl && s3.probes == s.probes && s3.live == s.live;
    Snoc(false, s0, es', WaitDone);
    es' := es' + [WaitDone];
  }

  lemma RecordShowsSuccess(s: State, t: TargetConfig, go: Goroutine)
    requires Alone(s, t, go) && go.pc.Recording?
    ensures ApplyStep(s, 0, Record).store(Series(Success, LabelsOf(s.tagKeys, t))) == Some(Bit(go.pc.result.success))
  {
    var k := Series(Success, LabelsOf(s.tagKeys, t));
    assert AfterRecord(k.labels, t, go.pc.result, k, s.store(k)) == Some(Bit(go.pc.result.success));
    assert ApplyStep(s, 0, Record).store(k) == Written(s, go, Record)(k);
  }

  /** The goroutine passes its context check, Reload cancels it and deletes its series, then the
      goroutine records, sees the cancellation and exits, and Reload returns: no probe is registered,
      nothing is live, and the exporter still shows the target's last result. */
  lemma StaleSeriesSurvives(tagKeys: seq<string>, c: Config, empty: Config, t: TargetConfig, r: ProbeResult) returns (es: seq<Event>)
    requires Unclashing(tagKeys) && Admissible(tagKeys, c) && c.targets == [t]
    requires Admissible(tagKeys, empty) && empty.targets == [] && PhasesKnown(r)
    ensures CanRun(false, Init(tagKeys), es)
    ensures var s := AfterRun(false, Init(tagKeys), es);
      && s.ctl.Idle? && s.probes == map[] && s.live == map[] && !Agree(s)
      && s.store(Series(Success, LabelsOf(tagKeys, t))) == Some(Bit(r.success))
  {
    var s0, go, k := Init(tagKeys), Spawn(t, 0).(pc := Recording(false, r)), Series(Success, LabelsOf(tagKeys, t));
    es := RunToCheck(tagKeys, c, t, r);
    es := ReloadToWait(s0, es, empty, t, go);
    RecordShowsSuccess(AfterRun(false, s0, es), t, Cancel(go));
    es := RecordAndExit(s0, es, t, Cancel(go));
    assert AfterRun(false, s0, es).store(k) != Want(AfterRun(false, s0, es), k);
  }

  const NoOptions := ProbeOptions("", map[], false, false, 0, [], 0, 0, 0, "")
  const SampleAgent := AgentConfig(":9275", "/metrics", 0, 0, 0, [], "info", "text", false, [], "")
  const SampleTarget := TargetConfig("db", "10.0.0.7:5432", TCP, 2, 1, map[], NoOptions, "", None, Some(""))

  /** A concrete instance: one TCP target, removed by a reload. */
  lemma StaleSeriesExample() returns (s: State)
    ensures Reached(false, s) && s.ctl.Idle? && s.probes == map[] && !Agree(s)
  {
    var c, empty := Config(SampleAgent, map[], [SampleTarget]), Config(SampleAgent, map[], []);
    assert DynamicKeys([SampleTarget]) == DynamicKeys([SampleTarget][..0]) + SampleTarget.tags.Keys == {} by {
      assert [SampleTarget][..0] == [];
    }
    assert Elements([]) == {};
    assert Sound(c) && Sound(empty);
    var es := StaleSeriesSurvives([], c, empty, SampleTarget, PlainSuccess);
    s := AfterRun(false, Init([]), es);
    assert ReachedBy(false, [], es, s);
  }

  /** Nothing runs, is live or is about to start under the name n. */
  ghost predicate Forgotten(s: State, n: string) {
    && n !in s.live && n !in s.probes
    && (forall g <- s.gs :: s.gs[g].Running() ==> s.gs[g].target.name != n)
    && (HasJob(s.ctl) ==> n !in NamesOf(s.ctl.job.toStart))
  }

  predicate Configures(e: Event, n: string) {
    (e.Launch? && n in NamesOf(e.cfg.targets)) || (e.BeginReload? && n in NamesOf(e.cfg.targets))
  }

  ghost predicate SameSeries(s: State, s': State, n: string) {
    forall k: Series :: OwnedBy(k, n) ==> s'.store(k) == s.store(k)
  }

  lemma StepKeepsForgotten(s: State, g: Gid, a: Action, n: string)
    requires g in s.gs && CanDo(s.gs[g], a) && Inv(s.gs[g]) && Forgotten(s, n)
    ensures Forgotten(ApplyStep(s, g, a), n)
  {
    DoInv(s.gs[g], a);
    assert s.gs[g].Running() || !Do(s.gs[g], a).Running();
    assert Do(s.gs[g], a).target == s.gs[g].target;
  }

  lemma ReloadKeepsForgotten(s: State, c: Config, toStop: seq<TargetConfig>, toStart: seq<TargetConfig>, n: string)
    requires Forgotten(s, n) && n !in NamesOf(c.targets) && IsDiff(Running(s), ByName(c.targets), toStop, toStart)
    ensures Forgotten(ApplyReload(s, c, toStop, toStart), n)
  {
    if n in NamesOf(toStart) { InByName(c.targets, n); }
  }

  lemma EventKeepsForgotten(late: bool, s: State, e: Event, n: string)
    requires Book(s) && CtlInv(late, s) && Pending(s) && Enabled(s, e) && Forgotten(s, n) && !Configures(e, n)
    ensures Forgotten(Apply(late, s, e), n)
  {
    match e
    case Step(g, a) => assert GoroutineOk(s, g); StepKeepsForgotten(s, g, a, n);
    case StartNext(_) => HeadTail(s.ctl.job.toStart);
    case BeginReload(c, toStop, toStart) => ReloadKeepsForgotten(s, c, toStop, toStart, n);
    case _ =>
  }

  lemma EventKeepsSeries(late: bool, s: State, e: Event, n: string)
    requires Book(s) && CtlInv(late, s) && Pending(s) && Unclashing(s.tagKeys) && Enabled(s, e) && Forgotten(s, n)
    ensures SameSeries(s, Apply(late, s, e), n)
  {
    match e
    case Step(g, a) =>
      assert GoroutineOk(s, g);
      DoInv(s.gs[g], a);
      if a == Record || a == CountSkip {
        forall k: Series | OwnedBy(k, n) ensures Written(s, s.gs[g], a)(k) == s.store(k) { WriteFramed(s, s.gs[g], a, k); }
      }
    case StartNext(_) => ControlKeepsSeries(s, s.ctl.job.toStart[0], n);
    case DeleteNext =>
      var t := if s.ctl.Deleting? then s.ctl.target else s.ctl.job.toDelete[0];
      assert t in PendingDeletes(s.ctl);
      ControlKeepsSeries(s, t, n);
    case _ =>
  }

  lemma ControlKeepsSeries(s: State, t: TargetConfig, n: string)
    requires Unclashing(s.tagKeys) && t.name != n
    ensures forall k: Series :: OwnedBy(k, n) ==> AfterEnsure(Labelled(s, t), t, k, s.store(k)) == s.store(k)
    ensures forall k: Series :: OwnedBy(k, n) ==> AfterDelete(Labelled(s, t), t, k, s.store(k)) == s.store(k)
  {
    LabelsNameTheTarget(s.tagKeys, t);
    forall k: Series | OwnedBy(k, n)
      ensures AfterEnsure(Labelled(s, t), t, k, s.store(k)) == s.store(k) && AfterDelete(Labelled(s, t), t, k, s.store(k)) == s.store(k)
    {
      EffectsAreFramed(Labelled(s, t), t, PlainSuccess, k, s.store(k));
    }
  }

  lemma {:induction false} RunKeepsSeries(late: bool, s: State, es: seq<Event>, n: string)
    requires AllInv(late, s) && CanRun(late, s, es) && Forgotten(s, n) && forall e <- es :: !Configures(e, n)
    ensures Forgotten(AfterRun(late, s, es), n) && SameSeries(s, AfterRun(late, s, es), n)
  {
    if es != [] {
      var last := |es| - 1;
      RunKeepsSeries(late, s, es[..last], n);
      RunKeepsAll(late, s, es[..last]);
      var m := AfterRun(late, s, es[..last]);
      EventKeepsForgotten(late, m, es[last], n);
      EventKeepsSeries(late, m, es[last], n);
    }
  }

  /** A stale series is permanent: once a Reload has returned with nothing running under a name, the
      series of that name keep their values in every continuation that does not configure it again. */
  lemma StaleSeriesIsPermanent(late: bool, s: State, es: seq<Event>, n: string)
    requires Reached(late, s) && s.ctl.Idle? && n !in s.probes
    requires CanRun(late, s, es) && forall e <- es :: !Configures(e, n)
    ensures SameSeries(s, AfterRun(late, s, es), n)
  {
    ReachedHasAll(late, s);
    forall g <- s.gs | s.gs[g].Running() ensures s.gs[g].target.name != n { assert GoroutineOk(s, g); }
    RunKeepsSeries(late, s, es, n);
  }

  // ---------- tags ----------

  /** The labels of every goroutine's target carry every one of its tags. */
  lemma NoTagDropped(late: bool, s: State, g: Gid, tag: string)
    requires Reached(late, s) && g in s.gs && tag in s.gs[g].target.tags
    ensures var l := LabelsOf(s.tagKeys, s.gs[g].target); tag in l && l[tag] == s.gs[g].target.tags[tag]
  {
    ReachedHasAll(late, s);
    assert tag in Elements(s.tagKeys);
  }
}
