/** What every event of the scheduler system keeps, in every interleaving. */
module SchedulerInvariants {
  import opened Targets
  import opened Exporter
  import opened ProbeLoop
  import opened Configuration
  import opened Ordering
  import opened Scheduler

  // ---------- invariants ----------

  function Alive(gs: map<Gid, Goroutine>): set<Gid> { set g | g in gs && !gs[g].pc.Gone? }

  /** s.probes is exactly the set of uncancelled goroutines, the WaitGroup counts the goroutines that
      have not called Done, and at most one goroutine per name is running. */
  ghost predicate Book(s: State) {
    && (forall g: Gid :: GoroutineOk(s, g))
    && (forall n: string :: NameOk(s, n))
    && (forall g: Gid, h: Gid :: PairOk(s, g, h))
    && s.wg == |Alive(s.gs)|
  }

  /** An uncancelled goroutine is the probe of its name; a running one is not shadowed by another. */
  ghost predicate GoroutineOk(s: State, g: Gid) {
    g in s.gs ==>
      var go := s.gs[g];
      && g < s.next && Inv(go)
      && (!go.cancelled ==> go.target.name in s.probes && s.probes[go.target.name] == g)
      && (go.Running() && go.target.name in s.live ==> s.live[go.target.name] == g)
  }

  /** A probe is an uncancelled goroutine of that name, and it is live. */
  ghost predicate NameOk(s: State, n: string) {
    && (n in s.probes ==> s.probes[n] in s.gs && !s.gs[s.probes[n]].cancelled && n in s.live && s.live[n] == s.probes[n])
    && (n in s.live ==> s.live[n] in s.gs && s.gs[s.live[n]].target.name == n)
  }

  ghost predicate PairOk(s: State, g: Gid, h: Gid) {
    g in s.gs && h in s.gs && g != h && s.gs[g].Running() && s.gs[h].Running() ==> s.gs[g].target.name != s.gs[h].target.name
  }

  /** Every cancelled goroutine has closed its done channel. */
  ghost predicate Drained(s: State) {
    forall g <- s.gs :: s.gs[g].cancelled ==> !s.gs[g].Running()
  }

  ghost predicate Awaited(s: State, job: Job) {
    && (forall g <- s.gs :: s.gs[g].cancelled && s.gs[g].Running() ==> g in job.waiting)
    && (forall g <- job.waiting :: g in s.gs && s.gs[g].cancelled)
  }

  /** How far the job is: what still has to be stopped and started. */
  ghost predicate Plan(s: State, job: Job) {
    && UniqueNames(job.toStop) && UniqueNames(job.toStart)
    && (forall t <- job.toStop :: t.name in s.probes && s.probes[t.name] in s.gs && s.gs[s.probes[t.name]].target == t)
    && (forall t <- job.toStart :: t.name in job.cfg && job.cfg[t.name] == t)
    && (forall n: string :: PlanFor(s, job, n))
  }

  /** A name of the new configuration is either waiting to be started or runs an equal target; a
      probe outside the new configuration is waiting to be stopped; kept goroutines stay. */
  ghost predicate PlanFor(s: State, job: Job, n: string) {
    var stop, start := n in NamesOf(job.toStop), n in NamesOf(job.toStart);
    && (n in job.kept ==> n in s.probes && s.probes[n] == job.kept[n] && !stop)
    && (start && n in s.probes ==> stop)
    && (n in s.probes ==> s.probes[n] in s.gs && (stop || (n in job.cfg && s.gs[s.probes[n]].target.Equal(job.cfg[n]))))
    && (n in job.cfg ==> start || (n in s.probes && !stop))
  }

  ghost predicate Tagged(s: State) {
    && Unclashing(s.tagKeys)
    && (forall g <- s.gs :: s.gs[g].target.tags.Keys <= Elements(s.tagKeys))
    && (s.ctl.Fresh? || s.ctl.Halting? || s.ctl.Halted? || forall t <- s.ctl.job.toStart :: t.tags.Keys <= Elements(s.tagKeys))
  }

  /** The targets that are cancelled and still await their delete. */
  function PendingDeletes(ctl: Ctl): seq<TargetConfig> {
    match ctl
    case Deleting(t, _) => [t]
    case Cancelling(job) => job.toDelete
    case Waiting(job) => job.toDelete
    case LateDeleting(job) => job.toDelete
    case _ => []
  }

  ghost predicate Pending(s: State) {
    var ds := PendingDeletes(s.ctl);
    && UniqueNames(ds)
    && (forall t <- ds :: t.name in s.live && s.live[t.name] in s.gs && s.gs[s.live[t.name]].target == t && t.name !in s.probes)
    && (!s.ctl.Halting? && !s.ctl.Halted? ==> forall n <- s.live :: n in s.probes || n in NamesOf(ds))
  }

  ghost predicate CtlInv(late: bool, s: State) {
    match s.ctl
    case Fresh => s.gs == map[] && s.live == map[] && s.probes == map[]
    case Cancelling(job) => Awaited(s, job) && Plan(s, job) && job.toStop != [] && (!late ==> job.toDelete == [])
    case Deleting(_, job) => !late && Awaited(s, job) && Plan(s, job) && job.toDelete == []
    case Waiting(job) => Awaited(s, job) && Plan(s, job) && job.toStop == [] && (!late ==> job.toDelete == [])
    case LateDeleting(job) => late && Drained(s) && Plan(s, job) && job.toStop == [] && job.toDelete != []
    case Starting(job) => Drained(s) && Plan(s, job) && job.toStop == [] && job.toStart != []
    case Idle(job) => Drained(s) && Plan(s, job) && job.toStop == [] && job.toStart == []
    case Halting => true
    case Halted => s.probes == map[] && s.wg == 0
  }

  /** With deletes after the waits, whoever runs is live, so no write is stale. */
  ghost predicate LateInv(s: State) {
    && (forall g <- s.gs :: s.gs[g].Running() ==> IsLive(s, g, s.gs[g].target))
    && s.dirty == {}
  }

  function EntryOf(go: Goroutine): LiveTarget { LiveTarget(go.target, go.last, go.overlaps) }

  /** What a scrape should show: the live targets with their last results, nothing else. */
  function Want(s: State, k: Series): Option<real> {
    if "target_name" in k.labels && k.labels["target_name"] in s.live && s.live[k.labels["target_name"]] in s.gs then
      var go := s.gs[s.live[k.labels["target_name"]]];
      VisibleAt(Labelled(s, go.target), EntryOf(go), k)
    else None
  }

  ghost predicate Agree(s: State) { forall k: Series :: s.store(k) == Want(s, k) }

  predicate IsDirty(s: State, k: Series) { "target_name" in k.labels && k.labels["target_name"] in s.dirty }

  ghost predicate StoreInv(s: State) { forall k: Series :: IsDirty(s, k) || s.store(k) == Want(s, k) }

  ghost predicate Residue(s: State, n: string) { exists k: Series :: OwnedBy(k, n) && s.store(k).Some? }

  ghost predicate BeforeStart(ctl: Ctl) { ctl.Cancelling? || ctl.Deleting? || ctl.Waiting? }

  /** A name written to after its delete shows series although nothing is live under it. */
  ghost predicate ResidueInv(s: State) {
    BeforeStart(s.ctl) ==>
      forall n <- s.dirty :: n in s.ctl.job.dirtyBefore || (n !in s.live && Residue(s, n))
  }

  ghost predicate AllInv(late: bool, s: State) {
    Book(s) && CtlInv(late, s) && Pending(s) && Tagged(s) && StoreInv(s) && ResidueInv(s) && (late ==> LateInv(s))
  }

  // ---------- every event keeps the invariants ----------

  lemma AliveSize(gs: map<Gid, Goroutine>, g: Gid, go: Goroutine)
    ensures |Alive(gs[g := go])| == |Alive(gs)|
      - (if g in gs && !gs[g].pc.Gone? then 1 else 0) + (if go.pc.Gone? then 0 else 1)
  {
    var rest := Alive(gs) - {g};
    assert Alive(gs) == if g in gs && !gs[g].pc.Gone? then rest + {g} else rest;
    assert Alive(gs[g := go]) == if go.pc.Gone? then rest else rest + {g};
  }

  /** What a step of goroutine g leaves alone. */
  ghost predicate StepOf(s: State, s': State, g: Gid) {
    && g in s.gs && g in s'.gs && s'.gs == s.gs[g := s'.gs[g]] && Inv(s'.gs[g])
    && s'.gs[g].target == s.gs[g].target && s'.gs[g].cancelled == s.gs[g].cancelled
    && (s'.gs[g].Running() ==> s.gs[g].Running())
    && s'.tagKeys == s.tagKeys && s'.next == s.next && s'.probes == s.probes && s'.ctl == s.ctl && s'.live == s.live
  }

  lemma StepIsStepOf(s: State, g: Gid, a: Action)
    requires g in s.gs && CanDo(s.gs[g], a) && Inv(s.gs[g])
    ensures StepOf(s, ApplyStep(s, g, a), g)
  {
    DoInv(s.gs[g], a);
  }

  lemma StepKeepsBook(s: State, s': State, g: Gid)
    requires Book(s) && StepOf(s, s', g) && !s.gs[g].pc.Gone?
    requires s'.wg == if s'.gs[g].pc.Gone? then s.wg - 1 else s.wg
    ensures Book(s')
  {
    AliveSize(s.gs, g, s'.gs[g]);
    forall h: Gid ensures GoroutineOk(s', h) { assert GoroutineOk(s, h); }
    forall n: string ensures NameOk(s', n) { assert NameOk(s, n); }
    forall h: Gid, i: Gid ensures PairOk(s', h, i) { assert PairOk(s, h, i); }
  }

  lemma StepKeepsPlan(s: State, s': State, g: Gid, job: Job)
    requires StepOf(s, s', g) && Plan(s, job)
    ensures Plan(s', job)
  {
    forall n: string ensures PlanFor(s', job, n) { assert PlanFor(s, job, n); }
  }

  lemma StepKeepsCtl(late: bool, s: State, s': State, g: Gid)
    requires s.wg == |Alive(s.gs)| && CtlInv(late, s) && StepOf(s, s', g) && !s.gs[g].pc.Gone?
    ensures CtlInv(late, s')
  {
    if s.ctl.Halted? {
      assert g in Alive(s.gs);
    } else if !s.ctl.Fresh? && !s.ctl.Halting? {
      StepKeepsPlan(s, s', g, s.ctl.job);
    }
  }

  lemma StepKeepsRest(s: State, s': State, g: Gid)
    requires Pending(s) && Tagged(s) && StepOf(s, s', g)
    ensures Pending(s') && Tagged(s')
  {
  }

  lemma WantFramed(s: State, s': State, g: Gid, k: Series)
    requires Book(s) && StepOf(s, s', g) && !OwnedBy(k, s.gs[g].target.name)
    ensures Want(s', k) == Want(s, k)
  {
    if "target_name" in k.labels { assert NameOk(s, k.labels["target_name"]); }
  }

  lemma LiveWant(s: State, g: Gid, k: Series)
    requires g in s.gs && IsLive(s, g, s.gs[g].target) && OwnedBy(k, s.gs[g].target.name)
    ensures Want(s, k) == VisibleAt(Labelled(s, s.gs[g].target), EntryOf(s.gs[g]), k)
  {
  }

  lemma RecordKeepsView(s: State, g: Gid, k: Series)
    requires g in s.gs && CanDo(s.gs[g], Record) && Inv(s.gs[g])
    requires IsLive(s, g, s.gs[g].target) && OwnedBy(k, s.gs[g].target.name) && s.store(k) == Want(s, k)
    ensures Written(s, s.gs[g], Record)(k) == Want(ApplyStep(s, g, Record), k)
  {
    LiveWant(s, g, k);
    LiveWant(ApplyStep(s, g, Record), g, k);
    RecordShows(Labelled(s, s.gs[g].target), EntryOf(s.gs[g]), s.gs[g].pc.result, k);
  }

  lemma SkipMakes(s: State, g: Gid, k: Series)
    requires g in s.gs && CanDo(s.gs[g], CountSkip)
    ensures var go, s' := s.gs[g], ApplyStep(s, g, CountSkip);
      && Written(s, go, CountSkip)(k) == AfterIncr(Labelled(s, go.target), go.target, k, s.store(k))
      && s'.gs[g].target == go.target && EntryOf(s'.gs[g]) == EntryOf(go).(overlaps := go.overlaps + 1)
      && s'.live == s.live && s'.tagKeys == s.tagKeys
  {
  }

  lemma SkipKeepsView(s: State, g: Gid, k: Series)
    requires g in s.gs && CanDo(s.gs[g], CountSkip)
    requires IsLive(s, g, s.gs[g].target) && OwnedBy(k, s.gs[g].target.name) && s.store(k) == Want(s, k)
    ensures Written(s, s.gs[g], CountSkip)(k) == Want(ApplyStep(s, g, CountSkip), k)
  {
    SkipMakes(s, g, k);
    LiveWant(s, g, k);
    LiveWant(ApplyStep(s, g, CountSkip), g, k);
    IncrShows(Labelled(s, s.gs[g].target), EntryOf(s.gs[g]), k);
  }

  /** A write of a live goroutine keeps the store equal to the view; any other write is stale. */
  lemma WriteShows(s: State, g: Gid, a: Action, k: Series)
    requires g in s.gs && CanDo(s.gs[g], a) && Inv(s.gs[g]) && (a == Record || a == CountSkip)
    requires IsLive(s, g, s.gs[g].target) && OwnedBy(k, s.gs[g].target.name) && s.store(k) == Want(s, k)
    ensures Written(s, s.gs[g], a)(k) == Want(ApplyStep(s, g, a), k)
  {
    if a == Record { RecordKeepsView(s, g, k); } else { SkipKeepsView(s, g, k); }
  }

  lemma WriteFramed(s: State, go: Goroutine, a: Action, k: Series)
    requires Unclashing(s.tagKeys) && (a == Record || a == CountSkip) && CanDo(go, a) && !OwnedBy(k, go.target.name)
    ensures Written(s, go, a)(k) == s.store(k)
  {
    LabelsNameTheTarget(s.tagKeys, go.target);
    if a == Record {
      EffectsAreFramed(Labelled(s, go.target), go.target, go.pc.result, k, s.store(k));
    }
  }

  lemma StepKeepsStore(s: State, g: Gid, a: Action)
    requires Book(s) && Unclashing(s.tagKeys) && StoreInv(s) && g in s.gs && CanDo(s.gs[g], a)
    ensures StoreInv(ApplyStep(s, g, a))
  {
    var go, s' := s.gs[g], ApplyStep(s, g, a);
    assert GoroutineOk(s, g);
    StepIsStepOf(s, g, a);
    DoInv(go, a);
    forall k: Series ensures IsDirty(s', k) || s'.store(k) == Want(s', k) {
      assert IsDirty(s, k) || s.store(k) == Want(s, k);
      if !OwnedBy(k, go.target.name) {
        WantFramed(s, s', g, k);
        if a == Record || a == CountSkip { WriteFramed(s, go, a, k); }
      } else if a == Record || a == CountSkip {
        if IsLive(s, g, go.target) && !IsDirty(s, k) { WriteShows(s, g, a, k); }
      }
    }
  }

  /** Every write leaves at least one series of its target. */
  lemma WriteLeavesSeries(s: State, g: Gid, a: Action)
    requires Unclashing(s.tagKeys) && g in s.gs && CanDo(s.gs[g], a) && (a == Record || a == CountSkip)
    ensures Residue(ApplyStep(s, g, a), s.gs[g].target.name)
  {
    var go := s.gs[g];
    LabelsNameTheTarget(s.tagKeys, go.target);
    var k := Series(if a == Record then Success else SkippedOverlap, Labelled(s, go.target));
    assert if a == Record then AfterRecord(k.labels, go.target, go.pc.result, k, s.store(k)).Some?
           else AfterIncr(k.labels, go.target, k, s.store(k)).Some?;
    assert OwnedBy(k, go.target.name) && Written(s, go, a)(k).Some?;
  }

  lemma StepKeepsResidue(s: State, g: Gid, a: Action)
    requires Book(s) && Unclashing(s.tagKeys) && ResidueInv(s) && g in s.gs && CanDo(s.gs[g], a)
    ensures ResidueInv(ApplyStep(s, g, a))
  {
    var go, s' := s.gs[g], ApplyStep(s, g, a);
    assert GoroutineOk(s, g);
    DoInv(go, a);
    if BeforeStart(s.ctl) && (a == Record || a == CountSkip) {
      WriteLeavesSeries(s, g, a);
      forall n | n in s'.dirty && n != go.target.name && n !in s.ctl.job.dirtyBefore ensures Residue(s', n) {
        var k: Series :| OwnedBy(k, n) && s.store(k).Some?;
        WriteFramed(s, go, a, k);
      }
    }
  }

  lemma StepKeepsAll(late: bool, s: State, g: Gid, a: Action)
    requires AllInv(late, s) && g in s.gs && CanDo(s.gs[g], a)
    ensures AllInv(late, ApplyStep(s, g, a))
  {
    var s' := ApplyStep(s, g, a);
    assert GoroutineOk(s, g);
    DoInv(s.gs[g], a);
    StepIsStepOf(s, g, a);
    StepKeepsBook(s, s', g);
    StepKeepsCtl(late, s, s', g);
    StepKeepsRest(s, s', g);
    StepKeepsStore(s, g, a);
    StepKeepsResidue(s, g, a);
  }

  // startTarget

  lemma HeadTail(list: seq<TargetConfig>)
    requires UniqueNames(list) && list != []
    ensures UniqueNames(list[1..])
    ensures NamesOf(list) == NamesOf(list[1..]) + {list[0].name}
    ensures list[0].name !in NamesOf(list[1..])
  {
    assert list == [list[0]] + list[1..];
    forall t <- list[1..] ensures t.name != list[0].name {
      var i :| 0 <= i < |list[1..]| && list[1..][i] == t;
      assert list[i + 1] == t;
    }
  }

  lemma StartIsClean(late: bool, s: State)
    requires s.ctl.Starting? && CtlInv(late, s) && Pending(s) && Book(s)
    ensures var t := s.ctl.job.toStart[0]; t.name !in s.probes && t.name !in s.live
    ensures s.next !in s.gs
  {
    var t := s.ctl.job.toStart[0];
    assert t in s.ctl.job.toStart && PlanFor(s, s.ctl.job, t.name) && GoroutineOk(s, s.next);
  }

  lemma StartKeepsBook(s: State, delay: nat)
    requires Book(s) && s.ctl.Starting? && s.ctl.job.toStart != [] && Drained(s)
    requires s.ctl.job.toStart[0].name !in s.probes && s.ctl.job.toStart[0].name !in s.live && s.next !in s.gs
    ensures Book(ApplyStart(s, delay))
  {
    var t, s' := s.ctl.job.toStart[0], ApplyStart(s, delay);
    SpawnInv(t, delay);
    AliveSize(s.gs, s.next, Spawn(t, delay));
    forall h: Gid ensures GoroutineOk(s', h) { assert GoroutineOk(s, h); }
    forall n: string ensures NameOk(s', n) { assert NameOk(s, n); }
    forall h: Gid, i: Gid ensures PairOk(s', h, i) { assert PairOk(s, h, i) && GoroutineOk(s, h) && GoroutineOk(s, i); }
  }

  lemma StartKeepsPlan(s: State, delay: nat)
    requires s.ctl.Starting? && Plan(s, s.ctl.job) && s.ctl.job.toStop == [] && s.ctl.job.toStart != [] && s.next !in s.gs
    ensures var job := s.ctl.job; Plan(ApplyStart(s, delay), job.(toStart := job.toStart[1..]))
  {
    var job := s.ctl.job;
    HeadTail(job.toStart);
    assert job.toStart[0] in job.toStart;
    forall n: string ensures PlanFor(ApplyStart(s, delay), job.(toStart := job.toStart[1..]), n) { assert PlanFor(s, job, n); }
  }

  lemma StartKeepsStore(s: State, delay: nat)
    requires s.ctl.Starting? && s.ctl.job.toStart != [] && s.ctl.job.toStart[0].name !in s.live
    requires Book(s) && Unclashing(s.tagKeys) && StoreInv(s) && s.next !in s.gs
    ensures StoreInv(ApplyStart(s, delay))
  {
    var t, s' := s.ctl.job.toStart[0], ApplyStart(s, delay);
    var l := Labelled(s, t);
    LabelsNameTheTarget(s.tagKeys, t);
    forall k: Series ensures IsDirty(s', k) || s'.store(k) == Want(s', k) {
      assert IsDirty(s, k) || s.store(k) == Want(s, k);
      if OwnedBy(k, t.name) {
        EnsureShows(l, t, k);
      } else {
        EffectsAreFramed(l, t, PlainSuccess, k, s.store(k));
        if "target_name" in k.labels { assert NameOk(s, k.labels["target_name"]); }
      }
    }
  }

  lemma StartKeepsCtl(late: bool, s: State, delay: nat)
    requires s.ctl.Starting? && CtlInv(late, s) && Pending(s) && s.next !in s.gs
    ensures var s' := ApplyStart(s, delay); CtlInv(late, s') && Pending(s')
  {
    StartKeepsPlan(s, delay);
  }

  lemma StartKeepsTags(s: State, delay: nat)
    requires s.ctl.Starting? && s.ctl.job.toStart != [] && Tagged(s)
    ensures Tagged(ApplyStart(s, delay))
  {
    assert s.ctl.job.toStart[0] in s.ctl.job.toStart;
  }

  lemma StartKeepsAll(late: bool, s: State, delay: nat)
    requires AllInv(late, s) && s.ctl.Starting?
    ensures AllInv(late, ApplyStart(s, delay))
  {
    StartIsClean(late, s);
    StartKeepsBook(s, delay);
    StartKeepsStore(s, delay);
    StartKeepsCtl(late, s, delay);
    StartKeepsTags(s, delay);
  }

  // Reload and Stop

  /** entry.cancel() and delete(s.probes, n). */
  ghost predicate CancelOf(s: State, s': State, n: string) {
    && n in s.probes && s.probes[n] in s.gs
    && s'.gs == s.gs[s.probes[n] := Cancel(s.gs[s.probes[n]])] && s'.probes == s.probes - {n}
    && s'.tagKeys == s.tagKeys && s'.store == s.store && s'.next == s.next && s'.wg == s.wg
    && s'.live == s.live && s'.dirty == s.dirty
  }

  lemma CancelKeepsBook(s: State, s': State, n: string)
    requires Book(s) && CancelOf(s, s', n)
    ensures Book(s')
  {
    var g := s.probes[n];
    AliveSize(s.gs, g, Cancel(s.gs[g]));
    assert NameOk(s, n);
    forall h: Gid ensures GoroutineOk(s', h) { assert GoroutineOk(s, h); }
    forall m: string ensures NameOk(s', m) { assert NameOk(s, m); }
    forall h: Gid, i: Gid ensures PairOk(s', h, i) { assert PairOk(s, h, i); }
  }

  lemma CancelKeepsStore(s: State, s': State, n: string)
    requires Book(s) && CancelOf(s, s', n) && StoreInv(s)
    ensures StoreInv(s')
  {
    forall k: Series ensures IsDirty(s', k) || s'.store(k) == Want(s', k) {
      assert IsDirty(s, k) || s.store(k) == Want(s, k);
    }
  }

  lemma CancelKeepsPlan(s: State, s': State, job: Job, job': Job)
    requires Book(s) && Plan(s, job) && job.toStop != [] && CancelOf(s, s', job.toStop[0].name)
    requires job' == job.(toStop := job.toStop[1..], waiting := job'.waiting, toDelete := job'.toDelete)
    ensures Plan(s', job')
  {
    var t := job.toStop[0];
    HeadTail(job.toStop);
    assert t in job.toStop && NameOk(s, t.name);
    forall u <- job'.toStop ensures u.name in s'.probes && s'.gs[s'.probes[u.name]].target == u {
      assert u in job.toStop;
    }
    forall n: string ensures PlanFor(s', job', n) { assert PlanFor(s, job, n) && NameOk(s, n); }
  }

  lemma CancelKeepsAwaited(s: State, s': State, job: Job, job': Job)
    requires Awaited(s, job) && job.toStop != [] && CancelOf(s, s', job.toStop[0].name)
    requires job'.waiting == job.waiting + {s.probes[job.toStop[0].name]}
    ensures Awaited(s', job')
  {
  }

  lemma CancelKeepsPending(late: bool, s: State)
    requires Book(s) && Pending(s) && CtlInv(late, s) && s.ctl.Cancelling? && Enabled(s, CancelNext)
    ensures Pending(ApplyCancel(late, s))
  {
    var job, s' := s.ctl.job, ApplyCancel(late, s);
    var t := job.toStop[0];
    assert t in job.toStop && NameOk(s, t.name);
    HeadTail(job.toStop);
    UniqueStep(job.toDelete, t);
    var ds := PendingDeletes(s'.ctl);
    assert ds == if late then job.toDelete + [t] else [t];
    assert forall n :: n in NamesOf(ds) <==> n in NamesOf(job.toDelete) || n == t.name;
  }

  lemma CancelKeepsCtl(late: bool, s: State)
    requires Book(s) && CtlInv(late, s) && Pending(s) && s.ctl.Cancelling? && Enabled(s, CancelNext)
    ensures var s' := ApplyCancel(late, s); CtlInv(late, s') && Pending(s')
  {
    var job, s' := s.ctl.job, ApplyCancel(late, s);
    CancelKeepsPlan(s, s', job, s'.ctl.job);
    CancelKeepsAwaited(s, s', job, s'.ctl.job);
    CancelKeepsPending(late, s);
  }

  lemma CancelKeepsTags(late: bool, s: State)
    requires Tagged(s) && ResidueInv(s) && s.ctl.Cancelling? && Enabled(s, CancelNext)
    ensures Tagged(ApplyCancel(late, s)) && ResidueInv(ApplyCancel(late, s))
  {
    var s' := ApplyCancel(late, s);
    forall n | n in s'.dirty && n !in s'.ctl.job.dirtyBefore ensures n !in s'.live && Residue(s', n) {
      SameStoreSameResidue(s, s', n);
    }
  }

  lemma CancelKeepsLive(late: bool, s: State)
    requires LateInv(s) && s.ctl.Cancelling? && Enabled(s, CancelNext)
    ensures LateInv(ApplyCancel(late, s))
  {
  }

  lemma CancelKeepsAll(late: bool, s: State)
    requires AllInv(late, s) && s.ctl.Cancelling? && Enabled(s, CancelNext)
    ensures AllInv(late, ApplyCancel(late, s))
  {
    var s', n := ApplyCancel(late, s), s.ctl.job.toStop[0].name;
    CancelKeepsBook(s, s', n);
    CancelKeepsStore(s, s', n);
    CancelKeepsCtl(late, s);
    CancelKeepsTags(late, s);
    if late { CancelKeepsLive(late, s); }
  }

  lemma DeleteKeepsBook(s: State, t: TargetConfig)
    requires Book(s) && t.name !in s.probes
    ensures Book(ApplyDelete(s, t))
  {
    var s' := ApplyDelete(s, t);
    forall h: Gid ensures GoroutineOk(s', h) { assert GoroutineOk(s, h); }
    forall m: string ensures NameOk(s', m) { assert NameOk(s, m); }
    forall h: Gid, i: Gid ensures PairOk(s', h, i) { assert PairOk(s, h, i); }
  }

  lemma DeleteKeepsStore(s: State, t: TargetConfig)
    requires Book(s) && Unclashing(s.tagKeys) && StoreInv(s)
    requires t.name in s.live && s.live[t.name] in s.gs && s.gs[s.live[t.name]].target == t
    ensures StoreInv(ApplyDelete(s, t))
  {
    var l, s' := Labelled(s, t), ApplyDelete(s, t);
    var g := s.live[t.name];
    LabelsNameTheTarget(s.tagKeys, t);
    assert GoroutineOk(s, g);
    forall k: Series ensures IsDirty(s', k) || s'.store(k) == Want(s', k) {
      assert IsDirty(s, k) || s.store(k) == Want(s, k);
      if OwnedBy(k, t.name) {
        DeleteShowsNothing(l, EntryOf(s.gs[g]), k);
      } else {
        EffectsAreFramed(l, t, PlainSuccess, k, s.store(k));
      }
    }
  }

  lemma DeleteKeepsResidue(s: State, t: TargetConfig, n: string)
    requires Unclashing(s.tagKeys) && n != t.name && Residue(s, n)
    ensures Residue(ApplyDelete(s, t), n)
  {
    LabelsNameTheTarget(s.tagKeys, t);
    var k: Series :| OwnedBy(k, n) && s.store(k).Some?;
    EffectsAreFramed(Labelled(s, t), t, PlainSuccess, k, s.store(k));
    assert ApplyDelete(s, t).store(k).Some?;
  }

  lemma PlanIgnoresLive(s: State, s': State, job: Job, job': Job)
    requires Plan(s, job) && s'.gs == s.gs && s'.probes == s.probes
    requires job' == job.(toDelete := job'.toDelete)
    ensures Plan(s', job')
  {
    forall n: string ensures PlanFor(s', job', n) { assert PlanFor(s, job, n); }
  }

  lemma EarlyDeleteKeepsAll(s: State)
    requires AllInv(false, s) && s.ctl.Deleting?
    ensures AllInv(false, ApplyEarlyDelete(s))
  {
    var t, s' := s.ctl.target, ApplyEarlyDelete(s);
    var d := ApplyDelete(s, t);
    assert t in PendingDeletes(s.ctl);
    DeleteKeepsBook(s, t);
    DeleteKeepsStore(s, t);
    PlanIgnoresLive(s, s', s.ctl.job, s.ctl.job);
    BookIgnoresCtl(d, s');
    forall n | n in s.dirty && n !in s.ctl.job.dirtyBefore ensures Residue(s', n) {
      DeleteKeepsResidue(s, t, n);
      SameStoreSameResidue(d, s', n);
    }
    assert Pending(s') && CtlInv(false, s') && ResidueInv(s') && Tagged(s');
  }

  lemma SameStoreSameResidue(s: State, s': State, n: string)
    requires Residue(s, n) && s'.store == s.store
    ensures Residue(s', n)
  {
    var k: Series :| OwnedBy(k, n) && s.store(k).Some?;
    assert s'.store(k).Some?;
  }

  lemma BookIgnoresCtl(s: State, s': State)
    requires s' == s.(ctl := s'.ctl)
    ensures Book(s) ==> Book(s')
    ensures StoreInv(s) ==> StoreInv(s')
  {
    if Book(s) {
      forall h: Gid ensures GoroutineOk(s', h) { assert GoroutineOk(s, h); }
      forall m: string ensures NameOk(s', m) { assert NameOk(s, m); }
      forall h: Gid, i: Gid ensures PairOk(s', h, i) { assert PairOk(s, h, i); }
    }
    if StoreInv(s) {
      forall k: Series ensures IsDirty(s', k) || s'.store(k) == Want(s', k) {
        assert IsDirty(s, k) || s.store(k) == Want(s, k);
      }
    }
  }

  lemma LateDeleteKeepsCtl(s: State)
    requires CtlInv(true, s) && Pending(s) && Tagged(s) && s.ctl.LateDeleting? && s.ctl.job.toDelete != []
    ensures var s' := ApplyLateDelete(s); CtlInv(true, s') && Pending(s') && Tagged(s')
  {
    var job, s' := s.ctl.job, ApplyLateDelete(s);
    HeadTail(job.toDelete);
    PlanIgnoresLive(s, s', job, job.(toDelete := job.toDelete[1..]));
  }

  lemma LateDeleteKeepsLive(s: State)
    requires Book(s) && LateInv(s) && Drained(s) && Pending(s) && s.ctl.LateDeleting? && s.ctl.job.toDelete != []
    ensures LateInv(ApplyLateDelete(s))
  {
    assert s.ctl.job.toDelete[0] in PendingDeletes(s.ctl);
    forall g <- s.gs | s.gs[g].Running() ensures s.gs[g].target.name != s.ctl.job.toDelete[0].name {
      assert GoroutineOk(s, g);
    }
  }

  lemma LateDeleteKeepsAll(s: State)
    requires AllInv(true, s) && s.ctl.LateDeleting? && s.ctl.job.toDelete != []
    ensures AllInv(true, ApplyLateDelete(s))
  {
    var t := s.ctl.job.toDelete[0];
    assert t in PendingDeletes(s.ctl);
    DeleteKeepsBook(s, t);
    DeleteKeepsStore(s, t);
    BookIgnoresCtl(ApplyDelete(s, t), ApplyLateDelete(s));
    LateDeleteKeepsCtl(s);
    LateDeleteKeepsLive(s);
  }

  lemma WaitKeepsAll(late: bool, s: State)
    requires AllInv(late, s) && s.ctl.Waiting? && forall g <- s.ctl.job.waiting :: g in s.gs && !s.gs[g].Running()
    ensures AllInv(late, s.(ctl := ToLateDelete(s.ctl.job)))
  {
    var job, s' := s.ctl.job, s.(ctl := ToLateDelete(s.ctl.job));
    BookIgnoresCtl(s, s');
    PlanIgnoresLive(s, s', job, job);
  }

  lemma ByNameFinds(targets: seq<TargetConfig>, t: TargetConfig)
    requires UniqueNames(targets) && t in targets
    ensures t.name in ByName(targets) && ByName(targets)[t.name] == t
  {
    InByName(targets, t.name);
    var i :| 0 <= i < |targets| && targets[i] == t;
    var j :| 0 <= j < |targets| && targets[j] == ByName(targets)[t.name];
    assert i == j;
  }

  lemma AdmissibleTags(tagKeys: seq<string>, c: Config, t: TargetConfig)
    requires Admissible(tagKeys, c) && t.name in ByName(c.targets) && ByName(c.targets)[t.name] == t
    ensures t.tags.Keys <= Elements(tagKeys)
  {
    InByName(c.targets, t.name);
  }

  lemma LaunchKeepsAll(late: bool, s: State, c: Config)
    requires AllInv(late, s) && s.ctl.Fresh? && Admissible(s.tagKeys, c)
    ensures AllInv(late, s.(ctl := ToStart(NewJob(s, c, [], c.targets))))
  {
    var job := NewJob(s, c, [], c.targets);
    var s' := s.(ctl := ToStart(job));
    BookIgnoresCtl(s, s');
    forall t <- c.targets ensures t.name in job.cfg && job.cfg[t.name] == t && t.tags.Keys <= Elements(s.tagKeys) {
      ByNameFinds(c.targets, t);
      AdmissibleTags(s.tagKeys, c, t);
    }
    forall n: string ensures PlanFor(s', job, n) { InByName(c.targets, n); }
  }

  lemma ReloadPlans(s: State, c: Config, toStop: seq<TargetConfig>, toStart: seq<TargetConfig>)
    requires Book(s) && UniqueNames(c.targets) && IsDiff(Running(s), ByName(c.targets), toStop, toStart)
    ensures Plan(s, NewJob(s, c, toStop, toStart))
  {
    var job, o := NewJob(s, c, toStop, toStart), Running(s);
    forall t <- toStop ensures t.name in s.probes && s.probes[t.name] in s.gs && s.gs[s.probes[t.name]].target == t {
      assert t.name in o;
    }
    forall n: string ensures PlanFor(s, job, n) {
      assert NameOk(s, n);
      assert n in s.probes <==> n in o;
      assert n in NamesOf(toStop) <==> MustStop(o, job.cfg, n);
      assert n in NamesOf(toStart) <==> MustStart(o, job.cfg, n);
    }
  }

  lemma ReloadKeepsCtl(late: bool, s: State, c: Config, toStop: seq<TargetConfig>, toStart: seq<TargetConfig>)
    requires Book(s) && s.ctl.Idle? && Drained(s) && Pending(s) && UniqueNames(c.targets)
    requires IsDiff(Running(s), ByName(c.targets), toStop, toStart)
    ensures var s' := ApplyReload(s, c, toStop, toStart); CtlInv(late, s') && Pending(s') && ResidueInv(s')
  {
    var job, s' := NewJob(s, c, toStop, toStart), ApplyReload(s, c, toStop, toStart);
    assert Plan(s', job) by {
      ReloadPlans(s, c, toStop, toStart);
      PlanIgnoresLive(s, s', job, job);
    }
    JobBegins(late, s, job);
  }

  /** A fresh job has stopped nothing yet. */
  lemma JobBegins(late: bool, s: State, job: Job)
    requires s.ctl.Idle? && Drained(s) && Pending(s) && job.waiting == {} && job.toDelete == [] && job.dirtyBefore == s.dirty
    requires Plan(s.(ctl := ToCancel(job)), job)
    ensures var s' := s.(ctl := ToCancel(job)); CtlInv(late, s') && Pending(s') && ResidueInv(s')
  {
  }

  lemma ReloadKeepsTags(s: State, c: Config, toStop: seq<TargetConfig>, toStart: seq<TargetConfig>)
    requires Tagged(s) && Admissible(s.tagKeys, c) && IsDiff(Running(s), ByName(c.targets), toStop, toStart)
    ensures Tagged(ApplyReload(s, c, toStop, toStart))
  {
    forall t <- toStart ensures t.tags.Keys <= Elements(s.tagKeys) { AdmissibleTags(s.tagKeys, c, t); }
  }

  lemma ReloadKeepsAll(late: bool, s: State, c: Config, toStop: seq<TargetConfig>, toStart: seq<TargetConfig>)
    requires AllInv(late, s) && s.ctl.Idle? && Admissible(s.tagKeys, c)
    requires IsDiff(Running(s), ByName(c.targets), toStop, toStart)
    ensures AllInv(late, ApplyReload(s, c, toStop, toStart))
  {
    BookIgnoresCtl(s, ApplyReload(s, c, toStop, toStart));
    ReloadKeepsCtl(late, s, c, toStop, toStart);
    ReloadKeepsTags(s, c, toStop, toStart);
  }

  lemma StopKeepsAll(late: bool, s: State, n: string)
    requires AllInv(late, s) && s.ctl.Halting? && n in s.probes && s.probes[n] in s.gs
    ensures AllInv(late, s.(gs := s.gs[s.probes[n] := Cancel(s.gs[s.probes[n]])], probes := s.probes - {n}))
  {
    var s' := s.(gs := s.gs[s.probes[n] := Cancel(s.gs[s.probes[n]])], probes := s.probes - {n});
    assert CancelOf(s, s', n);
    CancelKeepsBook(s, s', n);
    CancelKeepsStore(s, s', n);
  }

  lemma HaltKeepsAll(late: bool, s: State, ctl: Ctl)
    requires AllInv(late, s) && (ctl.Halting? || (ctl.Halted? && s.probes == map[] && s.wg == 0))
    ensures AllInv(late, s.(ctl := ctl))
  {
    BookIgnoresCtl(s, s.(ctl := ctl));
  }

  lemma JobEventKeepsAll(late: bool, s: State, e: Event)
    requires AllInv(late, s) && Enabled(s, e) && IsJobEvent(e)
    ensures AllInv(late, Apply(late, s, e))
  {
    match e
    case CancelNext => CancelKeepsAll(late, s);
    case DeleteNext => if s.ctl.Deleting? { EarlyDeleteKeepsAll(s); } else { LateDeleteKeepsAll(s); }
    case WaitDone => WaitKeepsAll(late, s);
    case StartNext(delay) => StartKeepsAll(late, s, delay);
  }

  predicate IsJobEvent(e: Event) { e.CancelNext? || e.DeleteNext? || e.WaitDone? || e.StartNext? }

  lemma CallKeepsAll(late: bool, s: State, e: Event)
    requires AllInv(late, s) && Enabled(s, e) && !IsJobEvent(e) && !e.Step?
    ensures AllInv(late, Apply(late, s, e))
  {
    match e
    case Launch(c) => LaunchKeepsAll(late, s, c);
    case BeginReload(c, toStop, toStart) => ReloadKeepsAll(late, s, c, toStop, toStart);
    case BeginStop => HaltKeepsAll(late, s, Halting);
    case StopNext(n) => StopKeepsAll(late, s, n);
    case StopDone => HaltKeepsAll(late, s, Halted);
  }

  /** Every event keeps the invariants. */
  lemma EventKeepsAll(late: bool, s: State, e: Event)
    requires AllInv(late, s) && Enabled(s, e)
    ensures AllInv(late, Apply(late, s, e))
  {
    if IsJobEvent(e) {
      JobEventKeepsAll(late, s, e);
    } else if e.Step? {
      StepKeepsAll(late, s, e.g, e.a);
    } else {
      CallKeepsAll(late, s, e);
    }
  }

  lemma InitHasAll(late: bool, tagKeys: seq<string>)
    requires Unclashing(tagKeys)
    ensures AllInv(late, Init(tagKeys))
  {
    assert Alive(Init(tagKeys).gs) == {};
  }

  lemma {:induction false} RunKeepsAll(late: bool, s: State, es: seq<Event>)
    requires AllInv(late, s) && CanRun(late, s, es)
    ensures AllInv(late, AfterRun(late, s, es))
  {
    if es != [] {
      var last := |es| - 1;
      RunKeepsAll(late, s, es[..last]);
      EventKeepsAll(late, AfterRun(late, s, es[..last]), es[last]);
    }
  }
}
