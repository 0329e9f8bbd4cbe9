/** Exactly when the code as written leaves stale series: a Reload may if it stops any target, and it must if a
    goroutine is bound to write when its target is deleted. */
module SchedulerStaleness {
  import opened Targets
  import opened Exporter
  import opened ProbeLoop
  import opened Configuration
  import opened Scheduler
  import opened SchedulerInvariants
  import opened SchedulerTheorems
  import opened SchedulerProgress

  // ---------- a Reload that stops nothing ----------

  /** Nothing is being stopped and nothing cancelled still runs. */
  ghost predicate Calm(s: State) {
    && (s.ctl.Waiting? || s.ctl.Starting? || s.ctl.Idle?)
    && s.ctl.job.toStop == [] && s.ctl.job.toDelete == [] && Drained(s)
  }

  lemma CalmWritesAreLive(s: State, e: Event)
    requires Book(s) && Drained(s) && Enabled(s, e)
    ensures !IsStaleWrite(s, e)
  {
    if e.Step? {
      assert GoroutineOk(s, e.g);
      DoInv(s.gs[e.g], e.a);
      assert NameOk(s, s.gs[e.g].target.name);
    }
  }

  lemma CalmStays(s: State, e: Event)
    requires Book(s) && Calm(s) && Enabled(s, e) && !ChangesPlan(e)
    ensures Calm(Apply(false, s, e))
  {
    if e.Step? {
      assert GoroutineOk(s, e.g);
      DoInv(s.gs[e.g], e.a);
    }
  }

  lemma {:induction false} CalmRun(s: State, during: seq<Event>)
    requires AllInv(false, s) && Calm(s) && CanRun(false, s, during) && forall e <- during :: !ChangesPlan(e)
    ensures NoStaleWrite(false, s, during) && Calm(AfterRun(false, s, during))
  {
    if during != [] {
      var last := |during| - 1;
      CalmRun(s, during[..last]);
      RunKeepsAll(false, s, during[..last]);
      CalmWritesAreLive(AfterRun(false, s, during[..last]), during[last]);
      CalmStays(AfterRun(false, s, during[..last]), during[last]);
    }
  }

  // ---------- a Reload that stops a target ----------

  /** A run is free of stale writes only if both its parts are. */
  lemma {:induction false} StaleAppend(s: State, es: seq<Event>, more: seq<Event>)
    requires CanRun(false, s, es) && CanRun(false, AfterRun(false, s, es), more) && CanRun(false, s, es + more)
    ensures NoStaleWrite(false, s, es + more) ==> NoStaleWrite(false, s, es) && NoStaleWrite(false, AfterRun(false, s, es), more)
  {
    if more == [] {
      assert es + more == es;
    } else {
      var last := |more| - 1;
      RunAppend(false, s, es, more[..last]);
      StaleAppend(s, es, more[..last]);
      assert (es + more)[..|es + more| - 1] == es + more[..last];
    }
  }

  /** A series of that name tells of a result or a skip. */
  ghost predicate Shown(s: State, n: string) { exists k: Series :: OwnedBy(k, n) && Telling(k, s.store(k)) }

  /** So it does although, until the starts begin, nothing is live under the name. */
  ghost predicate Lost(s: State, n: string) { Shown(s, n) && (BeforeStart(s.ctl) ==> n !in s.live) }

  /** Whoever is live under the name has recorded and skipped nothing yet. */
  ghost predicate Unrecorded(s: State, n: string) {
    n in s.live ==> s.live[n] in s.gs && EntryOf(s.gs[s.live[n]]) == LiveTarget(s.gs[s.live[n]].target, None, 0)
  }

  lemma LostDisagrees(s: State, n: string)
    requires Shown(s, n) && Unrecorded(s, n)
    ensures !Agree(s)
  {
    var k: Series :| OwnedBy(k, n) && Telling(k, s.store(k));
    if n in s.live {
      var t := s.gs[s.live[n]].target;
      IdleTellsNothing(Labelled(s, t), t, k);
    }
    assert s.store(k) != Want(s, k);
  }

  lemma ShownBy(s: State, n: string, k: Series)
    requires OwnedBy(k, n) && Telling(k, s.store(k))
    ensures Shown(s, n)
  {
  }

  lemma StepKeepsShown(s: State, g: Gid, a: Action, n: string)
    requires g in s.gs && CanDo(s.gs[g], a) && Shown(s, n)
    ensures Shown(ApplyStep(s, g, a), n)
  {
    var k: Series :| OwnedBy(k, n) && Telling(k, s.store(k));
    var r := if s.gs[g].pc.Recording? then s.gs[g].pc.result else PlainSuccess;
    TellingStays(Labelled(s, s.gs[g].target), s.gs[g].target, r, k, s.store(k));
    ShownBy(ApplyStep(s, g, a), n, k);
  }

  lemma DeleteKeepsShown(s: State, n: string)
    requires Unclashing(s.tagKeys) && s.ctl.Deleting? && s.ctl.target.name != n && Shown(s, n)
    ensures Shown(ApplyEarlyDelete(s), n)
  {
    var t := s.ctl.target;
    var k: Series :| OwnedBy(k, n) && Telling(k, s.store(k));
    LabelsNameTheTarget(s.tagKeys, t);
    EffectsAreFramed(Labelled(s, t), t, PlainSuccess, k, s.store(k));
    ShownBy(ApplyEarlyDelete(s), n, k);
  }

  lemma StartKeepsShown(s: State, delay: nat, n: string)
    requires s.ctl.Starting? && s.ctl.job.toStart != [] && Shown(s, n)
    ensures Shown(ApplyStart(s, delay), n)
  {
    var t := s.ctl.job.toStart[0];
    var k: Series :| OwnedBy(k, n) && Telling(k, s.store(k));
    TellingStays(Labelled(s, t), t, PlainSuccess, k, s.store(k));
    ShownBy(ApplyStart(s, delay), n, k);
  }

  lemma SameStoreSameShown(s: State, s': State, n: string)
    requires Shown(s, n) && s'.store == s.store
    ensures Shown(s', n)
  {
    var k: Series :| OwnedBy(k, n) && Telling(k, s.store(k));
    ShownBy(s', n, k);
  }

  lemma EventKeepsShown(s: State, e: Event, n: string)
    requires Unclashing(s.tagKeys) && CtlInv(false, s) && Pending(s) && Enabled(s, e) && !ChangesPlan(e) && Lost(s, n)
    ensures Shown(Apply(false, s, e), n)
  {
    if e.Step? {
      StepKeepsShown(s, e.g, e.a, n);
    } else if e.DeleteNext? {
      assert s.ctl.target in PendingDeletes(s.ctl);
      DeleteKeepsShown(s, n);
    } else if e.StartNext? {
      StartKeepsShown(s, e.delay, n);
    } else {
      SameStoreSameShown(s, Apply(false, s, e), n);
    }
  }

  lemma StartedStays(s: State, e: Event)
    requires Enabled(s, e) && !ChangesPlan(e)
    ensures BeforeStart(Apply(false, s, e).ctl) ==> BeforeStart(s.ctl) && Apply(false, s, e).live.Keys <= s.live.Keys
  {
  }

  lemma EventKeepsLost(s: State, e: Event, n: string)
    requires AllInv(false, s) && Enabled(s, e) && !ChangesPlan(e) && Lost(s, n)
    ensures Lost(Apply(false, s, e), n)
  {
    EventKeepsShown(s, e, n);
    StartedStays(s, e);
  }

  predicate WithinJob(es: seq<Event>) { forall e <- es :: !ChangesPlan(e) }

  lemma {:induction false} RunKeepsLost(s: State, es: seq<Event>, n: string)
    requires AllInv(false, s) && CanRun(false, s, es) && WithinJob(es) && Lost(s, n)
    ensures Lost(AfterRun(false, s, es), n)
  {
    if es != [] {
      var last := |es| - 1;
      RunKeepsLost(s, es[..last], n);
      RunKeepsAll(false, s, es[..last]);
      EventKeepsLost(AfterRun(false, s, es[..last]), es[last], n);
    }
  }

  /** A cancelled goroutine that may write and lost its target. */
  ghost predicate Stray(s: State, g: Gid) {
    && g in s.gs && s.gs[g].cancelled && MayWrite(s.gs[g]) && s.gs[g].target.name !in s.live
    && s.store(Series(SkippedOverlap, Labelled(s, s.gs[g].target))) == None
  }

  lemma StrayWriteShows(s: State, g: Gid, a: Action)
    requires Unclashing(s.tagKeys) && Stray(s, g) && CanDo(s.gs[g], a) && IsWrite(a)
    ensures Lost(ApplyStep(s, g, a), s.gs[g].target.name)
  {
    var t := s.gs[g].target;
    var k := Series(if a == Record then Success else SkippedOverlap, Labelled(s, t));
    LabelsNameTheTarget(s.tagKeys, t);
    WriteTells(k.labels, t, if s.gs[g].pc.Recording? then s.gs[g].pc.result else PlainSuccess, s.store(k));
    assert Telling(k, Written(s, s.gs[g], a)(k));
    ShownBy(ApplyStep(s, g, a), t.name, k);
  }

  /** It can make a stale write. */
  lemma {:induction false} StaleWriteReachable(s: State, g: Gid) returns (es: seq<Event>)
    requires Unclashing(s.tagKeys) && Stray(s, g)
    ensures CanRun(false, s, es) && WithinJob(es) && !NoStaleWrite(false, s, es)
    ensures Lost(AfterRun(false, s, es), s.gs[g].target.name) && AfterRun(false, s, es).ctl == s.ctl
    decreases Distance(s.gs[g])
  {
    var a := TowardsWrite(s.gs[g]);
    var s' := ApplyStep(s, g, a);
    StepAdvances(s, g, a);
    RunOne(false, s, Step(g, a));
    es := [Step(g, a)];
    if IsWrite(a) {
      StrayWriteShows(s, g, a);
    } else {
      var more := StaleWriteReachable(s', g);
      RunCons(false, s, Step(g, a), s', more);
      StaleAppend(s, es, more);
      es := es + more;
    }
  }

  /** A registered goroutine is, or gets with its next step, past the check of a zero jitter. */
  lemma LeaveJitter(s: State, n: string) returns (es: seq<Event>)
    requires Book(s) && n in s.probes
    ensures CanRun(false, s, es) && WithinJob(es)
    ensures var s' := AfterRun(false, s, es);
      s'.ctl == s.ctl && s'.probes == s.probes && s.probes[n] in s'.gs && MayWrite(s'.gs[s.probes[n]])
  {
    var g := s.probes[n];
    assert NameOk(s, n) && GoroutineOk(s, g);
    es := [];
    if !MayWrite(s.gs[g]) {
      StepAdvances(s, g, JitterElapsed);
      RunOne(false, s, Step(g, JitterElapsed));
      es := [Step(g, JitterElapsed)];
    }
  }

  /** The goroutine of the stop loop's next target. */
  ghost predicate NextToStop(s: State, g: Gid) {
    s.ctl.Cancelling? && s.ctl.job.toStop != [] && s.ctl.job.toStop[0].name in s.probes && s.probes[s.ctl.job.toStop[0].name] == g && g in s.gs
    && s.gs[g].target == s.ctl.job.toStop[0]
  }

  lemma CancelStrays(s: State, g: Gid)
    requires NextToStop(s, g) && MayWrite(s.gs[g])
    ensures Enabled(s, CancelNext)
    ensures var s' := ApplyCancel(false, s); s'.ctl.Deleting? && s'.ctl.target == s.gs[g].target && g in s'.gs && s'.gs[g] == Cancel(s.gs[g])
  {
  }

  lemma DeleteStrays(s: State, g: Gid)
    requires s.ctl.Deleting? && g in s.gs && s.gs[g].target == s.ctl.target && s.gs[g].cancelled && MayWrite(s.gs[g])
    ensures var s' := ApplyEarlyDelete(s); Stray(s', g) && s'.gs == s.gs && (IsStopping(s'.ctl) || s'.ctl.Waiting?)
  {
    var t := s.ctl.target;
    WriteTells(Labelled(s, t), t, PlainSuccess, s.store(Series(SkippedOverlap, Labelled(s, t))));
  }

  /** It is cancelled and loses its target. */
  lemma CancelAndDelete(s: State, g: Gid) returns (s': State)
    requires NextToStop(s, g) && MayWrite(s.gs[g])
    ensures CanRun(false, s, [CancelNext, DeleteNext]) && AfterRun(false, s, [CancelNext, DeleteNext]) == s'
    ensures Stray(s', g) && s'.gs[g].target == s.gs[g].target && (IsStopping(s'.ctl) || s'.ctl.Waiting?)
  {
    CancelStrays(s, g);
    var s1 := ApplyCancel(false, s);
    DeleteStrays(s1, g);
    s' := ApplyEarlyDelete(s1);
    RunOne(false, s, CancelNext);
    RunOne(false, s1, DeleteNext);
    RunCons(false, s, CancelNext, s1, [DeleteNext]);
    assert [CancelNext] + [DeleteNext] == [CancelNext, DeleteNext];
  }

  /** `es` makes a stale write that stays on display to the end of the waits. */
  ghost predicate Leaks(s: State, es: seq<Event>, n: string) {
    && CanRun(false, s, es) && WithinJob(es) && !NoStaleWrite(false, s, es)
    && Enabled(AfterRun(false, s, es), WaitDone) && Lost(AfterRun(false, s, es), n)
  }

  lemma LeaksAfter(s: State, first: seq<Event>, more: seq<Event>, n: string)
    requires CanRun(false, s, first) && WithinJob(first) && Leaks(AfterRun(false, s, first), more, n)
    ensures Leaks(s, first + more, n)
  {
    RunAppend(false, s, first, more);
    StaleAppend(s, first, more);
  }

  lemma StrayCanLeak(s: State, g: Gid) returns (es: seq<Event>)
    requires AllInv(false, s) && (IsStopping(s.ctl) || s.ctl.Waiting?) && Stray(s, g)
    ensures Leaks(s, es, s.gs[g].target.name)
  {
    var first := StaleWriteReachable(s, g);
    var s1 := AfterRun(false, s, first);
    RunKeepsAll(false, s, first);
    var more := StopLoopCanEnd(false, s1);
    RunKeepsLost(s1, more, s.gs[g].target.name);
    RunAppend(false, s, first, more);
    StaleAppend(s, first, more);
    es := first + more;
  }

  lemma StopNextTarget(s: State, g: Gid) returns (first: seq<Event>, s': State)
    requires AllInv(false, s) && NextToStop(s, g) && MayWrite(s.gs[g])
    ensures CanRun(false, s, first) && WithinJob(first) && AfterRun(false, s, first) == s' && AllInv(false, s')
    ensures Stray(s', g) && s'.gs[g].target == s.gs[g].target && (IsStopping(s'.ctl) || s'.ctl.Waiting?)
  {
    first := [CancelNext, DeleteNext];
    s' := CancelAndDelete(s, g);
    RunKeepsAll(false, s, first);
  }

  lemma CancelledCanLeak(s: State, g: Gid) returns (es: seq<Event>)
    requires AllInv(false, s) && NextToStop(s, g) && MayWrite(s.gs[g])
    ensures Leaks(s, es, s.gs[g].target.name)
  {
    var first, s1 := StopNextTarget(s, g);
    var more := StrayCanLeak(s1, g);
    LeaksAfter(s, first, more, s.gs[g].target.name);
    es := first + more;
  }

  /** From the start of a stop loop some run leaks its first target. */
  lemma StopLoopCanLeak(s: State) returns (es: seq<Event>)
    requires AllInv(false, s) && s.ctl.Cancelling?
    ensures Leaks(s, es, s.ctl.job.toStop[0].name)
  {
    var n := s.ctl.job.toStop[0].name;
    assert s.ctl.job.toStop[0] in s.ctl.job.toStop;
    var first := LeaveJitter(s, n);
    RunKeepsAll(false, s, first);
    var s1 := AfterRun(false, s, first);
    assert s1.ctl.job.toStop[0] in s1.ctl.job.toStop;
    var more := CancelledCanLeak(s1, s.probes[n]);
    LeaksAfter(s, first, more, n);
    es := first + more;
  }

  /** The starts can run through before any new goroutine records. */
  lemma {:induction false} StartsShowIt(s: State, n: string) returns (es: seq<Event>)
    requires AllInv(false, s) && IsStarting(s.ctl) && Lost(s, n) && Unrecorded(s, n)
    ensures CanRun(false, s, es) && WithinJob(es)
    ensures AfterRun(false, s, es).ctl.Idle? && Shown(AfterRun(false, s, es), n) && Unrecorded(AfterRun(false, s, es), n)
    decreases StartRank(s.ctl)
  {
    es := [];
    if !s.ctl.Idle? {
      var s' := StartLoopStep(false, s);
      StartKeepsUnrecorded(s, s', n);
      var more := StartsShowIt(s', n);
      RunCons(false, s, StartEvent(s), s', more);
      es := [StartEvent(s)] + more;
    }
  }

  lemma StartKeepsUnrecorded(s: State, s': State, n: string)
    requires AllInv(false, s) && s.ctl.Starting? && Takes(false, s, StartEvent(s), s') && Lost(s, n) && Unrecorded(s, n)
    ensures Lost(s', n) && Unrecorded(s', n)
  {
    RunOne(false, s, StartEvent(s));
    EventKeepsLost(s, StartEvent(s), n);
    assert GoroutineOk(s, s.next) && NameOk(s, n);
  }

  // ---------- exactly when ----------

  /** The course of a Reload: it has begun, and `during` is what happened since. */
  ghost predicate Course(s: State, c: Config, toStop: seq<TargetConfig>, toStart: seq<TargetConfig>, during: seq<Event>) {
    CanRun(false, ApplyReload(s, c, toStop, toStart), during) && WithinJob(during)
  }

  ghost predicate Reloadable(s: State, c: Config, toStop: seq<TargetConfig>, toStart: seq<TargetConfig>) {
    Reached(false, s) && s.ctl.Idle? && Admissible(s.tagKeys, c) && IsDiff(Running(s), ByName(c.targets), toStop, toStart)
  }

  lemma ReloadBegins(s: State, c: Config, toStop: seq<TargetConfig>, toStart: seq<TargetConfig>)
    requires Reloadable(s, c, toStop, toStart)
    ensures var s' := ApplyReload(s, c, toStop, toStart); AllInv(false, s') && if toStop == [] then Calm(s') else s'.ctl.Cancelling?
  {
    ReachedHasAll(false, s);
    ReloadKeepsAll(false, s, c, toStop, toStart);
  }

  /** What a Reload may do, known before the call: in some interleaving a goroutine writes series of a target
      deleted under it, if and only if the Reload stops any target at all. */
  lemma ReloadMayWriteStaleIff(s: State, c: Config, toStop: seq<TargetConfig>, toStart: seq<TargetConfig>)
    requires Reloadable(s, c, toStop, toStart)
    ensures (exists during :: Course(s, c, toStop, toStart, during) && !NoStaleWrite(false, ApplyReload(s, c, toStop, toStart), during))
       <==> toStop != []
  {
    var s1 := ApplyReload(s, c, toStop, toStart);
    ReloadBegins(s, c, toStop, toStart);
    if toStop != [] {
      var during := StopLoopCanLeak(s1);
      assert Course(s, c, toStop, toStart, during);
    } else {
      forall during | Course(s, c, toStop, toStart, during) ensures NoStaleWrite(false, s1, during) { CalmRun(s1, during); }
    }
  }

  /** `during` brings the Reload to its return with a store that is not exact. */
  ghost predicate ReturnsStale(s: State, c: Config, toStop: seq<TargetConfig>, toStart: seq<TargetConfig>, during: seq<Event>) {
    && Course(s, c, toStop, toStart, during)
    && var s' := AfterRun(false, ApplyReload(s, c, toStop, toStart), during); s'.ctl.Idle? && !Agree(s')
  }

  /** From the end of the waits a lost name stays on display to the return. */
  lemma LostReturnsStale(s: State, n: string) returns (es: seq<Event>)
    requires AllInv(false, s) && Enabled(s, WaitDone) && Lost(s, n)
    ensures CanRun(false, s, es) && WithinJob(es) && AfterRun(false, s, es).ctl.Idle? && !Agree(AfterRun(false, s, es))
  {
    var s' := AfterWaits(false, s);
    RunOne(false, s, WaitDone);
    EventKeepsLost(s, WaitDone, n);
    var more := StartsShowIt(s', n);
    RunCons(false, s, WaitDone, s', more);
    LostDisagrees(AfterRun(false, s', more), n);
    es := [WaitDone] + more;
  }

  lemma SomeRunReturnsStale(s: State, c: Config, toStop: seq<TargetConfig>, toStart: seq<TargetConfig>) returns (during: seq<Event>)
    requires Reloadable(s, c, toStop, toStart) && toStop != []
    ensures ReturnsStale(s, c, toStop, toStart, during)
  {
    var s1 := ApplyReload(s, c, toStop, toStart);
    ReloadBegins(s, c, toStop, toStart);
    var first := StopLoopCanLeak(s1);
    RunKeepsAll(false, s1, first);
    var more := LostReturnsStale(AfterRun(false, s1, first), s1.ctl.job.toStop[0].name);
    RunAppend(false, s1, first, more);
    during := first + more;
  }

  /** The same state with the bookkeeping of stale writes wiped. */
  ghost function Wiped(s: State): State { s.(dirty := {}) }

  lemma WipedHasAll(s: State)
    requires AllInv(false, s) && Agree(s)
    ensures AllInv(false, Wiped(s))
  {
    var w := Wiped(s);
    forall g: Gid ensures GoroutineOk(w, g) { assert GoroutineOk(s, g); }
    forall n: string ensures NameOk(w, n) { assert NameOk(s, n); }
    forall g: Gid, h: Gid ensures PairOk(w, g, h) { assert PairOk(s, g, h); }
    if HasJob(s.ctl) { PlanIgnoresLive(s, w, s.ctl.job, s.ctl.job); }
    forall k: Series ensures w.store(k) == Want(w, k) { assert s.store(k) == Want(s, k); }
  }

  /** All that a scrape should show and does show is the same. */
  ghost predicate SameView(s: State, w: State) {
    w.gs == s.gs && w.live == s.live && w.tagKeys == s.tagKeys && forall k: Series :: w.store(k) == s.store(k)
  }

  lemma WipedSteps(s: State, g: Gid, a: Action)
    requires g in s.gs && CanDo(s.gs[g], a)
    ensures SameView(ApplyStep(s, g, a), ApplyStep(Wiped(s), g, a))
  {
    if IsWrite(a) {
      forall k: Series ensures Written(Wiped(s), s.gs[g], a)(k) == Written(s, s.gs[g], a)(k) { }
    }
  }

  lemma WipedDeletes(s: State)
    requires s.ctl.Deleting?
    ensures SameView(ApplyEarlyDelete(s), ApplyEarlyDelete(Wiped(s)))
  {
    var t, w := s.ctl.target, Wiped(s);
    forall k: Series ensures ApplyEarlyDelete(w).store(k) == ApplyEarlyDelete(s).store(k) {
      assert ApplyEarlyDelete(s).store(k) == AfterDelete(Labelled(s, t), t, k, s.store(k));
      assert ApplyEarlyDelete(w).store(k) == AfterDelete(Labelled(w, t), t, k, w.store(k));
    }
  }

  lemma WipedStarts(s: State, delay: nat)
    requires s.ctl.Starting? && s.ctl.job.toStart != []
    ensures SameView(ApplyStart(s, delay), ApplyStart(Wiped(s), delay))
  {
    var t, w := s.ctl.job.toStart[0], Wiped(s);
    forall k: Series ensures ApplyStart(w, delay).store(k) == ApplyStart(s, delay).store(k) {
      assert ApplyStart(s, delay).store(k) == AfterEnsure(Labelled(s, t), t, k, s.store(k));
      assert ApplyStart(w, delay).store(k) == AfterEnsure(Labelled(w, t), t, k, w.store(k));
    }
  }

  lemma WipedTakes(s: State, e: Event)
    requires CtlInv(false, s) && Enabled(s, e)
    ensures Enabled(Wiped(s), e)
    ensures var s', w' := Apply(false, s, e), Apply(false, Wiped(s), e);
      SameView(s', w') && (!IsStaleWrite(s, e) ==> w'.dirty == {})
  {
    if e.Step? {
      WipedSteps(s, e.g, e.a);
    } else if e.DeleteNext? {
      WipedDeletes(s);
    } else if e.StartNext? {
      WipedStarts(s, e.delay);
    }
  }

  lemma SameWant(s: State, w: State)
    requires SameView(s, w) && Agree(w)
    ensures Agree(s)
  {
    forall k: Series ensures s.store(k) == Want(s, k) { assert w.store(k) == Want(w, k); }
  }

  /** A write that is not stale keeps an exact store exact, whatever was stale before. */
  lemma FreshEventKeepsAgree(s: State, e: Event)
    requires AllInv(false, s) && Agree(s) && Enabled(s, e) && !IsStaleWrite(s, e)
    ensures Agree(Apply(false, s, e))
  {
    WipedHasAll(s);
    WipedTakes(s, e);
    EventKeepsAll(false, Wiped(s), e);
    CleanMeansAgree(Apply(false, Wiped(s), e));
    SameWant(Apply(false, s, e), Apply(false, Wiped(s), e));
  }

  lemma {:induction false} CalmRunKeepsAgree(s: State, during: seq<Event>)
    requires AllInv(false, s) && Calm(s) && Agree(s) && CanRun(false, s, during) && WithinJob(during)
    ensures Agree(AfterRun(false, s, during))
  {
    if during != [] {
      var last := |during| - 1;
      CalmRunKeepsAgree(s, during[..last]);
      CalmRun(s, during[..last]);
      RunKeepsAll(false, s, during[..last]);
      CalmWritesAreLive(AfterRun(false, s, during[..last]), during[last]);
      FreshEventKeepsAgree(AfterRun(false, s, during[..last]), during[last]);
    }
  }

  lemma NoRunReturnsStale(s: State, c: Config, toStart: seq<TargetConfig>, during: seq<Event>)
    requires Reloadable(s, c, [], toStart) && Agree(s) && Course(s, c, [], toStart, during)
    ensures !ReturnsStale(s, c, [], toStart, during)
  {
    ReloadBegins(s, c, [], toStart);
    SameWant(ApplyReload(s, c, [], toStart), s);
    CalmRunKeepsAgree(ApplyReload(s, c, [], toStart), during);
  }

  /** The same for what is on display when the Reload returns: from a store that shows exactly the live targets, some
      interleaving returns with one that does not, if and only if the Reload stops any target at all. */
  lemma ReloadMayReturnStaleIff(s: State, c: Config, toStop: seq<TargetConfig>, toStart: seq<TargetConfig>)
    requires Reloadable(s, c, toStop, toStart) && Agree(s)
    ensures (exists during :: ReturnsStale(s, c, toStop, toStart, during)) <==> toStop != []
  {
    if toStop != [] {
      var during := SomeRunReturnsStale(s, c, toStop, toStart);
    } else {
      forall during | Course(s, c, toStop, toStart, during) ensures !ReturnsStale(s, c, toStop, toStart, during) {
        NoRunReturnsStale(s, c, toStart, during);
      }
    }
  }

  // ---------- a Reload that must leave stale series ----------

  /** g lost its target, and either it is still bound to write or series of that name are on display. */
  ghost predicate Leaking(s: State, g: Gid) {
    g in s.gs && s.gs[g].cancelled && s.gs[g].target.name !in s.live && (MustWrite(s.gs[g]) || Residue(s, s.gs[g].target.name))
  }

  lemma StepKeepsLeaking(s: State, g: Gid, h: Gid, a: Action)
    requires Unclashing(s.tagKeys) && Leaking(s, g) && h in s.gs && CanDo(s.gs[h], a)
    ensures Leaking(ApplyStep(s, h, a), g)
  {
    var s', n := ApplyStep(s, h, a), s.gs[g].target.name;
    DoKeeps(s.gs[h], a);
    if IsWrite(a) && s.gs[h].target.name == n {
      WriteLeavesSeries(s, h, a);
    } else {
      if h == g && MustWrite(s.gs[g]) { MustWriteStays(s.gs[g], a); }
      if Residue(s, n) {
        var k: Series :| OwnedBy(k, n) && s.store(k).Some?;
        if IsWrite(a) { WriteFramed(s, s.gs[h], a, k); }
        assert s'.store(k).Some?;
      }
    }
  }

  lemma DeleteKeepsLeaking(s: State, g: Gid)
    requires Unclashing(s.tagKeys) && Pending(s) && s.ctl.Deleting? && Leaking(s, g)
    ensures Leaking(ApplyEarlyDelete(s), g)
  {
    var t, n := s.ctl.target, s.gs[g].target.name;
    assert t in PendingDeletes(s.ctl);
    if Residue(s, n) {
      DeleteKeepsResidue(s, t, n);
      SameStoreSameResidue(ApplyDelete(s, t), ApplyEarlyDelete(s), n);
    }
  }

  lemma EventKeepsLeaking(s: State, e: Event, g: Gid)
    requires AllInv(false, s) && BeforeStart(s.ctl) && Enabled(s, e) && !ChangesPlan(e) && Leaking(s, g)
    ensures BeforeStart(Apply(false, s, e).ctl) ==> Leaking(Apply(false, s, e), g)
  {
    match e
    case Step(h, a) => StepKeepsLeaking(s, g, h, a);
    case DeleteNext => DeleteKeepsLeaking(s, g);
    case CancelNext =>
      if Residue(s, s.gs[g].target.name) { SameStoreSameResidue(s, Apply(false, s, e), s.gs[g].target.name); }
    case _ =>
  }

  lemma {:induction false} RunKeepsLeaking(s: State, es: seq<Event>, g: Gid)
    requires AllInv(false, s) && BeforeStart(s.ctl) && Leaking(s, g) && CanRun(false, s, es) && WithinJob(es)
    ensures BeforeStart(AfterRun(false, s, es).ctl) ==> Leaking(AfterRun(false, s, es), g)
  {
    if es != [] {
      var last := |es| - 1;
      var m := AfterRun(false, s, es[..last]);
      RunKeepsLeaking(s, es[..last], g);
      RunKeepsAll(false, s, es[..last]);
      StartedStays(m, es[last]);
      if BeforeStart(m.ctl) { EventKeepsLeaking(m, es[last], g); }
    }
  }

  lemma WaitedForHaveEnded(s: State, g: Gid)
    requires CtlInv(false, s) && Enabled(s, WaitDone) && g in s.gs && s.gs[g].cancelled
    ensures !s.gs[g].Running()
  {
  }

  /** The goroutine whose target the stop loop is about to delete. */
  ghost predicate Deletes(s: State, g: Gid) {
    s.ctl.Deleting? && s.ctl.target.name in s.live && s.live[s.ctl.target.name] == g && g in s.gs
  }

  lemma DeletedIsUnlisted(s: State, g: Gid)
    requires AllInv(false, s) && Deletes(s, g)
    ensures var s' := ApplyEarlyDelete(s);
      && s.gs[g].cancelled && s.gs[g].target == s.ctl.target && s'.gs == s.gs && s.ctl.target.name !in s'.live
      && AllInv(false, s') && (IsStopping(s'.ctl) || s'.ctl.Waiting?)
  {
    assert s.ctl.target in PendingDeletes(s.ctl) && GoroutineOk(s, g);
    EarlyDeleteKeepsAll(s);
  }

  /** `during` brings the Reload from the delete to the end of its waits. */
  ghost predicate EndsWaits(s: State, during: seq<Event>) {
    CanRun(false, s, during) && WithinJob(during) && Enabled(AfterRun(false, s, during), WaitDone)
  }

  lemma LeakShows(s: State, during: seq<Event>, g: Gid)
    requires AllInv(false, s) && BeforeStart(s.ctl) && Leaking(s, g) && CanRun(false, s, during) && WithinJob(during)
    requires Enabled(AfterRun(false, s, during), WaitDone)
    ensures var s', n := AfterRun(false, s, during), s.gs[g].target.name; n !in s'.live && Residue(s', n) && !Agree(s')
  {
    var s' := AfterRun(false, s, during);
    RunKeepsLeaking(s, during, g);
    RunKeepsAll(false, s, during);
    TargetsPersist(false, s, during, g);
    WaitedForHaveEnded(s', g);
    ResidueDisagrees(s', s.gs[g].target.name);
  }

  /** A goroutine that must write when its target is deleted (it is past its context check, or a tick waits for the
      drain it is bound for) makes that Reload leave series of a target that is gone, in every interleaving. */
  lemma CheckedGoroutineLeaks(s: State, g: Gid, during: seq<Event>)
    requires Reached(false, s) && Deletes(s, g) && MustWrite(s.gs[g]) && EndsWaits(ApplyEarlyDelete(s), during)
    ensures var s', n := AfterRun(false, ApplyEarlyDelete(s), during), s.ctl.target.name;
      n !in s'.live && Residue(s', n) && !Agree(s')
  {
    ReachedHasAll(false, s);
    DeletedIsUnlisted(s, g);
    LeakShows(ApplyEarlyDelete(s), during, g);
  }

  lemma EventKeepsMust(s: State, e: Event, g: Gid)
    requires Book(s) && Enabled(s, e) && g in s.gs && s.gs[g].cancelled && MustWrite(s.gs[g]) && !WritesAs(e, g)
    ensures var s' := Apply(false, s, e); g in s'.gs && s'.gs[g].cancelled && MustWrite(s'.gs[g])
  {
    assert GoroutineOk(s, g);
    if e.Step? && e.g == g {
      MustWriteStays(s.gs[g], e.a);
      DoKeeps(s.gs[g], e.a);
    }
  }

  lemma {:induction false} RunKeepsMust(s: State, es: seq<Event>, g: Gid)
    requires AllInv(false, s) && CanRun(false, s, es) && g in s.gs && s.gs[g].cancelled && MustWrite(s.gs[g]) && !WritesIn(es, g)
    ensures var s' := AfterRun(false, s, es); g in s'.gs && s'.gs[g].cancelled && MustWrite(s'.gs[g])
  {
    if es != [] {
      var last := |es| - 1;
      assert es[last] in es && forall e <- es[..last] :: e in es;
      RunKeepsMust(s, es[..last], g);
      RunKeepsAll(false, s, es[..last]);
      EventKeepsMust(AfterRun(false, s, es[..last]), es[last], g);
    }
  }

  lemma QuietEnd(s: State, g: Gid) returns (during: seq<Event>)
    requires AllInv(false, s) && (IsStopping(s.ctl) || s.ctl.Waiting?) && g in s.gs && s.gs[g].cancelled && !MustWrite(s.gs[g])
    ensures EndsWaits(s, during) && !WritesIn(during, g)
  {
    var first := FinishOne(false, s, g);
    var s1 := AfterRun(false, s, first);
    RunKeepsAll(false, s, first);
    var more := StopLoopCanEnd(false, s1);
    ClosedNeverWrites(false, s1, more, g);
    RunAppend(false, s, first, more);
    during := first + more;
  }

  lemma MustWriteWrites(s: State, during: seq<Event>, g: Gid)
    requires AllInv(false, s) && g in s.gs && s.gs[g].cancelled && MustWrite(s.gs[g]) && EndsWaits(s, during)
    ensures WritesIn(during, g)
  {
    if !WritesIn(during, g) {
      RunKeepsMust(s, during, g);
      RunKeepsAll(false, s, during);
      WaitedForHaveEnded(AfterRun(false, s, during), g);
    }
  }

  /** The goroutine of a deleted target writes in every interleaving up to the end of the waits if and only if, as
      the stop loop could see at the delete, it must. */
  lemma StaleWriteIsForcedIff(s: State, g: Gid)
    requires Reached(false, s) && Deletes(s, g)
    ensures (forall during | EndsWaits(ApplyEarlyDelete(s), during) :: WritesIn(during, g)) <==> MustWrite(s.gs[g])
  {
    var s1 := ApplyEarlyDelete(s);
    ReachedHasAll(false, s);
    DeletedIsUnlisted(s, g);
    if MustWrite(s.gs[g]) {
      forall during | EndsWaits(s1, during) ensures WritesIn(during, g) { MustWriteWrites(s1, during, g); }
    } else {
      var during := QuietEnd(s1, g);
    }
  }
}
