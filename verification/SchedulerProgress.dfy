/** Reload and Stop can return: from every reachable state some continuation lets them. */
module SchedulerProgress {
  import opened Targets
  import opened Exporter
  import opened ProbeLoop
  import opened Configuration
  import opened Scheduler
  import opened SchedulerInvariants
  import opened SchedulerTheorems

  /** A run may be continued by another. */
  lemma {:induction false} RunAppend(late: bool, s: State, es: seq<Event>, more: seq<Event>)
    requires CanRun(late, s, es) && CanRun(late, AfterRun(late, s, es), more)
    ensures CanRun(late, s, es + more) && AfterRun(late, s, es + more) == AfterRun(late, AfterRun(late, s, es), more)
  {
    if more == [] {
      assert es + more == es;
    } else {
      var last := |more| - 1;
      RunAppend(late, s, es, more[..last]);
      Snoc(late, s, es + more[..last], more[last]);
      assert es + more == es + more[..last] + [more[last]];
    }
  }

  /** `s'` is what event `e` makes of `s`. */
  ghost predicate Takes(late: bool, s: State, e: Event, s': State) { CanRun(late, s, [e]) && AfterRun(late, s, [e]) == s' }

  lemma RunOne(late: bool, s: State, e: Event)
    requires Enabled(s, e)
    ensures Takes(late, s, e, Apply(late, s, e))
  {
    Snoc(late, s, [], e);
    assert [] + [e] == [e];
  }

  /** One event and then a run. */
  lemma RunCons(late: bool, s: State, e: Event, s': State, more: seq<Event>)
    requires Takes(late, s, e, s') && CanRun(late, s', more)
    ensures CanRun(late, s, [e] + more) && AfterRun(late, s, [e] + more) == AfterRun(late, s', more)
  {
    RunAppend(late, s, [e], more);
  }

  // ---------- goroutines end ----------

  /** Goroutines moved on: control, registry and who is cancelled are as before, finished ones untouched. */
  ghost predicate Advanced(s: State, s': State) {
    && s'.ctl == s.ctl && s'.probes == s.probes && s'.live == s.live && s.dirty <= s'.dirty && s'.gs.Keys == s.gs.Keys
    && (forall g <- s.gs :: s'.gs[g].cancelled == s.gs[g].cancelled && s'.gs[g].target == s.gs[g].target)
    && (forall g <- s.gs :: s.gs[g].pc.Gone? ==> s'.gs[g] == s.gs[g])
  }

  lemma AdvancedTwice(s: State, s': State, s'': State)
    requires Advanced(s, s') && Advanced(s', s'')
    ensures Advanced(s, s'')
  {
  }

  lemma StepAdvances(s: State, g: Gid, a: Action)
    requires g in s.gs && CanDo(s.gs[g], a)
    ensures Advanced(s, ApplyStep(s, g, a)) && ApplyStep(s, g, a).gs[g] == Do(s.gs[g], a)
  {
    DoKeeps(s.gs[g], a);
  }

  predicate StepsOf(es: seq<Event>, who: set<Gid>) { forall e <- es :: e.Step? && e.g in who }

  /** A cancelled goroutine can run to its end, writing only if it must. */
  lemma {:induction false} FinishOne(late: bool, s: State, g: Gid) returns (es: seq<Event>)
    requires g in s.gs && s.gs[g].cancelled
    ensures CanRun(late, s, es) && StepsOf(es, {g}) && (!MustWrite(s.gs[g]) ==> !WritesIn(es, g))
    ensures Advanced(s, AfterRun(late, s, es)) && AfterRun(late, s, es).gs[g].pc.Gone?
    decreases ExitDistance(s.gs[g])
  {
    es := [];
    if !s.gs[g].pc.Gone? {
      var a := TowardsExit(s.gs[g]);
      var s1 := ApplyStep(s, g, a);
      StepAdvances(s, g, a);
      RunOne(late, s, Step(g, a));
      var more := FinishOne(late, s1, g);
      RunCons(late, s, Step(g, a), s1, more);
      AdvancedTwice(s, s1, AfterRun(late, s1, more));
      es := [Step(g, a)] + more;
    }
  }

  ghost predicate AllGone(s: State, todo: set<Gid>) { forall g <- todo :: g in s.gs && s.gs[g].pc.Gone? }

  ghost predicate AllCancelled(s: State, todo: set<Gid>) { forall g <- todo :: g in s.gs && s.gs[g].cancelled }

  lemma {:induction false} FinishAll(late: bool, s: State, todo: set<Gid>) returns (es: seq<Event>)
    requires AllCancelled(s, todo)
    ensures CanRun(late, s, es) && StepsOf(es, todo)
    ensures Advanced(s, AfterRun(late, s, es)) && AllGone(AfterRun(late, s, es), todo)
    decreases todo
  {
    es := [];
    if g: Gid :| g in todo {
      var first := FinishOne(late, s, g);
      var s1 := AfterRun(late, s, first);
      var more := FinishAll(late, s1, todo - {g});
      RunAppend(late, s, first, more);
      AdvancedTwice(s, s1, AfterRun(late, s1, more));
      es := first + more;
    }
  }

  // ---------- control goes on ----------

  predicate IsStopping(ctl: Ctl) { ctl.Cancelling? || ctl.Deleting? }

  predicate IsStopLoop(es: seq<Event>) { forall e <- es :: e == CancelNext || e == DeleteNext }

  function StopRank(ctl: Ctl): nat {
    match ctl
    case Cancelling(job) => 2 * |job.toStop|
    case Deleting(_, job) => 2 * |job.toStop| + 1
    case _ => 0
  }

  function StopEvent(s: State): Event { if s.ctl.Deleting? then DeleteNext else CancelNext }

  lemma StopLoopStep(late: bool, s: State) returns (s': State)
    requires AllInv(late, s) && IsStopping(s.ctl)
    ensures Takes(late, s, StopEvent(s), s') && AllInv(late, s')
    ensures s'.dirty == s.dirty && (IsStopping(s'.ctl) || s'.ctl.Waiting?) && StopRank(s'.ctl) < StopRank(s.ctl)
  {
    if s.ctl.Cancelling? { assert s.ctl.job.toStop[0] in s.ctl.job.toStop; }
    s' := Apply(late, s, StopEvent(s));
    RunOne(late, s, StopEvent(s));
    EventKeepsAll(late, s, StopEvent(s));
  }

  /** The stop loop can go on to the waits, leaving the goroutines to themselves. */
  lemma {:induction false} ToWaiting(late: bool, s: State) returns (es: seq<Event>)
    requires AllInv(late, s) && (IsStopping(s.ctl) || s.ctl.Waiting?)
    ensures CanRun(late, s, es) && IsStopLoop(es)
    ensures AfterRun(late, s, es).ctl.Waiting? && AfterRun(late, s, es).dirty == s.dirty
    decreases StopRank(s.ctl)
  {
    es := [];
    if !s.ctl.Waiting? {
      var s' := StopLoopStep(late, s);
      var more := ToWaiting(late, s');
      RunCons(late, s, StopEvent(s), s', more);
      es := [StopEvent(s)] + more;
    }
  }

  /** The waits can end: every goroutine waited for can run to its end. */
  lemma WaitCanEnd(late: bool, s: State) returns (es: seq<Event>)
    requires CtlInv(late, s) && s.ctl.Waiting?
    ensures CanRun(late, s, es) && StepsOf(es, s.ctl.job.waiting)
    ensures Advanced(s, AfterRun(late, s, es)) && Enabled(AfterRun(late, s, es), WaitDone)
  {
    es := FinishAll(late, s, s.ctl.job.waiting);
  }

  /** From any of its states a Reload of as-yet stopping targets can come to the end of its waits. */
  lemma StopLoopCanEnd(late: bool, s: State) returns (es: seq<Event>)
    requires AllInv(late, s) && (IsStopping(s.ctl) || s.ctl.Waiting?)
    ensures CanRun(late, s, es) && (forall e <- es :: !ChangesPlan(e)) && Enabled(AfterRun(late, s, es), WaitDone)
    ensures s.dirty <= AfterRun(late, s, es).dirty
  {
    var first := ToWaiting(late, s);
    var s1 := AfterRun(late, s, first);
    RunKeepsAll(late, s, first);
    var more := WaitCanEnd(late, s1);
    RunAppend(late, s, first, more);
    es := first + more;
  }

  function StartRank(ctl: Ctl): nat {
    match ctl
    case LateDeleting(job) => |job.toDelete| + |job.toStart| + 1
    case Starting(job) => |job.toStart|
    case _ => 0
  }

  predicate IsStarting(ctl: Ctl) { ctl.LateDeleting? || ctl.Starting? || ctl.Idle? }

  function StartEvent(s: State): Event { if s.ctl.Starting? then StartNext(0) else DeleteNext }

  lemma LateDeleteGoesOn(late: bool, s: State)
    requires CtlInv(late, s) && s.ctl.LateDeleting?
    ensures Enabled(s, DeleteNext) && IsStarting(ApplyLateDelete(s).ctl) && StartRank(ApplyLateDelete(s).ctl) < StartRank(s.ctl)
  {
  }

  lemma StartGoesOn(late: bool, s: State)
    requires CtlInv(late, s) && s.ctl.Starting?
    ensures Enabled(s, StartNext(0)) && IsStarting(ApplyStart(s, 0).ctl) && StartRank(ApplyStart(s, 0).ctl) < StartRank(s.ctl)
  {
  }

  lemma StartLoopStep(late: bool, s: State) returns (s': State)
    requires AllInv(late, s) && IsStarting(s.ctl) && !s.ctl.Idle?
    ensures Takes(late, s, StartEvent(s), s') && AllInv(late, s') && IsStarting(s'.ctl) && StartRank(s'.ctl) < StartRank(s.ctl)
  {
    if s.ctl.Starting? { StartGoesOn(late, s); } else { LateDeleteGoesOn(late, s); }
    s' := Apply(late, s, StartEvent(s));
    RunOne(late, s, StartEvent(s));
    EventKeepsAll(late, s, StartEvent(s));
  }

  /** Once the waits are over the deletes and starts can run through. */
  lemma {:induction false} StartsCanEnd(late: bool, s: State) returns (es: seq<Event>)
    requires AllInv(late, s) && IsStarting(s.ctl)
    ensures CanRun(late, s, es) && (forall e <- es :: !ChangesPlan(e)) && AfterRun(late, s, es).ctl.Idle?
    decreases StartRank(s.ctl)
  {
    es := [];
    if !s.ctl.Idle? {
      var s' := StartLoopStep(late, s);
      var more := StartsCanEnd(late, s');
      RunCons(late, s, StartEvent(s), s', more);
      es := [StartEvent(s)] + more;
    }
  }

  lemma AfterWaits(late: bool, s: State) returns (s': State)
    requires AllInv(late, s) && Enabled(s, WaitDone)
    ensures Takes(late, s, WaitDone, s') && AllInv(late, s') && IsStarting(s'.ctl)
  {
    s' := Apply(late, s, WaitDone);
    RunOne(late, s, WaitDone);
    EventKeepsAll(late, s, WaitDone);
  }

  lemma WaitsThenStarts(late: bool, s: State) returns (es: seq<Event>)
    requires AllInv(late, s) && Enabled(s, WaitDone)
    ensures CanRun(late, s, es) && (forall e <- es :: !ChangesPlan(e)) && AfterRun(late, s, es).ctl.Idle?
  {
    var s' := AfterWaits(late, s);
    var more := StartsCanEnd(late, s');
    RunCons(late, s, WaitDone, s', more);
    es := [WaitDone] + more;
  }

  /** Whatever a Start or Reload is at, some continuation lets it return. */
  lemma ReloadCanReturn(late: bool, s: State) returns (es: seq<Event>)
    requires Reached(late, s) && HasJob(s.ctl)
    ensures CanRun(late, s, es) && (forall e <- es :: !ChangesPlan(e)) && AfterRun(late, s, es).ctl.Idle?
  {
    ReachedHasAll(late, s);
    if IsStarting(s.ctl) {
      es := StartsCanEnd(late, s);
    } else {
      var first := StopLoopCanEnd(late, s);
      RunKeepsAll(late, s, first);
      var more := WaitsThenStarts(late, AfterRun(late, s, first));
      RunAppend(late, s, first, more);
      es := first + more;
    }
  }

  // ---------- Stop ----------

  lemma {:induction false} CancelAll(late: bool, s: State) returns (es: seq<Event>)
    requires AllInv(late, s) && s.ctl.Halting?
    ensures CanRun(late, s, es) && AfterRun(late, s, es).ctl.Halting? && AfterRun(late, s, es).probes == map[]
    decreases s.probes.Keys
  {
    es := [];
    if s.probes != map[] {
      var n: string :| n in s.probes;
      assert NameOk(s, n);
      EventKeepsAll(late, s, StopNext(n));
      RunOne(late, s, StopNext(n));
      var s' := Apply(late, s, StopNext(n));
      var more := CancelAll(late, s');
      RunCons(late, s, StopNext(n), s', more);
      es := [StopNext(n)] + more;
    }
  }

  lemma NoneLeft(s: State)
    requires Book(s) && s.probes == map[] && AllGone(s, s.gs.Keys)
    ensures s.wg == 0
  {
    forall g ensures g !in Alive(s.gs) { assert g in s.gs ==> g in s.gs.Keys; }
  }

  lemma UnregisteredAreCancelled(s: State)
    requires Book(s) && s.probes == map[]
    ensures AllCancelled(s, s.gs.Keys)
  {
    forall g <- s.gs ensures s.gs[g].cancelled { assert GoroutineOk(s, g); }
  }

  /** From every state of a Stop some continuation lets it return. */
  lemma StopCanReturn(late: bool, s: State) returns (es: seq<Event>)
    requires Reached(late, s) && s.ctl.Halting?
    ensures CanRun(late, s, es) && Enabled(AfterRun(late, s, es), StopDone)
  {
    ReachedHasAll(late, s);
    var first := CancelAll(late, s);
    var s1 := AfterRun(late, s, first);
    RunKeepsAll(late, s, first);
    UnregisteredAreCancelled(s1);
    var more := FinishAll(late, s1, s1.gs.Keys);
    RunKeepsAll(late, s1, more);
    NoneLeft(AfterRun(late, s1, more));
    RunAppend(late, s, first, more);
    es := first + more;
  }
}
