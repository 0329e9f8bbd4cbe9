/** One probe goroutine as a step machine (internal/scheduler/scheduler.go, startTarget,
    runProbeLoop, waitInitialProbeJitter and executeProbe).

    An action is one atomic step. Where Go's select may choose between ready cases, both actions
    are enabled. The ticker channel holds at most one tick. */
module ProbeLoop {
  import opened Targets

  datatype Pc =
    | Jitter(delay: nat)                            // waiting for the initial delay
    | Entry(ticked: bool)                           // about to check the context before probing
    | Probing(ticked: bool)                         // prober.Probe is running
    | Recording(ticked: bool, result: ProbeResult)  // the context check passed, Record comes next
    | Draining                                      // about to poll the ticker channel
    | Skipping                                      // a stale tick was taken, IncrSkippedOverlap comes next
    | Select                                        // waiting for a tick or for cancellation
    | Returned                                      // runProbeLoop returned
    | Closed                                        // the done channel is closed
    | Gone                                          // the WaitGroup was decremented

  /** `buffered` holds the serial number of the tick in the channel. The counters are bookkeeping:
      ticks fired, ticks that led to executeProbe, ticks drained, ticks lost to a full channel, and
      the number of ticks fired when the previous executeProbe returned. `last` and `overlaps` are
      the writes this goroutine made to the exporter. */
  datatype Goroutine = Goroutine(
    target: TargetConfig, pc: Pc, cancelled: bool, buffered: Option<nat>,
    fired: nat, taken: nat, drained: nat, dropped: nat, firedAtEnd: nat,
    last: Option<ProbeResult>, overlaps: nat)
  {
    predicate HasTicker() {
      match pc
      case Jitter(_) => false
      case Entry(ticked) => ticked
      case Probing(ticked) => ticked
      case Recording(ticked, _) => ticked
      case Draining => true
      case Skipping => true
      case Select => true
      case _ => false
    }

    /** The done channel is not closed yet. */
    predicate Running() { !pc.Closed? && !pc.Gone? }

    /** The next step of this goroutine writes to the exporter. */
    predicate WritesNext() { pc.Recording? || pc.Skipping? }
  }

  datatype Action =
    | JitterElapsed      // the delay passed, or was zero with a live context
    | JitterCancelled    // the context ended the wait
    | CheckEntry         // executeProbe's first context check
    | ProbeReturns(result: ProbeResult)  // Probe returns and the parent context is checked
    | Record             // m.Record
    | DrainTick          // the drain took a tick
    | DrainEmpty         // the drain found none
    | CountSkip          // m.IncrSkippedOverlap
    | TakeTick           // select chose the ticker
    | SeeCancel          // select chose ctx.Done
    | Fire               // the ticker fires
    | CloseDone          // deferred close(done)
    | WaitGroupDone      // deferred wg.Done()

  function Spawn(t: TargetConfig, delay: nat): Goroutine {
    Goroutine(t, Jitter(delay), false, None, 0, 0, 0, 0, 0, None, 0)
  }

  predicate CanDo(g: Goroutine, a: Action) {
    match a
    case JitterElapsed => g.pc.Jitter? && (g.pc.delay == 0 ==> !g.cancelled)
    case JitterCancelled => g.pc.Jitter? && g.cancelled
    case CheckEntry => g.pc.Entry?
    case ProbeReturns(r) => g.pc.Probing? && PhasesKnown(r)
    case Record => g.pc.Recording?
    case DrainTick => g.pc.Draining? && g.buffered.Some?
    case DrainEmpty => g.pc.Draining? && g.buffered.None?
    case CountSkip => g.pc.Skipping?
    case TakeTick => g.pc.Select? && g.buffered.Some?
    case SeeCancel => g.pc.Select? && g.cancelled
    case Fire => g.HasTicker()
    case CloseDone => g.pc.Returned?
    case WaitGroupDone => g.pc.Closed?
  }

  /** executeProbe returned: the first probe goes on to create the ticker, later ones drain it. */
  function AfterProbe(g: Goroutine, ticked: bool): Goroutine {
    g.(pc := if ticked then Draining else Select, firedAtEnd := g.fired)
  }

  function Do(g: Goroutine, a: Action): Goroutine
    requires CanDo(g, a)
  {
    match a
    case JitterElapsed => g.(pc := Entry(false))
    case JitterCancelled => g.(pc := Returned)
    case CheckEntry => if g.cancelled then AfterProbe(g, g.pc.ticked) else g.(pc := Probing(g.pc.ticked))
    case ProbeReturns(r) => if g.cancelled then AfterProbe(g, g.pc.ticked) else g.(pc := Recording(g.pc.ticked, r))
    case Record => AfterProbe(g.(last := Some(g.pc.result)), g.pc.ticked)
    case DrainTick => g.(pc := Skipping, buffered := None, drained := g.drained + 1)
    case DrainEmpty => g.(pc := Select)
    case CountSkip => g.(pc := Select, overlaps := g.overlaps + 1)
    case TakeTick => g.(pc := Entry(true), buffered := None, taken := g.taken + 1)
    case SeeCancel => g.(pc := Returned)
    case Fire =>
      if g.buffered.Some? then g.(fired := g.fired + 1, dropped := g.dropped + 1)
      else g.(fired := g.fired + 1, buffered := Some(g.fired + 1))
    case CloseDone => g.(pc := Closed)
    case WaitGroupDone => g.(pc := Gone)
  }

  function Cancel(g: Goroutine): Goroutine { g.(cancelled := true) }

  // ---------- what every step keeps ----------

  /** Ticks are conserved, skips are counted once, and only a cancelled goroutine ends. */
  predicate Inv(g: Goroutine) {
    && g.fired == g.taken + g.drained + g.dropped + (if g.buffered.Some? then 1 else 0)
    && g.drained == g.overlaps + (if g.pc.Skipping? then 1 else 0)
    && g.firedAtEnd <= g.fired
    && (g.buffered.Some? && (g.pc.Select? || g.pc.Skipping?) ==> g.firedAtEnd < g.buffered.value <= g.fired)
    && (g.pc.Returned? || g.pc.Closed? || g.pc.Gone? ==> g.cancelled)
    && (g.pc.Recording? ==> PhasesKnown(g.pc.result))
    && (g.last.Some? ==> PhasesKnown(g.last.value))
    && (!g.HasTicker() && !g.pc.Returned? && g.Running() ==> g.fired == 0)
  }

  lemma SpawnInv(t: TargetConfig, delay: nat)
    ensures Inv(Spawn(t, delay))
  {
  }

  lemma DoInv(g: Goroutine, a: Action)
    requires Inv(g) && CanDo(g, a)
    ensures Inv(Do(g, a))
    ensures Do(g, a).target == g.target && Do(g, a).cancelled == g.cancelled
    ensures Do(g, a).last == (if a == Record then Some(g.pc.result) else g.last)
    ensures Do(g, a).overlaps == (if a == CountSkip then g.overlaps + 1 else g.overlaps)
    ensures Do(g, a).Running() ==> g.Running()
    ensures Do(g, a).pc.Gone? <==> a == WaitGroupDone
    ensures !g.pc.Gone? && (a == Record || a == CountSkip ==> g.Running())
  {
  }

  /** A run of one goroutine: `None` is the cancellation by Reload or Stop. */
  type Schedule = seq<Option<Action>>

  predicate CanStep(g: Goroutine, o: Option<Action>) { o.Some? ==> CanDo(g, o.value) }

  function DoStep(g: Goroutine, o: Option<Action>): Goroutine
    requires CanStep(g, o)
  {
    if o.Some? then Do(g, o.value) else Cancel(g)
  }

  predicate Feasible(g: Goroutine, run: Schedule)
    decreases |run|
  {
    run == [] || (CanStep(g, run[0]) && Feasible(DoStep(g, run[0]), run[1..]))
  }

  function After(g: Goroutine, run: Schedule): Goroutine
    requires Feasible(g, run)
    decreases |run|
  {
    if run == [] then g else After(DoStep(g, run[0]), run[1..])
  }

  function CountRecords(run: Schedule): nat {
    if run == [] then 0 else (if run[0] == Some(Record) then 1 else 0) + CountRecords(run[1..])
  }

  lemma {:induction false} RunInv(g: Goroutine, run: Schedule)
    requires Inv(g) && Feasible(g, run)
    ensures Inv(After(g, run))
    decreases |run|
  {
    if run != [] {
      if run[0].Some? { DoInv(g, run[0].value); }
      RunInv(DoStep(g, run[0]), run[1..]);
    }
  }

  /** Tick conservation over every run of a goroutine, whenever it is cancelled: each tick fired is
      spent on executeProbe, counted as skipped (or about to be), lost to the full channel, or waiting. */
  lemma TicksConserved(t: TargetConfig, delay: nat, run: Schedule)
    requires Feasible(Spawn(t, delay), run)
    ensures var g := After(Spawn(t, delay), run);
      g.fired == g.taken + g.overlaps + (if g.pc.Skipping? then 1 else 0) + g.dropped + (if g.buffered.Some? then 1 else 0)
  {
    RunInv(Spawn(t, delay), run);
  }

  /** A tick that starts executeProbe fired after the previous executeProbe returned. */
  lemma TickIsFresh(t: TargetConfig, delay: nat, run: Schedule)
    requires Feasible(Spawn(t, delay), run)
    ensures var g := After(Spawn(t, delay), run); CanDo(g, TakeTick) ==> g.firedAtEnd < g.buffered.value
  {
    RunInv(Spawn(t, delay), run);
  }

  /** Bounded staleness: from its cancellation on, a goroutine records at most once, and it does so
      exactly when it had passed its context check before and got to run its next step. */
  lemma {:induction false} RecordsAfterCancel(g: Goroutine, run: Schedule)
    requires g.cancelled && Feasible(g, run)
    ensures CountRecords(run) == if g.pc.Recording? && !After(g, run).pc.Recording? then 1 else 0
    ensures !g.pc.Recording? ==> !After(g, run).pc.Recording?
    decreases |run|
  {
    if run != [] {
      RecordsAfterCancel(DoStep(g, run[0]), run[1..]);
    }
  }

  // ---------- what the ticks lead to, counted on the schedule ----------

  datatype Kind = Starts | Probes | Records | Ticks | Drains

  predicate IsKind(o: Option<Action>, kind: Kind) {
    match kind
    case Starts => o == Some(JitterElapsed) || o == Some(TakeTick)
    case Probes => o.Some? && o.value.ProbeReturns?
    case Records => o == Some(Record)
    case Ticks => o == Some(TakeTick)
    case Drains => o == Some(DrainTick) || o == Some(DrainEmpty)
  }

  /** How many actions of the run are of a kind. */
  function Count(run: Schedule, kind: Kind): nat {
    if run == [] then 0 else (if IsKind(run[0], kind) then 1 else 0) + Count(run[1..], kind)
  }

  predicate NeverCancelled(run: Schedule) { forall o <- run :: o.Some? }

  /** Starts and not yet probed, and started and not yet recorded. */
  function BeforeProbe(g: Goroutine): nat { if g.pc.Entry? || g.pc.Probing? then 1 else 0 }

  function BeforeRecord(g: Goroutine): nat { if g.pc.Entry? || g.pc.Probing? || g.pc.Recording? then 1 else 0 }

  lemma {:induction false} StartsArePaid(g: Goroutine, run: Schedule)
    requires !g.cancelled && Feasible(g, run) && NeverCancelled(run)
    ensures Count(run, Probes) + BeforeProbe(After(g, run)) == Count(run, Starts) + BeforeProbe(g)
    ensures Count(run, Records) + BeforeRecord(After(g, run)) == Count(run, Starts) + BeforeRecord(g)
    decreases |run|
  {
    if run != [] {
      assert run[0] in run && forall o <- run[1..] :: o in run;
      StartsArePaid(DoStep(g, run[0]), run[1..]);
    }
  }

  /** As long as a goroutine is not cancelled, the first start and every tick it takes lead to exactly one probe and
      exactly one recorded result, up to the one in progress. */
  lemma EveryTickProbes(t: TargetConfig, delay: nat, run: Schedule)
    requires Feasible(Spawn(t, delay), run) && NeverCancelled(run)
    ensures var g := After(Spawn(t, delay), run);
      && Count(run, Probes) + (if g.pc.Entry? || g.pc.Probing? then 1 else 0) == Count(run, Starts)
      && Count(run, Records) + (if g.pc.Entry? || g.pc.Probing? || g.pc.Recording? then 1 else 0) == Count(run, Starts)
  {
    StartsArePaid(Spawn(t, delay), run);
  }

  /** On the way from a tick to its drain. */
  function BeforeDrain(g: Goroutine): nat {
    match g.pc
    case Entry(ticked) => if ticked then 1 else 0
    case Probing(ticked) => if ticked then 1 else 0
    case Recording(ticked, _) => if ticked then 1 else 0
    case Draining => 1
    case _ => 0
  }

  lemma {:induction false} DrainsArePaid(g: Goroutine, run: Schedule)
    requires Feasible(g, run)
    ensures Count(run, Drains) + BeforeDrain(After(g, run)) == Count(run, Ticks) + BeforeDrain(g)
    decreases |run|
  {
    if run != [] { DrainsArePaid(DoStep(g, run[0]), run[1..]); }
  }

  /** Every tick taken is followed by exactly one look for a stale tick, cancelled or not, and the first probe by none. */
  lemma EveryTickDrains(t: TargetConfig, delay: nat, run: Schedule)
    requires Feasible(Spawn(t, delay), run)
    ensures Count(run, Drains) + BeforeDrain(After(Spawn(t, delay), run)) == Count(run, Ticks)
  {
    DrainsArePaid(Spawn(t, delay), run);
  }

  /** The result last recorded on a schedule: the one its probe had returned. `returned` is the latest result so far. */
  function LastRecorded(run: Schedule, returned: Option<ProbeResult>, last: Option<ProbeResult>): Option<ProbeResult> {
    if run == [] then last
    else if run[0].Some? && run[0].value.ProbeReturns? then LastRecorded(run[1..], Some(run[0].value.result), last)
    else if run[0] == Some(Record) then LastRecorded(run[1..], returned, returned)
    else LastRecorded(run[1..], returned, last)
  }

  lemma {:induction false} RecordsWhatReturned(g: Goroutine, run: Schedule, returned: Option<ProbeResult>)
    requires Feasible(g, run) && (g.pc.Recording? ==> returned == Some(g.pc.result))
    ensures After(g, run).last == LastRecorded(run, returned, g.last)
    decreases |run|
  {
    if run != [] {
      var returned' := if run[0].Some? && run[0].value.ProbeReturns? then Some(run[0].value.result) else returned;
      RecordsWhatReturned(DoStep(g, run[0]), run[1..], returned');
    }
  }

  /** What a goroutine records is what its latest probe returned. */
  lemma RecordedIsReturned(t: TargetConfig, delay: nat, run: Schedule)
    requires Feasible(Spawn(t, delay), run)
    ensures After(Spawn(t, delay), run).last == LastRecorded(run, None, None)
  {
    RecordsWhatReturned(Spawn(t, delay), run, None);
  }

  // ---------- which cancelled goroutines can still write ----------

  predicate IsWrite(a: Action) { a == Record || a == CountSkip }

  predicate Writes(run: Schedule) { exists o <- run :: o.Some? && IsWrite(o.value) }

  /** What can be read off a goroutine when it is cancelled: it has not left its loop, and it is not at the
      context check that a zero jitter makes. */
  predicate MayWrite(g: Goroutine) { g.Running() && !g.pc.Returned? && !(g.pc.Jitter? && g.pc.delay == 0) }

  lemma NeverWritesStep(g: Goroutine, a: Action)
    requires g.cancelled && !MayWrite(g) && CanDo(g, a)
    ensures !IsWrite(a) && Do(g, a).cancelled && !MayWrite(Do(g, a))
  {
  }

  lemma {:induction false} NeverWrites(g: Goroutine, run: Schedule)
    requires g.cancelled && !MayWrite(g) && Feasible(g, run)
    ensures !Writes(run)
    decreases |run|
  {
    if run != [] {
      if run[0].Some? { NeverWritesStep(g, run[0].value); }
      NeverWrites(DoStep(g, run[0]), run[1..]);
      assert run == [run[0]] + run[1..];
    }
  }

  /** The next step on the way to a write: to the drain, with a tick in the channel. */
  function TowardsWrite(g: Goroutine): (a: Action)
    requires g.cancelled && MayWrite(g)
    ensures CanDo(g, a) && (IsWrite(a) || (MayWrite(Do(g, a)) && Do(g, a).cancelled && Distance(Do(g, a)) < Distance(g)))
  {
    match g.pc
    case Jitter(_) => JitterElapsed
    case Entry(_) => CheckEntry
    case Probing(_) => ProbeReturns(PlainSuccess)
    case Recording(_, _) => Record
    case Draining => if g.buffered.Some? then DrainTick else Fire
    case Skipping => CountSkip
    case Select => if g.buffered.Some? then TakeTick else Fire
    case _ => assert false; Fire
  }

  function Distance(g: Goroutine): nat {
    var empty := if g.buffered.None? then 1 else 0;
    match g.pc
    case Jitter(_) => 20
    case Entry(ticked) => if ticked then 4 else 18
    case Probing(ticked) => if ticked then 4 else 18
    case Draining => 2 + empty
    case Skipping => 1
    case Select => 6 + empty
    case _ => 0
  }

  lemma {:induction false} CanWrite(g: Goroutine) returns (run: Schedule)
    requires g.cancelled && MayWrite(g)
    ensures Feasible(g, run) && Writes(run) && forall o <- run :: o.Some?
    decreases Distance(g)
  {
    var a := TowardsWrite(g);
    if IsWrite(a) {
      run := [Some(a)];
      assert run[0] == Some(a) && run[1..] == [];
    } else {
      var rest := CanWrite(Do(g, a));
      run := [Some(a)] + rest;
      assert run[1..] == rest;
      assert forall o <- rest :: o in run;
    }
  }

  /** A cancelled goroutine can still write to the exporter if and only if it had not left its loop and was
      not at a zero jitter's context check. */
  lemma WritesAfterCancelIff(g: Goroutine)
    requires g.cancelled
    ensures (exists run :: Feasible(g, run) && Writes(run)) <==> MayWrite(g)
  {
    if MayWrite(g) {
      var run := CanWrite(g);
    } else {
      forall run | Feasible(g, run) ensures !Writes(run) { NeverWrites(g, run); }
    }
  }

  // ---------- how a cancelled goroutine ends ----------

  lemma DoKeeps(g: Goroutine, a: Action)
    requires CanDo(g, a)
    ensures Do(g, a).target == g.target && Do(g, a).cancelled == g.cancelled
  {
  }

  /** A write it cannot avoid: it is past its check, or a tick waits for the drain it is bound for. */
  predicate MustWrite(g: Goroutine) {
    || g.WritesNext()
    || (g.buffered.Some? && (g.pc.Draining? || (g.pc.Entry? && g.pc.ticked) || (g.pc.Probing? && g.pc.ticked)))
  }

  lemma MustWriteStays(g: Goroutine, a: Action)
    requires g.cancelled && MustWrite(g) && CanDo(g, a) && !IsWrite(a)
    ensures MustWrite(Do(g, a)) && Do(g, a).Running()
  {
  }

  /** The next step of a cancelled goroutine to its end, without a write unless it must. */
  function TowardsExit(g: Goroutine): (a: Action)
    requires g.cancelled && !g.pc.Gone?
    ensures CanDo(g, a) && ExitDistance(Do(g, a)) < ExitDistance(g)
    ensures !MustWrite(g) ==> !IsWrite(a) && !MustWrite(Do(g, a))
  {
    match g.pc
    case Jitter(_) => JitterCancelled
    case Entry(_) => CheckEntry
    case Probing(_) => ProbeReturns(PlainSuccess)
    case Recording(_, _) => Record
    case Draining => if g.buffered.Some? then DrainTick else DrainEmpty
    case Skipping => CountSkip
    case Select => SeeCancel
    case Returned => CloseDone
    case _ => WaitGroupDone
  }

  function ExitDistance(g: Goroutine): nat {
    match g.pc
    case Gone => 0
    case Closed => 1
    case Returned => 2
    case Jitter(_) => 3
    case Select => 3
    case Skipping => 4
    case Draining => 5
    case _ => 6
  }
}
