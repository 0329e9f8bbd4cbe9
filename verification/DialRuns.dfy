/** What the Happy Eyeballs dialer's answer means in terms of the dials made (internal/probe/prober.go), counted on the
    run itself: an error means that every target of both families was dialled and failed, and a connection is one that
    a dial of the run opened. */
module DialRuns {
  import opened Targets
  import opened HappyEyeballs

  /** How often an event occurs in a run. */
  function Count(run: seq<Event>, e: Event): nat {
    if run == [] then 0 else Count(run[..|run| - 1], e) + if run[|run| - 1] == e then 1 else 0
  }

  /** The successful dials of a run. */
  function Successes(run: seq<Event>): nat { Count(run, Dial(Primary, true)) + Count(run, Dial(Fallback, true)) }

  /** What one worker did: dials that failed and succeeded, cancels it saw, timers that fired. */
  datatype Tally = Tally(failed: nat, succeeded: nat, saw: nat, timers: nat)

  function TallyOf(run: seq<Event>, w: Worker): Tally {
    Tally(Count(run, Dial(w, false)), Count(run, Dial(w, true)), Count(run, SeesCancel(w)), Count(run, TimerFires(w)))
  }

  function Tick(n: nat, hit: bool): nat { if hit then n + 1 else n }

  function Tallied(t: Tally, w: Worker, e: Event): Tally {
    Tally(Tick(t.failed, e == Dial(w, false)), Tick(t.succeeded, e == Dial(w, true)),
      Tick(t.saw, e == SeesCancel(w)), Tick(t.timers, e == TimerFires(w)))
  }

  lemma TallySnoc(run: seq<Event>, w: Worker)
    requires run != []
    ensures TallyOf(run, w) == Tallied(TallyOf(run[..|run| - 1], w), w, run[|run| - 1])
  {
  }

  /** What a worker's place says of what it did: each failed dial moved it on by one target; it reports an error only
      after its last target, unless it saw a cancel; the fallback dials only after its timer, the primary has none. */
  predicate Accounted(pc: WorkerPc, n: nat, w: Worker, t: Tally) {
    && (pc.Idle? || pc.Delayed? ==> t.failed == 0 && t.succeeded == 0 && t.saw == 0)
    && (pc.Dialing? ==> t.failed == pc.next && t.succeeded == 0 && t.saw == 0)
    && (pc.Holding? || HasSent(pc) ==> (t.succeeded == 0 && t.saw == 0 ==> t.failed == n))
    && (w == Fallback && (t.failed + t.succeeded > 0 || pc.Dialing?) ==> t.timers > 0)
    && (w == Primary ==> t.timers == 0 && t.saw == 0)
  }

  lemma OwnStepAccounts(s: State, e: Event, w: Worker, t: Tally)
    requires ControlInv(s) && IsWorkerStep(e) && e.w == w && Enabled(s, e) && Accounted(s.Of(w), |s.TargetsOf(w)|, w, t)
    ensures Accounted(Apply(s, e).Of(w), |s.TargetsOf(w)|, w, Tallied(t, w, e))
  {
  }

  /** Whatever else happens, a worker's place changes only by being started. */
  lemma OtherStepLeaves(s: State, e: Event, w: Worker)
    requires ControlInv(s) && !(IsWorkerStep(e) && e.w == w) && Enabled(s, e)
    ensures Apply(s, e).Of(w) == s.Of(w) || (s.Of(w) == Idle && Apply(s, e).Of(w) == if w == Primary then Dialing(0, false) else Delayed)
  {
  }

  lemma StepAccounts(s: State, e: Event, w: Worker, t: Tally)
    requires ControlInv(s) && Enabled(s, e) && Accounted(s.Of(w), |s.TargetsOf(w)|, w, t)
    ensures Accounted(Apply(s, e).Of(w), |s.TargetsOf(w)|, w, Tallied(t, w, e))
  {
    if IsWorkerStep(e) && e.w == w {
      OwnStepAccounts(s, e, w, t);
    } else {
      OtherStepLeaves(s, e, w);
      assert Tallied(t, w, e) == t;
    }
  }

  predicate HasWinner(s: State) { s.reader.Returned? && s.reader.outcome.conn.Some? }

  /** Connections are numbered as they open and stay open until there is a winner; the context is cancelled once the
      dialer returned, and before that only by the caller. */
  predicate ContextInv(s: State, successes: nat, parent: nat, saw: nat) {
    && s.dialled == successes
    && (s.cleanup.Absent? ==> forall c: nat | c < s.dialled :: c in s.open)
    && (s.reader.Returned? ==> s.cancelled)
    && (s.cancelled ==> s.reader.Returned? || parent > 0)
    && (saw > 0 ==> parent > 0 || HasWinner(s))
  }

  lemma StepKeepsContext(s: State, e: Event, successes: nat, parent: nat, saw: nat)
    requires ControlInv(s) && CleanupInv(s) && Enabled(s, e) && ContextInv(s, successes, parent, saw)
    ensures ContextInv(Apply(s, e), Tick(successes, e.Dial? && e.ok), Tick(parent, e == CancelParent), Tick(saw, e.SeesCancel?))
  {
  }

  function Saw(run: seq<Event>): nat { Count(run, SeesCancel(Primary)) + Count(run, SeesCancel(Fallback)) }

  lemma {:induction false} RunAccounts(s: State, primary: seq<string>, fallback: seq<string>, run: seq<Event>)
    requires Reached(s, primary, fallback, run)
    ensures Accounted(s.first, |primary|, Primary, TallyOf(run, Primary)) && Accounted(s.second, |fallback|, Fallback, TallyOf(run, Fallback))
    ensures ContextInv(s, Successes(run), Count(run, CancelParent), Saw(run))
    decreases |run|
  {
    if run != [] {
      var e, init := run[|run| - 1], run[..|run| - 1];
      var before := Run(Init(primary, fallback), init).value;
      RunAccounts(before, primary, fallback, init);
      RunKeepsInv(before, primary, fallback, init);
      StepTallies(before, run, primary, fallback);
      StepContext(before, run);
    }
  }

  lemma CountsSnoc(run: seq<Event>)
    requires run != []
    ensures var e, init := run[|run| - 1], run[..|run| - 1];
      && Successes(run) == Tick(Successes(init), e.Dial? && e.ok) && Count(run, CancelParent) == Tick(Count(init, CancelParent), e == CancelParent)
      && Saw(run) == Tick(Saw(init), e.SeesCancel?)
  {
    var e := run[|run| - 1];
    match e
    case Dial(w, ok) => assert w.Primary? || w.Fallback?;
    case SeesCancel(w) => assert w.Primary? || w.Fallback?;
    case _ =>
  }

  lemma StepContext(before: State, run: seq<Event>)
    requires run != [] && ControlInv(before) && CleanupInv(before) && Enabled(before, run[|run| - 1])
    requires var init := run[..|run| - 1]; ContextInv(before, Successes(init), Count(init, CancelParent), Saw(init))
    ensures ContextInv(Apply(before, run[|run| - 1]), Successes(run), Count(run, CancelParent), Saw(run))
  {
    var e, init := run[|run| - 1], run[..|run| - 1];
    CountsSnoc(run);
    StepKeepsContext(before, e, Successes(init), Count(init, CancelParent), Saw(init));
  }

  lemma StepTallies(before: State, run: seq<Event>, primary: seq<string>, fallback: seq<string>)
    requires run != [] && ControlInv(before) && Enabled(before, run[|run| - 1]) && before.primary == primary && before.fallback == fallback
    requires Accounted(before.first, |primary|, Primary, TallyOf(run[..|run| - 1], Primary))
    requires Accounted(before.second, |fallback|, Fallback, TallyOf(run[..|run| - 1], Fallback))
    ensures var s := Apply(before, run[|run| - 1]);
      Accounted(s.first, |primary|, Primary, TallyOf(run, Primary)) && Accounted(s.second, |fallback|, Fallback, TallyOf(run, Fallback))
  {
    var e, init := run[|run| - 1], run[..|run| - 1];
    TallySnoc(run, Primary);
    TallySnoc(run, Fallback);
    StepAccounts(before, e, Primary, TallyOf(init, Primary));
    StepAccounts(before, e, Fallback, TallyOf(init, Fallback));
  }

  /** If the caller did not cancel, an error means that every target of both families was dialled and failed. */
  lemma ErrorMeansAllFailed(s: State, primary: seq<string>, fallback: seq<string>, run: seq<Event>)
    requires Reached(s, primary, fallback, run) && s.reader == Returned(DialOutcome(None, true)) && CancelParent !in run
    ensures Count(run, Dial(Primary, false)) == |primary| && Count(run, Dial(Fallback, false)) == |fallback|
    ensures forall w :: Dial(w, true) !in run
  {
    RunAccounts(s, primary, fallback, run);
    RunKeepsInv(s, primary, fallback, run);
    ReturnsOneOrTheOther(s, primary, fallback, run);
    NeverCounted(run, CancelParent);
    assert s.dialled == 0 by { assert s.dialled > 0 ==> 0 in s.open; }
    Counted(run, Dial(Primary, true));
    Counted(run, Dial(Fallback, true));
    forall w ensures Dial(w, true) !in run { assert w == Primary || w == Fallback; }
  }

  lemma {:induction false} NeverCounted(run: seq<Event>, e: Event)
    requires e !in run
    ensures Count(run, e) == 0
  {
    if run != [] { NeverCounted(run[..|run| - 1], e); }
  }

  lemma {:induction false} Counted(run: seq<Event>, e: Event)
    ensures Count(run, e) == 0 ==> e !in run
  {
    if run != [] {
      Counted(run[..|run| - 1], e);
      assert run == run[..|run| - 1] + [run[|run| - 1]];
    }
  }

  /** The connection numbered c was opened by this event of the run. */
  predicate OpenedBy(run: seq<Event>, i: nat, c: nat) {
    i < |run| && run[i].Dial? && run[i].ok && Successes(run[..i]) == c
  }

  lemma {:induction false} FindDial(run: seq<Event>, c: nat) returns (i: nat)
    requires c < Successes(run)
    ensures OpenedBy(run, i, c)
    decreases |run|
  {
    var last := |run| - 1;
    if c < Successes(run[..last]) {
      i := FindDial(run[..last], c);
      assert run[..last][..i] == run[..i];
    } else {
      i := last;
    }
  }

  /** A returned connection is one that a dial of the run opened, and no other dial did. */
  lemma ConnectionWasDialled(s: State, primary: seq<string>, fallback: seq<string>, run: seq<Event>) returns (i: nat)
    requires Reached(s, primary, fallback, run) && HasWinner(s)
    ensures OpenedBy(run, i, s.reader.outcome.conn.value)
  {
    RunAccounts(s, primary, fallback, run);
    RunKeepsInv(s, primary, fallback, run);
    ReturnsOneOrTheOther(s, primary, fallback, run);
    assert OwnedOnce(s, s.reader.outcome.conn.value);
    i := FindDial(run, s.reader.outcome.conn.value);
  }

  /** The fallback waits: it dials nothing before its timer fired. The primary does not wait. And whoever is still
      waiting when the dialer returns is told by the context. */
  lemma FallbackWaits(s: State, primary: seq<string>, fallback: seq<string>, run: seq<Event>)
    requires Reached(s, primary, fallback, run)
    ensures Count(run, Dial(Fallback, false)) + Count(run, Dial(Fallback, true)) > 0 ==> Count(run, TimerFires(Fallback)) > 0
    ensures Count(run, TimerFires(Primary)) == 0
    ensures s.reader.Returned? ==> s.cancelled
  {
    RunAccounts(s, primary, fallback, run);
  }
}
