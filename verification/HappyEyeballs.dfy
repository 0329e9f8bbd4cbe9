/** The Happy Eyeballs dialer (internal/probe/prober.go): two workers, a two-slot channel, a cancel, a
    WaitGroup and a cleanup goroutine, as a machine over the steps its goroutines interleave.

    A dial may succeed or fail at any moment, cancelled or not, and connections are numbered in the
    order they open. */
module HappyEyeballs {
  import opened Targets

  // ---------- the two families ----------

  /** The targets of one family, in their order. */
  function OfFamily(isV6: string -> bool, targets: seq<string>, v6: bool): seq<string> {
    if targets == [] then [] else
      var last := targets[|targets| - 1];
      OfFamily(isV6, targets[..|targets| - 1], v6) + if isV6(last) == v6 then [last] else []
  }

  /** `whole` is an interleaving of `p` and `q`: both keep their order and nothing is lost or added. */
  ghost predicate Interleaves(p: seq<string>, q: seq<string>, whole: seq<string>) {
    if whole == [] then p == [] && q == [] else
      var n := |whole| - 1;
      || (p != [] && p[|p| - 1] == whole[n] && Interleaves(p[..|p| - 1], q, whole[..n]))
      || (q != [] && q[|q| - 1] == whole[n] && Interleaves(p, q[..|q| - 1], whole[..n]))
  }

  lemma {:induction false} FamiliesPartition(isV6: string -> bool, targets: seq<string>, v6: bool)
    ensures Interleaves(OfFamily(isV6, targets, v6), OfFamily(isV6, targets, !v6), targets)
  {
    if targets != [] {
      var n := |targets| - 1;
      FamiliesPartition(isV6, targets[..n], v6);
      var last := isV6(targets[n]);
      assert OfFamily(isV6, targets, last) == OfFamily(isV6, targets[..n], last) + [targets[n]];
      assert OfFamily(isV6, targets, !last) == OfFamily(isV6, targets[..n], !last);
    }
  }

  lemma {:induction false} FamilyHead(isV6: string -> bool, targets: seq<string>)
    requires targets != []
    ensures var mine := OfFamily(isV6, targets, isV6(targets[0])); mine != [] && mine[0] == targets[0]
  {
    if |targets| > 1 { FamilyHead(isV6, targets[..|targets| - 1]); }
  }

  lemma {:induction false} SingleFamily(isV6: string -> bool, targets: seq<string>, v6: bool)
    requires OfFamily(isV6, targets, !v6) == []
    ensures OfFamily(isV6, targets, v6) == targets
  {
    if targets != [] {
      var n := |targets| - 1;
      SingleFamily(isV6, targets[..n], v6);
      assert targets == targets[..n] + [targets[n]];
    }
  }

  lemma {:induction false} FamilyMembers(isV6: string -> bool, targets: seq<string>, v6: bool)
    ensures forall t <- OfFamily(isV6, targets, v6) :: isV6(t) == v6
  {
    if targets != [] { FamilyMembers(isV6, targets[..|targets| - 1], v6); }
  }

  /** `isV6` says whether the host part parses as an address that has no IPv4 form. The primary part is the
      first target's family, the fallback the other one, both in order; the fallback may be empty. */
  method SplitDialFamilies(isV6: string -> bool, targets: seq<string>) returns (primary: seq<string>, fallback: seq<string>)
    ensures targets == [] ==> primary == [] && fallback == []
    ensures targets != [] ==> primary == OfFamily(isV6, targets, isV6(targets[0])) && fallback == OfFamily(isV6, targets, !isV6(targets[0]))
    ensures targets != [] ==> primary != [] && primary[0] == targets[0]
    ensures Interleaves(primary, fallback, targets)
  {
    if |targets| == 0 { return [], []; }
    var ipv4: seq<string>, ipv6: seq<string> := [], [];
    for i := 0 to |targets|
      invariant ipv4 == OfFamily(isV6, targets[..i], false)
      invariant ipv6 == OfFamily(isV6, targets[..i], true)
    {
      assert targets[..i + 1][..i] == targets[..i];
      if isV6(targets[i]) { ipv6 := ipv6 + [targets[i]]; } else { ipv4 := ipv4 + [targets[i]]; }
    }
    assert targets[..|targets|] == targets;
    FamilyHead(isV6, targets);
    FamiliesPartition(isV6, targets, isV6(targets[0]));
    if |ipv4| == 0 || |ipv6| == 0 {
      SingleFamily(isV6, targets, isV6(targets[0]));
      return targets, [];
    }
    if isV6(targets[0]) { return ipv6, ipv4; }
    return ipv4, ipv6;
  }

  /** Dials in order and keeps the first connection; `ok(i)` tells whether the i-th dial succeeds. */
  method DialTCPAddresses(ok: nat -> bool, targets: seq<string>) returns (conn: Option<nat>, err: bool)
    ensures conn.Some? ==> conn.value < |targets| && ok(conn.value) && forall i: nat | i < conn.value :: !ok(i)
    ensures conn.None? <==> forall i: nat | i < |targets| :: !ok(i)
    ensures err <==> conn.None? && targets != []
  {
    err := false;
    for i := 0 to |targets|
      invariant forall j: nat | j < i :: !ok(j)
      invariant err == (i > 0)
    {
      if ok(i) { return Some(i), false; }
      err := true;
    }
    conn := None;
  }

  // ---------- the machine ----------

  datatype Worker = Primary | Fallback

  datatype DialOutcome = DialOutcome(conn: Option<nat>, err: bool)

  datatype WorkerPc =
    | Idle
    | Delayed
    | Dialing(next: nat, failed: bool)
    | Holding(outcome: DialOutcome)
    | Sent
    | Done

  datatype ReaderPc =
    | Starting
    | StartingFallback
    | Reading(received: nat)
    | Chosen(winner: Option<nat>)
    | AwaitingAll
    | Returned(outcome: DialOutcome)

  datatype CleanupPc = Absent | Waiting(winner: Option<nat>) | Draining(winner: Option<nat>) | Finished

  datatype State = State(
    primary: seq<string>, fallback: seq<string>,
    first: WorkerPc, second: WorkerPc, reader: ReaderPc, cleanup: CleanupPc,
    queue: seq<DialOutcome>, closed: bool, waitGroup: int, cancelled: bool,
    open: set<nat>, dialled: nat)
  {
    function Of(w: Worker): WorkerPc { if w.Primary? then first else second }
    function With(w: Worker, pc: WorkerPc): State { if w.Primary? then this.(first := pc) else this.(second := pc) }
    function TargetsOf(w: Worker): seq<string> { if w.Primary? then primary else fallback }
  }

  const Capacity := 2

  datatype Event =
    | CancelParent
    | StartWorker
    | TimerFires(w: Worker)
    | SeesCancel(w: Worker)
    | Dial(w: Worker, ok: bool)
    | GiveUp(w: Worker)
    | Send(w: Worker)
    | WorkerDone(w: Worker)
    | Receive
    | Conclude
    | AllDone
    | CloseResults
    | DrainOne
    | DrainEnds

  function Init(primary: seq<string>, fallback: seq<string>): State {
    State(primary, fallback, Idle, Idle, Starting, Absent, [], false, 0, false, {}, 0)
  }

  /** How a dial begins: refused, one family dialled in order, or two families raced. */
  datatype Dialled = NoTargets | Direct(outcome: DialOutcome) | Race(start: State)

  method DialTCPHappyEyeballs(isV6: string -> bool, ok: nat -> bool, targets: seq<string>) returns (d: Dialled)
    ensures d.NoTargets? <==> targets == []
    ensures d.Direct? ==> Proper(d.outcome) && (d.outcome.err <==> forall i: nat | i < |targets| :: !ok(i))
    ensures d.Direct? ==> forall t <- targets :: isV6(t) == isV6(targets[0])
    ensures d.Race? ==> d.start == Init(d.start.primary, d.start.fallback) && Interleaves(d.start.primary, d.start.fallback, targets)
    ensures d.Race? ==> d.start.primary != [] && d.start.fallback != [] && d.start.primary[0] == targets[0]
  {
    if |targets| == 0 { return NoTargets; }
    var primary, fallback := SplitDialFamilies(isV6, targets);
    if |fallback| == 0 {
      SingleFamily(isV6, targets, isV6(targets[0]));
      FamilyMembers(isV6, targets, isV6(targets[0]));
      var conn, err := DialTCPAddresses(ok, primary);
      return Direct(DialOutcome(conn, err));
    }
    d := Race(Init(primary, fallback));
  }

  predicate Enabled(s: State, e: Event) {
    match e
    case CancelParent => true
    case StartWorker => s.reader == Starting || s.reader == StartingFallback
    case TimerFires(w) => s.Of(w) == Delayed
    case SeesCancel(w) => s.Of(w) == Delayed && s.cancelled
    case Dial(w, _) => s.Of(w).Dialing? && s.Of(w).next < |s.TargetsOf(w)|
    case GiveUp(w) => s.Of(w).Dialing? && s.Of(w).next >= |s.TargetsOf(w)|
    case Send(w) => s.Of(w).Holding? && |s.queue| < Capacity && !s.closed
    case WorkerDone(w) => s.Of(w) == Sent
    case Receive => s.reader.Reading? && s.queue != []
    case Conclude => s.reader.Chosen?
    case AllDone => s.reader == AwaitingAll && s.waitGroup == 0
    case CloseResults => s.cleanup.Waiting? && s.waitGroup == 0
    case DrainOne => s.cleanup.Draining? && s.queue != []
    case DrainEnds => s.cleanup.Draining? && s.queue == []
  }

  function Apply(s: State, e: Event): State
    requires Enabled(s, e)
  {
    match e
    case CancelParent => s.(cancelled := true)
    case StartWorker =>
      if s.reader == Starting then s.(first := Dialing(0, false), waitGroup := s.waitGroup + 1, reader := StartingFallback)
      else s.(second := Delayed, waitGroup := s.waitGroup + 1, reader := Reading(0))
    case TimerFires(w) => s.With(w, Dialing(0, false))
    case SeesCancel(w) => s.With(w, Holding(DialOutcome(None, true)))
    case Dial(w, ok) =>
      if ok then s.With(w, Holding(DialOutcome(Some(s.dialled), false))).(open := s.open + {s.dialled}, dialled := s.dialled + 1)
      else s.With(w, Dialing(s.Of(w).next + 1, true))
    case GiveUp(w) => s.With(w, Holding(DialOutcome(None, s.Of(w).failed)))
    case Send(w) => s.With(w, Sent).(queue := s.queue + [s.Of(w).outcome])
    case WorkerDone(w) => s.With(w, Done).(waitGroup := s.waitGroup - 1)
    case Receive =>
      var o, received := s.queue[0], s.reader.received + 1;
      var s' := s.(queue := s.queue[1..]);
      if !o.err then s'.(reader := Chosen(o.conn)) else s'.(reader := if received < 2 then Reading(received) else AwaitingAll)
    case Conclude =>
      s.(cancelled := true, cleanup := Waiting(s.reader.winner), reader := Returned(DialOutcome(s.reader.winner, false)))
    case AllDone => s.(cancelled := true, reader := Returned(DialOutcome(None, true)))
    case CloseResults => s.(closed := true, cleanup := Draining(s.cleanup.winner))
    case DrainOne =>
      var o := s.queue[0];
      s.(queue := s.queue[1..], open := if o.conn.Some? && o.conn != s.cleanup.winner then s.open - {o.conn.value} else s.open)
    case DrainEnds => s.(cleanup := Finished)
  }

  // ---------- what every step keeps ----------

  function Held(o: DialOutcome, c: nat): nat { if o.conn == Some(c) then 1 else 0 }

  function HeldByWorker(pc: WorkerPc, c: nat): nat { if pc.Holding? then Held(pc.outcome, c) else 0 }

  function HeldByReader(pc: ReaderPc, c: nat): nat {
    match pc
    case Chosen(winner) => if winner == Some(c) then 1 else 0
    case Returned(o) => Held(o, c)
    case _ => 0
  }

  function HeldInQueue(queue: seq<DialOutcome>, c: nat): nat {
    if queue == [] then 0 else Held(queue[0], c) + HeldInQueue(queue[1..], c)
  }

  /** How many holders a connection has. */
  function Holders(s: State, c: nat): nat {
    HeldByWorker(s.first, c) + HeldByWorker(s.second, c) + HeldInQueue(s.queue, c) + HeldByReader(s.reader, c)
  }

  predicate HasSent(pc: WorkerPc) { pc == Sent || pc == Done }

  function SentBy(pc: WorkerPc): nat { if HasSent(pc) then 1 else 0 }

  function Received(pc: ReaderPc): nat {
    match pc
    case Reading(n) => n
    case AwaitingAll => 2
    case _ => 0
  }

  predicate Live(pc: WorkerPc) { pc != Idle && pc != Done }

  function LiveCount(pc: WorkerPc): nat { if Live(pc) then 1 else 0 }

  /** A connection or an error, never both and never neither. */
  predicate Proper(o: DialOutcome) { o.conn.Some? <==> !o.err }

  predicate AllProper(queue: seq<DialOutcome>) { forall o <- queue :: Proper(o) }

  predicate WorkerOk(pc: WorkerPc, n: nat) {
    match pc
    case Dialing(next, failed) => next <= n && (failed <==> next > 0)
    case Holding(o) => Proper(o)
    case _ => true
  }

  predicate ControlInv(s: State) {
    && s.primary != [] && s.fallback != []
    && WorkerOk(s.first, |s.primary|) && WorkerOk(s.second, |s.fallback|)
    && s.waitGroup == LiveCount(s.first) + LiveCount(s.second)
    && AllProper(s.queue)
    && |s.queue| <= SentBy(s.first) + SentBy(s.second)
    && (s.first == Idle <==> s.reader == Starting) && (s.second == Idle <==> s.reader == Starting || s.reader == StartingFallback)
    && s.first != Delayed
    && (s.reader.Reading? ==> s.reader.received < 2)
    && (!s.reader.Chosen? && !s.reader.Returned? ==> |s.queue| + Received(s.reader) == SentBy(s.first) + SentBy(s.second))
    && (s.reader == AwaitingAll || s.reader == Returned(DialOutcome(None, true)) ==> HasSent(s.first) && HasSent(s.second) && s.queue == [])
    && (s.reader.Returned? ==> Proper(s.reader.outcome)) && (s.reader.Chosen? ==> s.reader.winner.Some?)
  }

  predicate CleanupInv(s: State) {
    && (s.cleanup.Absent? <==> !(s.reader.Returned? && !s.reader.outcome.err))
    && (s.cleanup.Waiting? || s.cleanup.Draining? ==> s.reader == Returned(DialOutcome(s.cleanup.winner, false)))
    && (s.closed <==> s.cleanup.Draining? || s.cleanup.Finished?)
    && (s.closed ==> s.first == Done && s.second == Done)
    && (s.cleanup.Finished? ==> s.queue == [])
    && (s.reader == Returned(DialOutcome(None, true)) ==> s.first == Done && s.second == Done)
  }

  /** Every open connection has exactly one holder, and nothing closed is held. */
  ghost predicate Ownership(s: State) { forall c: nat :: OwnedOnce(s, c) }

  predicate OwnedOnce(s: State, c: nat) {
    Holders(s, c) == (if c in s.open then 1 else 0) && (c in s.open ==> c < s.dialled)
  }

  ghost predicate Inv(s: State) { ControlInv(s) && CleanupInv(s) && Ownership(s) }

  lemma {:induction false} QueueAppend(queue: seq<DialOutcome>, o: DialOutcome, c: nat)
    ensures HeldInQueue(queue + [o], c) == HeldInQueue(queue, c) + Held(o, c)
  {
    if queue == [] {
      assert (queue + [o])[1..] == [];
    } else {
      assert (queue + [o])[1..] == queue[1..] + [o];
      QueueAppend(queue[1..], o, c);
    }
  }

  predicate IsWorkerStep(e: Event) {
    e.TimerFires? || e.SeesCancel? || e.Dial? || e.GiveUp? || e.Send? || e.WorkerDone?
  }

  /** A worker that dials on changes nothing else that `ControlInv` reads. */
  lemma DialingKeepsControl(s: State, w: Worker, pc: WorkerPc)
    requires ControlInv(s) && Live(s.Of(w)) && !HasSent(s.Of(w))
    requires (pc.Dialing? || pc.Holding?) && WorkerOk(pc, |s.TargetsOf(w)|)
    ensures ControlInv(s.With(w, pc))
  {
  }

  lemma DialKeepsControl(s: State, e: Event)
    requires ControlInv(s) && (e.TimerFires? || e.SeesCancel? || e.Dial? || e.GiveUp?) && Enabled(s, e)
    ensures ControlInv(Apply(s, e))
  {
    var pc := match e
      case TimerFires(_) => Dialing(0, false)
      case SeesCancel(_) => Holding(DialOutcome(None, true))
      case Dial(w, ok) => if ok then Holding(DialOutcome(Some(s.dialled), false)) else Dialing(s.Of(w).next + 1, true)
      case GiveUp(w) => Holding(DialOutcome(None, s.Of(w).failed));
    DialingKeepsControl(s, e.w, pc);
  }

  lemma SendKeepsControl(s: State, w: Worker)
    requires ControlInv(s) && Enabled(s, Send(w))
    ensures ControlInv(Apply(s, Send(w)))
  {
  }

  lemma DoneKeepsControl(s: State, w: Worker)
    requires ControlInv(s) && Enabled(s, WorkerDone(w))
    ensures ControlInv(Apply(s, WorkerDone(w)))
  {
  }

  lemma ReceiveKeepsControl(s: State)
    requires ControlInv(s) && CleanupInv(s) && Enabled(s, Receive)
    ensures ControlInv(Apply(s, Receive))
  {
    assert s.queue[0] in s.queue;
  }

  lemma StepKeepsControl(s: State, e: Event)
    requires ControlInv(s) && CleanupInv(s) && Enabled(s, e)
    ensures ControlInv(Apply(s, e))
  {
    match e
    case Send(w) => SendKeepsControl(s, w);
    case WorkerDone(w) => DoneKeepsControl(s, w);
    case Receive => ReceiveKeepsControl(s);
    case TimerFires(_) => DialKeepsControl(s, e);
    case SeesCancel(_) => DialKeepsControl(s, e);
    case Dial(_, _) => DialKeepsControl(s, e);
    case GiveUp(_) => DialKeepsControl(s, e);
    case _ =>
  }

  lemma WorkerKeepsCleanup(s: State, e: Event)
    requires ControlInv(s) && CleanupInv(s) && IsWorkerStep(e) && Enabled(s, e)
    ensures CleanupInv(Apply(s, e))
  {
  }

  lemma OthersKeepCleanup(s: State, e: Event)
    requires ControlInv(s) && CleanupInv(s) && !IsWorkerStep(e) && Enabled(s, e)
    ensures CleanupInv(Apply(s, e))
  {
    if e.Receive? { assert s.queue[0] in s.queue; }
  }

  lemma SendKeepsOwned(s: State, w: Worker, c: nat)
    requires OwnedOnce(s, c) && Enabled(s, Send(w))
    ensures OwnedOnce(Apply(s, Send(w)), c)
  {
    QueueAppend(s.queue, s.Of(w).outcome, c);
  }

  lemma WorkerKeepsOwned(s: State, e: Event, c: nat)
    requires OwnedOnce(s, c) && IsWorkerStep(e) && Enabled(s, e)
    requires OwnedOnce(s, s.dialled)
    ensures OwnedOnce(Apply(s, e), c)
  {
    if e.Send? { SendKeepsOwned(s, e.w, c); }
  }

  lemma OthersKeepOwned(s: State, e: Event, c: nat)
    requires ControlInv(s) && CleanupInv(s) && OwnedOnce(s, c) && !IsWorkerStep(e) && Enabled(s, e)
    ensures OwnedOnce(Apply(s, e), c)
  {
    if e.Receive? { assert s.queue[0] in s.queue; }
  }

  lemma StepKeepsInv(s: State, e: Event)
    requires Inv(s) && Enabled(s, e)
    ensures Inv(Apply(s, e))
  {
    StepKeepsControl(s, e);
    if IsWorkerStep(e) { WorkerKeepsCleanup(s, e); } else { OthersKeepCleanup(s, e); }
    assert OwnedOnce(s, s.dialled);
    forall c: nat ensures OwnedOnce(Apply(s, e), c) {
      assert OwnedOnce(s, c);
      if IsWorkerStep(e) { WorkerKeepsOwned(s, e, c); } else { OthersKeepOwned(s, e, c); }
    }
  }

  // ---------- whole runs ----------

  /** The state after a run, if each of its steps was enabled in turn. */
  function Run(s: State, run: seq<Event>): Option<State> {
    if run == [] then Some(s) else
      var before := Run(s, run[..|run| - 1]);
      if before.Some? && Enabled(before.value, run[|run| - 1]) then Some(Apply(before.value, run[|run| - 1])) else None
  }

  /** The states some interleaving leads to, dialling two non-empty parts. */
  ghost predicate Reached(s: State, primary: seq<string>, fallback: seq<string>, run: seq<Event>) {
    primary != [] && fallback != [] && Run(Init(primary, fallback), run) == Some(s)
  }

  lemma InitHasInv(primary: seq<string>, fallback: seq<string>)
    requires primary != [] && fallback != []
    ensures Inv(Init(primary, fallback))
  {
    forall c: nat ensures OwnedOnce(Init(primary, fallback), c) { }
  }

  lemma StepKeepsTargets(s: State, e: Event)
    requires Enabled(s, e)
    ensures Apply(s, e).primary == s.primary && Apply(s, e).fallback == s.fallback
  {
  }

  lemma {:induction false} RunKeepsInv(s: State, primary: seq<string>, fallback: seq<string>, run: seq<Event>)
    requires Reached(s, primary, fallback, run)
    ensures Inv(s) && s.primary == primary && s.fallback == fallback
    decreases |run|
  {
    if run == [] {
      InitHasInv(primary, fallback);
    } else {
      var before := Run(Init(primary, fallback), run[..|run| - 1]).value;
      RunKeepsInv(before, primary, fallback, run[..|run| - 1]);
      StepKeepsInv(before, run[|run| - 1]);
      StepKeepsTargets(before, run[|run| - 1]);
    }
  }

  /** A worker with an outcome in hand can send it at once: the channel has room and is not closed. */
  lemma SendNeverBlocks(s: State, primary: seq<string>, fallback: seq<string>, run: seq<Event>, w: Worker)
    requires Reached(s, primary, fallback, run) && s.Of(w).Holding?
    ensures Enabled(s, Send(w)) && !s.closed
  {
    RunKeepsInv(s, primary, fallback, run);
  }

  /** What is returned is a connection or an error, and a returned connection is open, in no other hands,
      and stays so. */
  lemma ReturnsOneOrTheOther(s: State, primary: seq<string>, fallback: seq<string>, run: seq<Event>)
    requires Reached(s, primary, fallback, run) && s.reader.Returned?
    ensures Proper(s.reader.outcome)
    ensures s.reader.outcome.conn.Some? ==> s.reader.outcome.conn.value in s.open && Holders(s, s.reader.outcome.conn.value) == 1
    ensures s.reader.outcome.conn.None? ==> s.open == {}
  {
    RunKeepsInv(s, primary, fallback, run);
    var o := s.reader.outcome;
    if o.conn.Some? {
      assert OwnedOnce(s, o.conn.value);
    } else {
      forall c: nat ensures c !in s.open { assert OwnedOnce(s, c); }
    }
  }

  /** Nothing is left to do, whatever the caller's context does. */
  ghost predicate Quiescent(s: State) { forall e :: Enabled(s, e) ==> e == CancelParent }

  predicate AllFinished(s: State) {
    s.reader.Returned? && s.first == Done && s.second == Done && (s.cleanup.Absent? || s.cleanup.Finished?)
  }

  /** While anything is unfinished some goroutine can step. */
  lemma NeverStuck(s: State) returns (e: Event)
    requires Inv(s) && !AllFinished(s)
    ensures e != CancelParent && Enabled(s, e)
  {
    if s.reader == Starting || s.reader == StartingFallback {
      e := StartWorker;
    } else if s.first != Done {
      e := WorkerCanStep(s, Primary);
    } else if s.second != Done {
      e := WorkerCanStep(s, Fallback);
    } else {
      e := match s.reader
        case Reading(_) => Receive
        case Chosen(_) => Conclude
        case AwaitingAll => AllDone
        case _ => if s.cleanup.Waiting? then CloseResults else if s.queue != [] then DrainOne else DrainEnds;
    }
  }

  lemma WorkerCanStep(s: State, w: Worker) returns (e: Event)
    requires Inv(s) && Live(s.Of(w))
    ensures e != CancelParent && Enabled(s, e)
  {
    e := match s.Of(w)
      case Delayed => TimerFires(w)
      case Dialing(next, _) => if next < |s.TargetsOf(w)| then Dial(w, true) else GiveUp(w)
      case Holding(_) => Send(w)
      case _ => WorkerDone(w);
  }

  /** At quiescence the open connections are exactly the returned winner, or none on error. */
  lemma QuiescentOwnsWinnerOnly(s: State, primary: seq<string>, fallback: seq<string>, run: seq<Event>)
    requires Reached(s, primary, fallback, run) && Quiescent(s)
    ensures s.reader.Returned? && s.waitGroup == 0 && s.queue == []
    ensures s.open == match s.reader.outcome.conn case Some(winner) => {winner} case None => {}
  {
    RunKeepsInv(s, primary, fallback, run);
    if !AllFinished(s) {
      var e := NeverStuck(s);
    } else {
      forall c: nat ensures c in s.open <==> s.reader.outcome.conn == Some(c) { assert OwnedOnce(s, c); }
    }
  }

  function WorkerRank(pc: WorkerPc, n: nat): int {
    match pc
    case Idle => n + 6
    case Delayed => n + 5
    case Dialing(next, _) => n - next + 4
    case Holding(_) => 3
    case Sent => 1
    case Done => 0
  }

  function ReaderRank(pc: ReaderPc): int {
    match pc
    case Starting => 9
    case StartingFallback => 8
    case Reading(received) => 7 - received
    case AwaitingAll => 5
    case Chosen(_) => 4
    case Returned(_) => 0
  }

  function CleanupRank(pc: CleanupPc): int {
    match pc
    case Absent => 0
    case Waiting(_) => 3
    case Draining(_) => 2
    case Finished => 1
  }

  function Rank(s: State): int {
    WorkerRank(s.first, |s.primary|) + WorkerRank(s.second, |s.fallback|) + ReaderRank(s.reader) + CleanupRank(s.cleanup) + |s.queue|
  }

  lemma WorkerDescends(s: State, e: Event)
    requires ControlInv(s) && IsWorkerStep(e) && Enabled(s, e)
    ensures Rank(Apply(s, e)) < Rank(s)
  {
    StepKeepsTargets(s, e);
  }

  lemma OthersDescend(s: State, e: Event)
    requires ControlInv(s) && CleanupInv(s) && !IsWorkerStep(e) && Enabled(s, e)
    ensures if e == CancelParent then Rank(Apply(s, e)) == Rank(s) else Rank(Apply(s, e)) < Rank(s)
  {
    StepKeepsTargets(s, e);
  }

  lemma RankNonNegative(s: State)
    requires ControlInv(s)
    ensures Rank(s) >= 0
  {
  }

  function Steps(run: seq<Event>): nat {
    if run == [] then 0 else Steps(run[..|run| - 1]) + if run[|run| - 1] == CancelParent then 0 else 1
  }

  /** Every interleaving ends: it takes at most one step per target and a constant more. */
  lemma {:induction false} RunsAreBounded(s: State, primary: seq<string>, fallback: seq<string>, run: seq<Event>)
    requires Reached(s, primary, fallback, run)
    ensures Rank(s) >= 0 && Steps(run) + Rank(s) <= |primary| + |fallback| + 21
    decreases |run|
  {
    RunKeepsInv(s, primary, fallback, run);
    RankNonNegative(s);
    if run != [] {
      var before, e := Run(Init(primary, fallback), run[..|run| - 1]).value, run[|run| - 1];
      RunsAreBounded(before, primary, fallback, run[..|run| - 1]);
      RunKeepsInv(before, primary, fallback, run[..|run| - 1]);
      if IsWorkerStep(e) { WorkerDescends(before, e); } else { OthersDescend(before, e); }
    }
  }

  /** The parts must be non-empty: a worker without targets reports neither a connection nor an error. */
  lemma EmptyPartReturnsNeither(fallback: seq<string>)
    ensures exists run, s :: Run(Init([], fallback), run) == Some(s) && s.reader == Returned(DialOutcome(None, false))
  {
    var s0 := Init([], fallback);
    var r1, s1 := Extend(s0, [], s0, StartWorker);
    var r2, s2 := Extend(s0, r1, s1, StartWorker);
    var r3, s3 := Extend(s0, r2, s2, GiveUp(Primary));
    var r4, s4 := Extend(s0, r3, s3, Send(Primary));
    var r5, s5 := Extend(s0, r4, s4, Receive);
    var r6, s6 := Extend(s0, r5, s5, Conclude);
  }

  lemma Extend(s0: State, run: seq<Event>, s: State, e: Event) returns (run': seq<Event>, s': State)
    requires Run(s0, run) == Some(s) && Enabled(s, e)
    ensures s' == Apply(s, e) && Run(s0, run') == Some(s')
  {
    run', s' := run + [e], Apply(s, e);
    assert run'[..|run|] == run;
  }
}
