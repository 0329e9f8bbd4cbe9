/** The MTU step-down search (internal/probe/mtu.go) against an arbitrary backend and an arbitrary
    cancellation point.

    The backend's answers and the context are the `Env`: `small(n)` and `df(n, size)` answer the n-th
    backend call, and the context reads as cancelled from the moment `cancelAt` on, where every
    backend call and every context check takes one moment. */
module MtuSearch {
  import opened Targets
  import opened Configuration
  import opened Averages

  datatype Status = Answered | TooLarge | LocalTooLarge | TimedOut | Unreachable | Failed

  /** One attempt; `permission` tells whether a failure is a permission error. */
  datatype Attempt = Attempt(status: Status, payloadSize: int, rtt: int, permission: bool)

  datatype Env = Env(resolves: bool, small: nat -> Attempt, df: (nat, int) -> Attempt, cancelAt: Option<nat>)

  /** Backend calls made and moments passed. */
  datatype Clock = Clock(calls: nat, now: nat)
  {
    function Call(): Clock { Clock(calls + 1, now + 1) }
    function Check(): Clock { Clock(calls, now + 1) }
  }

  predicate Cancelled(env: Env, c: Clock) { env.cancelAt.Some? && env.cancelAt.value <= c.now }

  datatype State = OkState | Degraded | UnreachableState | ErrorState

  datatype Detail =
    | LargestSizeConfirmed | FragmentationNeeded | LargerSizesTimedOut | BelowMinTested | AllSizesTimedOut
    | SanityCheckFailed | DestinationUnreachable | LocalMessageTooLarge | PermissionDenied | ResolveError
    | InternalError | Inconclusive

  /** The MTU part of a probe result; `error` tells whether the error text is non-empty, and
      the reply count and the average RTT are read off `samples`. */
  datatype Result = Result(pathMTU: int, success: bool, state: State, detail: Detail, error: bool, samples: seq<int>)

  const SanityPayloadSize := 64

  // ---------- retries ----------

  predicate Terminal(s: Status) { s == Answered || s == Unreachable || s == Failed }

  /** The attempts of one retry loop: it stops at a terminal answer, when cancelled, or when spent. */
  function Attempts(env: Env, echo: nat -> Attempt, left: nat, c: Clock): (r: (seq<Attempt>, Clock)) {
    if left == 0 then ([], c) else
      var a := echo(c.calls);
      if Terminal(a.status) then ([a], c.Call())
      else if Cancelled(env, c.Call()) then ([a], c.Call().Check())
      else
        var (rest, c') := Attempts(env, echo, left - 1, c.Call().Check());
        ([a] + rest, c')
  }

  predicate Has(attempts: seq<Attempt>, s: Status) { exists i :: 0 <= i < |attempts| && attempts[i].status == s }

  /** The first attempt with the given status. */
  function First(attempts: seq<Attempt>, s: Status): (a: Attempt)
    requires Has(attempts, s)
    ensures a in attempts && a.status == s
  {
    if attempts[0].status == s then attempts[0] else
      HasTail(attempts, s);
      First(attempts[1..], s)
  }

  function Classify(attempts: seq<Attempt>): Attempt {
    if attempts == [] then Attempt(TimedOut, 0, 0, false)
    else if Has(attempts, Answered) then First(attempts, Answered)
    else if Has(attempts, Unreachable) then First(attempts, Unreachable)
    else if Has(attempts, Failed) then First(attempts, Failed)
    else if Has(attempts, LocalTooLarge) then First(attempts, LocalTooLarge)
    else if Has(attempts, TooLarge) then First(attempts, TooLarge)
    else Attempt(TimedOut, attempts[0].payloadSize, 0, false)
  }

  /** A list the retry loops can produce: only the last attempt may be terminal. */
  predicate Producible(attempts: seq<Attempt>) {
    attempts != [] && forall i | 0 <= i < |attempts| - 1 :: !Terminal(attempts[i].status)
  }

  lemma {:induction false} LoopsProduceProducible(env: Env, echo: nat -> Attempt, left: nat, c: Clock)
    requires left > 0
    ensures var (attempts, c') := Attempts(env, echo, left, c);
      && Producible(attempts) && |attempts| <= left && c'.calls == c.calls + |attempts|
      && (forall i | 0 <= i < |attempts| :: attempts[i] == echo(c.calls + i))
      && (!Cancelled(env, c') && !Terminal(attempts[|attempts| - 1].status) ==> |attempts| == left)
  {
    var a := echo(c.calls);
    if !Terminal(a.status) && !Cancelled(env, c.Call()) && left > 1 {
      LoopsProduceProducible(env, echo, left - 1, c.Call().Check());
    }
  }

  /** Among producible lists the priority of success, unreachable and error does not matter: the result
      is the last attempt when that is terminal, and otherwise local-too-large beats too-large beats timeout. */
  lemma ClassifyProducible(attempts: seq<Attempt>)
    requires Producible(attempts)
    ensures var last := attempts[|attempts| - 1];
      Classify(attempts) ==
        if Terminal(last.status) then last
        else if Has(attempts, LocalTooLarge) then First(attempts, LocalTooLarge)
        else if Has(attempts, TooLarge) then First(attempts, TooLarge)
        else Attempt(TimedOut, attempts[0].payloadSize, 0, false)
  {
    var last := |attempts| - 1;
    if Terminal(attempts[last].status) {
      FirstIsLast(attempts);
    }
  }

  lemma {:induction false} FirstIsLast(attempts: seq<Attempt>)
    requires Producible(attempts) && Terminal(attempts[|attempts| - 1].status)
    ensures var last := attempts[|attempts| - 1]; Has(attempts, last.status) && First(attempts, last.status) == last
  {
    var last := |attempts| - 1;
    assert Has(attempts, attempts[last].status);
    if last > 0 {
      var rest := attempts[1..];
      assert rest[last - 1] == attempts[last];
      forall i | 0 <= i < |rest| - 1 ensures !Terminal(rest[i].status) { assert rest[i] == attempts[i + 1]; }
      FirstIsLast(rest);
    }
  }

  // ---------- classification of the whole search ----------

  function DetailForPriorFailures(results: seq<Attempt>): Detail {
    if Has(results, LocalTooLarge) then LocalMessageTooLarge
    else if Has(results, TooLarge) then FragmentationNeeded
    else if Has(results, TimedOut) then LargerSizesTimedOut
    else LargestSizeConfirmed
  }

  function DetailForFailed(results: seq<Attempt>): Detail {
    if Has(results, LocalTooLarge) then LocalMessageTooLarge
    else if Has(results, TooLarge) then BelowMinTested
    else AllSizesTimedOut
  }

  datatype Classification = Classification(state: State, detail: Detail, pathMTU: int, success: bool)

  /** The classification of a whole list of sizes' results: the first success decides. */
  function ClassifyResults(results: seq<Attempt>, expectedMin: int): Classification {
    if Has(results, Answered) then
      var i := IndexOf(results, Answered);
      var mtu := results[i].payloadSize + IPAndICMPHeaders;
      var below := expectedMin > 0 && mtu < expectedMin;
      Classification(if below then Degraded else OkState, DetailForPriorFailures(results[..i]), mtu, !below)
    else Classification(Degraded, DetailForFailed(results), -1, false)
  }

  /** Where a status first occurs. */
  function IndexOf(attempts: seq<Attempt>, s: Status): (i: nat)
    requires Has(attempts, s)
    ensures i < |attempts| && attempts[i].status == s && !Has(attempts[..i], s)
  {
    if attempts[0].status == s then 0 else
      assert attempts == [attempts[0]] + attempts[1..];
      HasTail(attempts, s);
      var j := IndexOf(attempts[1..], s);
      assert attempts[..j + 1] == [attempts[0]] + attempts[1..][..j];
      HasTail(attempts[..j + 1], s);
      j + 1
  }

  lemma HasTail(attempts: seq<Attempt>, s: Status)
    requires attempts != []
    ensures Has(attempts, s) <==> attempts[0].status == s || Has(attempts[1..], s)
  {
    if i :| 0 <= i < |attempts[1..]| && attempts[1..][i].status == s { assert attempts[i + 1].status == s; }
    if i :| 0 <= i < |attempts| && attempts[i].status == s && attempts[0].status != s {
      assert attempts[1..][i - 1].status == s;
    }
  }

  function Inconclusively(samples: seq<int>): Result { Result(-1, false, Degraded, Inconclusive, true, samples) }

  function Unreached(samples: seq<int>): Result { Result(-1, false, UnreachableState, DestinationUnreachable, true, samples) }

  function Erred(a: Attempt, samples: seq<int>): Result {
    Result(-1, false, ErrorState, if a.permission then PermissionDenied else InternalError, true, samples)
  }

  function Classified(results: seq<Attempt>, expectedMin: int, samples: seq<int>): Result {
    var k := ClassifyResults(results, expectedMin);
    Result(k.pathMTU, k.success, k.state, k.detail, !k.success, samples)
  }

  function Sampled(samples: seq<int>, a: Attempt): seq<int> { if a.rtt > 0 then samples + [a.rtt] else samples }

  /** What one size of the step-down leads to: a result, or on to the next size. */
  datatype Progress = Stop(result: Result, clock: Clock) | Next(results: seq<Attempt>, samples: seq<int>, clock: Clock)

  /** What the retry loop reports for one size, and the clock after it. */
  function Retried(env: Env, echo: nat -> Attempt, retries: nat, c: Clock): (Attempt, Clock) {
    var run := Attempts(env, echo, retries, c);
    (Classify(run.0), run.1)
  }

  function WithDF(env: Env, size: int): nat -> Attempt { (n: nat) => env.df(n, size) }

  function TrySize(env: Env, retries: nat, expectedMin: int, size: int, results: seq<Attempt>, samples: seq<int>, c: Clock): Progress {
    if Cancelled(env, c) then Stop(Inconclusively(samples), c.Check()) else
      var run := Retried(env, WithDF(env, size), retries, c.Check());
      AfterSize(env, expectedMin, results + [run.0], Sampled(samples, run.0), run.0, run.1)
  }

  function AfterSize(env: Env, expectedMin: int, results: seq<Attempt>, samples: seq<int>, a: Attempt, c: Clock): Progress {
    match a.status
    case TimedOut =>
      if Cancelled(env, c) then Stop(Inconclusively(samples), c.Check()) else Next(results, samples, c.Check())
    case Answered => Stop(Classified(results, expectedMin, samples), c)
    case Unreachable => Stop(Unreached(samples), c)
    case Failed => Stop(Erred(a, samples), c)
    case _ => Next(results, samples, c)
  }

  /** The step-down over `sizes`, with the results and RTT samples gathered so far. */
  function StepDown(env: Env, retries: nat, expectedMin: int, sizes: seq<int>, results: seq<Attempt>, samples: seq<int>, c: Clock): (Result, Clock) {
    if sizes == [] then (Classified(results, expectedMin, samples).(error := true), c) else
      match TrySize(env, retries, expectedMin, sizes[0], results, samples, c)
      case Stop(r, c') => (r, c')
      case Next(results', samples', c') => StepDown(env, retries, expectedMin, sizes[1..], results', samples', c')
  }

  function EffectiveRetries(retries: int): (r: nat)
    ensures r > 0
  {
    if retries < 1 then DefaultMTURetries else retries
  }

  /** The whole probe. */
  function Outcome(env: Env, o: ProbeOptions): (Result, Clock) {
    var c0 := Clock(0, 0);
    if o.icmpPayloadSizes == [] then (Result(-1, false, ErrorState, InternalError, true, []), c0)
    else if !env.resolves then (Result(-1, false, ErrorState, ResolveError, true, []), c0)
    else if Cancelled(env, c0) then (Inconclusively([]), c0.Check())
    else
      var retries := EffectiveRetries(o.mtuRetries);
      var run := Retried(env, env.small, retries, c0.Check());
      AfterSanity(env, retries, o, run.0, run.1)
  }

  function AfterSanity(env: Env, retries: nat, o: ProbeOptions, sanity: Attempt, c: Clock): (Result, Clock) {
    match sanity.status
    case Answered => StepDown(env, retries, o.expectedMinMTU, o.icmpPayloadSizes, [], Sampled([], sanity), c)
    case Unreachable => (Unreached([]), c)
    case Failed => (Erred(sanity, []), c)
    case TimedOut => (if Cancelled(env, c) then Inconclusively([]) else SanityFailed(), c.Check())
    case _ => (SanityFailed(), c)
  }

  function SanityFailed(): Result { Result(-1, false, UnreachableState, SanityCheckFailed, true, []) }

  // ---------- the prober ----------

  /** Both retry loops; they differ only in the backend call they make. */
  method ProbeWithRetries(env: Env, echo: nat -> Attempt, retries: nat, c0: Clock) returns (r: Attempt, c: Clock)
    ensures (r, c) == Retried(env, echo, retries, c0)
  {
    var attempts: seq<Attempt> := [];
    var stopped := false;
    c := c0;
    var attempt := 0;
    ghost var all := Attempts(env, echo, retries, c0);
    assert [] + all.0 == all.0;
    while attempt < retries && !stopped
      invariant 0 <= attempt <= retries
      invariant all == (if stopped then (attempts, c) else Before(attempts, Attempts(env, echo, retries - attempt, c)))
    {
      var result := echo(c.calls);
      ghost var was := attempts;
      ghost var rest := Attempts(env, echo, retries - attempt - 1, c.Call().Check());
      assert was + ([result] + rest.0) == (was + [result]) + rest.0;
      attempts := attempts + [result];
      if result.status == Answered || result.status == Unreachable || result.status == Failed {
        c := c.Call();
        stopped := true;
      } else {
        stopped := Cancelled(env, c.Call());
        c := c.Call().Check();
      }
      attempt := attempt + 1;
    }
    assert attempts + [] == attempts;
    r := Classify(attempts);
  }

  ghost function Before(head: seq<Attempt>, run: (seq<Attempt>, Clock)): (seq<Attempt>, Clock) { (head + run.0, run.1) }

  method Probe(env: Env, o: ProbeOptions) returns (r: Result, c: Clock)
    ensures (r, c) == Outcome(env, o)
  {
    c := Clock(0, 0);
    var sizes := o.icmpPayloadSizes;
    if |sizes| == 0 { return Result(-1, false, ErrorState, InternalError, true, []), c; }
    if !env.resolves { return Result(-1, false, ErrorState, ResolveError, true, []), c; }
    if Cancelled(env, c) { return Inconclusively([]), c.Check(); }
    var retries := EffectiveRetries(o.mtuRetries);
    var sanity;
    sanity, c := ProbeWithRetries(env, env.small, retries, c.Check());
    if sanity.status == TimedOut {
      if Cancelled(env, c) { return Inconclusively([]), c.Check(); }
      c := c.Check();
    }
    var handled, failure := ApplySanityFailure(sanity);
    if handled { return failure, c; }
    r, c := SearchSizes(env, retries, o.expectedMinMTU, sizes, Sampled([], sanity), c);
  }

  method ApplySanityFailure(sanity: Attempt) returns (handled: bool, r: Result)
    ensures handled <==> sanity.status != Answered
    ensures sanity.status == Unreachable ==> r == Unreached([])
    ensures sanity.status == Failed ==> r == Erred(sanity, [])
    ensures sanity.status in {TooLarge, LocalTooLarge, TimedOut} ==> r == SanityFailed()
  {
    r := SanityFailed();
    handled := true;
    match sanity.status {
      case Answered => handled := false;
      case Unreachable => r := Unreached([]);
      case Failed => r := Erred(sanity, []);
      case _ =>
    }
  }

  /** The body of the step-down loop. */
  method TestSize(env: Env, retries: nat, expectedMin: int, size: int, results0: seq<Attempt>, samples0: seq<int>, c0: Clock) returns (p: Progress)
    ensures p == TrySize(env, retries, expectedMin, size, results0, samples0, c0)
  {
    if Cancelled(env, c0) { return Stop(Inconclusively(samples0), c0.Check()); }
    var a, c := ProbeWithRetries(env, WithDF(env, size), retries, c0.Check());
    var results, samples := results0 + [a], samples0;
    if a.rtt > 0 { samples := samples + [a.rtt]; }
    if a.status == TimedOut {
      if Cancelled(env, c) { return Stop(Inconclusively(samples), c.Check()); }
      c := c.Check();
    }
    match a.status {
      case Answered => return Stop(Classified(results, expectedMin, samples), c);
      case Unreachable => return Stop(Unreached(samples), c);
      case Failed => return Stop(Erred(a, samples), c);
      case _ => return Next(results, samples, c);
    }
  }

  /** The step-down loop: it stops at the first size that settles the result. */
  method SearchSizes(env: Env, retries: nat, expectedMin: int, sizes: seq<int>, samples0: seq<int>, c0: Clock) returns (r: Result, c: Clock)
    ensures (r, c) == StepDown(env, retries, expectedMin, sizes, [], samples0, c0)
  {
    c := c0;
    var samples := samples0;
    var results: seq<Attempt> := [];
    for i := 0 to |sizes|
      invariant StepDown(env, retries, expectedMin, sizes, [], samples0, c0) == StepDown(env, retries, expectedMin, sizes[i..], results, samples, c)
    {
      assert sizes[i..][0] == sizes[i] && sizes[i..][1..] == sizes[i + 1..];
      var p := TestSize(env, retries, expectedMin, sizes[i], results, samples, c);
      if p.Stop? { return p.result, p.clock; }
      results, samples, c := p.results, p.samples, p.clock;
    }
    r := Classified(results, expectedMin, samples).(error := true);
  }

  // ---------- the result contract ----------

  /** The (state, detail) pairs a result can carry. */
  predicate ClosedPair(state: State, detail: Detail) {
    match state
    case OkState => detail in {LargestSizeConfirmed, FragmentationNeeded, LargerSizesTimedOut, LocalMessageTooLarge}
    case Degraded =>
      detail in {LargestSizeConfirmed, FragmentationNeeded, LargerSizesTimedOut, LocalMessageTooLarge, BelowMinTested, AllSizesTimedOut, Inconclusive}
    case UnreachableState => detail in {DestinationUnreachable, SanityCheckFailed}
    case ErrorState => detail in {PermissionDenied, InternalError, ResolveError}
  }

  /** The backend echoes the payload size it was asked for, and an RTT comes only with an answer. */
  ghost predicate Echoes(env: Env) {
    && (forall n: nat, size: int :: env.df(n, size).payloadSize == size)
    && (forall n: nat, size: int :: env.df(n, size).rtt > 0 ==> env.df(n, size).status == Answered)
  }

  ghost predicate SomeAnswer(env: Env, size: int) { exists n: nat :: env.df(n, size).status == Answered }

  predicate BelowMin(pathMTU: int, expectedMin: int) { expectedMin > 0 && pathMTU < expectedMin }

  /** No size was confirmed. */
  predicate NothingConfirmed(r: Result) {
    r.pathMTU == -1 && !r.success && r.error && r.state != OkState && ClosedPair(r.state, r.detail) && r.detail != LargestSizeConfirmed
  }

  /** The search confirmed `sizes[k]`, which the backend did answer. */
  ghost predicate Confirmed(env: Env, r: Result, sizes: seq<int>, expectedMin: int, k: nat) {
    && k < |sizes| && r.pathMTU == sizes[k] + IPAndICMPHeaders && SomeAnswer(env, sizes[k])
    && r.success == !BelowMin(r.pathMTU, expectedMin) && r.error == !r.success
    && r.state == (if r.success then OkState else Degraded) && ClosedPair(r.state, r.detail)
    && (r.detail == LargestSizeConfirmed <==> k == 0)
  }

  ghost predicate Contract(env: Env, r: Result, sizes: seq<int>, expectedMin: int) {
    NothingConfirmed(r) || exists k: nat :: Confirmed(env, r, sizes, expectedMin, k)
  }

  predicate Skipped(results: seq<Attempt>) {
    forall i | 0 <= i < |results| :: !Terminal(results[i].status)
  }

  /** What one size's retry loop reports is one of the backend's answers for that size. */
  lemma RetriedEchoes(env: Env, size: int, retries: nat, c: Clock)
    requires Echoes(env) && retries > 0
    ensures var a := Retried(env, WithDF(env, size), retries, c).0;
      && a.payloadSize == size && (a.status == Answered ==> SomeAnswer(env, size)) && (a.rtt > 0 ==> a.status == Answered)
  {
    LoopsProduceProducible(env, WithDF(env, size), retries, c);
    var attempts := Attempts(env, WithDF(env, size), retries, c).0;
    ClassifyProducible(attempts);
  }

  lemma ClassifyAfterSkips(results: seq<Attempt>, a: Attempt, expectedMin: int)
    requires Skipped(results) && a.status == Answered
    ensures Has(results + [a], Answered) && IndexOf(results + [a], Answered) == |results| && (results + [a])[..|results|] == results
  {
    assert (results + [a])[|results|] == a;
    var i := IndexOf(results + [a], Answered);
    assert forall k | 0 <= k < |results| :: (results + [a])[k].status != Answered;
  }

  lemma PriorFailureDetail(results: seq<Attempt>)
    requires Skipped(results)
    ensures DetailForPriorFailures(results) in {LargestSizeConfirmed, FragmentationNeeded, LargerSizesTimedOut, LocalMessageTooLarge}
    ensures DetailForPriorFailures(results) == LargestSizeConfirmed <==> results == []
  {
    if results != [] { assert Has(results, results[0].status); }
  }

  /** An answered size is confirmed. */
  lemma AnswerContract(env: Env, expectedMin: int, sizes: seq<int>, i: nat, results: seq<Attempt>, samples: seq<int>, a: Attempt)
    requires i < |sizes| && |results| == i && Skipped(results) && a.status == Answered && a.payloadSize == sizes[i] && SomeAnswer(env, sizes[i])
    ensures Confirmed(env, Classified(results + [a], expectedMin, samples), sizes, expectedMin, i)
  {
    ClassifyAfterSkips(results, a, expectedMin);
    PriorFailureDetail(results);
  }

  lemma SizeContract(env: Env, retries: nat, expectedMin: int, sizes: seq<int>, i: nat, results: seq<Attempt>, samples: seq<int>, c: Clock)
    requires Echoes(env) && retries > 0 && i < |sizes| && |results| == i && Skipped(results)
    ensures var p := TrySize(env, retries, expectedMin, sizes[i], results, samples, c);
      if p.Stop? then (NothingConfirmed(p.result) || Confirmed(env, p.result, sizes, expectedMin, i)) && |p.result.samples| <= |samples| + 1
      else |p.results| == i + 1 && Skipped(p.results) && p.samples == samples
  {
    RetriedEchoes(env, sizes[i], retries, c.Check());
    var run := Retried(env, WithDF(env, sizes[i]), retries, c.Check());
    AfterSizeContract(env, expectedMin, sizes, i, results, samples, run.0, run.1);
  }

  lemma AfterSizeContract(env: Env, expectedMin: int, sizes: seq<int>, i: nat, results: seq<Attempt>, samples: seq<int>, a: Attempt, c: Clock)
    requires i < |sizes| && |results| == i && Skipped(results)
    requires a.payloadSize == sizes[i] && (a.status == Answered ==> SomeAnswer(env, sizes[i])) && (a.rtt > 0 ==> a.status == Answered)
    ensures var p := AfterSize(env, expectedMin, results + [a], Sampled(samples, a), a, c);
      if p.Stop? then (NothingConfirmed(p.result) || Confirmed(env, p.result, sizes, expectedMin, i)) && |p.result.samples| <= |samples| + 1
      else |p.results| == i + 1 && Skipped(p.results) && p.samples == samples
  {
    if a.status == Answered { AnswerContract(env, expectedMin, sizes, i, results, Sampled(samples, a), a); }
  }

  lemma {:induction false} StepDownContract(env: Env, retries: nat, expectedMin: int, sizes: seq<int>, i: nat, results: seq<Attempt>, samples: seq<int>, c: Clock)
    requires Echoes(env) && retries > 0 && i <= |sizes| && |results| == i && Skipped(results)
    ensures var r := StepDown(env, retries, expectedMin, sizes[i..], results, samples, c).0;
      Contract(env, r, sizes, expectedMin) && |r.samples| <= |samples| + 1
    decreases |sizes| - i
  {
    if i < |sizes| {
      assert sizes[i..][0] == sizes[i] && sizes[i..][1..] == sizes[i + 1..];
      SizeContract(env, retries, expectedMin, sizes, i, results, samples, c);
      var p := TrySize(env, retries, expectedMin, sizes[i], results, samples, c);
      if p.Next? { StepDownContract(env, retries, expectedMin, sizes, i + 1, p.results, samples, p.clock); }
    } else {
      assert !Has(results, Answered);
      assert NothingConfirmed(StepDown(env, retries, expectedMin, [], results, samples, c).0);
    }
  }

  /** For every backend and every cancellation point the result is `Contract`, and at most the sanity echo
      and one size contribute to the average RTT. */
  lemma ResultContract(env: Env, o: ProbeOptions)
    requires Echoes(env)
    ensures Contract(env, Outcome(env, o).0, o.icmpPayloadSizes, o.expectedMinMTU)
    ensures |Outcome(env, o).0.samples| <= 2
  {
    var c0, retries, sizes := Clock(0, 0), EffectiveRetries(o.mtuRetries), o.icmpPayloadSizes;
    var run := Retried(env, env.small, retries, c0.Check());
    assert sizes[0..] == sizes;
    if run.0.status == Answered {
      StepDownContract(env, retries, o.expectedMinMTU, sizes, 0, [], Sampled([], run.0), run.1);
    }
    if sizes == [] || !env.resolves || Cancelled(env, c0) || run.0.status != Answered {
      assert NothingConfirmed(Outcome(env, o).0);
    }
  }

  /** With positive sizes success reads off the path MTU alone. */
  lemma SuccessIffLargeEnough(env: Env, o: ProbeOptions)
    requires Echoes(env) && forall i | 0 <= i < |o.icmpPayloadSizes| :: o.icmpPayloadSizes[i] > 0
    ensures var r := Outcome(env, o).0;
      && (r.success <==> r.pathMTU > 0 && !BelowMin(r.pathMTU, o.expectedMinMTU))
      && (r.error <==> !r.success) && (r.state == OkState <==> r.success)
  {
    ResultContract(env, o);
  }

  /** For a validated target, "largest size confirmed" says exactly that, and is never degraded. */
  lemma LargestConfirmed(env: Env, t: TargetConfig)
    requires Echoes(env) && MtuOk(t)
    ensures var r := Outcome(env, t.opts).0;
      && (r.detail == LargestSizeConfirmed <==> r.pathMTU == t.opts.icmpPayloadSizes[0] + IPAndICMPHeaders)
      && !(r.detail == LargestSizeConfirmed && r.state == Degraded)
  {
    ResultContract(env, t.opts);
    var r, sizes := Outcome(env, t.opts).0, t.opts.icmpPayloadSizes;
    if !NothingConfirmed(r) {
      var k: nat :| Confirmed(env, r, sizes, t.opts.expectedMinMTU, k);
      assert k > 0 ==> sizes[0] > sizes[k];
    }
  }

  lemma {:induction false} AttemptsIgnoreDF(env: Env, df: (nat, int) -> Attempt, echo: nat -> Attempt, left: nat, c: Clock)
    ensures Attempts(env.(df := df), echo, left, c) == Attempts(env, echo, left, c)
  {
    if left > 0 { AttemptsIgnoreDF(env, df, echo, left - 1, c.Call().Check()); }
  }

  /** An unanswered sanity echo settles the result: no size is tried, so any other answers to the DF probes
      give the same, nothing is confirmed, no sample is kept and only the sanity retries were spent. */
  lemma SanityFailureSettles(env: Env, o: ProbeOptions, df: (nat, int) -> Attempt)
    requires Retried(env, env.small, EffectiveRetries(o.mtuRetries), Clock(0, 0).Check()).0.status != Answered
    ensures Outcome(env.(df := df), o) == Outcome(env, o)
    ensures var (r, c) := Outcome(env, o);
      NothingConfirmed(r) && r.samples == [] && c.calls <= EffectiveRetries(o.mtuRetries)
  {
    var retries := EffectiveRetries(o.mtuRetries);
    AttemptsIgnoreDF(env, df, env.small, retries, Clock(0, 0).Check());
    AttemptsCost(env, env.small, retries, Clock(0, 0).Check());
  }

  // ---------- cost ----------

  lemma {:induction false} AttemptsCost(env: Env, echo: nat -> Attempt, left: nat, c: Clock)
    ensures var c' := Attempts(env, echo, left, c).1; c.calls <= c'.calls <= c.calls + left && c.now <= c'.now
  {
    if left > 0 { AttemptsCost(env, echo, left - 1, c.Call().Check()); }
  }

  lemma SizeCost(env: Env, retries: nat, expectedMin: int, size: int, results: seq<Attempt>, samples: seq<int>, c: Clock)
    ensures var c' := TrySize(env, retries, expectedMin, size, results, samples, c).clock;
      c.calls <= c'.calls <= c.calls + retries && c.now <= c'.now
  {
    AttemptsCost(env, WithDF(env, size), retries, c.Check());
  }

  /** What `n` retry loops of `retries` calls may spend. */
  function Budget(retries: nat, n: nat): (b: nat)
    ensures b == retries * n
  {
    if n == 0 then 0 else retries + Budget(retries, n - 1)
  }

  lemma {:induction false} StepDownCost(env: Env, retries: nat, expectedMin: int, sizes: seq<int>, results: seq<Attempt>, samples: seq<int>, c: Clock)
    ensures var c' := StepDown(env, retries, expectedMin, sizes, results, samples, c).1;
      c.calls <= c'.calls <= c.calls + Budget(retries, |sizes|) && c.now <= c'.now
  {
    if sizes != [] {
      var p := TrySize(env, retries, expectedMin, sizes[0], results, samples, c);
      SizeCost(env, retries, expectedMin, sizes[0], results, samples, c);
      if p.Next? { StepDownCost(env, retries, expectedMin, sizes[1..], p.results, p.samples, p.clock); }
    }
  }

  lemma BackendCallsBounded(env: Env, o: ProbeOptions)
    ensures Outcome(env, o).1.calls <= EffectiveRetries(o.mtuRetries) * (1 + |o.icmpPayloadSizes|)
  {
    var retries := EffectiveRetries(o.mtuRetries);
    var run := Retried(env, env.small, retries, Clock(0, 0).Check());
    AttemptsCost(env, env.small, retries, Clock(0, 0).Check());
    StepDownCost(env, retries, o.expectedMinMTU, o.icmpPayloadSizes, [], Sampled([], run.0), run.1);
    assert retries * (1 + |o.icmpPayloadSizes|) == retries + retries * |o.icmpPayloadSizes|;
  }

  // ---------- exactness ----------

  /** A size the search tested, and the attempts it made. */
  datatype Tested = Tested(size: int, attempts: seq<Attempt>)

  /** Everything the step-down tests, in order. */
  function Tests(env: Env, retries: nat, expectedMin: int, sizes: seq<int>, results: seq<Attempt>, samples: seq<int>, c: Clock): seq<Tested> {
    if sizes == [] || Cancelled(env, c) then [] else
      var p := TrySize(env, retries, expectedMin, sizes[0], results, samples, c);
      [Tested(sizes[0], Attempts(env, WithDF(env, sizes[0]), retries, c.Check()).0)] +
        if p.Stop? then [] else Tests(env, retries, expectedMin, sizes[1..], p.results, p.samples, p.clock)
  }

  /** Everything a probe tests after its sanity echo. */
  function TestsOf(env: Env, o: ProbeOptions): seq<Tested> {
    var retries := EffectiveRetries(o.mtuRetries);
    var run := Retried(env, env.small, retries, Clock(0, 0).Check());
    Tests(env, retries, o.expectedMinMTU, o.icmpPayloadSizes, [], Sampled([], run.0), run.1)
  }

  /** A path of MTU `m` as one test sees it: a payload that fits is answered or lost, one that does not is
      refused or lost, and a fitting size is not lost in all of its `retries` attempts. */
  predicate OnPath(t: Tested, m: int, retries: nat) {
    && (forall a <- t.attempts :: FitsOrLost(a, m))
    && (t.size + IPAndICMPHeaders <= m && |t.attempts| == retries ==> exists a <- t.attempts :: a.status != TimedOut)
  }

  predicate FitsOrLost(a: Attempt, m: int) {
    a.status == TimedOut || if a.payloadSize + IPAndICMPHeaders <= m then a.status == Answered else a.status in {TooLarge, LocalTooLarge}
  }

  /** `mtu` is the largest tested MTU not above `m`, or -1 if every size is too large. */
  predicate LargestFitting(mtu: int, sizes: seq<int>, m: int) {
    if exists size <- sizes :: size + IPAndICMPHeaders <= m then
      && mtu - IPAndICMPHeaders in sizes && mtu <= m
      && forall size <- sizes | size + IPAndICMPHeaders <= m :: size + IPAndICMPHeaders <= mtu
    else mtu == -1
  }

  lemma SomeAnswered(env: Env, m: int, size: int, retries: nat, c: Clock, attempts: seq<Attempt>)
    requires Echoes(env) && retries > 0 && size + IPAndICMPHeaders <= m
    requires attempts == Attempts(env, WithDF(env, size), retries, c).0 && OnPath(Tested(size, attempts), m, retries)
    requires !Cancelled(env, Attempts(env, WithDF(env, size), retries, c).1)
    ensures attempts != [] && attempts[|attempts| - 1].status == Answered
  {
    LoopsProduceProducible(env, WithDF(env, size), retries, c);
    var last := |attempts| - 1;
    forall i | 0 <= i < |attempts| ensures attempts[i].status == TimedOut || attempts[i].status == Answered {
      assert attempts[i] in attempts && attempts[i].payloadSize == size;
    }
    assert (exists a <- attempts :: a.status != TimedOut) ==> attempts[last].status == Answered;
  }

  lemma RetriedOnPath(env: Env, m: int, size: int, retries: nat, c: Clock, attempts: seq<Attempt>)
    requires Echoes(env) && retries > 0
    requires attempts == Attempts(env, WithDF(env, size), retries, c).0 && OnPath(Tested(size, attempts), m, retries)
    ensures var run := Retried(env, WithDF(env, size), retries, c);
      && (run.0.status == Answered ==> size + IPAndICMPHeaders <= m)
      && (size + IPAndICMPHeaders <= m && !Cancelled(env, run.1) ==> run.0.status == Answered)
      && run.0.status != Unreachable && run.0.status != Failed
  {
    LoopsProduceProducible(env, WithDF(env, size), retries, c);
    ClassifyProducible(attempts);
    assert attempts[|attempts| - 1] in attempts && attempts[|attempts| - 1].payloadSize == size;
    if size + IPAndICMPHeaders <= m && !Cancelled(env, Attempts(env, WithDF(env, size), retries, c).1) {
      SomeAnswered(env, m, size, retries, c, attempts);
    }
  }

  /** One size of a search that is not cancelled: a fitting size ends it, any other goes on. */
  lemma SizeOnPath(env: Env, m: int, retries: nat, expectedMin: int, size: int, results: seq<Attempt>, samples: seq<int>, c: Clock)
    requires Echoes(env) && retries > 0 && Skipped(results)
    requires OnPath(Tested(size, Attempts(env, WithDF(env, size), retries, c.Check()).0), m, retries)
    requires !Cancelled(env, TrySize(env, retries, expectedMin, size, results, samples, c).clock)
    ensures var p := TrySize(env, retries, expectedMin, size, results, samples, c);
      if size + IPAndICMPHeaders <= m then p.Stop? && p.result.pathMTU == size + IPAndICMPHeaders else p.Next? && Skipped(p.results)
  {
    SizeCost(env, retries, expectedMin, size, results, samples, c);
    RetriedOnPath(env, m, size, retries, c.Check(), Attempts(env, WithDF(env, size), retries, c.Check()).0);
    RetriedEchoes(env, size, retries, c.Check());
    var a := Retried(env, WithDF(env, size), retries, c.Check()).0;
    if a.status == Answered { ClassifyAfterSkips(results, a, expectedMin); }
  }

  lemma LargestFittingHead(sizes: seq<int>, m: int)
    requires sizes != [] && Descending(sizes)
    ensures sizes[0] + IPAndICMPHeaders <= m ==> LargestFitting(sizes[0] + IPAndICMPHeaders, sizes, m)
    ensures sizes[0] + IPAndICMPHeaders > m ==> forall mtu :: LargestFitting(mtu, sizes[1..], m) ==> LargestFitting(mtu, sizes, m)
  {
    assert sizes == [sizes[0]] + sizes[1..];
    assert sizes[0] in sizes;
  }

  lemma TestsHead(env: Env, retries: nat, expectedMin: int, sizes: seq<int>, results: seq<Attempt>, samples: seq<int>, c: Clock)
    requires sizes != [] && !Cancelled(env, TrySize(env, retries, expectedMin, sizes[0], results, samples, c).clock)
    ensures var p, tests := TrySize(env, retries, expectedMin, sizes[0], results, samples, c), Tests(env, retries, expectedMin, sizes, results, samples, c);
      && Tested(sizes[0], Attempts(env, WithDF(env, sizes[0]), retries, c.Check()).0) in tests
      && (p.Next? ==> forall t <- Tests(env, retries, expectedMin, sizes[1..], p.results, p.samples, p.clock) :: t in tests)
  {
    SizeCost(env, retries, expectedMin, sizes[0], results, samples, c);
  }

  lemma {:induction false} StepDownExact(env: Env, m: int, retries: nat, expectedMin: int, sizes: seq<int>, results: seq<Attempt>, samples: seq<int>, c: Clock)
    requires Echoes(env) && retries > 0 && Descending(sizes) && Skipped(results)
    requires forall t <- Tests(env, retries, expectedMin, sizes, results, samples, c) :: OnPath(t, m, retries)
    requires !Cancelled(env, StepDown(env, retries, expectedMin, sizes, results, samples, c).1)
    ensures LargestFitting(StepDown(env, retries, expectedMin, sizes, results, samples, c).0.pathMTU, sizes, m)
  {
    if sizes != [] {
      var p := TrySize(env, retries, expectedMin, sizes[0], results, samples, c);
      if p.Next? { StepDownCost(env, retries, expectedMin, sizes[1..], p.results, p.samples, p.clock); }
      TestsHead(env, retries, expectedMin, sizes, results, samples, c);
      SizeOnPath(env, m, retries, expectedMin, sizes[0], results, samples, c);
      LargestFittingHead(sizes, m);
      if p.Next? { StepDownExact(env, m, retries, expectedMin, sizes[1..], p.results, p.samples, p.clock); }
    }
  }

  /** On a path of MTU `m` whose sanity echo is answered, a search that is not cancelled reports the
      largest tested MTU that fits the path, or -1 when none does. */
  lemma SearchIsExact(env: Env, o: ProbeOptions, m: int)
    requires env.resolves && o.icmpPayloadSizes != [] && Descending(o.icmpPayloadSizes)
    requires Echoes(env) && forall t <- TestsOf(env, o) :: OnPath(t, m, EffectiveRetries(o.mtuRetries))
    requires Retried(env, env.small, EffectiveRetries(o.mtuRetries), Clock(0, 0).Check()).0.status == Answered
    requires !Cancelled(env, Outcome(env, o).1)
    ensures LargestFitting(Outcome(env, o).0.pathMTU, o.icmpPayloadSizes, m)
  {
    var retries := EffectiveRetries(o.mtuRetries);
    var run := Retried(env, env.small, retries, Clock(0, 0).Check());
    if !Cancelled(env, Clock(0, 0)) {
      StepDownExact(env, m, retries, o.expectedMinMTU, o.icmpPayloadSizes, [], Sampled([], run.0), run.1);
    }
  }

  lemma {:induction false} AnsweringIsOnPath(largest: int, retries: nat, expectedMin: int, sizes: seq<int>, results: seq<Attempt>, samples: seq<int>, c: Clock)
    requires retries > 0
    ensures forall t <- Tests(PathAnswering(largest), retries, expectedMin, sizes, results, samples, c) :: OnPath(t, largest + IPAndICMPHeaders, retries)
    decreases |sizes|
  {
    var env := PathAnswering(largest);
    if sizes != [] && !Cancelled(env, c) {
      var t := Tested(sizes[0], Attempts(env, WithDF(env, sizes[0]), retries, c.Check()).0);
      LoopsProduceProducible(env, WithDF(env, sizes[0]), retries, c.Check());
      assert OnPath(t, largest + IPAndICMPHeaders, retries) by { assert t.attempts[0] in t.attempts; }
      var p := TrySize(env, retries, expectedMin, sizes[0], results, samples, c);
      if p.Next? { AnsweringIsOnPath(largest, retries, expectedMin, sizes[1..], p.results, p.samples, p.clock); }
    }
  }

  /** A payload can be answered and the probe still fail: success "if at least one payload size succeeded",
      as Probe's own comment has it, is false whenever the answered MTU is below the expected minimum. */
  lemma AnsweredYetFailing(o: ProbeOptions, size: int)
    requires Descending(o.icmpPayloadSizes) && size in o.icmpPayloadSizes && o.expectedMinMTU > size + IPAndICMPHeaders
    ensures var (r, _) := Outcome(PathAnswering(size), o);
      SomeAnswer(PathAnswering(size), size) && r.pathMTU == size + IPAndICMPHeaders && !r.success
  {
    var env, m, retries := PathAnswering(size), size + IPAndICMPHeaders, EffectiveRetries(o.mtuRetries);
    assert env.df(0, size).status == Answered;
    var run := Retried(env, env.small, retries, Clock(0, 1));
    AnsweringIsOnPath(size, retries, o.expectedMinMTU, o.icmpPayloadSizes, [], Sampled([], run.0), run.1);
    LoopsProduceProducible(env, env.small, retries, Clock(0, 1));
    ClassifyProducible(Attempts(env, env.small, retries, Clock(0, 1)).0);
    SearchIsExact(env, o, m);
    SuccessIffLargeEnough(env, o);
  }

  /** A size that is confirmed makes the probe succeed. */
  ghost predicate ConfirmingSucceeds(env: Env, o: ProbeOptions) { Outcome(env, o).0.pathMTU != -1 ==> Outcome(env, o).0.success }

  lemma LowMinimumSucceeds(env: Env, o: ProbeOptions)
    requires Echoes(env) && o.icmpPayloadSizes != [] && Descending(o.icmpPayloadSizes)
    requires o.expectedMinMTU <= o.icmpPayloadSizes[|o.icmpPayloadSizes| - 1] + IPAndICMPHeaders
    ensures ConfirmingSucceeds(env, o)
  {
    ResultContract(env, o);
    var r, sizes := Outcome(env, o).0, o.icmpPayloadSizes;
    if !NothingConfirmed(r) {
      var k: nat :| Confirmed(env, r, sizes, o.expectedMinMTU, k);
      assert sizes[k] >= sizes[|sizes| - 1];
    }
  }

  lemma HighMinimumFails(o: ProbeOptions) returns (env: Env)
    requires o.icmpPayloadSizes != [] && Descending(o.icmpPayloadSizes)
    requires o.expectedMinMTU > o.icmpPayloadSizes[|o.icmpPayloadSizes| - 1] + IPAndICMPHeaders
    ensures Echoes(env) && !ConfirmingSucceeds(env, o)
  {
    var smallest := o.icmpPayloadSizes[|o.icmpPayloadSizes| - 1];
    env := PathAnswering(smallest);
    AnsweredYetFailing(o, smallest);
  }

  /** Exactly the options under which, whatever the backend answers, an answered size means success: the
      expected minimum is not above the smallest size that can be answered. */
  lemma AnsweredMeansSuccessIff(o: ProbeOptions)
    requires o.icmpPayloadSizes != [] && Descending(o.icmpPayloadSizes)
    ensures (forall env: Env | Echoes(env) :: ConfirmingSucceeds(env, o))
       <==> o.expectedMinMTU <= o.icmpPayloadSizes[|o.icmpPayloadSizes| - 1] + IPAndICMPHeaders
  {
    if o.expectedMinMTU > o.icmpPayloadSizes[|o.icmpPayloadSizes| - 1] + IPAndICMPHeaders {
      var env := HighMinimumFails(o);
    } else {
      forall env: Env | Echoes(env) ensures ConfirmingSucceeds(env, o) { LowMinimumSucceeds(env, o); }
    }
  }

  function PathAnswering(largest: int): Env {
    Env(true, (n: nat) => Attempt(Answered, SanityPayloadSize, 1, false),
      (n: nat, size: int) => if size <= largest then Attempt(Answered, size, 1, false) else Attempt(TooLarge, size, 0, false), None)
  }

  // ---------- the average round trip ----------

  /** The average of no samples is zero; otherwise it lies between any bounds on the samples. */
  method AvgRTT(samples: seq<int>) returns (avg: int)
    ensures samples == [] ==> avg == 0
    ensures samples != [] ==> avg * |samples| <= Sum(samples) < avg * |samples| + |samples|
  {
    if |samples| == 0 { return 0; }
    var total := 0;
    for i := 0 to |samples|
      invariant total == Sum(samples[..i])
    {
      assert samples[..i + 1][..i] == samples[..i];
      total := total + samples[i];
    }
    assert samples[..|samples|] == samples;
    avg := total / |samples|;
    assert avg * |samples| + total % |samples| == total;
  }
}
