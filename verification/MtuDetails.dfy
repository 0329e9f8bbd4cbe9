/** What an MTU result says of the attempts the probe made (internal/probe/mtu.go): its state, its detail, its MTU and its
    RTT samples, read off the answers themselves and not through the prober's own classification. */
module MtuDetails {
  import opened Targets
  import opened Configuration
  import opened MtuSearch

  predicate Got(attempts: seq<Attempt>, status: Status) { exists a <- attempts :: a.status == status }

  /** Some attempt at some of the sizes was answered so. */
  predicate Saw(tests: seq<Tested>, status: Status) { exists t <- tests :: Got(t.attempts, status) }

  predicate AllLost(attempts: seq<Attempt>) { forall a <- attempts :: a.status == TimedOut }

  /** The probe found its context cancelled at its last look, or could have. */
  predicate SawCancel(env: Env, c: Clock) { env.cancelAt.Some? && env.cancelAt.value < c.now }

  /** No MTU, and this state and detail. */
  predicate Says(r: Result, state: State, detail: Detail) {
    r.state == state && r.detail == detail && r.pathMTU == -1 && !r.success && r.error
  }

  /** The last attempt ended the matter without an answer. */
  predicate SaysRefused(r: Result, last: Attempt) {
    && (last.status == Unreachable ==> Says(r, UnreachableState, DestinationUnreachable))
    && (last.status == Failed ==> Says(r, ErrorState, if last.permission then PermissionDenied else InternalError))
  }

  /** What a sanity check that was not answered settles. */
  predicate SanitySettles(env: Env, r: Result, c: Clock, attempts: seq<Attempt>)
    requires attempts != []
  {
    var last := attempts[|attempts| - 1];
    && r.samples == []
    && if last.status == Unreachable || last.status == Failed then SaysRefused(r, last)
       else if AllLost(attempts) && SawCancel(env, c) then Says(r, Degraded, Inconclusive)
       else Says(r, UnreachableState, SanityCheckFailed)
  }

  /** The detail of a confirmed size, by what happened at the larger ones. */
  predicate LargerSizesSay(detail: Detail, larger: seq<Tested>) {
    if Saw(larger, LocalTooLarge) then detail == LocalMessageTooLarge
    else if Saw(larger, TooLarge) then detail == FragmentationNeeded
    else if larger != [] then detail == LargerSizesTimedOut
    else detail == LargestSizeConfirmed
  }

  /** The detail when no size was answered and none ended the matter. */
  predicate FailedSizesSay(detail: Detail, tests: seq<Tested>) {
    if Saw(tests, LocalTooLarge) then detail == LocalMessageTooLarge
    else if Saw(tests, TooLarge) then detail == BelowMinTested
    else detail == AllSizesTimedOut
  }

  /** What a search of `n` sizes settles by the tests it made. */
  predicate SearchSettles(env: Env, expectedMin: int, r: Result, c: Clock, tests: seq<Tested>, n: nat, samples: seq<int>)
    requires forall t <- tests :: t.attempts != []
  {
    var k := |tests| - 1;
    var lost := Attempt(TimedOut, 0, 0, false);
    var last := if k < 0 then lost else tests[k].attempts[|tests[k].attempts| - 1];
    && r.samples == (if last.status == Answered && last.rtt > 0 then samples + [last.rtt] else samples)
    && if last.status == Answered then
         && r.pathMTU == tests[k].size + 28 && LargerSizesSay(r.detail, tests[..k])
         && r.success == !(expectedMin > 0 && tests[k].size + 28 < expectedMin) && r.error == !r.success
         && r.state == (if r.success then OkState else Degraded)
       else if last.status == Unreachable || last.status == Failed then SaysRefused(r, last)
       else if |tests| < n || (k >= 0 && AllLost(tests[k].attempts) && SawCancel(env, c)) then Says(r, Degraded, Inconclusive) && SawCancel(env, c)
       else Says(r, Degraded, r.detail) && FailedSizesSay(r.detail, tests)
  }

  // ---------- the classifier on what the loops produce ----------

  /** The status reported for a list of attempts, read off the list. */
  predicate Reported(status: Status, attempts: seq<Attempt>)
    requires attempts != []
  {
    var last := attempts[|attempts| - 1].status;
    if last == Answered || last == Unreachable || last == Failed then status == last
    else if Got(attempts, LocalTooLarge) then status == LocalTooLarge
    else if Got(attempts, TooLarge) then status == TooLarge
    else status == TimedOut && AllLost(attempts)
  }

  lemma HasIsGot(attempts: seq<Attempt>, status: Status)
    ensures Has(attempts, status) <==> Got(attempts, status)
  {
    if a :| a in attempts && a.status == status {
      var i :| 0 <= i < |attempts| && attempts[i] == a;
      assert attempts[i].status == status;
    }
  }

  lemma ClassifyReports(attempts: seq<Attempt>)
    requires Producible(attempts)
    ensures Reported(Classify(attempts).status, attempts)
    ensures Terminal(attempts[|attempts| - 1].status) ==> Classify(attempts) == attempts[|attempts| - 1]
  {
    ClassifyProducible(attempts);
    HasIsGot(attempts, LocalTooLarge);
    HasIsGot(attempts, TooLarge);
    var last := |attempts| - 1;
    if !Terminal(attempts[last].status) && !Got(attempts, LocalTooLarge) && !Got(attempts, TooLarge) {
      forall a <- attempts ensures a.status == TimedOut {
        var i :| 0 <= i < |attempts| && attempts[i] == a;
        assert !Terminal(attempts[i].status);
      }
    }
  }

  /** A result that moved the search on, with the test behind it. */
  predicate Matches(t: Tested, a: Attempt) { t.attempts != [] && Reported(a.status, t.attempts) && !Terminal(a.status) }

  predicate AllMatch(tests: seq<Tested>, results: seq<Attempt>) {
    |tests| == |results| && forall i | 0 <= i < |tests| :: Matches(tests[i], results[i])
  }

  lemma MatchedSkips(tests: seq<Tested>, results: seq<Attempt>)
    requires AllMatch(tests, results)
    ensures Skipped(results) && (forall t <- tests :: t.attempts != [])
    ensures Has(results, LocalTooLarge) <==> Saw(tests, LocalTooLarge)
    ensures !Saw(tests, LocalTooLarge) ==> (Has(results, TooLarge) <==> Saw(tests, TooLarge))
    ensures tests != [] && !Saw(tests, LocalTooLarge) && !Saw(tests, TooLarge) ==> Has(results, TimedOut)
  {
    forall i | 0 <= i < |results| ensures !Terminal(results[i].status) { assert Matches(tests[i], results[i]); }
    forall t <- tests ensures t.attempts != [] {
      var i :| 0 <= i < |tests| && tests[i] == t;
      assert Matches(tests[i], results[i]);
    }
    forall i | 0 <= i < |tests|
      ensures results[i].status == LocalTooLarge <==> Got(tests[i].attempts, LocalTooLarge)
      ensures !Got(tests[i].attempts, LocalTooLarge) ==> (results[i].status == TooLarge <==> Got(tests[i].attempts, TooLarge))
    {
      assert Matches(tests[i], results[i]);
    }
    if t :| t in tests && Got(t.attempts, LocalTooLarge) {
      var i :| 0 <= i < |tests| && tests[i] == t;
      assert results[i].status == LocalTooLarge;
    }
    if i :| 0 <= i < |results| && results[i].status == LocalTooLarge { assert tests[i] in tests; }
    if !Saw(tests, LocalTooLarge) {
      forall i | 0 <= i < |tests| ensures !Got(tests[i].attempts, LocalTooLarge) { assert tests[i] in tests; }
      if t :| t in tests && Got(t.attempts, TooLarge) {
        var i :| 0 <= i < |tests| && tests[i] == t;
        assert results[i].status == TooLarge;
      }
      if i :| 0 <= i < |results| && results[i].status == TooLarge { assert tests[i] in tests; }
      if tests != [] && !Saw(tests, TooLarge) {
        assert tests[0] in tests && Matches(tests[0], results[0]);
        assert results[0].status == TimedOut;
      }
    }
  }

  lemma LargerDetail(tests: seq<Tested>, results: seq<Attempt>)
    requires AllMatch(tests, results)
    ensures LargerSizesSay(DetailForPriorFailures(results), tests)
  {
    MatchedSkips(tests, results);
  }

  lemma FailedDetail(tests: seq<Tested>, results: seq<Attempt>)
    requires AllMatch(tests, results)
    ensures FailedSizesSay(DetailForFailed(results), tests) && !Has(results, Answered)
  {
    MatchedSkips(tests, results);
  }

  // ---------- the search ----------

  /** A search that went on was not cut short at its last test. */
  predicate WentOn(env: Env, tests: seq<Tested>, c: Clock) {
    tests == [] || !(AllLost(tests[|tests| - 1].attempts) && SawCancel(env, c))
  }

  lemma MatchedLast(tests: seq<Tested>, results: seq<Attempt>)
    requires AllMatch(tests, results) && tests != []
    ensures tests[|tests| - 1].attempts != [] && !Terminal(tests[|tests| - 1].attempts[|tests[|tests| - 1].attempts| - 1].status)
  {
    assert Matches(tests[|tests| - 1], results[|tests| - 1]);
  }

  /** Cut off before a size, or run out of sizes. */
  lemma EndSettles(env: Env, expectedMin: int, tests: seq<Tested>, results: seq<Attempt>, samples: seq<int>, c: Clock, n: nat)
    requires AllMatch(tests, results) && |tests| <= n && (if |tests| == n then WentOn(env, tests, c) else SawCancel(env, c))
    ensures forall t <- tests :: t.attempts != []
    ensures |tests| < n ==> SearchSettles(env, expectedMin, Inconclusively(samples), c, tests, n, samples)
    ensures |tests| == n ==> SearchSettles(env, expectedMin, Classified(results, expectedMin, samples).(error := true), c, tests, n, samples)
  {
    MatchedSkips(tests, results);
    if tests != [] { MatchedLast(tests, results); }
    FailedDetail(tests, results);
  }

  lemma AnswerSettles(env: Env, expectedMin: int, done: seq<Tested>, results: seq<Attempt>, samples: seq<int>, t: Tested, a: Attempt, c: Clock, n: nat)
    requires AllMatch(done, results) && t.attempts != [] && a == t.attempts[|t.attempts| - 1] && a.status == Answered && a.payloadSize == t.size
    ensures (forall u <- done + [t] :: u.attempts != [])
    ensures SearchSettles(env, expectedMin, Classified(results + [a], expectedMin, Sampled(samples, a)), c, done + [t], n, samples)
  {
    MatchedSkips(done, results);
    assert (done + [t])[..|done|] == done && (done + [t])[|done|] == t;
    ClassifyAfterSkips(results, a, expectedMin);
    LargerDetail(done, results);
  }

  /** What one size leads to, by the attempts at it. */
  lemma SizeSettles(env: Env, expectedMin: int, done: seq<Tested>, results: seq<Attempt>, samples: seq<int>, t: Tested, a: Attempt, c: Clock, n: nat)
    requires AllMatch(done, results) && Producible(t.attempts) && a == Classify(t.attempts) && |done| < n
    requires a.payloadSize == t.size && (a.rtt > 0 ==> a.status == Answered)
    ensures var p, tests := AfterSize(env, expectedMin, results + [a], Sampled(samples, a), a, c), done + [t];
      && (forall u <- tests :: u.attempts != [])
      && if p.Stop? then SearchSettles(env, expectedMin, p.result, p.clock, tests, n, samples)
         else p.samples == samples && AllMatch(tests, p.results) && WentOn(env, tests, p.clock)
  {
    ClassifyReports(t.attempts);
    MatchedSkips(done, results);
    var tests, k := done + [t], |done|;
    assert tests[k] == t && |tests| - 1 == k;
    if a.status == Answered {
      AnswerSettles(env, expectedMin, done, results, samples, t, a, c, n);
    } else if !Terminal(a.status) {
      forall i | 0 <= i < |tests| ensures Matches(tests[i], (results + [a])[i]) {
        if i < k { assert Matches(done[i], results[i]); }
      }
      if a.status != TimedOut { NotLost(t.attempts, a.status); }
    }
  }

  lemma NotLost(attempts: seq<Attempt>, status: Status)
    requires attempts != [] && Reported(status, attempts) && (status == TooLarge || status == LocalTooLarge)
    ensures !AllLost(attempts)
  {
  }

  predicate Settled(env: Env, expectedMin: int, end: (Result, Clock), tests: seq<Tested>, n: nat, samples: seq<int>) {
    (forall t <- tests :: t.attempts != []) && SearchSettles(env, expectedMin, end.0, end.1, tests, n, samples)
  }

  function TestOf(env: Env, retries: nat, size: int, c: Clock): Tested {
    Tested(size, Attempts(env, WithDF(env, size), retries, c.Check()).0)
  }

  /** One size of the search: it settles the result, or the search goes on with one more matching test. */
  lemma TrySettles(env: Env, retries: nat, expectedMin: int, size: int, done: seq<Tested>, results: seq<Attempt>, samples: seq<int>, c: Clock, n: nat)
    requires Echoes(env) && retries > 0 && AllMatch(done, results) && |done| < n && !Cancelled(env, c)
    ensures var p, tests := TrySize(env, retries, expectedMin, size, results, samples, c), done + [TestOf(env, retries, size, c)];
      if p.Stop? then Settled(env, expectedMin, (p.result, p.clock), tests, n, samples)
      else p.samples == samples && AllMatch(tests, p.results) && WentOn(env, tests, p.clock)
  {
    LoopsProduceProducible(env, WithDF(env, size), retries, c.Check());
    RetriedEchoes(env, size, retries, c.Check());
    var run := Retried(env, WithDF(env, size), retries, c.Check());
    SizeSettles(env, expectedMin, done, results, samples, TestOf(env, retries, size, c), run.0, run.1, n);
  }

  lemma Unfolds(env: Env, retries: nat, expectedMin: int, sizes: seq<int>, results: seq<Attempt>, samples: seq<int>, c: Clock, p: Progress)
    requires sizes != [] && !Cancelled(env, c) && p == TrySize(env, retries, expectedMin, sizes[0], results, samples, c)
    ensures StepDown(env, retries, expectedMin, sizes, results, samples, c) ==
      if p.Stop? then (p.result, p.clock) else StepDown(env, retries, expectedMin, sizes[1..], p.results, p.samples, p.clock)
    ensures Tests(env, retries, expectedMin, sizes, results, samples, c) ==
      [TestOf(env, retries, sizes[0], c)] + if p.Stop? then [] else Tests(env, retries, expectedMin, sizes[1..], p.results, p.samples, p.clock)
  {
  }

  lemma CutOffSettles(env: Env, retries: nat, expectedMin: int, sizes: seq<int>, done: seq<Tested>, results: seq<Attempt>, samples: seq<int>, c: Clock)
    requires AllMatch(done, results) && WentOn(env, done, c) && (sizes == [] || Cancelled(env, c))
    ensures Tests(env, retries, expectedMin, sizes, results, samples, c) == []
    ensures Settled(env, expectedMin, StepDown(env, retries, expectedMin, sizes, results, samples, c), done, |done| + |sizes|, samples)
  {
    EndSettles(env, expectedMin, done, results, samples, if sizes == [] then c else c.Check(), |done| + |sizes|);
  }

  lemma {:induction false} StepDownSettles(env: Env, retries: nat, expectedMin: int, sizes: seq<int>, done: seq<Tested>, results: seq<Attempt>, samples: seq<int>, c: Clock, tests: seq<Tested>, end: (Result, Clock), n: nat)
    requires Echoes(env) && retries > 0 && AllMatch(done, results) && WentOn(env, done, c) && n == |done| + |sizes|
    requires tests == done + Tests(env, retries, expectedMin, sizes, results, samples, c)
    requires end == StepDown(env, retries, expectedMin, sizes, results, samples, c)
    ensures Settled(env, expectedMin, end, tests, n, samples)
    decreases |sizes|
  {
    if sizes == [] || Cancelled(env, c) {
      CutOffSettles(env, retries, expectedMin, sizes, done, results, samples, c);
      assert tests == done;
    } else {
      var p, t := TrySize(env, retries, expectedMin, sizes[0], results, samples, c), TestOf(env, retries, sizes[0], c);
      Unfolds(env, retries, expectedMin, sizes, results, samples, c, p);
      TrySettles(env, retries, expectedMin, sizes[0], done, results, samples, c, n);
      if p.Next? {
        assert tests == done + [t] + Tests(env, retries, expectedMin, sizes[1..], p.results, p.samples, p.clock);
        StepDownSettles(env, retries, expectedMin, sizes[1..], done + [t], p.results, p.samples, p.clock, tests, end, n);
      } else {
        assert tests == done + [t];
      }
    }
  }

  /** A test asks for the size at its place, and its attempts are the backend's answers to successive calls. */
  predicate IsTest(env: Env, t: Tested, size: int, call: nat) {
    t.size == size && forall j | 0 <= j < |t.attempts| :: t.attempts[j] == env.df(call + j, size)
  }

  ghost predicate IsSomeTest(env: Env, t: Tested, size: int) { exists call: nat :: IsTest(env, t, size, call) }

  /** The tests are of the configured sizes, from the first on, in their order. */
  ghost predicate AreTests(env: Env, tests: seq<Tested>, sizes: seq<int>) {
    tests == [] || (sizes != [] && IsSomeTest(env, tests[0], sizes[0]) && AreTests(env, tests[1..], sizes[1..]))
  }

  lemma FirstTest(env: Env, retries: nat, size: int, c: Clock)
    requires retries > 0
    ensures IsSomeTest(env, TestOf(env, retries, size, c), size)
  {
    LoopsProduceProducible(env, WithDF(env, size), retries, c.Check());
    assert IsTest(env, TestOf(env, retries, size, c), size, c.Check().calls);
  }

  lemma {:induction false} TestsAreOfSizes(env: Env, retries: nat, expectedMin: int, sizes: seq<int>, results: seq<Attempt>, samples: seq<int>, c: Clock, tests: seq<Tested>)
    requires retries > 0 && tests == Tests(env, retries, expectedMin, sizes, results, samples, c)
    ensures AreTests(env, tests, sizes)
    decreases |sizes|
  {
    if sizes != [] && !Cancelled(env, c) {
      var p := TrySize(env, retries, expectedMin, sizes[0], results, samples, c);
      FirstTest(env, retries, sizes[0], c);
      Unfolds(env, retries, expectedMin, sizes, results, samples, c, p);
      if p.Next? {
        TestsAreOfSizes(env, retries, expectedMin, sizes[1..], p.results, p.samples, p.clock, tests[1..]);
      }
    }
  }

  /** The sanity attempts of a probe. */
  function SanityOf(env: Env, o: ProbeOptions): seq<Attempt> {
    Attempts(env, env.small, if o.mtuRetries >= 1 then o.mtuRetries else 3, Clock(0, 1)).0
  }

  lemma SanitySettled(env: Env, o: ProbeOptions, attempts: seq<Attempt>)
    requires o.icmpPayloadSizes != [] && env.resolves && env.cancelAt != Some(0) && attempts == SanityOf(env, o)
    ensures attempts != []
    ensures attempts[|attempts| - 1].status != Answered ==> SanitySettles(env, Outcome(env, o).0, Outcome(env, o).1, attempts)
  {
    var retries := EffectiveRetries(o.mtuRetries);
    LoopsProduceProducible(env, env.small, retries, Clock(0, 1));
    ClassifyReports(attempts);
    var sanity := Classify(attempts);
    if !Terminal(sanity.status) && sanity.status != TimedOut { NotLost(attempts, sanity.status); }
  }

  /** An answered sanity check hands over to the search. */
  lemma SanityHandsOver(env: Env, o: ProbeOptions, sanity: seq<Attempt>) returns (c: Clock)
    requires o.icmpPayloadSizes != [] && env.resolves && env.cancelAt != Some(0)
    requires sanity == SanityOf(env, o) && sanity != [] && sanity[|sanity| - 1].status == Answered
    ensures var retries, samples := EffectiveRetries(o.mtuRetries), Sampled([], sanity[|sanity| - 1]);
      && Outcome(env, o) == StepDown(env, retries, o.expectedMinMTU, o.icmpPayloadSizes, [], samples, c)
      && TestsOf(env, o) == Tests(env, retries, o.expectedMinMTU, o.icmpPayloadSizes, [], samples, c)
  {
    var retries := EffectiveRetries(o.mtuRetries);
    LoopsProduceProducible(env, env.small, retries, Clock(0, 1));
    ClassifyReports(sanity);
    c := Attempts(env, env.small, retries, Clock(0, 1)).1;
    assert Retried(env, env.small, retries, Clock(0, 0).Check()) == (sanity[|sanity| - 1], c);
  }

  lemma SearchSettled(env: Env, o: ProbeOptions, sanity: seq<Attempt>)
    requires Echoes(env) && o.icmpPayloadSizes != [] && env.resolves && env.cancelAt != Some(0)
    requires sanity == SanityOf(env, o) && sanity != [] && sanity[|sanity| - 1].status == Answered
    ensures AreTests(env, TestsOf(env, o), o.icmpPayloadSizes)
    ensures Settled(env, o.expectedMinMTU, Outcome(env, o), TestsOf(env, o), |o.icmpPayloadSizes|, Sampled([], sanity[|sanity| - 1]))
  {
    var c := SanityHandsOver(env, o, sanity);
    var sizes, retries, samples := o.icmpPayloadSizes, EffectiveRetries(o.mtuRetries), Sampled([], sanity[|sanity| - 1]);
    TestsAreOfSizes(env, retries, o.expectedMinMTU, sizes, [], samples, c, TestsOf(env, o));
    StepDownSettles(env, retries, o.expectedMinMTU, sizes, [], [], samples, c, TestsOf(env, o), Outcome(env, o), |sizes|);
  }

  /** What settles a probe that got as far as its sanity check. */
  ghost predicate ProbeSettles(env: Env, o: ProbeOptions, end: (Result, Clock), sanity: seq<Attempt>) {
    sanity != [] &&
      var last := sanity[|sanity| - 1];
      if last.status != Answered then SanitySettles(env, end.0, end.1, sanity)
      else
        AreTests(env, TestsOf(env, o), o.icmpPayloadSizes) &&
        Settled(env, o.expectedMinMTU, end, TestsOf(env, o), |o.icmpPayloadSizes|, if last.rtt > 0 then [last.rtt] else [])
  }

  /** A probe without sizes, without an address or cancelled from the start says so. */
  lemma UnstartedIsSettled(env: Env, o: ProbeOptions)
    ensures var r := Outcome(env, o).0;
      && (o.icmpPayloadSizes == [] ==> Says(r, ErrorState, InternalError))
      && (o.icmpPayloadSizes != [] && !env.resolves ==> Says(r, ErrorState, ResolveError))
      && (o.icmpPayloadSizes != [] && env.resolves && env.cancelAt == Some(0) ==> Says(r, Degraded, Inconclusive))
  {
  }

  /** For every echoing backend and every cancellation point the whole result of any other probe is settled by the
      answers to the attempts it made and the cancellation it saw. */
  lemma ResultIsSettled(env: Env, o: ProbeOptions)
    requires Echoes(env) && o.icmpPayloadSizes != [] && env.resolves && env.cancelAt != Some(0)
    ensures ProbeSettles(env, o, Outcome(env, o), SanityOf(env, o))
  {
    var sanity := SanityOf(env, o);
    SanitySettled(env, o, sanity);
    if sanity[|sanity| - 1].status == Answered { SearchSettled(env, o, sanity); }
  }
}
