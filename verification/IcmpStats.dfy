/** The ICMP echo statistics (internal/probe/icmp.go), with durations in whole nanoseconds and ratios exact. */
module IcmpStats {
  import opened Averages
  import opened Targets

  /** One echo: its round trip, whether the request went out, and whether it failed. */
  datatype Echo = Echo(rtt: int, sent: bool, err: bool)

  /** What sendEcho promises: a reply is only returned for a request that was sent, after a non-negative time. */
  predicate Honest(e: Echo) { !e.err ==> e.sent && e.rtt >= 0 }

  /** The statistics reported; `variance` is what the standard deviation is the root of, in square nanoseconds. */
  datatype Stats = Stats(loss: real, success: bool, replies: nat, avg: int, variance: real)

  function SentCount(echoes: seq<Echo>): nat {
    if echoes == [] then 0 else
      var n := |echoes| - 1;
      SentCount(echoes[..n]) + if echoes[n].sent then 1 else 0
  }

  /** The round trips of the replies, in order. */
  function Replies(echoes: seq<Echo>): seq<int> {
    if echoes == [] then [] else
      var n := |echoes| - 1;
      Replies(echoes[..n]) + if echoes[n].err then [] else [echoes[n].rtt]
  }

  function SumSquares(xs: seq<int>): real {
    if xs == [] then 0.0 else
      var x := xs[|xs| - 1] as real;
      SumSquares(xs[..|xs| - 1]) + x * x
  }

  /** The count, the sum and the sum of squares of the replies. */
  predicate Sums(xs: seq<int>, n: nat, s: int, q: real) { n == |xs| && s == Sum(xs) && q == SumSquares(xs) }

  /** The squared deviations from `m`, summed. */
  function Deviations(xs: seq<int>, m: real): real {
    if xs == [] then 0.0 else
      var d := xs[|xs| - 1] as real - m;
      Deviations(xs[..|xs| - 1], m) + d * d
  }

  /** `c` is the mean square less the square of `avg`: what the probe computes from its sum of squares. */
  predicate ComputedOf(c: real, squares: real, n: nat, avg: int) { c * n as real == squares - n as real * (avg as real * avg as real) }

  /** `avg` is the mean rounded down. */
  predicate FlooredOf(avg: int, sum: int, n: nat) { avg * n <= sum < avg * n + n }

  lemma {:induction false} RepliesWereSent(echoes: seq<Echo>)
    requires forall i | 0 <= i < |echoes| :: Honest(echoes[i])
    ensures |Replies(echoes)| <= SentCount(echoes)
    ensures forall i | 0 <= i < |Replies(echoes)| :: Replies(echoes)[i] >= 0
  {
    if echoes != [] {
      assert Honest(echoes[|echoes| - 1]);
      RepliesWereSent(echoes[..|echoes| - 1]);
    }
  }

  /** The sum of squared deviations, from the sum of squares, the sum, the count and the centre. */
  function Expanded(q: real, s: real, n: real, m: real): real { q - 2.0 * m * s + n * m * m }

  /** The part of the squared deviations that is linear in the values. */
  function Linear(xs: seq<int>, m2: real, mm: real): real {
    if xs == [] then 0.0 else Linear(xs[..|xs| - 1], m2, mm) + (mm - m2 * xs[|xs| - 1] as real)
  }

  lemma SquareExpands(x: real, m: real)
    ensures (x - m) * (x - m) == x * x + (m * m - 2.0 * m * x)
  {
  }

  lemma {:induction false} DeviationsSplit(xs: seq<int>, m: real)
    ensures Deviations(xs, m) == SumSquares(xs) + Linear(xs, 2.0 * m, m * m)
  {
    if xs != [] {
      DeviationsSplit(xs[..|xs| - 1], m);
      SquareExpands(xs[|xs| - 1] as real, m);
    }
  }

  lemma Distribute(a: real, b: real, c: real)
    ensures a * (b + c) == a * b + a * c
  {
  }

  lemma {:induction false} LinearSums(xs: seq<int>, m2: real, mm: real)
    ensures Linear(xs, m2, mm) == mm * |xs| as real - m2 * Sum(xs) as real
  {
    if xs != [] {
      var k := |xs| - 1;
      LinearSums(xs[..k], m2, mm);
      Distribute(mm, k as real, 1.0);
      Distribute(m2, Sum(xs[..k]) as real, xs[k] as real);
    }
  }

  lemma ExpandedIs(q: real, s: real, n: real, m: real)
    ensures Expanded(q, s, n, m) == q + ((m * m) * n - (2.0 * m) * s)
  {
  }

  lemma DeviationsExpand(xs: seq<int>, m: real, n: nat, s: int, q: real)
    requires Sums(xs, n, s, q)
    ensures Deviations(xs, m) == Expanded(q, s as real, n as real, m)
  {
    DeviationsSplit(xs, m);
    LinearSums(xs, 2.0 * m, m * m);
    ExpandedIs(q, s as real, n as real, m);
  }

  lemma SquareNonNegative(x: real)
    ensures x * x >= 0.0
  {
  }

  lemma {:induction false} DeviationsNonNegative(xs: seq<int>, m: real)
    ensures Deviations(xs, m) >= 0.0
  {
    if xs != [] {
      DeviationsNonNegative(xs[..|xs| - 1], m);
      SquareNonNegative(xs[|xs| - 1] as real - m);
    }
  }

  lemma MultiplyKeepsOrder(a: real, b: real, c: real)
    requires a < b && c > 0.0
    ensures a * c < b * c
  {
  }

  /** Around the mean the deviations are the sum of squares less the count times the squared mean. */
  lemma Centred(q: real, s: real, n: real, m: real)
    requires m * n == s
    ensures Expanded(q, s, n, m) == q - n * (m * m)
  {
    assert m * s == n * (m * m);
  }

  lemma Cancel(n: real, x: real, y: real)
    requires n > 0.0 && x * n == y * n
    ensures x == y
  {
    assert (x - y) * n == 0.0;
  }

  lemma CentredSquares(q: real, s: real, n: real, m: real)
    requires n > 0.0 && m * n == s && q - n * (m * m) >= 0.0
    ensures n * q >= s * s
  {
    var d := q - n * (m * m);
    assert n * d >= 0.0;
    assert s * s == n * (n * (m * m));
    assert n * q == n * d + n * (n * (m * m));
  }

  /** Flooring moves the square of a mean down by less than 2 avg + 1. */
  lemma FlooredMean(m: real, a: real)
    requires 0.0 <= a <= m < a + 1.0
    ensures 0.0 <= m * m - a * a < 2.0 * a + 1.0
  {
    var d := m - a;
    assert m * m - a * a == d * (2.0 * a) + d * d;
    assert 0.0 <= d * (2.0 * a) <= 2.0 * a;
    assert 0.0 <= d * d < 1.0 by { if d > 0.0 { MultiplyKeepsOrder(d, 1.0, d); } }
  }

  lemma MeanBounds(s: real, n: real, m: real, a: real)
    requires n > 0.0 && m * n == s && a * n <= s < (a + 1.0) * n
    ensures a <= m < a + 1.0
  {
    if m < a { MultiplyKeepsOrder(m, a, n); }
    if a + 1.0 < m { MultiplyKeepsOrder(a + 1.0, m, n); }
  }

  lemma FloorOfMean(s: int, n: nat, avg: int, m: real)
    requires n > 0 && FlooredOf(avg, s, n) && m * n as real == s as real
    ensures avg as real <= m < avg as real + 1.0
  {
    assert (avg * n) as real == avg as real * n as real;
    assert avg as real * n as real + n as real == (avg as real + 1.0) * n as real;
    MeanBounds(s as real, n as real, m, avg as real);
  }

  lemma VarianceGap(q: real, n: real, m: real, v: real, c: real, a: real)
    requires n > 0.0 && v * n == q - n * (m * m) && c * n == q - n * (a * a)
    ensures c - v == m * m - a * a
  {
    assert (c - v) * n == (m * m - a * a) * n;
    Cancel(n, c - v, m * m - a * a);
  }

  lemma NonNegativeQuotient(v: real, n: real)
    requires n > 0.0 && v * n >= 0.0
    ensures v >= 0.0
  {
  }

  lemma VarianceBounds(q: real, s: int, n: nat, m: real, v: real, c: real, avg: nat)
    requires n > 0 && m * n as real == s as real && FlooredOf(avg, s, n)
    requires v * n as real == Expanded(q, s as real, n as real, m) >= 0.0 && ComputedOf(c, q, n, avg)
    ensures 0.0 <= v <= c < v + 2.0 * avg as real + 1.0
  {
    var r, a := n as real, avg as real;
    assert a <= m < a + 1.0 by { FloorOfMean(s, n, avg, m); }
    assert v * r == q - r * (m * m) by { Centred(q, s as real, r, m); }
    assert c - v == m * m - a * a by { VarianceGap(q, r, m, v, c, a); }
    assert v >= 0.0 by { NonNegativeQuotient(v, r); }
    FlooredMean(m, a);
  }

  lemma SquareBounds(q: real, s: real, n: real)
    requires n > 0.0 && Expanded(q, s, n, s / n) >= 0.0
    ensures n * q >= s * s
  {
    var m := s / n;
    assert m * n == s;
    Centred(q, s, n, m);
    CentredSquares(q, s, n, m);
  }

  /** The count times the sum of squares is at least the square of the sum. */
  lemma SumOfSquaresBound(xs: seq<int>, n: nat, s: int, q: real)
    requires Sums(xs, n, s, q)
    ensures n as real * q >= s as real * s as real
  {
    if n > 0 {
      var m := s as real / n as real;
      DeviationsExpand(xs, m, n, s, q);
      DeviationsNonNegative(xs, m);
      SquareBounds(q, s as real, n as real);
    }
  }

  /** In exact arithmetic the computed variance `c` is never negative, and exceeds the population variance
      `v` (the mean of the squared deviations from the mean `m`) by less than 2 avg + 1 square nanoseconds. */
  lemma ComputedVariance(xs: seq<int>, n: nat, s: int, q: real, avg: int, m: real, v: real, c: real)
    requires xs != [] && (forall i | 0 <= i < |xs| :: xs[i] >= 0) && Sums(xs, n, s, q)
    requires m * n as real == s as real && v * n as real == Deviations(xs, m)
    requires FlooredOf(avg, s, n) && ComputedOf(c, q, n, avg)
    ensures 0.0 <= v <= c < v + 2.0 * avg as real + 1.0
  {
    assert avg >= 0 by { NonNegativeAverage(xs, avg); }
    assert Deviations(xs, m) == Expanded(q, s as real, n as real, m) by { DeviationsExpand(xs, m, n, s, q); }
    assert Deviations(xs, m) >= 0.0 by { DeviationsNonNegative(xs, m); }
    VarianceBounds(q, s, n, m, v, c, avg);
  }

  lemma NonNegativeAverage(xs: seq<int>, avg: int)
    requires xs != [] && (forall i | 0 <= i < |xs| :: xs[i] >= 0) && FlooredOf(avg, Sum(xs), |xs|)
    ensures avg >= 0
  {
    SumIsNonNegative(xs);
    Scaled(0, avg, |xs|);
  }

  lemma {:induction false} SumIsNonNegative(xs: seq<int>)
    requires forall i | 0 <= i < |xs| :: xs[i] >= 0
    ensures Sum(xs) >= 0
  {
    if xs != [] { SumIsNonNegative(xs[..|xs| - 1]); }
  }

  // ---------- the sequence ----------

  /** How many echoes are tried: all of them, or those before the context is cancelled. */
  function Tried(pingCount: int, cancelAt: Option<nat>): nat {
    var count := if pingCount > 0 then pingCount else 0;
    if cancelAt.Some? && cancelAt.value < count then cancelAt.value else count
  }

  /** An echo is tried exactly if it is among those asked for and the context was not cancelled by then. */
  lemma TriedIff(pingCount: int, cancelAt: Option<nat>, k: nat)
    ensures k < Tried(pingCount, cancelAt) <==> k < pingCount && (cancelAt.Some? ==> k < cancelAt.value)
  {
  }

  function Echoes(echo: nat -> Echo, n: nat): seq<Echo> { seq(n, i requires 0 <= i < n => echo(i)) }

  /** The accumulation: requests sent, replies, their sum and sum of squares. */
  datatype Totals = Totals(sent: nat, received: nat, sum: int, squares: real)

  function Counted(t: Totals, e: Echo): Totals {
    var sent := if e.sent then t.sent + 1 else t.sent;
    if e.err then t.(sent := sent)
    else Totals(sent, t.received + 1, t.sum + e.rtt, t.squares + e.rtt as real * e.rtt as real)
  }

  function TotalsOf(echoes: seq<Echo>): Totals {
    if echoes == [] then Totals(0, 0, 0, 0.0) else Counted(TotalsOf(echoes[..|echoes| - 1]), echoes[|echoes| - 1])
  }

  lemma EchoAdds(echo: nat -> Echo, k: nat)
    ensures TotalsOf(Echoes(echo, k + 1)) == Counted(TotalsOf(Echoes(echo, k)), echo(k))
  {
    assert Echoes(echo, k + 1)[..k] == Echoes(echo, k);
  }

  /** The totals are those of the replies. */
  lemma {:induction false} TotalsAre(echoes: seq<Echo>)
    ensures var t, xs := TotalsOf(echoes), Replies(echoes); t.sent == SentCount(echoes) && Sums(xs, t.received, t.sum, t.squares)
  {
    if echoes != [] {
      var before, e := echoes[..|echoes| - 1], echoes[|echoes| - 1];
      TotalsAre(before);
      var xs := Replies(before);
      if e.err {
        assert Replies(echoes) == xs;
      } else {
        assert (xs + [e.rtt])[..|xs|] == xs;
      }
    }
  }

  /** `cancelAt` is the first echo whose context check or interval wait finds the context cancelled. */
  method RunICMPEchoSequence(pingCount: int, cancelAt: Option<nat>, echo: nat -> Echo) returns (r: Stats)
    requires forall i: nat :: Honest(echo(i))
    ensures StatsOf(r, TotalsOf(Echoes(echo, Tried(pingCount, cancelAt))))
  {
    var t := Accumulate(pingCount, cancelAt, echo);
    r := Summarise(t, Echoes(echo, Tried(pingCount, cancelAt)));
  }

  /** The body of the loop. */
  method CountEcho(t0: Totals, e: Echo) returns (t: Totals)
    ensures t == Counted(t0, e)
  {
    t := t0;
    if e.sent { t := t.(sent := t.sent + 1); }
    if e.err { return; }
    t := t.(received := t.received + 1, sum := t.sum + e.rtt, squares := t.squares + e.rtt as real * e.rtt as real);
  }

  method Accumulate(pingCount: int, cancelAt: Option<nat>, echo: nat -> Echo) returns (t: Totals)
    ensures t == TotalsOf(Echoes(echo, Tried(pingCount, cancelAt)))
  {
    t := Totals(0, 0, 0, 0.0);
    var k := 0;
    while k < pingCount && cancelAt != Some(k)
      invariant 0 <= k <= Tried(pingCount, cancelAt)
      invariant t == TotalsOf(Echoes(echo, k))
      decreases pingCount - k
    {
      EchoAdds(echo, k);
      t := CountEcho(t, echo(k));
      k := k + 1;
    }
  }

  /** What follows the loop. */
  method Summarise(t: Totals, ghost echoes: seq<Echo>) returns (r: Stats)
    requires t == TotalsOf(echoes) && forall i | 0 <= i < |echoes| :: Honest(echoes[i])
    ensures StatsOf(r, t)
  {
    RepliesWereSent(echoes);
    TotalsAre(echoes);
    r := Stats(1.0, false, 0, 0, 0.0);
    if t.sent == 0 { return; }
    var loss := PacketLoss(t.sent, t.received);
    r := r.(loss := loss);
    if t.received == 0 { return; }
    var avg := Average(t.sum, t.received);
    r := r.(replies := t.received, success := true, avg := avg);
    if t.received >= 2 {
      var variance := ComputeVariance(Replies(echoes), t.received, t.sum, t.squares, avg);
      r := r.(variance := variance);
    }
  }

  method PacketLoss(sent: nat, received: nat) returns (loss: real)
    requires received <= sent && sent > 0
    ensures LossOf(loss, sent, received)
  {
    loss := (sent - received) as real / sent as real;
  }

  method Average(total: int, n: int) returns (avg: int)
    requires n > 0
    ensures FlooredOf(avg, total, n)
  {
    avg := total / n;
    assert avg * n + total % n == total;
  }

  /** The computed variance of the replies `xs`. The clamp at zero never acts. */
  method ComputeVariance(ghost xs: seq<int>, n: nat, ghost s: int, q: real, avg: int) returns (variance: real)
    requires n >= 2 && (forall i | 0 <= i < |xs| :: xs[i] >= 0) && Sums(xs, n, s, q) && FlooredOf(avg, s, n)
    ensures ComputedOf(variance, q, n, avg)
  {
    variance := q / n as real - avg as real * avg as real;
    FromQuotient(q, n as real, avg as real);
    ClampNeverActs(xs, n, s, q, avg, variance);
    if variance < 0.0 { variance := 0.0; }
  }

  lemma ClampNeverActs(xs: seq<int>, n: nat, s: int, q: real, avg: int, c: real)
    requires n > 0 && (forall i | 0 <= i < |xs| :: xs[i] >= 0) && Sums(xs, n, s, q) && FlooredOf(avg, s, n) && ComputedOf(c, q, n, avg)
    ensures c >= 0.0
  {
    var m := Divide(s as real, n as real);
    var v := Divide(Deviations(xs, m), n as real);
    ComputedVariance(xs, n, s, q, avg, m, v, c);
  }

  lemma Divide(s: real, n: real) returns (q: real)
    requires n > 0.0
    ensures q * n == s
  {
    q := s / n;
  }

  lemma FromQuotient(q: real, n: real, a: real)
    requires n > 0.0
    ensures (q / n - a * a) * n == q - n * (a * a)
  {
    assert q / n * n == q;
  }

  /** What the statistics say of the totals. */
  predicate StatsOf(r: Stats, t: Totals) {
    && LossOf(r.loss, t.sent, t.received) && (r.success <==> t.received > 0) && r.replies == t.received
    && (if t.received > 0 then FlooredOf(r.avg, t.sum, t.received) else r.avg == 0)
    && (if t.received > 1 then ComputedOf(r.variance, t.squares, t.received, r.avg) else r.variance == 0.0)
  }

  /** The share of the requests sent that were lost; everything is, if nothing was sent. */
  predicate LossOf(loss: real, sent: nat, received: nat) {
    if sent == 0 then loss == 1.0 else loss * sent as real == (sent - received) as real
  }

  lemma LossRange(loss: real, sent: real, received: real)
    requires 0.0 <= received <= sent && sent > 0.0 && loss * sent == sent - received
    ensures 0.0 <= loss <= 1.0 && (loss < 1.0 <==> received > 0.0)
  {
    assert (1.0 - loss) * sent == received;
  }

  lemma LossIsShare(loss: real, sent: nat, received: nat)
    requires LossOf(loss, sent, received) && received <= sent
    ensures 0.0 <= loss <= 1.0 && (loss < 1.0 <==> received > 0)
  {
    if sent > 0 { LossRange(loss, sent as real, received as real); }
  }

  /** For any echoes in which a reply implies a send, the loss is a share and below one exactly on success. */
  lemma LossIsSound(r: Stats, echoes: seq<Echo>, t: Totals)
    requires t == TotalsOf(echoes) && StatsOf(r, t) && forall i | 0 <= i < |echoes| :: Honest(echoes[i])
    ensures 0.0 <= r.loss <= 1.0 && (r.loss < 1.0 <==> r.success) && (r.success <==> Replies(echoes) != [])
  {
    assert t.received == |Replies(echoes)| <= t.sent by {
      TotalsAre(echoes);
      RepliesWereSent(echoes);
    }
    LossIsShare(r.loss, t.sent, t.received);
  }

  /** The reported average lies between any bounds on the round trips. */
  lemma AverageIsSound(r: Stats, echoes: seq<Echo>, t: Totals, lo: int, hi: int)
    requires t == TotalsOf(echoes) && StatsOf(r, t) && r.success
    requires forall i | 0 <= i < |Replies(echoes)| :: lo <= Replies(echoes)[i] <= hi
    ensures lo <= r.avg <= hi
  {
    TotalsAre(echoes);
    AverageBetween(Replies(echoes), r.avg, lo, hi);
  }
}
