/** Confidence calibration: how far asserted confidence and outcomes lie apart, on exact values. */
module Calibration {
  import opened Prelude
  import opened RealArithmetic

  datatype Sample = Sample(sampleId: string, sourceId: string, modelId: string, confidence: real, correct: bool)

  datatype SampleError = SampleIdRequired | SourceIdRequired | ModelIdRequired | ConfidenceOutOfRange

  datatype CalibrationError = BinsTooSmall | BadSample(why: SampleError)

  datatype ReportStatus = ReportReady | Insufficient

  datatype Report = Report(
    sampleCount: nat, empiricalAccuracy: real, brier: real, expectedCalibrationError: real,
    overconfidenceGap: real, status: ReportStatus)

  /** A confidence with the outcome it was about: 1.0 for correct, 0.0 for not. */
  datatype Pair = Pair(confidence: real, outcome: real)

  function SampleComplaint(s: Sample): Option<SampleError> {
    if Blank(s.sampleId) then Some(SampleIdRequired)
    else if Blank(s.sourceId) then Some(SourceIdRequired)
    else if Blank(s.modelId) then Some(ModelIdRequired)
    else if !(0.0 <= s.confidence <= 1.0) then Some(ConfidenceOutOfRange)
    else None
  }

  /** A sample with its ids and a confidence between nought and one. */
  predicate Sound(s: Sample) {
    !Blank(s.sampleId) && !Blank(s.sourceId) && !Blank(s.modelId) && 0.0 <= s.confidence <= 1.0
  }

  /** The first thing wrong with a sample. */
  predicate Unsound(s: Sample, why: SampleError) {
    match why
    case SampleIdRequired => Blank(s.sampleId)
    case SourceIdRequired => !Blank(s.sampleId) && Blank(s.sourceId)
    case ModelIdRequired => !Blank(s.sampleId) && !Blank(s.sourceId) && Blank(s.modelId)
    case ConfidenceOutOfRange =>
      && !Blank(s.sampleId) && !Blank(s.sourceId) && !Blank(s.modelId)
      && (s.confidence < 0.0 || 1.0 < s.confidence)
  }

  function Outcome(s: Sample): real {
    if s.correct then 1.0 else 0.0
  }

  function Pairs(samples: seq<Sample>): (r: seq<Pair>)
    ensures |r| == |samples|
    ensures forall i :: 0 <= i < |samples| ==>
      r[i].confidence == samples[i].confidence && r[i] == Pair(r[i].confidence, if samples[i].correct then 1.0 else 0.0)
  {
    if samples == [] then []
    else Pairs(samples[..|samples| - 1]) + [Pair(samples[|samples| - 1].confidence, Outcome(samples[|samples| - 1]))]
  }

  /** Confidences and outcomes lie between nought and one. */
  ghost predicate UnitPairs(ps: seq<Pair>) {
    forall i :: 0 <= i < |ps| ==> 0.0 <= ps[i].confidence <= 1.0 && 0.0 <= ps[i].outcome <= 1.0
  }

  function Abs(x: real): real {
    if x < 0.0 then -x else x
  }

  function Max(x: real, y: real): real {
    if x < y then y else x
  }

  function Min(x: real, y: real): real {
    if x < y then x else y
  }

  function ConfidenceSum(ps: seq<Pair>): real {
    if ps == [] then 0.0 else ConfidenceSum(ps[..|ps| - 1]) + ps[|ps| - 1].confidence
  }

  function OutcomeSum(ps: seq<Pair>): real {
    if ps == [] then 0.0 else OutcomeSum(ps[..|ps| - 1]) + ps[|ps| - 1].outcome
  }

  function Squared(p: Pair): real {
    (p.confidence - p.outcome) * (p.confidence - p.outcome)
  }

  function SquareSum(ps: seq<Pair>): real {
    if ps == [] then 0.0 else SquareSum(ps[..|ps| - 1]) + Squared(ps[|ps| - 1])
  }

  /** The bin a confidence falls into. */
  function BinOf(confidence: real, bins: nat): (b: int)
    requires bins > 0
  {
    var raw := (confidence * bins as real).Floor;
    if raw < bins - 1 then raw else bins - 1
  }

  /** The bins cut the unit interval into equal parts: a confidence falls into the part it reaches and does not fill,
      and full confidence into the last. */
  predicate Falls(confidence: real, b: int, bins: nat) {
    var parts := confidence * bins as real;
    b as real <= parts && (parts < b as real + 1.0 || b == bins - 1)
  }

  /** The pairs of one bin, in their order. */
  function Bin(ps: seq<Pair>, b: int, bins: nat): seq<Pair>
    requires bins > 0
  {
    if ps == [] then []
    else
      var last := ps[|ps| - 1];
      Bin(ps[..|ps| - 1], b, bins) + if Falls(last.confidence, b, bins) then [last] else []
  }

  /** Every confidence falls into one bin, the one the source computes. */
  lemma BinInRange(confidence: real, bins: nat)
    requires 0.0 <= confidence <= 1.0 && bins > 0
    ensures 0 <= BinOf(confidence, bins) < bins
    ensures forall b :: 0 <= b < bins ==> (Falls(confidence, b, bins) <==> b == BinOf(confidence, bins))
  {
    NonNegativeProduct(confidence, bins as real);
  }

  /** A bin's share of the calibration error, as the source works it out. */
  function BinError(bucket: seq<Pair>, n: nat): real
    requires n > 0
  {
    if bucket == [] then 0.0
    else
      var size := |bucket| as real;
      (size / n as real) * Abs(ConfidenceSum(bucket) / size - OutcomeSum(bucket) / size)
  }

  function ShareOf(n: nat): seq<Pair> -> real
    requires n > 0
  {
    bucket => BinError(bucket, n)
  }

  /** A measure of buckets, added up over the first `k` bins. */
  function SumBins(measure: seq<Pair> -> real, ps: seq<Pair>, k: nat, bins: nat): real
    requires bins > 0
  {
    if k == 0 then 0.0 else SumBins(measure, ps, k - 1, bins) + measure(Bin(ps, k - 1, bins))
  }

  /** The report, from the sums over all samples and the calibration error. */
  function ReportFrom(count: nat, confidence: real, outcome: real, square: real, error: real): Report
    requires count > 0
  {
    var n := count as real;
    Report(count, outcome / n, square / n, error, Max(0.0, confidence / n - outcome / n),
           if count >= 6 then ReportReady else Insufficient)
  }

  function ReportOf(ps: seq<Pair>, bins: nat): Report
    requires bins > 0
  {
    if ps == [] then Report(0, 0.0, 1.0, 1.0, 1.0, Insufficient)
    else
      ReportFrom(|ps|, ConfidenceSum(ps), OutcomeSum(ps), SquareSum(ps), SumBins(ShareOf(|ps|), ps, bins, bins))
  }

  // ---- Sums over bins --------------------------------------------------------------------

  ghost function Distance(p: Pair): real {
    Abs(p.confidence - p.outcome)
  }

  ghost function DistanceSum(ps: seq<Pair>): real {
    if ps == [] then 0.0 else DistanceSum(ps[..|ps| - 1]) + Distance(ps[|ps| - 1])
  }

  ghost function SizeOf(ps: seq<Pair>): real {
    |ps| as real
  }

  ghost function GapOf(ps: seq<Pair>): real {
    ConfidenceSum(ps) - OutcomeSum(ps)
  }

  ghost function GapSize(ps: seq<Pair>): real {
    Abs(ConfidenceSum(ps) - OutcomeSum(ps))
  }

  /** Each pair adds its own amount to the measure. */
  ghost predicate Additive(measure: seq<Pair> -> real, amount: Pair -> real) {
    measure([]) == 0.0 && forall ps, p :: measure(ps + [p]) == measure(ps) + amount(p)
  }

  lemma {:induction false} BinAppend(ps: seq<Pair>, p: Pair, b: int, bins: nat)
    requires bins > 0
    ensures Bin(ps + [p], b, bins) ==
      Bin(ps, b, bins) + if Falls(p.confidence, b, bins) then [p] else []
  {
    assert (ps + [p])[..|ps|] == ps;
  }

  /** One more pair lands in one bin and leaves the others alone. */
  lemma {:induction false} OneMorePair(measure: seq<Pair> -> real, amount: Pair -> real, ps: seq<Pair>, p: Pair,
                                       b: int, k: nat, bins: nat)
    requires k <= bins && bins > 0 && Additive(measure, amount)
    requires forall c :: 0 <= c < bins ==> (Falls(p.confidence, c, bins) <==> c == b)
    ensures SumBins(measure, ps + [p], k, bins) == SumBins(measure, ps, k, bins) + if 0 <= b < k then amount(p) else 0.0
    decreases k
  {
    if k == 0 {
    } else {
      OneMorePair(measure, amount, ps, p, b, k - 1, bins);
      BinAppend(ps, p, k - 1, bins);
      assert Bin(ps, k - 1, bins) + [] == Bin(ps, k - 1, bins);
    }
  }

  lemma {:induction false} EmptyBins(measure: seq<Pair> -> real, k: nat, bins: nat)
    requires bins > 0 && measure([]) == 0.0
    ensures SumBins(measure, [], k, bins) == 0.0
  {
    if k == 0 {
    } else {
      EmptyBins(measure, k - 1, bins);
    }
  }

  /** The bins hold every pair exactly once: whatever pairs add up to, be it their number, their gap or
      their distance, the bins add up to the same. */
  lemma {:induction false} BinsPartition(measure: seq<Pair> -> real, amount: Pair -> real, ps: seq<Pair>, bins: nat)
    requires bins > 0 && UnitPairs(ps) && Additive(measure, amount)
    ensures SumBins(measure, ps, bins, bins) == measure(ps)
  {
    if ps == [] {
      EmptyBins(measure, bins, bins);
    } else {
      var init, p := ps[..|ps| - 1], ps[|ps| - 1];
      assert ps == init + [p];
      BinsPartition(measure, amount, init, bins);
      BinInRange(p.confidence, bins);
      OneMorePair(measure, amount, init, p, BinOf(p.confidence, bins), bins, bins);
    }
  }

  lemma AppendedSums(ps: seq<Pair>, p: Pair)
    ensures ConfidenceSum(ps + [p]) == ConfidenceSum(ps) + p.confidence
    ensures OutcomeSum(ps + [p]) == OutcomeSum(ps) + p.outcome
    ensures DistanceSum(ps + [p]) == DistanceSum(ps) + Distance(p)
  {
    assert (ps + [p])[..|ps|] == ps;
  }

  /** Number, gap and distance of the samples are those of the bins together. */
  lemma SamplesByBins(ps: seq<Pair>, bins: nat)
    requires bins > 0 && UnitPairs(ps)
    ensures SumBins(SizeOf, ps, bins, bins) == |ps| as real
    ensures SumBins(GapOf, ps, bins, bins) == GapOf(ps)
    ensures SumBins(DistanceSum, ps, bins, bins) == DistanceSum(ps)
  {
    var gap := (p: Pair) => p.confidence - p.outcome;
    forall qs: seq<Pair>, p: Pair
      ensures GapOf(qs + [p]) == GapOf(qs) + gap(p) && DistanceSum(qs + [p]) == DistanceSum(qs) + Distance(p)
    {
      AppendedSums(qs, p);
    }
    BinsPartition(SizeOf, p => 1.0, ps, bins);
    BinsPartition(GapOf, gap, ps, bins);
    BinsPartition(DistanceSum, Distance, ps, bins);
  }

  lemma {:induction false} GapWithinDistance(ps: seq<Pair>)
    ensures GapSize(ps) <= DistanceSum(ps)
  {
    if ps == [] {
    } else {
      GapWithinDistance(ps[..|ps| - 1]);
    }
  }

  lemma OneMoreGap(gap: real, sizes: real, distance: real, g: real, d: real)
    requires Abs(gap) <= sizes <= distance && Abs(g) <= d
    ensures Abs(gap + g) <= sizes + Abs(g) <= distance + d
  {
  }

  /** The sizes of the bins' gaps together lie between the size of the whole gap and the whole distance. */
  lemma {:induction false} GapsBetween(ps: seq<Pair>, k: nat, bins: nat)
    requires bins > 0
    ensures Abs(SumBins(GapOf, ps, k, bins)) <= SumBins(GapSize, ps, k, bins) <= SumBins(DistanceSum, ps, k, bins)
    decreases k
  {
    if k == 0 {
    } else {
      GapsBetween(ps, k - 1, bins);
      GapWithinDistance(Bin(ps, k - 1, bins));
      OneMoreGap(SumBins(GapOf, ps, k - 1, bins), SumBins(GapSize, ps, k - 1, bins),
                 SumBins(DistanceSum, ps, k - 1, bins), GapOf(Bin(ps, k - 1, bins)), DistanceSum(Bin(ps, k - 1, bins)));
    }
  }

  // ---- From sums to averages -------------------------------------------------------------

  /** A bucket's averages cancel out: its share is the size of its gap over the number of all samples. */
  lemma BinErrorIsGap(bucket: seq<Pair>, n: nat)
    requires n > 0
    ensures BinError(bucket, n) == GapSize(bucket) / n as real
  {
    if bucket != [] {
      ShareOfAverages(ConfidenceSum(bucket), OutcomeSum(bucket), |bucket| as real, n as real);
    }
  }

  lemma ShareOfAverages(a: real, b: real, size: real, n: real)
    requires size > 0.0 && n > 0.0
    ensures (size / n) * Abs(a / size - b / size) == Abs(a - b) / n
  {
    var d := (a - b) / size;
    assert a / size - b / size == d;
    assert d * size == a - b;
    assert Abs(d) * size == Abs(d * size);
    assert (size / n) * Abs(d) == (Abs(d) * size) / n;
  }

  /** The calibration error is the bins' gap sizes over the number of samples. */
  lemma {:induction false} ErrorIsMeanGap(ps: seq<Pair>, k: nat, bins: nat, n: nat)
    requires bins > 0 && n > 0
    ensures SumBins(ShareOf(n), ps, k, bins) == SumBins(GapSize, ps, k, bins) / n as real
    decreases k
  {
    if k == 0 {
    } else {
      ErrorIsMeanGap(ps, k - 1, bins, n);
      var bucket := Bin(ps, k - 1, bins);
      BinErrorIsGap(bucket, n);
      DivideSum(SumBins(GapSize, ps, k - 1, bins), GapSize(bucket), n as real);
    }
  }

  // ---- The square of a sum and the sum of squares ----------------------------------------

  /** What any list of unit pairs adds up to: `d` distance, `q` squares, `o` outcomes over `n` pairs. */
  ghost predicate Bounded(n: real, o: real, d: real, q: real) {
    && 0.0 <= o <= n && 0.0 <= d <= n && 0.0 <= q <= n
    && d * d <= n * q
  }

  lemma {:induction false} SumsAreBounded(ps: seq<Pair>)
    requires UnitPairs(ps)
    ensures Bounded(|ps| as real, OutcomeSum(ps), DistanceSum(ps), SquareSum(ps))
  {
    if ps == [] {
    } else {
      var k := |ps| - 1;
      SumsAreBounded(ps[..k]);
      SquaredIsDistance(ps[k]);
      BoundedStep(k as real, OutcomeSum(ps[..k]), DistanceSum(ps[..k]), SquareSum(ps[..k]), ps[k].outcome,
                  Distance(ps[k]),
                  |ps| as real, OutcomeSum(ps), DistanceSum(ps), SquareSum(ps), Squared(ps[k]));
    }
  }

  lemma SquaredIsDistance(p: Pair)
    requires 0.0 <= p.confidence <= 1.0 && 0.0 <= p.outcome <= 1.0
    ensures 0.0 <= Distance(p) <= 1.0 && Squared(p) == Distance(p) * Distance(p)
  {
  }

  lemma BoundedStep(n: real, o: real, d: real, q: real, y: real, x: real,
                    n': real, o': real, d': real, q': real, xx: real)
    requires Bounded(n, o, d, q) && (n == 0.0 || n >= 1.0)
    requires 0.0 <= y <= 1.0 && 0.0 <= x <= 1.0 && xx == x * x
    requires n' == n + 1.0 && o' == o + y && d' == d + x && q' == q + xx
    ensures Bounded(n', o', d', q')
  {
    UnitSquare(x);
    CrossTerm(d, q, n, x);
    SquareStep(d, q, n, x);
  }

  // ---- The inequalities ------------------------------------------------------------------

  /** What the figures of a report are: the share of correct samples, the mean square of the differences, the sum of
      the bins' gaps over the number of samples, and by how much confidence exceeds the outcomes on average; with at
      least six samples it is ready. */
  ghost predicate Figures(r: Report, ps: seq<Pair>, bins: nat)
    requires bins > 0
  {
    && r.sampleCount == |ps| && (r.status.ReportReady? <==> |ps| >= 6)
    && if ps == [] then
         r.empiricalAccuracy == 0.0 && r.brier == r.expectedCalibrationError == r.overconfidenceGap == 1.0
       else
         Averages(r, |ps| as real, ConfidenceSum(ps), OutcomeSum(ps), SquareSum(ps), SumBins(GapSize, ps, bins, bins))
  }

  predicate Averages(r: Report, n: real, confidence: real, outcome: real, square: real, gaps: real) {
    && n * r.empiricalAccuracy == outcome && n * r.brier == square && n * r.expectedCalibrationError == gaps
    && n * r.overconfidenceGap == Max(0.0, confidence - outcome)
  }

  /** The report's figures are these. */
  lemma ReportHasFigures(ps: seq<Pair>, bins: nat)
    requires bins > 0
    ensures Figures(ReportOf(ps, bins), ps, bins)
  {
    if ps != [] {
      ErrorIsMeanGap(ps, bins, bins, |ps|);
      FiguresFrom(|ps|, ConfidenceSum(ps), OutcomeSum(ps), SquareSum(ps), SumBins(GapSize, ps, bins, bins));
    }
  }

  lemma FiguresFrom(count: nat, confidence: real, outcome: real, square: real, gaps: real)
    requires count > 0
    ensures
      var r := ReportFrom(count, confidence, outcome, square, gaps / count as real);
      && r.sampleCount == count && (r.status.ReportReady? <==> count >= 6)
      && Averages(r, count as real, confidence, outcome, square, gaps)
  {
    var n := count as real;
    TimesQuotient(outcome, n);
    TimesQuotient(square, n);
    TimesQuotient(gaps, n);
    TimesPositivePart(confidence, outcome, n);
  }

  lemma TimesQuotient(x: real, n: real)
    requires n > 0.0
    ensures n * (x / n) == x
  {
  }

  lemma TimesPositivePart(a: real, b: real, n: real)
    requires n > 0.0
    ensures n * Max(0.0, a / n - b / n) == Max(0.0, a - b)
  {
    TimesQuotient(a, n);
    TimesQuotient(b, n);
    assert n * (a / n - b / n) == a - b;
    if a - b < 0.0 {
      assert a / n - b / n < 0.0;
    }
  }

  /** How the figures of a report bound each other. */
  ghost predicate Coherent(r: Report) {
    && 0.0 <= r.overconfidenceGap <= r.expectedCalibrationError <= 1.0
    && r.expectedCalibrationError * r.expectedCalibrationError <= r.brier <= 1.0
    && 0.0 <= r.empiricalAccuracy <= 1.0
  }

  /** Rounding to four places keeps order, moves no figure by more than half of the last place, and leaves 0 and 1
      as they are. */
  ghost predicate Rounds(round4: real -> real) {
    && (forall x, y :: x <= y ==> round4(x) <= round4(y))
    && (forall x :: -0.00005 <= round4(x) - x <= 0.00005)
    && round4(0.0) == 0.0 && round4(1.0) == 1.0
  }

  /** The report as it is given out; the one on no samples has nothing to round. */
  function Rounded(round4: real -> real, r: Report): Report {
    if r.sampleCount == 0 then r
    else
      Report(r.sampleCount, round4(r.empiricalAccuracy), round4(r.brier), round4(r.expectedCalibrationError),
             round4(r.overconfidenceGap), r.status)
  }

  /** What rounding leaves of coherence: all of it but a trace in the comparison with the Brier score. */
  ghost predicate NearlyCoherent(r: Report) {
    && 0.0 <= r.overconfidenceGap <= r.expectedCalibrationError <= 1.0
    && r.expectedCalibrationError * r.expectedCalibrationError <= r.brier + 0.0002 && 0.0 <= r.brier <= 1.0
    && 0.0 <= r.empiricalAccuracy <= 1.0
  }

  lemma RoundedIsCoherent(round4: real -> real, r: Report)
    requires Rounds(round4) && Coherent(r)
    ensures NearlyCoherent(Rounded(round4, r))
  {
    NonNegativeProduct(r.expectedCalibrationError, r.expectedCalibrationError);
    RoundedMoves(round4, r.expectedCalibrationError);
    RoundedMoves(round4, r.brier);
    RoundedMoves(round4, r.empiricalAccuracy);
    RoundedOrder(round4, r.overconfidenceGap, r.expectedCalibrationError);
    MovedIsCoherent(r, Rounded(round4, r));
  }

  predicate Moved(x: real, y: real) {
    0.0 <= y <= 1.0 && -0.00005 <= y - x <= 0.00005
  }

  lemma RoundedMoves(round4: real -> real, x: real)
    requires Rounds(round4) && 0.0 <= x <= 1.0
    ensures Moved(x, round4(x))
  {
  }

  lemma RoundedOrder(round4: real -> real, x: real, y: real)
    requires Rounds(round4) && 0.0 <= x <= y
    ensures 0.0 <= round4(x) <= round4(y)
  {
  }

  lemma MovedIsCoherent(r: Report, c: Report)
    requires Coherent(r)
    requires c == r ||
      (Moved(r.expectedCalibrationError, c.expectedCalibrationError) && Moved(r.brier, c.brier)
       && Moved(r.empiricalAccuracy, c.empiricalAccuracy)
       && 0.0 <= c.overconfidenceGap <= c.expectedCalibrationError)
    ensures NearlyCoherent(c)
  {
    NonNegativeProduct(r.expectedCalibrationError, r.expectedCalibrationError);
    if c != r {
      SquareMoves(r.expectedCalibrationError, c.expectedCalibrationError, r.brier, c.brier);
    }
  }

  /** A square at most `b` stays so, up to a trace, when both are moved a little. */
  lemma SquareMoves(x: real, y: real, b: real, c: real)
    requires 0.0 <= x <= 1.0 && 0.0 <= y <= 1.0 && y <= x + 0.00005
    requires x * x <= b && b <= c + 0.00005
    ensures y * y <= c + 0.0002
  {
    var sum, move := y + x, y - x;
    MultiplyOrder(move, 0.00005, sum);
    assert sum * 0.00005 <= 0.0001;
    SquareDifference(x, y, sum, move);
    AddTraces(x * x, y * y, sum * move, sum * 0.00005, b, c);
  }

  lemma SquareDifference(x: real, y: real, sum: real, move: real)
    requires sum == y + x && move == y - x
    ensures y * y == x * x + sum * move
  {
  }

  lemma AddTraces(xx: real, yy: real, p: real, q: real, b: real, c: real)
    requires yy == xx + p && p <= q <= 0.0001 && xx <= b <= c + 0.00005
    ensures yy <= c + 0.0002
  {
  }

  lemma CoherentFrom(count: nat, confidence: real, outcome: real, d: real, q: real, gaps: real)
    requires count > 0 && Bounded(count as real, outcome, d, q)
    requires Abs(confidence - outcome) <= gaps <= d
    ensures Coherent(ReportFrom(count, confidence, outcome, q, gaps / count as real))
  {
    var n := count as real;
    MeanSquare(gaps, d, q, n);
    MeanInUnit(gaps, n);
    MeanInUnit(q, n);
    MeanInUnit(outcome, n);
    GapOverCount(confidence, outcome, gaps, n);
  }

  lemma GapOverCount(a: real, b: real, gaps: real, n: real)
    requires n > 0.0 && Abs(a - b) <= gaps
    ensures 0.0 <= Max(0.0, a / n - b / n) <= gaps / n
  {
    assert a / n - b / n == (a - b) / n;
    DivideOrder(a - b, gaps, n);
    DivideOrder(0.0, gaps, n);
  }

  /** For every sample list and bin count: the overconfidence gap is at most the calibration error, the
      square of the calibration error is at most the Brier score, and none of them exceeds one. */
  lemma CalibrationInequalities(ps: seq<Pair>, bins: nat)
    requires bins > 0 && UnitPairs(ps)
    ensures Coherent(ReportOf(ps, bins))
  {
    if ps != [] {
      SamplesByBins(ps, bins);
      GapsBetween(ps, bins, bins);
      ErrorIsMeanGap(ps, bins, bins, |ps|);
      SumsAreBounded(ps);
      CoherentFrom(|ps|, ConfidenceSum(ps), OutcomeSum(ps), DistanceSum(ps), SquareSum(ps),
                   SumBins(GapSize, ps, bins, bins));
    }
  }

  // ---- The report, computed --------------------------------------------------------------

  lemma {:induction false} PairsAreUnit(samples: seq<Sample>)
    requires forall i :: 0 <= i < |samples| ==> Sound(samples[i])
    ensures UnitPairs(Pairs(samples))
  {
    if samples == [] {
    } else {
      PairsAreUnit(samples[..|samples| - 1]);
    }
  }

  /** Buckets the pairs one after the other. */
  method Bucket(ps: seq<Pair>, bins: nat) returns (buckets: seq<seq<Pair>>)
    requires bins > 0 && UnitPairs(ps)
    ensures |buckets| == bins && forall b :: 0 <= b < bins ==> buckets[b] == Bin(ps, b, bins)
  {
    buckets := seq(bins, b => []);
    for i := 0 to |ps|
      invariant |buckets| == bins
      invariant forall b :: 0 <= b < bins ==> buckets[b] == Bin(ps[..i], b, bins)
    {
      assert ps[..i + 1][..i] == ps[..i];
      BinInRange(ps[i].confidence, bins);
      var b := BinOf(ps[i].confidence, bins);
      buckets := buckets[b := buckets[b] + [ps[i]]];
    }
    assert ps[..|ps|] == ps;
  }

  /** The exact figures of at least one pair. */
  method Measure(ps: seq<Pair>, bins: nat) returns (r: Report)
    requires ps != [] && bins > 0 && UnitPairs(ps)
    ensures r == ReportOf(ps, bins)
  {
    var buckets := Bucket(ps, bins);
    var ece := AddUp(ps, buckets, ShareOf(|ps|));
    r := ReportFrom(|ps|, ConfidenceSum(ps), OutcomeSum(ps), SquareSum(ps), ece);
  }

  /** Adds up the shares of the buckets; an empty bucket has none. */
  method AddUp(ghost ps: seq<Pair>, buckets: seq<seq<Pair>>, share: seq<Pair> -> real) returns (total: real)
    requires buckets != [] && forall b :: 0 <= b < |buckets| ==> buckets[b] == Bin(ps, b, |buckets|)
    requires share([]) == 0.0
    ensures total == SumBins(share, ps, |buckets|, |buckets|)
  {
    total := 0.0;
    for b := 0 to |buckets|
      invariant total == SumBins(share, ps, b, |buckets|)
    {
      if buckets[b] != [] {
        total := total + share(buckets[b]);
      }
    }
  }

  ghost predicate FirstUnsound(samples: seq<Sample>, i: nat, why: SampleError) {
    i < |samples| && Unsound(samples[i], why) && forall j :: 0 <= j < i ==> Sound(samples[j])
  }

  lemma ComplaintByFields(s: Sample)
    ensures SampleComplaint(s).None? <==> Sound(s)
    ensures SampleComplaint(s).Some? ==> Unsound(s, SampleComplaint(s).value)
  {
  }

  method CheckSamples(samples: seq<Sample>) returns (error: Option<SampleError>)
    ensures error.None? <==> forall i :: 0 <= i < |samples| ==> Sound(samples[i])
    ensures error.Some? ==> exists i :: FirstUnsound(samples, i, error.value)
  {
    for i := 0 to |samples|
      invariant forall j :: 0 <= j < i ==> Sound(samples[j])
    {
      ComplaintByFields(samples[i]);
      error := SampleComplaint(samples[i]);
      if error.Some? {
        assert FirstUnsound(samples, i, error.value);
        return;
      }
    }
    error := None;
  }

  /** The report of a sample list: refused for fewer than two bins or an unsound sample, and otherwise
      the rounded figures, which bound each other. */
  method CalibrationReport(samples: seq<Sample>, bins: int, round4: real -> real)
    returns (r: Result<Report, CalibrationError>)
    ensures r == Err(BinsTooSmall) <==> bins < 2
    ensures r.Ok? <==> bins >= 2 && forall i :: 0 <= i < |samples| ==> Sound(samples[i])
    ensures bins >= 2 && r.Err? ==> r.error.BadSample? && exists i :: FirstUnsound(samples, i, r.error.why)
    ensures r.Ok? ==> r.value == Rounded(round4, ReportOf(Pairs(samples), bins))
    ensures r.Ok? ==> Figures(ReportOf(Pairs(samples), bins), Pairs(samples), bins)
    ensures r.Ok? && Rounds(round4) ==> NearlyCoherent(r.value)
  {
    if bins < 2 {
      return Err(BinsTooSmall);
    }
    var error := CheckSamples(samples);
    if error.Some? {
      return Err(BadSample(error.value));
    }
    PairsAreUnit(samples);
    ReportIsNearlyCoherent(Pairs(samples), bins, round4);
    ReportHasFigures(Pairs(samples), bins);
    if samples == [] {
      return Ok(Report(0, 0.0, 1.0, 1.0, 1.0, Insufficient));
    }
    var report := Measure(Pairs(samples), bins);
    r := Ok(Rounded(round4, report));
  }

  lemma ReportIsNearlyCoherent(ps: seq<Pair>, bins: nat, round4: real -> real)
    requires bins >= 2 && UnitPairs(ps)
    ensures Coherent(ReportOf(ps, bins))
    ensures Rounds(round4) ==> NearlyCoherent(Rounded(round4, ReportOf(ps, bins)))
  {
    CalibrationInequalities(ps, bins);
    if Rounds(round4) {
      RoundedIsCoherent(round4, ReportOf(ps, bins));
    }
  }
}
