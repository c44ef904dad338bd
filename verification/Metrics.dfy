/** The average metrics of the service. A running sum and count are folded into a single sample when
    either grows too large, so the report is an average that forgets. Floats are reals here. */
module Metrics {
  import opened Wrappers

  const LIMIT: int := 1_000_000

  datatype Average = Average(numerator: real, denominator: int)

  /** What one call adds. The program's callers leave the denominator at its default, 1. */
  datatype Sample = Sample(numerator: real, denominator: int)

  // ---- one metric as a value --------------------------------------------------------------

  predicate Flaps(a: Average) {
    a.numerator >= LIMIT as real || a.denominator >= LIMIT
  }

  /** None is Python's ZeroDivisionError. */
  function Added(a: Average, x: Sample): Option<Average> {
    if !Flaps(a) then Some(Average(a.numerator + x.numerator, a.denominator + x.denominator))
    else if a.denominator == 0 then None
    else Some(Average(a.numerator / a.denominator as real + x.numerator, 1 + x.denominator))
  }

  function Reported(a: Average): real {
    if a.denominator != 0 then a.numerator / a.denominator as real else 0.0
  }

  /** A metric after a sequence of samples; a failed update leaves it alone. */
  function After(samples: seq<Sample>): Average {
    if samples == [] then Average(0.0, 0)
    else
      var before := After(samples[..|samples| - 1]);
      match Added(before, samples[|samples| - 1])
      case Some(a) => a
      case None => before
  }

  // ---- the metrics in place ---------------------------------------------------------------

  class AverageMetric {
    var numerator: real
    var denominator: int

    constructor ()
      ensures State() == Average(0.0, 0)
    {
      numerator, denominator := 0.0, 0;
    }

    function State(): Average
      reads this
    {
      Average(numerator, denominator)
    }
  }

  datatype Update = Updated | WrongName | DivisionByZero

  class MetricsManager {
    var averages: map<string, AverageMetric>

    /** Different names have different metrics. */
    ghost predicate Valid()
      reads this
    {
      forall m, n :: m in averages && n in averages && m != n ==> averages[m] != averages[n]
    }

    constructor (names: seq<string>)
      ensures Valid() && forall n :: n in averages <==> n in names
      ensures forall n :: n in averages ==> fresh(averages[n]) && averages[n].State() == After([])
    {
      averages := map[];
      new;
      for i := 0 to |names|
        invariant Valid() && forall n :: n in averages <==> n in names[..i]
        invariant forall n :: n in averages ==> fresh(averages[n]) && averages[n].State() == Average(0.0, 0)
      {
        var metric := new AverageMetric();
        averages := averages[names[i] := metric];
        assert names[..i + 1] == names[..i] + [names[i]];
      }
    }

    method UpdateAverageMetric(name: string, numerator: real, denominator: int) returns (result: Update)
      requires Valid()
      modifies if name in averages then {averages[name]} else {}
      ensures Valid() && averages == old(averages)
      ensures result == WrongName <==> name !in averages
      ensures name in averages ==>
                match Added(old(averages[name].State()), Sample(numerator, denominator))
                case Some(a) => result == Updated && averages[name].State() == a
                case None => result == DivisionByZero && averages[name].State() == old(averages[name].State())
      ensures forall n :: n in averages && n != name ==> averages[n].State() == old(averages[n].State())
    {
      if name !in averages {
        return WrongName;
      }
      var info := averages[name];
      var metricNumerator, metricDenominator := info.numerator, info.denominator;
      if metricNumerator >= LIMIT as real || metricDenominator >= LIMIT {
        if metricDenominator == 0 {
          return DivisionByZero;
        }
        metricNumerator := metricNumerator / metricDenominator as real;
        metricDenominator := 1;
      }
      info.numerator := metricNumerator + numerator;
      info.denominator := metricDenominator + denominator;
      return Updated;
    }

    /** The value column of the report. */
    method AverageOf(name: string) returns (value: Option<real>)
      requires Valid()
      ensures value == if name in averages then Some(Reported(averages[name].State())) else None
    {
      if name !in averages {
        return None;
      }
      var info := averages[name];
      return Some(if info.denominator != 0 then info.numerator / info.denominator as real else 0.0);
    }
  }

  // ---- what the report means --------------------------------------------------------------

  /** The quotient n / d lies between lo and hi; stated without division. */
  predicate Between(n: real, d: int, lo: real, hi: real) {
    lo * d as real <= n <= hi * d as real
  }

  lemma SumBetween(n: real, d: int, m: real, e: int, lo: real, hi: real)
    requires Between(n, d, lo, hi) && Between(m, e, lo, hi)
    ensures Between(n + m, d + e, lo, hi)
  {
    var x, y := d as real, e as real;
    assert (d + e) as real == x + y;
    Distribute(lo, x, y);
    Distribute(hi, x, y);
  }

  lemma Distribute(a: real, x: real, y: real)
    ensures a * (x + y) == a * x + a * y
  {
  }

  lemma Cancel(a: real, b: real, r: real)
    requires r > 0.0 && a * r <= b * r
    ensures a <= b
  {
  }

  lemma QuotientBetween(n: real, d: int, lo: real, hi: real)
    requires d > 0 && Between(n, d, lo, hi)
    ensures lo <= n / d as real <= hi && Between(n / d as real, 1, lo, hi)
  {
    var q, r := n / d as real, d as real;
    assert q * r == n;
    Cancel(lo, q, r);
    Cancel(q, hi, r);
  }

  /** Every sample has a positive denominator and a quotient between lo and hi. */
  predicate AllWithin(samples: seq<Sample>, lo: real, hi: real) {
    forall i :: 0 <= i < |samples| ==>
        samples[i].denominator >= 1 && Between(samples[i].numerator, samples[i].denominator, lo, hi)
  }

  lemma {:induction false} StaysWithin(samples: seq<Sample>, lo: real, hi: real)
    requires AllWithin(samples, lo, hi)
    ensures var a := After(samples);
            if samples == [] then a == Average(0.0, 0)
            else a.denominator > 0 && Between(a.numerator, a.denominator, lo, hi)
  {
    if samples != [] {
      var before, x := samples[..|samples| - 1], samples[|samples| - 1];
      StaysWithin(before, lo, hi);
      var a := After(before);
      assert x.denominator >= 1 && Between(x.numerator, x.denominator, lo, hi);
      AddedWithin(a, x, lo, hi);
    }
  }

  lemma AddedWithin(a: Average, x: Sample, lo: real, hi: real)
    requires a == Average(0.0, 0) || (a.denominator > 0 && Between(a.numerator, a.denominator, lo, hi))
    requires x.denominator >= 1 && Between(x.numerator, x.denominator, lo, hi)
    ensures Added(a, x).Some?
    ensures Added(a, x).value.denominator > 0
    ensures Between(Added(a, x).value.numerator, Added(a, x).value.denominator, lo, hi)
  {
    hide Between;
    if Flaps(a) {
      QuotientBetween(a.numerator, a.denominator, lo, hi);
      SumBetween(a.numerator / a.denominator as real, 1, x.numerator, x.denominator, lo, hi);
    } else if a.denominator > 0 {
      SumBetween(a.numerator, a.denominator, x.numerator, x.denominator, lo, hi);
    }
  }

  /** Through any number of resets the report lies between the least and the greatest sample, and
      no update ever divides by zero. */
  lemma ReportBetweenSamples(samples: seq<Sample>, lo: real, hi: real)
    requires samples != [] && AllWithin(samples, lo, hi)
    ensures lo <= Reported(After(samples)) <= hi
    ensures forall x :: Added(After(samples), x).Some?
  {
    hide Between;
    StaysWithin(samples, lo, hi);
    QuotientBetween(After(samples).numerator, After(samples).denominator, lo, hi);
  }

  /** One more sample of denominator 1, at most m. */
  lemma AddedSmall(a: Average, x: real, m: real)
    requires 0.0 <= x <= m && 0.0 <= a.numerator && a.denominator <= LIMIT
    requires Flaps(a) ==>
            a.denominator > 0 && a.numerator / a.denominator as real <= m && 0.0 <= a.numerator / a.denominator as real
    ensures Added(a, Sample(x, 1)).Some?
    ensures var b := Added(a, Sample(x, 1)).value;
            && b.denominator <= LIMIT && 0.0 <= b.numerator
                  && (b.numerator <= 2.0 * m || b.numerator <= LIMIT as real + m)
  {
  }

  /** Nothing grows without bound when every sample counts once and is at most m. */
  lemma {:induction false} NeverLarge(samples: seq<Sample>, m: real)
    requires forall i :: 0 <= i < |samples| ==> samples[i].denominator == 1 && 0.0 <= samples[i].numerator <= m
    requires m >= 0.0
    ensures After(samples).denominator <= LIMIT && 0.0 <= After(samples).numerator
    ensures After(samples).numerator <= 2.0 * m || After(samples).numerator <= LIMIT as real + m
  {
    if samples != [] {
      var before, x := samples[..|samples| - 1], samples[|samples| - 1];
      NeverLarge(before, m);
      UnitSamples(before, m);
      StaysWithin(before, 0.0, m);
      var a := After(before);
      hide Between, Added;
      if Flaps(a) {
        QuotientBetween(a.numerator, a.denominator, 0.0, m);
      }
      AddedSmall(a, x.numerator, m);
      assert x == Sample(x.numerator, 1);
    }
  }

  lemma UnitSamples(samples: seq<Sample>, m: real)
    requires forall i :: 0 <= i < |samples| ==> samples[i].denominator == 1 && 0.0 <= samples[i].numerator <= m
    ensures AllWithin(samples, 0.0, m)
  {
  }

  function Total(samples: seq<Sample>): Average {
    if samples == [] then Average(0.0, 0)
    else
      var before, x := Total(samples[..|samples| - 1]), samples[|samples| - 1];
      Average(before.numerator + x.numerator, before.denominator + x.denominator)
  }

  /** Until the limit is first reached the report is the true average. */
  lemma {:induction false} TrueBelowLimit(samples: seq<Sample>)
    requires forall k :: 0 <= k < |samples| ==> !Flaps(Total(samples[..k]))
    ensures After(samples) == Total(samples)
  {
    if samples != [] {
      var before := samples[..|samples| - 1];
      forall k | 0 <= k < |before| ensures !Flaps(Total(before[..k])) {
        assert before[..k] == samples[..k];
      }
      TrueBelowLimit(before);
    }
  }

  // ---- when the report is the true average ------------------------------------------------

  /** An old average r of weight d and a new sample n of weight w. */
  function Mix(r: real, d: real, n: real, w: real): real
    requires d > 0.0 && w > 0.0
  {
    (r * d + n) / (d + w)
  }

  /** Two weights d and e for the same old average r give the same new average exactly if they are
      equal or the new sample n, of weight w, is the old average itself. */
  lemma SameMix(r: real, d: real, e: real, n: real, w: real)
    requires d > 0.0 && e > 0.0 && w > 0.0
    ensures Mix(r, d, n, w) == Mix(r, e, n, w) <==> d == e || n == r * w
  {
    var u := n - r * w;
    MixIs(r, d, n, w);
    MixIs(r, e, n, w);
    var p, q := u / (d + w), u / (e + w);
    assert p * (d + w) == u && q * (e + w) == u;
    Distribute(p, d, w);
    Distribute(q, e, w);
    if p == q {
      EqualProducts(p, d, e);
    }
  }

  lemma MixIs(r: real, d: real, n: real, w: real)
    requires d + w > 0.0
    ensures (r * d + n) / (d + w) == r + (n - r * w) / (d + w)
  {
    var q := (n - r * w) / (d + w);
    assert q * (d + w) == n - r * w;
    Distribute(r, d, w);
    Unique(r * d + n, d + w, r + q);
  }

  lemma Unique(n: real, d: real, q: real)
    requires d > 0.0 && q * d == n
    ensures n / d == q
  {
  }

  lemma EqualProducts(p: real, d: real, e: real)
    requires p * d == p * e
    ensures p == 0.0 || d == e
  {
    assert p * (d - e) == 0.0;
  }

  /** The weight of the past in the next report. */
  function Weight(a: Average): int {
    if Flaps(a) then 1 else a.denominator
  }

  lemma NextReport(a: Average, x: Sample)
    requires a.denominator > 0 && x.denominator >= 1
    ensures Added(a, x).Some? && Added(a, x).value.denominator > 0
    ensures Reported(Added(a, x).value) == Mix(Reported(a), Weight(a) as real, x.numerator, x.denominator as real)
  {
    var d, w := a.denominator as real, x.denominator as real;
    Quotient(a.numerator, d);
    assert Reported(a) * d == a.numerator;
    if Flaps(a) {
      assert (1 + x.denominator) as real == 1.0 + w;
    } else {
      assert (a.denominator + x.denominator) as real == d + w;
    }
  }

  lemma TrueMix(t: Average, x: Sample)
    requires t.denominator > 0 && x.denominator >= 1
    ensures (t.numerator + x.numerator) / (t.denominator + x.denominator) as real
            == Mix(Reported(t), t.denominator as real, x.numerator, x.denominator as real)
  {
    Quotient(t.numerator, t.denominator as real);
    assert (t.denominator + x.denominator) as real == t.denominator as real + x.denominator as real;
  }

  lemma Quotient(n: real, d: real)
    requires d > 0.0
    ensures (n / d) * d == n
  {
  }

  /** The two averages after one more sample, as mixes of their common past. */
  lemma TwoMixes(a: Average, t: Average, x: Sample)
    requires a.denominator > 0 && t.denominator > 0 && x.denominator >= 1 && Reported(a) == Reported(t)
    ensures Added(a, x).Some?
    ensures Reported(Added(a, x).value) == (t.numerator + x.numerator) / (t.denominator + x.denominator) as real
            <==> Weight(a) == t.denominator || x.numerator == Reported(t) * x.denominator as real
  {
    hide Mix, Reported, Added;
    NextReport(a, x);
    TrueMix(t, x);
    SameMix(Reported(t), Weight(a) as real, t.denominator as real, x.numerator, x.denominator as real);
  }

  /** One update is exact if and only if it does not fold, folds a single sample, or adds the average
      itself. */
  lemma ExactUpdate(a: Average, x: Sample)
    requires a.denominator > 0 && x.denominator >= 1
    ensures Added(a, x).Some?
    ensures Reported(Added(a, x).value) == (a.numerator + x.numerator) / (a.denominator + x.denominator) as real
            <==> !Flaps(a) || a.denominator == 1 || x.numerator == Reported(a) * x.denominator as real
  {
    hide Reported, Added, Flaps;
    TwoMixes(a, a, x);
  }

  predicate AllCount(samples: seq<Sample>) {
    forall i :: 0 <= i < |samples| ==> samples[i].denominator >= 1
  }

  /** Some total of the first j samples, 1 <= j <= k, is at the limit and more than a single unit:
      folding it forgets how many samples it stands for. */
  predicate Folded(samples: seq<Sample>, k: nat)
    requires k <= |samples|
  {
    exists j :: 1 <= j <= k && Flaps(Total(samples[..j])) && Total(samples[..j]).denominator > 1
  }

  lemma FoldedBefore(samples: seq<Sample>, k: nat)
    requires samples != [] && k < |samples|
    ensures Folded(samples[..|samples| - 1], k) <==> Folded(samples, k)
  {
    var before := samples[..|samples| - 1];
    assert forall j :: 0 <= j <= k ==> before[..j] == samples[..j];
  }

  /** The metric still is the true sum and count if and only if nothing has been folded; from the
      first fold on it counts too little. */
  lemma {:induction false} CountsUntilFolded(samples: seq<Sample>)
    requires samples != [] && AllCount(samples)
    ensures 0 < After(samples).denominator <= Total(samples).denominator
    ensures if Folded(samples, |samples| - 1) then After(samples).denominator < Total(samples).denominator
            else After(samples) == Total(samples)
  {
    var before, x := samples[..|samples| - 1], samples[|samples| - 1];
    if before == [] {
      assert Total(before) == After(before) == Average(0.0, 0);
    } else {
      CountsUntilFolded(before);
      FoldedBefore(samples, |before| - 1);
      assert Folded(samples, |before|) <==>
             Folded(samples, |before| - 1) || (Flaps(Total(before)) && Total(before).denominator > 1);
    }
  }

  /** After the first k samples the report is their average. */
  predicate TrueAt(samples: seq<Sample>, k: nat)
    requires k <= |samples|
  {
    Reported(After(samples[..k])) == Reported(Total(samples[..k]))
  }

  /** After every sample the report was the average of all samples so far. */
  predicate AlwaysTrue(samples: seq<Sample>) {
    forall k :: 1 <= k <= |samples| ==> TrueAt(samples, k)
  }

  /** Every sample that comes once something has been folded is the average of those before it. */
  predicate NothingNewOnceFolded(samples: seq<Sample>) {
    forall k :: 1 <= k < |samples| && Folded(samples, k) ==>
      samples[k].numerator == Reported(Total(samples[..k])) * samples[k].denominator as real
  }

  /** The weight of the past is right until something has been folded. */
  lemma WeightUntilFolded(samples: seq<Sample>)
    requires |samples| > 1 && AllCount(samples)
    ensures var before := samples[..|samples| - 1];
            && After(before).denominator > 0 && Total(before).denominator > 0
            && (Folded(samples, |before|) <==> Weight(After(before)) != Total(before).denominator)
  {
    hide After, Total;
    var before := samples[..|samples| - 1];
    CountsUntilFolded(before);
    FoldedBefore(samples, |before| - 1);
    assert Folded(samples, |before|) <==>
           Folded(samples, |before| - 1) || (Flaps(Total(before)) && Total(before).denominator > 1);
  }

  lemma OneMoreReport(samples: seq<Sample>)
    requires |samples| > 1 && AllCount(samples)
    requires var before := samples[..|samples| - 1]; Reported(After(before)) == Reported(Total(before))
    ensures var before, x := samples[..|samples| - 1], samples[|samples| - 1];
            Reported(After(samples)) == Reported(Total(samples)) <==>
            !Folded(samples, |before|) || x.numerator == Reported(Total(before)) * x.denominator as real
  {
    hide Folded, Added;
    var before, x := samples[..|samples| - 1], samples[|samples| - 1];
    WeightUntilFolded(samples);
    TwoMixes(After(before), Total(before), x);
    var t := Total(before);
    assert Total(samples) == Average(t.numerator + x.numerator, t.denominator + x.denominator);
    assert After(samples) == Added(After(before), x).value;
    hide After, Total;
    assert Reported(Total(samples)) == (t.numerator + x.numerator) / (t.denominator + x.denominator) as real;
  }

  /** The report is the true average all along if and only if nothing new is sampled once a total of
      several samples has been folded. */
  lemma {:induction false} ExactlyTrueAverages(samples: seq<Sample>)
    requires AllCount(samples)
    ensures AlwaysTrue(samples) <==> NothingNewOnceFolded(samples)
  {
    if |samples| > 1 {
      var before := samples[..|samples| - 1];
      ExactlyTrueAverages(before);
      TrueBefore(samples);
      NothingNewBefore(samples);
      if AlwaysTrue(before) {
        assert before[..|before|] == before;
        assert TrueAt(before, |before|);
        OneMoreReport(samples);
      }
    } else if |samples| == 1 {
      CountsUntilFolded(samples);
      assert samples[..1] == samples;
    }
  }

  lemma TrueBefore(samples: seq<Sample>)
    requires samples != []
    ensures AlwaysTrue(samples) <==>
            AlwaysTrue(samples[..|samples| - 1]) && Reported(After(samples)) == Reported(Total(samples))
  {
    hide After, Total, Reported;
    var before := samples[..|samples| - 1];
    assert samples[..|samples|] == samples;
    assert TrueAt(samples, |samples|) <==> Reported(After(samples)) == Reported(Total(samples));
    forall k: nat | k <= |before| ensures TrueAt(before, k) <==> TrueAt(samples, k) {
      assert before[..k] == samples[..k];
    }
    hide TrueAt;
  }

  lemma NothingNewBefore(samples: seq<Sample>)
    requires |samples| > 1
    ensures var before, x := samples[..|samples| - 1], samples[|samples| - 1];
            NothingNewOnceFolded(samples) <==>
            NothingNewOnceFolded(before)
            && (Folded(samples, |before|) ==> x.numerator == Reported(Total(before)) * x.denominator as real)
  {
    hide Folded, Total, Reported;
    var before := samples[..|samples| - 1];
    assert forall k :: 0 <= k <= |before| ==> before[..k] == samples[..k];
    forall k: nat | k < |samples| ensures Folded(before, k) <==> Folded(samples, k) {
      FoldedBefore(samples, k);
    }
  }

  /** Three samples are enough to lose the average: one million, then twice nothing, reads as a quarter
      of a million instead of a third. */
  lemma AverageLost() returns (samples: seq<Sample>)
    ensures |samples| == 3 && forall i :: 0 <= i < 3 ==> samples[i].denominator == 1 && samples[i].numerator >= 0.0
    ensures Reported(After(samples)) == 250_000.0 && Reported(Total(samples)) == 1_000_000.0 / 3.0
  {
    var x, y := Sample(1_000_000.0, 1), Sample(0.0, 1);
    samples := [x, y, y];
    assert samples[..2] == [x, y] && [x, y][..1] == [x] && [x][..0] == [];
    assert After([x]) == Total([x]) == Average(1_000_000.0, 1);
    assert After([x, y]) == Total([x, y]) == Average(1_000_000.0, 2);
  }

  /** Before the first sample 0 is reported, and after the first sample that sample. */
  lemma FirstReports(x: real)
    ensures Reported(After([])) == 0.0 && Reported(After([Sample(x, 1)])) == x
  {
    assert [Sample(x, 1)][..0] == [];
    assert After([]) == Average(0.0, 0);
  }

  lemma {:induction false} UnitCount(samples: seq<Sample>)
    requires forall i :: 0 <= i < |samples| ==> samples[i].denominator == 1
    ensures Total(samples).denominator == |samples|
  {
    if samples != [] {
      UnitCount(samples[..|samples| - 1]);
    }
  }

  /** In particular the first million samples are averaged exactly, unless their sum reaches a million. */
  lemma FirstMillion(samples: seq<Sample>)
    requires |samples| <= 1_000_000 && forall i :: 0 <= i < |samples| ==> samples[i].denominator == 1
    requires forall k :: 0 <= k < |samples| ==> Total(samples[..k]).numerator < 1_000_000.0
    ensures After(samples) == Total(samples) && Total(samples).denominator == |samples|
  {
    forall k | 0 <= k < |samples| ensures !Flaps(Total(samples[..k])) {
      UnitCount(samples[..k]);
    }
    TrueBelowLimit(samples);
    UnitCount(samples);
  }

  /** A reset makes the past count as one sample: the next one weighs as much as all before it. */
  lemma ResetHalves(a: Average, x: real)
    requires Flaps(a) && a.denominator > 0
    ensures Added(a, Sample(x, 1)).Some? && Reported(Added(a, Sample(x, 1)).value) == (Reported(a) + x) / 2.0
  {
  }

  /** An update fails exactly in this state, which only samples with denominators that do not add up
      to anything can reach. */
  lemma FailsExactly(a: Average, x: Sample)
    ensures Added(a, x).None? <==> a.denominator == 0 && a.numerator >= LIMIT as real
  {
  }

  lemma FailureReached()
    ensures Added(After([Sample(LIMIT as real, 0)]), Sample(0.0, 1)).None?
  {
    var samples := [Sample(LIMIT as real, 0)];
    assert samples[..0] == [];
    assert After([]) == Average(0.0, 0);
  }
}
