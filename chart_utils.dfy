// The arithmetic helpers of src/routes/pareto-charts/_components/chartUtils.js:
// the y-axis label format, the chart margins and inner size, and the
// power-of-two ticks of a logarithmic axis. The d3 scale and line wrappers
// are not modelled; Number.prototype.toFixed is a parameter.

module ChartUtils {
  import opened Seqs
  import opened Strs
  import opened JsMath

  // ---------------------------------------------------------------------------
  // formatYAxis
  // ---------------------------------------------------------------------------

  /** The branch formatYAxis takes for a value. */
  datatype Magnitude = Millions | Thousands | Fraction | Whole

  function MagnitudeOf(value: real): Magnitude {
    if value >= 1000000.0 then Millions
    else if value >= 1000.0 then Thousands
    else if value < 1.0 then Fraction
    else Whole
  }

  /** The thresholds split the reals into four consecutive bands. */
  lemma MagnitudeBands(value: real)
    ensures MagnitudeOf(value) == Fraction <==> value < 1.0
    ensures MagnitudeOf(value) == Whole <==> 1.0 <= value < 1000.0
    ensures MagnitudeOf(value) == Thousands <==> 1000.0 <= value < 1000000.0
    ensures MagnitudeOf(value) == Millions <==> 1000000.0 <= value
  {
  }

  /** formatYAxis, with `x.toFixed(d)` given as toFixed(x, d). */
  function FormatYAxis(value: real, unit: string, toFixed: (real, nat) -> string): (r: string)
    ensures |unit| <= |r| && r[|r| - |unit|..] == unit
    ensures MagnitudeOf(value) == Millions ==> r == toFixed(value / 1000000.0, 1) + "M" + unit
    ensures MagnitudeOf(value) == Thousands ==> r == toFixed(value / 1000.0, 0) + "k" + unit
    ensures MagnitudeOf(value) == Fraction ==> r == toFixed(value, 1) + unit
    ensures MagnitudeOf(value) == Whole ==>
              1 <= Round(value) <= 1000 && r == NatToString(Round(value) as nat) + unit
              && DigitsValue(NatToString(Round(value) as nat)) == Round(value)
  {
    match MagnitudeOf(value)
    case Millions => toFixed(value / 1000000.0, 1) + "M" + unit
    case Thousands => toFixed(value / 1000.0, 0) + "k" + unit
    case Fraction => toFixed(value, 1) + unit
    case Whole =>
      var n := Round(value);
      assert 1 <= n <= 1000;
      DigitsValueOfNatToString(n);
      NatToString(n) + unit
  }

  // ---------------------------------------------------------------------------
  // createMargins and getInnerDimensions
  // ---------------------------------------------------------------------------

  datatype Margins = Margins(top: int, right: int, bottom: int, left: int)

  datatype Size = Size(width: real, height: real)

  /** createMargins: the desktop margins leave more room at the sides. */
  function CreateMargins(isMobile: bool): (m: Margins)
    ensures m.top == 30 && m.bottom == 60
    ensures m.right == (if isMobile then 12 else 30) && m.left == (if isMobile then 60 else 70)
  {
    Margins(30, if isMobile then 12 else 30, 60, if isMobile then 60 else 70)
  }

  /** getInnerDimensions. */
  function GetInnerDimensions(width: real, height: real, margin: Margins): (inner: Size)
    ensures inner.width + margin.left as real + margin.right as real == width
    ensures inner.height + margin.top as real + margin.bottom as real == height
  {
    Size(width - margin.left as real - margin.right as real, height - margin.top as real - margin.bottom as real)
  }

  /** With the standard margins the plot is 72 or 100 narrower and 90 shorter than the chart. */
  lemma StandardInnerDimensions(width: real, height: real, isMobile: bool)
    ensures var inner := GetInnerDimensions(width, height, CreateMargins(isMobile));
            && inner.width == width - (if isMobile then 72.0 else 100.0)
            && inner.height == height - 90.0
  {
  }

  // ---------------------------------------------------------------------------
  // getLogTicks
  // ---------------------------------------------------------------------------

  const LogTickCandidates: seq<int> := [1, 2, 4, 8, 16, 32, 64, 128, 256, 512, 1024, 2048, 4096]

  function Pow2(k: nat): (p: int)
    ensures p >= 1
  {
    if k == 0 then 1 else 2 * Pow2(k - 1)
  }

  /** t is one of the powers of two from 2^0 to 2^12. */
  ghost predicate IsTickPower(t: int) {
    exists k :: 0 <= k <= 12 && t == Pow2(k)
  }

  predicate Increasing(s: seq<int>) {
    forall i, j :: 0 <= i < j < |s| ==> s[i] < s[j]
  }

  /** The candidate table is 2^0, ..., 2^12 in order. */
  lemma CandidatesArePowers()
    ensures |LogTickCandidates| == 13
    ensures forall k :: 0 <= k < 13 ==> LogTickCandidates[k] == Pow2(k)
  {
    forall k | 0 <= k < 13
      ensures LogTickCandidates[k] == Pow2(k)
    {
      PowersTable(k);
    }
  }

  lemma PowersTable(k: nat)
    requires k < 13
    ensures LogTickCandidates[k] == Pow2(k)
  {
    if k == 0 {
    } else if k == 1 {
    } else if k == 2 {
    } else if k == 3 {
    } else if k == 4 {
    } else if k == 5 {
    } else if k == 6 {
    } else if k == 7 {
    } else if k == 8 {
    } else if k == 9 {
    } else if k == 10 {
    } else if k == 11 {
    } else {
      assert k == 12;
    }
  }

  /** Powers of two grow with the exponent. */
  lemma {:induction false} Pow2Increasing(j: nat, k: nat)
    requires j < k
    ensures Pow2(j) < Pow2(k)
    decreases k
  {
    if j < k - 1 {
      Pow2Increasing(j, k - 1);
    }
  }

  /** Filtering an increasing list keeps it increasing. */
  lemma {:induction false} FilterIncreasing(s: seq<int>, p: int -> bool)
    requires Increasing(s)
    ensures Increasing(Filter(s, p))
    decreases |s|
  {
    if s != [] {
      FilterIncreasing(s[1..], p);
      if p(s[0]) {
        var rest := Filter(s[1..], p);
        forall x | x in rest
          ensures s[0] < x
        {
          var j :| 0 <= j < |s[1..]| && s[1..][j] == x;
          assert s[j + 1] == x;
        }
        var r := [s[0]] + rest;
        forall i, j | 0 <= i < j < |r|
          ensures r[i] < r[j]
        {
          if i == 0 {
            assert r[j] == rest[j - 1] && rest[j - 1] in rest;
          } else {
            assert r[i] == rest[i - 1] && r[j] == rest[j - 1];
          }
        }
      }
    }
  }

  /** The candidate table is increasing and holds exactly the powers of two up to 2^12. */
  lemma CandidateTicks()
    ensures Increasing(LogTickCandidates)
    ensures forall t :: t in LogTickCandidates <==> IsTickPower(t)
  {
    CandidatesArePowers();
    forall i, j | 0 <= i < j < |LogTickCandidates|
      ensures LogTickCandidates[i] < LogTickCandidates[j]
    {
      Pow2Increasing(i, j);
    }
    forall t | IsTickPower(t)
      ensures t in LogTickCandidates
    {
      var k :| 0 <= k <= 12 && t == Pow2(k);
      assert LogTickCandidates[k] == t;
    }
  }

  /** The filter getLogTicks applies: t lies in [min, max]. */
  function InExtent(min: real, max: real): int -> bool {
    (t: int) => min <= t as real && t as real <= max
  }

  /** getLogTicks: the powers of two from 1 to 4096 that lie in [min, max], ascending. */
  function GetLogTicks(min: real, max: real): (r: seq<int>)
    ensures forall t :: t in r <==> IsTickPower(t) && min <= t as real <= max
    ensures Increasing(r)
  {
    CandidateTicks();
    FilterIncreasing(LogTickCandidates, InExtent(min, max));
    Filter(LogTickCandidates, InExtent(min, max))
  }
}
