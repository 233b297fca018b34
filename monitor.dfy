/**
 * The simulated performance monitor: a synthetic load per frame, a
 * bounded history of the last ten loads, their average and a four-band
 * health classification of it.
 */
module Monitor {

  /** The history keeps at most this many loads. */
  const HistoryCapacity: nat := 10

  function Min(a: real, b: real): (m: real)
    ensures m <= a && m <= b && (m == a || m == b)
  {
    if a <= b then a else b
  }

  /** The deterministic part of the load: half of the pattern counter modulo 100. */
  function BaseLoad(patternCount: nat): (b: real)
    ensures 0.0 <= b <= 49.5
  {
    (patternCount % 100) as real / 2.0
  }

  /**
   * calculate_load's value for the pattern counter and the random
   * perturbation `jitter`, drawn from [0, 20], capped at 100.
   */
  function Load(patternCount: nat, jitter: real): (r: real)
    requires 0.0 <= jitter <= 20.0
    ensures 0.0 <= r <= 100.0
    ensures BaseLoad(patternCount) <= r
  {
    Min(BaseLoad(patternCount) + jitter, 100.0)
  }

  /** The cap at 100 never takes effect: the largest possible load is 49.5 + 20. */
  lemma LoadCapInactive(patternCount: nat, jitter: real)
    requires 0.0 <= jitter <= 20.0
    ensures Load(patternCount, jitter) == BaseLoad(patternCount) + jitter <= 69.5
  {
  }

  /** The history after appending `x` and, when it grew past ten, dropping its oldest entry. */
  function Pushed(history: seq<real>, x: real): (r: seq<real>)
    ensures |r| == if |history| < HistoryCapacity then |history| + 1 else |history|
    ensures r[|r| - 1] == x
  {
    var appended := history + [x];
    if |appended| > HistoryCapacity then appended[1..] else appended
  }

  /**
   * First in, first out: below capacity nothing is dropped; at capacity
   * exactly the oldest entry goes and the rest keep their order.
   */
  lemma PushedOrder(history: seq<real>, x: real)
    ensures |history| < HistoryCapacity ==> Pushed(history, x) == history + [x]
    ensures |history| == HistoryCapacity ==> Pushed(history, x) == history[1..] + [x]
  {
  }

  /** The last ten entries of `s`, or all of them when there are fewer. */
  function Window(s: seq<real>): (w: seq<real>)
    ensures |w| == if |s| <= HistoryCapacity then |s| else HistoryCapacity
  {
    if |s| <= HistoryCapacity then s else s[|s| - HistoryCapacity..]
  }

  /**
   * One push keeps the window: a history holding the last ten entries of
   * `s` holds, after pushing `x`, the last ten entries of `s + [x]`.
   */
  lemma PushedWindow(s: seq<real>, x: real)
    ensures Pushed(Window(s), x) == Window(s + [x])
  {
    if |s| >= HistoryCapacity {
      var w := s[|s| - HistoryCapacity..];
      assert (w + [x])[1..] == (s + [x])[|s| + 1 - HistoryCapacity..];
    }
  }

  /** Python's `sum` of a list of loads. */
  function Sum(s: seq<real>): real
  {
    if s == [] then 0.0 else s[0] + Sum(s[1..])
  }

  /** `sum` adds the entries from left to right: appending `x` adds `x` to the sum. */
  lemma {:induction false} SumAppend(s: seq<real>, x: real)
    ensures Sum(s + [x]) == Sum(s) + x
  {
    if s != [] {
      SumAppend(s[1..], x);
      assert (s + [x])[1..] == s[1..] + [x];
    }
  }

  /** Sum of entries that all lie in [lo, hi]. */
  lemma {:induction false} SumBounds(s: seq<real>, lo: real, hi: real)
    requires forall k :: 0 <= k < |s| ==> lo <= s[k] <= hi
    ensures lo * |s| as real <= Sum(s) <= hi * |s| as real
  {
    if s != [] {
      SumBounds(s[1..], lo, hi);
      assert lo * |s| as real == lo + lo * |s[1..]| as real;
      assert hi * |s| as real == hi + hi * |s[1..]| as real;
    }
  }

  /** The arithmetic mean, 0 for an empty sequence. */
  function Average(s: seq<real>): (a: real)
    ensures s == [] ==> a == 0.0
    ensures s != [] ==> a * |s| as real == Sum(s)
  {
    if s == [] then 0.0 else Sum(s) / |s| as real
  }

  /** The mean of entries that all lie in [lo, hi] lies there too. */
  lemma AverageWithin(s: seq<real>, lo: real, hi: real)
    ensures s != [] && (forall k :: 0 <= k < |s| ==> lo <= s[k] <= hi) ==> lo <= Average(s) <= hi
  {
    if s != [] && forall k :: 0 <= k < |s| ==> lo <= s[k] <= hi {
      SumBounds(s, lo, hi);
      MeanBetween(lo, Average(s), hi, |s| as real, Sum(s));
    }
  }

  /** A mean `a` of a total `t` over `n` entries lies within bounds that `t` keeps `n` times. */
  lemma MeanBetween(lo: real, a: real, hi: real, n: real, t: real)
    requires n > 0.0 && a * n == t && lo * n <= t <= hi * n
    ensures lo <= a <= hi
  {
    MulCancel(lo, a, n);
    MulCancel(a, hi, n);
  }

  lemma MulStrict(x: real, y: real, n: real)
    requires x < y && n > 0.0
    ensures x * n < y * n
  {
  }

  /** A positive factor can be cancelled from both sides of `<=`. */
  lemma MulCancel(x: real, y: real, n: real)
    requires n > 0.0 && x * n <= y * n
    ensures x <= y
  {
    if x > y {
      MulStrict(y, x, n);
    }
  }

  /** The four health bands. */
  datatype Health = Optimal | Good | Moderate | High

  /** get_health_status's classification of an average load: each band is exactly one interval. */
  function Classify(avg: real): (h: Health)
    ensures h == Optimal <==> avg < 30.0
    ensures h == Good <==> 30.0 <= avg < 60.0
    ensures h == Moderate <==> 60.0 <= avg < 80.0
    ensures h == High <==> 80.0 <= avg
  {
    if avg < 30.0 then Optimal
    else if avg < 60.0 then Good
    else if avg < 80.0 then Moderate
    else High
  }

  /** How bad a band is, from 0 (OPTIMAL) to 3 (HIGH). */
  function Severity(h: Health): (n: nat)
    ensures n <= 3
  {
    match h
    case Optimal => 0
    case Good => 1
    case Moderate => 2
    case High => 3
  }

  /** A higher average never gives a better band. */
  lemma ClassifyMonotone(a: real, b: real)
    requires a <= b
    ensures Severity(Classify(a)) <= Severity(Classify(b))
  {
  }

  /** The five-dot bar shown with a band: one filled dot fewer per band, down to two. */
  function HealthBar(h: Health): (bar: string)
    ensures |bar| == 5
    ensures forall k :: 0 <= k < 5 ==> bar[k] == if k < 5 - Severity(h) then '●' else '○'
  {
    match h
    case Optimal => "●●●●●"
    case Good => "●●●●○"
    case Moderate => "●●●○○"
    case High => "●●○○○"
  }

  /** The performance monitor; its load history is the state it owns. */
  class PerformanceMonitor {
    var loadHistory: seq<real>

    /** At most ten loads are kept, and every one lies in [0, 100]. */
    ghost predicate Valid()
      reads this
    {
      && |loadHistory| <= HistoryCapacity
      && forall k :: 0 <= k < |loadHistory| ==> 0.0 <= loadHistory[k] <= 100.0
    }

    constructor ()
      ensures Valid() && loadHistory == []
    {
      loadHistory := [];
    }

    /**
     * calculate_load: computes the load for pattern counter `patternCount`
     * and perturbation `jitter`, appends it to the history (dropping the
     * oldest entry beyond ten) and returns it.
     */
    method CalculateLoad(patternCount: nat, jitter: real) returns (load: real)
      requires Valid()
      requires 0.0 <= jitter <= 20.0
      modifies this
      ensures Valid()
      ensures load == Load(patternCount, jitter)
      ensures loadHistory == Pushed(old(loadHistory), load)
    {
      load := Min(BaseLoad(patternCount) + jitter, 100.0);
      loadHistory := loadHistory + [load];
      if |loadHistory| > HistoryCapacity {
        loadHistory := loadHistory[1..];
      }
    }

    /** get_avg_load: the mean of the history, 0 when it is empty. */
    function GetAvgLoad(): (avg: real)
      reads this
      ensures loadHistory == [] ==> avg == 0.0
      ensures Valid() ==> 0.0 <= avg <= 100.0
      ensures loadHistory != [] ==> avg * |loadHistory| as real == Sum(loadHistory)
    {
      AverageWithin(loadHistory, 0.0, 100.0);
      Average(loadHistory)
    }

    /** get_health_status: the band of the average load and its bar. */
    function GetHealthStatus(): (status: (Health, string))
      reads this
      ensures loadHistory == [] ==> status.0 == Optimal
      ensures status.1 == HealthBar(status.0)
      ensures status.0 == Classify(GetAvgLoad())
    {
      var h := Classify(GetAvgLoad());
      (h, HealthBar(h))
    }
  }

  /**
   * The health status reads nothing but the load history: two monitors with
   * the same history, or one monitor asked twice, report the same status.
   */
  lemma HealthStatusDependsOnHistory(m1: PerformanceMonitor, m2: PerformanceMonitor)
    requires m1.loadHistory == m2.loadHistory
    ensures m1.GetHealthStatus() == m2.GetHealthStatus()
  {
  }
}
