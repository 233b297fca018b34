/**
 * Pattern categories, the history-based "AI" predictor and the three
 * frame generators of the animation.
 */
module Patterns {

  /** The three pattern categories the animation alternates between. */
  datatype Category = Wave | Pulse | Spiral

  /** The category's name as the program spells it (the text it hashes). */
  function Name(c: Category): (s: string)
    ensures |s| >= 1 && forall k :: 0 <= k < |s| ==> 'A' <= s[k] <= 'Z'
  {
    match c
    case Wave => "WAVE"
    case Pulse => "PULSE"
    case Spiral => "SPIRAL"
  }

  /** Different categories have different names. */
  lemma NameInjective(a: Category, b: Category)
    ensures Name(a) == Name(b) ==> a == b
  {
  }

  // ---------------------------------------------------------------------
  // Predictor
  // ---------------------------------------------------------------------

  /** Number of occurrences of `c` in `s`, like a list's `count`. */
  function Count(s: seq<Category>, c: Category): (n: nat)
    ensures n <= |s|
  {
    if s == [] then 0 else (if s[0] == c then 1 else 0) + Count(s[1..], c)
  }

  /** `Count` is the multiplicity of `c` in the multiset of `s`. */
  lemma {:induction false} CountMultiset(s: seq<Category>, c: Category)
    ensures Count(s, c) == multiset(s)[c]
  {
    if s != [] {
      CountMultiset(s[1..], c);
      assert s == [s[0]] + s[1..];
    }
  }

  /** Appending `x` adds one to its own count and leaves the others. */
  lemma {:induction false} CountAppend(s: seq<Category>, x: Category, c: Category)
    ensures Count(s + [x], c) == Count(s, c) + (if x == c then 1 else 0)
  {
    CountMultiset(s + [x], c);
    CountMultiset(s, c);
    assert multiset(s + [x]) == multiset(s) + multiset{x};
  }

  /** Two different categories never occur more often, together, than `s` is long. */
  lemma {:induction false} CountDisjoint(s: seq<Category>, a: Category, b: Category)
    requires a != b
    ensures Count(s, a) + Count(s, b) <= |s|
  {
    if s != [] {
      CountDisjoint(s[1..], a, b);
    }
  }

  /** The last three entries of a history of at least three. */
  function LastThree(history: seq<Category>): (t: seq<Category>)
    requires |history| >= 3
    ensures |t| == 3 && t == [history[|history| - 3], history[|history| - 2], history[|history| - 1]]
  {
    history[|history| - 3..]
  }

  /**
   * The next category. With fewer than three entries the program picks at
   * random; `choice` is that pick. Otherwise the last three decide.
   */
  function Predict(history: seq<Category>, choice: Category): (r: Category)
    ensures |history| < 3 ==> r == choice
  {
    if |history| < 3 then choice
    else
      var last := LastThree(history);
      if Count(last, Wave) >= 2 then Spiral
      else if Count(last, Spiral) >= 2 then Pulse
      else Wave
  }

  /** The category the predictor moves to when `c` dominates: Wave, then Spiral, then Pulse, then Wave. */
  function Successor(c: Category): (s: Category)
    ensures s != c
  {
    match c
    case Wave => Spiral
    case Spiral => Pulse
    case Pulse => Wave
  }

  /**
   * Reference reading of the rule: when some category holds at least two of
   * the last three places, the prediction is its successor (a Pulse
   * majority included, which the program reaches through its final branch);
   * with no such category the prediction is Wave.
   */
  lemma PredictFollowsMajority(history: seq<Category>, choice: Category, c: Category)
    requires |history| >= 3
    ensures Count(LastThree(history), c) >= 2 ==> Predict(history, choice) == Successor(c)
    ensures (Count(LastThree(history), Wave) < 2 && Count(LastThree(history), Pulse) < 2
             && Count(LastThree(history), Spiral) < 2) ==> Predict(history, choice) == Wave
  {
    var last := LastThree(history);
    CountDisjoint(last, Wave, Spiral);
    CountDisjoint(last, Wave, Pulse);
    CountDisjoint(last, Spiral, Pulse);
  }

  /** The prediction is never the category that fills two of the last three places. */
  lemma PredictAvoidsMajority(history: seq<Category>, choice: Category, c: Category)
    requires |history| >= 3
    requires Count(LastThree(history), c) >= 2
    ensures Predict(history, choice) != c
  {
    PredictFollowsMajority(history, choice, c);
  }

  /**
   * Consequence for the frame loop, which appends every prediction to the
   * history: once three entries exist, no category is chosen three times in a row.
   */
  lemma NoThreeInARow(history: seq<Category>, choice: Category)
    requires |history| >= 3
    ensures !(history[|history| - 2] == history[|history| - 1] == Predict(history, choice))
  {
    var r := Predict(history, choice);
    var last := LastThree(history);
    if history[|history| - 2] == history[|history| - 1] == r {
      CountMultiset(last, r);
      assert multiset(last)[r] >= 2;
      PredictAvoidsMajority(history, choice, r);
    }
  }

  /** Only the last three entries matter, and the random pick is then ignored. */
  lemma PredictIgnoresOlder(older: seq<Category>, history: seq<Category>, c1: Category, c2: Category)
    requires |history| >= 3
    ensures Predict(older + history, c1) == Predict(history, c2)
  {
    var whole := older + history;
    assert LastThree(whole) == LastThree(history);
  }

  /** The order of the last three entries does not matter, only how many of each there are. */
  lemma PredictOrderInsensitive(h: seq<Category>, g: seq<Category>, c1: Category, c2: Category)
    requires |h| >= 3 && |g| >= 3
    requires multiset(LastThree(h)) == multiset(LastThree(g))
    ensures Predict(h, c1) == Predict(g, c2)
  {
    CountMultiset(LastThree(h), Wave);
    CountMultiset(LastThree(g), Wave);
    CountMultiset(LastThree(h), Spiral);
    CountMultiset(LastThree(g), Spiral);
  }

  // ---------------------------------------------------------------------
  // Generators
  // ---------------------------------------------------------------------

  const WaveGlyphs: string := "~≈∿"
  const PulseGlyphs: string := "●◉○"
  const SpiralGlyphs: string := "◢◣◤◥"

  /** `s` written `n` times in a row, as string repetition `s * n` does for n >= 0. */
  function Repeat(s: string, n: nat): (r: string)
    ensures |r| == |s| * n
  {
    if n == 0 then []
    else
      assert |s| * n == |s| + |s| * (n - 1);
      s + Repeat(s, n - 1)
  }

  /** Position `r` of the `q`-th copy of the unit in a repetition holds the unit's `r`-th character. */
  lemma {:induction false} RepeatAt(s: string, n: nat, q: nat, r: nat)
    requires q < n && r < |s|
    ensures q * |s| + r < |Repeat(s, n)| && Repeat(s, n)[q * |s| + r] == s[r]
  {
    assert Repeat(s, n) == s + Repeat(s, n - 1);
    if q > 0 {
      RepeatAt(s, n - 1, q - 1, r);
      assert q * |s| + r == |s| + ((q - 1) * |s| + r);
    }
  }

  /** Wave frame `i`: the glyph `i mod 3` of "~≈∿", i*i times. */
  function WavePattern(i: nat): (r: string)
    ensures |r| == i * i
    ensures forall k :: 0 <= k < |r| ==> r[k] == WaveGlyphs[i % 3]
  {
    var unit := [WaveGlyphs[i % 3]];
    var r := Repeat(unit, i * i);
    assert |unit| == 1 && |r| == i * i;
    assert forall k :: 0 <= k < |r| ==> r[k] == WaveGlyphs[i % 3] by {
      forall k | 0 <= k < |r|
        ensures r[k] == WaveGlyphs[i % 3]
      {
        RepeatAt(unit, i * i, k, 0);
        assert k * |unit| + 0 == k;
      }
    }
    r
  }

  /** Pulse frame `i`: the glyph `i mod 3` of "●◉○" followed by a space, 2*i times. */
  function PulsePattern(i: nat): (r: string)
    ensures |r| == 4 * i
    ensures forall k :: 0 <= k < |r| ==> r[k] == if k % 2 == 0 then PulseGlyphs[i % 3] else ' '
  {
    var unit := [PulseGlyphs[i % 3], ' '];
    var r := Repeat(unit, i * 2);
    assert |unit| == 2 && |r| == 4 * i;
    assert forall k :: 0 <= k < |r| ==> r[k] == if k % 2 == 0 then PulseGlyphs[i % 3] else ' ' by {
      forall k | 0 <= k < |r|
        ensures r[k] == if k % 2 == 0 then PulseGlyphs[i % 3] else ' '
      {
        RepeatAt(unit, i * 2, k / 2, k % 2);
        assert k / 2 * |unit| + k % 2 == k;
      }
    }
    r
  }

  /** Spiral frame `i`: the glyph `i mod 4` of "◢◣◤◥", 3*i times. */
  function SpiralPattern(i: nat): (r: string)
    ensures |r| == 3 * i
    ensures forall k :: 0 <= k < |r| ==> r[k] == SpiralGlyphs[i % 4]
  {
    var unit := [SpiralGlyphs[i % 4]];
    var r := Repeat(unit, i * 3);
    assert |unit| == 1 && |r| == i * 3;
    assert forall k :: 0 <= k < |r| ==> r[k] == SpiralGlyphs[i % 4] by {
      forall k | 0 <= k < |r|
        ensures r[k] == SpiralGlyphs[i % 4]
      {
        RepeatAt(unit, i * 3, k, 0);
        assert k * |unit| + 0 == k;
      }
    }
    r
  }

  /** Closed-form length of frame `i` of category `c`. */
  function FrameLength(c: Category, i: nat): nat
  {
    match c
    case Wave => i * i
    case Pulse => 4 * i
    case Spiral => 3 * i
  }

  /** The frame the loop body renders for category `c` and index `i`. */
  function Render(c: Category, i: nat): (r: string)
    ensures |r| == FrameLength(c, i)
    ensures c == Wave ==> r == WavePattern(i)
    ensures c == Pulse ==> r == PulsePattern(i)
    ensures c == Spiral ==> r == SpiralPattern(i)
  {
    if c == Wave then WavePattern(i)
    else if c == Pulse then PulsePattern(i)
    else SpiralPattern(i)
  }

  /** Length grows strictly with the index, so the ascending phase draws ever larger frames. */
  lemma FrameLengthIncreasing(c: Category, i: nat, j: nat)
    requires 1 <= i < j
    ensures FrameLength(c, i) < FrameLength(c, j)
  {
    if c == Wave {
      assert i * i < i * j < j * j;
    }
  }

  // ---------------------------------------------------------------------
  // One cycle: ascending indices 1..8, then descending 7..2
  // ---------------------------------------------------------------------

  const FramesPerCycle: nat := 14

  /** The index `i` of frame `k` of a cycle (k = 0 .. 13). */
  function FrameIndex(k: nat): (i: nat)
    requires k < FramesPerCycle
    ensures 1 <= i <= 8
    ensures k < 8 ==> i == k + 1
    ensures k >= 8 ==> i == 15 - k
  {
    if k < 8 then k + 1 else 15 - k
  }

  /** Characters rendered by the first `n` frames of a cycle of category `c`. */
  function CycleCharsUpTo(c: Category, n: nat): nat
    requires n <= FramesPerCycle
  {
    if n == 0 then 0 else CycleCharsUpTo(c, n - 1) + FrameLength(c, FrameIndex(n - 1))
  }

  /** Characters rendered by one whole cycle of category `c`. */
  function CycleChars(c: Category): nat
  {
    CycleCharsUpTo(c, FramesPerCycle)
  }

  /** The three possible per-cycle totals: 343 for Wave, 252 for Pulse, 189 for Spiral. */
  lemma CycleCharsValues()
    ensures CycleChars(Wave) == 343
    ensures CycleChars(Pulse) == 252
    ensures CycleChars(Spiral) == 189
  {
    CycleCharsExpanded(Wave);
    CycleCharsExpanded(Pulse);
    CycleCharsExpanded(Spiral);
  }

  /** A cycle draws frames 1 and 8 once and frames 2 .. 7 twice. */
  lemma CycleCharsExpanded(c: Category)
    ensures CycleChars(c) == FrameLength(c, 1) + FrameLength(c, 8)
      + 2 * (FrameLength(c, 2) + FrameLength(c, 3) + FrameLength(c, 4)
             + FrameLength(c, 5) + FrameLength(c, 6) + FrameLength(c, 7))
  {
  }
}
