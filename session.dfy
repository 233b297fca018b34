/**
 * The main program: the module-level counters, the pattern history, the
 * chain and the monitor, one pass of the endless frame loop, and any
 * number of passes from start-up to the saved statistics.
 */
module Session {
  import opened Patterns
  import opened IntegrityChain
  import opened Monitor

  /** The two clock readings one frame takes: the one it hashes and the one it stores. */
  datatype Stamp = Stamp(hashedAt: string, recordedAt: string)

  /** The saved session statistics, less the wall-clock fields. */
  datatype Stats = Stats(
    totalCycles: nat,
    totalPatterns: nat,
    totalChars: nat,
    avgLoad: real,
    chainLength: nat,
    lastHash: Option<string>)

  /** Every perturbation lies in [0, 20], the range random.uniform(0, 20) draws from. */
  predicate JittersInRange(jitters: seq<real>) {
    forall k :: 0 <= k < |jitters| ==> 0.0 <= jitters[k] <= 20.0
  }

  /** The perturbations of a stretch of frames are in range when all are. */
  lemma JittersInRangeSlice(jitters: seq<real>, lo: nat, hi: nat)
    requires JittersInRange(jitters) && lo <= hi <= |jitters|
    ensures JittersInRange(jitters[lo..hi])
  {
    forall k | 0 <= k < hi - lo
      ensures 0.0 <= jitters[lo..hi][k] <= 20.0
    {
      assert jitters[lo..hi][k] == jitters[lo + k];
    }
  }

  /**
   * `records` is `before` followed by the first `f` blocks of a cycle of
   * category `c`: each carries `c` and the length of its frame.
   */
  ghost predicate CycleBlocks(records: seq<Record>, before: seq<Record>, c: Category, f: nat)
    requires f <= FramesPerCycle
  {
    && |records| == |before| + f
    && records[..|before|] == before
    && forall j :: |before| <= j < |records| ==>
         records[j].pattern == c && records[j].length == FrameLength(c, FrameIndex(j - |before|))
  }

  /**
   * The chain after the first `f` frames of a cycle of category `c` that
   * started on `records`, frame `k` hashed at and stamped with `stamps[k]`.
   */
  function CycleChain(records: seq<Record>, c: Category, digest: string -> HexDigest, stamps: seq<Stamp>, f: nat)
    : (r: seq<Record>)
    requires f <= FramesPerCycle && f <= |stamps|
    ensures |r| == |records| + f
  {
    if f == 0 then records
    else
      var prev := CycleChain(records, c, digest, stamps, f - 1);
      var length := FrameLength(c, FrameIndex(f - 1));
      Appended(prev, c, length, BlockHash(digest, prev, c, length, stamps[f - 1].hashedAt), stamps[f - 1].recordedAt)
  }

  /**
   * A cycle only appends: it keeps the blocks before it and adds one block
   * of its category per frame, with that frame's length.
   */
  lemma {:induction false} CycleChainShape(records: seq<Record>, c: Category, digest: string -> HexDigest,
                                           stamps: seq<Stamp>, f: nat)
    requires f <= FramesPerCycle && f <= |stamps|
    ensures CycleBlocks(CycleChain(records, c, digest, stamps, f), records, c, f)
  {
    if f > 0 {
      var prev := CycleChain(records, c, digest, stamps, f - 1);
      CycleChainShape(records, c, digest, stamps, f - 1);
      var next := CycleChain(records, c, digest, stamps, f);
      assert next[..|prev|] == prev && next[..|records|] == prev[..|records|];
      forall j | |records| <= j < |next|
        ensures next[j].pattern == c && next[j].length == FrameLength(c, FrameIndex(j - |records|))
      {
        if j < |prev| {
          assert next[j] == next[..|prev|][j];
        }
      }
    }
  }

  /** A cycle keeps a linked chain linked. */
  lemma {:induction false} CycleChainLinked(records: seq<Record>, c: Category, digest: string -> HexDigest,
                                            stamps: seq<Stamp>, f: nat)
    requires f <= FramesPerCycle && f <= |stamps| && Linked(records)
    ensures Linked(CycleChain(records, c, digest, stamps, f))
  {
    if f > 0 {
      var prev := CycleChain(records, c, digest, stamps, f - 1);
      var length := FrameLength(c, FrameIndex(f - 1));
      CycleChainLinked(records, c, digest, stamps, f - 1);
      AppendedLinked(prev, c, length, BlockHash(digest, prev, c, length, stamps[f - 1].hashedAt), stamps[f - 1].recordedAt);
    }
  }

  /** The chain after one more frame of a cycle, given the chain before and the frame's hash. */
  lemma ChainStep(records: seq<Record>, before: seq<Record>, c: Category, digest: string -> HexDigest,
                  stamps: seq<Stamp>, f: nat, i: nat, hash: string)
    requires f < FramesPerCycle && f < |stamps| && FrameIndex(f) == i
    requires hash == BlockHash(digest, CycleChain(before, c, digest, stamps, f), c, FrameLength(c, i), stamps[f].hashedAt)
    requires records == Appended(CycleChain(before, c, digest, stamps, f), c, FrameLength(c, i), hash, stamps[f].recordedAt)
    ensures records == CycleChain(before, c, digest, stamps, f + 1)
  {
  }

  /**
   * The loads the first `f` frames of a cycle compute: frame `k` runs with
   * the counter at `count0 + k + 1` and perturbation `jitters[k]`.
   */
  function CycleLoads(count0: nat, jitters: seq<real>, f: nat): (loads: seq<real>)
    requires f <= |jitters| && JittersInRange(jitters)
    ensures |loads| == f
  {
    if f == 0 then [] else CycleLoads(count0, jitters, f - 1) + [Load(count0 + f, jitters[f - 1])]
  }

  /** A history followed by the loads of one more frame. */
  lemma CycleLoadsStep(history: seq<real>, count0: nat, jitters: seq<real>, f: nat)
    requires f < |jitters| && JittersInRange(jitters)
    ensures history + CycleLoads(count0, jitters, f + 1)
         == history + CycleLoads(count0, jitters, f) + [Load(count0 + f + 1, jitters[f])]
  {
    assert CycleLoads(count0, jitters, f + 1) == CycleLoads(count0, jitters, f) + [Load(count0 + f + 1, jitters[f])];
  }

  /** The history after one more frame of a cycle, given its history before. */
  lemma HistoryStep(history: seq<real>, loads0: seq<real>, count0: nat, jitters: seq<real>, f: nat)
    requires f < |jitters| && JittersInRange(jitters)
    requires history == Pushed(Window(loads0 + CycleLoads(count0, jitters, f)), Load(count0 + f + 1, jitters[f]))
    ensures history == Window(loads0 + CycleLoads(count0, jitters, f + 1))
  {
    PushedWindow(loads0 + CycleLoads(count0, jitters, f), Load(count0 + f + 1, jitters[f]));
    CycleLoadsStep(loads0, count0, jitters, f);
  }

  /** Frame `k` of a cycle computes its load with the counter at `count0 + k + 1`. */
  lemma {:induction false} CycleLoadsAt(count0: nat, jitters: seq<real>, f: nat, k: nat)
    requires f <= |jitters| && JittersInRange(jitters) && k < f
    ensures CycleLoads(count0, jitters, f)[k] == Load(count0 + k + 1, jitters[k])
  {
    if k < f - 1 {
      CycleLoadsAt(count0, jitters, f - 1, k);
    }
  }

  /**
   * After a whole cycle the monitor holds exactly the loads of the cycle's
   * last ten frames, whatever it held before.
   */
  lemma CycleEndHistory(history: seq<real>, count0: nat, jitters: seq<real>)
    requires |jitters| == FramesPerCycle && JittersInRange(jitters)
    ensures Window(history + CycleLoads(count0, jitters, FramesPerCycle))
         == CycleLoads(count0, jitters, FramesPerCycle)[FramesPerCycle - HistoryCapacity..]
  {
    var loads := CycleLoads(count0, jitters, FramesPerCycle);
    assert (history + loads)[|history| + FramesPerCycle - HistoryCapacity..] == loads[FramesPerCycle - HistoryCapacity..];
  }

  /** The history at the head of cycle number `cycle`: refreshed when the cycle is a multiple of three. */
  function HeadHistory(history: seq<real>, cycle: nat, count: nat, jitter: real): (r: seq<real>)
    requires 0.0 <= jitter <= 20.0
    ensures cycle % 3 != 0 ==> r == history
    ensures cycle % 3 == 0 ==> |r| >= 1 && r[|r| - 1] == Load(count, jitter)
    ensures |history| <= HistoryCapacity ==> |r| <= HistoryCapacity
  {
    if cycle % 3 == 0 then Pushed(history, Load(count, jitter)) else history
  }

  /** The program's global state. */
  class Session {
    var cycleCount: nat
    var patternCount: nat
    var totalChars: nat
    var history: seq<Category>
    const chain: PatternChain
    const monitor: PerformanceMonitor

    /** The chain and monitor keep their invariants, and there is one block per frame counted. */
    ghost predicate Valid()
      reads this, chain, monitor
    {
      chain.Valid() && monitor.Valid() && |chain.records| == patternCount
    }

    constructor ()
      ensures Valid() && fresh(chain) && fresh(monitor)
      ensures cycleCount == 0 && patternCount == 0 && totalChars == 0 && history == []
      ensures chain.records == [] && monitor.loadHistory == []
    {
      cycleCount, patternCount, totalChars, history := 0, 0, 0, [];
      chain := new PatternChain();
      monitor := new PerformanceMonitor();
    }

    /**
     * draw_dashboard, less its output: the one state change it makes is
     * a call of calculate_load, which appends a load to the history.
     */
    method DrawDashboard(jitter: real)
      requires Valid() && 0.0 <= jitter <= 20.0
      modifies monitor
      ensures Valid()
      ensures monitor.loadHistory == Pushed(old(monitor.loadHistory), Load(patternCount, jitter))
    {
      var _ := monitor.CalculateLoad(patternCount, jitter);
    }

    /**
     * One frame of either phase: render frame `i` of category `c`, append
     * its block, count it and its characters, then compute the frame's load.
     */
    method Frame(c: Category, i: nat, digest: string -> HexDigest, stamp: Stamp, jitter: real)
      returns (hash: string)
      requires Valid() && 0.0 <= jitter <= 20.0
      modifies this, chain, monitor
      ensures Valid()
      ensures hash == BlockHash(digest, old(chain.records), c, FrameLength(c, i), stamp.hashedAt)
      ensures chain.records == Appended(old(chain.records), c, FrameLength(c, i), hash, stamp.recordedAt)
      ensures patternCount == old(patternCount) + 1
      ensures totalChars == old(totalChars) + FrameLength(c, i)
      ensures monitor.loadHistory == Pushed(old(monitor.loadHistory), Load(patternCount, jitter))
      ensures cycleCount == old(cycleCount) && history == old(history)
    {
      var pattern := Render(c, i);
      hash := chain.Add(c, |pattern|, digest, stamp.hashedAt, stamp.recordedAt);
      patternCount := patternCount + 1;
      totalChars := totalChars + |pattern|;
      var _ := monitor.CalculateLoad(patternCount, jitter);
    }

    /** The head of a cycle: count it, and refresh the dashboard every third one. */
    method BeginCycle(dashboardJitter: real)
      requires Valid() && 0.0 <= dashboardJitter <= 20.0
      modifies this, monitor
      ensures Valid()
      ensures cycleCount == old(cycleCount) + 1
      ensures monitor.loadHistory == HeadHistory(old(monitor.loadHistory), cycleCount, patternCount, dashboardJitter)
      ensures patternCount == old(patternCount) && totalChars == old(totalChars) && history == old(history)
    {
      cycleCount := cycleCount + 1;
      if cycleCount % 3 == 0 {
        DrawDashboard(dashboardJitter);
      }
    }

    /**
     * The state `f` frames into a cycle of category `c` that started on the
     * chain `before`, with the counters at `count0` and `chars0` and the
     * load history at `loads0`.
     */
    ghost predicate Progress(c: Category, digest: string -> HexDigest, stamps: seq<Stamp>, jitters: seq<real>,
                             before: seq<Record>, count0: nat, chars0: nat, loads0: seq<real>, f: nat)
      reads this, chain, monitor
    {
      && f <= FramesPerCycle && |stamps| == FramesPerCycle && |jitters| == FramesPerCycle && JittersInRange(jitters)
      && Valid()
      && chain.records == CycleChain(before, c, digest, stamps, f)
      && patternCount == count0 + f
      && totalChars == chars0 + CycleCharsUpTo(c, f)
      && monitor.loadHistory == Window(loads0 + CycleLoads(count0, jitters, f))
    }

    /**
     * Frame number `f` of a cycle, which draws `i`: one more frame of
     * progress, with the frame's clock readings and perturbation.
     */
    method CycleFrame(c: Category, i: nat, f: nat, digest: string -> HexDigest, stamps: seq<Stamp>, jitters: seq<real>,
                      ghost before: seq<Record>, ghost count0: nat, ghost chars0: nat, ghost loads0: seq<real>)
      requires f < FramesPerCycle && FrameIndex(f) == i
      requires Progress(c, digest, stamps, jitters, before, count0, chars0, loads0, f)
      modifies this, chain, monitor
      ensures Progress(c, digest, stamps, jitters, before, count0, chars0, loads0, f + 1)
      ensures cycleCount == old(cycleCount) && history == old(history)
    {
      ghost var h0 := monitor.loadHistory;
      var hash := Frame(c, i, digest, stamps[f], jitters[f]);
      ChainStep(chain.records, before, c, digest, stamps, f, i, hash);
      assert monitor.loadHistory == Pushed(h0, Load(count0 + f + 1, jitters[f]));
      HistoryStep(monitor.loadHistory, loads0, count0, jitters, f);
    }

    /**
     * The ascending phase of a cycle of category `c`: frames 0 .. 7 draw
     * i = 1 .. 8, with the first eight of the cycle's clock readings and
     * perturbations.
     */
    method Ascend(c: Category, digest: string -> HexDigest, stamps: seq<Stamp>, jitters: seq<real>)
      requires Valid()
      requires |stamps| == FramesPerCycle && |jitters| == FramesPerCycle && JittersInRange(jitters)
      modifies this, chain, monitor
      ensures Progress(c, digest, stamps, jitters, old(chain.records), old(patternCount), old(totalChars),
                       old(monitor.loadHistory), 8)
      ensures cycleCount == old(cycleCount) && history == old(history)
    {
      ghost var before, count0, chars0, loads0 := chain.records, patternCount, totalChars, monitor.loadHistory;
      ghost var cycles0, history0 := cycleCount, history;
      for i := 1 to 9
        invariant Progress(c, digest, stamps, jitters, before, count0, chars0, loads0, i - 1)
        invariant cycleCount == cycles0 && history == history0
      {
        CycleFrame(c, i, i - 1, digest, stamps, jitters, before, count0, chars0, loads0);
      }
    }

    /**
     * The descending phase, after an ascending one: frames 8 .. 13 draw
     * i = 7 .. 2, with the last six of the cycle's clock readings and
     * perturbations.
     */
    method Descend(c: Category, digest: string -> HexDigest, stamps: seq<Stamp>, jitters: seq<real>,
                   ghost before: seq<Record>, ghost count0: nat, ghost chars0: nat, ghost loads0: seq<real>)
      requires Progress(c, digest, stamps, jitters, before, count0, chars0, loads0, 8)
      modifies this, chain, monitor
      ensures Progress(c, digest, stamps, jitters, before, count0, chars0, loads0, FramesPerCycle)
      ensures cycleCount == old(cycleCount) && history == old(history)
    {
      ghost var cycles0, history0 := cycleCount, history;
      var i := 7;
      while i > 1
        invariant 1 <= i <= 7
        invariant Progress(c, digest, stamps, jitters, before, count0, chars0, loads0, 15 - i)
        invariant cycleCount == cycles0 && history == history0
      {
        CycleFrame(c, i, 15 - i, digest, stamps, jitters, before, count0, chars0, loads0);
        i := i - 1;
      }
    }

    /**
     * One pass of the main loop: count the cycle (refreshing the dashboard
     * every third one), predict and record the category, then draw frames
     * 1 .. 8 and 7 .. 2. `choice` is the random pick used while the history
     * is short, `stamps` and `jitters` the clock readings and perturbations
     * of the 14 frames, `dashboardJitter` the perturbation of the refresh.
     */
    method RunCycle(choice: Category, digest: string -> HexDigest, stamps: seq<Stamp>,
                    jitters: seq<real>, dashboardJitter: real)
      returns (c: Category)
      requires Valid()
      requires |stamps| == FramesPerCycle && |jitters| == FramesPerCycle && JittersInRange(jitters)
      requires 0.0 <= dashboardJitter <= 20.0
      modifies this, chain, monitor
      ensures Valid()
      ensures c == Predict(old(history), choice) && history == old(history) + [c]
      ensures cycleCount == old(cycleCount) + 1
      ensures patternCount == old(patternCount) + FramesPerCycle
      ensures totalChars == old(totalChars) + CycleChars(c)
      ensures chain.records == CycleChain(old(chain.records), c, digest, stamps, FramesPerCycle)
      ensures monitor.loadHistory == Window(
        HeadHistory(old(monitor.loadHistory), cycleCount, old(patternCount), dashboardJitter)
        + CycleLoads(old(patternCount), jitters, FramesPerCycle))
    {
      BeginCycle(dashboardJitter);
      c := Predict(history, choice);
      history := history + [c];
      ghost var before, count0, chars0, loads0 := chain.records, patternCount, totalChars, monitor.loadHistory;
      Ascend(c, digest, stamps, jitters);
      Descend(c, digest, stamps, jitters, before, count0, chars0, loads0);
    }

    /**
     * The state after `k` passes of the main loop driven by `choices`,
     * `digest` and `stamps`: the history holds the categories picked from
     * the first `k` random picks, and the chain and character count are
     * those of its whole cycles.
     */
    ghost predicate RunProgress(choices: seq<Category>, digest: string -> HexDigest, stamps: seq<Stamp>, k: nat)
      reads this, chain, monitor
    {
      && k <= |choices| && |stamps| == FramesPerCycle * |choices|
      && Valid() && cycleCount == k && |history| == k
      && history == Categories(choices[..k])
      && chain.records == ChainOfCycles(history, digest, stamps[..FramesPerCycle * k])
      && totalChars == CharsOfCycles(history)
    }

    /** Pass `k` of the main loop, with the inputs of cycle `k`. */
    method RunStep(choices: seq<Category>, digest: string -> HexDigest, stamps: seq<Stamp>,
                   jitters: seq<real>, dashboardJitter: real, k: nat)
      requires RunProgress(choices, digest, stamps, k) && k < |choices|
      requires |jitters| == FramesPerCycle * |choices| && JittersInRange(jitters)
      requires 0.0 <= dashboardJitter <= 20.0
      modifies this, chain, monitor
      ensures RunProgress(choices, digest, stamps, k + 1)
    {
      ghost var history0, records0, chars0 := history, chain.records, totalChars;
      JittersInRangeSlice(jitters, FramesPerCycle * k, FramesPerCycle * k + FramesPerCycle);
      var c := RunCycle(choices[k], digest, stamps[FramesPerCycle * k..FramesPerCycle * k + FramesPerCycle],
                        jitters[FramesPerCycle * k..FramesPerCycle * k + FramesPerCycle], dashboardJitter);
      RunAdvance(choices, digest, stamps, k, history0, records0, chars0, c, chain.records);
    }

    /**
     * The main loop for `cycles` passes, pass `k` with the random pick
     * `choices[k]`, the clock readings and perturbations of its frames and
     * `dashboardJitters[k]` for a refresh.
     */
    method MainLoop(cycles: nat, choices: seq<Category>, digest: string -> HexDigest, stamps: seq<Stamp>,
                    jitters: seq<real>, dashboardJitters: seq<real>)
      requires |choices| == cycles && RunProgress(choices, digest, stamps, 0)
      requires |jitters| == FramesPerCycle * cycles && JittersInRange(jitters)
      requires |dashboardJitters| == cycles && JittersInRange(dashboardJitters)
      modifies this, chain, monitor
      ensures RunProgress(choices, digest, stamps, cycles)
    {
      for k := 0 to cycles
        invariant RunProgress(choices, digest, stamps, k)
      {
        RunStep(choices, digest, stamps, jitters, dashboardJitters[k], k);
      }
    }

    /** save_session_stats, less the clock fields and the file: the figures it saves. */
    function SessionStats(): (s: Stats)
      reads this, chain, monitor
      ensures Valid() ==> s.totalPatterns == s.chainLength
      ensures Valid() ==> 0.0 <= s.avgLoad <= 100.0
      ensures s.lastHash.Some? <==> chain.records != []
      ensures s.lastHash.Some? ==> s.lastHash.value == chain.records[|chain.records| - 1].hash
    {
      Stats(cycleCount, patternCount, totalChars, monitor.GetAvgLoad(), |chain.records|, LastHash(chain.records))
    }
  }

  /**
   * The chain after whole cycles of the given categories, cycle `k` using
   * the clock readings `stamps[14 * k .. 14 * k + 14]`.
   */
  function ChainOfCycles(categories: seq<Category>, digest: string -> HexDigest, stamps: seq<Stamp>): (r: seq<Record>)
    requires |stamps| == FramesPerCycle * |categories|
    ensures |r| == FramesPerCycle * |categories|
  {
    if categories == [] then []
    else
      var n := |categories| - 1;
      var prev := ChainOfCycles(categories[..n], digest, stamps[..FramesPerCycle * n]);
      CycleChain(prev, categories[n], digest, stamps[FramesPerCycle * n..], FramesPerCycle)
  }

  /** One more whole cycle on top of the chain of the earlier ones. */
  lemma {:induction false} ChainOfCyclesStep(categories: seq<Category>, c: Category, digest: string -> HexDigest,
                                             stamps: seq<Stamp>, k: nat)
    requires |categories| == k && |stamps| >= FramesPerCycle * (k + 1)
    ensures ChainOfCycles(categories + [c], digest, stamps[..FramesPerCycle * (k + 1)])
      == CycleChain(ChainOfCycles(categories, digest, stamps[..FramesPerCycle * k]), c, digest,
                    stamps[FramesPerCycle * k..FramesPerCycle * k + FramesPerCycle], FramesPerCycle)
  {
    var cs := categories + [c];
    var whole := stamps[..FramesPerCycle * (k + 1)];
    var front := stamps[..FramesPerCycle * k];
    var tail := stamps[FramesPerCycle * k..FramesPerCycle * k + FramesPerCycle];
    assert cs[..k] == categories && cs[k] == c;
    assert whole[..FramesPerCycle * k] == front;
    assert whole[FramesPerCycle * k..] == tail;
    assert ChainOfCycles(cs, digest, whole)
      == CycleChain(ChainOfCycles(cs[..k], digest, whole[..FramesPerCycle * k]), cs[k], digest,
                    whole[FramesPerCycle * k..], FramesPerCycle);
  }

  /**
   * The chain of whole cycles is linked, and block `j` belongs to cycle
   * `j / 14`: it carries that cycle's category and the length of frame
   * `j % 14`.
   */
  lemma {:induction false} ChainOfCyclesShape(categories: seq<Category>, digest: string -> HexDigest, stamps: seq<Stamp>)
    requires |stamps| == FramesPerCycle * |categories|
    ensures Linked(ChainOfCycles(categories, digest, stamps))
    ensures var r := ChainOfCycles(categories, digest, stamps);
      forall j :: 0 <= j < |r| ==>
        r[j].pattern == categories[j / FramesPerCycle] &&
        r[j].length == FrameLength(categories[j / FramesPerCycle], FrameIndex(j % FramesPerCycle))
  {
    if categories != [] {
      var n := |categories| - 1;
      var prev := ChainOfCycles(categories[..n], digest, stamps[..FramesPerCycle * n]);
      var tail := stamps[FramesPerCycle * n..];
      var c := categories[n];
      var r := CycleChain(prev, c, digest, tail, FramesPerCycle);
      ChainOfCyclesShape(categories[..n], digest, stamps[..FramesPerCycle * n]);
      CycleChainShape(prev, c, digest, tail, FramesPerCycle);
      CycleChainLinked(prev, c, digest, tail, FramesPerCycle);
      forall j | 0 <= j < |r|
        ensures r[j].pattern == categories[j / FramesPerCycle]
        ensures r[j].length == FrameLength(categories[j / FramesPerCycle], FrameIndex(j % FramesPerCycle))
      {
        if j < |prev| {
          assert r[j] == prev[j];
          assert categories[..n][j / FramesPerCycle] == categories[j / FramesPerCycle];
        } else {
          assert j / FramesPerCycle == n && j % FramesPerCycle == j - |prev|;
        }
      }
    }
  }

  /**
   * One pass of the main loop, on values: from the categories, chain and
   * character count of `k` whole cycles, the next random pick and the
   * chain its cycle leaves give those of `k + 1` cycles.
   */
  lemma RunAdvance(choices: seq<Category>, digest: string -> HexDigest, stamps: seq<Stamp>, k: nat,
                   history0: seq<Category>, records0: seq<Record>, chars0: nat, c: Category, records1: seq<Record>)
    requires k < |choices| && |stamps| == FramesPerCycle * |choices| && |history0| == k
    requires history0 == Categories(choices[..k]) && c == Predict(history0, choices[k])
    requires records0 == ChainOfCycles(history0, digest, stamps[..FramesPerCycle * k])
    requires records1 == CycleChain(records0, c, digest, stamps[FramesPerCycle * k..FramesPerCycle * k + FramesPerCycle], FramesPerCycle)
    requires chars0 == CharsOfCycles(history0)
    ensures history0 + [c] == Categories(choices[..k + 1])
    ensures records1 == ChainOfCycles(history0 + [c], digest, stamps[..FramesPerCycle * (k + 1)])
    ensures chars0 + CycleChars(c) == CharsOfCycles(history0 + [c])
  {
    ScanStep(Predict, choices, k);
    ChainOfCyclesStep(history0, c, digest, stamps, k);
    CharsOfCyclesStep(history0, c);
  }

  /**
   * The characters drawn by whole cycles of the given categories: between
   * 189 (all SPIRAL) and 343 (all WAVE) per cycle.
   */
  function CharsOfCycles(categories: seq<Category>): (n: nat)
    ensures 189 * |categories| <= n <= 343 * |categories|
  {
    if categories == [] then 0
    else
      CycleCharsValues();
      CharsOfCycles(categories[..|categories| - 1]) + CycleChars(categories[|categories| - 1])
  }

  /** The character total counts 343 per WAVE cycle, 252 per PULSE and 189 per SPIRAL. */
  lemma {:induction false} CharsOfCyclesByCategory(categories: seq<Category>)
    ensures CharsOfCycles(categories)
         == 343 * Count(categories, Wave) + 252 * Count(categories, Pulse) + 189 * Count(categories, Spiral)
  {
    if categories != [] {
      var n := |categories| - 1;
      var prev, last := categories[..n], categories[n];
      CharsOfCyclesByCategory(prev);
      CycleCharsValues();
      assert categories == prev + [last];
      CountAppend(prev, last, Wave);
      CountAppend(prev, last, Pulse);
      CountAppend(prev, last, Spiral);
    }
  }

  /**
   * The entries a step function `next` builds from the picks `choices`:
   * entry `k` is `next` of the entries before it and pick `k`.
   */
  function Scan(next: (seq<Category>, Category) -> Category, choices: seq<Category>): (h: seq<Category>)
    ensures |h| == |choices|
  {
    if choices == [] then []
    else
      var prev := Scan(next, choices[..|choices| - 1]);
      prev + [next(prev, choices[|choices| - 1])]
  }

  /**
   * The categories the main loop picks, cycle `k` with the random pick
   * `choices[k]`: each is the prediction from the ones before it.
   */
  function Categories(choices: seq<Category>): (h: seq<Category>)
    ensures |h| == |choices|
  {
    Scan(Predict, choices)
  }

  /** One more pick adds its step to the entries. */
  lemma {:induction false} ScanStep(next: (seq<Category>, Category) -> Category, choices: seq<Category>, k: nat)
    requires k < |choices|
    ensures Scan(next, choices[..k + 1]) == Scan(next, choices[..k]) + [next(Scan(next, choices[..k]), choices[k])]
  {
    assert choices[..k + 1][..k] == choices[..k];
  }

  /** Dropping the last pick drops the last entry. */
  lemma {:induction false} ScanDropLast(next: (seq<Category>, Category) -> Category, choices: seq<Category>)
    requires choices != []
    ensures Scan(next, choices)[..|choices| - 1] == Scan(next, choices[..|choices| - 1])
  {
  }

  /** The entries of a prefix of the picks are a prefix of the entries. */
  lemma {:induction false} ScanPrefix(next: (seq<Category>, Category) -> Category, choices: seq<Category>, k: nat)
    requires k <= |choices|
    ensures Scan(next, choices)[..k] == Scan(next, choices[..k])
  {
    if k == |choices| {
      assert choices[..k] == choices;
    } else {
      var n := |choices| - 1;
      ScanPrefix(next, choices[..n], k);
      ScanDropLast(next, choices);
      assert choices[..n][..k] == choices[..k];
      assert Scan(next, choices)[..k] == Scan(next, choices)[..n][..k];
    }
  }

  /** Entry `k` is the step from the first `k` entries and pick `k`. */
  lemma {:induction false} ScanAt(next: (seq<Category>, Category) -> Category, choices: seq<Category>, k: nat)
    requires k < |choices|
    ensures Scan(next, choices)[k] == next(Scan(next, choices)[..k], choices[k])
  {
    ScanPrefix(next, choices, k + 1);
    ScanPrefix(next, choices, k);
    ScanStep(next, choices, k);
    assert Scan(next, choices)[k] == Scan(next, choices)[..k + 1][k];
  }

  /** One more whole cycle adds its characters. */
  lemma {:induction false} CharsOfCyclesStep(categories: seq<Category>, c: Category)
    ensures CharsOfCycles(categories + [c]) == CharsOfCycles(categories) + CycleChars(c)
  {
    assert (categories + [c])[..|categories|] == categories;
  }

  /**
   * The categories of a run: the first three are the random picks, and
   * from the fourth cycle on no category is chosen three times in a row.
   */
  lemma RunCategories(choices: seq<Category>)
    ensures var h := Categories(choices);
      forall k :: 0 <= k < 3 && k < |h| ==> h[k] == choices[k]
    ensures var h := Categories(choices);
      forall k :: 3 <= k < |h| ==> !(h[k - 2] == h[k - 1] == h[k])
  {
    var h := Categories(choices);
    forall k | 0 <= k < 3 && k < |h|
      ensures h[k] == choices[k]
    {
      ScanAt(Predict, choices, k);
    }
    forall k | 3 <= k < |h|
      ensures !(h[k - 2] == h[k - 1] == h[k])
    {
      ScanAt(Predict, choices, k);
      var before := h[..k];
      NoThreeInARow(before, choices[k]);
      assert before[|before| - 2] == h[k - 2] && before[|before| - 1] == h[k - 1];
    }
  }

  /**
   * The program from its start through `cycles` passes of the main loop:
   * the dashboard drawn at start-up with `dashboardJitters[0]`, then cycle
   * `k` with the random pick `choices[k]`, the clock readings and
   * perturbations of its 14 frames, and `dashboardJitters[k + 1]` for a
   * refresh; finally the figures the shutdown path saves.
   */
  method Run(cycles: nat, choices: seq<Category>, digest: string -> HexDigest, stamps: seq<Stamp>,
             jitters: seq<real>, dashboardJitters: seq<real>)
    returns (stats: Stats, categories: seq<Category>, records: seq<Record>)
    requires |choices| == cycles
    requires |stamps| == FramesPerCycle * cycles
    requires |jitters| == FramesPerCycle * cycles && JittersInRange(jitters)
    requires |dashboardJitters| == cycles + 1 && JittersInRange(dashboardJitters)
    ensures categories == Categories(choices)
    ensures records == ChainOfCycles(categories, digest, stamps)
    ensures stats.totalCycles == cycles
    ensures stats.totalPatterns == FramesPerCycle * cycles && stats.chainLength == |records|
    ensures stats.totalChars == CharsOfCycles(categories)
    ensures stats.lastHash == LastHash(records)
    ensures 0.0 <= stats.avgLoad <= 100.0
  {
    var s := new Session();
    s.DrawDashboard(dashboardJitters[0]);
    s.MainLoop(cycles, choices, digest, stamps, jitters, dashboardJitters[1..]);
    assert stamps[..FramesPerCycle * cycles] == stamps && choices[..cycles] == choices;
    categories, records := s.history, s.chain.records;
    stats := s.SessionStats();
  }
}
