# uts.py — a verified model of the pattern animation's core

`uts.py` is a terminal animation. It runs an endless loop of cycles. At the head of each cycle a
small "AI" predictor picks one of three pattern categories (WAVE, PULSE, SPIRAL) from the last
three picks. The cycle then draws fourteen frames of that category at sizes 1 .. 8 and 7 .. 2.
Every frame is appended to a hash-linked integrity chain. Every frame also feeds a simulated
performance monitor, which keeps the last ten synthetic loads and classifies their average into
four health bands. The dashboard is refreshed every third cycle. Ctrl+C saves the session
figures.

The model has four modules, one per part of the program:

- `Patterns` (`patterns.dfy`) holds the predictor and the three frame generators. These are pure
  functions with lemmas.
- `IntegrityChain` (`chain.dfy`) holds the hash and chain helpers. The chain itself is the class
  `PatternChain`, whose `records` field only `Add` changes.
- `Monitor` (`monitor.dfy`) holds the class `PerformanceMonitor`. Its `loadHistory` field is a
  bounded first-in-first-out window of loads.
- `Session` (`session.dfy`) holds the module-level state of the script as the class `Session`:
  the counters, the pattern history, the chain and the monitor. It also holds the loops of the
  main program as methods:
  - the ascending `for` loop;
  - the descending loop, a `while` counting 7 down to 2;
  - one pass of the main loop;
  - the main loop over any number of passes.

Each loop is proved against pure reference functions of its inputs:

- `CycleChain` gives the chain after some frames of a cycle.
- `CycleLoads` and `Window` give the monitor's history.
- `CycleCharsUpTo` gives the character count within a cycle, and `CharsOfCycles` after whole cycles.
- `Categories` gives the picked categories.
- `ChainOfCycles` gives the chain after whole cycles.

Separate lemmas then prove about those functions what the program promises. The chain is
linked, each block carries its cycle's category and its frame's length, and the first three
categories are the random picks. From the fourth cycle on, no category is picked three times in
a row.

Inputs the program draws from the environment are parameters of the model:

- The random pick `random.choice` becomes a `Category` per cycle.
- The perturbation `random.uniform(0, 20)` becomes a `real` in [0, 20] per load.
- SHA-256 becomes a function `digest` from strings to 64 lower-case hex digits.
- Each frame's two `datetime.now().isoformat()` readings become a `Stamp` of two strings.

Two facts of the code worth stating outright:

- A PULSE frame of index `i` is `i * 2` copies of a glyph, each followed by a space, so its
  length is `4 * i`.
- A cycle draws 8 + 6 = 14 frames, so `Session.Run` leaves `14 * cycles` blocks in the chain.

## Model

| member | source | states |
|---|---|---|
| Patterns.Name | uts.py:34 | a category's name is non-empty and all capital letters |
| Patterns.NameInjective | uts.py:34 | different categories have different names |
| Patterns.Count | uts.py:38-40 | `list.count` of a category is at most the list's length |
| Patterns.CountMultiset | uts.py:38-40 | `list.count` of a category is its multiplicity in the multiset of the list |
| Patterns.CountAppend | uts.py:38-40 | appending an entry adds one to its own count and leaves the other counts as they were |
| Patterns.CountDisjoint | uts.py:38-43 | two different categories together occur at most as often as the list is long, so the two "≥ 2 of 3" tests never both hold |
| Patterns.LastThree | uts.py:37 | `pattern_history[-3:]` of a history of at least three is exactly its last three entries, in order |
| Patterns.Predict | uts.py:32-43 | with fewer than three entries in the history the prediction is the random pick |
| Patterns.PredictFollowsMajority | uts.py:36-43 | reference reading of the rule: a category holding two of the last three places is followed by its successor (WAVE→SPIRAL, SPIRAL→PULSE, PULSE→WAVE); with no majority the prediction is WAVE |
| Patterns.PredictAvoidsMajority | uts.py:36-43 | the prediction is never the category holding two of the last three places |
| Patterns.NoThreeInARow | uts.py:32-43 | once three entries exist, the prediction never repeats the last two entries when those are equal |
| Patterns.PredictIgnoresOlder | uts.py:36-37 | with three or more entries, only the last three matter and the random pick is ignored |
| Patterns.PredictOrderInsensitive | uts.py:37-43 | the prediction depends only on how many of each category the last three places hold, not on their order |
| Patterns.Repeat | uts.py:47 | string repetition `s * n` has length `|s| * n` |
| Patterns.RepeatAt | uts.py:45-55 | position `q * |s| + r` of a repetition holds character `r` of the unit |
| Patterns.WavePattern | uts.py:45-47 | wave frame `i` has length `i * i` and every character is glyph `i mod 3` of the wave set |
| Patterns.PulsePattern | uts.py:49-51 | pulse frame `i` has length `4 * i`: glyph `i mod 3` of the pulse set at even positions and a space at odd ones |
| Patterns.SpiralPattern | uts.py:53-55 | spiral frame `i` has length `3 * i` and every character is glyph `i mod 4` of the spiral set |
| Patterns.Render | uts.py:174-183 | the loop body's frame is the generator of its category, and its length is the closed form `FrameLength` |
| Patterns.FrameLengthIncreasing | uts.py:174-183 | for indices from 1 up, a larger index gives a strictly longer frame in every category |
| Patterns.FrameIndex | uts.py:174-198 | frame `k` of a cycle draws index `k + 1` for k < 8 (ascending), then `15 - k` (descending), always within 1 .. 8 |
| Patterns.CycleCharsExpanded | uts.py:174-213 | a whole cycle counts frames 1 and 8 once and frames 2 .. 7 twice |
| Patterns.CycleCharsValues | uts.py:174-213 | a cycle adds 343 characters for WAVE, 252 for PULSE and 189 for SPIRAL |
| IntegrityChain.DecimalString | uts.py:102 | the decimal text of the length that is hashed: non-empty, all digits |
| IntegrityChain.DecimalStringValue | uts.py:102 | that text spells the length in base ten, most significant digit first, with no leading zero |
| IntegrityChain.PatternDataInjective | uts.py:101-102 | the text hashed for a block, name then length, determines both the pattern and the length |
| IntegrityChain.LetterPrefixOf | uts.py:102 | in a name followed by a length's digits, the leading capitals are exactly the name |
| IntegrityChain.HashPattern | uts.py:96-98 | the hash is the first 16 characters of the digest of pattern data, previous hash and clock text, so it is 16 hex digits |
| IntegrityChain.BlockHash | uts.py:100-102 | the hash of a new block is well-formed: 16 hex digits |
| IntegrityChain.PrevHash | uts.py:101 | the previous hash is the last block's hash, or sixteen zeros for an empty chain; on a linked chain it is 16 hex digits |
| IntegrityChain.LastHash | uts.py:127 | `last_hash` is absent exactly when the chain is empty, and otherwise is the last block's hash |
| IntegrityChain.Appended | uts.py:100-113 | appending keeps every earlier block and adds one block with the next index, the given fields and the previous hash |
| IntegrityChain.LinkedExtend | uts.py:100-111 | a one-block extension is linked if and only if the chain was linked and the block has the next index, a well-formed hash and the previous hash |
| IntegrityChain.AppendedLinked | uts.py:100-113 | appending a well-formed hash keeps the chain linked |
| IntegrityChain.LinkedPrefix | uts.py:104-111 | every prefix of a linked chain is linked |
| IntegrityChain.LinkedIsAppended | uts.py:100-113 | every non-empty linked chain is a linked chain with one block appended, so appends are the only way to build one |
| IntegrityChain.PatternChain.constructor | uts.py:94 | the chain starts empty and linked |
| IntegrityChain.PatternChain.Add | uts.py:100-113 | `add_to_chain` hashes name and length with the previous hash and the clock, appends exactly that block, keeps the chain linked and returns the new hash |
| Monitor.Min | uts.py:68 | `min` of two reals: no larger than either, and equal to one of them |
| Monitor.BaseLoad | uts.py:66 | half the pattern counter modulo 100 lies in [0, 49.5] |
| Monitor.Load | uts.py:64-68 | a load lies in [0, 100] and is at least its base part |
| Monitor.LoadCapInactive | uts.py:66-68 | the cap at 100 never takes effect: every load is base + perturbation and at most 69.5 |
| Monitor.Pushed | uts.py:69-71 | appending to the history grows it by one below ten entries and keeps ten at ten, with the new load last |
| Monitor.PushedOrder | uts.py:69-71 | below ten nothing is dropped; at ten exactly the oldest entry goes and the others keep their order |
| Monitor.Window | uts.py:69-71 | the last ten of a sequence of loads, or all of them when there are fewer |
| Monitor.PushedWindow | uts.py:69-71 | pushing onto the window of a sequence of loads gives the window of the extended sequence, so the history is always the last ten loads computed |
| Monitor.SumAppend | uts.py:77 | `sum` adds the entries from left to right: appending a load adds it to the sum |
| Monitor.SumBounds | uts.py:77 | a sum of entries in [lo, hi] lies between `lo * n` and `hi * n` |
| Monitor.Average | uts.py:74-77 | the mean is 0 for the empty history and otherwise satisfies mean × length = sum |
| Monitor.AverageWithin | uts.py:74-77 | the mean of a non-empty history whose entries all lie in [lo, hi] lies in [lo, hi] |
| Monitor.Classify | uts.py:81-88 | each health band is exactly one interval of averages: OPTIMAL below 30, GOOD in [30, 60), MODERATE in [60, 80), HIGH from 80 up |
| Monitor.ClassifyMonotone | uts.py:79-88 | a higher average never gives a better band |
| Monitor.HealthBar | uts.py:82-88 | the bar has five dots, one filled dot fewer per worse band |
| Monitor.PerformanceMonitor.constructor | uts.py:60-61 | the history starts empty |
| Monitor.PerformanceMonitor.CalculateLoad | uts.py:64-72 | returns the load for the counter and perturbation and pushes it onto the ten-entry history, keeping every entry in [0, 100] |
| Monitor.PerformanceMonitor.GetAvgLoad | uts.py:74-77 | 0 for an empty history, otherwise the mean, always within [0, 100] |
| Monitor.PerformanceMonitor.GetHealthStatus | uts.py:79-88 | OPTIMAL for an empty history; otherwise the band `Classify` gives the average (OPTIMAL below 30, GOOD in [30, 60), MODERATE in [60, 80), HIGH from 80 up), with that band's bar |
| Monitor.HealthStatusDependsOnHistory | uts.py:79-88 | two monitors with the same history report the same status |
| Session.CycleChain | uts.py:174-217 | the chain after `f` frames of a cycle is `f` blocks longer |
| Session.CycleChainShape | uts.py:174-217 | a cycle keeps every earlier block and adds one block per frame carrying the cycle's category and that frame's length |
| Session.CycleChainLinked | uts.py:188-211 | a cycle keeps a linked chain linked |
| Session.ChainStep | uts.py:188 | one more `add_to_chain` call extends the chain of `f` frames to the chain of `f + 1` |
| Session.CycleLoads | uts.py:189-193 | the loads of `f` frames of a cycle are `f` values |
| Session.CycleLoadsStep | uts.py:193 | one more frame adds its load at the end |
| Session.HistoryStep | uts.py:193 | one more `calculate_load` call turns the window of the loads so far into the window with the new load |
| Session.CycleLoadsAt | uts.py:189-193 | frame `k` of a cycle computes its load with the counter at its start plus `k + 1` |
| Session.CycleEndHistory | uts.py:193-215 | after a whole cycle the history holds exactly the loads of its last ten frames, whatever it held before |
| Session.HeadHistory | uts.py:162-164 | at the head of a cycle the history is unchanged unless the cycle number is a multiple of three; then the refresh's load is its newest entry; it never grows past ten |
| Session.Session.constructor | uts.py:12-16 | all counters start at 0, with an empty history, an empty chain and an empty load history |
| Session.Session.DrawDashboard | uts.py:137-141 | the one state change of `draw_dashboard` is one load pushed onto the history; nothing else changes |
| Session.Session.Frame | uts.py:174-195 | one frame appends the block for its category and length, counts one pattern and its characters and pushes the load for the new counter |
| Session.Session.BeginCycle | uts.py:159-164 | the cycle counter goes up by one and the dashboard pushes a load exactly when the new counter is a multiple of three |
| Session.Session.CycleFrame | uts.py:174-217 | from the state `f` frames into a cycle, one frame gives the state `f + 1` frames in |
| Session.Session.Ascend | uts.py:174-195 | the ascending loop leaves the state 8 frames into the cycle: chain, counters and history as the reference functions give |
| Session.Session.Descend | uts.py:198-217 | the descending loop carries the state from 8 to all 14 frames of the cycle |
| Session.Session.RunCycle | uts.py:159-217 | a pass of the main loop records the predicted category, counts one cycle and 14 patterns, adds the cycle's characters, appends the cycle's 14 blocks and leaves the window of the refresh load and the 14 frame loads as history |
| Session.RunAdvance | uts.py:159-217 | on values, one pass of the main loop takes the categories, chain and character count of `k` cycles to those of `k + 1` |
| Session.Session.RunStep | uts.py:159-217 | pass `k` of the main loop turns the state after `k` passes into the state after `k + 1` |
| Session.Session.MainLoop | uts.py:158-217 | after `cycles` passes the history holds the predicted categories, and the chain and the character count are those of their cycles |
| Session.Session.SessionStats | uts.py:116-128 | the saved pattern total equals the chain length and the average lies in [0, 100]; `last_hash` is absent exactly when the chain is empty, and otherwise it is the last block's hash |
| Session.ChainOfCycles | uts.py:158-217 | the chain after whole cycles has 14 blocks per cycle |
| Session.ChainOfCyclesStep | uts.py:159-217 | one more cycle appends that cycle's blocks onto the chain of the earlier cycles |
| Session.ChainOfCyclesShape | uts.py:158-217 | the chain after whole cycles is linked, and block `j` carries the category of cycle `j / 14` and the length of frame `j mod 14` |
| Session.CharsOfCycles | uts.py:190-213 | whole cycles draw between 189 (all SPIRAL) and 343 (all WAVE) characters per cycle |
| Session.CharsOfCyclesByCategory | uts.py:174-213 | the character total is 343 per WAVE cycle, 252 per PULSE cycle and 189 per SPIRAL cycle |
| Session.CharsOfCyclesStep | uts.py:190-213 | one more cycle adds its characters to the total |
| Session.Scan | uts.py:166-168 | the history that a step function builds from `n` picks has `n` entries |
| Session.ScanStep | uts.py:166-168 | one more pick appends exactly its step from the entries so far |
| Session.ScanDropLast | uts.py:166-168 | dropping the last pick drops only the last entry |
| Session.ScanPrefix | uts.py:166-168 | the entries built from a prefix of the picks are the prefix of the entries |
| Session.ScanAt | uts.py:166-168 | entry `k` is the step from the first `k` entries and pick `k` |
| Session.Categories | uts.py:166-168 | the categories picked in `n` cycles are `n` values; as the scan of `Predict`, `ScanAt` makes each one the prediction from the ones before it |
| Session.RunCategories | uts.py:32-43 | in any run the first three categories are the random picks, and from the fourth cycle on no category occurs three times in a row |
| Session.Run | uts.py:152-223 | start-up dashboard, `cycles` passes, then the saved figures: the categories are the predicted ones, the chain is that of their cycles, 14 patterns per cycle, the character total of those cycles, the last hash of that chain, an average in [0, 100] |

## Left out

- Colours, `print`, `clear_terminal` and the dashboard text (lines 17-27, 134-149, 170-171, 185, 209, 220-234) are left out: they produce output only. The one state change `draw_dashboard` makes, through `calculate_load`, is modelled.
- `time.sleep` and the `sleep_time` formula (lines 154-156, 194-195, 216-217) are left out. They only delay the loop; the load that feeds them is computed and recorded.
- `datetime.now()` is not modelled. Its readings are the string parameters of a `Stamp`, one for the hash and one for the stored timestamp, because the source reads the clock twice per block. The runtime and the session start and end fields of the saved statistics are left out with it.
- SHA-256 and the string's UTF-8 encoding are not modelled. `digest` is a parameter that returns 64 lower-case hex digits, as `hexdigest()` does.
- `random.choice` and `random.uniform` become parameters, with the perturbation constrained to [0, 20]. Their distributions are not modelled.
- The JSON file that `save_session_stats` writes (lines 130-131) is left out. The figures it saves are the `Stats` value.
- The `KeyboardInterrupt` path is modelled only at a cycle boundary. `Session.Run` covers any finite number of whole cycles. An interrupt during a frame's sleep (lines 195 and 217) would leave the state that `Session.Session.Progress` describes for the frames drawn so far, but no member saves statistics from there. `sys.exit` is left out.
- An interrupt that lands inside a frame is not modelled. Between the append to the chain (line 104) and `pattern_count += 1` (line 189) it saves `total_patterns == chain_length - 1`. Between the append to the load history and its trim (lines 69-71) it leaves eleven loads.
- `stats_file` is left out with the file write it names (lines 130 and 233). `log_file` and the `efficiency_score` field are left out because nothing reads them.
- Floating point is not modelled. Loads and averages are exact reals, so rounding in `/ 2`, `sum` and the mean is left out.
- `Monitor.PerformanceMonitor.GetHealthStatus` returns the band as a `Health` value instead of a coloured string.
- Session.Run: states the saved average load only as lying in [0, 100], not its exact value. The final load history is the window of every load computed, but no reference function for the whole run tracks it; `Session.Session.RunCycle` states it per cycle.
