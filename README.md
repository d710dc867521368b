# ETH-A dashboard: a verified model of its core

The ETH-A dashboard turns a daily snapshot of about 45 market and on-chain
indicators into a trading posture for ETH: state A (risk on), B (neutral) or C
(defensive), a position size (beta), a hedge switch, a confidence and the three
heaviest reasons. The repository has six parts, and this project models the logic
of each:

- **The snapshot collector** (`scripts/collector.py`, `src/data/adapters.js`):
  - series arithmetic;
  - the Farside ETF flow table parser and its bot-wall fallback;
  - the derived tridomain and potential scores;
  - the merge of the fetchers' blocks into one payload with a missing list.

  Modules: `Series`, `Farside`, `Derived`, `Collect`, with `Text` and `Values`
  underneath.
- **The decision engine** (`src/engine/pipeline.js`, `src/engine/rules/*.js`,
  `src/utils.js`):
  - one module per threshold rule;
  - the pipeline that pushes one gate per rule, derives the state, sizes the
    position and ranks the reasons.

  Modules: `Utils`, `Macro` … `State`, `Pipeline`, `Reasons`, over the typed
  `EngineInput.Snapshot`.
- **The input object**: how the page and the scripts assemble, coerce, validate,
  backfill and annotate one day's input before the engine runs. `Inputs` holds the
  functions; `InputObjects.InputObject` is the class whose methods update the object
  in place, and each method is proved equal to its function.
- **The two scheduled scripts**: the daily auto-run (`Daily`) and the history
  backfill (`Backfill`). They cover:
  - command lines;
  - status files;
  - the date loop that collects, validates, runs and stores one record per date.

  `History`, `Order` and `Dates` hold the history queries they share.
- **The ETH price seed** (`Seed`): the date sort, the by-date index and the
  cross-check of `scripts/eth_price_seed.py`.
- **The page and the evaluation tools**:
  - `Timeline`, `FieldTrend`, `Eval`, `Perf`, `Summary`, `AppView`, `DeepLink`,
    `EtaTimer` and `AiPayload`;
  - the notifier `DiscordNotify`;
  - the Markdown report `IterationReport`.

Numbers are exact reals. Dates that name a calendar day are day numbers, because
fixed-width `YYYY-MM-DD` keys compare in chronological order. The responses of
HTTP fetches are inputs: strings, or functions from URL to text.

The callers and the collector do not fit together. `scripts/backfill_history.mjs` and
`scripts/daily_autorun.mjs` pass `--date` and `--output` to the collector, then read the
payload back from the `--output` file. `main` in `scripts/collector.py:843-975` reads no
argument and writes only `src/data/auto.json` (line 974). As shipped, every collection
therefore fails when the caller reads the output file:
- the backfill reads a missing file, and after three attempts every sample date becomes a
  collector failure (`scripts/backfill_history.mjs:295-309`);
- the daily run reads null and raises "collector returned empty payload"
  (`scripts/daily_autorun.mjs:170-174`).

The model states this as written (see Findings). Its `Collected` case stands for a
collector that writes the requested file; that collector still collects the current
data and never aligns it to a historical date.

## Model

| member | source | states |
|---|---|---|
| Text.TrimFixpoint | scripts/collector.py:399 | a string is its own trim exactly when no space sits at either end, and trimming twice is trimming once |
| Text.SplitJoin | src/data/adapters.js:122-125 | splitting on a one-character separator and joining back gives the text again |
| Text.JoinSplit | src/data/adapters.js:122-125 | joining pieces free of the separator and splitting again gives the same pieces |
| Text.PyFloat | scripts/collector.py:402 | `float` of a signed decimal literal is its value; any other text is the ValueError |
| Text.JsNumber | src/data/adapters.js:116 | `Number` of blank text is 0, of a signed decimal literal its value, and of any other text NaN |
| Text.CleanIdentity | scripts/collector.py:402 | the replacement of parentheses and commas leaves text without them unchanged, so applying it twice is applying it once |
| Text.SortedSet | scripts/collector.py:970 | `sorted(set(s))` is strictly ascending and holds exactly the strings of `s` |
| Values.DedupFirstOrder | src/ai/payload.js:6-14 | the deduplicated keys come out in the order of their first occurrences |
| Utils.Clamp | src/utils.js:1-3 | with min <= max the result lies in [min, max]; a value inside the range is returned as it is, one below is raised to min, one above is lowered to max |
| Utils.ClampMonotone | src/utils.js:1-3 | clamping keeps the order of two values |
| Utils.Normalize | src/utils.js:18-20 | the rescaled value lies in [0, 100]; a value at or below min gives 0 and one at or above max gives 100 |
| Utils.NormalizeMonotone | src/utils.js:18-20 | for a fixed range `normalize` never decreases as the value grows |
| Series.PercentChange | scripts/collector.py:263-266 | a zero base gives 0; otherwise the result times the base is 100 times the move `latest - previous` |
| Series.ConsecutiveUp | scripts/collector.py:269-275 | true exactly when the series has `count + 1` points and each of the first `count` points is strictly above the next one |
| Series.RoseForChain | src/data/adapters.js:25-31 | a run of `count` rises leaves the newest point above every point of the run |
| Series.Delta | scripts/collector.py:278-281 | a series with no more than `offset` points gives 0 |
| Series.DeltaTelescopes | src/data/adapters.js:33-36 | `delta` is the sum of the single-step changes it spans, so a run of rises gives a positive delta |
| Series.FciUpWeeks | src/data/adapters.js:58 | the value is 0, 1 or 2; it is 2 exactly when NFCI rose twice in a row and 0 exactly when it did not rise once, a missing point comparing false |
| Series.At | src/data/adapters.js:51-57 | `s[k]?.value ?? fallback`: the point when there is one, else the fallback |
| Series.MacroFromSeries | src/data/adapters.js:42-75 | each field of the macro block: the 5-step DXY change with its fallback to the oldest point, the 3-step DXY rise, the 2Y points and their bp move, the NFCI weeks, the RRP and TGA deltas, the ISM point, and the fixed `policyWindow: false` and `srfChange: 0` |
| Series.SumReverse | src/data/adapters.js:144-145 | summing the flows newest first or oldest first gives the same total |
| Series.NewestAreLast | src/data/adapters.js:142 | after `slice(-30).reverse()` the newest `n` flows are the last `n` rows of the table |
| Series.EtfFromRows | src/data/adapters.js:138-153 | no rows is the parse error; otherwise the 1-day flow is the last row, the 5- and 10-day flows are the sums of the last 5 and 10 rows (or of all of them), and volume is confirmed exactly when the 1-day flow is at least 100 in size |
| Series.Newest | src/data/adapters.js:142-145 | within the newest 30 rows, the `n` newest flows sum to the last `n` rows, and the first one is the last row |
| Series.NewestAt | src/data/adapters.js:142 | the `i`-th of the newest flows after `slice(-30).reverse()` is the row `i` places before the last |
| Farside.ParseNumber | scripts/collector.py:396-402 | blank text reads as 0, and the only error is the `float()` error on the cleaned, stripped text |
| Farside.DashIsZero | scripts/collector.py:399-401 | a cell that strips to one of the three dashes reads as 0 |
| Farside.ParenthesizedIsNegative | scripts/collector.py:402 | a plain decimal reads as its value, and the same decimal in parentheses reads as its negation |
| Farside.NegatedParses | scripts/collector.py:402 | a minus sign before a decimal negates what `float()` reads |
| Farside.CommaIgnored | scripts/collector.py:402 | a thousands separator between two parts does not change the number read |
| Farside.WithUnit | scripts/collector.py:413-420 | a leading K, M or B in either case scales by a thousand, a million or a billion; any other text leaves the number alone |
| Farside.ParseMoney | scripts/collector.py:405-411 | no value, or text whose first character after stripping and dropping commas cannot start a number, reads as 0 |
| Farside.ScaledMoney | scripts/collector.py:409-420 | text that does not start with a number reads as 0, and the only error is `float()` failing on the matched run |
| Farside.MoneyWithUnit | scripts/collector.py:408-419 | a decimal directly followed by a unit letter reads as the decimal scaled by that unit |
| Farside.TwelveAndAHalfMillion | scripts/collector.py:405-420 | "12.5M" reads as 12,500,000 |
| Farside.UnitIgnoresCase | scripts/collector.py:409 | the unit letter is matched case-insensitively: m/M, k/K and b/B read alike |
| Farside.StripAll | scripts/collector.py:428 | every cell, in order, is its part stripped |
| Farside.TableRows | scripts/collector.py:425-432 | there are no more kept rows than lines, and every kept row has more than three cells and a date in its second cell |
| Farside.ParseTotals | scripts/collector.py:435 | a successful comprehension yields at most one entry per row |
| Farside.DatedTotals | scripts/collector.py:435 | when every row has a date cell, each row yields exactly one entry: its date and the number its next-to-last cell reads as |
| Farside.CollectRows | scripts/collector.py:424-432 | the append loop yields exactly the kept rows |
| Farside.ParseFarsideTable | scripts/collector.py:423-436 | the parse is `list(reversed(parsed[-30:]))` over the kept rows, and an empty table gives `[]` |
| Farside.TableShape | scripts/collector.py:433-436 | the table holds at most 30 rows and each row's date cell holds a date |
| Farside.NewestFirst | scripts/collector.py:436 | the first row returned is the last kept row, with its date and its parsed total |
| Farside.NonEmptyCells | scripts/collector.py:444 | the cells kept are never blank and never outnumber the parts |
| Farside.ParseAll | scripts/collector.py:448 | a successful parse yields, position by position, the number each cell reads as |
| Farside.RaisedPrefix | scripts/collector.py:441-453 | once a line raises, the whole parse raises that same error |
| Farside.ParseFarsideRows | scripts/collector.py:439-454 | the loop yields the checksum rows of the lines in order, stopping at the first line that raises |
| Farside.CheckRowShape | scripts/collector.py:447-453 | a checksum row has a dated first cell, its total is its last number and its sum is the sum of the numbers before it, with at least two numbers |
| Farside.IsCloudflareBlocked | scripts/collector.py:456-460 | empty text counts as blocked |
| Farside.BlockedIgnoresCase | scripts/collector.py:459-460 | the test ignores letter case: a page and its lower-case copy are blocked alike |
| Farside.JustAMomentIsBlocked | scripts/collector.py:460 | a page with "Just a moment" anywhere in it is blocked |
| Farside.BlockNotes | scripts/collector.py:469-470 | the block note is added exactly when the direct page is blocked |
| Farside.ComponentErrors | scripts/collector.py:474-478 | at most one note, present exactly when there is a checksum row whose total and component sum differ by more than 0.1 |
| Farside.CrossErrors | scripts/collector.py:486-489 | at most one note, present exactly when both copies parse and their newest totals differ by more than 0.1 |
| Farside.FetchFarsideSource | scripts/collector.py:463-496 | the fetch steps give what the decision function states for the direct and the proxied copy |
| Farside.Decide | scripts/collector.py:466-496 | the branches after the direct fetch give what the decision function states |
| Farside.CrossCheck | scripts/collector.py:486-489 | the cross-check step adds exactly the cross-check note |
| Farside.ComponentCheck | scripts/collector.py:490-494 | the checksum step adds exactly the checksum note |
| Farside.FallbackToJina | scripts/collector.py:468-479 | a blocked or empty direct page whose proxied copy parses gives the proxied rows, the source tagged "(Jina)", and the block note (when blocked) followed by the checksum note |
| Farside.NothingParses | scripts/collector.py:496 | when neither copy parses, the result is no rows, no source and at most the block note |
| Farside.DirectAccepted | scripts/collector.py:480-495 | an unblocked page that parses is used as it is under its own tag; the proxied copy adds the cross-check note only when both parse and differ by more than 0.1, then the checksum note follows |
| Farside.NotesCarryLabel | scripts/collector.py:470-494 | every note of a source starts with the source's tag |
| Farside.EtfBlock | scripts/collector.py:512-530 | the block's keys, `etf1d` as the newest total (0 when nothing parsed), `etf5d` and `etf10d` as the sums of the newest five and ten, `prevEtfExtremeOutflow` false, the three ETF keys missing exactly when nothing parsed |
| Farside.FirstFlows | scripts/collector.py:507-511 | the first page's result unless it parsed nothing, else the second page's; the notes of every page tried are kept and a raised parse propagates |
| Farside.FetchFarside | scripts/collector.py:499-530 | the loop over the two pages gives exactly the first-page-that-parses result |
| Farside.EtfSumsNewest | scripts/collector.py:512-514 | with rows present `etf1d` is the newest total, `etf5d` and `etf10d` sum the first five and ten totals, and nothing is missing |
| Farside.TotalsPrefix | scripts/collector.py:513-514 | the first `n` totals are the totals of the first `n` rows |
| Farside.JsParseNumber | src/data/adapters.js:113-118 | blank text is 0, text `Number()` cannot read is 0, and anything else is `Number()` of the cleaned text |
| Farside.JsPipeLines | src/data/adapters.js:121 | every line kept starts with a pipe once trimmed |
| Farside.JsCells | src/data/adapters.js:124 | one cell per piece of the split |
| Farside.JsTableRows | src/data/adapters.js:122-129 | every row kept has a "dd Mon yyyy" date in its second cell |
| Farside.JsParseFarsideTable | src/data/adapters.js:120-130 | the header and separator lines are skipped: the table holds at least two pipe lines more than rows, or no rows |
| Farside.EtfFromTable | src/data/adapters.js:138-146 | an empty table is the parse error; otherwise the 1-day flow is the last row of the table |
| Farside.DatedStep | scripts/collector.py:435 | taking the last dated row off a table that parses leaves a table that parses, whose entries are the original ones less the last |
| Derived.Unit | scripts/collector.py:772-773 | `clamp` with bounds 0 and 1: the result lies in [0, 1], a value inside is kept, one below is 0 and one above is 1 |
| Derived.ReturnsUpToEmpty | scripts/collector.py:779-786 | the first `n` steps give no return exactly when each of the closes 1 to `n` is zero |
| Derived.ReturnsEmpty | scripts/collector.py:785-786 | there are no step returns exactly when every close after the first is zero |
| Derived.InsertReal | scripts/collector.py:794 | inserting into a sorted list keeps it sorted and adds exactly that element |
| Derived.SortReals | scripts/collector.py:794 | `sorted(returns)` is sorted and a permutation of the returns |
| Derived.WorstAreSmallest | scripts/collector.py:794 | the `k` first of the sorted returns are none of them above a return left out |
| Derived.WorstCount | scripts/collector.py:794 | `max(1, int(len * 0.1))` is at least 1 and, for a non-empty list, no more than its length |
| Derived.Scores | scripts/collector.py:789-798 | topo, spectral and deltaES lie in [0, 1], and roughPath is `1 - deltaES` |
| Derived.TridomainAsWritten | scripts/collector.py:776-798 | the code as written raises exactly when it has ten closes, some step return, a non-zero last close and a zero close seven steps back |
| Derived.WeekZeroRaises | scripts/collector.py:788 | a non-zero last close with a zero close seven steps back makes the source raise `ZeroDivisionError` |
| Derived.AsWrittenAgrees | scripts/collector.py:787-798 | wherever the source does not raise, it gives the corrected result |
| Derived.ComputeTridomain | scripts/collector.py:776-798 | no result for fewer than ten closes or when every close after the first is zero; otherwise four scores in [0, 1] with roughPath = 1 - deltaES, equal to the corrected definition |
| Derived.StepReturns | scripts/collector.py:779-784 | the loop gives the returns of the steps whose earlier close is non-zero, in step order |
| Derived.PyOr | scripts/collector.py:802-808 | `value or d`: None, 0 and False give `d`, True counts as 1, any other number is itself, and a non-zero default never yields 0 |
| Derived.GetOr | scripts/collector.py:802-808 | `data.get(key, d) or d` on an absent key is `d` |
| Derived.Threshold | scripts/collector.py:817 | the sentiment threshold lies in [0.3, 0.8] |
| Derived.ThresholdMonotone | scripts/collector.py:817 | a higher Fear & Greed reading never lowers the threshold |
| Derived.PotentialScores | scripts/collector.py:810-815 | the cognitive, liquidity and reflexivity potentials each lie in [0, 1] |
| Derived.ComputePotentials | scripts/collector.py:801-825 | raises exactly when an input it reads is not a number or a boolean; otherwise three potentials in [0, 1] and a threshold in [0.3, 0.8] present exactly when `fearGreed` is in the data |
| Derived.SameReadsSamePotentials | scripts/collector.py:802-817 | two records that read alike give the same potentials |
| Derived.DefaultReadsAlike | scripts/collector.py:802-808 | setting a read key to a value that reads as its default is the same as leaving it out |
| Derived.MissingMeansDefault | scripts/collector.py:802-808 | an absent key, None and 0 give the same potentials |
| Derived.ZeroDensityReadsAsOne | scripts/collector.py:808 | a zero float density gives the same potentials as the default density 1 |
| Derived.StableScores | scripts/collector.py:918-929 | rsdScore lies in [0, 10], and mappingRatioDown holds exactly when ETH's stablecoin share fell |
| Derived.ShareFallsWithAmount | scripts/collector.py:923-926 | with the same positive total on both days, the share falls exactly when ETH's amount falls |
| Derived.FeeScores | scripts/collector.py:937-943 | lstcScore lies in [0, 10], and netIssuanceHigh holds exactly when the week's fees are below 0.6 of the average week |
| Derived.BusyWeekScoresTen | scripts/collector.py:940-942 | a week at least as busy as the average week scores the full 10 and is not high issuance |
| Collect.Merged | scripts/collector.py:828-836 | the merged block carries no notes; its data, sources and missing list fold the blocks in order |
| Collect.MergedKeys | scripts/collector.py:832-834 | a key is in the merged data exactly when some block supplies it |
| Collect.LastWriterWins | scripts/collector.py:832-834 | the merged value of a key is the one of the last block that supplies it |
| Collect.Merge | scripts/collector.py:828-836 | the update loop over the blocks yields the merged data, sources and concatenated missing lists |
| Collect.StripNone | scripts/collector.py:839-840 | a key survives exactly when it is present with a value other than None, and keeps that value |
| Collect.Labelled | scripts/collector.py:851-852 | each note is prefixed with the fetcher's name and ": ", in order |
| Collect.SafeCall | scripts/collector.py:846-857 | a fetcher that raised yields empty data and sources, its declared missing keys and one "name: message" note; otherwise its block passes through with its extra notes labelled |
| Collect.CallBlocks | scripts/collector.py:860-878 | the eleven fetcher results are wrapped in call order with their names and declared missing keys |
| Collect.AllErrorsIn | scripts/collector.py:852-856 | a note of any wrapped block reaches the error list |
| Collect.AllErrorsFrom | scripts/collector.py:852-856 | every note in the error list comes from some wrapped block |
| Collect.GatherBlocks | scripts/collector.py:846-878 | the safe_call sequence yields exactly the wrapped blocks and the notes they carry, in order |
| Collect.Numbers | scripts/collector.py:896 | a list reads as numbers exactly when every item reads as a Python number; then the result keeps the length and holds each item's `float` value in order |
| Collect.WithTridomain | scripts/collector.py:896-907 | the update raises exactly when the close series is truthy but not a list of numbers, or when compute_tridomain as written divides by a zero close seven steps back; otherwise the corrected scores are added when there are some and the state is unchanged when there are none |
| Collect.WithPotentials | scripts/collector.py:908-916 | raises exactly when the potentials computation raises; otherwise writes the cognitive, liquidity and reflexivity potentials and the threshold (None exactly when no Fear & Greed reading is present), keeps every other key and adds the potential sources |
| Collect.WithStable | scripts/collector.py:918-935 | without all four stablecoin amounts the state is unchanged; with them it raises exactly when an amount or the RWA share does not read as a number (a zero total reads as 1, so no division by zero), and otherwise writes the clamped RSD score (0 to 10) and whether the 7-day share fell below the 30-day share, keeping every other key |
| Collect.WithFees | scripts/collector.py:937-949 | without both fee totals the state is unchanged; with them it raises exactly when a fee total does not read as a number, and otherwise writes the clamped fee score (0 to 10) and whether the 7-day fees are below 0.6 of a quarter of the 30-day fees, keeping every other key |
| Collect.Enrich | scripts/collector.py:895-949 | the derived updates run in order, the first exception propagating |
| Collect.HelperNotRequired | scripts/collector.py:22-67 | no intermediate key popped before the write is a required field |
| Collect.PairNotRequired1 | scripts/collector.py:955-956 | the two series helpers are not required fields |
| Collect.PairNotRequired2 | scripts/collector.py:957-958 | the total stablecoin helpers are not required fields |
| Collect.PairNotRequired3 | scripts/collector.py:959-960 | the ETH stablecoin helpers are not required fields |
| Collect.PairNotRequired4 | scripts/collector.py:961-962 | the RWA share and weekly fee helpers are not required fields |
| Collect.PairNotRequired5 | scripts/collector.py:963-964 | the monthly fee and Fear & Greed helpers are not required fields |
| Collect.MissingFields | scripts/collector.py:951-953 | the loop lists, in order, the required fields that are absent or None |
| Collect.CollectSnapshot | scripts/collector.py:843-973 | main: fetch_macro's exception propagates, the other fetchers are wrapped and merged, the derived updates applied, the missing list recomputed and sorted, helper keys and None values dropped |
| Collect.PayloadShape | scripts/collector.py:951-972 | the missing list is strictly sorted and free of repeats, a required field is missing exactly when the data lacks it, and the data holds no None and no helper key |
| Collect.NotesNamed | scripts/collector.py:846-857 | each note in the error list starts with the name of the fetcher it came from |
| Collect.FailureNoted | scripts/collector.py:855-857 | a fetcher that raised leaves its "name: message" note in the error list |
| Collect.MergeData | src/data/adapters.js:244-254 | data and sources merge with later blocks winning; missing is the first-seen-order union of the blocks' missing keys |
| Collect.AddToSet | src/data/adapters.js:251 | adding the items to the Set keeps it the first-seen dedup of everything seen |
| Collect.MergedMissingIsUnion | src/data/adapters.js:247-253 | the merged missing list holds each key once, and exactly the keys some block declared missing |
| Macro.EvalMacro | src/engine/rules/macro.js:1-15 | each trigger is listed exactly when its threshold fires (DXY 5d ≥ 1 or 3-day rise, 2Y ≥ 10 bp, FCI up ≥ 2 weeks), in fixed order; the gate closes on one trigger and forces C on two |
| Liquidity.EvalLiquidity | src/engine/rules/liquidity.js:3-11 | the weighted score lies in [0, 100]; red exactly below 35; the label is starved below 35, tight in [35, 50) and normal from 50 |
| Liquidity.EtfScoreSaturates | src/engine/rules/liquidity.js:4 | the ETF subscore is 0 at or below −800 and 100 at or above 800 |
| RiskSwitch.EvalRiskOn | src/engine/rules/riskSwitch.js:1-7 | outside the policy window the switch is off with its note; inside it is on exactly when both the 2Y yield and the DXY are below their pre-meeting levels, and the note says which |
| Leverage.EvalLeverage | src/engine/rules/leverage.js:1-21 | high crowding exactly at an index ≥ 80; the one-third penalty needs crowding and no ETF inflow; the half penalty exactly above 1e9 liquidations; each structure note appears exactly when its flag is set, in fixed order |
| Supply.EvalSupply | src/engine/rules/supply.js:1-12 | each flag by its threshold; the bubble warning needs high elasticity, growth above 0.4 and a stable exchange balance, so it excludes a thin sell wall; one note per raised flag, in fixed order |
| Etf.EvalEtf | src/engine/rules/etf.js:1-7 | five-day red at ≤ −400, extreme outflow at ≤ −180; a breakout is validated exactly on an inflow with volume confirmation, and its note says which |
| Danger.EvalDanger | src/engine/rules/danger.js:1-9 | the triple hit is exactly macro closed, liquidity red and five-day red; each risk signal appears exactly when its flag is set, in fixed order; the weight is their count |
| Svc.EvalSvc | src/engine/rules/svc.js:3-11 | the score is the mean of the two captures; the cap shifts up from 7, down at or below 3, else not; the confidence multiplier lies in [0.85, 1.15]; one red light per raised flag, in order |
| Bpi.Strength | src/engine/rules/bpi.js:4-7 | buyer strength lies in [0, 1] |
| Bpi.StrengthMonotone | src/engine/rules/bpi.js:5-7 | a thin sell wall never lowers the strength; high crowding never raises it |
| Bpi.EvalBpi | src/engine/rules/bpi.js:3-13 | dominant above 0.7, probing in (0.45, 0.7], absent at or below 0.45; the beta hint A, B or C follows the same bands |
| Phase.EvalPhase | src/engine/rules/phase.js:1-9 | Up-Mid exactly on momentum above 0.65 with divergence below 0.45; otherwise Late-Div exactly on divergence above 0.65; otherwise the reversal label; each with its note |
| Bcm.Share | src/engine/rules/bcm.js:14-15 | the share of four conditions is the number that hold divided by four: a quarter step, 1 exactly when all hold |
| Bcm.ConflictLabelsDiffer | src/engine/rules/bcm.js:17-21 | the five conflict labels are pairwise different |
| Bcm.CollectConflicts | src/engine/rules/bcm.js:16-21 | each conflict is listed exactly when its condition holds, in the fixed order |
| Bcm.EvalBcm | src/engine/rules/bcm.js:1-23 | the bull score is a quarter of the count of: gate open, liquidity above 50, positive 10-day ETF flow, phase "up-mid"; the bear score a quarter of the count of: gate closed, five red ETF days, red liquidity, liquidations above 1e9; each conflict appears exactly on its condition, in order |
| Ataf.TighteningLabelsDiffer | src/engine/rules/ataf.js:5-9 | the five tightening labels are pairwise different |
| Ataf.CollectTightening | src/engine/rules/ataf.js:5-9 | each tightening signal is listed exactly when its threshold fires, in fixed order |
| Ataf.TighteningInOrder | src/engine/rules/ataf.js:5-9 | whichever tightening labels are pushed, they form an ordered subsequence of the fixed order |
| Ataf.CollectEasing | src/engine/rules/ataf.js:11-12 | SRF release and ISM ≥ 50 each listed exactly when they hold, in order |
| Ataf.EvalAtaf | src/engine/rules/ataf.js:1-26 | both signal lists as above; the bias is tightening or easing only with a margin of more than one signal, else neutral |
| Be.EvalBe | src/engine/rules/be.js:1-5 | passes exactly when the potential is strictly above the sentiment threshold; three potentials in [0, 1] give a potential in [0, 1] |
| State.CalculateStateBias | src/engine/rules/state.js:3-13 | the accumulated score is the clamp to [0, 100] of the sum of the seven adjustments |
| State.StateBiasMonotone | src/engine/rules/state.js:7-9 | Risk-ON never lowers the score and a closed macro gate never raises it |
| State.DeriveState | src/engine/rules/state.js:15-20 | a forced C or a triple hit gives C whatever the score; otherwise A from 65, C at or below 35, B between |
| State.ApplyStateCaps | src/engine/rules/state.js:22-27 | only a closed gate on A changes the tier, to B; the tier never rises |
| State.ApplyDriftDegrade | src/engine/rules/state.js:29-39 | danger lowers each tier one step with C staying C, warn lowers only A, ok leaves it; the tier never rises |
| State.PenaltyFactorMonotone | src/engine/rules/state.js:44-46 | the combined penalty factor lies in (0, 1] |
| State.BetaSpec | src/engine/rules/state.js:41-48 | the beta lies in [0, 1] and never exceeds a non-negative cap |
| State.ComputeBeta | src/engine/rules/state.js:41-48 | multiplying the base beta by each active factor in turn yields the capped, clamped beta of the penalty set |
| State.BetaSpecMonotone | src/engine/rules/state.js:43-47 | a smaller penalty factor never gives a larger beta |
| State.PenaltyNeverRaisesBeta | src/engine/rules/state.js:44-46 | switching on any one penalty never raises the beta |
| Hpm.EvalHpm | src/engine/rules/hpm.js:1-12 | defensive on C in Late-Div, accelerating on A with tri-domain permission, incubating on B in reversal, transitional otherwise; always one of the four bands |
| Reasons.Insert | src/engine/pipeline.js:494-495 | inserting into a weight-descending list keeps it descending, adds exactly that reason, and puts it first or keeps the old head |
| Reasons.SortByWeight | src/engine/pipeline.js:494-495 | the stable sort by weight is descending and a permutation of the reasons |
| Reasons.Refs | src/engine/pipeline.js:497 | each reason is reduced to its text and gate id, in order |
| Reasons.HeavierPrefix | src/engine/pipeline.js:494-496 | in a descending list every element of a prefix weighs at least as much as every element after it |
| Reasons.TopThreeAreHeaviest | src/engine/pipeline.js:494-496 | the first three after sorting are min(3, n) reasons taken from the list, heaviest first, and none left out outweighs one kept |
| Reasons.InsertKeepsWeightOrder | src/engine/pipeline.js:494-495 | inserting into a descending list appends the reason behind the reasons of its own weight and leaves the order of every weight's reasons as it was |
| Reasons.SortByWeightStable | src/engine/pipeline.js:494-495 | the sort is stable: for every weight, the reasons of that weight come out in their input order |
| Reasons.TopReasons | src/engine/pipeline.js:494-497 | at most three references are kept, exactly three when there are at least three reasons |
| Pipeline.NormalizeDrift | src/engine/pipeline.js:29-32 | "danger" and "warn" are kept, every other level reads as ok |
| Pipeline.DriftMultiplier | src/engine/pipeline.js:33-40 | a supplied positive multiplier wins, otherwise 0.72, 0.86 or 1 by level; the result is positive |
| Pipeline.ExecutionCostBps | src/engine/pipeline.js:51-52 | a supplied positive cost wins, otherwise 12 basis points; the result is positive |
| Pipeline.ReversalBoost | src/engine/pipeline.js:251-256 | no boost outside the BTD→BTR phase; inside it the boost lies in [−0.04, 0.06] |
| Pipeline.BetaCapFor | src/engine/pipeline.js:381-382 | the cap lies in [0.2, 1] |
| Pipeline.DistributionBoost | src/engine/pipeline.js:392-393 | no boost below two distribution hits, at least 0.03 from two |
| Pipeline.ExecutionTier | src/engine/pipeline.js:406-414 | high with 0.82 from a pressure of 0.7, medium with 0.9 from 0.45, ok with 1 below; the multiplier lies in (0, 1] |
| Pipeline.ExecutionFor | src/engine/pipeline.js:401-414 | the previous beta defaults to the current one; turnover, expected cost, edge (at least 0.02) and pressure are as defined, the tier follows the pressure, and with no previous beta there is no turnover and the tier is ok |
| Pipeline.ReasonsOf | src/engine/pipeline.js:467-492 | each reason kind carries its text, weight and gate, in order |
| Pipeline.CollectRedLightReasons | src/engine/pipeline.js:467-469 | the macro and liquidity reasons are listed exactly on their conditions, in order |
| Pipeline.CollectPenaltyReasons | src/engine/pipeline.js:470-473 | the ETF red light and the two leverage penalties are listed exactly on their conditions, in order |
| Pipeline.CollectSvcReasons | src/engine/pipeline.js:474-475 | the strong and weak SVC reasons are listed exactly on a score from 7 and at most 3 |
| Pipeline.CollectBreakoutReasons | src/engine/pipeline.js:476-477 | exactly one of the breakout reasons is listed, by the validation flag |
| Pipeline.CollectQualityReasons | src/engine/pipeline.js:478-486 | the distribution gate and the two drift levels are listed exactly on their conditions, in order |
| Pipeline.CollectExecutionReasons | src/engine/pipeline.js:487-492 | the friction and cost reasons are listed exactly on the medium and high execution levels |
| Pipeline.CollectReasons | src/engine/pipeline.js:466-492 | the fifteen checks give an ordered selection of the reasons, each present exactly when its condition holds |
| Pipeline.SnapshotReasons | src/engine/pipeline.js:466-492 | the reasons collected from the rule results of a snapshot are its reference reasons |
| Pipeline.AssembleOrder | src/engine/pipeline.js:466-492 | blocks each ordered in their part keep the overall check order when concatenated |
| Pipeline.AssembleRiskMember | src/engine/pipeline.js:467-475 | a macro, ETF, leverage or SVC reason is in the whole list exactly when it is in its own block |
| Pipeline.AssembleQualityMember | src/engine/pipeline.js:476-492 | a breakout, quality or execution reason is in the whole list exactly when it is in its own block |
| Pipeline.Annotated | src/engine/pipeline.js:516-531 | the annotated gate has one source and one timing per input key, sources defaulting to "Derived", and nothing else changes |
| Pipeline.AnnotateGates | src/engine/pipeline.js:515-532 | every gate is annotated in place, in order |
| Pipeline.EvaluateRules | src/engine/pipeline.js:55-264 | the rule results of the snapshot: the macro gate and forced C by trigger count, the triple hit, the SVC score and multiplier bounds, the leverage penalties and the buyer strength |
| Pipeline.MacroGate | src/engine/pipeline.js:56-74 | G0, closed exactly when the macro gate is closed |
| Pipeline.LiquidityGate | src/engine/pipeline.js:77-94 | V1, closed exactly on the liquidity red light |
| Pipeline.RiskSwitchGate | src/engine/pipeline.js:97-115 | V2, open exactly on Risk-ON |
| Pipeline.AtafGate | src/engine/pipeline.js:118-135 | D-ATAF, warn exactly on a tightening bias |
| Pipeline.LeverageGate | src/engine/pipeline.js:138-158 | V3, closed exactly on the half penalty |
| Pipeline.SupplyGate | src/engine/pipeline.js:161-181 | V4, warn exactly on the bubble warning |
| Pipeline.EtfGate | src/engine/pipeline.js:184-203 | V5, closed exactly on the five-day red light |
| Pipeline.DangerGate | src/engine/pipeline.js:206-223 | V6, closed exactly on the triple hit |
| Pipeline.SvcGate | src/engine/pipeline.js:226-245 | V6.2, open exactly from a score of 7 and closed exactly at or below 3 |
| Pipeline.BpiGate | src/engine/pipeline.js:266-284 | V7, open exactly above a strength of 0.7 |
| Pipeline.BcmGate | src/engine/pipeline.js:286-305 | V8, open exactly on a bull score from 0.75, with at most three conflict rules |
| Pipeline.HpmGate | src/engine/pipeline.js:307-323 | HPM, always open, its note the historical band |
| Pipeline.PhaseGate | src/engine/pipeline.js:325-340 | SC, warn exactly in Late-Div |
| Pipeline.BeGate | src/engine/pipeline.js:342-360 | BE, open exactly when the phase change passes |
| Pipeline.TriDomainGate | src/engine/pipeline.js:362-379 | 3域, open exactly when the tri-domain scan allows |
| Pipeline.DistributionGate | src/engine/pipeline.js:429-443 | DG, open exactly on two or more distribution hits |
| Pipeline.QualityGate | src/engine/pipeline.js:445-464 | QG, closed on drift danger, warn on warn, open on ok |
| Pipeline.ActGate | src/engine/pipeline.js:564-593 | ACT, closed on C, warn on B, open on A |
| Pipeline.PushRuleGates | src/engine/pipeline.js:54-379 | fifteen unannotated gates, in push order G0 to 3域 |
| Pipeline.PushMarketGates | src/engine/pipeline.js:56-158 | the first five gates G0 to V3, in order, unannotated |
| Pipeline.PushFlowGates | src/engine/pipeline.js:161-284 | the next five gates V4 to V7, in order, unannotated |
| Pipeline.PushStructureGates | src/engine/pipeline.js:286-379 | the last rule gates V8 to 3域, in order, unannotated |
| Pipeline.AnnotatedGateList | src/engine/pipeline.js:429-532 | all gates but ACT in push order, each with one source and one timing per input key |
| Pipeline.GateList | src/engine/pipeline.js:564-593 | the annotated gates followed by ACT, which keeps no annotation |
| Pipeline.ConfidenceBase | src/engine/pipeline.js:394-398 | the raw confidence lies in [0.38, 0.65] |
| Pipeline.ConfidenceFor | src/engine/pipeline.js:394-399 | the accumulated confidence is the clamp to [0.2, 0.95] of the scaled, boosted base |
| Pipeline.ScaledClampMonotone | src/engine/pipeline.js:399 | scaling by a positive multiplier, shifting and clamping keep the order of two base confidences |
| Pipeline.ClosedNeverRaisesConfidence | src/engine/pipeline.js:397-399 | a closed macro gate never raises confidence |
| Pipeline.RiskOnNeverLowersConfidence | src/engine/pipeline.js:395-399 | Risk-ON never lowers confidence |
| Pipeline.BreakoutNeverLowersConfidence | src/engine/pipeline.js:396-399 | a validated breakout never lowers confidence |
| Pipeline.RiskSignalNeverRaisesConfidence | src/engine/pipeline.js:398-399 | a danger signal never raises confidence |
| Pipeline.DecideState | src/engine/pipeline.js:259-262 | a forced C or triple hit gives C; a closed gate or any drift rules out A; the state is derive, then cap, then degrade |
| Pipeline.ScaledBeta | src/engine/pipeline.js:390-415 | the scaled beta lies in [0, 1], under a cap in [0, 1], and a multiplier in (0, 1] never raises it |
| Pipeline.DriftedBeta | src/engine/pipeline.js:381-390 | the cap, the penalties (a closed gate with no ETF inflow forces the third), the raw beta under the cap and the drifted beta under the cap |
| Pipeline.SizePosition | src/engine/pipeline.js:381-415 | cap, penalties, raw and final beta under the cap, confidence in [0.2, 0.95], and the execution tier following the cost pressure |
| Pipeline.RankedReasons | src/engine/pipeline.js:466-497 | the result is the top three, by weight, of exactly the reasons whose conditions hold, in check order before ranking |
| Pipeline.RiskNotes | src/engine/pipeline.js:499-513 | the danger signals come first, then one line per red light, then the breakout note and seven summary lines |
| Pipeline.Decide | src/engine/pipeline.js:25-427 | the decision: drift level, multiplier and cost as normalised; beta and confidence in range; a forced C or triple hit gives C; hedge exactly on C, triple hit or drift danger; extreme positions exactly when all eight conditions hold |
| Pipeline.RunPipeline | src/engine/pipeline.js:25-596 | the returned decision: bounds on beta, cap and confidence, the state rules, hedge and extreme-position conditions, the top three of exactly the reasons whose conditions hold for the snapshot, drift level and execution tier, the gates in order G0 to ACT with provenance on all but ACT, and the liquidity score |
| Order.InsertBy | scripts/daily_autorun.mjs:485 | inserting into a list sorted by key keeps it sorted and adds exactly that element |
| Order.InsertBehindHead | scripts/daily_autorun.mjs:485 | behind a head whose key is not greater than the new element's, the insertion into the tail stays sorted and adds exactly that element |
| Order.HeadBelowTail | scripts/daily_autorun.mjs:485 | every element of that insertion has a key no smaller than the head's |
| Order.SortedCons | scripts/daily_autorun.mjs:485 | a head whose key is at most every key of a sorted tail gives a sorted list |
| Order.SortBy | scripts/daily_autorun.mjs:485 | the comparator sort by date is sorted and a permutation of its input |
| Order.SameMembers | scripts/daily_autorun.mjs:485 | a permutation has the same members |
| Order.Filter | scripts/daily_autorun.mjs:483 | the filter keeps exactly the elements that satisfy the predicate, and is no longer than its input |
| Order.FilterSub | scripts/daily_autorun.mjs:483 | the filter keeps its elements in their order |
| Order.MaxKey | src/ui/timeline.js:1-5 | the greatest key is at least every element's key and is the key of some element |
| Order.SortedEnds | src/ui/timeline.js:34-36 | the first element of a sorted list has the least key and the last the greatest |
| Order.MaxKeySameMembers | src/ui/timeline.js:1-5 | lists with the same elements have the same greatest key |
| Order.InsertLast | scripts/backfill_history.mjs:150 | an element whose key is at least every key of a sorted list is inserted at its end |
| Order.SortBySorted | scripts/backfill_history.mjs:150 | sorting a list that is already sorted changes nothing |
| Dates.ParseIsoDate | scripts/backfill_history.mjs:128-132 | a key parses exactly when it names a calendar day, and then to that day |
| Dates.IsoDaysAgo | scripts/backfill_history.mjs:134-139 | an unparseable base comes back unchanged; otherwise the result parses to the base day minus the offset |
| Dates.PreviousDateKey | scripts/backfill_history.mjs:153-158 | one UTC day earlier, or the input unchanged when it does not parse |
| Dates.AddDays | src/ui/eval.js:10-16 | null exactly for an unparseable key, otherwise the key shifted forward by the given days |
| History.FindDate | src/ui/timeline.js:14-16 | the first record of that day, or null exactly when no record has it |
| History.LatestRecordBefore | scripts/backfill_history.mjs:160-165 | a record strictly before the date with no earlier-dated record later than it, or null exactly when every record is on or after the date |
| History.MergeHistory | scripts/daily_autorun.mjs:482-487 | the result is sorted by date and is exactly the records of other dates plus the new record |
| History.MergeHistoryContents | scripts/daily_autorun.mjs:482-487 | the new record appears once and is the only record of its date; every record of another date is kept and nothing else is added |
| Timeline.NewestFirst | src/autoRun.js:3 | the newest-first sort puts a record with the greatest date first |
| Timeline.ShouldAutoRunIff | src/autoRun.js:1-5 | no auto-run exactly when there is history and its greatest date is today |
| Timeline.ShouldAutoRunOrderFree | src/autoRun.js:1-5 | the verdict does not depend on the order of the history |
| Timeline.IndexByDate | src/ui/timeline.js:4 | the map holds exactly the dates of the records, each mapped to a record of that date |
| Timeline.IndexLastWins | src/ui/timeline.js:4 | a date's entry is the last record of that date: no record after it has the same date |
| Timeline.DatesOf | src/ui/timeline.js:3 | one date per record |
| Timeline.DatesOfAt | src/ui/timeline.js:3 | the date at each position is the date of the record at that position |
| Timeline.DatesOfAppend | src/ui/timeline.js:3 | the dates of two runs of records are the dates of each, one after the other |
| Timeline.DatesOfInsert | src/ui/timeline.js:2-3 | inserting a record into a sorted copy adds exactly its date to the dates |
| Timeline.DatesOfSort | src/ui/timeline.js:2-3 | the sorted copy has the same dates as the history, as often each |
| Timeline.OldestFirstEnds | src/ui/timeline.js:2-9 | the oldest-first sort starts and ends with records of the history, the last carrying the greatest date |
| Timeline.BuildTimelineIndex | src/ui/timeline.js:1-11 | the dates ascend and number the records; latest and earliest are null exactly for no history, else the greatest and the least date; the index holds exactly the dates present, each mapped to a record of that date |
| Timeline.TimelineDatesPermute | src/ui/timeline.js:2-3 | the timeline's dates are the history's dates, as often each |
| Timeline.TimelineIndexLastWins | src/ui/timeline.js:2-4 | for each date the index keeps the last record of that date in the oldest-first copy |
| Timeline.PickRecordByDate | src/ui/timeline.js:13-16 | no date gives null; otherwise the first record of that date, or null exactly when none has it |
| Timeline.NearestDate | src/ui/timeline.js:18-31 | null exactly for no dates or no target; otherwise a date at minimal distance from the target, the earliest position winning a tie |
| Timeline.PointsOf | src/ui/timeline.js:36-39 | one point per record, with its date and the accessor's value or null |
| Timeline.BuildSeries | src/ui/timeline.js:33-40 | one point per record, dates ascending, values null without an accessor and otherwise the accessor's value on some record of the history |
| Timeline.BuildDateWindow | src/ui/historyWindow.js:1-11 | `days` consecutive days ending on today, oldest first, or none for `days` ≤ 0; latest is today exactly when the window is not empty |
| Inputs.KeysOf | src/app.js:270-315 | the schema's field names, in declaration order |
| Inputs.KeysOfPrefix | src/app.js:185 | the names of a prefix of the schema are the prefix of its names |
| Inputs.Or | src/app.js:211 | `a \|\| b`: `a` when truthy, else `b` |
| Inputs.NullTemplate | src/app.js:317 | the template holds exactly the schema keys, each null |
| Inputs.BuildCombinedInput | src/ui/inputBuilder.js:1-16 | null exactly for a missing payload; otherwise the template overlaid by the payload's data, payload values winning, and each metadata entry defaulting to an empty map or list |
| Inputs.CombinedHasSchemaKeys | src/ui/inputBuilder.js:3-5 | on the null template every schema key is present in the combined input |
| Inputs.HasNullFields | src/inputPolicy.js:1-3 | true exactly when some listed key is null or undefined |
| Inputs.SomeAbsent | src/inputPolicy.js:8 | true exactly when some listed key is absent |
| Inputs.NeedsAutoFetch | src/inputPolicy.js:5-10 | true for no input or no sources; otherwise exactly when some key is null or undefined |
| Inputs.MissingFieldsOf | src/ui/inputBuilder.js:18-23 | no key list gives []; otherwise exactly the nullish listed keys, in their order |
| Inputs.ListMissingFields | src/app.js:762-764 | exactly the schema keys the object does not have, at most one per schema entry |
| Inputs.InvalidKeys | src/app.js:737-756 | no invalid key exactly when every field holds a value of its declared type |
| Inputs.FieldError | src/app.js:740-753 | no message exactly for a valid field; a message names its field |
| Inputs.ValidateInput | src/app.js:737-756 | one message per absent, empty or mistyped field, in schema order, each naming its field; none exactly when every field is valid |
| Inputs.CoerceValue | src/app.js:186-201 | a value already of its type is kept; a number field takes `Number(v)` when finite and keeps v otherwise; a boolean field maps the trimmed, lowered text "true"/"1" and "false"/"0" and the numbers 1 and 0 to booleans and keeps every other value; other types keep the value |
| Inputs.CoerceValueIdempotent | src/app.js:186-201 | coercing a value twice gives what coercing it once gives |
| Inputs.CoerceKeeps | src/app.js:183-204 | coercion keeps the set of keys and which are null, and changes no key outside the schema entries processed |
| Inputs.CoercedField | src/app.js:185-202 | every non-null schema field ends up as its own value coerced to its declared type |
| Inputs.CoerceOther | src/app.js:185-202 | one coercion step leaves every other key as it was |
| Inputs.CoercionIdempotent | src/app.js:183-204 | running the coercion a second time changes nothing |
| Inputs.PrevRecord | src/app.js:778-779 | the record found is of the day before the run date |
| Inputs.ExtremeOutflow | src/app.js:781 | a missing or null previous etf1d never counts as an extreme outflow |
| Inputs.NormalizeForApp | src/app.js:776-790 | the page's normalisation: raises on an unparseable date; keeps every field but exchBalanceTrend; adds prevEtfExtremeOutflow only when absent; keeps a present exchBalanceTrend; a nullish one becomes `cexTvl - prevTvl` when cexTvl is truthy and the previous day's cexTvl exists, and is kept otherwise; adds no other key |
| Inputs.NormalizeForScripts | scripts/backfill_history.mjs:255-269 | the scripts' normalisation: other fields kept; prevEtfExtremeOutflow filled from the previous day when nullish, else kept; exchBalanceTrend derived only when nullish and both TVLs are numbers |
| Inputs.NullOutflowVariants | scripts/backfill_history.mjs:259 | on an explicit null the page keeps it and the scripts fill in a boolean |
| Inputs.ResolveSeedClose | scripts/backfill_history.mjs:352-358 | null without a seed map or date; otherwise the entry if it is a number, else its numeric close |
| Inputs.SeedFilled | scripts/backfill_history.mjs:360-378 | fills exactly when the current price is unusable and the seed has a close; then the price, source and observed/updated stamps are set; otherwise nothing changes |
| Inputs.HydrateMetadata | scripts/backfill_history.mjs:216-226 | fields and freshness untouched; sources, errors and missing from the payload, each defaulting to empty; generatedAt kept only when truthy |
| Inputs.SetIfFalsy | src/app.js:244-255 | a truthy stamp is kept, a falsy one replaced |
| Inputs.Provenance | src/app.js:239-256 | filling one field leaves the missing list, the notes and generatedAt alone |
| Inputs.HydrateUpTo | src/app.js:206-215 | only the freshness map changes, and it is always present |
| Inputs.BackfillNotes | src/app.js:259-266 | at most two notes: the page's filled note first when a field was filled, the stale note last when one was blocked |
| Inputs.Backfilled | src/app.js:217-268 | the missing list is unchanged and the notes are appended to the error list |
| Inputs.FillKeepsLists | scripts/backfill_history.mjs:230-248 | the loop leaves the missing list, the notes and generatedAt alone |
| Inputs.StepKeyCases | src/app.js:222-256 | one schema entry fills its field with a typed candidate when it was null, or else leaves fields and filled list alone and marks stale only nullish fields |
| Inputs.FillOnlyNullFields | src/app.js:221-257 | the backfill changes no field it did not fill, fills only fields that were null or undefined, and each holds a value of its schema type |
| Inputs.FilledOneMore | src/app.js:236-238 | the step that fills a key keeps what the earlier filled keys hold |
| Inputs.NullNotFilled | src/app.js:222 | a key still null after the loop was not filled |
| Inputs.StaleStaysNull | src/app.js:224-234 | every stale-blocked key is still null and unfilled after the loop |
| Inputs.ProvenanceTouchesOneKey | src/app.js:244-255 | filling one field writes only that field's stamps, only where they were falsy, with updatedAt defaulting to observedAt |
| Inputs.FillKeepsStamps | src/app.js:239-256 | over the whole loop a truthy stamp, or one of a field not filled, is unchanged |
| Inputs.FillDefaultsUpdated | src/app.js:253-255 | a filled field whose updatedAt was falsy carries its observedAt (or null) as updatedAt |
| Inputs.UpdatedStep | src/app.js:253-255 | one step keeps that default: a newly filled field takes its observedAt |
| InputObjects.InputObject.RefreshMissingFields | src/ui/inputBuilder.js:18-23 | returns the nullish schema keys in order and stores them as `__missing`; with no key list returns [] and changes nothing |
| InputObjects.InputObject.CoerceInputTypes | src/app.js:183-204 | the fields become their schema coercion, the metadata is untouched |
| InputObjects.InputObject.HydrateFromPayload | scripts/backfill_history.mjs:216-226 | the object becomes its metadata hydration from the payload |
| InputObjects.InputObject.FillEthSpotPriceFromSeed | scripts/backfill_history.mjs:360-378 | the object and the returned flag are exactly the seed fill of the old object |
| InputObjects.InputObject.WriteProvenance | src/app.js:239-256 | fields untouched; the metadata becomes the one-field provenance write |
| InputObjects.InputObject.HydrateFieldFreshness | src/app.js:206-215 | fields untouched; the loop re-classifies every schema field's freshness |
| InputObjects.InputObject.FillKey | src/app.js:222-256 | one schema entry updates the object and the filled and stale lists as the step function says |
| InputObjects.InputObject.BackfillMissingFromHistory | src/app.js:217-268 | the object and the filled keys are exactly the backfill of the old object (page or script variant) |
| Backfill.ScanArgv | scripts/backfill_history.mjs:78-88 | the token loop gives the option record the recursive scan defines: `--days`, `--step`, `--horizon`, `--timeout` and the text options consume the next token (an empty one keeps the current value), `--no-resume` clears `resume` |
| Backfill.PositiveFloor | scripts/backfill_history.mjs:89-92 | a number above 0 becomes its floor, which is at most the number and more than the number minus one; anything else becomes the fallback |
| Backfill.HalfStepFloorsToZero | scripts/backfill_history.mjs:90 | as written, `--step 0.5` is a number above 0 that floors to a step of 0 |
| Backfill.StepOption | scripts/backfill_history.mjs:90 | the corrected step is always at least 1: a number of at least 1 becomes its floor, anything else the default 7 |
| Backfill.CleanArgs | scripts/backfill_history.mjs:89-92 | the step is at least 1 and the other numbers are not negative; every option but the step is as the code writes it, and the step too wherever the code's step is already at least 1 |
| Backfill.ParseArgs | scripts/backfill_history.mjs:67-94 | as written: the options are the positive-floor clean-up of scanning the tokens from the defaults, every number not negative; a step in (0, 1) comes out as 0 |
| Backfill.DefaultsApply | scripts/backfill_history.mjs:14-77 | without tokens the options are 365 days, step 1, horizon 14, as-of today, the paths src/data/history.seed.json and run/backfill_status.json under the repository root, a 600-second timeout and resume on |
| Backfill.OffsetDates | scripts/backfill_history.mjs:142-145 | for a parseable as-of day the pushed days are strictly increasing, the first is `days + horizon` days back and none is before it or after `horizon` days back; some date is pushed exactly when `days >= 0`; an unparseable as-of is pushed unchanged every time |
| Backfill.OffsetStep | scripts/backfill_history.mjs:143-144 | one turn of the loop, pushing the day `offset` days back and stepping down, keeps the loop's shape |
| Backfill.PushDay | scripts/backfill_history.mjs:143-144 | the day pushed at offset `offset` is later than every day already pushed and stays within the window |
| Backfill.AppendMatured | scripts/backfill_history.mjs:146-149 | appending the latest matured day, when it is not there yet, keeps the days strictly increasing and within the window |
| Backfill.SortDates | scripts/backfill_history.mjs:150 | the sort gives a sorted permutation and leaves sorted dates as they are |
| Backfill.AllAreHolds | scripts/backfill_history.mjs:146-149 | a non-empty list of copies of one date contains that date |
| Backfill.SameDateSorted | scripts/backfill_history.mjs:150 | copies of one unparseable date are already sorted |
| Backfill.StrictDaysSorted | scripts/backfill_history.mjs:150 | strictly increasing days are sorted |
| Backfill.MaturedStep | scripts/backfill_history.mjs:146-149 | appending the missing latest matured date keeps the shape of the pushed dates |
| Backfill.PushedSorted | scripts/backfill_history.mjs:150 | dates of the pushed shape are already in order, so the sort leaves them as they are |
| Backfill.BuildBackfillDates | scripts/backfill_history.mjs:141-151 | for a parseable as-of day the dates are strictly increasing, end no later than `horizon` days back, include that latest matured day and, when `days >= 0`, start `days + horizon` days back; an unparseable as-of gives a non-empty list of copies of itself |
| Backfill.FiniteOr | scripts/backfill_history.mjs:329-339 | a number is kept and anything else becomes the fallback |
| Backfill.BuildBackfillStatus | scripts/backfill_history.mjs:324-346 | the status and phase are truthy and default to "idle"; every counter is a number, taken from the base when it is one and 0 otherwise; the failures are an array, the base's when it has one; the stamp is the clock's |
| Backfill.StrValues | scripts/backfill_history.mjs:478 | each missing key becomes a string value, in order |
| Backfill.FailureValues | scripts/backfill_history.mjs:454 | one failure value per failure row |
| Backfill.StatusKeepsCounters | scripts/backfill_history.mjs:439-457 | the status written for a snapshot carries its processed, added and skipped counters unchanged |
| Backfill.StatusKeepsTotals | scripts/backfill_history.mjs:516-534 | the status written for a snapshot carries its failed, remaining and total counts and as many failure rows |
| Backfill.PreparedInput | scripts/backfill_history.mjs:463-469 | after the preparation chain `__missing` lists exactly the schema fields still missing |
| Backfill.PrepareInput | scripts/backfill_history.mjs:463-469 | preparing an input object in place gives exactly the prepared input |
| Backfill.ValidationFailure | scripts/backfill_history.mjs:471-481 | a validation failure row is of that date and stage "validate", keeps at most 12 missing keys, and is of kind "half-life" exactly when some recorded error carries the half-life mark, else "missing" |
| Backfill.CollectorFailure | scripts/backfill_history.mjs:510-513 | a collector failure row is of that date, stage "collector", kind "upstream", with the error's message or "未知错误" when it is empty |
| Backfill.KeepsDates | scripts/backfill_history.mjs:497-498 | a history that keeps every starting record still holds each of them |
| Backfill.SkipKeepsGood | scripts/backfill_history.mjs:436-459 | skipping a date already in the history keeps the loop invariant |
| Backfill.FailKeepsGood | scripts/backfill_history.mjs:471-513 | recording a failed date keeps the loop invariant |
| Backfill.AddKeepsGood | scripts/backfill_history.mjs:497-499 | adding a valid record of a new date and sorting again keeps the loop invariant |
| Backfill.AddHistoryOk | scripts/backfill_history.mjs:497-499 | the history stays sorted, keeps the starting records and gains only valid records of processed dates new to it |
| Backfill.AddCovered | scripts/backfill_history.mjs:497-498 | every processed date still has a record or a failure row |
| Backfill.IntendedCollectorFiles | scripts/backfill_history.mjs:283-296 | a collector that writes its payload at the `--output` path gives the caller that payload when it reads the file back |
| Backfill.ReadOutput | scripts/backfill_history.mjs:295 | reading the output file back gives a payload exactly when the file exists, and then the file's payload; otherwise the missing-file error |
| Backfill.ShippedOutputNeverRead | scripts/collector.py:974 | as shipped, no attempt reads a payload: the collector writes only `src/data/auto.json`, which is never the temporary file the caller reads |
| Backfill.CollectWithRetries | scripts/backfill_history.mjs:279-310 | up to three attempts: the result is a payload exactly when some attempt read one, and then the first such; otherwise the third attempt's error |
| Backfill.ProcessDate | scripts/backfill_history.mjs:434-535 | one iteration keeps the loop invariant with the date counted as processed and writes one status snapshot; a date whose collection throws adds no record |
| Backfill.RunBackfill | scripts/backfill_history.mjs:401-565 | the final history is sorted and keeps the stored records when resuming; every record added is a valid input of a sample date the stored history lacked; every sample date ends with a record or a failure row and every failure row is of a sample date; every snapshot's counters add up; the final one has processed every date, counts every failure and added record, and reads "ok" exactly when nothing failed; when every collection throws, as with the shipped collector, the history is the sorted stored history and every sample date it lacks has a failure row |
| Backfill.GoodStart | scripts/backfill_history.mjs:402-429 | the sorted stored history with zero counters and the first snapshot satisfies the loop invariant |
| Backfill.GoodEnd | scripts/backfill_history.mjs:538-565 | the loop invariant after the last date gives every promise of the final history, failures and snapshot |
| Daily.ScanDailyArgv | scripts/daily_autorun.mjs:84-88 | the token loop gives the options the recursive scan defines: `--date` and `--timeout` take the next token, an empty one keeps the current value |
| Daily.CleanDailyArgs | scripts/daily_autorun.mjs:89-93 | it raises exactly when the date lacks the YYYY-MM-DD shape, with the message `invalid --date: <date>`; a timeout above 0 becomes its floor, any other becomes 600 |
| Daily.ParseDailyArgs | scripts/daily_autorun.mjs:79-95 | the parsed options are the clean-up of scanning the tokens from today's date and the 600-second timeout |
| Daily.ScanKeepsDate | scripts/daily_autorun.mjs:84-88 | with no `--date` token left the scan keeps the date it started with |
| Daily.ScanKeepsTimeout | scripts/daily_autorun.mjs:84-88 | with no `--timeout` token left the scan keeps the timeout it started with |
| Daily.DefaultDailyRun | scripts/daily_autorun.mjs:80-93 | without either option the run is for today with a 600-second timeout, or raises when today's key lacks the date shape |
| Daily.LeadingDateOption | scripts/daily_autorun.mjs:86-91 | a leading `--date d` with no later `--date` names the run's date, which parses exactly when it has the date shape |
| Daily.OrNull | scripts/daily_autorun.mjs:491-497 | `base.key \|\| null` is the value when truthy and null otherwise |
| Daily.BuildStatusPayload | scripts/daily_autorun.mjs:489-500 | each stamp and the run id is the base's when truthy, else null; status and AI mode are the base's when truthy, else "unknown"; the errors are the base's array, else [] |
| Daily.StatusRoundTrip | scripts/daily_autorun.mjs:489-500 | every built payload is in normal form, and building from a normal payload written out gives it back unchanged |
| Daily.EntryTexts | scripts/daily_autorun.mjs:310 | each input entry becomes `key=value`, in order |
| Daily.BuildGateFallbackText | scripts/daily_autorun.mjs:306-320 | the text starts with the conclusion line built from the note |
| Daily.EvidenceOneLine | scripts/daily_autorun.mjs:308-315 | the evidence line of a gate without line breaks has none |
| Daily.NoteOneLine | scripts/daily_autorun.mjs:314 | the conclusion line of a note without line breaks has none |
| Daily.FixedLinesOneLine | scripts/daily_autorun.mjs:316-318 | the three fixed lines have no line break |
| Daily.GateTextFiveLines | scripts/daily_autorun.mjs:313-319 | for a gate without line breaks the text splits into exactly five lines: the conclusion, the evidence and the three fixed lines |
| Daily.GateTextUsesTwo | scripts/daily_autorun.mjs:308-312 | only the first two input entries and the first two rules affect the text |
| Daily.DailyInput | scripts/daily_autorun.mjs:537-542 | after the preparation chain `__missing` lists exactly the schema fields still missing |
| Daily.PrepareDailyInput | scripts/daily_autorun.mjs:537-542 | preparing the input object in place gives exactly the prepared input |
| Daily.AbortNamesInvalidKeys | scripts/daily_autorun.mjs:544-547 | the abort message names each of the first six fields (or fewer) that did not validate |
| Daily.NormalizeKeepsValid | scripts/daily_autorun.mjs:257-271 | normalisation leaves an input that passed validation unchanged |
| Daily.DailyRecord | scripts/daily_autorun.mjs:529-563 | a collector error is raised as it is; otherwise the run aborts exactly when the prepared input does not validate, with the abort message, and else yields the record of that day holding the prepared input |
| Daily.ReadDailyOutput | scripts/daily_autorun.mjs:170-174 | the payload exactly when the output file exists, and then that file's payload; otherwise the error "collector returned empty payload" |
| Daily.ShippedDailyFails | scripts/daily_autorun.mjs:155-176 | with the shipped collector, which writes only `src/data/auto.json`, the run raises "collector returned empty payload" |
| Daily.IntendedDailyReads | scripts/daily_autorun.mjs:155-176 | a collector that writes its `--output` file gives the run its payload |
| Daily.RunDaily | scripts/daily_autorun.mjs:519-601 | a history is written exactly when a record was produced, and it is the merge of that record into the sorted stored history; the final status is the failure status with the error's message, or the finished status with the AI warnings |
| Daily.DailyRunOutcome | scripts/daily_autorun.mjs:482-596 | a failed run's status is "fail" with one error, the day's date and AI mode "unknown"; a successful run's history is sorted, holds the new valid record as the only one of its day, keeps every stored record of another day and holds nothing else |
| AppView.CsvCells | src/app.js:713-723 | nine cells per record: the date, "ON"/"OFF" for the hedge, "YES"/"NO" for the extreme flag, and the output's own field in every other column |
| AppView.CsvRows | src/app.js:711-724 | one comma-joined line per record, in order |
| AppView.BuildCsv | src/app.js:699-725 | the history array is sorted by date in place and the text is the header line followed by one line per sorted record |
| AppView.HeaderOneLine | src/app.js:700-710 | the header line has no line break |
| AppView.CsvLines | src/app.js:724 | when no cell holds a line break, the text splits into the header and exactly one line per record, in order |
| AppView.AiCacheForDate | src/app.js:394-400 | no cache gives none; a cache is kept when no date is asked for, when it has no date, or when its date is the one asked for, and dropped otherwise |
| AppView.AllSoft | src/app.js:1054-1056 | holds exactly when every error matches one of the soft patterns |
| AppView.TrustOf | src/app.js:1052-1065 | FAIL exactly when some error is not soft, WARN exactly when every error is soft and some error or missing field exists, OK exactly when there are none |
| AppView.TrustMonotone | src/app.js:1052-1065 | one more error or missing field never raises the trust level, and a missing field rules out OK |
| AppView.TrustOrderFree | src/app.js:1052-1065 | the trust level does not depend on the order of the errors |
| Seed.ParsePoint | scripts/eth_price_seed.py:21-34 | an item is kept exactly when it is a dict with a string date, a close that `float` accepts and a volume that is None or `float` accepts; its close is that float and its volume that float or 0.0 |
| Seed.ParsedPoints | scripts/eth_price_seed.py:20-34 | the points kept are exactly the items that parse, each as it parses |
| Seed.StrLeTrans | scripts/eth_price_seed.py:36 | the string order the sort uses is transitive |
| Seed.InsertPoint | scripts/eth_price_seed.py:36 | inserting into date-sorted points keeps them sorted and adds exactly that point |
| Seed.InsertFront | scripts/eth_price_seed.py:36 | a point dated before the head goes in front and keeps the order |
| Seed.InsertAfterHead | scripts/eth_price_seed.py:36 | a point not before the head goes after it and keeps the order and the contents |
| Seed.SortPoints | scripts/eth_price_seed.py:36 | the points sorted by date, a permutation of the input |
| Seed.InsertKeepsDateOrder | scripts/eth_price_seed.py:36 | inserting a point puts it after the points of its own date and leaves the points of every date in their order |
| Seed.AboveHasNone | scripts/eth_price_seed.py:36 | a sorted list whose first date is above a date holds no point of that date |
| Seed.SortIsStable | scripts/eth_price_seed.py:36 | the sort is stable: for every date, the points of that date come out in their input order |
| Seed.ByDate | scripts/eth_price_seed.py:37 | the index has exactly the dates of the points |
| Seed.ByDateLastWins | scripts/eth_price_seed.py:37 | a date's entry in the index is the close and volume of the last point of that date |
| Seed.CheckPoint | scripts/eth_price_seed.py:41-52 | a point is flagged exactly when the cross-check close parses, is above 0 and differs from the point's close by more than the threshold in relative terms |
| Seed.DiffErrors | scripts/eth_price_seed.py:39-52 | no more flagged rows than points |
| Seed.ErrorDates | scripts/eth_price_seed.py:50-52 | the dates of the flagged rows, in order |
| Seed.PointDates | scripts/eth_price_seed.py:40 | the dates of the points, in order |
| Seed.ErrorDatesSnoc | scripts/eth_price_seed.py:50 | flagging one more row adds its date at the end |
| Seed.PointDatesSnoc | scripts/eth_price_seed.py:40 | one more point adds its date at the end |
| Seed.DiffErrorsFollowSeries | scripts/eth_price_seed.py:40-52 | the flagged dates are a subsequence of the series' dates, so they follow the series order |
| Seed.DiffErrorsExact | scripts/eth_price_seed.py:40-52 | a row is flagged exactly when some point of the series fails the cross-check with it |
| Seed.BuildSeedPayload | scripts/eth_price_seed.py:8-61 | the series is the stable date sort of the points that parse, so date-sorted and a permutation of them; the index is built from it; the errors are exactly the points flagged against the cross-check map (empty when none is given); the as-of date, the stamp and the source label are passed through |
| Seed.ParseItems | scripts/eth_price_seed.py:20-34 | the loop keeps exactly the parsing items, in order |
| Seed.CrossCheck | scripts/eth_price_seed.py:39-52 | the loop flags exactly the points the cross-check flags, in order |
| Eval.PredictionExpectation | src/ui/eval.js:31-35 | "A" expects up, "C" expects down, anything else expects a range |
| Eval.ScoreVerdict | src/ui/eval.js:37-43 | no return means "pending" with no hit; otherwise the hit is the return at least the threshold (up), at most minus the threshold (down) or within the threshold either way (range), and the verdict is "hit" or "miss" accordingly |
| Eval.ScoreMirror | src/ui/eval.js:39-42 | a down call scores as an up call on the negated return, and a range call is symmetric |
| Eval.ScoreThresholdMonotone | src/ui/eval.js:39-42 | a higher threshold keeps a range hit a hit and an up or down miss a miss |
| Eval.FirstReaching | src/ui/eval.js:21-24 | the first index from `start` whose date reaches the target, every earlier one before it; none when no date reaches it |
| Eval.FutureRecord | src/ui/eval.js:18-29 | no target gives none; a record found is one from `start` on, dated within the tolerance after the target |
| Eval.FutureRecordSorted | src/ui/eval.js:18-29 | on sorted records a record is found exactly when some record from `start` on falls in the window, and it is the first one to reach the target |
| Eval.PickFutureRecord | src/ui/eval.js:18-29 | the loop returns exactly the future record the window search defines |
| Eval.SettingsOf | src/ui/eval.js:46-48 | horizons default to [7, 14] when none are given, thresholds to 5 % for 7 days and 8 % for 14 days, the tolerance to 2 days |
| Eval.ThresholdFor | src/ui/eval.js:76 | the horizon's own threshold, or 5 when it has none |
| Eval.DefaultThresholds | src/ui/eval.js:47-76 | with default options the 7-day threshold is 5, the 14-day one 8 and any other 5 |
| Eval.PriceOf | src/ui/eval.js:54-65 | a price exactly when the input's `ethSpotPrice` is a number |
| Eval.ReturnPct | src/ui/eval.js:72-75 | a return exactly when both prices exist and the first is not 0, and applying it to the first price gives the future price |
| Eval.StateOf | src/ui/eval.js:55 | the output's state when truthy, else "-"; always truthy |
| Eval.TargetDay | src/ui/eval.js:69 | the target is the record's day plus the horizon |
| Eval.CellOf | src/ui/eval.js:68-87 | the cell's target is the day plus the horizon and its threshold the horizon's; a hit exactly when a return exists, which needs a future record with a price and a non-zero price now; a future date lies within the tolerance window and belongs to a later record |
| Eval.CellMap | src/ui/eval.js:68-87 | one cell per horizon asked for, each the cell of that horizon |
| Eval.RowOf | src/ui/eval.js:53-89 | a row has the record's date, state, the state's expectation, the price and one cell per horizon |
| Eval.EvalRows | src/ui/eval.js:53-89 | one row per sorted record, in order |
| Eval.BuildRow | src/ui/eval.js:53-89 | the loop over the horizons builds exactly the row |
| Eval.BuildCell | src/ui/eval.js:69-86 | the steps build exactly the cell |
| Eval.CellMapStep | src/ui/eval.js:68 | one more horizon adds its cell to the map |
| Eval.EvalRowsOrdered | src/ui/eval.js:49-53 | there is one row per record, in ascending date order, each of a record of the history |
| Eval.CountRowsMeaning | src/ui/eval.js:94-106 | the overall tally counts the scored rows and their hits, the per-state tallies never exceed their totals, hits never exceed scored rows and scored rows never exceed the rows |
| Eval.Accuracy | src/ui/eval.js:110 | none exactly when nothing was scored; otherwise a ratio in [0, 1] equal to hits over scored |
| Eval.SummaryOf | src/ui/eval.js:92-113 | the summary counts the scored rows and the hits of one horizon, its accuracy is hit over total or none when nothing was scored, and its threshold is the horizon's |
| Eval.SummaryBounds | src/ui/eval.js:92-113 | hits never exceed the total, the total never exceeds the rows, the accuracy lies in [0, 1], and the A, B and C tallies add up to at most the total |
| Eval.SummaryMap | src/ui/eval.js:91-114 | one summary per horizon asked for, each that horizon's summary |
| Eval.SummaryMapSnoc | src/ui/eval.js:92 | one more horizon adds its summary |
| Eval.CountHorizon | src/ui/eval.js:97-106 | the loop counts exactly what the tally function counts |
| Eval.SummarizeHorizon | src/ui/eval.js:92-113 | the loop gives exactly the horizon's summary |
| Eval.BuildRows | src/ui/eval.js:53-89 | the loop builds exactly the rows |
| Eval.ComputePredictionEvaluation | src/ui/eval.js:45-117 | the rows are those of the date-sorted history under the settings the options give, and the summary holds one entry per horizon |
| Eval.ScoredMeansReturn | src/ui/eval.js:72-99 | a row is scored on a horizon exactly when that horizon's cell has a return |
| Perf.PickAsOfDate | scripts/perf_summary.mjs:7-11 | a fallback with the date shape wins; otherwise none exactly for an empty history, else the date of a latest record |
| Perf.FilterPartition | scripts/perf_summary.mjs:22-23 | filtering by a test and by its negation splits a list into two parts that together are the list |
| Perf.RecentCellOf | scripts/perf_summary.mjs:39-44 | the verdict is never empty: the cell's own, or "pending"; the return and future date are the cell's |
| Perf.RecentCells | scripts/perf_summary.mjs:38-45 | one recent cell per horizon |
| Perf.RecentRowOf | scripts/perf_summary.mjs:46-52 | the recent row keeps the row's date, state, expectation and price |
| Perf.MapRecent | scripts/perf_summary.mjs:36 | one recent row per row, in order |
| Perf.RecentOf | scripts/perf_summary.mjs:36-53 | at most 20 rows, all of them when there are at most 20, the latest matured row first |
| Perf.Ratio | scripts/perf_summary.mjs:66 | 0 for an empty total, else the share in [0, 1] |
| Perf.BuildPerfSummary | scripts/perf_summary.mjs:13-75 | total is the number of records and equals matured plus pending; the ratio is their share; at most 20 recent rows, no more than matured; the 14-day drift exactly when 14 is a horizon; the as-of date is the picked one |
| Perf.MaturityPartition | scripts/perf_summary.mjs:22-23 | every evaluated row is either matured or pending, never both |
| Perf.MaturedMeansReturn | scripts/perf_summary.mjs:22 | a row is matured exactly when some horizon's cell has a return |
| Perf.RecentOrder | scripts/perf_summary.mjs:36 | the recent rows run from newest to oldest |
| Perf.RecentNewestFirst | scripts/perf_summary.mjs:36-53 | the summary's recent rows are the latest matured rows in reverse order, newest first |
| Perf.RecentOfHistory | scripts/perf_summary.mjs:20-36 | the recent rows of any history run newest first |
| Perf.MaturedMembers | scripts/perf_summary.mjs:22 | a row is among the matured rows exactly when it is an evaluated row that has matured |
| Perf.FilterOrderedDates | scripts/perf_summary.mjs:22 | filtering keeps the rows in date order |
| FieldTrend.SamplesOf | src/ui/fieldTrend.js:66 | one sample per record, in order, holding the record's date and field value |
| FieldTrend.BuildFieldSeries | src/ui/fieldTrend.js:57-69 | an unparseable current date gives no samples; the series is sorted by date |
| FieldTrend.FieldSeriesMembers | src/ui/fieldTrend.js:57-69 | a sample is in the series exactly when the current date parses and some record on or before it has a non-null value of the field, as that sample |
| FieldTrend.SeriesFromRecord | src/ui/fieldTrend.js:60-67 | every sample of the filtered series comes from a record on or before the day with a non-null value |
| FieldTrend.RecordInSeries | src/ui/fieldTrend.js:60-67 | every record on or before the day with a non-null value gives a sample of the filtered series |
| FieldTrend.Round | src/ui/fieldTrend.js:75-76 | `Math.round` gives the integer within half a unit, rounding halves up |
| FieldTrend.OverridesWellSpaced | src/ui/fieldTrend.js:3-39 | every window override has a short window of at least 3 and a long one at least 3 longer |
| FieldTrend.ResolveWindows | src/ui/fieldTrend.js:71-78 | an override wins; otherwise the short window is the rounded half-life but at least 3 and the long one three half-lives but at least 3 more than the short one |
| FieldTrend.LastAtOrBefore | src/ui/fieldTrend.js:84-90 | the latest index below `k` dated on or before the cutoff, every later one after it; none when no such index exists |
| FieldTrend.BaselineByWindow | src/ui/fieldTrend.js:80-92 | no baseline exactly when the current date does not parse or there are fewer than two samples; the baseline is a sample other than the latest, and the first sample when it lies inside the window |
| FieldTrend.PickBaselineByWindow | src/ui/fieldTrend.js:80-92 | the backward loop returns exactly the baseline the window defines |
| FieldTrend.DirectionFromDelta | src/ui/fieldTrend.js:100-103 | flat exactly when the change is within epsilon, otherwise up for a rise and down for a fall; never a flip |
| FieldTrend.DirectionAntisymmetric | src/ui/fieldTrend.js:100-103 | negating the change swaps up and down and keeps flat |
| FieldTrend.DiffDays | src/ui/fieldTrend.js:53-55 | the number of days from the earlier to the later date, never negative |
| FieldTrend.FirstBaseline | src/ui/fieldTrend.js:109-118 | the first window whose baseline is not dated like the latest sample, with that baseline; none when every window's baseline is missing or dated like the latest |
| FieldTrend.FiniteValues | src/ui/fieldTrend.js:130 | no more numbers than samples |
| FieldTrend.DeltaPct | src/ui/fieldTrend.js:125 | a percentage exactly when the baseline is above 1e-9 in size, and then it is the change relative to the baseline's size, times 100 |
| FieldTrend.NumericTrendOf | src/ui/fieldTrend.js:105-158 | none for an empty series, or exactly when no window gives a baseline other than the latest or either value is not a number; otherwise the change from a baseline of an earlier sample to the latest, its direction with epsilon 1e-8, the window used (short or long), the days apart and at most 24 values |
| FieldTrend.NumericTrendSpansDays | src/ui/fieldTrend.js:127-129 | on a sorted series a numeric trend's baseline is strictly earlier and the days apart are positive |
| FieldTrend.BuildNumericTrend | src/ui/fieldTrend.js:105-158 | the loop over the windows builds exactly the numeric trend |
| FieldTrend.Flips | src/ui/fieldTrend.js:174-177 | at most one flip per step |
| FieldTrend.FlipsParity | src/ui/fieldTrend.js:174-177 | the number of flips is odd exactly when the first and last values differ |
| FieldTrend.CountFlips | src/ui/fieldTrend.js:174-177 | the loop counts exactly the flips |
| FieldTrend.CountTrue | src/ui/fieldTrend.js:178 | no more true values than values |
| FieldTrend.Truths | src/ui/fieldTrend.js:173 | each sample's truthiness, in order |
| FieldTrend.FindDay | src/ui/fieldTrend.js:172 | the first index with that date, or none when no sample has it |
| FieldTrend.TrueRatio | src/ui/fieldTrend.js:179 | a percentage in [0, 100], 0 for an empty window |
| FieldTrend.BooleanTrendOf | src/ui/fieldTrend.js:160-201 | a trend exactly when the current date parses and there are at least two samples; it uses the short window, keeps the latest truth value, a ratio in [0, 100], the flips of the window, flips exactly when baseline and latest differ, and is up exactly when both are true |
| FieldTrend.FlipMeansOddFlips | src/ui/fieldTrend.js:172-188 | when the window starts at the baseline, the trend is a flip exactly when the number of flips is odd |
| FieldTrend.DeriveFieldTrend | src/ui/fieldTrend.js:203-248 | fewer than two samples give "too few samples"; a numeric trend only for a numeric latest value and a boolean one only for a boolean latest value, which always gets one; any other latest value is "not applicable"; the count is the series length; a numeric result is the numeric trend of the series (or "too few samples" without one) and a boolean result is its boolean trend |
| FieldTrend.TrendMap | src/ui/fieldTrend.js:250-256 | one trend per key, each the key's derived trend |
| FieldTrend.BuildFieldTrendMap | src/ui/fieldTrend.js:250-256 | the loop builds exactly the trend map |
| FieldTrend.TrendMapStep | src/ui/fieldTrend.js:252-254 | one more key adds its trend to the map |
| FieldTrend.SummarizeTrendForPrompt | src/ui/fieldTrend.js:258-270 | no trend gives "too few samples"; a numeric one starts with its days, "D" and its direction word and names its baseline date; a boolean one is its days, "D" and its text |
| FieldTrend.DerivedPromptSpan | src/ui/fieldTrend.js:203-267 | for fewer than two samples the prompt line says "too few samples"; a numeric trend's line starts with its positive number of days apart and its direction |
| FieldMeta.GroupKeys | src/ui/fieldMeta.js:59-83 | a key occurs in the listing exactly when some coverage group lists it |
| Summary.HealthLevel | src/ui/summary.js:26-28 | "danger" exactly when there are errors, "warn" exactly when there are none but fields are missing, "ok" exactly when there is neither |
| Summary.AllOk | src/ui/summary.js:32 | holds exactly when every proxy hop succeeded |
| Summary.Proxies | src/ui/summary.js:34-35 | the proxy of each hop, in order |
| Summary.ProxyText | src/ui/summary.js:30-36 | "未知" exactly for an empty trace; "OK (" exactly when every hop succeeded and "WARN (" exactly when one failed; the proxies joined by "/" close the text |
| Summary.BuildHealthSummary | src/ui/summary.js:21-49 | the level follows the errors and missing fields; the lists and counts are the input's or empty; the missing text is "无" or the count of items; the proxy text is that of the first trace given; the AI text is the status when truthy and "未连接" otherwise; the freshness text is "更新 " and the stamp of the generation time, or "更新 未知" without one |
| Summary.FormatShort | src/ui/summary.js:3-7 | a number is its two-decimal text with a trailing ".00" dropped; null reads as "--" |
| Summary.BuildActionSummary | src/ui/summary.js:51-62 | the action starts with the state and " / β "; the detail reads the hedge as ON or OFF; one driver per top reason, its text; the blocks are the risk notes or [] |
| Summary.GateLines | src/ui/summary.js:68 | one line per gate, in order |
| Summary.BuildCounterfactuals | src/ui/summary.js:64-69 | one line per gate that is not ACT and is closed or warn, in the gates' order |
| Summary.CounterfactualsExact | src/ui/summary.js:64-69 | a line appears exactly when some such gate gives it |
| Summary.AddLabel | src/ui/summary.js:80-82 | a gate's list gains the label at the end, a new gate is appended to the order, and nothing already there is lost |
| Summary.AddLabelLabels | src/ui/summary.js:80-82 | afterwards the gate lists the label, and every label listed was listed before or is the new one |
| Summary.AddGates | src/ui/summary.js:78-83 | adding a field's label to each of its gates keeps the map well formed, loses nothing and gives a non-empty order |
| Summary.AddGatesLabels | src/ui/summary.js:78-83 | each of the gates lists the label afterwards, and every label listed was listed before or is that label on one of those gates |
| Summary.GateParts | src/ui/summary.js:78-80 | a field's trimmed gate names, never none |
| Summary.GroupMissing | src/ui/summary.js:74-84 | the grouping of the missing fields by gate is well formed |
| Summary.UnknownLines | src/ui/summary.js:85 | one "未识别字段：" line per missing key, in order |
| Summary.ImpactLines | src/ui/summary.js:86-88 | one line per gate in first-seen order, naming the gate and its labels joined by "、" |
| Summary.MissingImpact | src/ui/summary.js:71-89 | nothing missing gives the one "无缺失字段" line; missing fields none of which is known give one line per key; otherwise one line per gate |
| Summary.BuildMissingImpact | src/ui/summary.js:71-89 | the loops build exactly the missing-impact lines |
| Summary.PushCaption | src/ui/summary.js:79-83 | the inner loop adds the label to each gate exactly as the grouping step does |
| Summary.GroupMissingStep | src/ui/summary.js:75-84 | one more missing key adds its label to each of its gates when it is known, and changes nothing otherwise |
| Summary.AddGatesOrder | src/ui/summary.js:81 | the gate order is the first-seen order of every gate named so far |
| Summary.GroupOrder | src/ui/summary.js:74-84 | the gates appear in the order they are first named by the known missing fields, each once |
| Summary.GroupEmptyIff | src/ui/summary.js:85 | no gate is named exactly when no missing key is a known field |
| Summary.GroupLabelsSound | src/ui/summary.js:75-83 | every label under a gate is the label of some known missing field that names that gate |
| Summary.GroupLabelsComplete | src/ui/summary.js:75-83 | every known missing field's label is listed under each gate it names |
| Summary.AddGatesKeepsGate | src/ui/summary.js:81-82 | a gate already present keeps every label it had |
| Summary.AddGatesHasGate | src/ui/summary.js:81-82 | each gate the field names lists its label afterwards |
| Summary.MissingImpactShape | src/ui/summary.js:71-89 | there is always a line; all-unknown keys give one line per key; with a known key there is one line per distinct gate named |
| Summary.EvidenceHints | src/ui/summary.js:91-98 | never empty and never "无额外提示"; exactly one of the two extreme-permission lines, the open one exactly when extreme is allowed; the distribution line exactly when the gate reads at least 2; the hedge line exactly when the hedge is on |
| EtaTimer.Duration | src/ui/etaTimer.js:17-19 | an ended phase counts its end minus its start, never below zero; a running phase counts nothing |
| EtaTimer.TotalNonNegative | src/ui/etaTimer.js:14-22 | the summed durations are never negative |
| EtaTimer.TotalReplace | src/ui/etaTimer.js:14-22 | replacing one named phase changes the total by that phase's change of duration alone |
| EtaTimer.TotalUntouched | src/ui/etaTimer.js:14-22 | a phase outside the visited names does not count |
| EtaTimer.Timer.constructor | src/ui/etaTimer.js:1-2 | a new timer holds no phases |
| EtaTimer.Timer.Remember | src/ui/etaTimer.js:2-12 | a name is recorded on first use, keeping the Map's insertion order and listing each name once |
| EtaTimer.Timer.Start | src/ui/etaTimer.js:4-6 | the phase restarts at the time given with no end, whatever it held before; nothing else changes |
| EtaTimer.Timer.End | src/ui/etaTimer.js:8-12 | a known phase gets the end time and keeps its start; an unknown one is created starting and ending at that time |
| EtaTimer.Timer.TotalMs | src/ui/etaTimer.js:14-22 | the loop over the phases in insertion order returns the summed durations, never negative |
| EtaTimer.StartDropsPhase | src/ui/etaTimer.js:4-22 | restarting a phase removes its duration from the total |
| EtaTimer.EndUnknownAddsNothing | src/ui/etaTimer.js:8-22 | ending a phase that was never started leaves the total unchanged |
| EtaTimer.FormatMs | src/ui/etaTimer.js:24-28 | "--" exactly for a value that is not finite; otherwise the digits of the rounded, non-negative whole seconds followed by "s" |
| DeepLink.FormDecode | src/ui/deepLink.js:6 | the form decoding keeps the length and turns each '+' into a space, every other character kept |
| DeepLink.Get | src/ui/deepLink.js:7-8 | a non-empty result is the value of a pair with that name |
| DeepLink.ParseDeepLink | src/ui/deepLink.js:3-12 | the date is kept exactly when the trimmed parameter has the YYYY-MM-DD shape, the tab exactly when it is one of the four tabs, the hash exactly when it is a string starting with '#' |
| DeepLink.QuestionMarkOptional | src/ui/deepLink.js:6 | a query with one leading '?' reads the same as without it |
| DeepLink.LinkRoundTrip | src/ui/deepLink.js:3-12 | a link built from a well-shaped date, an allowed tab and a section hash reads back as exactly those |
| DeepLink.QueryParams | src/ui/deepLink.js:6-8 | the query of such a link yields that date and that tab |
| DeepLink.PiecesOfLink | src/ui/deepLink.js:6 | each piece of such a link reads as its name and value |
| DeepLink.DatePiece | src/ui/deepLink.js:6 | the date piece reads as the pair named date |
| DeepLink.TabPiece | src/ui/deepLink.js:6 | the tab piece reads as the pair named tab |
| DeepLink.GetOfLink | src/ui/deepLink.js:7-8 | the lookup of the two pairs returns their values |
| DeepLink.QueryPieces | src/ui/deepLink.js:6 | the query of such a link splits into its two pieces |
| DeepLink.ParamsOfQuery | src/ui/deepLink.js:6 | two pieces joined by '&' read as their two pairs, in order |
| DeepLink.PlainDate | src/ui/deepLink.js:9 | a well-shaped date holds no separator or '+' and survives trimming |
| DeepLink.PlainTab | src/ui/deepLink.js:1 | an allowed tab holds no separator or '+' and survives trimming |
| DeepLink.PairOfPlain | src/ui/deepLink.js:6 | a piece without '+' whose name has no '=' reads back as that name and value |
| DeepLink.PlainDecodes | src/ui/deepLink.js:6 | text without '+' decodes to itself |
| DeepLink.JsTrimKeeps | src/ui/deepLink.js:7-8 | trimming leaves a word without outer white space unchanged |
| DiscordNotify.CheckNotifyArgs | scripts/discord_notify.mjs:49-55 | the options pass exactly when the type is daily or alert and the date has the YYYY-MM-DD shape, and pass unchanged; otherwise the first failing check's message is raised |
| DiscordNotify.ParseArgs | scripts/discord_notify.mjs:29-56 | the result is the checked outcome of scanning the tokens from the defaults, and a passing result has a valid type and date |
| DiscordNotify.ExplicitArgs | scripts/discord_notify.mjs:39-48 | a type and a date given with `--force` replace the defaults and set the flag, all else defaulted |
| DiscordNotify.CleanLines | scripts/discord_notify.mjs:109-111 | one cleaned line per line of the report |
| DiscordNotify.NonBlank | scripts/discord_notify.mjs:114 | the kept lines are no more than the lines given |
| DiscordNotify.LineCap | scripts/discord_notify.mjs:116 | the loop keeps at least one line, and exactly the cap when the cap is at least 1 |
| DiscordNotify.ExcerptMarkdown | scripts/discord_notify.mjs:107-119 | the picking loop returns the excerpt: the first non-blank lines, up to the cap, joined by newlines |
| DiscordNotify.NonBlankPrefix | scripts/discord_notify.mjs:113-117 | the lines kept from a prefix of the report are a prefix of the lines kept from it all |
| DiscordNotify.NonBlankSound | scripts/discord_notify.mjs:113-117 | every kept line is a non-blank line of the input, in the input's order |
| DiscordNotify.CleanLinesPlain | scripts/discord_notify.mjs:109-111 | a cleaned line holds no newline and no trailing white space |
| DiscordNotify.ExcerptShape | scripts/discord_notify.mjs:107-119 | the excerpt's lines are at most the cap, non-blank, right-trimmed lines of the report in its order, and splitting the excerpt at newlines gives them back |
| DiscordNotify.TakeSub | scripts/discord_notify.mjs:116 | a prefix is a subsequence |
| DiscordNotify.SubTrans | scripts/discord_notify.mjs:113-117 | subsequence is transitive |
| DiscordNotify.FmtPct | scripts/discord_notify.mjs:151 | a number becomes its percentage to one decimal followed by "%"; anything else "--" |
| DiscordNotify.FmtLevel | scripts/discord_notify.mjs:152-158 | the result is OK, WARN, DANGER exactly for "ok", "warn", "danger" in any case, and "--" otherwise |
| DiscordNotify.ReasonTexts | scripts/discord_notify.mjs:160-162 | the non-empty plain texts of the reasons, no more than there are reasons |
| DiscordNotify.StripSlash | scripts/discord_notify.mjs:164 | one trailing '/' is removed, and only that |
| DiscordNotify.DeepLinkReadsBack | scripts/discord_notify.mjs:164 | the page's link parser reads the notifier's link as that date on the explanation tab with the evaluation section hash |
| DiscordNotify.Header | scripts/discord_notify.mjs:165-168 | an alert header names the date and, when given, the title; a daily header names the date and ends with the state |
| DiscordNotify.HeadLines | scripts/discord_notify.mjs:171-172 | the bold header, then the reason line exactly for an alert given a reason |
| DiscordNotify.ActionLine | scripts/discord_notify.mjs:173 | the advice line starts with its label |
| DiscordNotify.ExcerptBlock | scripts/discord_notify.mjs:181-187 | the excerpt is fenced between a blank line, its title and the code fences, cut to 900 characters |
| DiscordNotify.HeaderBrand | scripts/discord_notify.mjs:165-171 | every header line is bold and starts with the dashboard's name |
| DiscordNotify.MessageLayout | scripts/discord_notify.mjs:170-189 | header first, the optional reason, the action, then the optional parts, a blank line and the link last; the excerpt block sits just before them when given |
| DiscordNotify.BuildDiscordMessage | scripts/discord_notify.mjs:121-193 | the content is a prefix of the joined lines of at most 1990 characters, and all of them when they fit |
| DiscordNotify.HeaderNames | scripts/discord_notify.mjs:165-171 | a daily report's header ends with its state, an alert's with its title when given |
| DiscordNotify.EndsWithAppend | scripts/discord_notify.mjs:171 | a suffix survives the bold markers and a tail |
| DiscordNotify.MessageEndsWithLink | scripts/discord_notify.mjs:188-191 | a message that fits ends with the link to that day's explanation tab |
| DiscordNotify.JoinLast | scripts/discord_notify.mjs:191 | a join of two or more parts ends with the separator and the last part |
| DiscordNotify.ShouldSkipSend | scripts/discord_notify.mjs:235-245 | never skipped when forced or without a status object; a daily report is skipped exactly when the same date and hash were sent; an alert exactly when its non-empty key is among that date's sent keys |
| DiscordNotify.AddKey | scripts/discord_notify.mjs:254 | the keys gain the non-empty key, no repeats are added, and a new key appears once |
| DiscordNotify.RecordAlert | scripts/discord_notify.mjs:252-256 | that date's bucket is stamped and gains the key; every other date's bucket is as it was |
| DiscordNotify.SentKeysOfAlerts | scripts/discord_notify.mjs:242-243 | only an object's `alerts` object holds sent keys |
| DiscordNotify.UpdateSendStatus | scripts/discord_notify.mjs:247-260 | the copy is stamped; a daily send records date, time and hash; an alert records its key in that date's bucket; every other field is kept |
| DiscordNotify.AlertRecorded | scripts/discord_notify.mjs:252-256 | after an alert the date's keys are the old ones plus the key, the bucket is stamped, and other dates are untouched |
| DiscordNotify.RecordedSendSkipped | scripts/discord_notify.mjs:235-260 | once a send is recorded, the same daily report or the same alert key is skipped |
| DiscordNotify.AlertSkipsKept | scripts/discord_notify.mjs:235-260 | recording an alert never lets a previously skipped alert through |
| IterationReport.Pct | scripts/iteration_report.mjs:1-4 | a number becomes its percentage to one decimal followed by "%"; anything else "--" |
| IterationReport.Safe | scripts/iteration_report.mjs:6-8 | null, undefined and the empty string read as "--"; a string stands as it is; anything else is its text |
| IterationReport.HorizonLine | scripts/iteration_report.mjs:10-17 | the line of a horizon starts with its key and the hit-rate label |
| IterationReport.PerfSection | scripts/iteration_report.mjs:33-39 | the title, the maturity line, the 7-day line, the 14-day line exactly when that horizon is present, then a blank line |
| IterationReport.RecentRows | scripts/iteration_report.mjs:46 | at most ten samples are taken |
| IterationReport.RowLines | scripts/iteration_report.mjs:50-55 | one line per sample, in order |
| IterationReport.RecentShape | scripts/iteration_report.mjs:45-57 | the samples section lists the first ten samples after its title, or the "none yet" line when there are none, and ends blank |
| IterationReport.Suggestions | scripts/iteration_report.mjs:60-75 | one to three suggestions: the backfill hint exactly on a known maturity below 60%, the danger or the warn hint exactly on that drift level (never both), the accuracy hint exactly on a known 7-day hit rate below 40%, and the default hint exactly when no other applies |
| IterationReport.HintsDistinct | scripts/iteration_report.mjs:62-74 | the five suggestion texts differ pairwise |
| IterationReport.Numbered | scripts/iteration_report.mjs:76 | each suggestion is prefixed by its position counted from one |
| IterationReport.BuildIterationReport | scripts/iteration_report.mjs:19-83 | the pushes build the report's lines section by section, joined with newlines |
| IterationReport.NumberedSnoc | scripts/iteration_report.mjs:76 | numbering one more item appends its numbered line |
| IterationReport.SuggestionsListed | scripts/iteration_report.mjs:27-79 | the report starts with the title and the as-of date, and lists exactly the suggestions, numbered from 1, right after their title |
| AiPayload.UniqueCoverageKeys | src/ai/payload.js:5-16 | the walk over the coverage groups returns the coverage keys, each the first time it is seen |
| AiPayload.UniqueKeys | src/ai/payload.js:6-15 | over any groups, the outer loop returns the first-seen de-duplication of the groups' keys |
| AiPayload.GroupKeysStep | src/ai/payload.js:8-9 | the keys of one more group follow those of the groups before it |
| AiPayload.PushUnseen | src/ai/payload.js:9-13 | the inner loop extends the de-duplicated keys by one group's keys, and the seen set stays the set of listed keys |
| AiPayload.DedupStep | src/ai/payload.js:10-12 | one more key is appended exactly when it was not listed already |
| AiPayload.CoverageKeysShape | src/ai/payload.js:5-16 | the coverage keys have no repeats, are exactly the keys some group lists, and keep the order of first mention |
| AiPayload.FirstTruthy | src/ai/payload.js:24-31 | the chain gives its first truthy value, every value before it falsy, or the fallback when all are falsy |
| AiPayload.InfoOf | src/ai/payload.js:23 | a known field's metadata, or the stand-in labelled by the key with gate "未知" |
| AiPayload.FieldOf | src/ai/payload.js:22-45 | the entry carries the key, the input's value, the field's metadata and the prompt summary of its trend |
| AiPayload.FieldProvenance | src/ai/payload.js:24-31 | source, observation stamp, fetch stamp and freshness label are the first truthy of their chains, with the stated fallbacks |
| AiPayload.TwoLinks | src/ai/payload.js:30 | a chain of two links is two nested "or"s |
| AiPayload.ThreeLinks | src/ai/payload.js:25-29 | a chain of three links is three nested "or"s |
| AiPayload.FirstTruthyStep | src/ai/payload.js:25-31 | a chain's first link decides unless it is falsy |
| AiPayload.PresentKeys | src/ai/payload.js:21 | every key kept is a field of the input |
| AiPayload.GateEntries | src/ai/payload.js:60-64 | one entry per gate, with its id, name and prompt, in order |
| AiPayload.FieldEntries | src/ai/payload.js:22-50 | one entry per key with its field and the prompt of that field, in order |
| AiPayload.BuildAiPayload | src/ai/payload.js:18-67 | the payload carries the date, the prompt version and the summary and overall prompts, the gate entries of the output, and the field entries of the coverage keys the input has |
| AiPayload.PresentKeysShape | src/ai/payload.js:21 | the field keys are exactly the coverage keys the input has, none twice, in coverage order |
| AiPayload.KeptKeys | src/ai/payload.js:21 | filtering a repeat-free list keeps an ordered, repeat-free selection of exactly the keys the input has |

## Left out

- HTTP: every fetcher's network call (curl, DNS cache, proxy probing, `fetch_json`/`fetch_text`, `.env` loading) is out. The model takes each response as an input string or map, or as a function from URL to response text.
- The clock: `today`, `now`, `stamp`, `Date.now()` and `new Date()` are parameters (day numbers and millisecond stamps), never read.
- Host formatters are function parameters and are not interpreted: `toFixed`/`formatNumber` (`fixed`), `String(value)` (`show`), plain-text conversion (`plain`) and the ISO text of a day (`dayText`). `formatSigned`, `formatUsd` and `toLocaleString` are out with them.
- `math.sqrt` in `compute_tridomain` is out: the volatility is an abstract non-negative value.
- Functions called but not defined in the modelled files are function parameters: the half-life rule, `evalTriDomain`, `deriveDriftSignal`, `deriveQualityGate`, `PROMPT_VERSION` and the prompt builders.
- Numbers are exact reals. NaN and Infinity are only modelled where the source tests for them (a `None` from `Number`/`float`, `Number.isFinite`). Float rounding is not modelled.
- The lock files of `scripts/daily_autorun.mjs` and `scripts/backfill_history.mjs`, and their exit when the lock already exists (EEXIST), are out: a run is modelled as holding the lock.
- The collector spawn of `runCollectorForDate` and its retry sleep are out. The collector's result (its JSON, a non-zero exit or a timeout) is an input.
- The AI step (`callDoubao`, `generateAiState`, `runInBatches` and the relay) is out.
- `sendDiscordNotification` is out: the webhook post, the `sha1` of the message and the throw on a non-2xx reply. The notifier is modelled up to the message text and the status update it records.
- `writeJson` and the atomic renames are out. So are the history envelope around the record list and the `__`-prefixed keys that `daily_autorun` writes beside it: the model keeps the record list only.
- `Backfill.ParseArgs`: keeps the raw text of `--output` and `--status-output`, because `path.resolve(ROOT, …)` is a host call.
- `Text.PyFloat`: accepts signed decimal literals only. Python `float` also reads exponents (`1e3`), underscores (`1_000`), `inf` and `nan`; the model rejects those texts.
- `Text.JsNumber`: accepts blank text and signed decimal literals only. JavaScript `Number` also reads exponents, `0x10` and `Infinity`.
- `Inputs.CoerceValue`: `Number([])` is 0 and `Number([7])` is 7 in JavaScript, but the model's `JsToNumber` reads every array as NaN. A numeric field holding an empty or one-element list is therefore kept as it is, where the source would turn it into a number.
- `DeepLink.FormDecode`: decodes `+` only. `URLSearchParams` also decodes `%XX` escapes, which the model leaves as they are.
- `DiscordNotify.BuildDiscordMessage`: `slice(0, 1990)` (and `slice(0, 900)` in `DiscordNotify.ExcerptBlock`) count UTF-16 code units, but `Take` counts characters, so the two differ on text outside the Basic Multilingual Plane.
- `Seed.BuildSeedPayload`: its errors are `PriceDiff` records (date, close, cross close, difference), not the formatted strings of `scripts/eth_price_seed.py:51`.
- `AiPayload.BuildAiPayload`: reads a missing `gates` list as empty, but `output.gates.map` in `src/ai/payload.js:60` throws on it.
- `Backfill.BuildBackfillDates`: requires a step of at least 1. A step of 0 never ends the loop (see Findings), and a command line cannot produce a negative step.
- `Utils.Normalize`: requires `min < max`. Every call site passes two distinct constants in that order.
- `Series.MacroFromSeries`: requires non-empty DXY, 2Y and NFCI series. The source reads the oldest point of each as a fallback and throws on an empty one.
- The page's `previousDateKey` (`src/app.js:770-774`) works in local time and is out. `Dates.PreviousDateKey` is the UTC day step of the scripts.
- `strengthText` in `src/engine/rules/bpi.js` is a formatted string and is out. The strength and the label are modelled.
- A daily `--timeout` in (0, 1) floors to 0. The model keeps the floored value; what the collector spawn makes of it is outside the model.
- The collector as written is kept, not corrected:
  - `main` ignores `--date` and `--output`, and writes only `src/data/auto.json`, so the shipped backfill and daily runs never read a payload (see Findings);
  - `fetch_macro` is called outside `safe_call`, so its failure ends the run;
  - `src/data/adapters.js:178` writes `market.total_supply ?? circulating || 1`. JavaScript forbids mixing `??` and `||` without parentheses, so this line is a SyntaxError and the module cannot load as shipped. The model keeps the helpers of that file as they read.
- The browser side is out: rendering, the DOM, event listeners, `localStorage` and the AI explanation cache's time-to-live. The page's async flows (run today, automatic fetch, date selection, the AI run) are modelled only through the pure steps they call.
- `Timeline.BuildTimelineIndex`: the proof that the later of two records with the same date wins is stated about the date-sorted copy of the history. It is not shown about the order of the raw history.
- `Text.Lower`: lowers ASCII letters only, and the `\d`/`\w` classes behind `Text.HasDayMonYear` match ASCII digits and word characters only. Python's `str.lower`, JavaScript's `toLowerCase` and Python's `\d`/`\w` are Unicode-aware. The markers and date patterns checked are ASCII, so a difference needs non-ASCII letters or digits in the input.
- `Inputs.NormalizeForApp`: when `cexTvl - prevTvl` is NaN, JavaScript writes NaN into `exchBalanceTrend`. The model has no NaN and keeps the field's previous value there.

## Findings

| source | as written | input that shows it | evidently intended | confidence | as-written member | corrected member |
|---|---|---|---|---|---|---|
| scripts/collector.py:788 | the 7-day return is guarded by the last close, but divides by the close seven steps back | ten or more closes with a non-zero last close and a zero at position 7: `compute_tridomain` raises ZeroDivisionError, outside any `safe_call`, and the collector run ends | guard the 7-day return by its own divisor, as the 30-day return is guarded by its own | not executed | Derived.WeekZeroRaises | Derived.ComputeTridomain |
| scripts/collector.py:974 | `main` writes its payload only to `src/data/auto.json`, never to the `--output` path that `scripts/backfill_history.mjs:295` and `scripts/daily_autorun.mjs:170-174` read back | any backfill or daily run: the temporary output file does not exist, so the backfill fails every sample date with the missing-file error and the daily run raises "collector returned empty payload" | write the payload to the `--output` path the caller passes | not executed | Backfill.ShippedOutputNeverRead | Backfill.IntendedCollectorFiles |
| scripts/backfill_history.mjs:90 | the step is floored after the `> 0` test | `--step 0.5` passes the test and floors to 0, and the loop of `buildBackfillDates` (`offset -= step`) never ends | fall back to the default of 7 whenever the floored step is below 1 | not executed | Backfill.HalfStepFloorsToZero | Backfill.StepOption |

The collector and the backfill modules follow the code as written: `Collect.WithTridomain` raises where the source raises, and `Backfill.ParseArgs` returns the floored step.
- The corrected halves are `Derived.TridomainOf` with `Derived.ComputeTridomain`, and `Backfill.CleanArgs` with `Backfill.StepOption`.
- For the output file, `Backfill.RunBackfill` proves that a run whose every collection throws adds no record and leaves a failure row for each sample date the stored history lacks; `Daily.ShippedDailyFails` proves that the daily run raises. The corrected halves are `Backfill.IntendedCollectorFiles` and `Daily.IntendedDailyReads`, and the `Collected` paths of `Backfill.ProcessDate` and `Daily.DailyRecord`.
- `Derived.AsWrittenAgrees` proves that the two tridomain definitions agree on every input where the code does not raise.
