# Training analysis and plan core of an AI cycling coach, in Dafny

This project models the analysis and planning core of the cycling-coach web application:

- the power and heart-rate **zone classifier**;
- the **training-data aggregator**. It turns stored rides into per-ride insights: intensity, note keywords and sentiment, training load. From those it computes a training pattern (recent load, trend, recovery flag, consistency, zone focus, last rest day), a fitness/fatigue/form model, and an ordered list of coaching recommendations;
- the **polarized plan generator**;
- the **plan adapter**, which rewrites upcoming sessions after a new analysis and appends a rest day to every ISO week that lacks one;
- the **monthly template** of planned sessions shown in the calendar.

The model follows the source's own shape:

- Pure helpers are functions.
- Loops are methods with invariants, each proved equal to a specification function. There is one exception. The last-rest-day `for` loop always leaves on its first pass. `ReadPattern` therefore writes it as a single `if`, and `LastRestDayIgnoresGaps` justifies that step.
- In-place sorts work on an `array`.
- The session array that a plan and its shallow copy share is a `SessionList` object.

Properties are proved as lemmas about the specification functions.

Conventions:

- Timestamps are integer milliseconds in UTC, and one day is `DayMs` = 86 400 000 ms.
- The clock (`now`, `today`) is a parameter. `crypto.randomUUID` becomes `newId(k)`, the identifier of the k-th call.
- Numbers are exact reals. `Math.round` is `Floor(x + 1/2)`.
- A `NaN` consistency score is `None`.

The modules:

| file | module | source |
|---|---|---|
| common.dfy | `Common` | shared `Option`/`Result`, `Math.round`, day length |
| training_zones.dfy | `TrainingZones` | src/utils/trainingZones.ts |
| activity_insights.dfy | `ActivityInsights` | `processActivity`, `calculateIntensity`, `calculateTrainingLoad` |
| private_notes.dfy | `PrivateNotes` | `processPrivateNote` |
| training_patterns.dfy | `TrainingPatterns` | `analyzePatterns` |
| fitness_model.dfy | `FitnessModel` | `calculateFitnessMetrics` |
| recommendations.dfy | `Recommendations` | `generateRecommendations` |
| training_analysis.dfy | `TrainingAnalysisModel` | `analyzeRecentTraining` after the fetch |
| iso_week.dfy | `IsoWeek` | `getISOWeekNumber` (ISO 8601:2004, section 4.1.4) |
| plan_types.dfy | `PlanTypes` | `TrainingSession`, `TrainingPlan` records |
| plan_generator.dfy | `PlanGenerator` | src/utils/trainingPlanGenerator.ts |
| plan_adapter.dfy | `PlanAdapter` | src/utils/trainingPlanAdapter.ts |
| planned_sessions.dfy | `PlannedSessions` | the `useMemo` body of src/hooks/usePlannedSessions.ts |

## Model

| member | source | states |
|---|---|---|
| TrainingZones.InitZones | src/utils/trainingZones.ts:11-15 | every bucket is 0; z6 and z7 exist exactly when the high zones are asked for |
| TrainingZones.ZoneOf | src/utils/trainingZones.ts:24-31 | the zone of a sample satisfies that zone's bounds (lower inclusive, upper exclusive); with a positive threshold no other zone does |
| TrainingZones.CountsCoverSamples | src/utils/trainingZones.ts:24-32 | each sample is counted in exactly one zone, so the zone counts add up to the number of samples |
| TrainingZones.ZoneOfMonotone | src/utils/trainingZones.ts:25-31 | a larger sample never lands in a lower zone |
| TrainingZones.ZoneBoundaries | src/utils/trainingZones.ts:25-31 | 1.2·FTP lands in z6 and 1.05·FTP in z5; anything from 1.5·FTP is z7; heart rate from 1.03·LTHR is z5 |
| TrainingZones.ComputeTimeInPowerZones | src/utils/trainingZones.ts:20-35 | z6/z7 present; a missing or non-positive FTP gives all zeros; otherwise each bucket counts its zone's samples and the total is the number of samples |
| TrainingZones.ComputeTimeInHrZones | src/utils/trainingZones.ts:41-54 | z6/z7 absent; a missing or non-positive LTHR gives all zeros; otherwise each of the five buckets counts its samples and the total is the number of samples |
| ActivityInsights.CalculateIntensity | src/services/trainingDataAggregator.ts:120-165 | computes `calculateIntensity`: zones first, then average power against FTP, then average heart rate against LTHR, then duration; its properties are carried by ZonesDecideIntensity, ZeroZoneTimeIsEasy, ZoneLadder, PowerBeforeHeartRate, HeartRateBeforeDuration, RatioIntensityMonotone, RatioBoundariesAreStrict and DurationIntensityMonotone |
| ActivityInsights.ZeroZoneTimeIsEasy | src/services/trainingDataAggregator.ts:128-129 | a zone distribution with no time in any zone is easy |
| ActivityInsights.ZoneLadder | src/services/trainingDataAggregator.ts:131-140 | with total zone time t > 0, h the time in z4..z7 and m the time in z3: very hard iff 20h > 3t; hard iff not that and (20h > t or 10m > 3t); moderate iff neither and 10m > t; easy otherwise (the strict `>` of the source) |
| ActivityInsights.ZonesDecideIntensity | src/services/trainingDataAggregator.ts:126-141 | with a zone distribution, the intensity depends on the zones alone, not on averages or duration |
| ActivityInsights.PowerBeforeHeartRate | src/services/trainingDataAggregator.ts:144-158 | without zones, a truthy average power and positive FTP decide alone; heart rate and duration are ignored |
| ActivityInsights.HeartRateBeforeDuration | src/services/trainingDataAggregator.ts:152-165 | when power does not apply, a truthy average heart rate and positive LTHR decide alone |
| ActivityInsights.RatioIntensityMonotone | src/services/trainingDataAggregator.ts:144-158 | a higher power or heart-rate ratio never gives a lower intensity |
| ActivityInsights.DurationIntensityMonotone | src/services/trainingDataAggregator.ts:160-165 | a longer ride never gets a lower duration-based intensity |
| ActivityInsights.RatioBoundariesAreStrict | src/services/trainingDataAggregator.ts:146-155 | thresholds are strict: exactly 0.95·FTP is `hard`, and exactly LTHR is `hard`, not `very_hard` |
| ActivityInsights.ZoneIntensityScaleInvariant | src/services/trainingDataAggregator.ts:128-140 | scaling every zone time by the same factor leaves the intensity unchanged |
| ActivityInsights.ShareIntensityScaleInvariant | src/services/trainingDataAggregator.ts:134-140 | the classification depends only on the fractions of high and moderate time |
| ActivityInsights.SameSharesSameIntensity | src/services/trainingDataAggregator.ts:134-140 | equal high and moderate fractions give equal intensities |
| ActivityInsights.AverageZone | src/services/trainingDataAggregator.ts:232-240 | the time-weighted average zone lies between 1 and 7 |
| ActivityInsights.MeanZone | src/services/trainingDataAggregator.ts:231-242 | the blend term's mean zone, when present, lies between 1 and 7 |
| ActivityInsights.BlendedLoadIsProportional | src/services/trainingDataAggregator.ts:215-241 | the unrounded load is hours times a rate fixed by intensity and mean zone |
| ActivityInsights.LoadRatePositive | src/services/trainingDataAggregator.ts:221-241 | that rate is positive |
| ActivityInsights.CalculateTrainingLoad | src/services/trainingDataAggregator.ts:210-246 | the load is at most 100, and non-negative when the moving time is non-negative |
| ActivityInsights.LoadMonotoneInDuration | src/services/trainingDataAggregator.ts:215-245 | for the same zones and intensity, a longer ride never gets a lower load |
| ActivityInsights.BlendedLoadMonotone | src/services/trainingDataAggregator.ts:218-241 | the unrounded load grows with duration |
| ActivityInsights.MeanZoneOfZoneOne | src/services/trainingDataAggregator.ts:234-240 | time spent only in z1 has mean zone 1 |
| ActivityInsights.ZoneBlendExample | src/services/trainingDataAggregator.ts:215-245 | an easy hour in z1 scores 24 with zones (0.7·20 + 10, no 0.3 factor) and 20 without |
| ActivityInsights.LoadCapExample | src/services/trainingDataAggregator.ts:245 | two very hard hours without zones are capped at 100 |
| ActivityInsights.InsightOf | src/services/trainingDataAggregator.ts:85-115 | id, date and type are copied; power zones win over heart-rate zones; load at most 100 (and non-negative for non-negative time); sentiment null exactly for a blank note |
| ActivityInsights.ProcessActivity | src/services/trainingDataAggregator.ts:85-115 | the method computes `InsightOf` |
| PrivateNotes.ToLower | src/services/trainingDataAggregator.ts:174 | lower-casing keeps the length and maps each character |
| PrivateNotes.Words | src/services/trainingDataAggregator.ts:179-183 | the tokenizer yields maximal runs of word characters, the units a `\b…\b` pattern can match |
| PrivateNotes.PatternMatches | src/services/trainingDataAggregator.ts:186-191 | a word is matched exactly when it occurs in the note and in the pattern's list |
| PrivateNotes.AllMatchesMembers | src/services/trainingDataAggregator.ts:179-191 | the matches of all five patterns are exactly the note's words that are keywords |
| PrivateNotes.Dedup | src/services/trainingDataAggregator.ts:204 | `[...new Set(keywords)]`: no duplicates and the same members |
| PrivateNotes.DedupOfDistinct | src/services/trainingDataAggregator.ts:204 | a list without duplicates is left as it is |
| PrivateNotes.IncludesIsSubstring | src/services/trainingDataAggregator.ts:197-198 | `includes` holds exactly when the word occurs at some position |
| PrivateNotes.NoteKeywords | src/services/trainingDataAggregator.ts:171-204 | a blank note gives no keywords; otherwise the keywords are the note's lower-cased words found in the lists, without duplicates |
| PrivateNotes.SentimentOf | src/services/trainingDataAggregator.ts:194-201 | positive when more positive than negative lexicon words occur as substrings of the lower-cased note, negative in the opposite case, neutral on a tie; its properties are carried by PositiveKeywordCounts, IncludedWordCounts and GoodsCountsAsPositive |
| PrivateNotes.NoteSentiment | src/services/trainingDataAggregator.ts:171-203 | sentiment is null exactly for an absent or empty note |
| PrivateNotes.WordsAreIncluded | src/services/trainingDataAggregator.ts:179-198 | every whole word of a note is also a substring of it |
| PrivateNotes.IncludedWordCounts | src/services/trainingDataAggregator.ts:197-198 | a listed word contained in the note adds to its count |
| PrivateNotes.PositiveKeywordCounts | src/services/trainingDataAggregator.ts:179-198 | a positive keyword found in a note always counts towards positive sentiment |
| PrivateNotes.NoMatchesWithoutListedWord | src/services/trainingDataAggregator.ts:186-191 | a pattern whose words do not occur matches nothing |
| PrivateNotes.AllMatchesWithoutListedWord | src/services/trainingDataAggregator.ts:186-191 | no listed word means no match for any pattern |
| PrivateNotes.NoKeywordWithoutListedWord | src/services/trainingDataAggregator.ts:179-191 | a note without a listed whole word has no keywords |
| PrivateNotes.GoodsHasNoKeyword | src/services/trainingDataAggregator.ts:179-191 | "goods" yields no keyword, because of the word boundaries |
| PrivateNotes.GoodsCountsAsPositive | src/services/trainingDataAggregator.ts:194-201 | "goods" still counts as positive, because sentiment uses substring search |
| PrivateNotes.ProcessPrivateNote | src/services/trainingDataAggregator.ts:171-205 | the method's keywords and sentiment are `NoteKeywords` and `NoteSentiment` |
| TrainingPatterns.InsertByDate | src/services/trainingDataAggregator.ts:252 | inserting into a date-sorted list keeps it sorted and adds exactly that element |
| TrainingPatterns.SortByDate | src/services/trainingDataAggregator.ts:252 | the result is a permutation of the input (same multiset) sorted by date in the requested direction |
| TrainingPatterns.NewestComesFirst | src/services/trainingDataAggregator.ts:252 | after a newest-first sort, the head is an input element no older than any other |
| TrainingPatterns.SortInPlace | src/services/trainingDataAggregator.ts:252 | the array afterwards holds `SortByDate` of its old contents |
| TrainingPatterns.DatedBetween | src/services/trainingDataAggregator.ts:255-272 | the window holds exactly the insights dated from `from` (and before `until`) |
| TrainingPatterns.Trend | src/services/trainingDataAggregator.ts:276-278 | with no prior load, the trend is increasing exactly when there is recent load, and stable when both are zero; increasing and decreasing imply a higher and a lower load |
| TrainingPatterns.TrendScaleInvariant | src/services/trainingDataAggregator.ts:262-278 | dividing both windows by the same 7 does not change the trend |
| TrainingPatterns.ConsistencyScore | src/services/trainingDataAggregator.ts:285-287 | NaN (None) exactly for no activities; exactly 100 for 1 to 14; above 100 beyond 14, so never capped |
| TrainingPatterns.ScoreRatio | src/services/trainingDataAggregator.ts:285-287 | the unrounded ratio is 100 up to 14 activities and at least 107 beyond |
| TrainingPatterns.ConsistencyAtLeastHundred | src/services/trainingDataAggregator.ts:285-287 | a defined score is never below 100 |
| TrainingPatterns.FocusOf | src/services/trainingDataAggregator.ts:299-302 | without any zone time the focus stays mixed |
| TrainingPatterns.FocusLadder | src/services/trainingDataAggregator.ts:302-311 | with zone time, each focus holds exactly when its share passes its bound and every earlier bound fails: > 80% z1-z2 endurance, > 30% z3 tempo, > 20% z4 threshold, > 10% z5-z7 vo2max, otherwise mixed |
| TrainingPatterns.FocusExamples | src/services/trainingDataAggregator.ts:302-311 | only z1/z2 time gives endurance; only z4 time gives threshold |
| TrainingPatterns.RestScan | src/services/trainingDataAggregator.ts:315-336 | the last-rest-day loop as written, from index i on, with its first-pass exit and its gap exit; LastRestDayIgnoresGaps proves that the scan from 0 always takes the first exit |
| TrainingPatterns.LastRestDayIgnoresGaps | src/services/trainingDataAggregator.ts:315-336 | the loop always exits at its first pass: 0 for no activity, else whole days since the newest plus one |
| TrainingPatterns.PatternOf | src/services/trainingDataAggregator.ts:251-346 | recent load is the last week's total over 7; recovery is needed exactly with ≥ 3 hard rides that week or load > 50; the score is None exactly for no activities and otherwise ≥ 100 |
| TrainingPatterns.EmptyHistoryLoad | src/services/trainingDataAggregator.ts:255-278 | no activities: no recent load and a stable trend |
| TrainingPatterns.EmptyHistoryPattern | src/services/trainingDataAggregator.ts:251-346 | no activities: no load, stable, no recovery, no score, mixed focus, rest day 0 |
| TrainingPatterns.HardCountAtLeast | src/services/trainingDataAggregator.ts:281 | any set of distinct hard rides in the last week bounds the hard count from below |
| TrainingPatterns.HardCountAppend | src/services/trainingDataAggregator.ts:281 | hard counts add over concatenation |
| TrainingPatterns.ThreeHardRidesNeedRecovery | src/services/trainingDataAggregator.ts:281-282 | three hard rides within the last 7 days always set the recovery flag |
| TrainingPatterns.OneRideDividesBySeven | src/services/trainingDataAggregator.ts:262 | a single ride of load 70 today gives a recent load of 10, not 70 |
| TrainingPatterns.AnalyzePatterns | src/services/trainingDataAggregator.ts:251-346 | the caller's array is sorted newest first in place, and the pattern is `PatternOf` of it |
| TrainingPatterns.ReadPattern | src/services/trainingDataAggregator.ts:254-345 | the statements after the sort compute `PatternOf` |
| FitnessModel.Blend | src/services/trainingDataAggregator.ts:367-368 | one decay step `previous·decay + load·(1 − decay)`; its properties are carried by BlendWithin, BlendMonotoneInPrevious, BlendMonotoneInLoad, BlendOfEqual and BlendMonotone |
| FitnessModel.Ema | src/services/trainingDataAggregator.ts:362-369 | the decay loop over the loads from 0, oldest first; its properties are carried by EmaWithin and EmaMonotone |
| FitnessModel.BlendWithin | src/services/trainingDataAggregator.ts:367-368 | one decay step stays within [0, hi] when both inputs do |
| FitnessModel.EmaWithin | src/services/trainingDataAggregator.ts:362-369 | loads within [0, hi] keep the running average within [0, hi] |
| FitnessModel.BlendMonotoneInPrevious | src/services/trainingDataAggregator.ts:367-368 | with a non-negative decay, a larger previous value gives a larger blend |
| FitnessModel.BlendMonotoneInLoad | src/services/trainingDataAggregator.ts:367-368 | with a decay at most 1, a larger load gives a larger blend |
| FitnessModel.BlendOfEqual | src/services/trainingDataAggregator.ts:367-368 | blending a value with itself gives it back, whatever the decay |
| FitnessModel.BlendMonotone | src/services/trainingDataAggregator.ts:367-368 | a decay step is monotone in both arguments |
| FitnessModel.EmaMonotone | src/services/trainingDataAggregator.ts:362-369 | pointwise larger loads give a larger average |
| FitnessModel.MetricsOf | src/services/trainingDataAggregator.ts:351-378 | fitness and fatigue are at most 100; form is exactly fitness minus fatigue |
| FitnessModel.MetricsWithin | src/services/trainingDataAggregator.ts:355-377 | with loads in [0, 100], fitness and fatigue are in [0, 100] and form in [-100, 100] |
| FitnessModel.MetricsMonotone | src/services/trainingDataAggregator.ts:362-375 | pointwise larger loads never lower fitness or fatigue |
| FitnessModel.EmptyHistoryMetrics | src/services/trainingDataAggregator.ts:355-377 | no activities give (0, 0, 0) |
| FitnessModel.SingleHardRide | src/services/trainingDataAggregator.ts:358-375 | one ride of load 100 gives fitness 1, fatigue 7, form -6 |
| FitnessModel.CalculateFitnessMetrics | src/services/trainingDataAggregator.ts:351-378 | the caller's array is sorted oldest first in place, and the metrics are `MetricsOf` of it |
| FitnessModel.AverageLoads | src/services/trainingDataAggregator.ts:355-377 | the decay loop computes `MetricsOf` |
| Recommendations.Pushed | src/services/trainingDataAggregator.ts:389-425 | the advice the source's `if`/`else if` statements push, in statement order; PushedInRuleOrder proves it equals the rules fired in order and AtMostSix bounds it by six |
| Recommendations.RuleAt | src/services/trainingDataAggregator.ts:389-425 | the k-th rule has position k in the rule order |
| Recommendations.RuleAtOrder | src/services/trainingDataAggregator.ts:389-425 | every advice except the default is the rule at its own position |
| Recommendations.EitherSplit | src/services/trainingDataAggregator.ts:397-415 | an if/else-if pair pushes as two rules, the second guarded by the negated first |
| Recommendations.FiredInOrder | src/services/trainingDataAggregator.ts:389-425 | the first n rules emit exactly the advice whose condition holds, in strictly increasing rule order |
| Recommendations.PushedInRuleOrder | src/services/trainingDataAggregator.ts:389-425 | the pushes of the source's statements equal the rules fired in order |
| Recommendations.AdviceFor | src/services/trainingDataAggregator.ts:383-428 | 1 to 6 entries, since three else-if pairs give at most one sentence each; entries in rule order; each advice appears exactly when its condition holds; the default appears exactly when it is alone |
| Recommendations.AtMostSix | src/services/trainingDataAggregator.ts:391-425 | three single rules and three else-if pairs push at most six sentences |
| Recommendations.RuleConditions | src/services/trainingDataAggregator.ts:392-425 | the nine conditions written out, each as an if-and-only-if |
| Recommendations.NoConsistencyAdvice | src/services/trainingDataAggregator.ts:418-420 | an analysed pattern never triggers the consistency advice, since its score is NaN or ≥ 100 |
| Recommendations.DefaultOnlyWhenQuiet | src/services/trainingDataAggregator.ts:427 | the output is the single default sentence exactly when no rule fires |
| Recommendations.QuietPatternAdvice | src/services/trainingDataAggregator.ts:389-427 | a quiet pattern with zero metrics gets only the default sentence |
| Recommendations.Messages | src/services/trainingDataAggregator.ts:389-427 | one sentence per advice, in order |
| Recommendations.GenerateRecommendations | src/services/trainingDataAggregator.ts:383-428 | the pushed sentences are the messages of `AdviceFor` |
| TrainingAnalysisModel.Insights | src/services/trainingDataAggregator.ts:56 | one insight per fetched activity, in fetch order |
| TrainingAnalysisModel.MetricsPart | src/services/trainingDataAggregator.ts:62 | form is fitness minus fatigue, both at most 100 |
| TrainingAnalysisModel.AnalysisOf | src/services/trainingDataAggregator.ts:55-74 | the activities are a permutation of the insights, sorted oldest first (the second in-place sort); form = fitness − fatigue; at least one recommendation |
| TrainingAnalysisModel.InsightLoadsWithin | src/services/trainingDataAggregator.ts:56 | every load is in [0, 100] for non-negative moving times |
| TrainingAnalysisModel.AnalysisMetricsWithin | src/services/trainingDataAggregator.ts:56-73 | for non-negative moving times, fitness and fatigue are in [0, 100] and form in [-100, 100] |
| TrainingAnalysisModel.EmptyAnalysis | src/services/trainingDataAggregator.ts:55-74 | no activities: empty list, fitness and fatigue 0, only the default sentence |
| TrainingAnalysisModel.AnalysisResult | src/services/trainingDataAggregator.ts:47-80 | a failed fetch fails with "Failed to fetch activities: " + error; otherwise one analysed activity per fetched one |
| TrainingAnalysisModel.AnalyzeRecentTraining | src/services/trainingDataAggregator.ts:41-80 | the method computes `AnalysisResult` |
| TrainingAnalysisModel.AnalyzeActivities | src/services/trainingDataAggregator.ts:55-74 | processing, two in-place sorts, metrics and advice compute `AnalysisOf` |
| TrainingAnalysisModel.ProcessActivities | src/services/trainingDataAggregator.ts:56 | a fresh array holding `Insights` |
| IsoWeek.WeekDay | src/utils/trainingPlanAdapter.ts:96 | `getDay()` is in 0..6 |
| IsoWeek.SinceMonday | src/utils/trainingPlanAdapter.ts:96 | days since Monday are in 0..6 |
| IsoWeek.SinceMondayMod | src/utils/trainingPlanAdapter.ts:96 | days since Monday equal (day + 3) mod 7 |
| IsoWeek.YearLength | src/utils/trainingPlanAdapter.ts:97 | a Gregorian year has 366 days when leap, 365 otherwise |
| IsoWeek.YearOf | src/utils/trainingPlanAdapter.ts:97 | `getFullYear()`: the day lies between the start of its year and the start of the next |
| IsoWeek.YearOfUnique | src/utils/trainingPlanAdapter.ts:97 | that year is unique |
| IsoWeek.IsoWeekNumber | src/utils/trainingPlanAdapter.ts:93-101 | the week number is always in 1..53 |
| IsoWeek.WeeksBetweenMondays | src/utils/trainingPlanAdapter.ts:96-100 | the division by 7 is exact and the quotient is in 0..52, so `Math.round` changes nothing |
| IsoWeek.FirstMondayExample | src/utils/trainingPlanAdapter.ts:93-101 | Monday 1970-01-05 is in week 2 |
| IsoWeek.SundayExample | src/utils/trainingPlanAdapter.ts:93-101 | Sunday 1970-01-04 is in week 1 |
| IsoWeek.SecondMondayExample | src/utils/trainingPlanAdapter.ts:93-101 | Monday 1971-01-11 is in week 2 |
| IsoWeek.WeekIgnoresYear | src/utils/trainingPlanAdapter.ts:64-70 | example: Monday 1970-01-05 and Monday 1971-01-11 (53 weeks apart, across the 53-week ISO year 1970) both have week number 2, so the adapter puts sessions more than a year apart in one group |
| PlanTypes.SessionList.Push | src/utils/trainingPlanAdapter.ts:88 | `push` appends one session |
| PlanTypes.SessionList.Replace | src/utils/trainingPlanAdapter.ts:28-41 | an in-place edit changes one index and nothing else |
| PlanGenerator.OrDefault | src/utils/trainingPlanGenerator.ts:15-16 | `??`: the value when present, the default otherwise |
| PlanGenerator.SessionsPerWeekOf | src/utils/trainingPlanGenerator.ts:19-24 | between 3 and 5 sessions a week |
| PlanGenerator.SessionsPerWeek | src/utils/trainingPlanGenerator.ts:19-28 | a failed analysis keeps the default of 3 |
| PlanGenerator.SessionsPerWeekThresholds | src/utils/trainingPlanGenerator.ts:23-24 | 5 exactly from a score of 80, 4 exactly for 60..79, 3 exactly for no score or below 60 |
| PlanGenerator.SessionsPerWeekAfterAnalysis | src/utils/trainingPlanGenerator.ts:19-28 | after a successful analysis it is 5 when any ride was fetched and 3 otherwise; 4 never occurs |
| PlanGenerator.HighCount | src/utils/trainingPlanGenerator.ts:41 | `Math.round(total · 0.2)` equals (total + 2) div 5 |
| PlanGenerator.WeekOffsets | src/utils/trainingPlanGenerator.ts:45-49 | slot s of week w is w·7 + s·floor(7/spw) |
| PlanGenerator.DayIndexes | src/utils/trainingPlanGenerator.ts:44-50 | weeks·spw offsets |
| PlanGenerator.WeekOffsetsWithin | src/utils/trainingPlanGenerator.ts:45-50 | for 1 to 7 sessions a week, week w's offsets lie in [7w, 7w+6] and increase strictly |
| PlanGenerator.DayIndexesIncreasing | src/utils/trainingPlanGenerator.ts:44-50 | all offsets increase strictly and lie in [0, 7·weeks) |
| PlanGenerator.SessionAt | src/utils/trainingPlanGenerator.ts:60-73 | a high slot is vo2max/60 min/9, any other is endurance/90 min/3; the date is start + offset days; never completed |
| PlanGenerator.PlanSessions | src/utils/trainingPlanGenerator.ts:60-73 | one session per offset |
| PlanGenerator.PlanSessionsAt | src/utils/trainingPlanGenerator.ts:60-73 | session i is the session of offset i, vo2max exactly at the high slots |
| PlanGenerator.HighSlots | src/utils/trainingPlanGenerator.ts:53-58 | every fourth slot up to the quota: min(quota, ceil(n/4)) vo2max sessions |
| PlanGenerator.ExactQuota | src/utils/trainingPlanGenerator.ts:41-58 | exactly `Math.round(0.2·total)` sessions are vo2max |
| PlanGenerator.GeneratedSessions | src/utils/trainingPlanGenerator.ts:30-73 | spw·weeks sessions |
| PlanGenerator.ConsistentRiderExample | src/utils/trainingPlanGenerator.ts:19-58 | a score of 85 over 4 weeks: 5 a week, 20 sessions, 4 of them vo2max |
| PlanGenerator.GeneratePolarizedPlan | src/utils/trainingPlanGenerator.ts:13-83 | the plan's sessions are the generated ones for the analysed sessions per week, with defaults 250/170; user id copied; both timestamps `now` |
| PlanGenerator.ScheduleSessions | src/utils/trainingPlanGenerator.ts:30-73 | the three loops produce `GeneratedSessions` |
| PlanGenerator.SpreadDays | src/utils/trainingPlanGenerator.ts:44-50 | the nested loops produce `DayIndexes` |
| PlanGenerator.HighSlotIndexes | src/utils/trainingPlanGenerator.ts:53-58 | an index below n is chosen exactly when it is a multiple of 4 under the quota |
| PlanGenerator.BuildSessions | src/utils/trainingPlanGenerator.ts:60-73 | the `forEach` produces `PlanSessions` |
| PlanAdapter.FirstMatch | src/utils/trainingPlanAdapter.ts:45 | `find`: the first upcoming session of the given kinds, or none when no session matches |
| PlanAdapter.MakeEndurance | src/utils/trainingPlanAdapter.ts:28-33 | endurance, 90 min, intensity 3; id, date and completion kept |
| PlanAdapter.MakeVo2 | src/utils/trainingPlanAdapter.ts:36-41 | vo2max, 60 min, intensity 9; id, date and completion kept |
| PlanAdapter.Softened | src/utils/trainingPlanAdapter.ts:44-47 | rule 1: when fatigue > 70 or recovery is needed, the first upcoming vo2max or threshold session becomes `MakeEndurance` of itself; SofteningTouchesOneUpcoming carries its properties |
| PlanAdapter.Sharpened | src/utils/trainingPlanAdapter.ts:50-53 | rule 2: when form > 20, the first upcoming endurance session becomes `MakeVo2` of itself; SharpeningTouchesOneUpcoming carries its properties |
| PlanAdapter.Reshaped | src/utils/trainingPlanAdapter.ts:43-53 | rule 1 then rule 2 on its result; PastSessionsKept and SofteningUndoneBySharpening carry its properties |
| PlanAdapter.SofteningTouchesOneUpcoming | src/utils/trainingPlanAdapter.ts:44-47 | rule 1 changes only the first upcoming hard session, only when fatigue > 70 or recovery is needed; when that holds and such a session exists, it does become endurance/90 min/intensity 3 and differs from before; length, dates, ids and completion flags stay |
| PlanAdapter.SharpeningTouchesOneUpcoming | src/utils/trainingPlanAdapter.ts:50-53 | rule 2 changes only the first upcoming endurance session, only when form > 20; when that holds and such a session exists, it does become vo2max/60 min/intensity 9 and differs from before; length, dates, ids and completion flags stay |
| PlanAdapter.PastSessionsKept | src/utils/trainingPlanAdapter.ts:21-53 | the rules never change a past or completed session |
| PlanAdapter.SofteningUndoneBySharpening | src/utils/trainingPlanAdapter.ts:44-53 | rule 2 can re-upgrade the session rule 1 just softened |
| PlanAdapter.NeutralAnalysisKeepsSessions | src/utils/trainingPlanAdapter.ts:43-53 | with fatigue ≤ 70, no recovery flag and form ≤ 20, no existing session changes |
| PlanAdapter.WeekOf | src/utils/trainingPlanAdapter.ts:66-67 | a session's week number is in 1..53 |
| PlanAdapter.WeekKeysExact | src/utils/trainingPlanAdapter.ts:64-70 | the map's keys are exactly the week numbers that occur, each once |
| PlanAdapter.MembersExact | src/utils/trainingPlanAdapter.ts:64-70 | a week's group holds exactly the sessions of that week |
| PlanAdapter.FirstMember | src/utils/trainingPlanAdapter.ts:76 | a group's first element is the first session of that week in array order |
| PlanAdapter.KeysHaveMembers | src/utils/trainingPlanAdapter.ts:64-76 | no group is empty |
| PlanAdapter.RestAfter | src/utils/trainingPlanAdapter.ts:77-87 | the rest is dated one day later: rest, 0 min, intensity 1, not completed |
| PlanAdapter.RestsFor | src/utils/trainingPlanAdapter.ts:72-90 | never more rests than week groups |
| PlanAdapter.Restless | src/utils/trainingPlanAdapter.ts:72-76 | a week is listed exactly when it is a key whose group has no rest |
| PlanAdapter.RestlessDistinct | src/utils/trainingPlanAdapter.ts:64-76 | distinct keys give distinct restless weeks |
| PlanAdapter.RestsForExact | src/utils/trainingPlanAdapter.ts:72-90 | as many rests as restless weeks; rest j follows the first session of the j-th restless week and takes the j-th new id |
| PlanAdapter.RestsAreRestDays | src/utils/trainingPlanAdapter.ts:72-90 | each appended session is a rest day dated one day after the first session of a group that had no rest |
| PlanAdapter.WeeklyRests | src/utils/trainingPlanAdapter.ts:62-91 | the rests `ensureWeeklyRest` appends: `RestsFor` over the ISO-week grouping; WeeklyRestsExact, WeeklyRestsWhenRested and RestsAreRestDays carry its properties |
| PlanAdapter.RestsCoverRestlessWeeks | src/utils/trainingPlanAdapter.ts:72-90 | nothing is appended exactly when every group has a rest; every group without a rest gets one |
| PlanAdapter.OneRestPerRestlessWeek | src/utils/trainingPlanAdapter.ts:72-90 | exactly one rest per group without one: the rests pair off in order with the restless weeks, which repeat no week when the keys do not |
| PlanAdapter.WeeklyRestsWhenRested | src/utils/trainingPlanAdapter.ts:62-91 | for the ISO-week grouping of `ensureWeeklyRest`: nothing is appended exactly when every week has a rest, and every restless week gets one |
| PlanAdapter.WeeklyRestsExact | src/utils/trainingPlanAdapter.ts:62-91 | `ensureWeeklyRest` appends exactly one rest per ISO week without one, in the order the weeks first occur |
| PlanAdapter.SundayRestLeavesItsWeek | src/utils/trainingPlanAdapter.ts:76-78 | a lone Sunday ride gets its rest on Monday, in the next ISO week |
| PlanAdapter.GroupByWeek | src/utils/trainingPlanAdapter.ts:64-70 | the grouping loop builds the keys in first-occurrence order and each key's group |
| PlanAdapter.EnsureWeeklyRest | src/utils/trainingPlanAdapter.ts:62-91 | existing sessions stay in place; `WeeklyRests` is appended |
| PlanAdapter.AddMissingRests | src/utils/trainingPlanAdapter.ts:62-91 | the grouping and push loops append `RestsFor` of the groups |
| PlanAdapter.Adapted | src/utils/trainingPlanAdapter.ts:16-60 | the whole adaptation on the session list: unchanged without an upcoming session, otherwise both rules and then the weekly rests appended; AdaptedKeepsHistory carries its properties |
| PlanAdapter.AdaptedKeepsHistory | src/utils/trainingPlanAdapter.ts:16-60 | without an upcoming session nothing changes; otherwise past and completed sessions keep their place and value, and everything appended is an uncompleted rest |
| PlanAdapter.AdaptTrainingPlan | src/utils/trainingPlanAdapter.ts:16-60 | the shared session list becomes `Adapted`; the returned copy equals the plan, with `updatedAt = now` only when a session was upcoming |
| PlannedSessions.DaysInMonth | src/hooks/usePlannedSessions.ts:12 | 28 to 31 days; February has 29 exactly in leap years |
| PlannedSessions.MonthsFillYear | src/hooks/usePlannedSessions.ts:12 | the twelve month lengths add up to the year |
| PlannedSessions.CalendarMonth | src/hooks/usePlannedSessions.ts:8-12 | the month's first day and length; it ends where the next month starts |
| PlannedSessions.NatToString | src/hooks/usePlannedSessions.ts:54 | decimal digits without leading zeros; one digit exactly below 10 |
| PlannedSessions.NatToStringInjective | src/hooks/usePlannedSessions.ts:54 | different numbers have different decimal strings |
| PlannedSessions.PlannedIdsDistinct | src/hooks/usePlannedSessions.ts:54 | different days of a month have different `planned-Y-M-D` ids |
| PlannedSessions.TemplateKind | src/hooks/usePlannedSessions.ts:35-51 | Sunday endurance; Tuesday vo2max exactly when day mod 14 < 7, else threshold; Thursday tempo exactly when day mod 10 < 5, else recovery; Saturday endurance exactly when day mod 8 < 4, else tempo |
| PlannedSessions.TemplateSession | src/hooks/usePlannedSessions.ts:30-61 | the session one loop pass pushes for a training day: type, duration and intensity by weekday and day number, the description from the table, the `planned-Y-M-D` id, midnight of the day, not completed; TemplateByWeekday, TemplateTable and TemplateDate carry its properties |
| PlannedSessions.TemplateByWeekday | src/hooks/usePlannedSessions.ts:35-51 | per weekday: Sunday endurance 120 min/3; Tuesday 60 min, vo2max/9 or threshold/7 by day mod 14; Thursday tempo 75/5 or recovery 45/2 by day mod 10; Saturday 90 min, endurance/3 or tempo/5 by day mod 8 |
| PlannedSessions.TemplateTable | src/hooks/usePlannedSessions.ts:15-59 | the description is the table entry for the type; vo2max 60/9, threshold 60/7, recovery 45/2, tempo intensity 5, endurance intensity 3; never a rest; never completed |
| PlannedSessions.MonthSessions | src/hooks/usePlannedSessions.ts:24-63 | at most one session per day |
| PlannedSessions.MonthSessionsExact | src/hooks/usePlannedSessions.ts:24-63 | a day has a session exactly when it is a Sunday, Tuesday, Thursday or Saturday, and that session is the template's |
| PlannedSessions.TemplateDate | src/hooks/usePlannedSessions.ts:25-55 | a session is dated at its day's midnight and carries that day's id |
| PlannedSessions.EarlierDaysFirst | src/hooks/usePlannedSessions.ts:24-61 | sessions of earlier days come before, and differ in id from, any later day's |
| PlannedSessions.MonthSessionsOrdered | src/hooks/usePlannedSessions.ts:24-61 | dates strictly increase and ids never repeat |
| PlannedSessions.WithinMonth | src/hooks/usePlannedSessions.ts:24-55 | every session lies within the month |
| PlannedSessions.OnlyTrainingDays | src/hooks/usePlannedSessions.ts:26-29 | every session's date is a Sunday, Tuesday, Thursday or Saturday |
| PlannedSessions.PlannedSessionsOfMonth | src/hooks/usePlannedSessions.ts:5-66 | the loop produces `MonthSessions` over the month's days |
| PlannedSessions.SessionsOfDays | src/hooks/usePlannedSessions.ts:24-63 | the loop over days 1 to the month's length produces `MonthSessions` of the whole month |
| PlannedSessions.SessionOfDay | src/hooks/usePlannedSessions.ts:30-61 | the weekday branches build exactly the template's session of that day |

## Left out

- The database fetch is not modelled. Its outcome is a parameter: a `Result` holding the fetched activities or the error text. The 14-day look-back of the query therefore lies outside the model.
- The clock is a parameter. The adapter's `today` and `now` are separate inputs. The generator's two `new Date()` calls for `created_at` and `updated_at` are one `now`.
- Local time zones and daylight saving are not modelled. Every date is UTC, and `setDate(getDate() + n)` adds n·`DayMs`. Dates are milliseconds rather than ISO strings.
- `crypto.randomUUID` is not modelled. Identifiers come from `newId`, numbered in call order within one operation.
- Logging (`console.warn`, `console.error`) is left out, and so is the rethrow after logging.
- Floating-point rounding drift is not modelled: all arithmetic is exact. The km rounding of `distance` is exact arithmetic on reals.
- Regular expressions and `toLowerCase` are approximated. The `\b…\b` keyword patterns are a tokenizer into maximal runs of ASCII letters, digits and `_`. Lower-casing covers ASCII only.
- `Object.values`/`Object.entries` over zone records see exactly the seven named buckets. The "unknown key weighs 1" fallback cannot arise.
- The sort comparators are modelled as a stable insertion sort by date. The contracts state sortedness and permutation but not stability, which JavaScript's `sort` also guarantees.
- Session objects are values. The source edits the objects through the filtered `upcoming` array. Two array slots holding one shared object is not modelled. Rule 2 searches the array after rule 1's edit, which equals searching `upcoming` because neither edit changes a date or a completion flag.
- `goal_event` of a plan is not modelled because no core operation reads or writes it.
- `weeks` of the generator is any natural number, not only 4, 8 or 12.
- The monthly template takes the year and month of "today" as inputs. React's `useMemo` caching is not modelled.
- The advice sentences are produced from an `Advice` code per rule. The texts are the source's own.
- In several places the code does not do what its own comments or the documented intent say. The model follows the code:
  - The consistency score is declared `// 0-100` (src/services/trainingDataAggregator.ts:21), but it exceeds 100 beyond 14 activities.
  - The last-rest-day loop breaks on its first pass (src/services/trainingDataAggregator.ts:322-325), so its gap branch (:327-335) is never reached.
  - The zone term is added at full weight next to `load * 0.7` (src/services/trainingDataAggregator.ts:241), although the documented intent is a 0.7/0.3 blend.
  - The load is only capped above (`// Cap at 100`, src/services/trainingDataAggregator.ts:245). The documented intent also clamps it below at 0.
  - Sessions are grouped "by week starting Monday" (src/utils/trainingPlanAdapter.ts:63), but the key is the ISO week number alone (:67), whatever the year.
