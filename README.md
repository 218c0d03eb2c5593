# hit-track-ace in Dafny

A verified model of the statistics and recording core of hit-track-ace, a
baseball hitting tracker. Coaches keep a roster of players and record
*outings* (games, batting practice, cage sessions, live at-bats). Each outing
is a list of *at-bats*, with pitch locations and, for balls in play, a
spray-chart point carrying exit velocity and a barrel flag. The model covers:

- the report-card grader (`src/lib/grades.ts`): the letter-grade ladder, its
  colours, piecewise-linear scoring against eight benchmark tables, the
  Power / Contact / Discipline categories and the weighted overall grade;
- the batted-ball helpers (`src/lib/stats.ts`);
- the shared in-memory store of players and outings
  (`src/context/HittingContext.tsx`), as a class whose list fields the
  mutators replace;
- the 5×5 strike-zone heat map (`ZoneHeatMap.tsx`), filled in place in an
  `array2`;
- the drawing overlay's stroke history (`DrawingOverlay.tsx`), as a class;
- the progression chart's type filter, three-point rolling average, mean
  and totals (`ProgressionChart.tsx`);
- the plate-discipline quality bands and bar width (`PlateDiscipline.tsx`);
- the live and after-the-fact at-bat recorders (`LiveOuting.tsx`,
  `LogOuting.tsx`), as classes over the store;
- the roster search, add-player form and per-player average (`Roster.tsx`);
- the per-outing summary figures (`OutingDetail.tsx`).

JavaScript numbers are modelled as `real` and counts as `nat`. JavaScript
truthiness is written out: a velocity counts when it is present and non-zero
(`Stats.HasVelo`), a barrel when the flag is present and true
(`Stats.Barreled`). Clock-based ids, parsed text fields and `toLowerCase`
arrive as parameters.

One module per file: `Common` (filter, sums and their lemmas), `HittingTypes`,
`GradeScale`, `Benchmarks`, `ReportCard`, `Stats`, `HittingStore`,
`ZoneHeatMap`, `DrawingOverlay`, `ProgressionChart`, `PlateDiscipline`,
`OutingDetail`, `Roster`, `LiveOuting`, `LogOuting`.

## Model

| member | source | states |
|---|---|---|
| GradeScale.ScoreToGrade | src/lib/grades.ts:7-26 | the loop over the threshold ladder returns the grade of the first threshold the score reaches, `F` when none is reached (equal to `GradeOf`) |
| GradeScale.GradeBands | src/lib/grades.ts:7-26 | each letter is returned exactly on its band: A+ iff score ≥ 97, A iff 93 ≤ score < 97, … D iff 60 ≤ score < 70, F iff score < 60 (negative scores included) |
| GradeScale.GradeMonotone | src/lib/grades.ts:7-26 | a higher score never receives a lower letter in ladder order |
| GradeScale.GradeColorByFamily | src/lib/grades.ts:28-34 | green iff an A grade, blue iff a B grade, yellow iff a C grade, orange iff D, red iff F |
| Benchmarks.InterpolateScore | src/lib/grades.ts:50-63 | the method with its early returns and segment loop computes `Interpolate`: clamped to the end scores outside the table, linear on the first segment that contains the value |
| Benchmarks.TableShape | src/lib/grades.ts:65-97 | each of the eight tables is non-empty and strictly ascending in metric value, its scores are nondecreasing for barrel %, exit velocity, contact %, AVG and pitches/AB and nonincreasing for whiff, chase and called-strike rates, and all scores lie in [20, 100] |
| Benchmarks.AdjacentPair | src/lib/grades.ts:65-97 | neighbouring checkpoints of every table ascend in value and move in score in the table's direction |
| Benchmarks.ScoreInRange | src/lib/grades.ts:65-97 | every checkpoint score of every table lies in [20, 100] |
| Benchmarks.LerpEnds | src/lib/grades.ts:58-59 | the segment formula gives the left score at the left value and the right score at the right value |
| Benchmarks.LerpBetween | src/lib/grades.ts:58-59 | on a segment, the interpolated score lies between the two checkpoint scores |
| Benchmarks.LerpMonotone | src/lib/grades.ts:58-59 | on a segment with rising scores, the interpolated score rises with the value |
| Benchmarks.AscendingPairwise | src/lib/grades.ts:46 | in a table sorted by metric value, any earlier checkpoint has a smaller value than any later one |
| Benchmarks.NondecreasingPairwise | src/lib/grades.ts:65-84 | in a table with rising scores, any earlier checkpoint scores no more than any later one |
| Benchmarks.ScanOnSegment | src/lib/grades.ts:54-61 | the segment scan returns the interpolation on segment k for a value inside segment k, whatever segment the scan starts from at or before k |
| Benchmarks.FindSegment | src/lib/grades.ts:54-61 | a value strictly above the first breakpoint and at most the last lies on some segment |
| Benchmarks.InterpolateOnSegment | src/lib/grades.ts:50-63 | a value inside a segment (above its left end) is scored by that segment's formula |
| Benchmarks.InterpolateExact | src/lib/grades.ts:51-60 | values at or below the first breakpoint get the first score, values at or above the last get the last score, and a value equal to any checkpoint gets that checkpoint's score |
| Benchmarks.InterpolateBetween | src/lib/grades.ts:54-60 | a value strictly between two adjacent checkpoints scores between their two scores |
| Benchmarks.FallbackUnreachable | src/lib/grades.ts:54-62 | every value strictly inside the table satisfies the loop's segment test for some i, so the fallback `return 50` is never reached |
| Benchmarks.InterpolateWithin | src/lib/grades.ts:50-63 | when every checkpoint score lies in [lo, hi], so does the interpolated score |
| Benchmarks.InterpolateMonotone | src/lib/grades.ts:50-63 | on a table with nondecreasing scores, a larger value never scores lower |
| Benchmarks.NegatedShape | src/lib/grades.ts:86-97 | negating the scores of a well-formed table with falling scores gives a well-formed table with rising scores |
| Benchmarks.ScanNegated | src/lib/grades.ts:54-61 | scanning the negated table gives the negated result |
| Benchmarks.NegatedInterpolate | src/lib/grades.ts:50-63 | interpolating in the negated table gives the negated score |
| Benchmarks.InterpolateAntitone | src/lib/grades.ts:50-63 | on a table with nonincreasing scores, a larger value never scores higher |
| Benchmarks.MetricScoreDirection | src/lib/grades.ts:65-97 | for the five higher-is-better metrics the score is nondecreasing in the value, for whiff, chase and called-strike rates it is nonincreasing |
| Benchmarks.MetricScoreRange | src/lib/grades.ts:65-97 | every metric score lies in [20, 100], the least and greatest checkpoint scores |
| ReportCard.MetricScore | src/lib/grades.ts:143-161 | the score of a metric against its table lies in [20, 100] |
| ReportCard.Avg | src/lib/grades.ts:279-282 | an empty list of scores averages to 50 |
| ReportCard.AvgBounds | src/lib/grades.ts:279-282 | when every score lies in [lo, hi] and 50 does too, the average lies in [lo, hi] |
| ReportCard.AvgSingle | src/lib/grades.ts:279-282 | a category with one metric scores that metric's score |
| ReportCard.WeightedSumBounds | src/lib/grades.ts:284-287 | with non-negative weights and values in [lo, hi], the weighted sum lies between lo and hi times the total weight |
| ReportCard.WeightedAvgBounds | src/lib/grades.ts:284-287 | with non-negative weights of positive total and values in [lo, hi], the weighted mean lies in [lo, hi] |
| ReportCard.CategoryWeighting | src/lib/grades.ts:249-253 | the weights 0.30/0.35/0.35 total 1, and the weighted mean is 0.30·power + 0.35·contact + 0.35·discipline |
| ReportCard.GradeMetric | src/lib/grades.ts:165-242 | a metric entry carries its kind, raw value, display format, its table score (in [20, 100]) and the grade of that score |
| ReportCard.PowerCategory | src/lib/grades.ts:143-183 | Power lists Barrel % and then Exit Velo iff the average exit velocity is positive; each metric is graded from the input, and the category score is the mean, graded, in [20, 100] |
| ReportCard.ContactCategory | src/lib/grades.ts:147-213 | Contact lists Batting Avg and then Contact % and Whiff Rate iff pitches were tracked; each metric is graded from the input, and the category score is the mean, graded, in [20, 100] |
| ReportCard.DisciplineCategory | src/lib/grades.ts:154-246 | Discipline lists Chase Rate, Called Strike % and Pitches/AB iff pitches were tracked and is otherwise empty with score 50; the score is graded and lies in [20, 100] |
| ReportCard.CalcReportCard | src/lib/grades.ts:139-277 | the sample-size flag holds iff at least 5 at-bats; the three categories contain exactly the metrics their guards admit; every grade is the grade of its score; overall = 0.30·power + 0.35·contact + 0.35·discipline and lies in [20, 100] |
| ReportCard.MetricGradeDirection | src/lib/grades.ts:143-161 | a better raw value (higher, or lower for the three rate metrics) never receives a worse letter |
| ReportCard.ScoreExtremes | src/lib/grades.ts:65-80 | the bounds [20, 100] are attained: AVG 0 scores 20 and barrel % 20 scores 100 |
| Stats.AvgExitVeloNone | src/lib/stats.ts:3-5 | with no point carrying a truthy exit velocity (including no points) the average is 0 |
| Stats.AvgExitVeloBounds | src/lib/stats.ts:3-7 | when some point has a truthy velocity and all counted velocities lie in [lo, hi], the average lies in [lo, hi] |
| Stats.AvgExitVeloSkipsUncounted | src/lib/stats.ts:4-6 | a point with a missing or zero velocity changes neither the sum nor the count |
| Stats.AvgExitVeloPerm | src/lib/stats.ts:3-7 | reordering the points does not change the average |
| Stats.BarrelPctRange | src/lib/stats.ts:9-12 | the barrel percentage is 0 for no points and lies in [0, 100]; for non-empty input it is 100 iff every point is a barrel and 0 iff none is |
| Stats.UnitShare | src/lib/stats.ts:11 | a share k/n·100 with 0 ≤ k ≤ n lies in [0, 100], is 100 iff k = n and 0 iff k = 0 |
| Stats.BarrelPctPerm | src/lib/stats.ts:9-12 | reordering the points does not change the barrel percentage |
| HittingStore.FindOuting | src/pages/LiveOuting.tsx:38 | nothing is found iff no outing has the id; a found outing has the id and is the first stored outing with it |
| HittingStore.Store.constructor | src/context/HittingContext.tsx:53-55 | the store starts with the given players and outings |
| HittingStore.Store.AddPlayer | src/context/HittingContext.tsx:57-59 | the player is appended at the end; outings are unchanged |
| HittingStore.Store.UpdatePlayer | src/context/HittingContext.tsx:61-63 | players become the id-wise replacement of the old list; outings are unchanged |
| HittingStore.Store.DeletePlayer | src/context/HittingContext.tsx:65-68 | players with the id and outings of that player are filtered out, survivors in order |
| HittingStore.Store.AddOuting | src/context/HittingContext.tsx:70-72 | the outing is appended at the end; players are unchanged |
| HittingStore.Store.UpdateOuting | src/context/HittingContext.tsx:74-76 | outings become the id-wise replacement of the old list; players are unchanged |
| HittingStore.Store.DeleteOuting | src/context/HittingContext.tsx:78-80 | outings with the id are filtered out, survivors in order; players are unchanged |
| HittingStore.Store.PlayerOutings | src/context/HittingContext.tsx:82-84 | an outing is returned iff it is stored and belongs to the player; it reads the store and changes nothing |
| HittingStore.ReplacePlayerEffect | src/context/HittingContext.tsx:61-63 | every position holding the id now holds the new player, every other position is unchanged, and the ids at every position are unchanged |
| HittingStore.ReplacePlayerAbsent | src/context/HittingContext.tsx:61-63 | updating a player whose id is not stored changes nothing |
| HittingStore.ReplacePlayerIdempotent | src/context/HittingContext.tsx:61-63 | updating twice with the same record equals updating once |
| HittingStore.UpdateAfterAdd | src/context/HittingContext.tsx:57-63 | updating the player just added (with a fresh id) replaces only the last entry |
| HittingStore.ReplaceOutingEffect | src/context/HittingContext.tsx:74-76 | every position holding the id now holds the new outing, every other position is unchanged |
| HittingStore.FindAfterReplace | src/context/HittingContext.tsx:74-76 | after updating a stored outing, looking its id up yields the new record |
| HittingStore.ReplaceOutingAbsent | src/context/HittingContext.tsx:74-76 | updating an outing whose id is not stored is a no-op |
| HittingStore.DeletePlayerCascade | src/context/HittingContext.tsx:65-68 | a player survives iff stored with another id; an outing survives iff stored and owned by another player; none of the survivors belongs to the deleted player; survivors keep their multiplicity |
| HittingStore.DeleteOutingExact | src/context/HittingContext.tsx:78-80 | exactly the outings with the id are removed (multiset count 0 for them, unchanged for the rest), and deleting an absent id is a no-op |
| HittingStore.PlayerOutingsAfterAdd | src/context/HittingContext.tsx:70-84 | after adding an outing, a player's outings are the old ones followed by the new one if it is theirs |
| HittingTypes.SprayPointsOf | src/pages/OutingDetail.tsx:58-60 | no more spray points than at-bats, and a point is listed iff some at-bat carries it |
| HittingTypes.SprayPointsAppend | src/pages/LogOuting.tsx:107-109 | appending an at-bat appends its spray point, if any, at the end of the list |
| HittingTypes.HitIsOfficial | src/pages/OutingDetail.tsx:62-65 | every hit is an official at-bat and a ball in play |
| ZoneHeatMap.ZoneData | src/components/hitting/ZoneHeatMap.tsx:32-69 | a fresh 5×5 grid in which each cell holds the number of pitches in it, the number of `in_play_hit` pitches in it, and hits/total or -1 when empty |
| ZoneHeatMap.WriteHitRates | src/components/hitting/ZoneHeatMap.tsx:61-66 | the second pass sets every cell's hit rate to hits/total, or -1 for an empty cell, leaving counts unchanged |
| ZoneHeatMap.CountPitch | src/components/hitting/ZoneHeatMap.tsx:37-59 | counting one more pitch in place keeps every cell's total and hits equal to the counts over the pitches seen so far, that pitch included |
| ZoneHeatMap.CellCountSnoc | src/components/hitting/ZoneHeatMap.tsx:53-58 | one more pitch adds one to its own cell's count (when it matches) and nothing to any other cell |
| ZoneHeatMap.CellIndexUnique | src/components/hitting/ZoneHeatMap.tsx:50-53 | distinct (row, column) pairs name distinct cells |
| ZoneHeatMap.GridSumCons | src/components/hitting/ZoneHeatMap.tsx:37-59 | the first pitch of a list adds one to the sum over the first n cells when it matches and is placed in one of them, and nothing otherwise |
| ZoneHeatMap.GridSumEmpty | src/components/hitting/ZoneHeatMap.tsx:33-35 | an empty pitch list leaves every counter at 0 |
| ZoneHeatMap.GridSumAll | src/components/hitting/ZoneHeatMap.tsx:37-59 | when every pitch is placed in one of the first n cells, the counters summed over them count every matching pitch exactly once |
| ZoneHeatMap.GridTotals | src/components/hitting/ZoneHeatMap.tsx:37-59 | the totals of all cells add up to the number of pitches and the hits to the number of `in_play_hit` pitches |
| ZoneHeatMap.CellBounds | src/components/hitting/ZoneHeatMap.tsx:53-66 | in every cell hits ≤ total; a cell with data has hit rate in [0, 1], an empty one has -1 |
| ZoneHeatMap.GridMonotone | src/components/hitting/ZoneHeatMap.tsx:43-51 | the column is nondecreasing in x and the row nonincreasing in y |
| ZoneHeatMap.EdgeCells | src/components/hitting/ZoneHeatMap.tsx:43-51 | column 0 iff x < -0.9, column 4 iff x ≥ 0.9, row 0 iff y > 0.9, row 4 iff y ≤ -0.9, so far-out pitches clamp to the edge cells |
| ZoneHeatMap.TextColorWhite | src/components/hitting/ZoneHeatMap.tsx:92-99 | the label is white iff the cell has data and its hit rate is below 0.3 or above 0.7 |
| DrawingOverlay.DropLast | src/components/hitting/DrawingOverlay.tsx:150-152 | removes exactly the last element of a non-empty list and is a prefix of it; an empty list stays empty |
| DrawingOverlay.UndoAfterCommit | src/components/hitting/DrawingOverlay.tsx:141-152 | undo right after a commit restores the previous strokes |
| DrawingOverlay.Overlay.constructor | src/components/hitting/DrawingOverlay.tsx:25-30 | no strokes, nothing being drawn, pen, red (#ef4444), width 4 |
| DrawingOverlay.Overlay.HandleStart | src/components/hitting/DrawingOverlay.tsx:126-132 | inactive: no change; active: drawing, with a current stroke of the selected tool, colour and width holding exactly the start point; committed strokes unchanged |
| DrawingOverlay.Overlay.HandleMove | src/components/hitting/DrawingOverlay.tsx:134-139 | only while drawing a stroke, exactly one point is appended to it; nothing else changes |
| DrawingOverlay.Overlay.HandleEnd | src/components/hitting/DrawingOverlay.tsx:141-148 | while drawing: the stroke is committed iff it has more than one point, then drawing stops and no stroke is current; otherwise no change |
| DrawingOverlay.Overlay.HandleUndo | src/components/hitting/DrawingOverlay.tsx:150-152 | only the last committed stroke is removed; nothing else changes |
| DrawingOverlay.Overlay.HandleClear | src/components/hitting/DrawingOverlay.tsx:154-156 | the committed strokes become empty; nothing else changes |
| DrawingOverlay.Overlay.SetTool | src/components/hitting/DrawingOverlay.tsx:27 | only the selected tool changes |
| DrawingOverlay.Overlay.SetColor | src/components/hitting/DrawingOverlay.tsx:28 | only the selected colour changes |
| DrawingOverlay.Overlay.SetWidth | src/components/hitting/DrawingOverlay.tsx:29 | only the selected width changes |
| ProgressionChart.FilteredContents | src/components/hitting/ProgressionChart.tsx:36 | 'all' keeps the data unchanged; a type keeps exactly the points of that type, in order and with their multiplicity |
| ProgressionChart.WindowShape | src/components/hitting/ProgressionChart.tsx:41 | the window at i holds min(i+1, 3) points, the consecutive points ending at i |
| ProgressionChart.RollingFirst | src/components/hitting/ProgressionChart.tsx:41-42 | the rolling average of the first point is its own value |
| ProgressionChart.RollingBounds | src/components/hitting/ProgressionChart.tsx:41-42 | the rolling average lies between the least and greatest metric in its window |
| ProgressionChart.ChartDataEntries | src/components/hitting/ProgressionChart.tsx:40-48 | one chart entry per filtered point, in order, carrying that point and its metric as value; the first entry's rolling average equals its value |
| ProgressionChart.MeanMetricBounds | src/components/hitting/ProgressionChart.tsx:50-52 | the mean over a non-empty filtered list lies between its least and greatest metric |
| ProgressionChart.TotalHitsAtMostAtBats | src/components/hitting/ProgressionChart.tsx:189-198 | Total Hits never exceeds Total ABs when each session's hits do not exceed its at-bats |
| ProgressionChart.TypeTotalsPartition | src/components/hitting/ProgressionChart.tsx:36 | a total over all sessions is the sum of the totals over the four outing types |
| ProgressionChart.TypeSumCons | src/components/hitting/ProgressionChart.tsx:36 | a session adds its amount to its own type's total and nothing to the others |
| ProgressionChart.HitsByType | src/components/hitting/ProgressionChart.tsx:191-197 | the 'all' Total Hits equals the sum of the Total Hits under each of the four type filters |
| PlateDiscipline.QualityBands | src/components/hitting/PlateDiscipline.tsx:22-30 | no benchmark gives no quality; otherwise exactly one band: good iff diff ≥ 0, ok iff -10 ≤ diff < 0, needs-work iff diff < -10, with diff = value − good for 'higher' and good − value for 'lower' |
| PlateDiscipline.QualityMonotone | src/components/hitting/PlateDiscipline.tsx:22-30 | a value better in the benchmark's direction never gets a worse band |
| PlateDiscipline.BarWidthBounds | src/components/hitting/PlateDiscipline.tsx:52 | the bar width never exceeds 100 nor the value, and equals the value up to 100 |
| PlateDiscipline.ChaseExamples | src/components/hitting/PlateDiscipline.tsx:101-132 | with the page's benchmarks, chase 30 is ok, chase 40 needs work, contact 75 is good |
| OutingDetail.CountsOrdered | src/pages/OutingDetail.tsx:62-65 | hits ≤ official at-bats ≤ all at-bats |
| OutingDetail.BattingAvgRange | src/pages/OutingDetail.tsx:66 | the average lies in [0, 1] when hits ≤ at-bats, and is 0 without at-bats |
| OutingDetail.OutingAvgRange | src/pages/OutingDetail.tsx:62-66 | an outing's batting average lies in [0, 1] |
| OutingDetail.AppendAtBat | src/pages/OutingDetail.tsx:58-65 | appending an at-bat adds one official at-bat unless walk or hbp, one hit iff a hit, and its spray point at the end |
| OutingDetail.DetailBarrelPctAgrees | src/pages/OutingDetail.tsx:68-69 | the page's barrel percentage equals `calcBarrelPct` of its spray points |
| OutingDetail.SumSkipsUncounted | src/pages/OutingDetail.tsx:72 | summing `exitVelocity \|\| 0` over all points equals summing over the points with a truthy velocity |
| OutingDetail.DetailAvgExitVeloAgrees | src/pages/OutingDetail.tsx:71-73 | the page's average exit velocity, summed over all points but divided by the truthy count, equals `calcAvgExitVelo` |
| OutingDetail.HardHitPctRange | src/pages/OutingDetail.tsx:177 | the hard-hit share lies in [0, 100], is 0 with no points, and never counts more points than have a velocity |
| OutingDetail.SummaryFacts | src/pages/OutingDetail.tsx:58-73 | an outing's summary has hits ≤ at-bats ≤ all at-bats, an average in [0, 1], barrel % and exit velocity equal to the shared helpers, and hard-hit % in [0, 100] |
| Roster.ContainsEmpty | src/pages/Roster.tsx:28-31 | every string contains the empty string |
| Roster.FilteredPlayersMembers | src/pages/Roster.tsx:28-31 | a player is listed iff stored and its lower-cased name contains the lower-cased search or its number contains the search |
| Roster.EmptySearchShowsAll | src/pages/Roster.tsx:28-31 | an empty search lists every player, in order |
| Roster.HitsAtMostAbs | src/pages/Roster.tsx:47-53 | summed over any outings, hits never exceed official at-bats |
| Roster.PlayerStatsFacts | src/pages/Roster.tsx:46-59 | a player's average lies in [0, 1], the outing count is the number of the player's outings, and a player without outings gets (0, 0) |
| Roster.RosterPage.constructor | src/pages/Roster.tsx:21-26 | an empty form batting right, dialog closed |
| Roster.RosterPage.HandleAddPlayer | src/pages/Roster.tsx:33-44 | with name or number empty nothing changes; otherwise exactly one player with the form's name, number and bats is appended, the form resets to ('', '', R) and the dialog closes; outings are unchanged |
| LiveOuting.RecordedAtBatFacts | src/pages/LiveOuting.tsx:84-98 | the recorded at-bat has at least one pitch, keeps the tapped locations, has a spray point iff one was marked and the result is in play, and that point carries the at-bat's result, the marked position and hit type and the current velocity and barrel inputs |
| LiveOuting.LiveOutingPage.constructor | src/pages/LiveOuting.tsx:41-49 | no pitches, no locations, no batted ball, empty velocity, no barrel, line drive |
| LiveOuting.LiveOutingPage.HandleLocationClick | src/pages/LiveOuting.tsx:59-71 | one location marked 'ball' is appended and the pitch count rises by one, keeping the count equal to the number of locations |
| LiveOuting.LiveOutingPage.HandleSprayClick | src/pages/LiveOuting.tsx:73-82 | the pending batted ball is set at the tap with the current hit type, velocity and barrel flag |
| LiveOuting.LiveOutingPage.SetHitType | src/pages/LiveOuting.tsx:174 | only the selected hit type changes |
| LiveOuting.LiveOutingPage.SetExitVelo | src/pages/LiveOuting.tsx:207 | only the exit-velocity input changes |
| LiveOuting.LiveOutingPage.ToggleBarrel | src/pages/LiveOuting.tsx:213 | only the barrel flag flips |
| LiveOuting.LiveOutingPage.HandleResult | src/pages/LiveOuting.tsx:84-112 | the recorded at-bat is appended to the stored outing's at-bats (every other field and outing unchanged, players untouched), then the at-bat, batted ball, velocity and barrel flag reset while the hit type stays |
| LiveOuting.LiveOutingPage.ResetAtBat | src/pages/LiveOuting.tsx:107-111 | a fresh at-bat with no pitches or locations, no batted ball, an empty velocity and no barrel; the hit type is kept |
| LiveOuting.LiveOutingPage.HandleEndOuting | src/pages/LiveOuting.tsx:114-117 | the stored outing changes only in `isComplete`, which becomes true |
| LogOuting.LoggedAtBatFacts | src/pages/LogOuting.tsx:70-89 | a logged at-bat has the first clock reading as its id, a nonzero pitch count equal to the entered one unless that is 0, no locations, a spray point iff in play and a position was chosen, and that point carries the second clock reading as its id, the at-bat's result and the draft's position, hit type, velocity and barrel flag |
| LogOuting.LogOutingPage.constructor | src/pages/LogOuting.tsx:37-55 | the local list starts as the stored outing's at-bats, or empty when the outing is missing; the draft starts empty |
| LogOuting.LogOutingPage.HandleSprayClick | src/pages/LogOuting.tsx:66-68 | only the draft's batted-ball position changes |
| LogOuting.LogOutingPage.SelectResult | src/pages/LogOuting.tsx:155 | only the draft's result changes |
| LogOuting.LogOutingPage.SetPitchCount | src/pages/LogOuting.tsx:203 | only the draft's pitch count changes |
| LogOuting.LogOutingPage.SetHitType | src/pages/LogOuting.tsx:177 | only the draft's hit type changes |
| LogOuting.LogOutingPage.SetExitVelo | src/pages/LogOuting.tsx:229 | only the draft's exit-velocity input changes |
| LogOuting.LogOutingPage.ToggleBarrel | src/pages/LogOuting.tsx:235 | only the draft's barrel flag flips |
| LogOuting.LogOutingPage.HandleAddAB | src/pages/LogOuting.tsx:70-100 | without a result nothing changes; otherwise the logged at-bat is appended, the draft resets completely, and the spray-point preview gains exactly that at-bat's point, if any |
| LogOuting.LogOutingPage.HandleSave | src/pages/LogOuting.tsx:102-105 | the stored outing takes the local at-bats and becomes complete, every other field and outing unchanged, players untouched |

## Left out

- IEEE-754 arithmetic: numbers are exact reals, so rounding, `NaN` and `Infinity` do not arise; with them gone, the `return 50` fallback of `interpolateScore` is provably dead (`Benchmarks.FallbackUnreachable`).
- Benchmarks.InterpolateScore: requires a non-empty table strictly ascending in metric value, for convenience of the proofs. The source asks only for a sorted table, and on a sorted table it never divides by zero: the value lies strictly between the end breakpoints and the first segment containing it has distinct ends. All eight real tables are strictly ascending (`Benchmarks.TableShape`), and the function is used only with them. On an empty table the source throws when reading the first breakpoint; the model excludes that case.
- HittingTypes.Player: `position` is declared a required string in the player type, but the add-player form builds players without it, so the model makes it optional (`Option<string>`) to admit the records the app actually stores.
- ReportCard.WeightedAvg: requires a non-zero total weight, the only case the source uses (weights 0.30/0.35/0.35); a zero total would divide by zero.
- Display strings: the `toFixed`/`padStart` texts of metric values are a symbolic `Display` tag naming the format, not the string itself; the same goes for the plate-discipline value text and the chart formats.
- `gradeBgClass` and `getZoneColor`: CSS class and HSL colour strings; only the white/dark label choice of `getTextColor` is modelled.
- Rendering: canvas drawing, the pointer-to-canvas `getPos` geometry, spray-chart and location-chart click geometry. Positions arrive already normalised.
- Clock ids and text parsing: `Date.now().toString()` is a `now` parameter, and `Number(...)` on the exit-velocity and pitch-count fields is done by the caller (`None` stands for an empty velocity field; the pitch count is taken as an integer).
- `toLowerCase` in the roster search is a function parameter; Unicode case folding is not modelled.
- `plateDiscipline` and `outingTrends`, which produce the plate-discipline stats and the trend points, are not part of this model; their outputs are taken as given records.
- Navigation after saving or ending an outing, toasts, dialogs other than the add-player one, the `showExitVelo` toggle (it only shows or hides an input), and the page's "Outing not found" branch: the recorder handlers are only reachable when the outing exists, which they take as a precondition.
- The demo players and outings that seed the store are data, not logic; the store's constructor takes its initial lists.
- Remote storage (`useOutings`, `usePlayers`, `useVideoStorage`), auth screens and video recording are I/O.
- The AB/hit/AVG/barrel/exit-velocity formulas repeated inline in `PlayerDetail.tsx`, `Stats.tsx`, `Index.tsx`, `ParentDashboard.tsx` and `OutingCard.tsx` are the same formulas as the modelled OutingDetail, Roster and stats code, and their date sorts parse dates; they are not modelled again.
- React batching: each handler is modelled as one atomic update of the page and the store, as React applies it before the next event.
