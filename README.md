# Task prioritisation engine — a verified model

This project models the scoring engine of a small task-prioritisation service. A batch of
loosely typed task records (id, title, due date, estimated hours, importance 1–10, dependency
ids) goes through five steps:

1. Each record is coerced into a normalized task, and every unusable field produces a warning.
2. A dependency graph is built over the batch. Cycles are found by depth-first search, and the
   tasks that depend on each task are counted, directly or transitively.
3. Each task gets four signals in [0, 1]: urgency from working days left (weekends and six fixed
   national holidays are skipped), importance, quick win from hours, and blocker from the
   downstream count.
4. The signals are mixed with the weights of one of four strategies. A task on a cycle loses
   15% of its score, and the result is scaled to 0–100.
5. The entries are ranked by score, then by earlier due date, then by higher importance.

Modules, one per file:

- `Wrappers` holds `Option`.
- `Seqs` holds a generic index-wise map over a prefix of a sequence.
- `Text` covers Python's `strip`, `lower` and `str(int)`.
- `Strategy` holds the weight table and name resolution.
- `Calendar` covers dates as day ordinals, working days and the holiday set.
- `Signals` holds the four signal functions.
- `Normalize` covers the field coercions and `normalize_tasks`.
- `Graph` covers `_build_graph`, the `CycleDetector` class (`detect_cycles`), `_cycle_nodes` and
  `_downstream_block_count`.
- `Scoring` covers `score_tasks` and the in-place ranking sort.

A date is a day ordinal, as Python's `date.toordinal()` gives it (0001-01-01 is day 1). The
weekday and the (month, day) are computed from it. `today` and `log1p` are parameters.

Behaviour of the code worth knowing:

- The code's depth-first search is recursive, not iterative with an explicit stack. Each cycle
  it reports repeats its first id at the end.
- The blocker signal is `min(1, count / 8)`, not the count divided by the batch maximum.
- The working-day count includes today and excludes the due date. A task due today has 0
  working days and urgency 1.0. So an overdue task and a task due today tie on score and are
  ordered by the due-date tie-break (`Scoring.OverduePairTiesOnScore`).
- With the smart_balance weights, a task of importance 2 that five tasks depend on scores below
  an otherwise equal task of importance 8 that nothing depends on
  (`Scoring.LowImportanceBlockerStillLoses`).
- An unknown strategy falls back silently to smart_balance weights. `strategy_used` is still the
  user's stripped, lower-cased key.
- Ties are broken by due date (a missing date counts as 9999-12-31) and then by importance, not
  by id.
- Dependencies on unknown ids are dropped without a warning.
- Duplicate ids are not rejected: in the id-keyed dict, the last task with an id wins.
- An absent `id` key is not warned about; the index + 1 is used. An id that is present but
  fails `int()`, `null` included, is replaced by index + 1 with a warning.
- A due date, hours or importance that is absent, `null`, `""` or `[]` becomes missing without a
  warning. Any other value that cannot be used is warned about, as is a dependency value that
  is not a list and each list element that fails `int()`.
- Hours that are zero or negative become missing, with a warning. Quick win then assumes 4 hours.
- The downstream count includes the task itself when the task lies on a cycle.
- The final score is not clamped. It lies in [0, 100] because the weights sum to exactly 1 and
  every signal lies in [0, 1].

## Model

| member | source | states |
|---|---|---|
| Text.StripIsTrimmedSlice | backend/tasks/scoring.py:96 | `strip()` returns a contiguous slice of the title with only white space cut from both ends, and no white space left at either edge |
| Text.LowerIdempotent | backend/tasks/scoring.py:290 | lower-casing the strategy key a second time changes nothing, and a key without capitals is left as it is |
| Text.IntToString | backend/tasks/scoring.py:96 | the rendered id in "Untitled Task {id}" is non-empty and starts with '-' exactly when the id is negative |
| Text.NatToStringRoundTrip | backend/tasks/scoring.py:96 | the decimal rendering of a non-negative id reads back as the same number |
| Strategy.Table | backend/tasks/scoring.py:15-20 | every strategy's four weights are positive and sum to exactly 1; the namesake weight is strictly the largest, and smart_balance orders urgency > importance > quickwin > blocker |
| Strategy.Lookup | backend/tasks/scoring.py:291 | a key is found exactly when it is one of the four table keys, and the name found carries that key |
| Strategy.StrategyKey | backend/tasks/scoring.py:290 | the key is the request, or smart_balance when the request is empty, stripped and lower-cased |
| Strategy.StrategyKeyIsLowerCase | backend/tasks/scoring.py:290 | the reported key holds no upper-case ASCII letter |
| Strategy.Resolve | backend/tasks/scoring.py:290-291 | the weights used always sum to 1, whatever the request |
| Strategy.ResolveFallsBackToSmartBalance | backend/tasks/scoring.py:290-291 | the reported key is the stripped, lower-cased request; a known key gets its own weights and any other key the smart_balance weights |
| Strategy.ResolveKnownKey | backend/tasks/scoring.py:290-291 | each table key resolves to its own weights and itself; the empty name resolves to smart_balance |
| Calendar.Weekday | backend/tasks/scoring.py:208 | the weekday of a date is one of 0..6 (Monday..Sunday) |
| Calendar.IsNonWorkingDay | backend/tasks/scoring.py:207-208 | a date is not a working day when it falls on Saturday or Sunday or on a fixed holiday (month, day) |
| Calendar.WeekHoldsAtMostFiveWorkingDays | backend/tasks/scoring.py:207-208 | any seven consecutive days contain a Saturday and a Sunday, so at most five of them are working days |
| Calendar.WeeksHoldAtMostFiveWorkingDaysEach | backend/tasks/scoring.py:207-221 | a window of k whole weeks holds at most 5k working days |
| Calendar.WorkingDaysUntil | backend/tasks/scoring.py:211-221 | the cursor loop returns -1 exactly when the due date is before today, and otherwise the number of working days from today (included) to the due date (excluded) |
| Calendar.WorkingDayCountIsSetSize | backend/tasks/scoring.py:215-221 | the count equals the size of the set of working days d with today <= d < due |
| Calendar.WorkingDayCountBounded | backend/tasks/scoring.py:215-221 | the count lies between 0 and the number of calendar days in the window, and is 0 when the due date is today |
| Calendar.NonWorkingDayLowersCount | backend/tasks/scoring.py:217-219 | a non-working day inside the window puts the count below the window's length |
| Calendar.WorkingDayCountMonotone | backend/tasks/scoring.py:215-221 | a later due date never has fewer working days before it |
| Calendar.WorkingDaysRange | backend/tasks/scoring.py:213-221 | the result is -1 exactly for an overdue date, and otherwise lies in 0..due-today |
| Calendar.HolidayScenario | backend/tasks/tests.py:9-48 | from 2025-10-01 to 2025-10-03 there is one working day (2 October is a holiday); from 2025-11-05 to 2025-11-07 there are two |
| Signals.UrgencyOfWorkingDays | backend/tasks/scoring.py:239-244 | urgency for a day count lies in (0, 1] and is 1 for a count of 0 or -1 |
| Signals.Urgency | backend/tasks/scoring.py:227-244 | urgency lies in (0, 1]; it is 0.25 without a due date and 1.0 for a date due today or earlier |
| Signals.UrgencyOfWorkingDaysNonIncreasing | backend/tasks/scoring.py:243-244 | more working days left never raise urgency, and strictly lower it |
| Signals.UrgencyNonIncreasingInDueDate | backend/tasks/scoring.py:227-244 | with today fixed, a later due date is never more urgent |
| Signals.HolidayRaisesUrgency | backend/tasks/tests.py:9-48 | the task whose window holds the 2 October holiday is strictly more urgent than the one in an ordinary week |
| Signals.Importance | backend/tasks/scoring.py:247-250 | a missing importance gives 4/9; values 1..10 map into [0, 1], with 1 exactly to 0 and 10 exactly to 1 |
| Signals.ImportanceStrictlyIncreasing | backend/tasks/scoring.py:247-250 | a higher importance gives a strictly higher signal |
| Signals.Clamp01 | backend/tasks/scoring.py:266 | the clamp lies in [0, 1] and leaves values already in [0, 1] unchanged |
| Signals.QuickWin | backend/tasks/scoring.py:253-266 | quick win always lies in [0, 1], and is 0.6 when the maximum is not positive |
| Signals.QuickWinDefaultsToFourHours | backend/tasks/scoring.py:260-261 | a missing estimate scores exactly like 4 hours |
| Signals.QuickWinNonIncreasing | backend/tasks/scoring.py:264-266 | with an increasing logarithm, more hours never give a higher quick win |
| Signals.BlockerScore | backend/tasks/scoring.py:269-275 | the blocker signal lies in [0, 1] |
| Signals.BlockerScoreMonotone | backend/tasks/scoring.py:269-275 | the blocker signal is 0 for no dependents, non-decreasing, strictly increasing up to 8 and 1 from 8 on |
| Normalize.ParseDate | backend/tasks/scoring.py:48-58 | a date results exactly when a supplied value parsed as one, and it is that date |
| Normalize.ParseFloat | backend/tasks/scoring.py:61-68 | a number results exactly when the value converts to one above 0, and it is that number |
| Normalize.ClampInt | backend/tasks/scoring.py:71-78 | a value results exactly when the conversion succeeds; it lies in [lo, hi], equal to the input when the input is in range and to the nearer bound otherwise |
| Normalize.ParseDeps | backend/tasks/scoring.py:121-125 | every element either converts into a dependency or adds one warning; the ids kept are exactly those that converted, and every warning names the task |
| Normalize.ParseDepsCounts | backend/tasks/scoring.py:121-125 | each id is kept exactly as often as elements converted to it, and there are exactly as many warnings as elements that failed |
| Normalize.ParseDepsAppend | backend/tasks/scoring.py:121-125 | the elements are handled in order: the ids and warnings of a concatenation are those of the first part followed by those of the second |
| Normalize.ParseDepsSingle | backend/tasks/scoring.py:122-125 | a single converted element gives that id and no warning; a single failed one gives no id and one warning |
| Normalize.TasksUpToAt | backend/tasks/scoring.py:86-136 | task i of those built from the first n records is the normalization of record i, at index i |
| Normalize.CollectDependencies | backend/tasks/scoring.py:116-125 | the dependency loop yields the converted ids and warnings that `Dependencies` specifies, for a list, a non-list and a missing value |
| Normalize.NormalizeTask | backend/tasks/scoring.py:86-136 | the task built from a record carries the record's id (or index + 1), a non-empty title, an importance in 1..10 if any, positive hours if any, and no more dependencies than the list had |
| Normalize.RecordId | backend/tasks/scoring.py:88-93 | the id step yields the record's converted id or index + 1, with a warning only when conversion failed |
| Normalize.RecordTitle | backend/tasks/scoring.py:96 | the title step yields the stripped title, or "Untitled Task {id}" when that is blank |
| Normalize.NormalizeRecord | backend/tasks/scoring.py:87-136 | the loop body builds the normalized task and the warnings, in the order the source appends them |
| Normalize.NormalizeTasks | backend/tasks/scoring.py:81-138 | one task per record, in record order, each the record's normalization, and the warnings of all records in order |
| Normalize.NormalizedFieldsInRange | backend/tasks/scoring.py:81-138 | every task of a normalized batch has an importance in 1..10, if any, and hours above 0, if any |
| Normalize.IdFallback | backend/tasks/scoring.py:88-93 | an id that is absent or fails to convert becomes index + 1, and only the failure is warned about; an id that converts is kept |
| Normalize.InvalidFieldWarns | backend/tasks/scoring.py:98-113 | due date, hours and importance are each warned about exactly when supplied but unusable |
| Normalize.BlankTitle | backend/tasks/scoring.py:96 | a blank title becomes "Untitled Task {id}", any other title is stripped, and the title never causes a warning |
| Normalize.DependenciesCoerced | backend/tasks/scoring.py:116-125 | dependencies that are not a list become [] with a warning; a list keeps each converted id as often as it occurs, and no other id |
| Normalize.GarbageRecordScenario | backend/tasks/tests.py:75-104 | the garbage record becomes task 100 with no date, hours, importance or dependencies, and the due-date warning comes first |
| Graph.ById | backend/tasks/scoring.py:145 | the id-keyed dict has exactly the batch's ids as keys, and each maps to a batch task with that id |
| Graph.ByIdKeepsLast | backend/tasks/scoring.py:145 | among tasks sharing an id, the last one is kept |
| Graph.Ids | backend/tasks/scoring.py:145 | the dict's key order lists each id of the batch once |
| Graph.Forward | backend/tasks/scoring.py:148 | forward edges are keyed by exactly the batch's ids |
| Graph.KnownDeps | backend/tasks/scoring.py:148 | the filtered list is no longer than the dependency list and holds exactly the dependency ids that are batch ids |
| Graph.KnownDepsCount | backend/tasks/scoring.py:148 | filtering keeps every occurrence of a known dependency id and none of an unknown one |
| Graph.AppendReverseEdges | backend/tasks/scoring.py:153-154 | one pass of the inner loop appends the task id to `reverse[d]` once per occurrence of d, and changes no key |
| Graph.ReverseEdges | backend/tasks/scoring.py:150-154 | the reverse map has a key for every batch id, and each list is the one the loop over forward in dict order specifies |
| Graph.BuildGraph | backend/tasks/scoring.py:144-156 | the returned id dict and forward map are the specified ones, and each reverse list is the one specified by the loop over forward in dict order |
| Graph.ReverseListCount | backend/tasks/scoring.py:151-154 | a task appears in `reverse[d]` exactly as often as d appears among its forward edges |
| Graph.BuildGraphEdges | backend/tasks/scoring.py:144-156 | `forward[t]` keeps each known dependency as often as it occurs and drops unknown ones; t occurs in `reverse[d]` exactly as often as d occurs in `forward[t]`; only known ids appear in either |
| Graph.IndexOf | backend/tasks/scoring.py:174 | `stack.index(v)` is the first position holding v |
| Graph.CycleDetector.constructor | backend/tasks/scoring.py:161-163 | the search starts with an empty state map, stack and cycle list |
| Graph.CycleDetector.Dfs | backend/tasks/scoring.py:165-177 | `dfs(u)` ends with u visited and the stack as it was; earlier marks are kept, new marks are all visited, and cycles are only appended, each a closed walk |
| Graph.CycleDetector.VisitDependencies | backend/tasks/scoring.py:167-175 | the loop over u's dependencies keeps the search invariant and the stack, only adds visited marks, and only appends cycles |
| Graph.CycleDetector.VisitDependency | backend/tasks/scoring.py:168-175 | one dependency edge: an unknown or already visited id changes neither marks nor cycles; an unvisited id ends visited; an id being visited and on the path appends exactly the path from it plus the id again, and marks stay as they were |
| Graph.BackEdgeCloses | backend/tasks/scoring.py:173-175 | the slice of the path from v, followed by v, is a closed walk along dependency edges |
| Graph.CycleDetector.Run | backend/tasks/scoring.py:179-181 | after the outer loop every task is visited, the stack is empty, and every reported cycle is a closed walk |
| Graph.DetectCycles | backend/tasks/scoring.py:159-183 | every reported cycle starts and ends at the same id and follows dependency edges between known tasks, so an acyclic graph yields no cycle |
| Graph.CycleNodes | backend/tasks/scoring.py:186-191 | the set holds exactly the ids occurring in some cycle |
| Graph.Successors | backend/tasks/scoring.py:197 | `reverse.get(u, [])`: the id's reverse list when it is a key, and no dependents otherwise |
| Graph.DownstreamBlockCount | backend/tasks/scoring.py:194-204 | the worklist count equals the number of distinct ids reachable from the task by one or more reverse edges |
| Graph.WalkStep | backend/tasks/scoring.py:199-203 | popping a seen id drops it; popping a new id marks it seen and pushes its dependents; either way everything seen or pending is downstream and nothing downstream is missed |
| Graph.WalkEnds | backend/tasks/scoring.py:198-204 | when the worklist is empty, the seen set is exactly the set of downstream tasks |
| Graph.ClosedSetHoldsReachable | backend/tasks/scoring.py:198-203 | a set that holds the direct dependents and is closed under reverse edges holds everything reachable |
| Graph.NoDependentsBlockNothing | backend/tasks/scoring.py:197-198 | the downstream set is empty exactly when the task has no direct dependents |
| Graph.DownstreamIncludesDependents | backend/tasks/scoring.py:194-204 | a direct dependent is counted, along with everything downstream of it |
| Graph.CycleCountsStart | backend/tasks/scoring.py:194-204 | a task on a cycle of dependents counts itself |
| Graph.DownstreamWithinTasks | backend/tasks/scoring.py:151-154 | on the graph of a batch, downstream tasks are batch tasks, so the count is at most the number of distinct ids |
| Scoring.ResolvedWeighting | backend/tasks/scoring.py:290-291 | whatever strategy is requested, the weights used are non-negative and sum to 1, with positive urgency and blocker weights |
| Scoring.MaxHours | backend/tasks/scoring.py:298 | the maximum is at least 1, at least every task's hours, and either 1 or some task's hours |
| Scoring.BaseInUnit | backend/tasks/scoring.py:310-315 | a weighting of signals in [0, 1] lies in [0, 1] |
| Scoring.ScoreTask | backend/tasks/scoring.py:302-340 | an entry carries the task's id, title, due date, hours and dependencies, its importance or 5, its downstream count, the strategy key and a penalty of 15% or 0 |
| Scoring.ScoreTaskBounds | backend/tasks/scoring.py:310-332 | the score is 100 times the weighted signals off a cycle and 85 times them on one; the weighted signals lie in [0, 1], so the score lies in [0, 100] |
| Scoring.CyclePenaltyCosts15Percent | backend/tasks/scoring.py:319-320 | being on a cycle multiplies the score by exactly 0.85 |
| Scoring.BaseStrictInUrgency | backend/tasks/scoring.py:310-315 | a higher urgency raises the weighted sum when its weight is positive |
| Scoring.BaseStrictInBlocker | backend/tasks/scoring.py:310-315 | a higher blocker signal raises the weighted sum when its weight is positive |
| Scoring.ScoreFollowsBase | backend/tasks/scoring.py:320 | a higher weighted sum gives a strictly higher score, with or without the penalty |
| Scoring.MoreDependentsScoreHigher | backend/tasks/scoring.py:307-320 | with everything else equal, more dependents (up to 8) give a strictly higher score |
| Scoring.MoreUrgentScoresHigher | backend/tasks/scoring.py:303-320 | with everything else equal, higher urgency gives a strictly higher score |
| Scoring.HolidayTaskOutscores | backend/tasks/tests.py:9-48 | under any strategy, the task whose window holds the holiday outscores the ordinary-week task |
| Scoring.BottleneckOutscores | backend/tasks/tests.py:50-73 | under any strategy, a task two others depend on outscores an otherwise equal task nothing depends on |
| Scoring.OverduePairTiesOnScore | backend/tasks/scoring.py:239-244 | an overdue task and a task due today, otherwise equal, both have urgency 1 and equal scores; the overdue one strictly ranks first |
| Scoring.LowImportanceBlockerStillLoses | backend/tasks/scoring.py:269-275 | under smart_balance, importance 2 with five dependents scores below importance 8 with none |
| Scoring.DueKey | backend/tasks/scoring.py:344 | the due-date key is the due date, or 9999-12-31 when there is none |
| Scoring.UndatedSortsAfterDated | backend/tasks/scoring.py:343-347 | with equal scores, an entry without a due date ranks after any entry dated before 9999-12-31 |
| Scoring.ImportanceKey | backend/tasks/scoring.py:345 | the importance sort key `importance or 5` is never 0: it is the importance itself, or 5 when the importance is 0 |
| Scoring.RanksBefore | backend/tasks/scoring.py:343-345 | a may precede b: higher score, or equal score and earlier due date (missing last), or both equal and an importance key at least as high |
| Scoring.ZeroImportanceSortsAsDefault | backend/tasks/scoring.py:345 | with score and due date equal, importance 0 sorts like 5: ahead of importance 3, behind importance 7 |
| Scoring.RanksBeforeTotal | backend/tasks/scoring.py:343-345 | any two entries are comparable under the sort key |
| Scoring.RanksBeforeTransitive | backend/tasks/scoring.py:343-345 | the sort-key order is transitive |
| Scoring.SwapLeft | backend/tasks/scoring.py:347 | swapping an entry with an out-of-order left neighbour keeps the insertion invariant, one position to the left |
| Scoring.GapClosed | backend/tasks/scoring.py:347 | once the moving entry ranks after its left neighbour, the prefix is ranked |
| Scoring.InsertInto | backend/tasks/scoring.py:347 | one insertion step ranks one more prefix entry, permutes the array and leaves the rest alone |
| Scoring.SortedCopy | backend/tasks/scoring.py:347 | `scored.sort(...)` returns the same entries, as many as before, ranked by the sort key |
| Scoring.SortByRank | backend/tasks/scoring.py:343-347 | the sort leaves the array ranked by (score descending, due date ascending with missing last, importance key `importance or 5` descending) and a permutation of what it was |
| Scoring.EntriesAt | backend/tasks/scoring.py:302-340 | there is one entry per task, and entry k is the one scored from task k |
| Scoring.ScoreEach | backend/tasks/scoring.py:302-340 | the scoring loop builds each task's entry, in input order, from the worklist counts and the cycle-node set |
| Scoring.ScoreTasks | backend/tasks/scoring.py:281-353 | the result is a ranked permutation of the batch's entries; the cycles are closed walks (none for an acyclic batch); the strategy used is the normalized request |
| Scoring.EntryScoreInRange | backend/tasks/scoring.py:302-332 | a task whose importance is in 1..10 scores within [0, 100] |
| Scoring.EntriesScoreInRange | backend/tasks/scoring.py:302-332 | for a batch whose importances are in 1..10, every entry scores within [0, 100] |

## Left out

- The FastAPI layer, the pydantic models and the JSON query parsing are HTTP plumbing. So are `_reason_for_task` and `DEFAULT_SUGGEST_LIMIT`, which only the top-3 endpoint uses. None of them is part of this model. backend/tasks/views.py (Django handlers and a process-wide cache) is not part of this model either.
- `math.log1p` is a parameter. `ScoreTasks` assumes only that it is positive from 1 on.
- Floating point is left out: all arithmetic is on exact reals, so the weights sum to exactly 1. NaN and infinite hours are not modelled.
- `date.today()` is left out: `today` is a parameter.
- Python's `int()`, `float()`, `str()` and `date.fromisoformat()` on arbitrary JSON values are left out. The caller supplies their outcome: an `Option` for each converted field, and the title already as a string.
- Warnings are a datatype naming the kind, task id and index, not formatted strings.
- Scoring.ScoreTasks: it leaves out `round(final * 100, 2)` and the rounding inside the explanation string. The score is kept unrounded and the sort compares unrounded scores. So two scores that are equal to two decimals but differ beyond are ordered by score here and by due date in the source.
- Scoring.ScoreTasks: it does not state stability. Python's sort is stable, and so is the insertion sort here, but the contract proves only ranked order and a permutation.
- Scoring.ScoreTask: its explanation is a record of the exact signal values, not the rendered percentage string.
- Scoring.ScoreTasks: its score bound (`Scoring.EntriesScoreInRange`) assumes importances in 1..10, which is what `normalize_tasks` produces. Any other importance could push a score outside [0, 100], and the source has no clamp.
- Graph.DetectCycles: it proves soundness only. Every reported cycle is real, so an acyclic graph yields none. It does not prove that a graph with a cycle reports at least one.
- Graph.CycleDetector.Dfs: Python's recursion limit on very deep dependency chains is not modelled.
- Text.Lower: it lower-cases ASCII letters only. Python's `lower()` also folds non-ASCII letters, and no table key contains one, so the table lookup is unaffected.
- Calendar: `Civil` and `Ordinal` are not proved inverse for all dates. They are checked only on the dates the scenarios use. Dates past 9999-12-31, which Python cannot represent, are not excluded. For dates up to that year, comparing ISO strings, as the source's sort does, agrees with comparing ordinals.
