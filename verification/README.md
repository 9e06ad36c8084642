# streakd: a verified model

This project models the streak engine of streakd in Dafny 4.11 and proves what its documentation promises:
that the stored state is a pure function of the ledger, and that the closed-form read, the deadline, the
scheduler, zone changes, repairs, history edits and concurrent requests agree with it. Where the code does not keep
a promise in every case, it proves in which cases it does, and shows one in which it does not.

`dafny verify dfyconfig.toml` checks everything.

## How the model is laid out

- `Calendar`, `Configs`, `Periods`, `Boundaries`: dates, configurations, period keys and boundaries. A date is
  its day number, counted from Go's zero `Date{}`; `Calendar` counts months by their Gregorian lengths and proves
  that day numbers and proleptic Gregorian dates are in bijection, so `Before` is `<`, `later` is the maximum and
  the zero date is 0. Weeks start on Monday (ISO 8601:2004, section 4.1.4). An instant is a number of nanoseconds, a
  zone any function from UTC seconds to offsets, and a wall-clock time is turned into an instant by Go's own
  two-lookup rule.
- `Transition`, `Derive`, `Replay`: the state machine, the read and the oracle. `Settled`, `Earned`, `DerivedAt`
  and `Replayed` say what is computed for the key of the current period; the methods `Settle`, `Apply`,
  `Derive`, `LossAt` and `Replay` are the source's loops and are proved equal to them.
- `Downtime`, `ClosedForm`, `Prophecy`, `Grace`: theorems about one streak state. `Records` says what single calls
  accept, store and reply.
- `Rows`, `Sessions`, `Store`, `Engine`: what each engine operation does to the rows of a streak, as functions
  and, in the class `Streak` (the rows, updated in place) and the class `Engine` (a subject's zone, its streaks
  and the idempotency table), as methods proved against those functions. `Sessions.Run` is any sequence of calls.
  A scheduler pass is two kinds of call, a settling and a reminding one, each with the state and zone its unlocked
  query has seen; whatever runs between the query and the lock runs before it.
- `Moves`: ordinary calls broken into six elementary moves, so that an invariant of moves is one of runs.
- `Oracle`, `Travel`, `Conservation`, `Freezes`, `Resolution`, `Scheduler`, `Interference`, `Reminders`, `Repairs`,
  `History`, `Concurrency`: theorems about runs. `Scenarios` and `InterferenceRuns` hold the concrete runs used as
  counterexamples.

## Hypotheses

- Configurations pass `Validate`. Stored pointers are none or period keys, counts and inventories are not
  negative (`Sound`, `Valid`); `Sessions.RunValid` proves that every run keeps this.
- Clocks read year 0 or later (`Clocked`, `Current`): before 30 November of year -1 Go's zero date would no
  longer be the earliest.
- The oracle theorem assumes that the zone keys every period's noon back to the period (`Recovering`).
  `Boundaries.RepresentativeExact` says exactly when that is so, and every zone whose offsets vary by less than
  12 hours qualifies (`Oracle.OracleInNarrowZone`). It also assumes that no record, unrecord, recount or history
  replacement comes in a period before that of the last call that changed the state or the ledger, that dates given
  to `ReplaceHistory` are period keys up to the current one, and that late records are in replay order;
  `Oracle.GraceKeepsOracleIff` shows that the last condition is exact.
- A scheduler step may have seen an outdated state and zone and read its clock long ago. The theorems that compare
  periods allow that: such a step either finds its period settled and does nothing, or counts as a call of the period
  it settles to. Two exclude a case each: `Oracle.OracleCall` a step that has read an earlier period and was on its
  way when the streak was reset, `Scheduler.Droppable` one that settles past the subject's own period.
- The theorems on the deadline (`Prophecy`, `Reminders.ReminderInTime`) assume a fixed zone, where keys and boundaries
  fit together (`Boundaries.BoundaryAdjoint`).
- A late record is one that the boundary-race branch of `Record` serves. The lemmas about its stored state and its
  reply take the ended period to be the one before the current one, which holds in every zone whose offsets vary by
  less than 12 hours (`Boundaries.HalfDayIsAdjacent`).

## What turned out different from the source's own words

- The grace branch of `Record` says that it follows the order a ledger replay would use
  (internal/engine/record.go:88-91). It does exactly when nothing is left to resolve before the period, in events
  (`Grace.GraceAgreesIff`) as in the stored state (`Grace.GraceStateIff`); otherwise the streak leaves the oracle
  (`Oracle.GraceKeepsOracleIff`). `Oracle.GraceSkipsAMiss` is a run that keeps a freeze a replay spends.
- The scheduler's comment says that no read depends on it (internal/engine/scheduler.go:18-20), and the design that
  its downtime changes none (docs/DESIGN.md:412). That is so for a pass that does not settle past the subject's
  current period. Otherwise a pass can change reads by itself, and in any case what a later call does; `Scheduler` and
  `Interference` say exactly when, and `InterferenceRuns` shows runs.
  - Reads: a pass whose query ran before a move west settles in the old zone, where the day may already be over. It
    leaves a read as it was if and only if it resolves no more than a settle of the read's own period would
    (`TickKeepsReadsIff`, `TickOutrunsZone`). Such a pass can even break a streak that a zone change, by its own
    comment (internal/engine/admin.go:16-20), can never break.
  - Late records: it closes the grace window of a period it settles past, or charges a miss that the late record
    would have skipped (`LateRecordAfterTickIff`, `TickClosesGrace`).
  - Repairs: it starts the clock of the repair window (`RepairAfterTickIff`, `TickStartsRepairWindow`).
  - Recount, Unrecord and ReplaceHistory: they store what a pass would have announced without announcing it, so a
    repair after them finds a break only if a pass came before (`RewriteAfterTickIff`, `TickAnnouncesBreak`).
  - SetFreezes: it charges misses before the grant instead of after it (`GrantAfterTickIff`).
  - ShiftHistory: it charges misses by the schedule as it was before the shift (`ShiftAfterTickIff`,
    `TickBeforeShift`).

  A run in which the passes and these calls meet the guards of `Scheduler.Droppable` is indifferent to its passes, from
  the period of its last call on (`Scheduler.TicksMayBeDropped`).
- In a fixed zone `LossAt` is exact exactly when the settle pointer has not passed the next active period
  (`Prophecy.LossAtExactIff`); after westward travel it can be early, never late (`Prophecy.LossAtNeverLate`).
- A repaired chain is said to be alive at once (internal/engine/admin.go:132). It is if and only if the streak has
  ever earned anything (`Repairs.RepairRevives`): a reset followed by a repair stores a count that no read shows
  (`Repairs.RepairAfterReset`), so the read count equals the settled one exactly on grounded states
  (`ClosedForm.DeriveMatchesSettle`).
- A late record out of replay order leaves the period it skips unresolved for good
  (`Resolution.LateRecordKeepsOrderIff`).
- After westward travel a period that has been resolved can be earned again, exactly when it lies up to the settle
  pointer of a live chain or up to the break of a lost one (`Resolution.TravelResolvesTwiceIff`,
  `Resolution.TravelResolvesTwice`). For the same reason a reminder can be sent for a day that can no longer be
  earned (`Reminders.ReminderInTime`).
- Reminders go out once a day until `ReplaceHistory` or `ShiftHistory` drops the claims (`Reminders.ReminderOnce`).
- `ShiftHistory` is time travel exactly for schedules that repeat after the shift (`History.TimeTravelIff`).
- `docs/DESIGN.md` lets `Unrecord` name a period; the code, and the model, remove the current one.

## Model

| member | source | states |
|---|---|---|
| Calendar.CivilRoundTrip | internal/core/date.go:45-54 | every day number is a valid Gregorian date that converts back to it |
| Calendar.DayNumberRoundTrip | internal/core/date.go:45-54 | every valid Gregorian date survives conversion to its day number and back |
| Calendar.DayNumberOrder | internal/core/date.go:56-62 | comparing midnights is comparing year, month and day in turn |
| Calendar.ZeroDate | internal/core/date.go:11-17 | the zero Date is normalised to 30 November of year -1, before every date in use |
| Calendar.GregorianYear | internal/core/date.go:45-49 | a year has 366 days if it is a leap year by the 4, 100 and 400 rules and 365 otherwise |
| Calendar.FirstMonday | internal/core/date.go:64-73 | the weekday numbering is anchored at a Monday |
| Calendar.AddMonthsFromFirst | internal/core/period.go:36-38 | AddDate by months takes a first of the month to the first of the month that many months on |
| Configs.Validate | internal/core/config.go:72-126 | the checks and the milestone loop accept exactly the configurations the engine relies on, within the limits of 12 hours, 100 freezes and a day, and name a fault that is there |
| Periods.KeyContains | internal/core/period.go:13-26 | a day's key is a period key, and the day lies from it up to the next calendar period |
| Periods.KeyIsFirstDay | internal/core/period.go:13-26 | a day's key is the day itself, the Monday of its ISO week or the first of its month |
| Periods.CalendarSteps | internal/core/transition.go:61-73 | calendar neighbours are keys, inverse to each other, at most 31 days away |
| Periods.NoKeyBetween | internal/core/transition.go:61-73 | no period key lies strictly between calendar neighbours |
| Periods.SomeDayScheduled | internal/core/config.go:83-93 | a mask that passes Validate has an active day in every seven |
| Periods.NextIsLeast | internal/core/period.go:51-66 | NextScheduled is the least active period after p, within seven days for day streaks |
| Periods.NextScheduled | internal/core/period.go:52-66 | the unbounded day loop terminates and returns that period |
| Periods.ActiveBetweenExact | internal/core/period.go:68-84 | stepping visits every active period strictly between two dates once, in order |
| Periods.MissedBetween | internal/core/period.go:72-84 | the loop returns the number of those periods, cut off at the limit |
| Periods.ActiveBetweenSplit | internal/core/transition.go:44-57 | the periods up to `end` are those up to `mid` and then those after the pointer that settling to `mid` leaves |
| Boundaries.BoundaryMeaning | internal/core/period.go:13-16 | with a positive offset the hours after midnight count for the day before, with a negative one the last hours for the day after |
| Boundaries.WallClock | internal/core/period.go:13-16 | the wall clock is UTC plus the zone's offset in force |
| Boundaries.WallTimeResolved | internal/core/period.go:28-49 | on either side of a change of offset a wall-clock time that is neither skipped nor repeated is resolved to the instant at which the clock shows it |
| Boundaries.BoundaryAdjoint | internal/core/period.go:13-43 | in a fixed zone PeriodKey(t) > p iff t >= PeriodEnd(p), for days, weeks and months and any boundary offset |
| Boundaries.PeriodIsInterval | internal/core/period.go:13-43 | a period is exactly the instants from its predecessor's end to its own |
| Boundaries.HalfDayIsAdjacent | internal/core/period.go:13-26 | in zones whose offsets vary by less than 12 hours, half a day crosses one period boundary at most |
| Boundaries.RepresentativeExact | internal/core/period.go:45-49 | in any zone the representative keys back to p iff the wall-clock resolution error stays inside p |
| Boundaries.RepresentativeInNarrowZone | internal/core/period.go:45-49 | so it does in every zone whose offsets vary by less than 12 hours |
| Boundaries.RepresentativeLostOnSkippedDay | internal/core/period.go:45-49 | in a zone that skips a civil day it does not |
| Transition.Settle | internal/core/transition.go:28-59 | the loop charges the pending active periods in order and advances the pointer |
| Transition.Apply | internal/core/transition.go:75-121 | the steps compute the earned state and its events, and report whether anything was earned |
| Transition.Milestones | internal/core/transition.go:112-116 | the loop emits the milestone events of the list |
| Transition.EarnedEvents | internal/core/transition.go:85-95 | earning emits one extended event, first, and all its events carry the new count and the period |
| Transition.SettleTwice | internal/core/transition.go:28-31 | settling to j and then to k is settling to k: same state, events concatenated |
| Downtime.DowntimeInvisible | internal/core/transition.go:28-59 | settling at instants whose keys do not go back is settling once at the last |
| Downtime.DowntimeInvisibleInFixedZone | internal/engine/scheduler.go:18-20 | the same for a clock that does not go back in a fixed zone |
| Downtime.SettleBack | internal/core/transition.go:57-58 | settling at an earlier period than before changes nothing once something was earned |
| Downtime.AnyOrderIsLatest | internal/core/transition.go:28-59 | settling at instants in any order is settling once at the latest period among them |
| ClosedForm.ChargeClosed | internal/core/transition.go:44-56 | the loop in closed form: which periods are charged, what is left, and where the chain breaks |
| ClosedForm.DeriveLiveness | internal/core/state.go:50-95 | alive, frozen or broken by the misses and the inventory, a deadline exactly while not broken, the current period and whether it is the last earned one |
| ClosedForm.DeriveMatchesSettle | internal/core/state.go:48-95 | every number Derive reads is what Settle stores; pending spend and brokenness are counts of its events, charged to the first pending periods; the count agrees exactly on grounded states |
| ClosedForm.DeriveAfterSettle | internal/core/state.go:48-50 | reading after settling changes only Frozen to Alive and the pending spend |
| Derive.Derive | internal/core/state.go:50-95 | the case split fills the view field by field as DerivedAt says |
| Derive.LossAt | internal/core/state.go:97-118 | the loop walks past the remaining freezes to the end of the loss period |
| Prophecy.FirstAtRiskIsNext | internal/core/state.go:102-109 | the three cases pick the next active period after the last earned and the last elapsed one |
| Prophecy.LossAtExactBehindPointer | internal/core/state.go:43-45 | in a fixed zone, with the pointer behind the current period, a live streak left alone is broken at t iff t >= LossAt |
| Prophecy.LossAtNeverLate | internal/core/state.go:97-101 | without the hypothesis on the pointer LossAt is never later than the loss |
| Prophecy.LossAtExactIff | internal/core/state.go:97-118 | in a fixed zone LossAt is exact iff the pointer has not passed the next active period |
| Prophecy.EarlyLoss | internal/core/state.go:97-101 | otherwise the streak is still alive at LossAt |
| Replay.Replay | internal/core/replay.go:9-19 | the loop over representatives replays the keys they fall into |
| Replay.RestDaysIgnored | internal/core/replay.go:12-16 | rest-day marks leave no trace in a replay |
| Replay.ReplayMeaning | internal/core/replay.go:5-19 | without freezes the count is the longest adjacent run that ends the ledger and reaches the current period, else 0, and Longest the longest run anywhere |
| Grace.GraceAgreesIff | internal/engine/record.go:88-113 | earning p and then settling gives the state and events of replay order iff nothing is left to resolve before p |
| Grace.GraceStateIff | internal/engine/record.go:88-113 | so they do in the stored state alone, for the period that has just ended |
| Records.RecordAcceptedIff | internal/engine/record.go:41-94 | a record is accepted iff it is at most a minute ahead and of the current period, or of an earlier one at most ten minutes ago that is neither settled nor followed by an earned one; a rejected one changes nothing |
| Records.RecordedAmounts | internal/engine/record.go:96-127 | an accepted record adds its amount, at least 1, to its own period only, and the reply shows the current period's amount |
| Records.RecordedShowsEarned | internal/engine/record.go:96-127 | the reply shows the current period as earned iff it was already, or the record itself earned it |
| Records.EarnedNotReminded | internal/engine/scheduler.go:209-211 | no reminder is sent for an earned period |
| Records.UnrecordedMarks | internal/engine/record.go:143-174 | Unrecord removes the whole mark of the current period, no other mark, and writes no event |
| Records.StepFrame | internal/engine/engine.go:160-175 | every call only appends to the outbox, the newest break is stamped with the database clock of the call that wrote it, and only records and rewrites touch the ledger |
| Rows.LedgerUnique | internal/store/store.go:287-307 | an ascending list of periods is determined by which periods are in it |
| Sessions.StepValid | internal/engine/engine.go:141-158 | every operation keeps the stored row valid and its configuration |
| Sessions.RunValid | internal/engine/engine.go:50-59 | and so does every run of operations |
| Oracle.OracleOverRuns | internal/core/replay.go:5-8 | after any run of records, scheduler steps, unrecords, recounts and history replacements from a new streak, its late records in replay order, settling the stored state at any later instant is replaying the ledger, in every field |
| Oracle.OracleInNarrowZone | internal/core/replay.go:5-8 | so it is in every zone whose offsets vary by less than 12 hours, with the ledger itself as the replayed periods |
| Oracle.GraceKeepsOracleIff | internal/engine/record.go:88-113 | a row that agrees with the oracle agrees after a late record iff that record earns nothing or finds nothing left to resolve before its period |
| Oracle.GraceSkipsAMiss | internal/engine/record.go:88-91 | a run of two records, the second inside the grace window, after which the streak holds a freeze that a replay of its ledger spends |
| Oracle.RecordThenUnrecord | internal/engine/record.go:143-174 | recording into a fresh period and unrecording it restores the ledger and the settled earlier state |
| Oracle.LedgerAfterMark | internal/store/store.go:208-223 | activity appends its period to the ledger exactly when its amount reaches the threshold for the first time |
| Oracle.AdvanceInReplayOrder | internal/engine/record.go:82-113 | every accepted record is settle, earn, settle in replay order when its grace branch has nothing to resolve |
| Oracle.ReplacedLedger | internal/engine/history.go:42-52 | an imported history earns exactly the given dates, and its claims are dropped |
| Oracle.ReplacedIsReplay | internal/engine/history.go:42-56 | its state is the replay of the given dates, sorted and each taken once |
| Oracle.EarnedThisPeriodIff | internal/core/state.go:50-56 | a row in step with its ledger shows the current period as earned iff it is active and its amount has reached the threshold |
| Oracle.EarnedShowsOverRuns | internal/core/state.go:50-56 | so does every row after a run in the oracle's regime |
| Moves.RunMoves | internal/engine/record.go:82-121 | every run of ordinary calls is a sequence of settling, earning, pulling, restoring, reminding and granting moves |
| Travel.Generosity | internal/engine/admin.go:16-20 | for any two zones and any streak the change keeps count, longest, inventory and progress, breaks nothing and leaves nothing pending |
| Travel.MoveForgivesOnlyShift | internal/engine/admin.go:50-58 | of what is pending after settling in the old zone the change forgives exactly the periods before the new zone's current one |
| Travel.MovedPointer | internal/engine/admin.go:50-58 | a streak that has earned nothing is left settled up to the later of the two current periods |
| Travel.EarnOnceChargeOnce | internal/core/transition.go:85-91 | over any run, in any zones, extended periods strictly ascend and so do charged ones |
| Conservation.ChainConservation | internal/engine/admin.go:115-131 | extended events = current count + lost counts of unrepaired breaks; Longest is the greatest count reached; every repair answers a break |
| Conservation.RepairedAtMostOnce | internal/engine/admin.go:157-175 | two repairs answer two different breaks |
| Conservation.EarnedAnnounces | internal/core/transition.go:97-119 | a freeze is granted iff one is due and there is room, the milestone and completion events iff the new count is one |
| Conservation.FreezeAccounting | internal/core/transition.go:97-110 | inventory = initial + earned - consumed, within [0, max]; N * earned + progress <= extended events, so spends are bounded by initial + extended / N |
| Freezes.EarningProgress | internal/core/transition.go:97-110 | earning moves the progress on by one up to N, and a granted freeze starts it anew |
| Freezes.ProgressIsSince | internal/core/transition.go:97-110 | over any run the progress is the number of periods earned since the last granted freeze or break, up to N |
| Freezes.FreezesInFull | internal/core/transition.go:97-110 | without breaks and with room at every earn, N * earned freezes + progress = extended events |
| Resolution.ResolvedExactlyOnce | internal/core/transition.go:44-57 | over runs of passes and records, the late ones in replay order, no active period is resolved twice, and an unbroken chain has earned or paid for every active period up to its frontier exactly once |
| Resolution.LateRecordKeepsOrderIff | internal/engine/record.go:88-113 | a late record keeps that order iff it earns nothing or finds nothing left to resolve before its period |
| Resolution.EarnAgainIff | internal/core/transition.go:79-95 | a period that can still be earned has been resolved already iff it lies up to the settle pointer of a live chain or up to the break of a lost one |
| Resolution.RecordResolvesTwiceIff | internal/engine/record.go:82-113 | a current-period record that earns its period resolves it for the second time iff it lies within that reach |
| Resolution.TravelResolvesTwiceIff | internal/engine/admin.go:50-58 | so it is after any steady run and a move to a zone whose current period is not later |
| Resolution.TravelResolvesTwice | internal/engine/admin.go:50-58 | a run of a record, a pass, a westward move and a record whose events charge a freeze for a day and then extend the streak by it |
| Scheduler.SkippedIffSilent | internal/engine/scheduler.go:130-139 | for a live settled streak the prefilter skips iff Settle would emit nothing |
| Scheduler.SkipIsSafe | internal/engine/scheduler.go:130-139 | what is skipped would change at most the pointer, and no later Settle notices |
| Scheduler.PassSettles | internal/engine/scheduler.go:154-169 | a pass on the present state announces what a settle would and leaves nothing to announce for its period |
| Scheduler.TickKeepsReadsIff | internal/engine/scheduler.go:154-169 | whatever a pass has seen, it leaves a read unchanged, but for Frozen to Alive and the pending spend, iff it skips the streak or resolves no more than a settle of the read's period would |
| InterferenceRuns.TickOutrunsZone | internal/engine/scheduler.go:119-169 | a run of a record, a westward move and a pass that has seen the old zone, after which the streak reads 0, and 1 without the pass |
| Scheduler.TicksMayBeDropped | internal/engine/scheduler.go:18-20 | in a run of any calls, passes with any clock, zone and candidate, in which late records, repairs, grants and shifts meet their guard and no pass settles past the subject's period, dropping every pass changes no later settled state and, unless a call rewrites the history, no event but reminders |
| Scheduler.ReadsIgnoreTicks | internal/engine/scheduler.go:18-20 | so in such a run no read from the period of the last call on depends on the scheduler having run |
| Interference.PassAgreesIff | internal/engine/scheduler.go:125-169 | a pass leaves every settled state and event from period k on unchanged iff it does not settle past k, so the guard on passes is exact |
| Interference.LateRecordAfterTickIff | internal/engine/scheduler.go:125-169 | a pass before a late record leaves its reply unchanged iff it skips the streak, or runs before the period has ended and finds nothing to resolve or the record earns nothing; the stored state is then the same |
| InterferenceRuns.TickClosesGrace | internal/engine/record.go:88-94 | a run that reads 0 with a pass one minute before its late record and 2 without it |
| Interference.RepairAfterTickIff | internal/engine/admin.go:115-126 | a pass that resolves no more than the repair's own settle leaves the reply unchanged iff it breaks nothing, or both stamps of the break fall on the same side of the repair window; one that resolves more does iff the repair is refused either way |
| InterferenceRuns.TickStartsRepairWindow | internal/engine/admin.go:115-126 | a streak whose repair after 38 days fails if a pass has noticed the loss and succeeds if none has |
| Interference.GrantAfterTickIff | internal/engine/history.go:122-158 | a pass before SetFreezes leaves all settled states from the grant's period on unchanged iff it does not settle past that period and resolves nothing, freezes are not consumed, it breaks the chain and 0 is set, or the chain breaks by then in spite of the grant |
| Interference.RewriteAfterTickIff | internal/engine/record.go:176-187 | a pass before a recount, an unrecord or a new history leaves all later states and events unchanged iff it announces nothing |
| InterferenceRuns.TickAnnouncesBreak | internal/engine/admin.go:157-183 | two runs in the same state after a recount, of which the repair is accepted with a pass before and refused without it |
| Interference.ShiftAfterTickIff | internal/engine/history.go:101-110 | a pass before a shift leaves all settled states from the shift's period on unchanged iff it skips the streak, nothing was ever earned, or it does not settle past the shifted period and, if there is something to lose, as many periods are to be resolved by then either way, up to the break |
| InterferenceRuns.TickBeforeShift | internal/engine/history.go:101-110 | a run across a rest day that reads 1 with a pass before its shift and 0 without it |
| Reminders.ReminderSentIff | internal/engine/scheduler.go:173-219 | in a fixed zone a reminder is sent iff the wall clock has reached its time and the streak is alive, unearned on a scheduled day and not reminded yet; it shows the day and the count |
| Reminders.ReminderInTime | internal/engine/scheduler.go:200-219 | in a fixed zone a reminder comes before LossAt; its day is the first at risk iff it can still be earned, and without freezes to spend the deadline is the end of that day |
| Reminders.ReminderOnce | internal/store/store.go:374-385 | over any run without history rewrites the reminders sent are for pairwise different days, none claimed before the run, all claimed after it |
| Repairs.RepairAcceptedIff | internal/engine/admin.go:115-148 | a repair is accepted iff the settled outbox ends in an unrepaired break stamped at most 30 days ago; a refused one changes nothing |
| Repairs.RepairRevives | internal/engine/admin.go:128-137 | a repair adds the lost count to what the streak had, and the streak reads alive with that count iff it has ever earned anything |
| Repairs.RepairRefusedTwice | internal/engine/admin.go:157-175 | a second repair with no new break is refused and changes nothing |
| Repairs.RepairAfterReset | internal/engine/admin.go:120-131 | after an empty ReplaceHistory a repair stores a count that reads show as 0 |
| History.ShiftIsTimeTravel | internal/engine/history.go:68-72 | the shifted state reads as the original did n days on, the deadline moved by n days |
| History.SettleShift | internal/engine/history.go:70-72 | settling the shifted state charges the same periods, n days earlier |
| History.TimeTravelIff | internal/engine/history.go:68-110 | this holds for all states iff there are no rest days or n is a multiple of 7, and otherwise fails already for a streak with one record |
| History.ShiftKeepsLedger | internal/store/store.go:267-285 | no two marks collide, every amount stays, and the earned ledger is the old one shifted |
| History.ShiftedRow | internal/engine/history.go:94-113 | ShiftHistory stores every mark n days earlier with its amount, drops the claims and moves both pointers, nothing else |
| Concurrency.DoInv | internal/store/store.go:97-124 | every step of every transaction keeps row locks exclusive and memos in agreement with what was answered |
| Concurrency.Serializable | internal/engine/engine.go:141-158 | in every interleaving rows and replies are those of running the writers in commit order |
| Concurrency.ConcurrentRecords | internal/engine/record.go:64-75 | requests that share a key write at most once and get one view, amounts add up over the writers, and no period has two extended events |
| Store.Streak.AddMark | internal/store/store.go:208-223 | the period's amount grows by the activity and no other row changes |
| Store.Streak.SelectEarned | internal/store/store.go:287-307 | the query lists the periods over the threshold in ascending order |
| Store.Streak.ClaimReminder | internal/store/store.go:374-385 | the claim succeeds iff the day was unclaimed, which it then is not |
| Store.Streak.PersistEvents | internal/engine/engine.go:160-175 | all events are appended in order |
| Store.Streak.FindLatestBreak | internal/engine/admin.go:157-183 | the search finds the count of the newest break not followed by a repair |
| Engine.Engine.Create | internal/store/store.go:98-114 | a new streak starts with the initial freezes, an empty ledger and an empty outbox, and no other streak changes |
| Engine.Engine.Record | internal/engine/record.go:35-141 | a memoized key returns its view and writes nothing; otherwise the row and the reply are those of Recorded and the view is memoized |
| Engine.Play | internal/engine/record.go:82-113 | the branches settle, earn and settle as Advance says |
| Engine.Engine.LoadCandidates | internal/engine/scheduler.go:78-114 | the query sees every streak's state and the subject's zone |
| Engine.Engine.SettleAllDue | internal/engine/scheduler.go:119-144 | every streak is settled as due by what an earlier query has seen of it |
| Engine.Engine.TickAll | internal/engine/scheduler.go:39-64 | an uninterrupted pass loads and settles, then loads and reminds, each half at its own reading of the clock |
| Engine.SettleDue | internal/engine/scheduler.go:125-169 | the prefilter on what was seen and the settle on the locked row together do what SettledDue says |
| Engine.RemindDue | internal/engine/scheduler.go:173-219 | the conditions on what was seen and on the locked row, the claim and the event are those of Reminded |
| Engine.Engine.SetTimezone | internal/engine/admin.go:21-68 | every streak is moved by the generosity rule; unknown names fail, the present zone is a no-op, a lost old zone is replaced |
| Engine.RepairOne | internal/engine/admin.go:98-155 | the transaction repairs the newest break or rolls back entirely |
| Engine.RecountOne | internal/engine/record.go:176-187 | the stored state becomes the replay of the ledger |
| Engine.Engine.Unrecord | internal/engine/record.go:143-174 | the current period's mark goes and the state is recounted |
| Engine.Engine.ReplaceHistory | internal/engine/history.go:17-66 | marks and claims are replaced by the given dates, period keys or not, the state is recounted, and the view shows the result |
| Engine.Engine.ShiftHistory | internal/engine/history.go:68-120 | marks and both pointers move together, claims are dropped, the view shows the result, other periods than days are refused |
| Engine.Engine.SetFreezes | internal/engine/history.go:122-158 | the inventory is set within [0, 100], nothing else changes, and the view shows the result |

## Left out

- Postgres, SQL, JSON, migrations, the connection pool and the scheduler's advisory lock: only the row lock, atomic
  commit and rollback, primary keys and the tables themselves are modelled.
- The IANA database and Go's time package beyond its rule for wall-clock times; nothing is claimed about keys across
  a fall-back hour that contains the boundary.
- Parsing and formatting of dates and of HH:MM; a reminder time is a minute of the day. `Normalized` has already run.
- `Timezone`, `List`, `Calendar`, `PollEvents`, event handlers, logging, options, `RunScheduler`'s ticker and the
  parts of the view that only rearrange `Derived`.
- `SetReminder` and registered streak types: a streak's configuration does not change in the model.
- Streaks are addressed by position, one subject at a time; looking up subjects and keys is not modelled.
- Machine integers: counts and amounts do not overflow.
- `tz_at_record`, `first_recorded`, `last_recorded` and `status`, which no operation modelled here reads.
- Oracle.OracleOverRuns: says nothing after SetTimezone, Repair, SetFreezes or ShiftHistory, which leave the regime by design.
- Scheduler.TicksMayBeDropped: after Unrecord, Recount, ReplaceHistory or ShiftHistory it compares states only, because
  what a pass has announced before stays in the outbox; `Interference.RewriteAfterTickIff` says when nothing differs.
- Travel.Generosity: assumes that the old zone is still known; `Engine.Engine.SetTimezone` models the fallback.
- Concurrency.ConcurrentRecords: concurrent requests are Records; other operations take the same lock one at a time.
