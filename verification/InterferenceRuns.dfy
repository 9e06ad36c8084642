/** Runs whose outcome depends on a scheduler pass, one for each kind of call that can tell
    (internal/engine/scheduler.go, record.go, admin.go, history.go). */
module InterferenceRuns {
  import opened Calendar
  import opened Configs
  import opened Periods
  import opened Boundaries
  import opened Transition
  import opened Derive
  import opened ClosedForm
  import opened Replay
  import opened Rows
  import opened Sessions
  import opened History
  import opened Scheduler
  import opened Interference
  import opened Scenarios

  // ---------------------------------------------------------------- late records and repairs

  /** What the streak of day 100 holds once a pass has found day 101 missed. */
  function BrokenDay(db: Instant): Row {
    Row(Daily(0), State(0, 1, 100, 101, 0, 0), map[100 := 1],
        [Event(Extended, 100, 1), Event(EventKind.Broken, 101, 1)], db, {})
  }

  /** One minute past midnight on day 102. */
  function EarlyTick(): Call {
    Call(Clock(102, 0, 1), Clock(102, 0, 1), SettleTick(Candidate(FirstDay(0).state, UTC)))
  }

  lemma EarlyTickStep()
    ensures var s := Session(FirstDay(0), UTC);
            && Valid(s.row) && Possible(s, EarlyTick())
            && Step(s, EarlyTick()) == Session(BrokenDay(Clock(102, 0, 1)), UTC)
  {
    var cfg, row, c := Daily(0), FirstDay(0), EarlyTick();
    DailyValid(0);
    FirstStep(0);
    DailyKeys(102, 0, 1, 0);
    DailySettled(row.state, 0, 102);
    CountAll([Event(EventKind.Broken, 101, 1)], EventKind.Broken);
    assert ActiveBetween(100, 102, cfg) != [] by { hide ValidConfig; }
    hide ValidConfig, Sound, ScheduledOn, PeriodKey, Aligned, Settled, CountKind, ActiveBetween;
    assert !Skipped(row.state, cfg, 102);
    assert SettledDue(row, c.op.seen, c.now, c.db).log == BrokenDay(c.db).log;
  }

  lemma LateAfterTick()
    ensures var s := Session(BrokenDay(Clock(102, 0, 1)), UTC);
            Valid(s.row) && Possible(s, LateRecord(101)) && Step(s, LateRecord(101)) == s
            && Recorded(s.row, LateRecord(101).now, LateRecord(101).op.at, 1, UTC, 0).reply == Failed(OutsidePeriod)
  {
    DailyValid(0);
    DailyKeys(101, 23, 58, 0);
    DailyKeys(102, 0, 2, 0);
    hide ValidConfig, ScheduledOn, PeriodKey, Aligned;
  }

  lemma RunWithTick()
    ensures var s := Session(NewRow(Daily(0)), UTC); var calls := [FirstRecord()] + [EarlyTick()] + [LateRecord(101)];
            CanRun(s, calls) && Run(s, calls) == Session(BrokenDay(Clock(102, 0, 1)), UTC)
  {
    hide Valid, Possible, Step, CanRun, Run, NewRow, FirstDay, BrokenDay, Daily, FirstRecord, EarlyTick, LateRecord;
    var s := Session(NewRow(Daily(0)), UTC);
    AfterFirstRecord(0);
    EarlyTickStep();
    RunOn(s, [FirstRecord()], EarlyTick());
    LateAfterTick();
    RunOn(s, [FirstRecord()] + [EarlyTick()], LateRecord(101));
  }

  lemma RunWithoutTick()
    ensures var s := Session(NewRow(Daily(0)), UTC); var calls := [FirstRecord()] + [LateRecord(101)];
            CanRun(s, calls) && Run(s, calls) == Session(SecondDay(0, 101), UTC)
  {
    hide Valid, Possible, Step, CanRun, Run, NewRow, FirstDay, SecondDay, Daily, FirstRecord, LateRecord;
    AfterFirstRecord(0);
    LateStep(0, 101);
    RunOn(Session(NewRow(Daily(0)), UTC), [FirstRecord()], LateRecord(101));
  }

  /** A read after the late record of day 101 depends on whether a pass came first, a minute earlier: with it the
      record is rejected and the streak reads 0, without it the streak reads 2. */
  lemma TickClosesGrace()
    ensures var s := Session(NewRow(Daily(0)), UTC); var calls := [FirstRecord()] + [EarlyTick()] + [LateRecord(101)];
            && CanRun(s, calls) && CanRun(s, WithoutTicks(calls)) && ValidConfig(Daily(0))
            && var a, b := Run(s, calls).row.state, Run(s, WithoutTicks(calls)).row.state;
               && Sound(a, Daily(0)) && Sound(b, Daily(0))
               && DerivedAt(a, Daily(0), 102, UTC).count == 0 && DerivedAt(b, Daily(0), 102, UTC).count == 2
  {
    hide ValidConfig, Sound, Possible, Step, CanRun, Run, NewRow, Daily, WithoutTicks, DerivedAt;
    RunWithTick();
    RunWithoutTick();
    TicksOfThree(FirstRecord(), EarlyTick(), LateRecord(101));
    ReadsOf(BrokenDay(Clock(102, 0, 1)).state, SecondDay(0, 101).state);
  }

  lemma TicksOfThree(c: Call, tick: Call, d: Call)
    requires !IsTick(c.op) && IsTick(tick.op) && !IsTick(d.op)
    ensures WithoutTicks([c] + [tick] + [d]) == [c] + [d]
  {
    var calls := [c] + [tick] + [d];
    assert calls[1..] == [tick, d] && [tick, d][1..] == [d] && [d][1..] == [];
    assert WithoutTicks([d]) == [d];
    assert WithoutTicks([tick, d]) == [d];
  }

  lemma ReadsOf(a: State, b: State)
    requires a == BrokenDay(Clock(102, 0, 1)).state && b == SecondDay(0, 101).state
    ensures ValidConfig(Daily(0)) && Sound(a, Daily(0)) && Sound(b, Daily(0))
    ensures DerivedAt(a, Daily(0), 102, UTC).count == 0 && DerivedAt(b, Daily(0), 102, UTC).count == 2
  {
    DailyValid(0);
    DailySettled(b, 0, 102);
    hide ValidConfig, Aligned, ScheduledOn, Settled, DerivedAt;
    DeriveMatchesSettle(a, Daily(0), 102, UTC);
    DeriveMatchesSettle(b, Daily(0), 102, UTC);
    assert Settled(a, Daily(0), 102).state.count == 0 by { QuietCount(a); }
  }

  lemma QuietCount(a: State)
    requires ValidConfig(Daily(0)) && Sound(a, Daily(0)) && a.count == 0
    ensures Settled(a, Daily(0), 102).state.count == 0
  {
    hide ValidConfig, Aligned, PrevPeriod, ActiveBetween;
  }

  /** Forty days after its last earned day the streak is repaired. */
  function LateRepair(): Call {
    Call(Clock(140, 10, 0), Clock(140, 10, 0), Repair)
  }

  lemma LateRepairBare()
    ensures var row, c := FirstDay(0), LateRepair();
            && Valid(row) && Clocked(c.now, UTC, Daily(0)) && RepairedRow(row, c.now, UTC, c.db).reply.Done?
            && RepairedRow(row, c.now, UTC, c.db).reply.view.derived.count == 1
  {
    var row, c := FirstDay(0), LateRepair();
    DailyValid(0);
    FirstStep(0);
    DailyKeys(140, 10, 0, 0);
    DailySettled(row.state, 0, 140);
    DailySettled(State(1, 1, 100, 139, 0, 0), 0, 140);
    var e := Event(EventKind.Broken, 101, 1);
    CountAll([e], EventKind.Broken);
    BreakLast(row.state, Daily(0), 140, row.log);
    assert (row.log + [e])[|row.log|] == e;
    DeriveMatchesSettle(State(1, 1, 100, 139, 0, 0), Daily(0), 140, UTC);
    hide ValidConfig, Sound, ScheduledOn, PeriodKey, Aligned, Settled, CountKind, RepairedRow, DerivedAt;
    RepairReply(row, c.now, UTC, c.db);
  }

  lemma LateRepairAfterTick()
    ensures var row, c := BrokenDay(Clock(102, 0, 1)), LateRepair();
            && Valid(row) && Clocked(c.now, UTC, Daily(0))
            && RepairedRow(row, c.now, UTC, c.db).reply == Failed(NothingToRepair)
  {
    var row, c := BrokenDay(Clock(102, 0, 1)), LateRepair();
    DailyValid(0);
    DailyKeys(140, 10, 0, 0);
    assert Valid(row) by { hide ValidConfig; }
    QuietAfterBreak(row.state, Daily(0), 140);
    hide ValidConfig, Sound, ScheduledOn, PeriodKey, Aligned, Settled, CountKind, RepairedRow, DerivedAt, LatestBreak;
    RepairReply(row, c.now, UTC, c.db);
    assert c.now - row.brokenAt > REPAIR_WINDOW;
  }

  /** Whether a streak that was lost long ago can be repaired depends on whether a pass has noticed the loss: with
      a pass on day 102 the window has closed by day 140; without one the repair itself writes the break down and
      gives the count back. */
  lemma TickStartsRepairWindow()
    ensures Valid(FirstDay(0)) && Possible(Session(FirstDay(0), UTC), EarlyTick())
    ensures var c := LateRepair(); var ticked := Step(Session(FirstDay(0), UTC), EarlyTick()).row;
            && Valid(ticked) && ticked.cfg == Daily(0) == FirstDay(0).cfg && Clocked(c.now, UTC, Daily(0))
            && RepairedRow(ticked, c.now, UTC, c.db).reply == Failed(NothingToRepair)
            && var reply := RepairedRow(FirstDay(0), c.now, UTC, c.db).reply;
               reply.Done? && reply.view.derived.count == 1
  {
    hide Valid, Possible, Step, Clocked, RepairedRow, Daily;
    EarlyTickStep();
    LateRepairBare();
    LateRepairAfterTick();
  }

  // ---------------------------------------------------------------- a pass that has seen the old zone

  /** A minute before midnight on day 101 the subject moves west, where that day has five more hours. */
  function FlyBeforeMidnight(): Call {
    Call(Clock(101, 23, 59), 0, SetTimezone(WEST))
  }

  /** Two minutes later: a pass whose query ran before the move. */
  function StaleTick(): Call {
    Call(Clock(102, 0, 1), Clock(102, 0, 1), SettleTick(Candidate(FirstDay(0).state, UTC)))
  }

  function MovedDay(): Row {
    FirstDay(0).(state := State(1, 1, 100, 100, 0, 0))
  }

  lemma FlyBeforeMidnightStep()
    ensures var s := Session(FirstDay(0), UTC);
            && Valid(s.row) && Valid(MovedDay()) && Possible(s, FlyBeforeMidnight())
            && Step(s, FlyBeforeMidnight()) == Session(MovedDay(), WEST)
  {
    DailyValid(0);
    FirstStep(0);
    DailyKeys(101, 23, 59, 0);
    DailySettled(FirstDay(0).state, 0, 101);
    MovedValid(FirstDay(0), Clock(101, 23, 59), UTC, WEST, 0);
    hide ValidConfig, Sound, Counted, ScheduledOn, PeriodKey, Aligned, Settled, Clock;
    assert Moved(FirstDay(0), Clock(101, 23, 59), UTC, WEST, 0).log == FirstDay(0).log;
    assert Moved(FirstDay(0), Clock(101, 23, 59), UTC, WEST, 0) == MovedDay();
  }

  lemma StaleTickStep()
    ensures var s := Session(MovedDay(), WEST);
            && Valid(s.row) && Possible(s, StaleTick())
            && Step(s, StaleTick()) == Session(BrokenDay(Clock(102, 0, 1)), WEST)
  {
    var cfg, row, c := Daily(0), MovedDay(), StaleTick();
    DailyValid(0);
    FlyBeforeMidnightStep();
    DailyKeys(102, 0, 1, 0);
    DailySettled(FirstDay(0).state, 0, 102);
    DailySettled(row.state, 0, 102);
    CountAll([Event(EventKind.Broken, 101, 1)], EventKind.Broken);
    assert ActiveBetween(100, 102, cfg) != [] by { hide ValidConfig; }
    assert !Skipped(FirstDay(0).state, cfg, 102) by { hide ValidConfig, ScheduledOn, ActiveBetween; }
    hide ValidConfig, Sound, Counted, ScheduledOn, PeriodKey, Aligned, Settled, CountKind, ActiveBetween, Skipped;
    hide Clock;
    assert SettledDue(row, c.op.seen, c.now, c.db).log == BrokenDay(c.db).log;
  }

  lemma StaleRuns()
    ensures var s := Session(NewRow(Daily(0)), UTC);
            && CanRun(s, [FirstRecord()] + [FlyBeforeMidnight()])
            && Run(s, [FirstRecord()] + [FlyBeforeMidnight()]) == Session(MovedDay(), WEST)
            && CanRun(s, [FirstRecord()] + [FlyBeforeMidnight()] + [StaleTick()])
            && Run(s, [FirstRecord()] + [FlyBeforeMidnight()] + [StaleTick()])
               == Session(BrokenDay(Clock(102, 0, 1)), WEST)
  {
    hide Valid, Possible, Step, CanRun, Run, NewRow, Daily, Clock;
    hide FirstRecord, FlyBeforeMidnight, StaleTick, FirstDay, BrokenDay, MovedDay;
    var s := Session(NewRow(Daily(0)), UTC);
    AfterFirstRecord(0);
    FlyBeforeMidnightStep();
    RunOn(s, [FirstRecord()], FlyBeforeMidnight());
    StaleTickStep();
    RunOn(s, [FirstRecord()] + [FlyBeforeMidnight()], StaleTick());
  }

  /** A pass alone changes what is read, without any late record, repair, rewrite, grant or shift.  It is still day
      101 where the subject is, and the streak reads 1 until the pass settles that day in the old zone: then it
      reads 0. */
  lemma TickOutrunsZone()
    ensures PeriodKey(StaleTick().now, WEST, Daily(0)) == 101
    ensures var s := Session(NewRow(Daily(0)), UTC);
            var calls := [FirstRecord()] + [FlyBeforeMidnight()] + [StaleTick()];
            && CanRun(s, calls) && CanRun(s, WithoutTicks(calls)) && ValidConfig(Daily(0))
            && Run(s, calls).zone == WEST == Run(s, WithoutTicks(calls)).zone
            && var a, b := Run(s, calls).row.state, Run(s, WithoutTicks(calls)).row.state;
               && Sound(a, Daily(0)) && Sound(b, Daily(0))
               && DerivedAt(a, Daily(0), 101, WEST).count == 0 && DerivedAt(b, Daily(0), 101, WEST).count == 1
  {
    hide ValidConfig, Sound, CanRun, Run, NewRow, Daily, WithoutTicks, DerivedAt, PeriodKey, Clock;
    hide FirstRecord, FlyBeforeMidnight, StaleTick, BrokenDay, MovedDay;
    StaleOps();
    DailyKeys(102, 0, 1, 0);
    StaleRuns();
    TicksAtEnd(FirstRecord(), FlyBeforeMidnight(), StaleTick());
    StaleReads();
  }

  lemma StaleOps()
    ensures FirstRecord().op.Record? && FlyBeforeMidnight().op.SetTimezone? && StaleTick().op.SettleTick?
    ensures StaleTick().now == Clock(102, 0, 1)
  {
  }

  lemma TicksAtEnd(c: Call, d: Call, tick: Call)
    requires !IsTick(c.op) && !IsTick(d.op) && IsTick(tick.op)
    ensures WithoutTicks([c] + [d] + [tick]) == [c] + [d]
  {
    var calls := [c] + [d] + [tick];
    assert calls[1..] == [d, tick] && [d, tick][1..] == [tick] && [tick][1..] == [];
    assert WithoutTicks([tick]) == [];
    assert WithoutTicks([d, tick]) == [d];
  }

  lemma StaleReads()
    ensures var cfg, a, b := Daily(0), BrokenDay(Clock(102, 0, 1)).state, MovedDay().state;
            && ValidConfig(cfg) && Sound(a, cfg) && Sound(b, cfg)
            && DerivedAt(a, cfg, 101, WEST).count == 0 && DerivedAt(b, cfg, 101, WEST).count == 1
  {
    var cfg, b := Daily(0), MovedDay().state;
    DailyValid(0);
    DailySettled(b, 0, 101);
    hide ValidConfig, Aligned, ScheduledOn, Settled, ActiveBetween, PeriodEnd, LossPeriod;
    DeriveMatchesSettle(b, cfg, 101, WEST);
  }

  // ---------------------------------------------------------------- a repair after a recount

  function NoonRecount(): Call {
    Call(Clock(102, 10, 0), 0, Recount)
  }

  function NoonRepair(): Call {
    Call(Clock(102, 11, 0), Clock(102, 11, 0), Repair)
  }

  lemma LedgerOfOneDay()
    ensures EarnedPeriods(map[100 := 1], 1) == [100] && KeysOf([100], UTC, Daily(0)) == [100]
    ensures LedgerClocked(map[100 := 1], UTC, Daily(0))
  {
    LedgerUnique(EarnedPeriods(map[100 := 1], 1), [100]);
    DailyKeys(100, 12, 0, 0);
    assert PeriodRepresentative(100, UTC, Daily(0)) == Clock(100, 12, 0);
    DailyValid(0);
  }

  lemma ReplayOfOneDay()
    ensures ValidConfig(Daily(0)) && AllCurrent([100], Daily(0))
    ensures Replayed(Daily(0), [100], 102) == State(0, 1, 100, 101, 0, 0)
  {
    DailyValid(0);
    FirstEarn(0);
    DailySettled(FirstDay(0).state, 0, 102);
    hide ValidConfig, Settled, Earned, Aligned;
    assert [100][..0] == [];
    assert Fold(Daily(0), [100]) == FirstDay(0).state;
  }

  /** At 10:00 on day 102 a recount stores that the chain is lost, and announces nothing. */
  lemma NoonRecountStep(row: Row)
    requires Valid(row) && row.cfg == Daily(0) && row.marks == map[100 := 1]
    ensures var s := Session(row, UTC);
            && Possible(s, NoonRecount())
            && Step(s, NoonRecount()) == Session(row.(state := State(0, 1, 100, 101, 0, 0)), UTC)
  {
    hide ValidConfig, Sound, PeriodKey, EarnedPeriods, KeysOf, Replayed, LedgerClocked, Daily;
    LedgerOfOneDay();
    ReplayOfOneDay();
    DailyKeys(102, 10, 0, 0);
    assert Clocked(Clock(102, 10, 0), UTC, Daily(0)) && Daily(0).minAmount == 1 by { DailyFacts(102); }
  }

  lemma DailyFacts(day: Date)
    requires day >= 32
    ensures Current(day, Daily(0)) && Daily(0).minAmount == 1
  {
  }

  /** A lost streak is repaired by what its outbox says. */
  lemma QuietRepair(row: Row, now: Instant, zone: Zone, db: Instant)
    requires Valid(row) && Clocked(now, zone, row.cfg) && row.state.count == 0
    ensures var reply := RepairedRow(row, now, zone, db).reply;
            if LatestBreak(row.log) == 0 || now - row.brokenAt > REPAIR_WINDOW then reply == Failed(NothingToRepair)
            else reply.Done?
  {
    hide ValidConfig, Sound, Counted, Current, PeriodKey, Settled, CountKind, RepairedRow, DerivedAt, LatestBreak;
    QuietAfterBreak(row.state, row.cfg, PeriodKey(now, zone, row.cfg));
    assert row.log + [] == row.log;
    RepairReply(row, now, zone, db);
  }

  /** The repair an hour later: it finds a break only where one has been announced. */
  lemma NoonRepairs()
    ensures var a, b := BrokenDay(Clock(102, 0, 1)), FirstDay(0).(state := State(0, 1, 100, 101, 0, 0));
            var c := NoonRepair();
            && Valid(a) && Valid(b) && Clocked(c.now, UTC, Daily(0))
            && RepairedRow(a, c.now, UTC, c.db).reply.Done?
            && RepairedRow(b, c.now, UTC, c.db).reply == Failed(NothingToRepair)
  {
    var a, b := BrokenDay(Clock(102, 0, 1)), FirstDay(0).(state := State(0, 1, 100, 101, 0, 0));
    var c := NoonRepair();
    hide Valid, Clocked, RepairedRow, LatestBreak, Daily;
    assert c.now - a.brokenAt <= REPAIR_WINDOW;
    NoonRows();
    hide Clock;
    LatestBreakAdd([Event(Extended, 100, 1)], Event(EventKind.Broken, 101, 1));
    LatestBreakAdd([], Event(Extended, 100, 1));
    assert a.log == [Event(Extended, 100, 1)] + [Event(EventKind.Broken, 101, 1)];
    assert b.log == [] + [Event(Extended, 100, 1)];
    assert LatestBreak([]) == 0 by { NoBreakAtStart(); }
    QuietRepair(a, c.now, UTC, c.db);
    QuietRepair(b, c.now, UTC, c.db);
  }

  lemma NoonRows()
    ensures Valid(BrokenDay(Clock(102, 0, 1))) && Valid(FirstDay(0).(state := State(0, 1, 100, 101, 0, 0)))
    ensures Clocked(NoonRepair().now, UTC, Daily(0))
  {
    DailyValid(0);
    DailyKeys(102, 11, 0, 0);
    hide ValidConfig, PeriodKey, Aligned;
  }

  lemma NoBreakAtStart()
    ensures LatestBreak([]) == 0
  {
  }

  /** Two runs, with a pass and without it, that a recount leaves in the same state.  Yet the repair that follows
      gives the count back in the first and is refused in the second. */
  lemma TickAnnouncesBreak()
    ensures var s := Session(NewRow(Daily(0)), UTC); var calls := [FirstRecord()] + [EarlyTick()] + [NoonRecount()];
            && CanRun(s, calls) && CanRun(s, WithoutTicks(calls))
            && var a, b, c := Run(s, calls), Run(s, WithoutTicks(calls)), NoonRepair();
               && a.zone == b.zone == UTC && a.row.cfg == b.row.cfg == Daily(0) && a.row.state == b.row.state
               && Valid(a.row) && Valid(b.row) && Clocked(c.now, UTC, Daily(0))
               && RepairedRow(a.row, c.now, UTC, c.db).reply.Done?
               && RepairedRow(b.row, c.now, UTC, c.db).reply == Failed(NothingToRepair)
  {
    hide Valid, Possible, Step, CanRun, Run, NewRow, Daily, WithoutTicks, RepairedRow, Clocked, FirstRecord, EarlyTick;
    hide NoonRecount;
    var s := Session(NewRow(Daily(0)), UTC);
    AfterFirstRecord(0);
    EarlyTickStep();
    RunOn(s, [FirstRecord()], EarlyTick());
    NoonRepairs();
    NoonRecountStep(BrokenDay(Clock(102, 0, 1)));
    NoonRecountStep(FirstDay(0));
    RunOn(s, [FirstRecord()] + [EarlyTick()], NoonRecount());
    RunOn(s, [FirstRecord()], NoonRecount());
    assert WithoutTicks([FirstRecord()] + [EarlyTick()] + [NoonRecount()]) == [FirstRecord()] + [NoonRecount()] by {
      ThreeOps();
      TicksOfThree(FirstRecord(), EarlyTick(), NoonRecount());
    }
  }

  lemma ThreeOps()
    ensures FirstRecord().op.Record? && EarlyTick().op.SettleTick? && NoonRecount().op.Recount?
  {
  }

  // ---------------------------------------------------------------- a shift across a rest day

  /** Daily but for Fridays, with two freezes. */
  function NoFridays(): Config {
    Config(Day, "1111011", 0, 1, 0, FreezePolicy(2, 0, 2, true), [], None)
  }

  lemma RestOnFriday()
    ensures var cfg := NoFridays();
            && ValidConfig(cfg) && ScheduledOn(107, cfg) && Current(107, cfg) && Current(110, cfg)
            && Next(105, cfg) == 106 && Next(106, cfg) == 107 && Next(107, cfg) == 109 && Next(109, cfg) == 110
  {
    var cfg := NoFridays();
    assert ISOWeekday(106) == 3 && ISOWeekday(107) == 4 && ISOWeekday(108) == 5 && ISOWeekday(109) == 6;
    assert ISOWeekday(110) == 7;
    assert cfg.weekdayMask[0] == '1';
  }

  lemma RestOnFridayKeys()
    ensures PeriodKey(Clock(107, 10, 0), UTC, NoFridays()) == 107
    ensures PeriodKey(Clock(110, 0, 30), UTC, NoFridays()) == 110
    ensures PeriodKey(Clock(110, 1, 0), UTC, NoFridays()) == 110
  {
  }

  /** The misses from day 107, and from day 105, up to day 110. */
  lemma MissesAcrossFriday()
    ensures ValidConfig(NoFridays())
    ensures ActiveBetween(107, 110, NoFridays()) == [109] && ActiveBetween(105, 110, NoFridays()) == [106, 107, 109]
  {
    RestOnFriday();
    var cfg := NoFridays();
    hide ValidConfig, Next, ScheduledOn, Aligned, NoFridays;
    AlwaysAligned(105);
    AlwaysAligned(106);
    AlwaysAligned(107);
    AlwaysAligned(109);
    assert ActiveBetween(109, 110, cfg) == [];
    assert ActiveBetween(107, 110, cfg) == [109] + ActiveBetween(109, 110, cfg);
    assert ActiveBetween(106, 110, cfg) == [107] + ActiveBetween(107, 110, cfg);
    assert ActiveBetween(105, 110, cfg) == [106] + ActiveBetween(106, 110, cfg);
  }

  lemma AlwaysAligned(d: Date)
    ensures Aligned(d, NoFridays())
  {
  }

  function ThursdayRecord(): Call {
    Call(Clock(107, 10, 0), 0, Record(Clock(107, 10, 0), 1))
  }

  function SundayTick(): Call {
    Call(Clock(110, 0, 30), 0, SettleTick(Candidate(ThursdayRow().state, UTC)))
  }

  function SundayShift(): Call {
    Call(Clock(110, 1, 0), 0, ShiftHistory(2))
  }

  function ThursdayRow(): Row {
    Row(NoFridays(), State(1, 1, 107, 106, 2, 0), map[107 := 1], [Event(Extended, 107, 1)], 0, {})
  }

  function SundayRow(): Row {
    Row(NoFridays(), State(1, 1, 107, 109, 1, 0), map[107 := 1],
        [Event(Extended, 107, 1), Event(FreezeConsumed, 109, 1)], 0, {})
  }

  lemma ThursdayEarn()
    ensures var cfg := NoFridays(); ValidConfig(cfg) && Sound(NewState(cfg), cfg) && Current(107, cfg)
    ensures var cfg := NoFridays(); var r := Settled(NewState(cfg), cfg, 107);
            r.events == [] && Earned(r.state, cfg, 107) == Outcome(ThursdayRow().state, ThursdayRow().log)
  {
    RestOnFriday();
    hide ValidConfig, ScheduledOn, Aligned;
    assert Settled(NewState(NoFridays()), NoFridays(), 107) == Outcome(State(0, 0, NO_DATE, 106, 2, 0), []);
  }

  lemma ThursdayStep()
    ensures var s := Session(NewRow(NoFridays()), UTC);
            && Valid(s.row) && Valid(ThursdayRow()) && Possible(s, ThursdayRecord())
            && Step(s, ThursdayRecord()) == Session(ThursdayRow(), UTC)
  {
    var row, now := NewRow(NoFridays()), Clock(107, 10, 0);
    ThursdayEarn();
    NewRowValid(NoFridays());
    RestOnFridayKeys();
    hide ValidConfig, Sound, Counted, ScheduledOn, PeriodKey, Aligned, Recorded, Earned, Settled, CountKind, Clock;
    PlainRecord(row, now, UTC, 0);
    CountNone(ThursdayRow().log, EventKind.Broken);
    RecordedValid(row, now, now, 1, UTC, 0);
    assert Recorded(row, now, now, 1, UTC, 0).row.log == ThursdayRow().log;
    assert Recorded(row, now, now, 1, UTC, 0).row.marks == ThursdayRow().marks;
  }

  lemma SundaySettle()
    ensures var cfg, s := NoFridays(), ThursdayRow().state;
            && ValidConfig(cfg) && Sound(s, cfg) && Current(110, cfg) && !Skipped(s, cfg, 110)
            && Settled(s, cfg, 110) == Outcome(SundayRow().state, [Event(FreezeConsumed, 109, 1)])
  {
    var cfg, s := NoFridays(), ThursdayRow().state;
    RestOnFriday();
    MissesAcrossFriday();
    hide ValidConfig, ActiveBetween, Next, ScheduledOn;
    ChargeClosed(s, true, [109]);
    var r := Charge(s, true, [109]);
    assert r.events == [r.events[0]];
  }

  lemma SundayTickStep()
    ensures var s := Session(ThursdayRow(), UTC);
            Valid(s.row) && Possible(s, SundayTick()) && Step(s, SundayTick()) == Session(SundayRow(), UTC)
  {
    var row, c := ThursdayRow(), SundayTick();
    ThursdayStep();
    SundaySettle();
    RestOnFridayKeys();
    CountNone([Event(FreezeConsumed, 109, 1)], EventKind.Broken);
    hide ValidConfig, Sound, Counted, PeriodKey, Aligned, Settled, CountKind, Skipped, Clock;
    assert SettledDue(row, c.op.seen, c.now, c.db).log == SundayRow().log;
  }

  lemma SundayShiftStep(row: Row)
    requires row == ThursdayRow() || row == SundayRow()
    ensures var s := Session(row, UTC);
            && Valid(row) && Possible(s, SundayShift()) && Step(s, SundayShift()) == Session(Shifted(row, 2), UTC)
            && Shifted(row, 2).state
               == if row == ThursdayRow() then State(1, 1, 105, 104, 2, 0) else State(1, 1, 105, 107, 1, 0)
  {
    ThursdayStep();
    SundayTickStep();
    SettledDueValid(ThursdayRow(), SundayTick().op.seen, SundayTick().now, 0);
    RestOnFriday();
    RestOnFridayKeys();
    hide ValidConfig, PeriodKey, ShiftMarks, ScheduledOn, Next;
  }

  lemma SundayReads()
    ensures var cfg, a, b := NoFridays(), State(1, 1, 105, 107, 1, 0), State(1, 1, 105, 104, 2, 0);
            && ValidConfig(cfg) && Sound(a, cfg) && Sound(b, cfg)
            && DerivedAt(a, cfg, 110, UTC).count == 1 && DerivedAt(b, cfg, 110, UTC).count == 0
  {
    MissesAcrossFriday();
    hide ValidConfig, ActiveBetween, PeriodEnd, LossPeriod;
  }

  /** Earn day 107, a Thursday, with two freezes in hand and Fridays off, and shift by two days on Sunday.  A pass
      before the shift pays for Saturday only, and the streak reads 1.  Without it the shift has moved the earned
      day in front of two more scheduled ones: three misses, two freezes, and the streak reads 0. */
  lemma TickBeforeShift()
    ensures var s := Session(NewRow(NoFridays()), UTC);
            var calls := [ThursdayRecord()] + [SundayTick()] + [SundayShift()];
            && CanRun(s, calls) && CanRun(s, WithoutTicks(calls)) && ValidConfig(NoFridays())
            && var a, b := Run(s, calls).row.state, Run(s, WithoutTicks(calls)).row.state;
               && Sound(a, NoFridays()) && Sound(b, NoFridays())
               && DerivedAt(a, NoFridays(), 110, UTC).count == 1 && DerivedAt(b, NoFridays(), 110, UTC).count == 0
  {
    hide Valid, ValidConfig, Sound, Possible, Step, CanRun, Run, NewRow, NoFridays, WithoutTicks, DerivedAt, Shifted;
    hide ThursdayRecord, SundayTick, SundayShift, ThursdayRow, SundayRow;
    var s := Session(NewRow(NoFridays()), UTC);
    ThursdayStep();
    EmptyRun(s);
    RunOn(s, [], ThursdayRecord());
    assert [] + [ThursdayRecord()] == [ThursdayRecord()];
    SundayTickStep();
    RunOn(s, [ThursdayRecord()], SundayTick());
    SundayShiftStep(ThursdayRow());
    RunOn(s, [ThursdayRecord()], SundayShift());
    SundayShiftStep(SundayRow());
    RunOn(s, [ThursdayRecord()] + [SundayTick()], SundayShift());
    ShiftOps();
    TicksOfThree(ThursdayRecord(), SundayTick(), SundayShift());
    SundayReads();
  }

  lemma ShiftOps()
    ensures ThursdayRecord().op.Record? && SundayTick().op.SettleTick? && SundayShift().op.ShiftHistory?
    ensures ThursdayRow() != SundayRow()
  {
  }
}
