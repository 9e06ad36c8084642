/** Small concrete runs: daily streaks without rest days, thresholds or milestones. */
module Scenarios {
  import opened Calendar
  import opened Configs
  import opened Periods
  import opened Transition
  import opened ClosedForm
  import opened Rows
  import opened Sessions

  /** A daily streak that starts with, and may hold, the given number of freezes. */
  function Daily(freezes: int): Config {
    Config(Day, "", 0, 1, 0, FreezePolicy(freezes, 0, freezes, true), [], None)
  }

  const UTC: Zone := u => 0
  const WEST: Zone := u => -5 * 3600

  function Clock(day: Date, hour: int, minute: int): Instant {
    NANOS * (DAY_SECONDS * day + 3600 * hour + 60 * minute)
  }

  lemma DailyKeys(day: Date, hour: int, minute: int, freezes: int)
    requires 0 <= hour < 24 && 0 <= minute < 60
    ensures PeriodKey(Clock(day, hour, minute), UTC, Daily(freezes)) == day
    ensures PeriodKey(Clock(day, hour, minute), WEST, Daily(freezes)) == if hour < 5 then day - 1 else day
  {
    assert Clock(day, hour, minute) / NANOS == DAY_SECONDS * day + 3600 * hour + 60 * minute;
  }

  lemma DailyValid(freezes: int)
    requires 0 <= freezes <= 1
    ensures ValidConfig(Daily(freezes))
    ensures forall p | p >= 32 :: Current(p, Daily(freezes)) && PrevPeriod(p, Daily(freezes)) == p - 1
    ensures forall p :: ScheduledOn(p, Daily(freezes)) && Next(p, Daily(freezes)) == p + 1 && Aligned(p, Daily(freezes))
  {
  }

  /** Settling a live daily streak: it misses the days after its frontier, the first of them first. */
  lemma DailySettled(s: State, freezes: int, cur: Date)
    requires 0 <= freezes <= 1 && cur >= 32 && 0 < s.lastEarned && 0 <= s.settledThrough && s.count > 0
    requires 0 <= s.freezes <= 1
    ensures ValidConfig(Daily(freezes)) && Sound(s, Daily(freezes))
    ensures var cfg := Daily(freezes); var r := Settled(s, cfg, cur); var from := Later(s.lastEarned, s.settledThrough);
            var st := Later(s.settledThrough, cur - 1);
            && (cur <= from + 1 ==> r == Outcome(s.(settledThrough := st), []))
            && (cur == from + 2 && s.freezes == 1 ==>
                  r == Outcome(s.(freezes := 0, settledThrough := st), [Event(FreezeConsumed, from + 1, s.count)]))
            && (cur > from + 1 && s.freezes == 0 ==>
                  r == Outcome(s.(count := 0, progress := 0, settledThrough := st),
                               [Event(EventKind.Broken, from + 1, s.count)]))
  {
    var cfg, from := Daily(freezes), Later(s.lastEarned, s.settledThrough);
    DailyValid(freezes);
    hide ValidConfig, PrevPeriod, Next, ScheduledOn, Aligned, Charge;
    assert Sound(s, cfg);
    var missed := ActiveBetween(from, cur, cfg);
    if cur > from + 1 {
      assert missed == [from + 1] + ActiveBetween(from + 1, cur, cfg);
      if cur == from + 2 { assert ActiveBetween(from + 1, cur, cfg) == []; }
    }
    ChargeClosed(s, true, missed);
    var r := Settled(s, cfg, cur);
    if cur <= from + 1 {
      assert r.events == [];
    } else if s.freezes == 0 || cur == from + 2 {
      assert |r.events| == 1 && r.events == [r.events[0]];
    }
  }

  lemma DailyEarned(s: State, freezes: int, p: Date)
    requires 0 <= freezes <= 1 && s.lastEarned < p
    ensures ValidConfig(Daily(freezes))
    ensures Earned(s, Daily(freezes), p)
         == Outcome(s.(count := s.count + 1, lastEarned := p, longest := Max(s.longest, s.count + 1)),
                    [Event(Extended, p, s.count + 1)])
  {
  }

  /** The streak after its first record, on day 100. */
  function FirstDay(freezes: int): Row {
    Row(Daily(freezes), State(1, 1, 100, 99, freezes, 0), map[100 := 1], [Event(Extended, 100, 1)], 0, {})
  }

  function FirstRecord(): Call {
    Call(Clock(100, 10, 0), 0, Record(Clock(100, 10, 0), 1))
  }

  /** A record of the current period, to a threshold of 1: settle and earn. */
  lemma PlainRecord(row: Row, now: Instant, zone: Zone, db: Instant)
    requires Valid(row) && Clocked(now, zone, row.cfg) && row.cfg.minAmount <= 1
    requires forall p | p in row.marks :: row.marks[p] >= 0
    ensures var cfg := row.cfg; var cur := PeriodKey(now, zone, cfg); var r := Settled(row.state, cfg, cur);
            var e := Earned(r.state, cfg, cur);
            Recorded(row, now, now, 1, zone, db).row
            == Persist(row.(marks := row.marks[cur := Amount(row.marks, cur) + 1]), e.state, r.events + e.events, db)
  {
    hide ValidConfig, Sound, Current, Counted, PeriodKey, Settled, Earned, Persist, ViewOf;
    var cur := PeriodKey(now, zone, row.cfg);
    SettledSound(row.state, row.cfg, cur);
    var r := Settled(row.state, row.cfg, cur);
    assert r.events + Earned(r.state, row.cfg, cur).events + [] == r.events + Earned(r.state, row.cfg, cur).events;
  }

  lemma FirstEarn(freezes: int)
    requires 0 <= freezes <= 1
    ensures ValidConfig(Daily(freezes)) && Sound(NewState(Daily(freezes)), Daily(freezes))
    ensures var cfg := Daily(freezes); var r := Settled(NewState(cfg), cfg, 100);
            r.events == [] && Earned(r.state, cfg, 100) == Outcome(FirstDay(freezes).state, FirstDay(freezes).log)
  {
    var cfg := Daily(freezes);
    DailyValid(freezes);
    hide ValidConfig, ScheduledOn, Aligned, Earned;
    var r := Settled(NewState(cfg), cfg, 100);
    assert r == Outcome(State(0, 0, NO_DATE, 99, freezes, 0), []);
    DailyEarned(r.state, freezes, 100);
  }

  lemma FirstRow(freezes: int)
    requires 0 <= freezes <= 1
    ensures Valid(NewRow(Daily(freezes))) && Clocked(Clock(100, 10, 0), UTC, Daily(freezes))
    ensures Recorded(NewRow(Daily(freezes)), Clock(100, 10, 0), Clock(100, 10, 0), 1, UTC, 0).row == FirstDay(freezes)
  {
    var row, now := NewRow(Daily(freezes)), Clock(100, 10, 0);
    DailyValid(freezes);
    NewRowValid(Daily(freezes));
    DailyKeys(100, 10, 0, freezes);
    FirstEarn(freezes);
    hide ValidConfig, Sound, Counted, ScheduledOn, PeriodKey, Aligned, Recorded, Earned, Settled, CountKind;
    PlainRecord(row, now, UTC, 0);
    CountNone(FirstDay(freezes).log, EventKind.Broken);
    assert Recorded(row, now, now, 1, UTC, 0).row.log == FirstDay(freezes).log;
    assert Recorded(row, now, now, 1, UTC, 0).row.marks == FirstDay(freezes).marks;
  }

  lemma FirstStep(freezes: int)
    requires 0 <= freezes <= 1
    ensures Valid(NewRow(Daily(freezes))) && Valid(FirstDay(freezes))
    ensures var s := Session(NewRow(Daily(freezes)), UTC);
            Possible(s, FirstRecord()) && Step(s, FirstRecord()) == Session(FirstDay(freezes), UTC)
  {
    hide Valid, Clocked, Recorded, NewRow, FirstDay, Daily, Clock;
    FirstRow(freezes);
    NewRowConfig(Daily(freezes));
    RecordedValid(NewRow(Daily(freezes)), Clock(100, 10, 0), Clock(100, 10, 0), 1, UTC, 0);
  }

  lemma NewRowConfig(cfg: Config)
    ensures NewRow(cfg).cfg == cfg
  {
  }

  lemma AfterFirstRecord(freezes: int)
    requires 0 <= freezes <= 1
    ensures Valid(FirstDay(freezes))
    ensures var s := Session(NewRow(Daily(freezes)), UTC);
            CanRun(s, [FirstRecord()]) && Run(s, [FirstRecord()]) == Session(FirstDay(freezes), UTC)
  {
    hide Valid, Possible, Step, FirstDay, FirstRecord, Daily, NewRow, CanRun, Run;
    var s := Session(NewRow(Daily(freezes)), UTC);
    FirstStep(freezes);
    EmptyRun(s);
    RunOn(s, [], FirstRecord());
    assert [] + [FirstRecord()] == [FirstRecord()];
  }

  lemma EmptyRun(s: Session)
    requires Valid(s.row)
    ensures CanRun(s, []) && Run(s, []) == s
  {
  }

  /** Just after midnight, an activity of the day that has ended: 00:02 for 23:58. */
  function LateRecord(day: Date): Call {
    Call(Clock(day + 1, 0, 2), 0, Record(Clock(day, 23, 58), 1))
  }

  /** FirstDay after a late record of a later day. */
  function SecondDay(freezes: int, day: Date): Row {
    Row(Daily(freezes), State(2, 2, day, day, freezes, 0), map[100 := 1, day := 1],
        [Event(Extended, 100, 1), Event(Extended, day, 2)], 0, {})
  }

  lemma LateEarn(freezes: int, day: Date)
    requires 0 <= freezes <= 1 && day > 100
    ensures var cfg := Daily(freezes); var s := FirstDay(freezes).state;
            && ValidConfig(cfg) && Sound(s, cfg) && Current(day, cfg) && Current(day + 1, cfg)
            && Advance(s, cfg, day, day + 1, 1) == Outcome(SecondDay(freezes, day).state, [Event(Extended, day, 2)])
  {
    var cfg, s := Daily(freezes), FirstDay(freezes).state;
    DailyValid(freezes);
    DailyEarned(s, freezes, day);
    DailySettled(Earned(s, cfg, day).state, freezes, day + 1);
    hide ValidConfig, Settled, Earned, Aligned;
    SettledSound(s, cfg, day + 1);
    assert [] + [Event(Extended, day, 2)] + [] == [Event(Extended, day, 2)];
  }

  lemma LateRow(freezes: int, day: Date)
    requires 0 <= freezes <= 1 && day > 100
    ensures var row, now, at := FirstDay(freezes), Clock(day + 1, 0, 2), Clock(day, 23, 58);
            && Valid(row) && Clocked(now, UTC, row.cfg) && Clocked(at, UTC, row.cfg)
            && BranchOf(row, now, at, UTC).InGrace?
            && Recorded(row, now, at, 1, UTC, 0).row == SecondDay(freezes, day)
            && Recorded(row, now, at, 1, UTC, 0).reply.Done?
  {
    var row, now, at := FirstDay(freezes), Clock(day + 1, 0, 2), Clock(day, 23, 58);
    FirstStep(freezes);
    LateEarn(freezes, day);
    DailyKeys(day, 23, 58, freezes);
    DailyKeys(day + 1, 0, 2, freezes);
    assert now - at == 240 * NANOS;
    hide ValidConfig, Sound, Counted, Current, ScheduledOn, PeriodKey, Aligned, Advance, CountKind, ViewOf, Clock;
    CountNone([Event(Extended, day, 2)], EventKind.Broken);
    var r := Recorded(row, now, at, 1, UTC, 0).row;
    assert r.log == SecondDay(freezes, day).log;
    assert r.marks == SecondDay(freezes, day).marks;
  }

  lemma LateStep(freezes: int, day: Date)
    requires 0 <= freezes <= 1 && day > 100
    ensures Valid(FirstDay(freezes)) && Valid(SecondDay(freezes, day))
    ensures var s, c := Session(FirstDay(freezes), UTC), LateRecord(day);
            && Possible(s, c) && Step(s, c) == Session(SecondDay(freezes, day), UTC)
            && BranchOf(s.row, c.now, c.op.at, UTC).InGrace?
            && Recorded(s.row, c.now, c.op.at, 1, UTC, 0).reply.Done?
  {
    hide Valid, Clocked, Recorded, FirstDay, SecondDay, Clock, BranchOf;
    LateRow(freezes, day);
    RecordedValid(FirstDay(freezes), Clock(day + 1, 0, 2), Clock(day, 23, 58), 1, UTC, 0);
  }
}
