/** ShiftHistory as time travel (internal/engine/history.go, internal/store/store.go). */
module History {
  import opened Calendar
  import opened Configs
  import opened Periods
  import opened Boundaries
  import opened Transition
  import opened Derive
  import opened Replay
  import opened Rows
  import opened Sessions

  /** The day's schedule repeats after n days: no rest days, or whole weeks. */
  predicate Repeats(cfg: Config, n: int)
    requires ValidConfig(cfg)
  {
    cfg.weekdayMask == "" || n % 7 == 0 || forall i | 0 <= i < 7 :: cfg.weekdayMask[i] == '1'
  }

  lemma RepeatsSchedule(cfg: Config, n: int, d: Date)
    requires ValidConfig(cfg) && Repeats(cfg, n)
    ensures ScheduledOn(d - n, cfg) == ScheduledOn(d, cfg)
  {
    if n % 7 == 0 {
      assert (d - n + 1) % 7 == (d + 1) % 7;
    }
  }

  lemma {:induction false} FirstScheduledShift(d: Date, cfg: Config, k: nat, n: int)
    requires ValidConfig(cfg) && Repeats(cfg, n)
    ensures FirstScheduled(d - n, cfg, k) == FirstScheduled(d, cfg, k) - n
    decreases k
  {
    hide ValidConfig, ScheduledOn, Repeats;
    RepeatsSchedule(cfg, n, d);
    if k > 0 {
      FirstScheduledShift(d + 1, cfg, k - 1, n);
    }
  }

  lemma NextShift(p: Date, cfg: Config, n: int)
    requires ValidConfig(cfg) && Repeats(cfg, n) && cfg.period.Day?
    ensures Next(p - n, cfg) == Next(p, cfg) - n
  {
    hide ValidConfig, ScheduledOn, Repeats;
    FirstScheduledShift(p + 1, cfg, 6, n);
  }

  function ShiftDates(dates: seq<Date>, n: int): seq<Date> {
    seq(|dates|, i requires 0 <= i < |dates| => dates[i] - n)
  }

  lemma {:induction false} ActiveBetweenShift(from: Date, end: Date, cfg: Config, n: int)
    requires ValidConfig(cfg) && Repeats(cfg, n) && cfg.period.Day?
    ensures Aligned(from, cfg) && Aligned(from - n, cfg)
    ensures ActiveBetween(from - n, end - n, cfg) == ShiftDates(ActiveBetween(from, end, cfg), n)
    decreases end - from
  {
    hide ValidConfig, ScheduledOn, Next, Repeats;
    assert Aligned(from, cfg) && Aligned(from - n, cfg);
    NextIsLeast(from, cfg);
    NextShift(from, cfg, n);
    if Next(from, cfg) < end {
      ActiveBetweenShift(Next(from, cfg), end, cfg, n);
    }
  }

  lemma {:induction false} StepsShift(p: Date, cfg: Config, k: nat, n: int)
    requires ValidConfig(cfg) && Repeats(cfg, n) && cfg.period.Day?
    ensures Steps(p - n, cfg, k) == Steps(p, cfg, k) - n
    decreases k
  {
    hide ValidConfig, ScheduledOn, Next, Repeats;
    if k > 0 {
      NextShift(p, cfg, n);
      StepsShift(Next(p, cfg), cfg, k - 1, n);
    }
  }

  /** A shift that keeps both pointers after the zero date. */
  ghost predicate CanShiftState(s: State, n: int) {
    n > 0 && (s.lastEarned == NO_DATE || s.lastEarned > n) && (s.settledThrough == NO_DATE || s.settledThrough > n)
  }

  /** The shifted state reads at period k as the original reads at k + n. */
  ghost predicate ReadsAlike(s: State, cfg: Config, n: int, k: Date, zone: Zone)
    requires ValidConfig(cfg) && Sound(s, cfg)
  {
    && Sound(ShiftState(s, n), cfg)
    && var moved, kept := DerivedAt(ShiftState(s, n), cfg, k, zone), DerivedAt(s, cfg, k + n, zone);
       && moved.(currentPeriod := k + n, lossAt := kept.lossAt) == kept
       && (moved.lossAt.Some? <==> kept.lossAt.Some?)
  }

  lemma ShiftSound(s: State, cfg: Config, n: int)
    requires Sound(s, cfg) && CanShiftState(s, n) && cfg.period.Day?
    ensures Sound(ShiftState(s, n), cfg)
  {
  }

  /** For day streaks whose schedule repeats after n days, every field of the view is translated: the current
      period by n days, the deadline by n days of the zone's clock, and the rest not at all. */
  lemma ShiftIsTimeTravel(s: State, cfg: Config, n: int, k: Date, zone: Zone)
    requires ValidConfig(cfg) && Sound(s, cfg) && CanShiftState(s, n) && cfg.period.Day? && Repeats(cfg, n)
    requires k > NO_DATE
    ensures ReadsAlike(s, cfg, n, k, zone)
    ensures var moved, kept := DerivedAt(ShiftState(s, n), cfg, k, zone), DerivedAt(s, cfg, k + n, zone);
            FixedZone(zone) && kept.lossAt.Some? ==> moved.lossAt.value == kept.lossAt.value - NANOS * DAY_SECONDS * n
  {
    hide ValidConfig, ScheduledOn, Next, Repeats, ActiveBetween, PeriodEnd;
    ShiftSound(s, cfg, n);
    if s.lastEarned != NO_DATE {
      ActiveBetweenShift(Later(s.lastEarned, s.settledThrough), k + n, cfg, n);
      LossPeriodShift(k, s.lastEarned, s.freezes, cfg, n, zone);
      var d := DerivedAt(s, cfg, k + n, zone);
      LossPeriodShift(k, s.lastEarned, d.freezesAfterSpend, cfg, n, zone);
    }
  }

  lemma LossPeriodShift(k: Date, lastEarned: Date, freezes: int, cfg: Config, n: int, zone: Zone)
    requires ValidConfig(cfg) && cfg.period.Day? && Repeats(cfg, n) && lastEarned > n > 0
    ensures var p, q := LossPeriod(k, lastEarned - n, freezes, cfg), LossPeriod(k + n, lastEarned, freezes, cfg);
            p == q - n &&
            (FixedZone(zone) ==> PeriodEnd(p, zone, cfg) == PeriodEnd(q, zone, cfg) - NANOS * DAY_SECONDS * n)
  {
    hide ValidConfig, ScheduledOn, Next, Repeats, Steps;
    NextShift(lastEarned, cfg, n);
    NextShift(k + n, cfg, n);
    RepeatsSchedule(cfg, n, k + n);
    StepsShift(FirstAtRisk(k + n, lastEarned, cfg), cfg, Spare(cfg, freezes), n);
    var q := LossPeriod(k + n, lastEarned, freezes, cfg);
    var m := 60 * cfg.boundaryOffsetMin;
    if FixedZone(zone) {
      assert AtWall(DAY_SECONDS * (q + 1) + m, zone) == NANOS * (DAY_SECONDS * (q + 1) + m - zone(0));
      assert AtWall(DAY_SECONDS * (q - n + 1) + m, zone) == NANOS * (DAY_SECONDS * (q - n + 1) + m - zone(0));
    }
  }

  lemma {:induction false} ChargeShift(s: State, auto: bool, missed: seq<Date>, n: int)
    ensures var r, q := Charge(s, auto, missed), Charge(ShiftState(s, n), auto, ShiftDates(missed, n));
            && q.state == ShiftState(r.state, n) && |q.events| == |r.events|
            && forall i | 0 <= i < |r.events| :: q.events[i] == r.events[i].(period := r.events[i].period - n)
    decreases |missed|
  {
    if missed != [] && s.count != 0 && auto && s.freezes > 0 {
      assert ShiftDates(missed, n)[1..] == ShiftDates(missed[1..], n);
      ChargeShift(s.(freezes := s.freezes - 1), auto, missed[1..], n);
    }
  }

  /** Settling, too, is translated: the shifted streak settled at k charges the same periods, n days earlier. */
  lemma SettleShift(s: State, cfg: Config, n: int, k: Date)
    requires ValidConfig(cfg) && Sound(s, cfg) && CanShiftState(s, n) && cfg.period.Day? && Repeats(cfg, n)
    requires k > 1
    ensures Sound(ShiftState(s, n), cfg)
    ensures var r, q := Settled(s, cfg, k + n), Settled(ShiftState(s, n), cfg, k);
            && q.state == ShiftState(r.state, n) && |q.events| == |r.events|
            && forall i | 0 <= i < |r.events| :: q.events[i] == r.events[i].(period := r.events[i].period - n)
  {
    hide ValidConfig, ScheduledOn, Next, Repeats, ActiveBetween;
    ShiftSound(s, cfg, n);
    if s.lastEarned != NO_DATE {
      ActiveBetweenShift(Later(s.lastEarned, s.settledThrough), k + n, cfg, n);
      ChargeShift(s, cfg.freezes.autoConsume, Pending(s, cfg, k + n), n);
      ChargeFrame(s, cfg.freezes.autoConsume, Pending(s, cfg, k + n));
    }
  }

  /** No two marks collide and no amount changes. */
  lemma ShiftKeepsMark(marks: map<Date, int>, n: int, q: Date)
    ensures q in ShiftMarks(marks, n) <==> q + n in marks
    ensures q + n in marks ==> ShiftMarks(marks, n)[q] == marks[q + n]
  {
    var moved := ShiftMarks(marks, n);
    assert q + n in marks ==> (q + n) - n in moved;
  }

  lemma ShiftDatesMember(dates: seq<Date>, n: int, q: Date)
    ensures q in ShiftDates(dates, n) <==> q + n in dates
  {
    var moved := ShiftDates(dates, n);
    if q + n in dates {
      var i :| 0 <= i < |dates| && dates[i] == q + n;
      assert moved[i] == q;
    }
  }

  /** The shifted ledger is the ledger, shifted: every mark keeps its amount and stays earned or unearned. */
  lemma ShiftKeepsLedger(marks: map<Date, int>, minAmount: int, n: int)
    ensures forall q :: q in ShiftMarks(marks, n) <==> q + n in marks
    ensures forall q | q in ShiftMarks(marks, n) :: ShiftMarks(marks, n)[q] == Amount(marks, q + n)
    ensures EarnedPeriods(ShiftMarks(marks, n), minAmount) == ShiftDates(EarnedPeriods(marks, minAmount), n)
  {
    hide ShiftMarks, ShiftDates;
    var shifted, ledger := ShiftMarks(marks, n), EarnedPeriods(marks, minAmount);
    var moved := ShiftDates(ledger, n);
    ShiftAscending(ledger, n);
    forall q
      ensures q in shifted <==> q + n in marks
      ensures q in shifted ==> shifted[q] == Amount(marks, q + n)
      ensures q in moved <==> q in shifted && shifted[q] >= minAmount
    {
      ShiftKeepsMark(marks, n, q);
      ShiftDatesMember(ledger, n, q);
    }
    LedgerUnique(EarnedPeriods(shifted, minAmount), moved);
  }

  /** What ShiftHistory stores of a day streak: every mark n days earlier with its amount, the ledger with them, no
      claims, and nothing else changed but the two pointers. */
  lemma ShiftedRow(row: Row, n: int, q: Date)
    requires Valid(row) && row.cfg.period.Day? && n > 0
    ensures var row' := Shifted(row, n);
            && (q in row'.marks <==> q + n in row.marks) && Amount(row'.marks, q) == Amount(row.marks, q + n)
            && EarnedPeriods(row'.marks, row.cfg.minAmount)
               == ShiftDates(EarnedPeriods(row.marks, row.cfg.minAmount), n)
            && row'.claims == {} && row'.log == row.log && row'.brokenAt == row.brokenAt
            && row'.state
               == row.state.(lastEarned := row'.state.lastEarned, settledThrough := row'.state.settledThrough)
            && row'.state.lastEarned == (if row.state.lastEarned == NO_DATE then NO_DATE else row.state.lastEarned - n)
            && row'.state.settledThrough
               == (if row.state.settledThrough == NO_DATE then NO_DATE else row.state.settledThrough - n)
  {
    hide Valid, EarnedPeriods, IsLedger, ShiftMarks, ShiftDates;
    assert EarnedPeriods(ShiftMarks(row.marks, n), row.cfg.minAmount)
        == ShiftDates(EarnedPeriods(row.marks, row.cfg.minAmount), n) by {
      ShiftKeepsLedger(row.marks, row.cfg.minAmount, n);
    }
    ShiftKeepsMark(row.marks, n, q);
  }

  lemma ShiftAscending(dates: seq<Date>, n: int)
    requires Ascending(dates)
    ensures Ascending(ShiftDates(dates, n))
  {
  }

  // ---------------------------------------------------------------- exactly when

  /** If weekday i is scheduled, so is the one r days before it. */
  predicate Carries(mask: string, i: int, r: int)
    requires |mask| == 7
  {
    mask[i % 7] == '1' ==> mask[(i - r) % 7] == '1'
  }

  /** A weekly mask whose scheduled days are scheduled r days before, too, has no rest days, 7 being prime. */
  lemma RotationAllOnes(mask: string, r: int)
    requires |mask| == 7 && 0 < r < 7 && '1' in mask
    requires forall i | 0 <= i < 7 :: Carries(mask, i, r)
    ensures forall i | 0 <= i < 7 :: mask[i] == '1'
  {
    assert Carries(mask, 0, r) && Carries(mask, 1, r) && Carries(mask, 2, r) && Carries(mask, 3, r)
        && Carries(mask, 4, r) && Carries(mask, 5, r) && Carries(mask, 6, r);
  }

  /** Otherwise some scheduled day lands on a rest day. */
  lemma ScheduleBroken(cfg: Config, n: int) returns (d: Date)
    requires ValidConfig(cfg) && cfg.period.Day? && !Repeats(cfg, n)
    ensures ScheduledOn(d, cfg) && !ScheduledOn(d - n, cfg) && d > 1000 + n
  {
    var mask := cfg.weekdayMask;
    var r := n % 7;
    assert exists i :: 0 <= i < 7 && !Carries(mask, i, r) by {
      if forall i | 0 <= i < 7 :: Carries(mask, i, r) { RotationAllOnes(mask, r); }
    }
    var i :| 0 <= i < 7 && !Carries(mask, i, r);
    var m := Max(n, 0) + 200;
    d := 7 * m + i - 1;
    WholeWeeks(m, i);
    WholeWeeks(m - n / 7, i - r);
    hide ISOWeekday;
    assert ISOWeekday(d) == i % 7 + 1 by { Weekdays(d); }
    assert ISOWeekday(d - n) == (i - r) % 7 + 1 by { Weekdays(d - n); }
  }

  /** The scheduled day before d, searched from an earlier one. */
  lemma {:induction false} ScheduledBefore(e: Date, d: Date, cfg: Config) returns (f: Date)
    requires ValidConfig(cfg) && cfg.period.Day? && e < d && ScheduledOn(e, cfg) && ScheduledOn(d, cfg)
    ensures e <= f < d && ScheduledOn(f, cfg) && Next(f, cfg) == d
    decreases d - e
  {
    hide ValidConfig, ScheduledOn, Next;
    assert Aligned(e, cfg) && Active(d, cfg);
    NextIsLeast(e, cfg);
    if Next(e, cfg) == d { return e; }
    f := ScheduledBefore(Next(e, cfg), d, cfg);
  }

  lemma Weekdays(d: Date)
    ensures ISOWeekday(d) == (d + 1) % 7 + 1
  {
  }

  lemma WholeWeeks(m: int, a: int)
    ensures (7 * m + a) % 7 == a % 7
  {
  }

  /** What the first record, on day e, and SetFreezes(0) store. */
  ghost predicate IsFirstState(s: State, cfg: Config, e: Date)
    requires ValidConfig(cfg)
  {
    Sound(s, cfg) && Sound(NewState(cfg), cfg)
    && s == Earned(Settled(NewState(cfg), cfg, e).state, cfg, e).state.(freezes := 0)
  }

  function FirstState(cfg: Config, e: Date): State
    requires ValidConfig(cfg)
  {
    Earned(NewState(cfg).(settledThrough := PrevPeriod(e, cfg)), cfg, e).state.(freezes := 0)
  }

  lemma FirstStateStored(cfg: Config, e: Date)
    requires ValidConfig(cfg) && Current(e, cfg)
    ensures IsFirstState(FirstState(cfg, e), cfg, e)
  {
    hide ValidConfig, Aligned, PrevPeriod, Earned, Settled;
    NewStateSound(cfg);
    SettleFresh(NewState(cfg), cfg, e);
    SettledSound(NewState(cfg), cfg, e);
    EarnedSound(Settled(NewState(cfg), cfg, e).state, cfg, e);
  }

  /** So shifting by n days is time travel for every streak of the configuration if and only if its schedule
      repeats after n days; otherwise it already fails for a streak with a single record. */
  lemma TimeTravelIff(cfg: Config, n: int, zone: Zone)
    requires ValidConfig(cfg) && cfg.period.Day? && n > 0
    ensures Repeats(cfg, n) <==>
            forall s: State, k: Date :: Sound(s, cfg) && CanShiftState(s, n) && k > NO_DATE
                ==> ReadsAlike(s, cfg, n, k, zone)
    ensures !Repeats(cfg, n) ==>
              exists e: Date, k: Date :: Current(e, cfg) && ScheduledOn(e, cfg) && k > NO_DATE
                && IsFirstState(FirstState(cfg, e), cfg, e) && CanShiftState(FirstState(cfg, e), n)
                && !ReadsAlike(FirstState(cfg, e), cfg, n, k, zone)
  {
    if Repeats(cfg, n) {
      forall s: State, k: Date | Sound(s, cfg) && CanShiftState(s, n) && k > NO_DATE
        ensures ReadsAlike(s, cfg, n, k, zone)
      {
        ShiftIsTimeTravel(s, cfg, n, k, zone);
      }
    } else {
      var e, k := ShiftUnlike(cfg, n, zone);
    }
  }

  lemma ShiftUnlike(cfg: Config, n: int, zone: Zone) returns (e: Date, k: Date)
    requires ValidConfig(cfg) && cfg.period.Day? && n > 0 && !Repeats(cfg, n)
    ensures Current(e, cfg) && ScheduledOn(e, cfg) && k > NO_DATE
    ensures IsFirstState(FirstState(cfg, e), cfg, e) && CanShiftState(FirstState(cfg, e), n)
    ensures !ReadsAlike(FirstState(cfg, e), cfg, n, k, zone)
  {
    hide ValidConfig, ScheduledOn, Repeats, LossPeriod, PeriodEnd, Next, MilestoneEvents;
    var d := ScheduleBroken(cfg, n);
    assert ScheduledOn(d - 7, cfg) by { WeekBefore(d, cfg); }
    e := ScheduledBefore(d - 7, d, cfg);
    assert Aligned(e, cfg) && Aligned(e - n, cfg);
    NextIsLeast(e, cfg);
    NextIsLeast(e - n, cfg);
    k := if Next(e - n, cfg) < d - n then d - n else d + 1 - n;
    FirstStateStored(cfg, e);
    var s := FirstState(cfg, e);
    assert s.count == 1 && s.lastEarned == e && s.settledThrough == e - 1;
    ShiftSound(s, cfg, n);
    assert |ActiveBetween(e, k + n, cfg)| > 0 <==> |ActiveBetween(e - n, k, cfg)| == 0;
  }

  lemma WeekBefore(d: Date, cfg: Config)
    requires ValidConfig(cfg)
    ensures ScheduledOn(d - 7, cfg) == ScheduledOn(d, cfg)
  {
  }
}
