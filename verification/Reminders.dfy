/** At-risk reminders (internal/engine/scheduler.go, internal/store/store.go): in time, and once a day. */
module Reminders {
  import opened Calendar
  import opened Configs
  import opened Periods
  import opened Boundaries
  import opened Transition
  import opened Derive
  import opened Replay
  import opened Prophecy
  import opened Rows
  import opened Sessions
  import opened Travel

  /** A reminder comes before the deadline, and the day it is sent for is the first one at risk, if and only if
      that day can still be earned; when it is and no freeze would be spent, the deadline is the day's own end. */
  lemma ReminderInTime(row: Row, seen: Candidate, now: Instant)
    requires Valid(row) && Plausible(seen, now, row.cfg) && FixedZone(seen.zone) && Reminds(row, seen, now)
    ensures var cfg, s, cur := row.cfg, row.state, PeriodKey(now, seen.zone, row.cfg);
            var d := DerivedAt(s, cfg, cur, seen.zone);
            && d.lossAt.Some? && now < d.lossAt.value
            && (FirstAtRisk(cur, s.lastEarned, cfg) == cur <==> Earns(s, cfg, cur))
            && (Earns(s, cfg, cur) && Spare(cfg, d.freezesAfterSpend) == 0 ==>
                  d.lossAt.value == PeriodEnd(cur, seen.zone, cfg))
  {
    hide ValidConfig, Aligned, PeriodKey, PeriodEnd, ActiveBetween, AtWall, ScheduledOn, Next;
    var cfg, s, cur := row.cfg, row.state, PeriodKey(now, seen.zone, row.cfg);
    var d := DerivedAt(s, cfg, cur, seen.zone);
    var first := FirstAtRisk(cur, s.lastEarned, cfg);
    FirstAtRiskIsNext(cur, s.lastEarned, cfg);
    NextIsLeast(Later(s.lastEarned, PrevPeriod(cur, cfg)), cfg);
    if s.lastEarned >= cur { NextIsLeast(s.lastEarned, cfg); }
    StepsOrder(first, first, cfg, Spare(cfg, d.freezesAfterSpend));
    BoundaryAdjoint(now, LossPeriod(cur, s.lastEarned, d.freezesAfterSpend, cfg), seen.zone, cfg);
  }

  /** Exactly when a reminder is sent, in a fixed zone: for a day streak with a reminder time, once the wall clock of
      the civil day has reached it, to a streak that is alive with what it has missed, whose current day is scheduled,
      is not earned and has not been reminded of.  The event shows the day and the count. */
  lemma ReminderSentIff(row: Row, seen: Candidate, now: Instant)
    requires Valid(row) && Plausible(seen, now, row.cfg) && FixedZone(seen.zone)
    ensures var cfg, s, cur := row.cfg, row.state, PeriodKey(now, seen.zone, row.cfg);
            var due := cfg.period.Day? && cfg.reminderMinute.Some?
                       && WallSecond(now, seen.zone) - 86_400 * cur >= 60 * cfg.reminderMinute.value;
            var alive := s.lastEarned != NO_DATE && s.count > 0
                         && |Pending(s, cfg, cur)| <= if cfg.freezes.autoConsume then s.freezes else 0;
            Reminded(row, seen, now) ==
              if due && seen.state.count > 0 && alive && s.lastEarned != cur && ScheduledOn(cur, cfg)
                 && cur !in row.claims
              then row.(claims := row.claims + {cur}, log := row.log + [Event(AtRisk, cur, s.count)])
              else row
  {
    hide ValidConfig, Aligned, PeriodKey, PeriodEnd, LossPeriod, ActiveBetween, ScheduledOn, Counted, AtWall;
    var cur := PeriodKey(now, seen.zone, row.cfg);
    if row.cfg.reminderMinute.Some? {
      WallReached(now, DAY_SECONDS * cur + 60 * row.cfg.reminderMinute.value, seen.zone);
    }
  }

  /** In a fixed zone the wall clock reads w or later from AtWall(w) on. */
  lemma WallReached(t: Instant, w: int, zone: Zone)
    requires FixedZone(zone)
    ensures t >= AtWall(w, zone) <==> WallSecond(t, zone) >= w
  {
    assert zone(t / NANOS) == zone(0) && AtWall(w, zone) == NANOS * (w - zone(0));
  }

  const REMINDING: set<EventKind> := {AtRisk}

  predicate Distinct(dates: seq<Date>) {
    forall i, j | 0 <= i < j < |dates| :: dates[i] != dates[j]
  }

  /** Since position n of the outbox no day has been reminded twice, nor one that had been claimed before. */
  ghost predicate RemindedOnce(row: Row, n: nat, before: set<Date>) {
    && n <= |row.log| && before <= row.claims && Distinct(PeriodsOf(row.log[n..], REMINDING))
    && forall p | p in PeriodsOf(row.log[n..], REMINDING) :: p in row.claims && p !in before
  }

  /** The row has gained events, but no reminder and no claim. */
  ghost predicate Grows(row: Row, row': Row, events: seq<Event>) {
    && row'.log == row.log + events && row'.claims == row.claims
    && forall i | 0 <= i < |events| :: !events[i].kind.AtRisk?
  }

  lemma OnceWhileGrowing(row: Row, row': Row, events: seq<Event>, n: nat, before: set<Date>)
    requires RemindedOnce(row, n, before) && Grows(row, row', events)
    ensures RemindedOnce(row', n, before)
  {
    assert row'.log[n..] == row.log[n..] + events;
    PeriodsConcat(row.log[n..], events, REMINDING);
    PeriodsUniform(events, REMINDING, false);
    assert PeriodsOf(row'.log[n..], REMINDING) == PeriodsOf(row.log[n..], REMINDING);
  }

  lemma OnceAfterReminder(row: Row, seen: Candidate, now: Instant, n: nat, before: set<Date>)
    requires Valid(row) && RemindedOnce(row, n, before)
    ensures RemindedOnce(Reminded(row, seen, now), n, before)
  {
    hide ValidConfig, Sound, Counted, PeriodKey, DerivedAt, AtWall, PeriodsOf, ScheduledOn;
    var row' := Reminded(row, seen, now);
    if Reminds(row, seen, now) {
      var e := row'.log[|row.log|];
      assert row'.log[n..] == row.log[n..] + [e];
      PeriodsConcat(row.log[n..], [e], REMINDING);
      PeriodsOfOne(e, REMINDING);
    }
  }

  lemma RecordGrows(row: Row, now: Instant, at: Instant, amount: int, zone: Zone, db: Instant)
    returns (events: seq<Event>)
    requires Valid(row) && Clocked(now, zone, row.cfg) && Clocked(at, zone, row.cfg)
    ensures Grows(row, Recorded(row, now, at, amount, zone, db).row, events)
  {
    hide ValidConfig, Sound, Current, Counted, PeriodKey, Settled, Earned, ViewOf, CountKind;
    if BranchOf(row, now, at, zone).Outside? { return []; }
    var cfg := row.cfg;
    var p, cur := PeriodKey(at, zone, cfg), PeriodKey(now, zone, cfg);
    var total := Amount(row.marks, p) + Max(amount, 1);
    SettledSound(row.state, cfg, cur);
    SettledKinds(row.state, cfg, cur);
    var r := if p == cur then Settled(row.state, cfg, cur) else Outcome(row.state, []);
    EarnedSound(r.state, cfg, p);
    EarnedEvents(r.state, cfg, p);
    var a := if total >= cfg.minAmount then Earned(r.state, cfg, p) else Outcome(r.state, []);
    SettledKinds(a.state, cfg, cur);
    events := Advance(row.state, cfg, p, cur, total).events;
  }

  lemma CallGrows(s: Session, c: Call) returns (events: seq<Event>)
    requires Valid(s.row) && Possible(s, c) && !c.op.RemindTick? && !c.op.ShiftHistory? && !c.op.ReplaceHistory?
    ensures Grows(s.row, Step(s, c).row, events)
  {
    hide ValidConfig, Sound, Current, Counted, PeriodKey, Settled, Recorded, CountKind, ViewOf, Skipped, LatestBreak;
    hide Replayed, PrevPeriod, EarnedPeriods;
    events := [];
    match c.op
    case Record(at, amount) => events := RecordGrows(s.row, c.now, at, amount, s.zone, c.db);
    case SettleTick(seen) =>
      var cur := PeriodKey(c.now, seen.zone, s.row.cfg);
      if !Skipped(seen.state, s.row.cfg, cur) {
        SettledKinds(s.row.state, s.row.cfg, cur);
        events := Settled(s.row.state, s.row.cfg, cur).events;
      }
    case SetTimezone(target) =>
      var cur := PeriodKey(c.now, s.zone, s.row.cfg);
      SettledKinds(s.row.state, s.row.cfg, cur);
      events := Settled(s.row.state, s.row.cfg, cur).events;
    case Repair =>
      var cur := PeriodKey(c.now, s.zone, s.row.cfg);
      var r := Settled(s.row.state, s.row.cfg, cur);
      SettledKinds(s.row.state, s.row.cfg, cur);
      if RepairedRow(s.row, c.now, s.zone, c.db).reply.Done? {
        var e := Event(Repaired, cur, Step(s, c).row.state.count);
        events := r.events + [e];
        assert (s.row.log + r.events) + [e] == s.row.log + events;
      }
    case Unrecord =>
    case Recount =>
    case SetFreezes(_) =>
  }

  /** Operations that keep the reminder claims; the others are the two history rewrites. */
  predicate KeepsClaims(calls: seq<Call>) {
    forall i | 0 <= i < |calls| :: !calls[i].op.ShiftHistory? && !calls[i].op.ReplaceHistory?
  }

  lemma {:induction false} StaysOnce(s: Session, calls: seq<Call>, n: nat, before: set<Date>)
    requires CanRun(s, calls) && KeepsClaims(calls) && RemindedOnce(s.row, n, before)
    ensures RemindedOnce(Run(s, calls).row, n, before)
    decreases |calls|
  {
    hide Valid, Possible, Step, RemindedOnce, Grows;
    if calls != [] {
      var c := calls[0];
      if c.op.RemindTick? {
        ReminderStep(s, c);
        OnceAfterReminder(s.row, c.op.seen, c.now, n, before);
      } else {
        var events := CallGrows(s, c);
        OnceWhileGrowing(s.row, Step(s, c).row, events, n, before);
      }
      StaysOnce(Step(s, c), calls[1..], n, before);
    }
  }

  lemma ReminderStep(s: Session, c: Call)
    requires Valid(s.row) && Possible(s, c) && c.op.RemindTick?
    ensures Step(s, c).row == Reminded(s.row, c.op.seen, c.now)
  {
  }

  /** Once a day over runs.  From any point on, until a history rewrite drops the claims, the reminders sent are
      for pairwise different days, none of them claimed at the start and all of them claimed at the end, whatever
      records, passes, zone changes, repairs, recounts and grants come in between. */
  lemma ReminderOnce(s: Session, calls: seq<Call>)
    requires CanRun(s, calls) && KeepsClaims(calls)
    ensures |s.row.log| <= |Run(s, calls).row.log|
    ensures var row := Run(s, calls).row; var days := PeriodsOf(row.log[|s.row.log|..], REMINDING);
            && Distinct(days) && s.row.claims <= row.claims
            && forall p | p in days :: p in row.claims && p !in s.row.claims
  {
    hide Valid, Possible, Step, CanRun, Run;
    assert s.row.log[|s.row.log|..] == [];
    StaysOnce(s, calls, |s.row.log|, s.row.claims);
  }
}
