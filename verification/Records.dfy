/** What a Record call accepts, stores and replies (internal/engine/record.go), with the limits of
    internal/engine/engine.go as numbers. */
module Records {
  import opened Calendar
  import opened Configs
  import opened Periods
  import opened Transition
  import opened Derive
  import opened ClosedForm
  import opened Downtime
  import opened Replay
  import opened Grace
  import opened Rows
  import opened Sessions

  /** An activity is accepted exactly when it is at most a minute ahead of the clock and falls in the current
      period, or when it is at most ten minutes old and its period, though over, has not been settled and is later
      than every earned one.  Otherwise nothing changes. */
  lemma RecordAcceptedIff(row: Row, now: Instant, at: Instant, amount: int, zone: Zone, db: Instant)
    requires Valid(row) && Clocked(now, zone, row.cfg) && Clocked(at, zone, row.cfg)
    ensures var p, cur := PeriodKey(at, zone, row.cfg), PeriodKey(now, zone, row.cfg);
            var r := Recorded(row, now, at, amount, zone, db);
            && (r.reply.Done? <==>
                  at - now <= 60 * 1_000_000_000 &&
                  (p == cur || (p < cur && now - at <= 10 * 60 * 1_000_000_000
                                && row.state.settledThrough < p && row.state.lastEarned < p)))
            && (r.reply.Failed? ==> r == Result(row, Failed(OutsidePeriod)))
  {
    hide Valid, PeriodKey, Current, Advance, Persist, ViewOf;
  }

  /** An accepted activity adds its amount, at least 1, to its own period and to no other, and the reply shows the
      amount of the current period. */
  lemma RecordedAmounts(row: Row, now: Instant, at: Instant, amount: int, zone: Zone, db: Instant, q: Date)
    requires Valid(row) && Clocked(now, zone, row.cfg) && Clocked(at, zone, row.cfg)
    requires Recorded(row, now, at, amount, zone, db).reply.Done?
    ensures var p, cur := PeriodKey(at, zone, row.cfg), PeriodKey(now, zone, row.cfg);
            var r := Recorded(row, now, at, amount, zone, db); var added := if amount <= 0 then 1 else amount;
            && Amount(r.row.marks, q) == Amount(row.marks, q) + (if q == p then added else 0)
            && (q in r.row.marks <==> q in row.marks || q == p)
            && r.reply.view.amount == Amount(row.marks, cur) + (if p == cur then added else 0)
  {
    hide ValidConfig, Sound, Counted, PeriodKey, Current, Advance, DerivedAt, CountKind;
  }

  /** After an accepted activity the current period shows as earned exactly when it had been earned before or has
      just been: an active period that nothing later was earned in, recorded within itself up to the threshold. */
  lemma RecordedShowsEarned(row: Row, now: Instant, at: Instant, amount: int, zone: Zone, db: Instant)
    requires Valid(row) && Clocked(now, zone, row.cfg) && Clocked(at, zone, row.cfg)
    requires Recorded(row, now, at, amount, zone, db).reply.Done?
    ensures var p, cur := PeriodKey(at, zone, row.cfg), PeriodKey(now, zone, row.cfg);
            var d := Recorded(row, now, at, amount, zone, db).reply.view.derived;
            && d.currentPeriod == cur
            && (d.earnedThisPeriod <==>
                  row.state.lastEarned == cur
                  || (p == cur && row.state.lastEarned < cur && ScheduledOn(cur, row.cfg)
                      && Amount(row.marks, cur) + Max(amount, 1) >= row.cfg.minAmount))
  {
    hide ValidConfig, Sound, Counted, PeriodKey, Settled, Earned, ScheduledOn, CountKind, DerivedAt;
    var cfg := row.cfg;
    var p, cur := PeriodKey(at, zone, cfg), PeriodKey(now, zone, cfg);
    var total := Amount(row.marks, p) + Max(amount, 1);
    RecordedValid(row, now, at, amount, zone, db);
    SettledSound(row.state, cfg, cur);
    var r := if p == cur then Settled(row.state, cfg, cur) else Outcome(row.state, []);
    EarnedSound(r.state, cfg, p);
    EarnedLatest(r.state, cfg, p);
    SoundOrder(row.state, cfg);
    var a := if total >= cfg.minAmount then Earned(r.state, cfg, p) else Outcome(r.state, []);
    SettledSound(a.state, cfg, cur);
    EarnedIsLast(Recorded(row, now, at, amount, zone, db).row.state, cfg, cur, zone);
  }

  lemma EarnedLatest(s: State, cfg: Config, p: Date)
    requires ValidConfig(cfg)
    ensures Earned(s, cfg, p).state.lastEarned == if Earns(s, cfg, p) then p else s.lastEarned
  {
    hide ScheduledOn, MilestoneEvents;
  }

  lemma SoundOrder(s: State, cfg: Config)
    requires Sound(s, cfg)
    ensures s.lastEarned >= NO_DATE
  {
    hide Aligned;
  }

  /** A period shows as earned exactly when it is the last earned one. */
  lemma EarnedIsLast(s: State, cfg: Config, cur: Date, zone: Zone)
    requires ValidConfig(cfg) && Sound(s, cfg) && cur > NO_DATE
    ensures DerivedAt(s, cfg, cur, zone).earnedThisPeriod <==> s.lastEarned == cur
    ensures DerivedAt(s, cfg, cur, zone).currentPeriod == cur
  {
    hide ValidConfig, Sound, ActiveBetween, PeriodEnd, LossPeriod;
  }

  /** Once a period shows as earned, no reminder is sent for it. */
  lemma EarnedNotReminded(row: Row, seen: Candidate, now: Instant)
    requires Valid(row) && Plausible(seen, now, row.cfg)
    requires row.state.lastEarned == PeriodKey(now, seen.zone, row.cfg)
    ensures Reminded(row, seen, now) == row
  {
    hide ValidConfig, Sound, Counted, PeriodKey, DerivedAt, AtWall, ScheduledOn;
    EarnedIsLast(row.state, row.cfg, PeriodKey(now, seen.zone, row.cfg), seen.zone);
  }

  /** Unrecord takes away the current period's mark, whole, and no other; the outbox and the claims stay. */
  lemma UnrecordedMarks(row: Row, now: Instant, zone: Zone, q: Date)
    requires Valid(row) && LedgerClocked(row.marks, zone, row.cfg)
    ensures var row' := Unrecorded(row, now, zone); var cur := PeriodKey(now, zone, row.cfg);
            && Amount(row'.marks, q) == (if q == cur then 0 else Amount(row.marks, q))
            && (q in row'.marks <==> q in row.marks && q != cur)
            && row'.log == row.log && row'.claims == row.claims && row'.brokenAt == row.brokenAt
  {
    hide ValidConfig, Sound, Counted, PeriodKey, Current, EarnedPeriods, KeysOf, Replayed;
  }

  // ---------------------------------------------------------------- what every call keeps

  /** The events that a call has written. */
  ghost predicate Wrote(row: Row, row': Row, events: seq<Event>, db: Instant) {
    && row'.log == row.log + events
    && row'.brokenAt == if exists i :: 0 <= i < |events| && events[i].kind.Broken? then db else row.brokenAt
  }

  /** The outbox is append-only; the newest break is stamped with the database clock of the call that wrote it; and
      only records and the three rewrites touch the ledger. */
  lemma StepFrame(s: Session, c: Call) returns (events: seq<Event>)
    requires Valid(s.row) && Possible(s, c)
    ensures Wrote(s.row, Step(s, c).row, events, c.db)
    ensures c.op.Record? || c.op.Unrecord? || c.op.ShiftHistory? || c.op.ReplaceHistory?
            || Step(s, c).row.marks == s.row.marks
  {
    hide ValidConfig, Sound, Counted, PeriodKey, Current, Settled, Recorded, CountKind, ViewOf, Skipped, LatestBreak;
    hide Replayed, PrevPeriod, EarnedPeriods, KeysOf, DerivedAt, AtWall, ShiftMarks, MarksFor;
    events := [];
    match c.op
    case Record(at, amount) => events := RecordWrites(s.row, c.now, at, amount, s.zone, c.db);
    case SettleTick(seen) =>
      var cur := PeriodKey(c.now, seen.zone, s.row.cfg);
      if !Skipped(seen.state, s.row.cfg, cur) {
        events := Settled(s.row.state, s.row.cfg, cur).events;
        CountedSome(events, EventKind.Broken);
      }
    case RemindTick(seen) =>
      if Reminds(s.row, seen, c.now) { events := [Step(s, c).row.log[|s.row.log|]]; }
    case SetTimezone(target) =>
      events := Settled(s.row.state, s.row.cfg, PeriodKey(c.now, s.zone, s.row.cfg)).events;
      CountedSome(events, EventKind.Broken);
    case Repair => events := RepairWrites(s.row, c.now, s.zone, c.db);
    case Unrecord =>
    case Recount =>
    case SetFreezes(_) =>
    case ShiftHistory(_) =>
    case ReplaceHistory(_) =>
  }

  lemma RecordWrites(row: Row, now: Instant, at: Instant, amount: int, zone: Zone, db: Instant)
    returns (events: seq<Event>)
    requires Valid(row) && Clocked(now, zone, row.cfg) && Clocked(at, zone, row.cfg)
    ensures Wrote(row, Recorded(row, now, at, amount, zone, db).row, events, db)
  {
    hide ValidConfig, Sound, Current, Counted, PeriodKey, Advance, ViewOf, CountKind;
    if BranchOf(row, now, at, zone).Outside? { return []; }
    var cfg := row.cfg;
    var p, cur := PeriodKey(at, zone, cfg), PeriodKey(now, zone, cfg);
    events := Advance(row.state, cfg, p, cur, Amount(row.marks, p) + Max(amount, 1)).events;
    CountedSome(events, EventKind.Broken);
  }

  lemma RepairWrites(row: Row, now: Instant, zone: Zone, db: Instant) returns (events: seq<Event>)
    requires Valid(row) && Clocked(now, zone, row.cfg)
    ensures Wrote(row, RepairedRow(row, now, zone, db).row, events, db)
    ensures RepairedRow(row, now, zone, db).row.marks == row.marks
  {
    hide ValidConfig, Sound, Current, Counted, PeriodKey, Settled, ViewOf, CountKind, LatestBreak, PrevPeriod, Restored;
    events := [];
    if RepairedRow(row, now, zone, db).reply.Done? {
      var r := Settled(row.state, row.cfg, PeriodKey(now, zone, row.cfg));
      var e := Event(Repaired, PeriodKey(now, zone, row.cfg), RepairedRow(row, now, zone, db).row.state.count);
      events := r.events + [e];
      CountedSome(r.events, EventKind.Broken);
      CountNone([e], EventKind.Broken);
      assert (row.log + r.events) + [e] == row.log + events;
      assert forall i | 0 <= i < |r.events| :: events[i] == r.events[i];
    }
  }
}
