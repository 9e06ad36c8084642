/** The engine of one subject: its zone, its streaks and the idempotency table (internal/engine/record.go,
    admin.go, history.go, scheduler.go).  Every method runs the source's steps on the store's rows and is proved
    to take them where the row functions of Rows and Sessions say. */
module Engine {
  import opened Calendar
  import opened Configs
  import opened Periods
  import opened Boundaries
  import opened Transition
  import opened Derive
  import opened Replay
  import opened Rows
  import opened Sessions
  import opened Store

  class Engine {
    const zones: map<string, Zone>  // the zones the tz database knows
    var tz: string
    var streaks: seq<Streak>
    var memos: map<string, View>

    constructor (zones: map<string, Zone>, tz: string)
      ensures this.tz == tz && streaks == [] && memos == map[] && Ready()
    {
      this.zones, this.tz := zones, tz;
      streaks, memos := [], map[];
    }

    ghost predicate Ready()
      reads this, streaks
    {
      && (forall i, j | 0 <= i < j < |streaks| :: streaks[i] != streaks[j])
      && (forall i | 0 <= i < |streaks| :: Valid(streaks[i].Snapshot()))
    }

    /** The clock reads year 0 or later in the subject's zone. */
    ghost predicate TimeOk(t: Instant)
      reads this, streaks
    {
      tz in zones ==> forall i | 0 <= i < |streaks| :: Clocked(t, zones[tz], streaks[i].cfg)
    }

    /** The insert half of UpsertStreakLocked: a streak nobody has recorded into yet. */
    method Create(cfg: Config) returns (i: nat)
      requires Ready() && ValidConfig(cfg)
      modifies this`streaks
      ensures Ready() && i == |old(streaks)| && |streaks| == i + 1 && fresh(streaks[i])
      ensures streaks[..i] == old(streaks) && streaks[i].Snapshot() == NewRow(cfg)
    {
      hide ValidConfig;
      var st := new Streak(cfg);
      i := |streaks|;
      NewRowValid(cfg);
      streaks := streaks + [st];
    }

    /** Record: look the idempotency key up under the streak's lock, or perform the activity and memoize its view. */
    method Record(i: nat, now: Instant, at: Instant, amount: int, key: Option<string>, db: Instant)
      returns (reply: Reply)
      requires Ready() && i < |streaks| && TimeOk(now) && TimeOk(at)
      modifies streaks[i], this`memos
      ensures Ready()
      ensures at > now + FUTURE_SLACK || tz !in zones ==>
                && reply == Failed(if at > now + FUTURE_SLACK then OutsidePeriod else BadTimezone)
                && streaks[i].Snapshot() == old(streaks[i].Snapshot()) && memos == old(memos)
      ensures at <= now + FUTURE_SLACK && tz in zones && key.Some? && key.value in old(memos) ==>
                && reply == Done(old(memos)[key.value]) && streaks[i].Snapshot() == old(streaks[i].Snapshot())
                && memos == old(memos)
      ensures at <= now + FUTURE_SLACK && tz in zones && !(key.Some? && key.value in old(memos)) ==>
                var r := Recorded(old(streaks[i].Snapshot()), now, at, amount, zones[tz], db);
                && reply == r.reply && streaks[i].Snapshot() == r.row
                && memos == if key.Some? && reply.Done? then old(memos)[key.value := reply.view] else old(memos)
    {
      hide Valid, PeriodKey, Recorded, Current;
      if at > now + FUTURE_SLACK { return Failed(OutsidePeriod); }
      if tz !in zones { return Failed(BadTimezone); }
      if key.Some? && key.value in memos { return Done(memos[key.value]); }
      RecordedValid(streaks[i].Snapshot(), now, at, amount, zones[tz], db);
      reply := Perform(streaks[i], now, at, amount, zones[tz], db);
      if key.Some? && reply.Done? {
        memos := memos[key.value := reply.view];
      }
    }

    /** loadCandidates: what the scheduler's unlocked query sees of the subject's streaks. */
    method LoadCandidates() returns (seen: seq<Candidate>)
      requires Ready() && tz in zones
      ensures |seen| == |streaks|
      ensures forall i | 0 <= i < |streaks| :: seen[i].state == streaks[i].state && seen[i].zone == zones[tz]
    {
      seen := [];
      for i := 0 to |streaks|
        invariant |seen| == i
        invariant forall j | 0 <= j < i :: seen[j].state == streaks[j].state && seen[j].zone == zones[tz]
      {
        seen := seen + [Candidate(streaks[i].state, zones[tz])];
      }
    }

    /** settleDue over candidates that were loaded earlier, other calls having run since. */
    method SettleAllDue(seen: seq<Candidate>, now: Instant, db: Instant)
      requires Ready() && |seen| == |streaks|
      requires forall i | 0 <= i < |streaks| :: Plausible(seen[i], now, streaks[i].cfg)
      modifies streaks
      ensures Ready()
      ensures forall i | 0 <= i < |streaks| ::
                streaks[i].Snapshot() == SettledDue(old(streaks[i].Snapshot()), seen[i], now, db)
    {
      hide Valid, PeriodKey, Current, SettledDue, Plausible;
      for i := 0 to |streaks|
        invariant Ready()
        invariant forall j | 0 <= j < i ::
                    streaks[j].Snapshot() == SettledDue(old(streaks[j].Snapshot()), seen[j], now, db)
        invariant forall j | i <= j < |streaks| :: streaks[j].Snapshot() == old(streaks[j].Snapshot())
      {
        SettleDue(streaks[i], seen[i], now, db);
      }
    }

    /** remindDue over candidates that were loaded earlier, other calls having run since. */
    method RemindAllDue(seen: seq<Candidate>, now: Instant, db: Instant)
      requires Ready() && |seen| == |streaks|
      modifies streaks
      ensures Ready()
      ensures forall i | 0 <= i < |streaks| ::
                streaks[i].Snapshot() == Reminded(old(streaks[i].Snapshot()), seen[i], now)
    {
      hide Valid, PeriodKey, Current, Reminded;
      for i := 0 to |streaks|
        invariant Ready()
        invariant forall j | 0 <= j < i :: streaks[j].Snapshot() == Reminded(old(streaks[j].Snapshot()), seen[j], now)
        invariant forall j | i <= j < |streaks| :: streaks[j].Snapshot() == old(streaks[j].Snapshot())
      {
        RemindDue(streaks[i], seen[i], now, db);
      }
    }

    /** A whole pass that nothing interrupts: load, settle what is due, load again, remind.  Each of the two halves
        reads the clock for itself. */
    method TickAll(now: Instant, later: Instant, db: Instant)
      requires Ready() && TimeOk(now)
      modifies streaks
      ensures Ready()
      ensures forall i | 0 <= i < |streaks| :: var row := old(streaks[i].Snapshot());
                if tz in zones then
                  Plausible(Candidate(row.state, zones[tz]), now, row.cfg) &&
                  var settled := SettledDue(row, Candidate(row.state, zones[tz]), now, db);
                  Valid(settled) &&
                  streaks[i].Snapshot() == Reminded(settled, Candidate(settled.state, zones[tz]), later)
                else streaks[i].Snapshot() == row
    {
      hide ValidConfig, Sound, Counted, PeriodKey, Current, SettledDue, Reminded;
      if tz in zones {
        var seen := LoadCandidates();
        SettleAllDue(seen, now, db);
        forall i | 0 <= i < |streaks|
          ensures streaks[i].Snapshot()
               == SettledDue(old(streaks[i].Snapshot()), Candidate(old(streaks[i].state), zones[tz]), now, db)
        {
          assert seen[i] == Candidate(old(streaks[i].state), zones[tz]);
        }
        label Settled:
        var again := LoadCandidates();
        RemindAllDue(again, later, db);
        forall i | 0 <= i < |streaks|
          ensures streaks[i].Snapshot()
               == Reminded(old@Settled(streaks[i].Snapshot()),
                           Candidate(old@Settled(streaks[i].state), zones[tz]), later)
        {
          assert again[i] == Candidate(old@Settled(streaks[i].state), zones[tz]);
        }
      }
    }

    /** SetTimezone: every streak of the subject is settled in the old zone and forgiven the shift.  A name the
        database does not know is an error, the present name a no-op, and an old zone that is no longer known
        is replaced by the new one. */
    method SetTimezone(name: string, now: Instant, db: Instant) returns (error: Option<Error>)
      requires Ready() && TimeOk(now)
      requires name in zones ==> forall i | 0 <= i < |streaks| :: Clocked(now, zones[name], streaks[i].cfg)
      modifies this`tz, streaks
      ensures Ready()
      ensures error == if name in zones then None else Some(BadTimezone)
      ensures tz == if name in zones then name else old(tz)
      ensures forall i | 0 <= i < |streaks| ::
                streaks[i].Snapshot() ==
                if name !in zones || name == old(tz) then old(streaks[i].Snapshot())
                else Moved(old(streaks[i].Snapshot()), now, if old(tz) in zones then zones[old(tz)] else zones[name],
                           zones[name], db)
    {
      hide Valid, PeriodKey, Current, Moved;
      if name !in zones { return Some(BadTimezone); }
      if name == tz { return None; }
      var newZone := zones[name];
      var oldZone := if tz in zones then zones[tz] else newZone;
      for i := 0 to |streaks|
        invariant Ready() && tz == old(tz)
        invariant forall j | 0 <= j < i ::
                    streaks[j].Snapshot() == Moved(old(streaks[j].Snapshot()), now, oldZone, newZone, db)
        invariant forall j | i <= j < |streaks| :: streaks[j].Snapshot() == old(streaks[j].Snapshot())
      {
        MoveOne(streaks[i], now, oldZone, newZone, db);
      }
      tz := name;
      return None;
    }

    method Repair(i: nat, now: Instant, db: Instant) returns (reply: Reply)
      requires Ready() && i < |streaks| && TimeOk(now)
      modifies streaks[i]
      ensures Ready()
      ensures if tz !in zones then reply == Failed(BadTimezone) && streaks[i].Snapshot() == old(streaks[i].Snapshot())
              else var r := RepairedRow(old(streaks[i].Snapshot()), now, zones[tz], db);
                   reply == r.reply && streaks[i].Snapshot() == r.row
    {
      hide Valid, PeriodKey, Current, RepairedRow;
      if tz !in zones { return Failed(BadTimezone); }
      RepairedValid(streaks[i].Snapshot(), now, zones[tz], db);
      reply := RepairOne(streaks[i], now, zones[tz], db);
    }

    /** Drop the current period's mark and rebuild the state from the ledger. */
    method Unrecord(i: nat, now: Instant) returns (reply: Reply)
      requires Ready() && i < |streaks| && TimeOk(now)
      requires tz in zones ==> LedgerClocked(streaks[i].marks, zones[tz], streaks[i].cfg)
      modifies streaks[i]
      ensures Ready()
      ensures if tz !in zones then reply == Failed(BadTimezone) && streaks[i].Snapshot() == old(streaks[i].Snapshot())
              else && streaks[i].Snapshot() == Unrecorded(old(streaks[i].Snapshot()), now, zones[tz])
                   && reply == Done(ViewOf(streaks[i].Snapshot(), 0, now, zones[tz]))
    {
      hide ValidConfig, Sound, Counted, PeriodKey, Current, Recounted;
      if tz !in zones { return Failed(BadTimezone); }
      var st, zone := streaks[i], zones[tz];
      ghost var row := st.Snapshot();
      var found := st.DeleteMark(PeriodKey(now, zone, st.cfg));
      RecountedValid(st.Snapshot(), now, zone);
      RecountOne(st, now, zone);
      var view := ViewNow(st, 0, now, zone);
      reply := Done(view);
    }

    method Recount(i: nat, now: Instant) returns (reply: Reply)
      requires Ready() && i < |streaks| && TimeOk(now)
      requires tz in zones ==> LedgerClocked(streaks[i].marks, zones[tz], streaks[i].cfg)
      modifies streaks[i]
      ensures Ready()
      ensures if tz !in zones then reply == Failed(BadTimezone) && streaks[i].Snapshot() == old(streaks[i].Snapshot())
              else && streaks[i].Snapshot() == Recounted(old(streaks[i].Snapshot()), now, zones[tz])
                   && reply == Shown(streaks[i].Snapshot(), now, zones[tz])
    {
      hide ValidConfig, Sound, Counted, PeriodKey, Current, Recounted;
      if tz !in zones { return Failed(BadTimezone); }
      var st, zone := streaks[i], zones[tz];
      RecountedValid(st.Snapshot(), now, zone);
      RecountOne(st, now, zone);
      reply := Show(st, now, zone);
    }

    /** Replace the whole ledger by the given dates and recount; an empty list resets the streak. */
    method ReplaceHistory(i: nat, periods: seq<Date>, now: Instant) returns (reply: Reply)
      requires Ready() && i < |streaks| && TimeOk(now)
      requires tz in zones ==> LedgerClocked(MarksFor(periods, streaks[i].cfg.minAmount), zones[tz], streaks[i].cfg)
      modifies streaks[i]
      ensures Ready()
      ensures if tz !in zones then reply == Failed(BadTimezone) && streaks[i].Snapshot() == old(streaks[i].Snapshot())
              else && streaks[i].Snapshot() == Replaced(old(streaks[i].Snapshot()), periods, now, zones[tz])
                   && reply == Shown(streaks[i].Snapshot(), now, zones[tz])
    {
      hide ValidConfig, Sound, Counted, PeriodKey, Current, Replaced;
      if tz !in zones { return Failed(BadTimezone); }
      ReplaceOne(streaks[i], periods, now, zones[tz]);
      reply := Show(streaks[i], now, zones[tz]);
    }

    /** Move the ledger and both pointers `days` days into the past, without recounting. */
    method ShiftHistory(i: nat, days: int, now: Instant) returns (reply: Reply)
      requires Ready() && i < |streaks| && (days > 0 ==> CanShift(streaks[i].Snapshot(), days))
      modifies streaks[i]
      ensures Ready()
      ensures streaks[i].Snapshot() == if reply.Done? then Shifted(old(streaks[i].Snapshot()), days)
                                       else old(streaks[i].Snapshot())
      ensures reply == if days <= 0 then Failed(NotPositive) else if tz !in zones then Failed(BadTimezone)
                       else if !streaks[i].cfg.period.Day? then Failed(NotDayPeriod)
                       else Shown(streaks[i].Snapshot(), now, zones[tz])
    {
      hide ValidConfig, Counted, PeriodKey, ShiftMarks, DerivedAt;
      if days <= 0 { return Failed(NotPositive); }
      if tz !in zones { return Failed(BadTimezone); }
      var st := streaks[i];
      if !st.cfg.period.Day? { return Failed(NotDayPeriod); }
      ShiftedValid(st.Snapshot(), days);
      st.ShiftMarks(days);
      st.claims := {};
      var s := st.state;
      if s.lastEarned != NO_DATE {
        s := s.(lastEarned := s.lastEarned - days);
      }
      if s.settledThrough != NO_DATE {
        s := s.(settledThrough := s.settledThrough - days);
      }
      st.state := s;
      assert Valid(st.Snapshot());
      reply := Show(st, now, zones[tz]);
    }

    /** Set the inventory; the value may exceed the configured cap, which only limits earning. */
    method SetFreezes(i: nat, n: int, now: Instant) returns (reply: Reply)
      requires Ready() && i < |streaks|
      modifies streaks[i]
      ensures Ready()
      ensures reply == if n < 0 || n > 100 then Failed(OutOfRange) else if tz !in zones then Failed(BadTimezone)
                       else Shown(streaks[i].Snapshot(), now, zones[tz])
      ensures streaks[i].Snapshot() ==
              if reply.Done? then var row := old(streaks[i].Snapshot()); row.(state := row.state.(freezes := n))
              else old(streaks[i].Snapshot())
    {
      hide ValidConfig, Counted, PeriodKey, DerivedAt;
      if n < 0 || n > MAX_FREEZES { return Failed(OutOfRange); }
      if tz !in zones { return Failed(BadTimezone); }
      streaks[i].state := streaks[i].state.(freezes := n);
      assert Valid(streaks[i].Snapshot());
      reply := Show(streaks[i], now, zones[tz]);
    }
  }

  // ---------------------------------------------------------------- transactions on one streak

  /** Settle, earn and settle again, as the branches of Record do. */
  method Play(s0: State, cfg: Config, now: Instant, at: Instant, zone: Zone, total: int)
    returns (s: State, events: seq<Event>)
    requires ValidConfig(cfg) && Sound(s0, cfg) && Clocked(now, zone, cfg) && Clocked(at, zone, cfg)
    ensures Outcome(s, events) == Advance(s0, cfg, PeriodKey(at, zone, cfg), PeriodKey(now, zone, cfg), total)
  {
    hide ValidConfig, Sound, Current, PeriodKey, Settled, Earned;
    var p, cur := PeriodKey(at, zone, cfg), PeriodKey(now, zone, cfg);
    s, events := s0, [];
    SettledSound(s, cfg, cur);
    if p == cur {
      s, events := Settle(s, cfg, now, zone);
    }
    EarnedSound(s, cfg, p);
    if total >= cfg.minAmount {
      var s1, more, earned := Apply(s, cfg, at, zone);
      if earned {
        events := events + more;
      } else {
        NotEarned(s, cfg, p);
      }
      s := s1;
    }
    if p < cur {
      var s1, more := Settle(s, cfg, now, zone);
      s, events := s1, events + more;
    }
  }

  lemma NotEarned(s: State, cfg: Config, p: Date)
    requires ValidConfig(cfg) && !Earns(s, cfg, p)
    ensures Earned(s, cfg, p) == Outcome(s, [])
  {
  }

  /** The reply that shows a row and the amount of its current period. */
  function Shown(row: Row, now: Instant, zone: Zone): (reply: Reply)
    requires Valid(row)
    ensures reply.Done?
  {
    Done(ViewOf(row, Amount(row.marks, PeriodKey(now, zone, row.cfg)), now, zone))
  }

  method Show(st: Streak, now: Instant, zone: Zone) returns (reply: Reply)
    requires Valid(st.Snapshot())
    ensures reply == Shown(st.Snapshot(), now, zone)
  {
    hide ValidConfig, Sound, Counted, PeriodKey, DerivedAt;
    var shown := st.GetMarkAmount(PeriodKey(now, zone, st.cfg));
    var view := ViewNow(st, shown, now, zone);
    reply := Done(view);
  }

  method ViewNow(st: Streak, amount: int, now: Instant, zone: Zone) returns (view: View)
    requires Valid(st.Snapshot())
    ensures view == ViewOf(st.Snapshot(), amount, now, zone)
  {
    hide ValidConfig, Sound, Current, Counted, DerivedAt, PeriodKey;
    var d := Derive.Derive(st.state, st.cfg, now, zone);
    view := View(d, amount);
  }

  /** The writing transaction of Record on one streak. */
  method Perform(st: Streak, now: Instant, at: Instant, amount: int, zone: Zone, db: Instant) returns (reply: Reply)
    requires Valid(st.Snapshot()) && Clocked(now, zone, st.cfg) && Clocked(at, zone, st.cfg)
    requires at <= now + FUTURE_SLACK
    modifies st
    ensures var r := Recorded(old(st.Snapshot()), now, at, amount, zone, db);
            reply == r.reply && st.Snapshot() == r.row
  {
    hide ValidConfig, Sound, Current, Counted, PeriodKey, Advance, CountKind;
    ghost var row := st.Snapshot();
    RecordedValid(row, now, at, amount, zone, db);
    var cfg := st.cfg;
    var p, cur := PeriodKey(at, zone, cfg), PeriodKey(now, zone, cfg);
    if p != cur && !(p < cur && now - at <= BOUNDARY_GRACE && st.state.settledThrough < p && st.state.lastEarned < p) {
      return Failed(OutsidePeriod);
    }
    var total := st.AddMark(p, if amount <= 0 then 1 else amount);
    var s, events := Play(st.state, cfg, now, at, zone, total);
    st.state := s;
    st.PersistEvents(events, db);
    assert st.Snapshot() == Recorded(row, now, at, amount, zone, db).row;
    var shown := st.GetMarkAmount(cur);
    var view := ViewNow(st, shown, now, zone);
    reply := Done(view);
  }

  /** settleDue's prefilter on what was seen, then settleOne on the locked row. */
  method SettleDue(st: Streak, seen: Candidate, now: Instant, db: Instant)
    requires Valid(st.Snapshot()) && Plausible(seen, now, st.cfg)
    modifies st
    ensures Valid(st.Snapshot()) && st.Snapshot() == SettledDue(old(st.Snapshot()), seen, now, db)
  {
    hide ValidConfig, Counted, PeriodKey, Current, Settled, CountKind, Aligned, PrevPeriod, ActiveBetween;
    ghost var row := st.Snapshot();
    var cfg, s := st.cfg, seen.state;
    var cur := PeriodKey(now, seen.zone, cfg);
    if s.lastEarned == NO_DATE { return; }
    var from := Later(s.lastEarned, s.settledThrough);
    if from >= PrevPeriod(cur, cfg) && s.settledThrough != NO_DATE { return; }
    var missed := MissedBetween(from, cur, cfg, MAX_FREEZES + 1);
    if missed == 0 && s.settledThrough != NO_DATE { return; }
    SettledRow(row, cur, db);
    var s1, events := Settle(st.state, cfg, now, seen.zone);
    if events == [] && s1 == st.state {
      PersistNothing(row, db);
      return;
    }
    st.state := s1;
    st.PersistEvents(events, db);
  }

  /** remindDue's conditions on what was seen, then remindOne: claim the day and announce the risk. */
  method RemindDue(st: Streak, seen: Candidate, now: Instant, db: Instant)
    requires Valid(st.Snapshot())
    modifies st
    ensures Valid(st.Snapshot()) && st.Snapshot() == Reminded(old(st.Snapshot()), seen, now)
  {
    hide ValidConfig, Sound, PeriodKey, Current, CountKind, DerivedAt, ScheduledOn, AtWall;
    var cfg, zone := st.cfg, seen.zone;
    if cfg.reminderMinute.None? || seen.state.count <= 0 || !cfg.period.Day? { return; }
    var cur := PeriodKey(now, zone, cfg);
    if now < AtWall(DAY_SECONDS * cur + 60 * cfg.reminderMinute.value, zone) { return; }
    var d := Derive.Derive(st.state, cfg, now, zone);
    DerivedCount(st.state, cfg, cur, zone);
    if d.liveness.Broken? || d.earnedThisPeriod || !ScheduledOn(d.currentPeriod, cfg) { return; }
    var claimed := st.ClaimReminder(cur);
    if !claimed {
      return;
    }
    var event := Event(AtRisk, cur, d.count);
    assert CountKind([event], EventKind.Broken) == 0 by { CountNone([event], EventKind.Broken); }
    st.PersistEvents([event], db);
  }

  method MoveOne(st: Streak, now: Instant, oldZone: Zone, newZone: Zone, db: Instant)
    requires Valid(st.Snapshot()) && Clocked(now, oldZone, st.cfg) && Clocked(now, newZone, st.cfg)
    modifies st
    ensures Valid(st.Snapshot()) && st.Snapshot() == Moved(old(st.Snapshot()), now, oldZone, newZone, db)
  {
    hide ValidConfig, Sound, Counted, PeriodKey, Current, Settled, CountKind, PrevPeriod;
    MovedValid(st.Snapshot(), now, oldZone, newZone, db);
    var s, events := Settle(st.state, st.cfg, now, oldZone);
    var prev := PrevPeriod(PeriodKey(now, newZone, st.cfg), st.cfg);
    if s.settledThrough < prev {
      s := s.(settledThrough := prev);
    }
    st.state := s;
    st.PersistEvents(events, db);
  }

  /** Repair in one transaction: the settle events are written first and rolled back when there is nothing to repair. */
  method RepairOne(st: Streak, now: Instant, zone: Zone, db: Instant) returns (reply: Reply)
    requires Valid(st.Snapshot()) && Clocked(now, zone, st.cfg)
    modifies st
    ensures var r := RepairedRow(old(st.Snapshot()), now, zone, db);
            reply == r.reply && st.Snapshot() == r.row
  {
    hide ValidConfig, Sound, Counted, PeriodKey, Current, Settled, CountKind, PrevPeriod, LatestBreak, Aligned;
    var row := Row(st.cfg, st.state, st.marks, st.log, st.brokenAt, st.claims);
    RepairedValid(row, now, zone, db);
    var cfg := st.cfg;
    var cur := PeriodKey(now, zone, cfg);
    var s, events := Settle(st.state, cfg, now, zone);
    st.PersistEvents(events, db);
    var lost := st.FindLatestBreak();
    if lost == 0 || now - st.brokenAt > REPAIR_WINDOW {
      st.Rollback(row);
      return Failed(NothingToRepair);
    }
    s := s.(count := s.count + lost);
    if s.count > s.longest {
      s := s.(longest := s.count);
    }
    var prev := PrevPeriod(cur, cfg);
    if s.settledThrough < prev {
      s := s.(settledThrough := prev);
    }
    st.state := s;
    var repaired := Event(Repaired, cur, s.count);
    assert CountKind([repaired], EventKind.Broken) == 0 by { CountNone([repaired], EventKind.Broken); }
    st.PersistEvents([repaired], db);
    assert st.Snapshot() == RepairedRow(row, now, zone, db).row;
    var shown := st.GetMarkAmount(cur);
    var view := ViewNow(st, shown, now, zone);
    reply := Done(view);
  }

  /** recountLocked: replay the ledger and save the result. */
  method RecountOne(st: Streak, now: Instant, zone: Zone)
    requires Valid(st.Snapshot()) && LedgerClocked(st.marks, zone, st.cfg)
    modifies st`state
    ensures st.Snapshot() == Recounted(old(st.Snapshot()), now, zone)
  {
    hide ValidConfig, Sound, Counted, PeriodKey, Current, Replayed, KeysOf;
    LedgerKeys(st.marks, zone, st.cfg);
    var ledger := st.SelectEarned(st.cfg.minAmount);
    var s := Replay.Replay(st.cfg, ledger, now, zone);
    st.state := s;
  }

  lemma PersistNothing(row: Row, db: Instant)
    ensures Persist(row, row.state, [], db) == row
  {
  }

  /** Wipe marks and claims, add the listed periods one by one, and recount. */
  method ReplaceOne(st: Streak, periods: seq<Date>, now: Instant, zone: Zone)
    requires Valid(st.Snapshot()) && Clocked(now, zone, st.cfg)
    requires LedgerClocked(MarksFor(periods, st.cfg.minAmount), zone, st.cfg)
    modifies st
    ensures Valid(st.Snapshot()) && st.Snapshot() == Replaced(old(st.Snapshot()), periods, now, zone)
  {
    hide ValidConfig, Sound, Counted, PeriodKey, Current, Recounted, MarksFor, LedgerClocked, Clocked;
    ghost var row := st.Snapshot();
    MarksForNone(st.cfg.minAmount);
    st.marks, st.claims := map[], {};
    for n := 0 to |periods|
      invariant st.marks == MarksFor(periods[..n], st.cfg.minAmount)
      invariant st.Snapshot() == row.(marks := st.marks, claims := {})
    {
      MarksForNext(periods, n, st.cfg.minAmount);
      var total := st.AddMark(periods[n], st.cfg.minAmount);
    }
    assert periods[..|periods|] == periods;
    RecountedValid(row.(marks := st.marks, claims := {}), now, zone);
    RecountOne(st, now, zone);
  }

  lemma MarksForNone(amount: int)
    ensures MarksFor([], amount) == map[]
  {
  }

  lemma MarksForNext(periods: seq<Date>, n: nat, amount: int)
    requires n < |periods|
    ensures var marks := MarksFor(periods[..n], amount);
            MarksFor(periods[..n + 1], amount) == marks[periods[n] := Amount(marks, periods[n]) + amount]
  {
    assert periods[..n + 1][..n] == periods[..n];
  }
}
