/** When a scheduler pass does make a difference: for each kind of call that can tell, the exact condition
    (internal/engine/scheduler.go, record.go, admin.go, history.go). */
module Interference {
  import opened Calendar
  import opened Configs
  import opened Periods
  import opened Boundaries
  import opened Transition
  import opened Derive
  import opened ClosedForm
  import opened Downtime
  import opened Grace
  import opened Replay
  import opened Rows
  import opened Sessions
  import opened History
  import opened Scheduler

  // ---------------------------------------------------------------- the pass itself

  /** After a pass the row holds the same state as without it, at every settle from period k on and with the same
      events, exactly when the pass does not settle past k. */
  lemma PassAgreesIff(row: Row, seen: Candidate, now: Instant, db: Instant, k: Date)
    requires Valid(row) && Plausible(seen, now, row.cfg) && Current(k, row.cfg)
    ensures SameFrom(SettledDue(row, seen, now, db), row, k, true)
            <==> PassInTime(row.state, seen.state, row.cfg, PeriodKey(now, seen.zone, row.cfg), k)
  {
    hide ValidConfig, Sound, Current, Settled, CountKind, Counted, PeriodKey, Skipped, SameFrom, PrevPeriod;
    var cfg, j := row.cfg, PeriodKey(now, seen.zone, row.cfg);
    SettledDueValid(row, seen, now, db);
    if PassInTime(row.state, seen.state, cfg, j, k) {
      SameState(row, row, k, true);
      SameAfterTick(row, row, k, seen, now, db, k, true);
    } else {
      PointerAhead(row.state, cfg, j, k);
      DifferentAt(SettledDue(row, seen, now, db), row, k, true);
    }
  }

  /** Settled past k, the pointer stays ahead at k. */
  lemma PointerAhead(s: State, cfg: Config, j: Date, k: Date)
    requires ValidConfig(cfg) && Sound(s, cfg) && Current(j, cfg) && Current(k, cfg) && k < j
    requires s.lastEarned != NO_DATE && s.settledThrough < PrevPeriod(j, cfg)
    ensures Sound(Settled(s, cfg, j).state, cfg)
    ensures Settled(Settled(s, cfg, j).state, cfg, k).state.settledThrough > Settled(s, cfg, k).state.settledThrough
  {
    hide ValidConfig, Aligned, PrevPeriod, CalendarNext, ActiveBetween, Charge;
    SettledSound(s, cfg, j);
    CurrentFacts(k, cfg);
    NoKeyBetween(k, j, cfg);
    SettledPointers(s, cfg, j);
    SettledPointers(Settled(s, cfg, j).state, cfg, k);
    SettledPointers(s, cfg, k);
  }

  // ---------------------------------------------------------------- late records

  /** A pass at period j before a late record of p: it skips the streak, or comes before p has ended and either
      finds nothing to resolve or the record earns nothing. */
  predicate TickIsHarmless(row: Row, seen: State, j: Date, p: Date, total: int)
    requires Valid(row) && Sound(seen, row.cfg)
  {
    Skipped(seen, row.cfg, j)
    || (j <= p && (Silent(row.state, row.cfg, j) || !ScheduledOn(p, row.cfg) || total < row.cfg.minAmount))
  }

  /** A scheduler pass before a record of the period that has just ended changes the reply exactly when it is not
      harmless; when it is, the stored state is the same, too. */
  lemma LateRecordAfterTickIff(row: Row, seen: Candidate, tick: Instant, tdb: Instant,
                               now: Instant, at: Instant, amount: int, zone: Zone, db: Instant)
    requires Valid(row) && Plausible(seen, tick, row.cfg) && Clocked(now, zone, row.cfg) && Clocked(at, zone, row.cfg)
    requires BranchOf(row, now, at, zone).InGrace?
    requires PrevPeriod(PeriodKey(now, zone, row.cfg), row.cfg) == PeriodKey(at, zone, row.cfg)
    ensures Valid(SettledDue(row, seen, tick, tdb))
    ensures var p, j := PeriodKey(at, zone, row.cfg), PeriodKey(tick, seen.zone, row.cfg);
            var harmless := TickIsHarmless(row, seen.state, j, p, Amount(row.marks, p) + Max(amount, 1));
            var x := Recorded(SettledDue(row, seen, tick, tdb), now, at, amount, zone, db);
            var y := Recorded(row, now, at, amount, zone, db);
            && (harmless <==> x.reply == y.reply)
            && (harmless ==> x.row.state == y.row.state && x.row.marks == y.row.marks)
  {
    hide ValidConfig, Sound, Current, Settled, CountKind, Counted, PeriodKey, Skipped, Advance, ScheduledOn;
    hide PrevPeriod, Recorded, DerivedAt;
    var cfg := row.cfg;
    var p, cur, j := PeriodKey(at, zone, cfg), PeriodKey(now, zone, cfg), PeriodKey(tick, seen.zone, cfg);
    var total := Amount(row.marks, p) + Max(amount, 1);
    SettledDueValid(row, seen, tick, tdb);
    LateReply(row, now, at, amount, zone, db);
    if !Skipped(seen.state, cfg, j) {
      var s, t := row.state, Settled(row.state, cfg, j).state;
      var ticked := SettledDue(row, seen, tick, tdb);
      assert ticked.state == t && ticked.marks == row.marks && ticked.cfg == cfg;
      if j <= p {
        OpenAfterTick(s, cfg, j, p);
        LateReply(ticked, now, at, amount, zone, db);
        if !ScheduledOn(p, cfg) || total < cfg.minAmount {
          LateSettle(s, cfg, p, cur, total);
          LateSettle(t, cfg, p, cur, total);
          SettleTwice(s, cfg, j, cur);
        } else if Silent(s, cfg, j) {
          SilentPointer(s, cfg, j);
          LateAdvance(s, t, cfg, p, cur, total);
        } else {
          ChargedShows(s, cfg, j, p, cur, total);
          CurrentFacts(cur, cfg);
          ViewsDiffer(Advance(s, cfg, p, cur, total).state, Advance(t, cfg, p, cur, total).state, cfg, cur, zone);
        }
      } else {
        ClosedAfterTick(s, cfg, j, p);
        Rejected(ticked, now, at, amount, zone, db);
      }
    }
  }

  /** What a late record replies and stores. */
  lemma LateReply(row: Row, now: Instant, at: Instant, amount: int, zone: Zone, db: Instant)
    requires Valid(row) && Clocked(now, zone, row.cfg) && Clocked(at, zone, row.cfg)
    requires BranchOf(row, now, at, zone).InGrace?
    ensures var cfg := row.cfg; var p, cur := PeriodKey(at, zone, cfg), PeriodKey(now, zone, cfg);
            var total := Amount(row.marks, p) + Max(amount, 1);
            var x, o := Recorded(row, now, at, amount, zone, db), Advance(row.state, cfg, p, cur, total).state;
            && Sound(o, cfg) && x.reply == Done(View(DerivedAt(o, cfg, cur, zone), Amount(row.marks, cur)))
            && x.row.state == o && x.row.marks == row.marks[p := total]
  {
    hide ValidConfig, Sound, Current, CountKind, Counted, PeriodKey, Advance, DerivedAt;
    var p, cur := PeriodKey(at, zone, row.cfg), PeriodKey(now, zone, row.cfg);
    AdvanceSound(row.state, row.cfg, p, cur, Amount(row.marks, p) + Max(amount, 1));
  }

  lemma OpenAfterTick(s: State, cfg: Config, j: Date, p: Date)
    requires ValidConfig(cfg) && Sound(s, cfg) && Current(j, cfg) && Current(p, cfg) && j <= p && s.settledThrough < p
    ensures Settled(s, cfg, j).state.settledThrough < p && Settled(s, cfg, j).state.lastEarned == s.lastEarned
    ensures Sound(Settled(s, cfg, j).state, cfg)
  {
    hide ValidConfig, Aligned, PrevPeriod, ActiveBetween, Charge;
    SettledSound(s, cfg, j);
    CurrentFacts(j, cfg);
    SettledPointers(s, cfg, j);
  }

  lemma SettledPointers(s: State, cfg: Config, j: Date)
    requires ValidConfig(cfg) && Sound(s, cfg)
    ensures Settled(s, cfg, j).state.settledThrough
         == if s.lastEarned == NO_DATE then PrevPeriod(j, cfg) else Later(s.settledThrough, PrevPeriod(j, cfg))
  {
    hide ValidConfig, Aligned, ActiveBetween, Charge, PrevPeriod;
  }

  lemma Rejected(row: Row, now: Instant, at: Instant, amount: int, zone: Zone, db: Instant)
    requires Valid(row) && Clocked(now, zone, row.cfg) && Clocked(at, zone, row.cfg)
    requires PeriodKey(at, zone, row.cfg) < PeriodKey(now, zone, row.cfg)
    requires row.state.settledThrough >= PeriodKey(at, zone, row.cfg)
    ensures Recorded(row, now, at, amount, zone, db) == Result(row, Failed(OutsidePeriod))
  {
    hide Valid, Current, PeriodKey;
  }

  lemma ClosedAfterTick(s: State, cfg: Config, j: Date, p: Date)
    requires ValidConfig(cfg) && Sound(s, cfg) && Current(j, cfg) && Current(p, cfg) && p < j
    ensures p <= Settled(s, cfg, j).state.settledThrough
  {
    hide ValidConfig, Aligned, PrevPeriod, CalendarNext, Settled;
    SettledSound(s, cfg, j);
    NoKeyBetween(p, j, cfg);
  }

  lemma SilentPointer(s: State, cfg: Config, j: Date)
    requires ValidConfig(cfg) && Sound(s, cfg) && Current(j, cfg) && Silent(s, cfg, j)
    ensures SameButPointer(s, Settled(s, cfg, j).state)
  {
    hide ValidConfig, Aligned, Settled;
    GrantSilent(s, cfg, j, s.freezes);
  }

  /** What a pass has charged shows after the late record. */
  lemma ChargedShows(s: State, cfg: Config, j: Date, p: Date, cur: Date, total: int)
    requires ValidConfig(cfg) && Sound(s, cfg) && Current(j, cfg) && Current(p, cfg) && Current(cur, cfg)
    requires j <= p == PrevPeriod(cur, cfg) && s.settledThrough < p && s.lastEarned < p
    requires !Silent(s, cfg, j) && ScheduledOn(p, cfg) && total >= cfg.minAmount
    ensures Sound(Settled(s, cfg, j).state, cfg)
    ensures var t := Settled(s, cfg, j).state;
            var x, y := Advance(s, cfg, p, cur, total).state, Advance(t, cfg, p, cur, total).state;
            && x.lastEarned == p == y.lastEarned && x.count > 0 && y.count > 0
            && (x.count != y.count || x.freezes != y.freezes || x.progress != y.progress)
  {
    hide ValidConfig, Aligned, ScheduledOn, PrevPeriod, ActiveBetween, Charge, Earned;
    var missed, t := Pending(s, cfg, j), Settled(s, cfg, j).state;
    var r := Charge(s, cfg.freezes.autoConsume, missed).state;
    OpenAfterTick(s, cfg, j, p);
    CurrentFacts(cur, cfg);
    assert missed != [] && s.count > 0 by { NotSilent(s, cfg, j); }
    ChargeShows(s, cfg, missed, p);
    EarnedPointer(r, cfg, p, t.settledThrough);
    LateEarned(s, cfg, p, cur, total);
    LateEarned(t, cfg, p, cur, total);
  }

  lemma NotSilent(s: State, cfg: Config, j: Date)
    requires ValidConfig(cfg) && Sound(s, cfg) && !Silent(s, cfg, j)
    ensures s.lastEarned != NO_DATE && s.count > 0 && Pending(s, cfg, j) != []
  {
    hide ValidConfig, Aligned, PrevPeriod, ActiveBetween;
  }

  /** A late record that earns stores the earned state, with the boundary settled. */
  lemma LateEarned(s: State, cfg: Config, p: Date, cur: Date, total: int)
    requires ValidConfig(cfg) && Sound(s, cfg) && Current(p, cfg) && Current(cur, cfg)
    requires p == PrevPeriod(cur, cfg) < cur && s.settledThrough < p && s.lastEarned < p
    requires ScheduledOn(p, cfg) && total >= cfg.minAmount
    ensures var e := Earned(s, cfg, p).state; var x := Advance(s, cfg, p, cur, total).state;
            x == e.(settledThrough := x.settledThrough) && x.lastEarned == p && x.count == s.count + 1
  {
    hide ValidConfig, Aligned, ScheduledOn, PrevPeriod, Settled, Earned;
    SettledSound(s, cfg, cur);
    EarnedSound(s, cfg, p);
    EarnedLast(s, cfg, p);
    EarnedEvents(s, cfg, p);
    SettledAfterEarning(Earned(s, cfg, p).state, cfg, cur);
  }

  /** Count, inventory and progress of a live streak that has settled every period before cur can be read. */
  lemma ViewsDiffer(x: State, y: State, cfg: Config, cur: Date, zone: Zone)
    requires ValidConfig(cfg) && Sound(x, cfg) && Sound(y, cfg) && Current(cur, cfg)
    requires x.lastEarned != NO_DATE && y.lastEarned != NO_DATE && x.count > 0 && y.count > 0
    requires PrevPeriod(cur, cfg) <= Later(x.lastEarned, x.settledThrough)
    requires PrevPeriod(cur, cfg) <= Later(y.lastEarned, y.settledThrough)
    requires x.count != y.count || x.freezes != y.freezes || x.progress != y.progress
    ensures DerivedAt(x, cfg, cur, zone) != DerivedAt(y, cfg, cur, zone)
  {
    hide ValidConfig, Aligned, PrevPeriod, ActiveBetween, PeriodEnd, LossPeriod;
    NothingPending(Later(x.lastEarned, x.settledThrough), cur, cfg);
    NothingPending(Later(y.lastEarned, y.settledThrough), cur, cfg);
  }

  // ---------------------------------------------------------------- repairs

  predicate TickBreaks(row: Row, seen: State, j: Date)
    requires Valid(row) && Sound(seen, row.cfg)
  {
    !Skipped(seen, row.cfg, j) && CountKind(Settled(row.state, row.cfg, j).events, EventKind.Broken) > 0
  }

  lemma BreakLast(s: State, cfg: Config, j: Date, log: seq<Event>)
    requires ValidConfig(cfg) && Sound(s, cfg) && CountKind(Settled(s, cfg, j).events, EventKind.Broken) > 0
    ensures LatestBreak(log + Settled(s, cfg, j).events) == s.count > 0
    ensures Settled(s, cfg, j).state.count == 0
  {
    hide ValidConfig, Aligned, PrevPeriod, ActiveBetween, Charge;
    NotSilent(s, cfg, j);
    var auto, missed, r := cfg.freezes.autoConsume, Pending(s, cfg, j), Settled(s, cfg, j);
    ChargeClosed(s, auto, missed);
    if |missed| <= Budget(s, auto) {
      CountUniform(r.events, FreezeConsumed, EventKind.Broken, |r.events|);
    } else {
      var all := log + r.events;
      assert all[|all| - 1] == r.events[|r.events| - 1];
    }
  }

  /** What a repair replies. */
  lemma RepairReply(row: Row, now: Instant, zone: Zone, db: Instant)
    requires Valid(row) && Clocked(now, zone, row.cfg)
    ensures var cfg := row.cfg; var cur := PeriodKey(now, zone, cfg); var r := Settled(row.state, cfg, cur);
            var lost := LatestBreak(row.log + r.events); var s := Restored(r.state, lost, PrevPeriod(cur, cfg));
            var stamp := if CountKind(r.events, EventKind.Broken) > 0 then db else row.brokenAt;
            var reply := RepairedRow(row, now, zone, db).reply;
            if lost == 0 || now - stamp > REPAIR_WINDOW then reply == Failed(NothingToRepair)
            else Sound(s, cfg) && reply == Done(View(DerivedAt(s, cfg, cur, zone), Amount(row.marks, cur)))
  {
    hide ValidConfig, Current, CountKind, Counted, PeriodKey, DerivedAt, Settled, LatestBreak, Aligned, PrevPeriod;
    var cur := PeriodKey(now, zone, row.cfg);
    var r := Settled(row.state, row.cfg, cur);
    SettledRow(row, cur, db);
    CurrentFacts(cur, row.cfg);
    LatestBreakNonneg(Persist(row, r.state, r.events, db).log);
  }

  /** A scheduler pass before a repair: it writes the break down, and with it the instant from which the repair
      window counts.  If the pass resolves no more than the repair's own settle, the reply is the same exactly when
      it breaks nothing, or its stamp and that of the repair itself are both inside the window, or both outside.
      If it does resolve more, having settled past the repair's period, the replies are the same only when both
      refuse. */
  lemma RepairAfterTickIff(row: Row, seen: Candidate, tick: Instant, tdb: Instant, now: Instant, zone: Zone,
                           db: Instant)
    requires Valid(row) && Plausible(seen, tick, row.cfg) && Clocked(now, zone, row.cfg)
    ensures Valid(SettledDue(row, seen, tick, tdb))
    ensures var j, cur := PeriodKey(tick, seen.zone, row.cfg), PeriodKey(now, zone, row.cfg);
            var ticked := SettledDue(row, seen, tick, tdb);
            RepairedRow(ticked, now, zone, db).reply == RepairedRow(row, now, zone, db).reply <==>
              if Skipped(seen.state, row.cfg, j) || ResolvesAlike(row.state, row.cfg, j, cur) then
                TickBreaks(row, seen.state, j) ==> (now - tdb <= REPAIR_WINDOW <==> now - db <= REPAIR_WINDOW)
              else !InWindow(ticked, now, cur, db) && !InWindow(row, now, cur, db)
  {
    hide ValidConfig, Sound, Current, Settled, CountKind, Counted, PeriodKey, Skipped, PrevPeriod, LatestBreak;
    hide RepairedRow, DerivedAt, Restored, ResolvesAlike;
    var cfg := row.cfg;
    var cur, j := PeriodKey(now, zone, cfg), PeriodKey(tick, seen.zone, cfg);
    SettledDueValid(row, seen, tick, tdb);
    RepairReply(row, now, zone, db);
    RepairReply(SettledDue(row, seen, tick, tdb), now, zone, db);
    if !Skipped(seen.state, cfg, j) {
      var s, r := row.state, Settled(row.state, cfg, j);
      SettledSound(s, cfg, j);
      var q := Settled(r.state, cfg, cur);
      AheadCounted(s, cfg, j, cur, row.log);
      if ResolvesAlike(s, cfg, j, cur) {
        SettledAlike(s, cfg, j, cur);
        SettledSound(s, cfg, cur);
        SettledSound(r.state, cfg, cur);
        var o := Settled(s, cfg, cur);
        assert row.log + o.events == (row.log + r.events) + q.events;
        RestoredReads(o.state, q.state, cfg, LatestBreak(row.log + o.events), cur, zone);
        CountConcat(r.events, q.events, EventKind.Broken);
        if TickBreaks(row, seen.state, j) {
          BreakLast(s, cfg, j, row.log);
          QuietAfterBreak(r.state, cfg, cur);
          assert (row.log + r.events) + q.events == row.log + r.events;
        }
      } else {
        RestoredApart(s, cfg, j, cur, zone, row.log);
      }
    }
  }

  lemma AheadCounted(s: State, cfg: Config, j: Date, cur: Date, log: seq<Event>)
    requires ValidConfig(cfg) && Sound(s, cfg) && Current(j, cfg) && Current(cur, cfg) && Counted(log)
    ensures Sound(Settled(s, cfg, j).state, cfg)
    ensures LatestBreak(log + Settled(s, cfg, cur).events) >= 0
    ensures var r := Settled(s, cfg, j); LatestBreak(log + r.events + Settled(r.state, cfg, cur).events) >= 0
  {
    hide ValidConfig, Sound, Current, Settled;
    SettledSound(s, cfg, j);
    SettledCounted(s, cfg, cur);
    SettledCounted(s, cfg, j);
    var r := Settled(s, cfg, j);
    SettledCounted(r.state, cfg, cur);
    LatestBreakNonneg(log + Settled(s, cfg, cur).events);
    LatestBreakNonneg(log + r.events + Settled(r.state, cfg, cur).events);
  }

  /** A pass that resolves no more leaves the same events to a settle at cur, and the same state but for a pointer
      that may be ahead. */
  lemma SettledAlike(s: State, cfg: Config, j: Date, cur: Date)
    requires ValidConfig(cfg) && Sound(s, cfg) && Current(j, cfg) && Current(cur, cfg) && ResolvesAlike(s, cfg, j, cur)
    ensures Sound(Settled(s, cfg, j).state, cfg)
    ensures var r := Settled(s, cfg, j); var q := Settled(r.state, cfg, cur); var o := Settled(s, cfg, cur);
            && o.events == r.events + q.events && SameButPointer(o.state, q.state)
            && (s.lastEarned == NO_DATE ==> o.state == q.state)
  {
    hide ValidConfig, Aligned, PrevPeriod, ActiveBetween, Charge;
    SettledSound(s, cfg, j);
    if j <= cur {
      SettleTwice(s, cfg, j, cur);
    } else if s.lastEarned != NO_DATE {
      SettleBack(s, cfg, j, cur);
      var auto := cfg.freezes.autoConsume;
      if s.count == 0 {
        ChargeIdle(s, auto, Pending(s, cfg, j));
        ChargeIdle(s, auto, Pending(s, cfg, cur));
      } else {
        PendingGrows(s, cfg, cur, j);
        ChargeClosed(s, auto, Pending(s, cfg, j));
        ChargeClosed(s, auto, Pending(s, cfg, cur));
        assert Settled(s, cfg, cur).events == Settled(s, cfg, j).events;
      }
    }
  }

  /** Repaired states that differ only in the pointer read the same. */
  lemma RestoredReads(x: State, y: State, cfg: Config, lost: int, cur: Date, zone: Zone)
    requires ValidConfig(cfg) && Current(cur, cfg) && lost >= 0 && SameButPointer(x, y)
    requires Sound(x, cfg) && Sound(y, cfg) && (x.lastEarned == NO_DATE ==> x == y)
    ensures var v, w := Restored(x, lost, PrevPeriod(cur, cfg)), Restored(y, lost, PrevPeriod(cur, cfg));
            Sound(v, cfg) && Sound(w, cfg) && DerivedAt(v, cfg, cur, zone) == DerivedAt(w, cfg, cur, zone)
  {
    hide ValidConfig, Aligned, PrevPeriod, ActiveBetween, PeriodEnd, LossPeriod;
    CurrentFacts(cur, cfg);
    var v, w := Restored(x, lost, PrevPeriod(cur, cfg)), Restored(y, lost, PrevPeriod(cur, cfg));
    if x.lastEarned != NO_DATE {
      NothingPending(Later(v.lastEarned, v.settledThrough), cur, cfg);
      NothingPending(Later(w.lastEarned, w.settledThrough), cur, cfg);
    }
  }

  /** A pass that resolves more shows through every repair. */
  lemma RestoredApart(s: State, cfg: Config, j: Date, cur: Date, zone: Zone, log: seq<Event>)
    requires ValidConfig(cfg) && Sound(s, cfg) && Current(j, cfg) && Current(cur, cfg) && !ResolvesAlike(s, cfg, j, cur)
    ensures Sound(Settled(s, cfg, j).state, cfg)
    ensures var r := Settled(s, cfg, j); var q := Settled(r.state, cfg, cur); var o := Settled(s, cfg, cur);
            var x, y := LatestBreak(log + r.events + q.events), LatestBreak(log + o.events);
            var v, w := Restored(q.state, x, PrevPeriod(cur, cfg)), Restored(o.state, y, PrevPeriod(cur, cfg));
            x > 0 && y > 0 ==>
              Sound(v, cfg) && Sound(w, cfg) && DerivedAt(v, cfg, cur, zone) != DerivedAt(w, cfg, cur, zone)
  {
    hide ValidConfig, Aligned, PrevPeriod, ActiveBetween, Charge, DerivedAt, LatestBreak, CountKind;
    SettledSound(s, cfg, j);
    SettledSound(s, cfg, cur);
    SettleBack(s, cfg, j, cur);
    PendingGrows(s, cfg, cur, j);
    CurrentFacts(cur, cfg);
    var r, o, auto := Settled(s, cfg, j), Settled(s, cfg, cur), cfg.freezes.autoConsume;
    ChargeClosed(s, auto, Pending(s, cfg, j));
    ChargeClosed(s, auto, Pending(s, cfg, cur));
    assert log + r.events + [] == log + r.events;
    if r.state.count == 0 {
      CountUniform(r.events, FreezeConsumed, EventKind.Broken, |r.events| - 1);
      BreakLast(s, cfg, j, log);
    }
    var x, y := LatestBreak(log + r.events), LatestBreak(log + o.events);
    if x > 0 && y > 0 {
      var prev := PrevPeriod(cur, cfg);
      ViewsDiffer(Restored(r.state, x, prev), Restored(o.state, y, prev), cfg, cur, zone);
    }
  }

  lemma QuietAfterBreak(s: State, cfg: Config, cur: Date)
    requires ValidConfig(cfg) && Sound(s, cfg) && s.count == 0
    ensures Settled(s, cfg, cur).events == [] && CountKind(Settled(s, cfg, cur).events, EventKind.Broken) == 0
  {
    hide ValidConfig, Aligned, PrevPeriod, ActiveBetween;
  }

  // ---------------------------------------------------------------- grants

  /** What a pass at j that resolves something would have to leave for a grant of n freezes to come out the same:
      freezes that are not consumed, or a broken chain and nothing granted, or a chain that breaks by k anyway. */
  predicate GrantCommutes(s: State, cfg: Config, j: Date, k: Date, n: int)
    requires ValidConfig(cfg) && Sound(s, cfg) && s.lastEarned != NO_DATE && Current(j, cfg)
  {
    var broke := CountKind(Settled(s, cfg, j).events, EventKind.Broken) > 0;
    !cfg.freezes.autoConsume || (if broke then n == 0 else LeftPending(s, cfg, j, k) > n)
  }

  /** How many periods are left to resolve at k after settling at j. */
  function LeftPending(s: State, cfg: Config, j: Date, k: Date): nat
    requires ValidConfig(cfg) && Sound(s, cfg) && s.lastEarned != NO_DATE && Current(j, cfg)
  {
    LeftAligned(s, cfg, j);
    |ActiveBetween(Later(Later(s.lastEarned, s.settledThrough), PrevPeriod(j, cfg)), k, cfg)|
  }

  lemma LeftAligned(s: State, cfg: Config, j: Date)
    requires Sound(s, cfg) && s.lastEarned != NO_DATE && Current(j, cfg)
    ensures Aligned(Later(Later(s.lastEarned, s.settledThrough), PrevPeriod(j, cfg)), cfg)
  {
    hide Aligned, PrevPeriod;
    CurrentFacts(j, cfg);
  }

  /** A scheduler pass before the inventory is set: from the period k of that call on, the stored states agree
      exactly when the pass does not settle past k and resolves nothing, or something that the grant makes up for. */
  lemma GrantAfterTickIff(row: Row, seen: Candidate, tick: Instant, tdb: Instant, n: nat, k: Date)
    requires Valid(row) && Plausible(seen, tick, row.cfg) && Current(k, row.cfg)
    ensures Valid(SettledDue(row, seen, tick, tdb))
    ensures var j := PeriodKey(tick, seen.zone, row.cfg); var ticked := SettledDue(row, seen, tick, tdb);
            SameFrom(ticked.(state := ticked.state.(freezes := n)), row.(state := row.state.(freezes := n)), k, false)
            <==> PassInTime(row.state, seen.state, row.cfg, j, k)
                 && (Skipped(seen.state, row.cfg, j) || Silent(row.state, row.cfg, j)
                     || GrantCommutes(row.state, row.cfg, j, k, n))
  {
    hide ValidConfig, Sound, Current, Settled, CountKind, Counted, PeriodKey, Skipped, PrevPeriod, SameFrom;
    hide GrantCommutes;
    var cfg, j := row.cfg, PeriodKey(tick, seen.zone, row.cfg);
    SettledDueValid(row, seen, tick, tdb);
    var ticked := SettledDue(row, seen, tick, tdb);
    var x, y := ticked.(state := ticked.state.(freezes := n)), row.(state := row.state.(freezes := n));
    GrantSound(row.state, cfg, n);
    GrantSound(ticked.state, cfg, n);
    assert Valid(x) && Valid(y);
    if Skipped(seen.state, cfg, j) {
      SameState(x, y, k, false);
    } else {
      if row.state.lastEarned == NO_DATE {
        SettleFresh(row.state, cfg, j);
        SettleFresh(x.state, cfg, k);
        SettleFresh(y.state, cfg, k);
      } else {
        GrantCommutesIff(row.state, cfg, j, k, n);
      }
      if Settled(x.state, cfg, k).state == Settled(y.state, cfg, k).state {
        SameOnceSettled(x, y, k);
      } else {
        DifferentAt(x, y, k, false);
      }
    }
  }

  lemma GrantSound(s: State, cfg: Config, n: nat)
    requires Sound(s, cfg)
    ensures Sound(s.(freezes := n), cfg)
  {
  }

  lemma SameOnceSettled(x: Row, y: Row, j: Date)
    requires Valid(x) && Valid(y) && x.cfg == y.cfg && x.marks == y.marks && Current(j, x.cfg)
    requires Settled(x.state, x.cfg, j).state == Settled(y.state, y.cfg, j).state
    ensures SameFrom(x, y, j, false)
  {
    hide ValidConfig, Sound, Current, Settled, Counted;
    forall c | c >= j && Current(c, x.cfg) ensures SameAt(x, y, c, false) {
      SettleTwice(x.state, x.cfg, j, c);
      SettleTwice(y.state, y.cfg, j, c);
    }
  }

  lemma DifferentAt(x: Row, y: Row, j: Date, logs: bool)
    requires Valid(x) && Valid(y) && Current(j, x.cfg)
    requires Settled(x.state, x.cfg, j).state != Settled(y.state, y.cfg, j).state
    ensures !SameFrom(x, y, j, logs)
  {
    hide ValidConfig, Sound, Current, Settled, Counted;
    assert !SameAt(x, y, j, logs);
  }

  /** Settling at j and then setting the inventory, against the other way round. */
  lemma GrantCommutesIff(s: State, cfg: Config, j: Date, k: Date, n: nat)
    requires ValidConfig(cfg) && Sound(s, cfg) && Current(j, cfg) && Current(k, cfg) && s.lastEarned != NO_DATE
    ensures Sound(Settled(s, cfg, j).state.(freezes := n), cfg) && Sound(s.(freezes := n), cfg)
    ensures Settled(Settled(s, cfg, j).state.(freezes := n), cfg, k).state == Settled(s.(freezes := n), cfg, k).state
            <==> (j <= k || PrevPeriod(j, cfg) <= s.settledThrough)
                 && (Silent(s, cfg, j) || GrantCommutes(s, cfg, j, k, n))
  {
    hide ValidConfig, Sound, Current, Settled, PrevPeriod, CountKind, GrantCommutes;
    SettledSound(s, cfg, j);
    GrantSound(s, cfg, n);
    GrantSound(Settled(s, cfg, j).state, cfg, n);
    if PrevPeriod(j, cfg) <= s.settledThrough {
      AlreadySettled(s, cfg, j);
    } else if k < j {
      GrantPointers(s, cfg, j, k, n);
    } else if Silent(s, cfg, j) {
      GrantSilent(s, cfg, j, n);
      SilentTwice(s, cfg, j, n);
      SettleTwice(s.(freezes := n), cfg, j, k);
      SettleTwice(Settled(s, cfg, j).state.(freezes := n), cfg, j, k);
    } else {
      GrantCharged(s, cfg, j, k, n);
    }
  }

  lemma GrantPointers(s: State, cfg: Config, j: Date, k: Date, n: nat)
    requires ValidConfig(cfg) && Sound(s, cfg) && Current(j, cfg) && Current(k, cfg) && k < j
    requires s.lastEarned != NO_DATE && s.settledThrough < PrevPeriod(j, cfg)
    ensures Sound(Settled(s, cfg, j).state.(freezes := n), cfg) && Sound(s.(freezes := n), cfg)
    ensures Settled(Settled(s, cfg, j).state.(freezes := n), cfg, k).state != Settled(s.(freezes := n), cfg, k).state
  {
    hide ValidConfig, Sound, Aligned, PrevPeriod, CalendarNext, Settled;
    SettledSound(s, cfg, j);
    GrantSound(s, cfg, n);
    GrantSound(Settled(s, cfg, j).state, cfg, n);
    CurrentFacts(k, cfg);
    NoKeyBetween(k, j, cfg);
    SettledPointers(s, cfg, j);
    SettledPointers(Settled(s, cfg, j).state.(freezes := n), cfg, k);
    SettledPointers(s.(freezes := n), cfg, k);
  }

  /** The pass has charged something. */
  lemma GrantCharged(s: State, cfg: Config, j: Date, k: Date, n: nat)
    requires ValidConfig(cfg) && Sound(s, cfg) && Current(j, cfg) && Current(k, cfg) && j <= k
    requires s.lastEarned != NO_DATE && !Silent(s, cfg, j)
    ensures Sound(Settled(s, cfg, j).state.(freezes := n), cfg) && Sound(s.(freezes := n), cfg)
    ensures Settled(Settled(s, cfg, j).state.(freezes := n), cfg, k).state == Settled(s.(freezes := n), cfg, k).state
            <==> GrantCommutes(s, cfg, j, k, n)
  {
    hide ValidConfig, Aligned, PrevPeriod, ActiveBetween, Charge, CountKind;
    var r := Settled(s, cfg, j);
    SettledSound(s, cfg, j);
    NotSilent(s, cfg, j);
    CurrentFacts(j, cfg);
    PrevMonotone(j, k, cfg);
    var auto, from := cfg.freezes.autoConsume, Later(s.lastEarned, s.settledThrough);
    var t, u := r.state.(freezes := n), s.(freezes := n);
    ChargeClosed(s, auto, Pending(s, cfg, j));
    CountUniform(r.events, FreezeConsumed, EventKind.Broken, Min(|Pending(s, cfg, j)|, Budget(s, auto)));
    ActiveBetweenSplit(from, j, k, cfg);
    ChargeClosed(u, auto, Pending(u, cfg, k));
    assert Later(t.lastEarned, t.settledThrough) == Later(from, PrevPeriod(j, cfg));
    if t.count > 0 {
      ChargeClosed(t, auto, Pending(t, cfg, k));
    } else {
      ChargeIdle(t, auto, Pending(t, cfg, k));
    }
  }

  lemma SilentTwice(s: State, cfg: Config, j: Date, n: nat)
    requires ValidConfig(cfg) && Sound(s, cfg) && Current(j, cfg) && Silent(s, cfg, j)
    ensures Sound(Settled(s, cfg, j).state.(freezes := n), cfg)
    ensures Settled(Settled(s, cfg, j).state.(freezes := n), cfg, j)
         == Outcome(Settled(s, cfg, j).state.(freezes := n), [])
  {
    hide ValidConfig, Aligned, Settled;
    SettledSound(s, cfg, j);
    GrantSilent(s, cfg, j, n);
    GrantSound(s, cfg, n);
    SettleTwice(s.(freezes := n), cfg, j, j);
  }

  // ---------------------------------------------------------------- rewrites

  /** Rows with the same state and ledger are told apart by what one of them has announced besides. */
  lemma LogsTell(x: Row, y: Row, events: seq<Event>, k: Date)
    requires Valid(x) && Valid(y) && x.cfg == y.cfg && x.marks == y.marks && x.state == y.state && Current(k, x.cfg)
    requires x.log == y.log + events && forall i | 0 <= i < |events| :: !events[i].kind.AtRisk?
    ensures SameFrom(x, y, k, true) <==> events == []
  {
    hide ValidConfig, Sound, Counted, Current, Settled, Core;
    CoreAppend(y.log, events);
    if events == [] {
      SameState(x, y, k, true);
    } else {
      var r := Settled(x.state, x.cfg, k).events;
      assert |Core(x.log) + r| != |Core(y.log) + r|;
      assert !SameAt(x, y, k, true);
    }
  }

  /** A scheduler pass before a recount, an unrecord or a new history: the state comes out the same, but what the
      pass has announced stays in the outbox, where the rewrite alone announces nothing.  So the rows stay the same
      for all that follows exactly when the pass announces nothing. */
  lemma RewriteAfterTickIff(row: Row, seen: Candidate, tick: Instant, tdb: Instant, now: Instant, zone: Zone,
                            periods: seq<Date>)
    requires Valid(row) && Plausible(seen, tick, row.cfg) && Clocked(now, zone, row.cfg)
    requires LedgerClocked(row.marks, zone, row.cfg)
    requires LedgerClocked(MarksFor(periods, row.cfg.minAmount), zone, row.cfg)
    ensures Valid(SettledDue(row, seen, tick, tdb))
    ensures var x, y := SettledDue(row, seen, tick, tdb), row;
            var k, j := PeriodKey(now, zone, row.cfg), PeriodKey(tick, seen.zone, row.cfg);
            var quiet := Skipped(seen.state, row.cfg, j) || Silent(row.state, row.cfg, j);
            && (SameFrom(Recounted(x, now, zone), Recounted(y, now, zone), k, true) <==> quiet)
            && (SameFrom(Unrecorded(x, now, zone), Unrecorded(y, now, zone), k, true) <==> quiet)
            && (SameFrom(Replaced(x, periods, now, zone), Replaced(y, periods, now, zone), k, true) <==> quiet)
  {
    hide ValidConfig, Sound, Counted, PeriodKey, Current, Settled, Skipped, EarnedPeriods, KeysOf, Replayed, MarksFor;
    hide SameFrom, LedgerClocked, CountKind, PeriodRepresentative;
    var x, k := SettledDue(row, seen, tick, tdb), PeriodKey(now, zone, row.cfg);
    var marks := MarksFor(periods, row.cfg.minAmount);
    var events := if Skipped(seen.state, row.cfg, PeriodKey(tick, seen.zone, row.cfg)) then []
                  else Settled(row.state, row.cfg, PeriodKey(tick, seen.zone, row.cfg)).events;
    SettledDueValid(row, seen, tick, tdb);
    SettledKinds(row.state, row.cfg, PeriodKey(tick, seen.zone, row.cfg));
    assert x.log == row.log + events && x.marks == row.marks && x.cfg == row.cfg;
    ClockedKey(now, zone, row.cfg);
    FewerMarksClocked(row.marks, k, zone, row.cfg);
    RewriteTells(x, row, events, now, zone);
    RewriteTells(x.(marks := row.marks - {k}), row.(marks := row.marks - {k}), events, now, zone);
    RewriteTells(x.(marks := marks, claims := {}), row.(marks := marks, claims := {}), events, now, zone);
  }

  lemma FewerMarksClocked(marks: map<Date, int>, p: Date, zone: Zone, cfg: Config)
    requires LedgerClocked(marks, zone, cfg)
    ensures LedgerClocked(marks - {p}, zone, cfg)
  {
  }

  lemma RewriteTells(x: Row, y: Row, events: seq<Event>, now: Instant, zone: Zone)
    requires Valid(x) && Valid(y) && x.cfg == y.cfg && x.marks == y.marks && x.log == y.log + events
    requires forall i | 0 <= i < |events| :: !events[i].kind.AtRisk?
    requires LedgerClocked(x.marks, zone, x.cfg) && Clocked(now, zone, x.cfg)
    ensures SameFrom(Recounted(x, now, zone), Recounted(y, now, zone), PeriodKey(now, zone, x.cfg), true)
            <==> events == []
  {
    hide ValidConfig, Sound, Counted, PeriodKey, Current, EarnedPeriods, KeysOf, Replayed, LedgerClocked, SameFrom;
    RecountedValid(x, now, zone);
    RecountedValid(y, now, zone);
    ClockedKey(now, zone, x.cfg);
    LogsTell(Recounted(x, now, zone), Recounted(y, now, zone), events, PeriodKey(now, zone, x.cfg));
  }

  // ---------------------------------------------------------------- shifts

  /** How many active periods a live streak misses before c, once it has been shifted n days back. */
  function MissedShifted(s: State, cfg: Config, n: int, c: Date): nat
    requires ValidConfig(cfg) && cfg.period.Day?
  {
    |ActiveBetween(Later(s.lastEarned, s.settledThrough) - n, c, cfg)|
  }

  /** The shifted streak, settled: it pays for each of them, or breaks. */
  lemma ShiftedSettles(s: State, cfg: Config, n: int, c: Date)
    requires ValidConfig(cfg) && Sound(s, cfg) && cfg.period.Day? && CanShiftState(s, n)
    requires s.lastEarned != NO_DATE && s.count > 0
    ensures Sound(ShiftState(s, n), cfg)
    ensures var m, b := MissedShifted(s, cfg, n, c), Budget(s, cfg.freezes.autoConsume);
            var t := ShiftState(s, n); var u := t.(settledThrough := Later(t.settledThrough, c - 1));
            Settled(t, cfg, c).state == if m > b then u.(freezes := s.freezes - b, count := 0, progress := 0)
                                        else u.(freezes := s.freezes - m)
  {
    hide ValidConfig, ActiveBetween, Charge;
    ShiftSound(s, cfg, n);
    var t := ShiftState(s, n);
    assert Later(t.lastEarned, t.settledThrough) == Later(s.lastEarned, s.settledThrough) - n;
    ChargeClosed(t, cfg.freezes.autoConsume, Pending(t, cfg, c));
  }

  /** The pass at j, and then the shifted streak up to k, resolve as many periods as the shifted streak does up to
      k without the pass; up to the break, after which nothing counts. */
  predicate ShiftOwesAlike(s: State, cfg: Config, n: int, j: Date, k: Date)
    requires ValidConfig(cfg) && Sound(s, cfg) && cfg.period.Day? && s.lastEarned != NO_DATE
  {
    var b, from := Budget(s, cfg.freezes.autoConsume), Later(s.lastEarned, s.settledThrough);
    Min(|Pending(s, cfg, j)| + |ActiveBetween(Later(from, j - 1) - n, k, cfg)|, b + 1)
    == Min(MissedShifted(s, cfg, n, k), b + 1)
  }

  /** The pass at j, shifted, does not settle past k. */
  predicate ShiftInTime(s: State, n: int, j: Date, k: Date) {
    j - n <= k || j - 1 <= s.settledThrough
  }

  lemma ShiftCommutesIff(s: State, cfg: Config, n: int, j: Date, k: Date)
    requires ValidConfig(cfg) && Sound(s, cfg) && cfg.period.Day? && Current(j, cfg) && Current(k, cfg)
    requires s.lastEarned != NO_DATE && CanShiftState(s, n) && CanShiftState(Settled(s, cfg, j).state, n)
    ensures Sound(ShiftState(s, n), cfg) && Sound(ShiftState(Settled(s, cfg, j).state, n), cfg)
    ensures Settled(ShiftState(Settled(s, cfg, j).state, n), cfg, k).state == Settled(ShiftState(s, n), cfg, k).state
            <==> ShiftInTime(s, n, j, k) && (s.count == 0 || ShiftOwesAlike(s, cfg, n, j, k))
  {
    hide ValidConfig, ActiveBetween, Charge;
    var t, auto := Settled(s, cfg, j).state, cfg.freezes.autoConsume;
    SettledSound(s, cfg, j);
    ShiftSound(s, cfg, n);
    ShiftSound(t, cfg, n);
    assert Later(t.lastEarned, t.settledThrough) == Later(Later(s.lastEarned, s.settledThrough), j - 1);
    if s.count == 0 {
      ChargeIdle(s, auto, Pending(s, cfg, j));
      ChargeIdle(ShiftState(s, n), auto, Pending(ShiftState(s, n), cfg, k));
      ChargeIdle(ShiftState(t, n), auto, Pending(ShiftState(t, n), cfg, k));
    } else {
      ChargeClosed(s, auto, Pending(s, cfg, j));
      ShiftedSettles(s, cfg, n, k);
      if t.count > 0 {
        ShiftedSettles(t, cfg, n, k);
      } else {
        ChargeIdle(ShiftState(t, n), auto, Pending(ShiftState(t, n), cfg, k));
      }
    }
  }

  /** A scheduler pass before a shift of a day streak: from the period k of the shift on, the stored states agree
      exactly when the pass skips the streak, nothing was ever earned, or the pass does not settle past the shifted
      period and the periods to resolve by k, if there is something to lose, are as many either way. */
  lemma ShiftAfterTickIff(row: Row, seen: Candidate, tick: Instant, tdb: Instant, n: int, k: Date)
    requires Valid(row) && Plausible(seen, tick, row.cfg) && n > 0 && row.cfg.period.Day? && Current(k, row.cfg)
    requires CanShift(row, n) && CanShift(SettledDue(row, seen, tick, tdb), n)
    ensures Valid(SettledDue(row, seen, tick, tdb))
    ensures var j, s := PeriodKey(tick, seen.zone, row.cfg), row.state;
            SameFrom(Shifted(SettledDue(row, seen, tick, tdb), n), Shifted(row, n), k, false)
            <==> Skipped(seen.state, row.cfg, j) || s.lastEarned == NO_DATE
                 || (ShiftInTime(s, n, j, k) && (s.count == 0 || ShiftOwesAlike(s, row.cfg, n, j, k)))
  {
    hide ValidConfig, Pointer, Current, Settled, CountKind, Counted, PeriodKey, Skipped, SameFrom, ShiftMarks;
    hide ShiftOwesAlike, PrevPeriod;
    var cfg, s, j := row.cfg, row.state, PeriodKey(tick, seen.zone, row.cfg);
    SettledDueValid(row, seen, tick, tdb);
    ClockedKey(tick, seen.zone, cfg);
    var ticked := SettledDue(row, seen, tick, tdb);
    var x, y := Shifted(ticked, n), Shifted(row, n);
    ShiftedValid(ticked, n);
    ShiftedValid(row, n);
    if Skipped(seen.state, cfg, j) {
      SameState(x, y, k, false);
    } else {
      if s.lastEarned == NO_DATE {
        SettleFresh(s, cfg, j);
        SettleFresh(x.state, cfg, k);
        SettleFresh(y.state, cfg, k);
      } else {
        ShiftCommutesIff(s, cfg, n, j, k);
      }
      if Settled(x.state, cfg, k).state == Settled(y.state, cfg, k).state {
        SameOnceSettled(x, y, k);
      } else {
        DifferentAt(x, y, k, false);
      }
    }
  }
}
