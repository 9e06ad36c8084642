/** What Repair does to a broken streak (internal/engine/admin.go). */
module Repairs {
  import opened Calendar
  import opened Configs
  import opened Periods
  import opened Transition
  import opened Replay
  import opened Derive
  import opened Downtime
  import opened Rows
  import opened Sessions

  /** A repair stores what the streak counted after settling plus what the newest break had cost it.  The streak
      reads alive at once, with that count, if and only if it has ever earned anything; otherwise it reads broken
      with a count of 0. */
  lemma RepairRevives(row: Row, now: Instant, zone: Zone, db: Instant)
    requires Valid(row) && Clocked(now, zone, row.cfg)
    requires RepairedRow(row, now, zone, db).reply.Done?
    ensures var cur := PeriodKey(now, zone, row.cfg); var r := Settled(row.state, row.cfg, cur);
            var lost := LatestBreak(row.log + r.events); var row' := RepairedRow(row, now, zone, db).row;
            && Valid(row') && lost > 0 && row'.state.count == r.state.count + lost
            && var d := DerivedAt(row'.state, row.cfg, cur, zone);
               && (d.liveness.Alive? <==> row.state.lastEarned != NO_DATE)
               && d.count == (if row.state.lastEarned != NO_DATE then row'.state.count else 0)
               && d.longest == Max(row.state.longest, row'.state.count) && d.freezesAfterSpend == r.state.freezes
  {
    hide ValidConfig, PeriodKey, Aligned, Settled, PrevPeriod, ActiveBetween, PeriodEnd, LossPeriod, CountKind;
    hide LatestBreak, ViewOf, Counted;
    var cur := PeriodKey(now, zone, row.cfg);
    var r := Settled(row.state, row.cfg, cur);
    SettledRow(row, cur, db);
    SettledSound(row.state, row.cfg, cur);
    LatestBreakNonneg(Persist(row, r.state, r.events, db).log);
    RepairedValid(row, now, zone, db);
    CurrentFacts(cur, row.cfg);
    var s := RepairedRow(row, now, zone, db).row.state;
    if s.lastEarned != NO_DATE {
      NothingPending(Later(s.lastEarned, s.settledThrough), cur, row.cfg);
    }
  }

  /** A repair is accepted exactly when the outbox, once settled, ends in a break that no repair has answered and
      that lost something, stamped no more than 30 days ago; a break that the repair's own settle writes down is
      stamped with the repair's own database clock.  Otherwise nothing changes.  An accepted repair adds the settle's
      events and one repaired event with the new count in the current period. */
  lemma RepairAcceptedIff(row: Row, now: Instant, zone: Zone, db: Instant)
    requires Valid(row) && Clocked(now, zone, row.cfg)
    ensures var cur := PeriodKey(now, zone, row.cfg); var r := Settled(row.state, row.cfg, cur);
            var x := RepairedRow(row, now, zone, db);
            var stamp := if exists i :: 0 <= i < |r.events| && r.events[i].kind.Broken? then db else row.brokenAt;
            && (x.reply.Done? <==>
                  LatestBreak(row.log + r.events) > 0 && now - stamp <= 30 * 24 * 60 * 60 * 1_000_000_000)
            && (x.reply.Failed? ==> x == Result(row, Failed(NothingToRepair)))
            && (x.reply.Done? ==>
                  && x.row.log == row.log + r.events + [Event(Repaired, cur, x.row.state.count)]
                  && x.row.marks == row.marks && x.row.claims == row.claims
                  && x.reply.view.amount == Amount(row.marks, cur))
  {
    hide ValidConfig, Current, CountKind, Counted, PeriodKey, DerivedAt, Settled, LatestBreak, Aligned, PrevPeriod;
    var cur := PeriodKey(now, zone, row.cfg);
    var r := Settled(row.state, row.cfg, cur);
    SettledRow(row, cur, db);
    CurrentFacts(cur, row.cfg);
    LatestBreakNonneg(Persist(row, r.state, r.events, db).log);
    CountedSome(r.events, EventKind.Broken);
    assert (row.log + r.events) + [Event(Repaired, cur, RepairedRow(row, now, zone, db).row.state.count)]
        == row.log + r.events + [Event(Repaired, cur, RepairedRow(row, now, zone, db).row.state.count)];
  }

  /** A second repair with no new break is refused and changes nothing. */
  lemma RepairRefusedTwice(row: Row, now: Instant, again: Instant, zone: Zone, db: Instant)
    requires Valid(row) && Clocked(now, zone, row.cfg) && Clocked(again, zone, row.cfg)
    requires RepairedRow(row, now, zone, db).reply.Done?
    ensures var row' := RepairedRow(row, now, zone, db).row;
            && Valid(row')
            && var events := Settled(row'.state, row.cfg, PeriodKey(again, zone, row.cfg)).events;
               (CountKind(events, EventKind.Broken) == 0 ==>
                  RepairedRow(row', again, zone, db) == Result(row', Failed(NothingToRepair)))
  {
    hide ValidConfig, PeriodKey, Aligned, Settled, PrevPeriod, ViewOf, Counted, Sound, CountKind, LatestBreak;
    RepairedValid(row, now, zone, db);
    var row' := RepairedRow(row, now, zone, db).row;
    var events := Settled(row'.state, row.cfg, PeriodKey(again, zone, row.cfg)).events;
    RepairEndsLog(row, now, zone, db);
    if CountKind(events, EventKind.Broken) == 0 {
      SettledKinds(row'.state, row.cfg, PeriodKey(again, zone, row.cfg));
      NoBreakAfter(row'.log, events);
    }
  }

  lemma RepairEndsLog(row: Row, now: Instant, zone: Zone, db: Instant)
    requires Valid(row) && Clocked(now, zone, row.cfg) && RepairedRow(row, now, zone, db).reply.Done?
    ensures LatestBreak(RepairedRow(row, now, zone, db).row.log) == 0
  {
    hide ValidConfig, PeriodKey, Aligned, Settled, PrevPeriod, ViewOf, Counted, Sound, CountKind;
  }

  lemma {:induction false} NoBreakAfter(log: seq<Event>, events: seq<Event>)
    requires CountKind(events, EventKind.Broken) == 0
    requires forall i | 0 <= i < |events| :: !events[i].kind.Repaired?
    ensures LatestBreak(log + events) == LatestBreak(log)
    decreases |events|
  {
    if events == [] {
      assert log + events == log;
    } else {
      var n := |events| - 1;
      assert (log + events)[..|log + events| - 1] == log + events[..n];
      NoBreakAfter(log, events[..n]);
    }
  }

  /** Repair looks at the outbox, ReplaceHistory does not touch it.  So when a streak with an unrepaired recent
      break is reset by an empty history, a repair gives the lost count back to a streak that has never earned
      anything: it stores that count, and every read shows 0. */
  lemma RepairAfterReset(row: Row, now: Instant, zone: Zone, db: Instant)
    requires Valid(row) && Clocked(now, zone, row.cfg)
    requires LatestBreak(row.log) > 0 && now - row.brokenAt <= REPAIR_WINDOW
    ensures LedgerClocked(MarksFor([], row.cfg.minAmount), zone, row.cfg)
    ensures Valid(Replaced(row, [], now, zone))
    ensures var r := RepairedRow(Replaced(row, [], now, zone), now, zone, db);
            && r.reply.Done? && Valid(r.row)
            && r.row.state.count == LatestBreak(row.log) && !Grounded(r.row.state)
            && DerivedAt(r.row.state, row.cfg, PeriodKey(now, zone, row.cfg), zone).count == 0
  {
    hide ValidConfig, PeriodKey, Aligned, PrevPeriod, LatestBreak, Counted, ViewOf, EarnedPeriods, Charge;
    var cfg := row.cfg;
    var wiped := row.(marks := map[], claims := {});
    assert MarksFor([], cfg.minAmount) == map[];
    RecountedValid(wiped, now, zone);
    var ledger := EarnedPeriods(map[], cfg.minAmount);
    assert ledger == [] by { LedgerUnique(ledger, []); }
    assert KeysOf([], zone, cfg) == [];
    NewStateSound(cfg);
    var reset := Replaced(row, [], now, zone);
    assert reset.state == Settled(NewState(cfg), cfg, PeriodKey(now, zone, cfg)).state;
    RepairedValid(reset, now, zone, db);
    assert reset.log + [] == reset.log;
  }
}
