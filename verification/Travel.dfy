/** Changing zones: the generosity rule, and that no period is earned or charged twice
    (internal/engine/admin.go, internal/core/transition.go). */
module Travel {
  import opened Calendar
  import opened Configs
  import opened Periods
  import opened Boundaries
  import opened Transition
  import opened Derive
  import opened ClosedForm
  import opened Downtime
  import opened Rows
  import opened Sessions
  import opened Moves

  /** Generosity, for any streak and any two zones: what is read in the new zone after the change is what was
      read in the old zone before it, and the streak is broken after iff it was broken before. */
  lemma Generosity(row: Row, now: Instant, oldZone: Zone, newZone: Zone, db: Instant)
    requires Valid(row) && Clocked(now, oldZone, row.cfg) && Clocked(now, newZone, row.cfg)
    ensures Valid(Moved(row, now, oldZone, newZone, db))
    ensures var before := DerivedAt(row.state, row.cfg, PeriodKey(now, oldZone, row.cfg), oldZone);
            var row' := Moved(row, now, oldZone, newZone, db);
            var after := DerivedAt(row'.state, row.cfg, PeriodKey(now, newZone, row.cfg), newZone);
            && after.count == before.count && after.longest == before.longest
            && after.freezesAfterSpend == before.freezesAfterSpend && after.freezeProgress == before.freezeProgress
            && (after.liveness.Broken? <==> before.liveness.Broken?) && !after.liveness.Frozen?
  {
    hide ValidConfig, PeriodKey, Aligned, PrevPeriod, ActiveBetween, PeriodEnd, LossPeriod, CountKind;
    var cfg := row.cfg;
    var cur, next := PeriodKey(now, oldZone, cfg), PeriodKey(now, newZone, cfg);
    MovedValid(row, now, oldZone, newZone, db);
    CurrentFacts(next, cfg);
    SettledSound(row.state, cfg, cur);
    var t := Moved(row, now, oldZone, newZone, db).state;
    if row.state.lastEarned != NO_DATE {
      NothingPending(Later(t.lastEarned, t.settledThrough), next, cfg);
      if row.state.count > 0 {
        ChargeClosed(row.state, cfg.freezes.autoConsume, Pending(row.state, cfg, cur));
      }
    }
  }

  /** And generous only to the shift: of what is pending at any period once the old zone's misses are settled, the
      change forgives exactly the periods before the new zone's current one.  That period itself, unearned, still
      costs a freeze or the chain. */
  lemma MoveForgivesOnlyShift(row: Row, now: Instant, oldZone: Zone, newZone: Zone, db: Instant, c: Date, q: Date)
    requires Valid(row) && Clocked(now, oldZone, row.cfg) && Clocked(now, newZone, row.cfg) && Current(c, row.cfg)
    requires row.state.lastEarned != NO_DATE
    ensures var r := Settled(row.state, row.cfg, PeriodKey(now, oldZone, row.cfg)).state;
            Sound(r, row.cfg) && r.lastEarned != NO_DATE
    ensures var moved := Moved(row, now, oldZone, newZone, db);
            Sound(moved.state, row.cfg) && moved.state.lastEarned != NO_DATE
    ensures var r := Settled(row.state, row.cfg, PeriodKey(now, oldZone, row.cfg));
            var moved, next := Moved(row, now, oldZone, newZone, db), PeriodKey(now, newZone, row.cfg);
            && (q in Pending(moved.state, row.cfg, c) <==> q in Pending(r.state, row.cfg, c) && q >= next)
            && moved.log == row.log + r.events && moved.marks == row.marks && moved.claims == row.claims
            && moved.state == r.state.(settledThrough := moved.state.settledThrough)
            && (r.state.settledThrough < next ==> moved.state.settledThrough < next)
  {
    hide ValidConfig, PeriodKey, Aligned, ScheduledOn, PrevPeriod, CalendarNext, ActiveBetween;
    hide Settled, Counted, CountKind;
    var cfg := row.cfg;
    var next := PeriodKey(now, newZone, cfg);
    var r := Settled(row.state, cfg, PeriodKey(now, oldZone, cfg)).state;
    SettledSound(row.state, cfg, PeriodKey(now, oldZone, cfg));
    MovedValid(row, now, oldZone, newZone, db);
    CurrentFacts(next, cfg);
    var t := Moved(row, now, oldZone, newZone, db).state;
    ActiveBetweenExact(Later(r.lastEarned, r.settledThrough), c, cfg);
    ActiveBetweenExact(Later(t.lastEarned, t.settledThrough), c, cfg);
    if Aligned(q, cfg) { NoKeyBetween(q, next, cfg); }
  }

  /** A streak that has earned nothing yet is moved like one: the pointer comes before the new current period,
      unless the old zone was ahead. */
  lemma MovedPointer(row: Row, now: Instant, oldZone: Zone, newZone: Zone, db: Instant)
    requires Valid(row) && Clocked(now, oldZone, row.cfg) && Clocked(now, newZone, row.cfg)
    requires row.state.lastEarned == NO_DATE
    ensures var cur, next := PeriodKey(now, oldZone, row.cfg), PeriodKey(now, newZone, row.cfg);
            Moved(row, now, oldZone, newZone, db).state
            == row.state.(settledThrough := PrevPeriod(Later(cur, next), row.cfg))
  {
    hide ValidConfig, PeriodKey, Aligned, PrevPeriod, CalendarNext, Counted, CountKind;
    var cur, next := PeriodKey(now, oldZone, row.cfg), PeriodKey(now, newZone, row.cfg);
    if cur <= next { PrevMonotone(cur, next, row.cfg); } else { PrevMonotone(next, cur, row.cfg); }
  }

  // ---------------------------------------------------------------- earn once, charge once

  /** The periods of the events of the given kinds, in order. */
  ghost function PeriodsOf(events: seq<Event>, kinds: set<EventKind>): seq<Date> {
    if events == [] then []
    else
      var e := events[|events| - 1];
      PeriodsOf(events[..|events| - 1], kinds) + if e.kind in kinds then [e.period] else []
  }

  const EARNING: set<EventKind> := {Extended}
  const CHARGING: set<EventKind> := {FreezeConsumed, EventKind.Broken}

  lemma {:induction false} PeriodsConcat(a: seq<Event>, b: seq<Event>, kinds: set<EventKind>)
    ensures PeriodsOf(a + b, kinds) == PeriodsOf(a, kinds) + PeriodsOf(b, kinds)
    decreases |b|
  {
    if b == [] {
      assert a + b == a;
    } else {
      assert (a + b)[..|a + b| - 1] == a + b[..|b| - 1];
      PeriodsConcat(a, b[..|b| - 1], kinds);
    }
  }

  lemma {:induction false} PeriodsUniform(events: seq<Event>, kinds: set<EventKind>, all: bool)
    requires forall i | 0 <= i < |events| :: events[i].kind in kinds <==> all
    ensures |PeriodsOf(events, kinds)| == if all then |events| else 0
    ensures all ==> forall i | 0 <= i < |events| :: PeriodsOf(events, kinds)[i] == events[i].period
    decreases |events|
  {
    if events != [] {
      PeriodsUniform(events[..|events| - 1], kinds, all);
    }
  }

  lemma PeriodsOfOne(e: Event, kinds: set<EventKind>)
    ensures PeriodsOf([e], kinds) == if e.kind in kinds then [e.period] else []
  {
    assert [e][..0] == [] && PeriodsOf([], kinds) == [];
  }

  /** Settle charges pending periods in order, and earns nothing. */
  lemma {:induction false} ChargePeriods(s: State, auto: bool, missed: seq<Date>)
    ensures var events := Charge(s, auto, missed).events;
            |events| <= |missed| && forall i | 0 <= i < |events| :: events[i].period == missed[i]
    decreases |missed|
  {
    if missed != [] && s.count != 0 && auto && s.freezes > 0 {
      ChargePeriods(s.(freezes := s.freezes - 1), auto, missed[1..]);
    }
  }

  lemma SettledPeriods(s: State, cfg: Config, cur: Date)
    requires ValidConfig(cfg) && Sound(s, cfg) && Current(cur, cfg)
    ensures var events := Settled(s, cfg, cur).events;
            && PeriodsOf(events, EARNING) == []
            && |PeriodsOf(events, CHARGING)| == |events|
            && (s.lastEarned == NO_DATE ==> events == [])
            && Ascending(PeriodsOf(events, CHARGING))
            && forall p | p in PeriodsOf(events, CHARGING) ::
                 Later(s.lastEarned, s.settledThrough) < p <= PrevPeriod(cur, cfg) && Active(p, cfg)
  {
    hide ValidConfig, Aligned, ScheduledOn, PrevPeriod, ActiveBetween, CalendarNext;
    if s.lastEarned != NO_DATE {
      var from := Later(s.lastEarned, s.settledThrough);
      var missed, auto := Pending(s, cfg, cur), cfg.freezes.autoConsume;
      var events := Charge(s, auto, missed).events;
      ChargeEvents(s, auto, missed);
      ChargePeriods(s, auto, missed);
      PeriodsUniform(events, EARNING, false);
      PeriodsUniform(events, CHARGING, true);
      ActiveBetweenExact(from, cur, cfg);
      forall p | p in PeriodsOf(events, CHARGING) ensures from < p <= PrevPeriod(cur, cfg) && Active(p, cfg) {
        var i :| 0 <= i < |events| && PeriodsOf(events, CHARGING)[i] == p;
        assert missed[i] in missed;
        NoKeyBetween(p, cur, cfg);
      }
    } else {
      PeriodsUniform([], EARNING, false);
    }
  }

  lemma EarnedPeriodEvents(s: State, cfg: Config, p: Date)
    requires ValidConfig(cfg) && Sound(s, cfg)
    ensures var events := Earned(s, cfg, p).events;
            PeriodsOf(events, EARNING) == (if Earns(s, cfg, p) then [p] else []) && PeriodsOf(events, CHARGING) == []
  {
    hide ValidConfig, ScheduledOn, Aligned, Earned;
    var events := Earned(s, cfg, p).events;
    EarnedEvents(s, cfg, p);
    if Earns(s, cfg, p) {
      assert events == [events[0]] + events[1..];
      PeriodsOfOne(events[0], EARNING);
      PeriodsUniform(events[1..], EARNING, false);
      PeriodsConcat([events[0]], events[1..], EARNING);
    }
    PeriodsUniform(events, CHARGING, false);
  }

  /** Earned periods ascend up to the last earned one; charged periods ascend up to the settle pointer. */
  ghost predicate OnceEach(t: Track) {
    && Ascending(PeriodsOf(t.log, EARNING)) && (forall p | p in PeriodsOf(t.log, EARNING) :: p <= t.state.lastEarned)
    && Ascending(PeriodsOf(t.log, CHARGING))
    && (forall p | p in PeriodsOf(t.log, CHARGING) :: t.state.lastEarned != NO_DATE && p <= t.state.settledThrough)
  }

  lemma AscendingConcat(a: seq<Date>, b: seq<Date>, d: Date)
    requires Ascending(a) && Ascending(b) && (forall p | p in a :: p <= d) && (forall p | p in b :: d < p)
    ensures Ascending(a + b)
  {
    assert forall i | 0 <= i < |a| :: a[i] in a;
    assert forall i | 0 <= i < |b| :: b[i] in b;
  }

  lemma OnceEachSettling(t: Track, cfg: Config, cur: Date)
    requires ValidConfig(cfg) && MoveOk(t, cfg, Settling(cur)) && OnceEach(t)
    ensures OnceEach(Make(t, cfg, Settling(cur)))
  {
    hide ValidConfig, Aligned, ScheduledOn, PrevPeriod, Settled, Counted, Pointer, PeriodsOf;
    var events := Settled(t.state, cfg, cur).events;
    SettledPeriods(t.state, cfg, cur);
    SettledSound(t.state, cfg, cur);
    SettledPointer(t.state, cfg, cur);
    PeriodsConcat(t.log, events, EARNING);
    PeriodsConcat(t.log, events, CHARGING);
    AscendingConcat(PeriodsOf(t.log, CHARGING), PeriodsOf(events, CHARGING), t.state.settledThrough);
  }

  lemma OnceEachEarning(t: Track, cfg: Config, p: Date)
    requires ValidConfig(cfg) && MoveOk(t, cfg, Earning(p)) && OnceEach(t)
    ensures OnceEach(Make(t, cfg, Earning(p)))
  {
    hide ValidConfig, Aligned, ScheduledOn, Earned, Counted, Pointer, PeriodsOf;
    var events := Earned(t.state, cfg, p).events;
    EarnedPeriodEvents(t.state, cfg, p);
    EarnedPointers(t.state, cfg, p);
    PeriodsConcat(t.log, events, EARNING);
    PeriodsConcat(t.log, events, CHARGING);
    AscendingConcat(PeriodsOf(t.log, EARNING), PeriodsOf(events, EARNING), t.state.lastEarned);
  }

  lemma OnceEachMove(t: Track, cfg: Config, m: Move)
    requires ValidConfig(cfg) && MoveOk(t, cfg, m) && OnceEach(t)
    ensures OnceEach(Make(t, cfg, m))
  {
    hide ValidConfig, Aligned, Counted, LatestBreak, Pointer, PeriodsOf, Settled, Earned;
    match m
    case Settling(cur) => OnceEachSettling(t, cfg, cur);
    case Earning(p) => OnceEachEarning(t, cfg, p);
    case Pulling(_) =>
    case Restoring(cur) => AddSilent(t.log, Make(t, cfg, m).log[|t.log|]);
    case Reminding(e) => AddSilent(t.log, e);
    case Granting(_) =>
  }

  lemma AddSilent(log: seq<Event>, e: Event)
    requires e.kind.Repaired? || e.kind.AtRisk?
    ensures PeriodsOf(log + [e], EARNING) == PeriodsOf(log, EARNING)
    ensures PeriodsOf(log + [e], CHARGING) == PeriodsOf(log, CHARGING)
  {
    assert (log + [e])[..|log|] == log;
  }

  lemma SettledPointer(s: State, cfg: Config, cur: Date)
    requires ValidConfig(cfg) && Sound(s, cfg)
    ensures s.lastEarned != NO_DATE ==>
              Settled(s, cfg, cur).state.settledThrough == Later(s.settledThrough, PrevPeriod(cur, cfg))
  {
  }

  lemma EarnedPointers(s: State, cfg: Config, p: Date)
    requires ValidConfig(cfg)
    ensures Earned(s, cfg, p).state.settledThrough == s.settledThrough
    ensures Earned(s, cfg, p).state.lastEarned == (if Earns(s, cfg, p) then p else s.lastEarned)
  {
    hide ScheduledOn, MilestoneEvents;
  }

  lemma {:induction false} OnceEachMoves(t: Track, cfg: Config, moves: seq<Move>)
    requires ValidConfig(cfg) && CanMake(t, cfg, moves) && OnceEach(t)
    ensures OnceEach(MakeAll(t, cfg, moves))
    decreases |moves|
  {
    hide ValidConfig, MoveOk, Make, OnceEach;
    if moves != [] {
      OnceEachMove(t, cfg, moves[0]);
      OnceEachMoves(Make(t, cfg, moves[0]), cfg, moves[1..]);
    }
  }

  /** Over any run of records, ticks, repairs, freeze grants and zone changes, east or west, the periods of
      extended events strictly ascend, and so do the periods of freeze_consumed and broken events: no period is
      earned twice and none is charged twice. */
  lemma EarnOnceChargeOnce(cfg: Config, zone: Zone, calls: seq<Call>)
    requires CanRun(Session(NewRow(cfg), zone), calls) && AllOrdinary(calls)
    ensures var log := Run(Session(NewRow(cfg), zone), calls).row.log;
            Ascending(PeriodsOf(log, EARNING)) && Ascending(PeriodsOf(log, CHARGING))
  {
    hide ValidConfig, Step, Possible, Make, MoveOk, Sound, CanMake, MakeAll;
    var moves := RunMoves(Session(NewRow(cfg), zone), calls);
    assert PeriodsOf([], EARNING) == [] && PeriodsOf([], CHARGING) == [];
    OnceEachMoves(TrackOf(NewRow(cfg)), cfg, moves);
  }
}
