/** In a zone whose periods do not go back, every active period is resolved exactly once
    (internal/core/transition.go). */
module Resolution {
  import opened Calendar
  import opened Configs
  import opened Periods
  import opened Transition
  import opened ClosedForm
  import opened Downtime
  import opened Grace
  import opened Rows
  import opened Sessions
  import opened Moves
  import opened Derive
  import opened Oracle
  import opened Travel
  import opened Scenarios

  const RESOLVING: set<EventKind> := {Extended, FreezeConsumed, EventKind.Broken}

  /** What keeps a chain going. */
  const KEEPING: set<EventKind> := {Extended, FreezeConsumed}

  /** The first period earned since the last break. */
  ghost function ChainStart(log: seq<Event>): Option<Date>
    decreases |log|
  {
    if log == [] then None
    else
      var e, init := log[|log| - 1], log[..|log| - 1];
      if e.kind.Broken? then None
      else if e.kind.Extended? && ChainStart(init).None? then Some(e.period)
      else ChainStart(init)
  }

  function Frontier(s: State): Date {
    Later(s.lastEarned, s.settledThrough)
  }

  /** The period of the newest break, NO_DATE when there is none. */
  ghost function BreakPeriod(log: seq<Event>): Date
    decreases |log|
  {
    if log == [] then NO_DATE
    else if log[|log| - 1].kind.Broken? then log[|log| - 1].period
    else BreakPeriod(log[..|log| - 1])
  }

  /** Resolved periods ascend up to the frontier; a chain skips no active period, and one that has broken was
      resolved without gaps up to its break. */
  ghost predicate Orderly(t: Track, cfg: Config)
    requires ValidConfig(cfg)
  {
    && Ascending(PeriodsOf(t.log, RESOLVING))
    && (forall p | p in PeriodsOf(t.log, RESOLVING) :: t.state.lastEarned != NO_DATE && p <= Frontier(t.state))
    && (t.state.count == 0 <==> ChainStart(t.log).None?)
    && (if t.state.count != 0 then t.state.lastEarned != NO_DATE && Unbroken(t, cfg) else Ended(t, cfg))
  }

  ghost predicate Unbroken(t: Track, cfg: Config)
    requires ValidConfig(cfg)
  {
    ChainStart(t.log).Some? && ChainStart(t.log).value <= t.state.lastEarned &&
    forall q | Active(q, cfg) && ChainStart(t.log).value <= q <= Frontier(t.state) :: q in PeriodsOf(t.log, KEEPING)
  }

  ghost predicate Ended(t: Track, cfg: Config)
    requires ValidConfig(cfg)
  {
    && (forall p | p in PeriodsOf(t.log, RESOLVING) :: p <= Later(t.state.lastEarned, BreakPeriod(t.log)))
    && (forall q | Active(q, cfg) && t.state.lastEarned < q <= BreakPeriod(t.log) :: q in PeriodsOf(t.log, RESOLVING))
  }

  lemma {:induction false} KeptIsResolved(log: seq<Event>, p: Date)
    requires p in PeriodsOf(log, KEEPING)
    ensures p in PeriodsOf(log, RESOLVING)
    decreases |log|
  {
    var init := log[..|log| - 1];
    if p in PeriodsOf(init, KEEPING) { KeptIsResolved(init, p); }
  }

  lemma {:induction false} ChainStartAfter(log: seq<Event>, events: seq<Event>)
    requires forall i | 0 <= i < |events| :: !events[i].kind.Extended? && !events[i].kind.Broken?
    ensures ChainStart(log + events) == ChainStart(log)
    decreases |events|
  {
    if events == [] {
      assert log + events == log;
    } else {
      assert (log + events)[..|log + events| - 1] == log + events[..|events| - 1];
      ChainStartAfter(log, events[..|events| - 1]);
    }
  }

  lemma ChainStartAdd(log: seq<Event>, e: Event)
    ensures ChainStart(log + [e]) == if e.kind.Broken? then None
                                     else if e.kind.Extended? && ChainStart(log).None? then Some(e.period)
                                     else ChainStart(log)
  {
    assert (log + [e])[..|log|] == log;
  }

  /** What a settled chain resolves: the first missed periods, each beyond the frontier and before cur. */
  lemma SettlingResolves(s: State, cfg: Config, cur: Date, log: seq<Event>)
    requires ValidConfig(cfg) && Sound(s, cfg) && Current(cur, cfg) && s.lastEarned != NO_DATE && s.count > 0
    requires Ascending(PeriodsOf(log, RESOLVING))
    requires forall p | p in PeriodsOf(log, RESOLVING) :: p <= Frontier(s)
    ensures var r := Settled(s, cfg, cur); var all := PeriodsOf(log + r.events, RESOLVING);
            Ascending(all) && forall p | p in all :: p <= Later(Frontier(s), PrevPeriod(cur, cfg))
  {
    hide ValidConfig, Aligned, ScheduledOn, PrevPeriod, ActiveBetween, CalendarNext, PeriodsOf, Charge;
    var auto, missed := cfg.freezes.autoConsume, Pending(s, cfg, cur);
    var r := Settled(s, cfg, cur);
    ChargeClosed(s, auto, missed);
    ActiveBetweenExact(Frontier(s), cur, cfg);
    PeriodsUniform(r.events, RESOLVING, true);
    PeriodsConcat(log, r.events, RESOLVING);
    var charged := missed[..|r.events|];
    assert PeriodsOf(r.events, RESOLVING) == charged;
    forall p | p in charged ensures Frontier(s) < p <= PrevPeriod(cur, cfg) {
      assert p in missed;
      NoKeyBetween(p, cur, cfg);
    }
    AscendingConcat(PeriodsOf(log, RESOLVING), charged, Frontier(s));
  }

  /** A chain that survives settling has paid for every active period before cur. */
  lemma SettlingKeeps(t: Track, cfg: Config, cur: Date)
    requires ValidConfig(cfg) && Sound(t.state, cfg) && Current(cur, cfg)
    requires t.state.lastEarned != NO_DATE && t.state.count > 0 && Unbroken(t, cfg)
    ensures var r := Settled(t.state, cfg, cur);
            && (r.state.count == 0 <==> ChainStart(t.log + r.events).None?)
            && (r.state.count > 0 ==> Unbroken(Track(r.state, t.log + r.events), cfg))
  {
    hide ValidConfig, Aligned, ScheduledOn, PrevPeriod, ActiveBetween, CalendarNext, PeriodsOf, ChainStart, Charge;
    var s, r := t.state, Settled(t.state, cfg, cur);
    var auto, missed := cfg.freezes.autoConsume, Pending(s, cfg, cur);
    var b := Budget(s, auto);
    ChargeClosed(s, auto, missed);
    if |missed| <= b {
      ActiveBetweenExact(Frontier(s), cur, cfg);
      ChainStartAfter(t.log, r.events);
      PeriodsUniform(r.events, KEEPING, true);
      PeriodsConcat(t.log, r.events, KEEPING);
      assert PeriodsOf(r.events, KEEPING) == missed;
      CalendarSteps(cur, cfg);
    } else {
      assert t.log + r.events == (t.log + r.events[..b]) + [r.events[b]];
      ChainStartAdd(t.log + r.events[..b], r.events[b]);
    }
  }

  /** A chain that does not survive settling has been resolved up to its break. */
  lemma SettlingEnds(t: Track, cfg: Config, cur: Date)
    requires ValidConfig(cfg) && Sound(t.state, cfg) && Current(cur, cfg)
    requires t.state.lastEarned != NO_DATE && t.state.count > 0 && Unbroken(t, cfg)
    requires forall p | p in PeriodsOf(t.log, RESOLVING) :: p <= Frontier(t.state)
    requires Settled(t.state, cfg, cur).state.count == 0
    ensures var r := Settled(t.state, cfg, cur); Ended(Track(r.state, t.log + r.events), cfg)
  {
    hide ValidConfig, Aligned, ScheduledOn, PrevPeriod, ActiveBetween, CalendarNext, PeriodsOf, ChainStart, Charge;
    hide BreakPeriod;
    var s, r := t.state, Settled(t.state, cfg, cur);
    var auto, missed := cfg.freezes.autoConsume, Pending(s, cfg, cur);
    var b := Budget(s, auto);
    ChargeClosed(s, auto, missed);
    ChargeFrame(s, auto, missed);
    ActiveBetweenExact(Frontier(s), cur, cfg);
    PeriodsUniform(r.events, RESOLVING, true);
    PeriodsConcat(t.log, r.events, RESOLVING);
    var all, charged := t.log + r.events, PeriodsOf(r.events, RESOLVING);
    assert charged == missed[..b + 1];
    assert all[|all| - 1] == r.events[b];
    assert BreakPeriod(all) == missed[b] by { NewestBreak(all); }
    assert missed[b] in missed;
    forall p | p in charged ensures p <= missed[b] {
      var i :| 0 <= i <= b && missed[i] == p;
    }
    forall q | Active(q, cfg) && s.lastEarned < q <= missed[b] ensures q in PeriodsOf(all, RESOLVING) {
      if q <= Frontier(s) {
        KeptIsResolved(t.log, q);
      } else {
        var i :| 0 <= i < |missed| && missed[i] == q;
        assert charged[i] == q;
      }
    }
  }

  lemma NewestBreak(log: seq<Event>)
    requires log != [] && log[|log| - 1].kind.Broken?
    ensures BreakPeriod(log) == log[|log| - 1].period
  {
  }

  lemma OrderlySettling(t: Track, cfg: Config, cur: Date)
    requires ValidConfig(cfg) && Sound(t.state, cfg) && Current(cur, cfg) && Orderly(t, cfg)
    ensures var r := Settled(t.state, cfg, cur); Orderly(Track(r.state, t.log + r.events), cfg)
  {
    hide ValidConfig, Aligned, PrevPeriod, ActiveBetween, PeriodsOf, ChainStart, Unbroken, Charge, BreakPeriod;
    var s, r := t.state, Settled(t.state, cfg, cur);
    SettledPointer(s, cfg, cur);
    SettledSound(s, cfg, cur);
    if s.lastEarned == NO_DATE || s.count == 0 {
      if s.lastEarned != NO_DATE { ChargeIdle(s, cfg.freezes.autoConsume, Pending(s, cfg, cur)); }
      assert t.log + r.events == t.log;
    } else {
      SettlingResolves(s, cfg, cur, t.log);
      SettlingKeeps(t, cfg, cur);
      if r.state.count == 0 { SettlingEnds(t, cfg, cur); }
    }
  }

  /** Earning a period beyond the frontier, with nothing left to resolve before it. */
  lemma OrderlyEarning(t: Track, cfg: Config, p: Date)
    requires ValidConfig(cfg) && Sound(t.state, cfg) && Current(p, cfg) && Orderly(t, cfg)
    requires t.state.settledThrough < p && NothingToResolve(t.state, cfg, p)
    ensures var r := Earned(t.state, cfg, p); Orderly(Track(r.state, t.log + r.events), cfg)
  {
    hide ValidConfig, Aligned, ScheduledOn, PrevPeriod, CalendarNext, PeriodsOf, ChainStart, Earned, ActiveBetween;
    var s, r := t.state, Earned(t.state, cfg, p);
    EarnedEvents(s, cfg, p);
    EarnedPointers(s, cfg, p);
    if !Earns(s, cfg, p) {
      assert t.log + r.events == t.log;
    } else {
      var e, rest := r.events[0], r.events[1..];
      assert t.log + r.events == (t.log + [e]) + rest;
      ChainStartAdd(t.log, e);
      ChainStartAfter(t.log + [e], rest);
      EarnedKeeps(r.events, RESOLVING);
      EarnedKeeps(r.events, KEEPING);
      PeriodsConcat(t.log, r.events, RESOLVING);
      PeriodsConcat(t.log, r.events, KEEPING);
      AscendingConcat(PeriodsOf(t.log, RESOLVING), [p], p - 1);
      if s.lastEarned != NO_DATE { ActiveBetweenExact(Frontier(s), p, cfg); }
    }
  }

  /** After settling to p nothing is left to resolve before it. */
  lemma ResolvedUpTo(s: State, cfg: Config, p: Date)
    requires ValidConfig(cfg) && Sound(s, cfg) && Current(p, cfg) && s.settledThrough == PrevPeriod(p, cfg)
    ensures s.settledThrough < p && NothingToResolve(s, cfg, p)
  {
    hide ValidConfig, Aligned, ScheduledOn, PrevPeriod, ActiveBetween;
    CurrentFacts(p, cfg);
    if s.lastEarned != NO_DATE { NothingPending(Frontier(s), p, cfg); }
  }

  lemma EarnedKeeps(events: seq<Event>, kinds: set<EventKind>)
    requires kinds == RESOLVING || kinds == KEEPING
    requires events != [] && events[0].kind.Extended?
    requires forall i | 0 < i < |events| ::
               var k := events[i].kind; k.FreezeEarned? || k.Milestone? || k.Completed?
    ensures PeriodsOf(events, kinds) == [events[0].period]
  {
    hide PeriodsOf;
    assert events == [events[0]] + events[1..];
    PeriodsOfOne(events[0], kinds);
    PeriodsUniform(events[1..], kinds, false);
    PeriodsConcat([events[0]], events[1..], kinds);
  }

  // ---------------------------------------------------------------- runs

  /** The regime: scheduler steps with any clock and zone, and records, their periods not going back and the late ones
      in replay order. */
  ghost predicate SteadyCall(s: Session, c: Call, k: Date)
    requires Valid(s.row)
  {
    && Possible(s, c)
    && match c.op
       case SettleTick(_) => true
       case RemindTick(_) => true
       case Record(at, _) =>
         && k <= PeriodKey(c.now, s.zone, s.row.cfg)
         && (BranchOf(s.row, c.now, at, s.zone).InGrace? ==> InReplayOrder(s, c))
       case _ => false
  }

  /** The latest period seen so far. */
  ghost function SteadyKey(s: Session, c: Call, k: Date): Date {
    match c.op
    case SettleTick(seen) => Later(k, PeriodKey(c.now, seen.zone, s.row.cfg))
    case RemindTick(_) => k
    case _ => PeriodKey(c.now, s.zone, s.row.cfg)
  }

  ghost predicate SteadyRun(s: Session, calls: seq<Call>, k: Date)
    decreases |calls|
  {
    Valid(s.row) &&
    (calls == [] || (SteadyCall(s, calls[0], k) && SteadyRun(Step(s, calls[0]), calls[1..], SteadyKey(s, calls[0], k))))
  }

  ghost predicate SteadyRow(row: Row, k: Date) {
    && Valid(row) && Current(k, row.cfg) && Orderly(TrackOf(row), row.cfg)
    && row.state.settledThrough <= PrevPeriod(k, row.cfg)
  }

  lemma SteadySettle(row: Row, cur: Date, k: Date, db: Instant)
    requires SteadyRow(row, k) && Current(cur, row.cfg)
    ensures var r := Settled(row.state, row.cfg, cur); var row' := Persist(row, r.state, r.events, db);
            SteadyRow(row', Later(k, cur)) && (k <= cur ==> row'.state.settledThrough == PrevPeriod(cur, row.cfg))
  {
    hide ValidConfig, Aligned, PrevPeriod, Charge, Orderly, CountKind, Pending;
    SettledRow(row, cur, db);
    OrderlySettling(TrackOf(row), row.cfg, cur);
    if k <= cur { PrevMonotone(k, cur, row.cfg); } else { PrevMonotone(cur, k, row.cfg); }
    SettledPointer(row.state, row.cfg, cur);
  }

  lemma SteadyLater(row: Row, k: Date, cur: Date)
    requires SteadyRow(row, k) && Current(cur, row.cfg) && k <= cur
    ensures SteadyRow(row, cur)
  {
    hide ValidConfig, Aligned, PrevPeriod, Orderly, Sound;
    PrevMonotone(k, cur, row.cfg);
  }

  lemma SteadyEarn(row: Row, cur: Date, db: Instant)
    requires SteadyRow(row, cur) && row.state.settledThrough == PrevPeriod(cur, row.cfg)
    ensures var r := Earned(row.state, row.cfg, cur); SteadyRow(Persist(row, r.state, r.events, db), cur)
  {
    hide ValidConfig, Aligned, PrevPeriod, Orderly, CountKind, Earned;
    var r := Earned(row.state, row.cfg, cur);
    EarnedSound(row.state, row.cfg, cur);
    EarnedCounted(row.state, row.cfg, cur);
    PersistValid(row, r.state, r.events, db);
    ResolvedUpTo(row.state, row.cfg, cur);
    OrderlyEarning(TrackOf(row), row.cfg, cur);
    EarnedPointers(row.state, row.cfg, cur);
  }

  /** Rows that differ only in marks and bookkeeping are steady together. */
  lemma SteadySame(a: Row, b: Row, k: Date)
    requires SteadyRow(a, k) && Valid(b) && b.cfg == a.cfg && TrackOf(b) == TrackOf(a)
    ensures SteadyRow(b, k)
  {
    hide Valid, Orderly, PrevPeriod, Aligned;
  }

  lemma SteadyRecord(s: Session, c: Call, k: Date)
    requires SteadyRow(s.row, k) && SteadyCall(s, c, k) && c.op.Record?
    ensures SteadyRow(Step(s, c).row, PeriodKey(c.now, s.zone, s.row.cfg))
  {
    hide ValidConfig, Sound, PeriodKey, Current, Orderly, Settled, Earned, CountKind, ViewOf, PrevPeriod, Counted;
    hide NothingToResolve;
    var row, cfg := s.row, s.row.cfg;
    var cur := PeriodKey(c.now, s.zone, cfg);
    StepValid(s, c);
    match BranchOf(row, c.now, c.op.at, s.zone)
    case Outside => SteadyLater(row, k, cur);
    case InGrace => LateRecordSteady(s, c, k);
    case Normal =>
      var total := Amount(row.marks, cur) + Max(c.op.amount, 1);
      var r := Settled(row.state, cfg, cur);
      var x := Persist(row, r.state, r.events, c.db);
      SteadySettle(row, cur, k, c.db);
      if total >= cfg.minAmount {
        var a := Earned(x.state, cfg, cur);
        SteadyEarn(x, cur, c.db);
        var y := Persist(x, a.state, a.events, c.db);
        assert Step(s, c).row.log == y.log && Step(s, c).row.state == y.state;
        SteadySame(y, Step(s, c).row, cur);
      } else {
        assert Step(s, c).row.log == x.log && Step(s, c).row.state == x.state;
        SteadySame(x, Step(s, c).row, cur);
      }
  }

  /** What a late record does to state and outbox: earn, if the threshold is reached, then settle. */
  lemma LateRecordTrack(s: Session, c: Call)
    requires Valid(s.row) && Possible(s, c) && c.op.Record? && BranchOf(s.row, c.now, c.op.at, s.zone).InGrace?
    ensures var row, cfg := s.row, s.row.cfg;
            var p, cur := PeriodKey(c.op.at, s.zone, cfg), PeriodKey(c.now, s.zone, cfg);
            var a := if Amount(row.marks, p) + Max(c.op.amount, 1) >= cfg.minAmount then Earned(row.state, cfg, p)
                     else Outcome(row.state, []);
            Sound(a.state, cfg) &&
            var q := Settled(a.state, cfg, cur);
            TrackOf(Step(s, c).row) == Track(q.state, (row.log + a.events) + q.events)
  {
    hide ValidConfig, Sound, PeriodKey, Current, Settled, Earned, CountKind, ViewOf, Counted;
    EarnedSound(s.row.state, s.row.cfg, PeriodKey(c.op.at, s.zone, s.row.cfg));
  }

  lemma LateRecordSteady(s: Session, c: Call, k: Date)
    requires SteadyRow(s.row, k) && SteadyCall(s, c, k) && c.op.Record?
    requires BranchOf(s.row, c.now, c.op.at, s.zone).InGrace?
    ensures SteadyRow(Step(s, c).row, PeriodKey(c.now, s.zone, s.row.cfg))
  {
    hide ValidConfig, Sound, PeriodKey, Aligned, Orderly, Settled, Earned, PrevPeriod, Counted, NothingToResolve, Step;
    var row, cfg := s.row, s.row.cfg;
    var p, cur := PeriodKey(c.op.at, s.zone, cfg), PeriodKey(c.now, s.zone, cfg);
    StepValid(s, c);
    LateRecordTrack(s, c);
    if Amount(row.marks, p) + Max(c.op.amount, 1) >= cfg.minAmount {
      var a := Earned(row.state, cfg, p);
      EarnedSound(row.state, cfg, p);
      EarnedPointers(row.state, cfg, p);
      OrderlyEarning(TrackOf(row), cfg, p);
      OrderlySettling(Track(a.state, row.log + a.events), cfg, cur);
      SettledBehind(a.state, cfg, cur);
    } else {
      assert row.log + [] == row.log;
      OrderlySettling(TrackOf(row), cfg, cur);
      SettledBehind(row.state, cfg, cur);
    }
  }

  lemma SettledBehind(s: State, cfg: Config, cur: Date)
    requires ValidConfig(cfg) && Sound(s, cfg) && Current(cur, cfg) && s.settledThrough < cur
    ensures Settled(s, cfg, cur).state.settledThrough <= PrevPeriod(cur, cfg)
  {
    hide ValidConfig, Aligned, PrevPeriod, ActiveBetween, Charge;
    PointerBehind(s.settledThrough, cur, cfg);
    SettledPointer(s, cfg, cur);
  }

  /** The condition on late records is exact.  An orderly streak stays orderly through a record of the period that
      has just ended if and only if the record is in replay order; otherwise the period it skips is never resolved. */
  lemma LateRecordKeepsOrderIff(s: Session, c: Call)
    requires Valid(s.row) && Possible(s, c) && c.op.Record? && BranchOf(s.row, c.now, c.op.at, s.zone).InGrace?
    requires PeriodKey(c.op.at, s.zone, s.row.cfg) == PrevPeriod(PeriodKey(c.now, s.zone, s.row.cfg), s.row.cfg)
    requires Orderly(TrackOf(s.row), s.row.cfg)
    ensures Orderly(TrackOf(Step(s, c).row), s.row.cfg) <==> InReplayOrder(s, c)
  {
    hide ValidConfig, Sound, PeriodKey, Aligned, Orderly, Settled, Earned, PrevPeriod, Counted, NothingToResolve, Step;
    var row, cfg := s.row, s.row.cfg;
    var p, cur := PeriodKey(c.op.at, s.zone, cfg), PeriodKey(c.now, s.zone, cfg);
    LateRecordTrack(s, c);
    if Amount(row.marks, p) + Max(c.op.amount, 1) >= cfg.minAmount {
      var a := Earned(row.state, cfg, p);
      EarnedSound(row.state, cfg, p);
      if NothingToResolve(row.state, cfg, p) {
        OrderlyEarning(TrackOf(row), cfg, p);
        OrderlySettling(Track(a.state, row.log + a.events), cfg, cur);
      } else {
        SkippingLeavesOrder(TrackOf(row), cfg, p, cur);
      }
    } else {
      assert row.log + [] == row.log;
      OrderlySettling(TrackOf(row), cfg, cur);
    }
  }

  /** Earning p over the heads of unresolved periods leaves them unresolved. */
  lemma SkippingLeavesOrder(t: Track, cfg: Config, p: Date, cur: Date)
    requires ValidConfig(cfg) && Sound(t.state, cfg) && Current(p, cfg) && Current(cur, cfg) && Orderly(t, cfg)
    requires PrevPeriod(cur, cfg) == p && t.state.settledThrough < p && t.state.lastEarned < p
    requires !NothingToResolve(t.state, cfg, p)
    ensures Sound(Earned(t.state, cfg, p).state, cfg)
    ensures var a := Earned(t.state, cfg, p); var q := Settled(a.state, cfg, cur);
            !Orderly(Track(q.state, (t.log + a.events) + q.events), cfg)
  {
    hide ValidConfig, Aligned, ScheduledOn, PrevPeriod, PeriodsOf, ChainStart, Earned, ActiveBetween, BreakPeriod;
    hide Ended;
    var s, a := t.state, Earned(t.state, cfg, p);
    EarnedSound(s, cfg, p);
    EarnedEvents(s, cfg, p);
    EarnedPointers(s, cfg, p);
    SettledAfterEarning(a.state, cfg, cur);
    var q := Settled(a.state, cfg, cur);
    var all := t.log + a.events;
    assert all + q.events == all;
    var e, rest := a.events[0], a.events[1..];
    assert all == (t.log + [e]) + rest;
    ChainStartAdd(t.log, e);
    ChainStartAfter(t.log + [e], rest);
    EarnedKeeps(a.events, KEEPING);
    PeriodsConcat(t.log, a.events, KEEPING);
    ActiveBetweenExact(Frontier(s), p, cfg);
    var m := Pending(s, cfg, p)[0];
    assert m in Pending(s, cfg, p);
    if m in PeriodsOf(t.log, KEEPING) { KeptIsResolved(t.log, m); }
    assert m !in PeriodsOf(all, KEEPING);
    assert ChainStart(all).value <= m <= Frontier(q.state);
  }

  lemma SteadyTick(s: Session, c: Call, k: Date)
    requires SteadyRow(s.row, k) && SteadyCall(s, c, k) && c.op.SettleTick?
    ensures SteadyRow(Step(s, c).row, SteadyKey(s, c, k))
  {
    hide ValidConfig, Sound, PeriodKey, Current, Settled, CountKind, PrevPeriod, Counted, Skipped, Orderly, Persist;
    var j := PeriodKey(c.now, c.op.seen.zone, s.row.cfg);
    SteadyLater(s.row, k, Later(k, j));
    SteadySettle(s.row, j, k, c.db);
  }

  lemma SteadyRemind(s: Session, c: Call, k: Date)
    requires SteadyRow(s.row, k) && SteadyCall(s, c, k) && c.op.RemindTick?
    ensures SteadyRow(Step(s, c).row, k)
  {
    hide ValidConfig, Sound, PeriodKey, Current, CountKind, PrevPeriod, Counted, DerivedAt, AtWall, PeriodsOf;
    hide ChainStart;
    hide BreakPeriod;
    var row, y := s.row, Step(s, c).row;
    StepValid(s, c);
    if Reminds(row, c.op.seen, c.now) {
      var e := y.log[|row.log|];
      assert y.log == row.log + [e] && e.kind.AtRisk?;
      PeriodsConcat(row.log, [e], RESOLVING);
      PeriodsConcat(row.log, [e], KEEPING);
      PeriodsOfOne(e, RESOLVING);
      PeriodsOfOne(e, KEEPING);
      ChainStartAdd(row.log, e);
      assert BreakPeriod(y.log) == BreakPeriod(row.log) by { QuietBreak(row.log, e); }
    }
  }

  lemma QuietBreak(log: seq<Event>, e: Event)
    requires !e.kind.Broken?
    ensures BreakPeriod(log + [e]) == BreakPeriod(log)
  {
    assert (log + [e])[..|log|] == log;
  }

  lemma {:induction false} SteadyRuns(s: Session, calls: seq<Call>, k: Date)
    requires SteadyRow(s.row, k) && SteadyRun(s, calls, k)
    ensures CanRun(s, calls) && Valid(Run(s, calls).row) && Run(s, calls).row.cfg == s.row.cfg
    ensures Orderly(TrackOf(Run(s, calls).row), s.row.cfg)
    decreases |calls|
  {
    hide ValidConfig, Sound, Step, Possible, PeriodKey, Orderly, Aligned, PrevPeriod;
    if calls != [] {
      StepValid(s, calls[0]);
      StepSameZone(s, calls[0]);
      match calls[0].op {
      case SettleTick(_) => SteadyTick(s, calls[0], k);
      case RemindTick(_) => SteadyRemind(s, calls[0], k);
      case Record(_, _) => SteadyRecord(s, calls[0], k);
      }
      SteadyRuns(Step(s, calls[0]), calls[1..], SteadyKey(s, calls[0], k));
    }
  }

  lemma StepSameZone(s: Session, c: Call)
    requires Valid(s.row) && Possible(s, c) && !c.op.SetTimezone?
    ensures Step(s, c).zone == s.zone
  {
    hide ValidConfig, Sound, PeriodKey, Recorded, SettledDue, Reminded, RepairedRow, Recounted, Aligned;
  }

  /** Over runs of scheduler steps and records, their periods not going back and the late ones in replay order: no
      active period is resolved twice, by an extended, a freeze_consumed or a broken event; and while a chain is
      unbroken, every active period from its first earn to the later of the last earned period and the settle
      pointer was earned or paid for with a freeze, exactly once. */
  lemma ResolvedExactlyOnce(cfg: Config, zone: Zone, calls: seq<Call>, k: Date, q: Date)
    requires ValidConfig(cfg) && Current(k, cfg) && SteadyRun(Session(NewRow(cfg), zone), calls, k)
    ensures CanRun(Session(NewRow(cfg), zone), calls)
    ensures var row := Run(Session(NewRow(cfg), zone), calls).row;
            && Ascending(PeriodsOf(row.log, RESOLVING))
            && (row.state.count > 0 ==> ChainStart(row.log).Some?)
            && (row.state.count > 0 && Active(q, cfg)
                && ChainStart(row.log).value <= q <= Later(row.state.lastEarned, row.state.settledThrough)
                ==> q in PeriodsOf(row.log, KEEPING))
  {
    hide ValidConfig, Sound, Step, Possible, PeriodKey, Aligned, PrevPeriod, PeriodsOf, ChainStart, SteadyRun, Run;
    hide CanRun;
    NewRowSteady(cfg, k);
    SteadyRuns(Session(NewRow(cfg), zone), calls, k);
  }

  lemma NewRowSteady(cfg: Config, k: Date)
    requires ValidConfig(cfg) && Current(k, cfg)
    ensures SteadyRow(NewRow(cfg), k)
  {
    hide ValidConfig, Aligned, PrevPeriod, PeriodsOf, ChainStart, BreakPeriod;
    EmptyLog();
    NewRowValid(cfg);
    CurrentFacts(k, cfg);
  }

  lemma EmptyLog()
    ensures PeriodsOf([], RESOLVING) == [] && ChainStart([]).None? && BreakPeriod([]) == NO_DATE
  {
  }

  // ---------------------------------------------------------------- outside the regime

  /** How far beyond the last earned period the resolved ones reach: to the settle pointer while the chain lives,
      to its break once it is lost. */
  ghost function ResolvedTo(t: Track): Date {
    if t.state.count != 0 then t.state.settledThrough else BreakPeriod(t.log)
  }

  /** A period that can still be earned has been resolved already exactly when it lies within that reach. */
  lemma EarnAgainIff(t: Track, cfg: Config, p: Date)
    requires ValidConfig(cfg) && Orderly(t, cfg) && Current(p, cfg) && Earns(t.state, cfg, p)
    ensures p in PeriodsOf(t.log, RESOLVING) <==> p <= ResolvedTo(t)
  {
    hide ValidConfig, Aligned, ScheduledOn, PeriodsOf, ChainStart, BreakPeriod;
    assert Active(p, cfg);
    if t.state.count != 0 && p <= t.state.settledThrough {
      KeptIsResolved(t.log, p);
    }
  }

  /** Settling to a period that can be earned does not move that reach across it. */
  lemma SettlingKeepsReach(t: Track, cfg: Config, p: Date)
    requires ValidConfig(cfg) && Sound(t.state, cfg) && Orderly(t, cfg) && Current(p, cfg) && Earns(t.state, cfg, p)
    ensures var r := Settled(t.state, cfg, p); var u := Track(r.state, t.log + r.events);
            && Orderly(u, cfg) && Earns(u.state, cfg, p)
            && (p in PeriodsOf(u.log, RESOLVING) <==> p <= ResolvedTo(t))
  {
    hide ValidConfig, Aligned, ScheduledOn, PrevPeriod, ActiveBetween, PeriodsOf, ChainStart, BreakPeriod, Charge;
    hide Unbroken, Ended;
    var s, r := t.state, Settled(t.state, cfg, p);
    var u := Track(r.state, t.log + r.events);
    OrderlySettling(t, cfg, p);
    SettledSound(s, cfg, p);
    CurrentFacts(p, cfg);
    EarnAgainIff(t, cfg, p);
    if s.lastEarned == NO_DATE || s.count == 0 {
      if s.lastEarned != NO_DATE { ChargeIdle(s, cfg.freezes.autoConsume, Pending(s, cfg, p)); }
      assert u.log == t.log;
    } else if p <= s.settledThrough {
      NothingPending(s.settledThrough, p, cfg);
      ChargeClosed(s, cfg.freezes.autoConsume, []);
      assert u.log == t.log;
    } else {
      SettlingResolves(s, cfg, p, t.log);
    }
  }

  /** A current-period record that earns p resolves it for the second time if and only if p lies within reach. */
  lemma RecordResolvesTwiceIff(row: Row, now: Instant, at: Instant, amount: int, zone: Zone, db: Instant)
    requires Valid(row) && Clocked(now, zone, row.cfg) && Clocked(at, zone, row.cfg) && Orderly(TrackOf(row), row.cfg)
    requires BranchOf(row, now, at, zone).Normal?
    requires Earns(row.state, row.cfg, PeriodKey(now, zone, row.cfg))
    requires Amount(row.marks, PeriodKey(now, zone, row.cfg)) + Max(amount, 1) >= row.cfg.minAmount
    ensures var p := PeriodKey(now, zone, row.cfg);
            var all := PeriodsOf(Recorded(row, now, at, amount, zone, db).row.log, RESOLVING);
            && all != [] && all[|all| - 1] == p
            && (p in all[..|all| - 1] <==> p <= ResolvedTo(TrackOf(row)))
  {
    hide ValidConfig, Sound, PeriodKey, Current, Orderly, Settled, Earned, CountKind, ViewOf, PeriodsOf, Counted;
    hide Earns, BreakPeriod;
    var cfg, p := row.cfg, PeriodKey(now, zone, row.cfg);
    var r := Settled(row.state, cfg, p);
    SettledSound(row.state, cfg, p);
    SettlingKeepsReach(TrackOf(row), cfg, p);
    var e := Earned(r.state, cfg, p);
    EarnedEvents(r.state, cfg, p);
    EarnedKeeps(e.events, RESOLVING);
    var before := row.log + r.events;
    PeriodsConcat(before, e.events, RESOLVING);
    var row' := Recorded(row, now, at, amount, zone, db).row;
    assert row'.log == before + e.events;
    var all := PeriodsOf(row'.log, RESOLVING);
    assert all[..|all| - 1] == PeriodsOf(before, RESOLVING);
  }

  /** A zone change after which the current period is not later than before. */
  ghost predicate MovesBack(s: Session, c: Call) {
    Valid(s.row) && Possible(s, c) && c.op.SetTimezone?
    && PeriodKey(c.now, c.op.target, s.row.cfg) <= PeriodKey(c.now, s.zone, s.row.cfg)
  }

  /** A record that takes the normal branch, reaches the threshold and finds its period unearned. */
  ghost predicate EarnsNow(s: Session, c: Call) {
    Valid(s.row) && Possible(s, c) && c.op.Record? && BranchOf(s.row, c.now, c.op.at, s.zone).Normal?
    && var p := PeriodKey(c.now, s.zone, s.row.cfg);
       Earns(s.row.state, s.row.cfg, p) && Amount(s.row.marks, p) + Max(c.op.amount, 1) >= s.row.cfg.minAmount
  }

  /** Travel leads there.  After a steady run and a move to a zone whose period is not later, a record that earns
      p resolves it for the second time if and only if p lies within reach. */
  lemma TravelResolvesTwiceIff(cfg: Config, zone: Zone, calls: seq<Call>, k: Date, move: Call, again: Call)
    requires ValidConfig(cfg) && Current(k, cfg) && SteadyRun(Session(NewRow(cfg), zone), calls, k)
    requires CanRun(Session(NewRow(cfg), zone), calls)
    requires MovesBack(Run(Session(NewRow(cfg), zone), calls), move)
    requires EarnsNow(Step(Run(Session(NewRow(cfg), zone), calls), move), again)
    ensures var s := Step(Run(Session(NewRow(cfg), zone), calls), move);
            var p := PeriodKey(again.now, s.zone, s.row.cfg); var all := PeriodsOf(Step(s, again).row.log, RESOLVING);
            && all != [] && all[|all| - 1] == p
            && (p in all[..|all| - 1] <==> p <= ResolvedTo(TrackOf(s.row)))
  {
    hide ValidConfig, Sound, PeriodKey, Current, Orderly, CountKind, PeriodsOf, Counted, Earns, BreakPeriod;
    hide SteadyRun, Recorded, Run, CanRun, PrevPeriod, Settled, Moved;
    var start := Session(NewRow(cfg), zone);
    NewRowSteady(cfg, k);
    SteadyRuns(start, calls, k);
    var s := Run(start, calls);
    MovedOrderly(s.row, move.now, s.zone, move.op.target, move.db);
    var s' := Step(s, move);
    RecordResolvesTwiceIff(s'.row, again.now, again.op.at, again.op.amount, s'.zone, again.db);
  }

  lemma MovedOrderly(row: Row, now: Instant, oldZone: Zone, newZone: Zone, db: Instant)
    requires Valid(row) && Clocked(now, oldZone, row.cfg) && Clocked(now, newZone, row.cfg)
    requires Orderly(TrackOf(row), row.cfg) && PeriodKey(now, newZone, row.cfg) <= PeriodKey(now, oldZone, row.cfg)
    ensures Moved(row, now, oldZone, newZone, db).cfg == row.cfg
    ensures Orderly(TrackOf(Moved(row, now, oldZone, newZone, db)), row.cfg)
  {
    hide ValidConfig, Sound, PeriodKey, Aligned, Orderly, CountKind, Counted, PrevPeriod, Settled;
    var cur, next := PeriodKey(now, oldZone, row.cfg), PeriodKey(now, newZone, row.cfg);
    OrderlySettling(TrackOf(row), row.cfg, cur);
    SettledSound(row.state, row.cfg, cur);
    PrevMonotone(next, cur, row.cfg);
    assert TrackOf(Moved(row, now, oldZone, newZone, db))
        == Track(Settled(row.state, row.cfg, cur).state, row.log + Settled(row.state, row.cfg, cur).events);
  }

  // ---------------------------------------------------------------- a run that earns a paid day

  function MidnightTick(): Call {
    Call(Clock(102, 0, 30), 0, SettleTick(Candidate(FirstDay(1).state, UTC)))
  }

  function FlyWest(): Call {
    Call(Clock(102, 1, 0), 0, SetTimezone(WEST))
  }

  function EveningRecord(): Call {
    Call(Clock(102, 2, 0), 0, Record(Clock(102, 2, 0), 1))
  }

  function PaidDay(): Row {
    Row(Daily(1), State(1, 1, 100, 101, 0, 0), map[100 := 1],
        [Event(Extended, 100, 1), Event(FreezeConsumed, 101, 1)], 0, {})
  }

  function EarnedPaidDay(): Row {
    Row(Daily(1), State(2, 2, 101, 101, 0, 0), map[100 := 1, 101 := 1],
        [Event(Extended, 100, 1), Event(FreezeConsumed, 101, 1), Event(Extended, 101, 2)], 0, {})
  }

  lemma EarnedPaidDayLog()
    ensures EarnedPaidDay().log == [Event(Extended, 100, 1), Event(FreezeConsumed, 101, 1), Event(Extended, 101, 2)]
  {
  }

  lemma TickStep()
    ensures var s := Session(FirstDay(1), UTC);
            Valid(s.row) && Possible(s, MidnightTick()) && Step(s, MidnightTick()) == Session(PaidDay(), UTC)
  {
    var cfg, row, c := Daily(1), FirstDay(1), MidnightTick();
    DailyValid(1);
    FirstStep(1);
    DailyKeys(102, 0, 30, 1);
    DailySettled(row.state, 1, 102);
    CountNone([Event(FreezeConsumed, 101, 1)], EventKind.Broken);
    assert ActiveBetween(100, 102, cfg) != [] by { hide ValidConfig; }
    hide ValidConfig, Sound, ScheduledOn, PeriodKey, Aligned, Settled, CountKind, ActiveBetween;
    assert !Skipped(row.state, cfg, 102);
    assert SettledDue(row, c.op.seen, c.now, c.db).log == PaidDay().log;
  }

  lemma FlyStep()
    ensures var s := Session(PaidDay(), UTC);
            Valid(s.row) && Possible(s, FlyWest()) && Step(s, FlyWest()) == Session(PaidDay(), WEST)
  {
    DailyValid(1);
    DailyKeys(102, 1, 0, 1);
    DailySettled(PaidDay().state, 1, 102);
    hide ValidConfig, Sound, ScheduledOn, PeriodKey, Aligned, Settled;
    assert Moved(PaidDay(), Clock(102, 1, 0), UTC, WEST, 0).log == PaidDay().log;
  }

  lemma EveningStep()
    ensures var s := Session(PaidDay(), WEST);
            Valid(s.row) && Possible(s, EveningRecord()) && Step(s, EveningRecord()) == Session(EarnedPaidDay(), WEST)
  {
    var row, now := PaidDay(), Clock(102, 2, 0);
    DailyValid(1);
    DailyKeys(102, 2, 0, 1);
    DailySettled(row.state, 1, 101);
    DailyEarned(row.state, 1, 101);
    assert Valid(row) by { hide ValidConfig; }
    hide ValidConfig, Sound, Counted, ScheduledOn, PeriodKey, Aligned, Settled, Earned, Recorded, CountKind, Clock;
    PlainRecord(row, now, WEST, 0);
    CountNone([Event(Extended, 101, 2)], EventKind.Broken);
    assert Recorded(row, now, now, 1, WEST, 0).row.log == EarnedPaidDay().log;
    assert Recorded(row, now, now, 1, WEST, 0).row.marks == EarnedPaidDay().marks;
  }

  /** For example: a streak earned on day 100 pays a freeze for day 101, flies west to where it is day 101 again,
      and earns the day it has already paid for. */
  lemma TravelResolvesTwice()
    ensures var s := Session(NewRow(Daily(1)), UTC);
            var calls := [FirstRecord()] + [MidnightTick()] + [FlyWest()] + [EveningRecord()];
            CanRun(s, calls) &&
            Run(s, calls).row.log == [Event(Extended, 100, 1), Event(FreezeConsumed, 101, 1), Event(Extended, 101, 2)]
  {
    hide Valid, Possible, Step, CanRun, Run, Daily, NewRow, FirstDay, FirstRecord, MidnightTick, FlyWest;
    hide EveningRecord, PaidDay, EarnedPaidDay;
    var s := Session(NewRow(Daily(1)), UTC);
    AfterFirstRecord(1);
    TickStep();
    RunOn(s, [FirstRecord()], MidnightTick());
    FlyStep();
    RunOn(s, [FirstRecord()] + [MidnightTick()], FlyWest());
    EveningStep();
    RunOn(s, [FirstRecord()] + [MidnightTick()] + [FlyWest()], EveningRecord());
    EarnedPaidDayLog();
  }
}
