/** The scheduler: what its prefilter skips, and when it need not run (internal/engine/scheduler.go). */
module Scheduler {
  import opened Calendar
  import opened Configs
  import opened Periods
  import opened Boundaries
  import opened Transition
  import opened Derive
  import opened ClosedForm
  import opened Downtime
  import opened Grace
  import opened Replay
  import opened Rows
  import opened Sessions
  import opened History

  /** For a live streak that has been settled before, settleDue skips exactly when Settle would emit nothing. */
  lemma SkippedIffSilent(s: State, cfg: Config, cur: Date)
    requires ValidConfig(cfg) && Sound(s, cfg) && Current(cur, cfg)
    requires s.count > 0 && s.lastEarned != NO_DATE && s.settledThrough != NO_DATE
    ensures Skipped(s, cfg, cur) <==> Settled(s, cfg, cur).events == []
  {
    hide ValidConfig, Aligned, PrevPeriod, ActiveBetween;
    var from := Later(s.lastEarned, s.settledThrough);
    if PrevPeriod(cur, cfg) <= from { NothingPending(from, cur, cfg); }
    ChargeClosed(s, cfg.freezes.autoConsume, Pending(s, cfg, cur));
  }

  /** Whatever the prefilter skips may be skipped: Settle would emit no event and change at most the settle
      pointer, and every later Settle gives the same state and events as if the skipped one had run. */
  lemma SkipIsSafe(s: State, cfg: Config, cur: Date, later: Date)
    requires ValidConfig(cfg) && Sound(s, cfg) && Current(cur, cfg) && Current(later, cfg) && cur <= later
    requires Skipped(s, cfg, cur)
    ensures Sound(Settled(s, cfg, cur).state, cfg)
    ensures var r := Settled(s, cfg, cur);
            && r.events == [] && r.state == s.(settledThrough := r.state.settledThrough)
            && Settled(r.state, cfg, later) == Settled(s, cfg, later)
  {
    hide ValidConfig, Aligned, PrevPeriod, ActiveBetween;
    var from := Later(s.lastEarned, s.settledThrough);
    if s.lastEarned != NO_DATE && PrevPeriod(cur, cfg) <= from { NothingPending(from, cur, cfg); }
    var r := Settled(s, cfg, cur);
    assert r.events == [] && r.state == s.(settledThrough := r.state.settledThrough);
    SettledSound(s, cfg, cur);
    SettleTwice(s, cfg, cur, later);
    assert r.events + Settled(r.state, cfg, later).events == Settled(r.state, cfg, later).events;
  }

  /** A pass that has seen the present state leaves nothing to announce for its period, having announced what a
      settle would; ledger and claims stay. */
  lemma PassSettles(row: Row, zone: Zone, now: Instant, db: Instant)
    requires Valid(row) && Clocked(now, zone, row.cfg)
    ensures var seen := Candidate(row.state, zone); var cur := PeriodKey(now, zone, row.cfg);
            Plausible(seen, now, row.cfg) &&
            var x := SettledDue(row, seen, now, db); var r := Settled(row.state, row.cfg, cur);
            && Sound(x.state, row.cfg) && Settled(x.state, row.cfg, cur).events == []
            && x.state == row.state.(count := r.state.count, freezes := r.state.freezes, progress := r.state.progress,
                                     settledThrough := x.state.settledThrough)
            && x.log == row.log + r.events && x.marks == row.marks && x.claims == row.claims
  {
    hide ValidConfig, Aligned, PeriodKey, PrevPeriod, ActiveBetween, Counted, CountKind, Skipped, Charge;
    var cfg, s, cur := row.cfg, row.state, PeriodKey(now, zone, row.cfg);
    var r := Settled(s, cfg, cur);
    SettledSound(s, cfg, cur);
    if Skipped(s, cfg, cur) {
      SkipIsSafe(s, cfg, cur, cur);
      assert row.log + [] == row.log;
    } else if s.lastEarned != NO_DATE {
      ChargeFrame(s, cfg.freezes.autoConsume, Pending(s, cfg, cur));
      SettleBack(s, cfg, cur, cur);
    }
  }

  /** The views agree in all but Alive against Frozen and the pending spend. */
  predicate SameRead(d: Derived, e: Derived) {
    && d.count == e.count && d.longest == e.longest && d.lossAt == e.lossAt
    && d.freezesAfterSpend == e.freezesAfterSpend && d.freezeProgress == e.freezeProgress
    && d.earnedThisPeriod == e.earnedThisPeriod && (d.liveness.Broken? <==> e.liveness.Broken?)
  }

  /** Settling at j does not run ahead of period cur, or resolves no more than settling at cur does: nothing was
      earned, nothing is left to lose, or the periods in between bring no further charge. */
  predicate ResolvesAlike(s: State, cfg: Config, j: Date, cur: Date)
    requires ValidConfig(cfg) && Sound(s, cfg)
  {
    j <= cur || s.lastEarned == NO_DATE || s.count == 0 ||
    var b := Budget(s, cfg.freezes.autoConsume);
    Min(|Pending(s, cfg, j)|, b + 1) == Min(|Pending(s, cfg, cur)|, b + 1)
  }

  /** Settling at j and reading at cur. */
  lemma ReadAfterSettleIff(s: State, cfg: Config, j: Date, cur: Date, zone: Zone)
    requires ValidConfig(cfg) && Sound(s, cfg) && Current(j, cfg) && Current(cur, cfg)
    ensures Sound(Settled(s, cfg, j).state, cfg)
    ensures SameRead(DerivedAt(Settled(s, cfg, j).state, cfg, cur, zone), DerivedAt(s, cfg, cur, zone))
            <==> ResolvesAlike(s, cfg, j, cur)
  {
    hide ValidConfig, Aligned, PrevPeriod, Settled, DerivedAt, Pending;
    SettledSound(s, cfg, j);
    DeriveAfterSettle(s, cfg, cur, zone);
    var t := Settled(s, cfg, j).state;
    if j <= cur {
      SettleTwice(s, cfg, j, cur);
      DeriveAfterSettle(t, cfg, cur, zone);
    } else {
      ReadAheadIff(s, cfg, j, cur, zone);
    }
  }

  /** The reads of the streak settled at j, ahead of cur, and of the streak settled at cur. */
  lemma ReadAheadIff(s: State, cfg: Config, j: Date, cur: Date, zone: Zone)
    requires ValidConfig(cfg) && Sound(s, cfg) && Current(j, cfg) && Current(cur, cfg) && cur < j
    ensures Sound(Settled(s, cfg, j).state, cfg) && Sound(Settled(s, cfg, cur).state, cfg)
    ensures var t, u := Settled(s, cfg, j).state, Settled(s, cfg, cur).state;
            SameRead(DerivedAt(t, cfg, cur, zone), DerivedAt(u, cfg, cur, zone)) <==> ResolvesAlike(s, cfg, j, cur)
  {
    hide ValidConfig, Aligned, PrevPeriod, ActiveBetween, Charge, PeriodEnd, LossPeriod;
    SettledSound(s, cfg, j);
    SettledSound(s, cfg, cur);
    CurrentFacts(cur, cfg);
    PrevMonotone(cur, j, cfg);
    if s.lastEarned != NO_DATE {
      var t, u, auto := Settled(s, cfg, j).state, Settled(s, cfg, cur).state, cfg.freezes.autoConsume;
      NothingPending(Later(t.lastEarned, t.settledThrough), cur, cfg);
      NothingPending(Later(u.lastEarned, u.settledThrough), cur, cfg);
      if s.count == 0 {
        ChargeIdle(s, auto, Pending(s, cfg, j));
        ChargeIdle(s, auto, Pending(s, cfg, cur));
      } else {
        ChargeClosed(s, auto, Pending(s, cfg, j));
        ChargeClosed(s, auto, Pending(s, cfg, cur));
        PendingGrows(s, cfg, cur, j);
      }
    }
  }

  /** Later periods are at least as many. */
  lemma PendingGrows(s: State, cfg: Config, cur: Date, j: Date)
    requires ValidConfig(cfg) && Sound(s, cfg) && Current(j, cfg) && Current(cur, cfg) && cur <= j
    requires s.lastEarned != NO_DATE
    ensures |Pending(s, cfg, cur)| <= |Pending(s, cfg, j)|
    ensures Pending(s, cfg, cur) == Pending(s, cfg, j)[..|Pending(s, cfg, cur)|]
  {
    hide ValidConfig, Aligned, PrevPeriod, ActiveBetween;
    ActiveBetweenSplit(Later(s.lastEarned, s.settledThrough), cur, j, cfg);
  }

  /** Whatever the candidate, a scheduler pass leaves the read at period cur as it was if and only if it skips the
      streak or resolves no more than a settle at cur would.  It then changes at most Frozen and the pending spend,
      and a pass in period cur itself turns them into Alive and a spent freeze. */
  lemma TickKeepsReadsIff(row: Row, seen: Candidate, now: Instant, db: Instant, cur: Date, zone: Zone)
    requires Valid(row) && Plausible(seen, now, row.cfg) && Current(cur, row.cfg)
    ensures Valid(SettledDue(row, seen, now, db))
    ensures var j := PeriodKey(now, seen.zone, row.cfg);
            var before := DerivedAt(row.state, row.cfg, cur, zone);
            var after := DerivedAt(SettledDue(row, seen, now, db).state, row.cfg, cur, zone);
            && (SameRead(after, before)
                <==> Skipped(seen.state, row.cfg, j) || ResolvesAlike(row.state, row.cfg, j, cur))
            && (j == cur ==> after == before || after == before.(
                               liveness := if before.liveness.Frozen? then Alive else before.liveness,
                               pendingFreezeSpend := 0))
  {
    hide ValidConfig, Aligned, PeriodKey, DerivedAt, Settled, Sound, Counted, CountKind, Skipped, ResolvesAlike;
    var j := PeriodKey(now, seen.zone, row.cfg);
    SettledDueValid(row, seen, now, db);
    DeriveAfterSettle(row.state, row.cfg, cur, zone);
    ReadAfterSettleIff(row.state, row.cfg, j, cur, zone);
  }

  // ---------------------------------------------------------------- a run without its ticks

  /** The outbox without at-risk reminders. */
  ghost function Core(log: seq<Event>): seq<Event>
    decreases |log|
  {
    if log == [] then []
    else Core(log[..|log| - 1]) + if log[|log| - 1].kind.AtRisk? then [] else [log[|log| - 1]]
  }

  lemma {:induction false} CoreAppend(log: seq<Event>, events: seq<Event>)
    requires forall i | 0 <= i < |events| :: !events[i].kind.AtRisk?
    ensures Core(log + events) == Core(log) + events
    decreases |events|
  {
    if events == [] {
      assert log + events == log;
    } else {
      var n := |events| - 1;
      assert (log + events)[..|log + events| - 1] == log + events[..n];
      CoreAppend(log, events[..n]);
      assert events == events[..n] + [events[n]];
    }
  }

  lemma SettledCore(s: State, cfg: Config, cur: Date, log: seq<Event>)
    requires ValidConfig(cfg) && Sound(s, cfg)
    ensures Core(log + Settled(s, cfg, cur).events) == Core(log) + Settled(s, cfg, cur).events
  {
    hide ValidConfig, Sound, Settled;
    SettledKinds(s, cfg, cur);
    CoreAppend(log, Settled(s, cfg, cur).events);
  }

  lemma EarnedCore(s: State, cfg: Config, p: Date, log: seq<Event>)
    requires ValidConfig(cfg)
    ensures Core(log + Earned(s, cfg, p).events) == Core(log) + Earned(s, cfg, p).events
  {
    hide ValidConfig, Earned;
    EarnedEvents(s, cfg, p);
    CoreAppend(log, Earned(s, cfg, p).events);
  }

  /** Settled at c, the two rows hold the same state and, if logs, have emitted the same events, reminders aside. */
  ghost predicate SameAt(a: Row, b: Row, c: Date, logs: bool)
    requires Valid(a) && Valid(b)
  {
    var r, q := Settled(a.state, a.cfg, c), Settled(b.state, b.cfg, c);
    r.state == q.state && (logs ==> Core(a.log) + r.events == Core(b.log) + q.events)
  }

  ghost predicate SameFrom(a: Row, b: Row, k: Date, logs: bool) {
    && Valid(a) && Valid(b) && a.cfg == b.cfg && a.marks == b.marks
    && forall c | c >= k && Current(c, a.cfg) :: SameAt(a, b, c, logs)
  }

  predicate IsTick(op: Op) {
    op.SettleTick? || op.RemindTick?
  }

  /** Operations that set the state anew and leave unwritten what Settle would have announced. */
  predicate Rewrites(op: Op) {
    op.Unrecord? || op.Recount? || op.ReplaceHistory? || op.ShiftHistory?
  }

  /** The states are the same but for the settle pointer. */
  predicate SameButPointer(s: State, t: State) {
    t == s.(settledThrough := t.settledThrough)
  }

  predicate Silent(s: State, cfg: Config, cur: Date)
    requires ValidConfig(cfg) && Sound(s, cfg)
  {
    Settled(s, cfg, cur).events == []
  }

  /** The count that a repair would give back: that of the newest unrepaired break, once settled. */
  function Lost(row: Row, cur: Date): int
    requires Valid(row)
  {
    LatestBreak(row.log + Settled(row.state, row.cfg, cur).events)
  }

  /** There is something to give back, and the break is young enough. */
  predicate InWindow(row: Row, now: Instant, cur: Date, db: Instant)
    requires Valid(row)
  {
    var r := Settled(row.state, row.cfg, cur);
    Lost(row, cur) != 0 && now - Persist(row, r.state, r.events, db).brokenAt <= REPAIR_WINDOW
  }

  /** Shifted and settled at once, the two states are the same. */
  predicate SettleAlikeShifted(s: State, t: State, cfg: Config, n: int, cur: Date)
    requires ValidConfig(cfg)
  {
    && Sound(ShiftState(s, n), cfg) && Sound(ShiftState(t, n), cfg)
    && Settled(ShiftState(s, n), cfg, cur).state == Settled(ShiftState(t, n), cfg, cur).state
  }

  /** With the inventory set and settled at once, the two states are the same. */
  predicate SettleAlikeGranted(s: State, t: State, cfg: Config, n: int, cur: Date)
    requires ValidConfig(cfg)
  {
    && Sound(s.(freezes := n), cfg) && Sound(t.(freezes := n), cfg)
    && Settled(s.(freezes := n), cfg, cur).state == Settled(t.(freezes := n), cfg, cur).state
  }

  /** A pass at period j that does not settle past period k: it skips the streak, comes in time, or finds nothing
      that has ever been earned or everything before j settled. */
  predicate PassInTime(s: State, seen: State, cfg: Config, j: Date, k: Date)
    requires ValidConfig(cfg) && Sound(seen, cfg)
  {
    Skipped(seen, cfg, j) || j <= k || s.lastEarned == NO_DATE || PrevPeriod(j, cfg) <= s.settledThrough
  }

  /** What a call must meet for the ticks before it not to matter; a is the streak that has seen them, b the one
      that has not.  A tick may come with any clock, zone and state, but must not settle past the subject's own
      period.  Only four kinds of other calls ask for anything.  A late record must find the ended period open in
      both, and no period charged unless it earns nothing; a repair must find the same break, stamped in time in
      both or in neither; a freeze grant must find nothing left to resolve in either, or freezes that are not
      consumed, and it is enough for the states that it leaves the same to resolve; and so must a history shift
      that does not keep the schedule. */
  ghost predicate Droppable(a: Session, b: Session, c: Call, k: Date, logs: bool)
    requires Valid(a.row) && Valid(b.row)
  {
    var cfg, cur := a.row.cfg, PeriodKey(c.now, a.zone, a.row.cfg);
    && Possible(a, c) && Possible(b, c) && b.row.cfg == cfg && (IsTick(c.op) || k <= cur)
    && match c.op
       case SettleTick(seen) =>
         PassInTime(a.row.state, seen.state, cfg, PeriodKey(c.now, seen.zone, cfg), Later(k, cur))
       case Record(at, amount) =>
         BranchOf(a.row, c.now, at, a.zone) == BranchOf(b.row, c.now, at, a.zone)
         && (BranchOf(a.row, c.now, at, a.zone).InGrace? ==>
               SameButPointer(a.row.state, b.row.state) || EarnsNothing(a.row, PeriodKey(at, a.zone, cfg), amount))
       case Repair =>
         (InWindow(a.row, c.now, cur, c.db) <==> InWindow(b.row, c.now, cur, c.db))
         && (logs || Lost(a.row, cur) == Lost(b.row, cur))
       case SetFreezes(n) => 0 <= n <= MAX_FREEZES ==> GrantsAlike(a.row.state, b.row.state, cfg, n, cur, logs)
       case ShiftHistory(days) =>
         days <= 0 || Repeats(cfg, days) || SettleAlikeShifted(a.row.state, b.row.state, cfg, days, cur)
       case _ => true
  }

  /** An activity in a rest period, or one that does not reach the threshold. */
  predicate EarnsNothing(row: Row, p: Date, amount: int)
    requires ValidConfig(row.cfg)
  {
    !ScheduledOn(p, row.cfg) || Amount(row.marks, p) + Max(amount, 1) < row.cfg.minAmount
  }

  predicate GrantsAlike(s: State, t: State, cfg: Config, n: int, cur: Date, logs: bool)
    requires ValidConfig(cfg) && Sound(s, cfg) && Sound(t, cfg)
  {
    || !cfg.freezes.autoConsume || (Silent(s, cfg, cur) && Silent(t, cfg, cur))
    || (!logs && SettleAlikeGranted(s, t, cfg, n, cur))
  }

  /** Run a with the ticks beside b without them. */
  ghost predicate DroppableRun(a: Session, b: Session, calls: seq<Call>, k: Date, logs: bool)
    decreases |calls|
  {
    Valid(a.row) && Valid(b.row) &&
    (calls == [] ||
     (var c := calls[0];
      Droppable(a, b, c, k, logs)
      && DroppableRun(Step(a, c), if IsTick(c.op) then b else Step(b, c), calls[1..], KeyAfterCall(a, c, k),
                      logs && !Rewrites(c.op))))
  }

  /** From which period on the rows agree after the call: the current one, in the zone that the call leaves; after
      a tick, the later of k and the period it settled to, which never lies beyond the subject's own. */
  ghost function KeyAfterCall(s: Session, c: Call, k: Date): Date
    requires Valid(s.row) && Possible(s, c)
  {
    match c.op
    case SettleTick(seen) => Later(k, Min(PeriodKey(c.now, seen.zone, s.row.cfg), PeriodKey(c.now, s.zone, s.row.cfg)))
    case RemindTick(_) => k
    case _ => PeriodKey(c.now, Step(s, c).zone, s.row.cfg)
  }

  ghost function LastTick(s: Session, calls: seq<Call>, k: Date): Date
    requires CanRun(s, calls)
    decreases |calls|
  {
    if calls == [] then k else LastTick(Step(s, calls[0]), calls[1..], KeyAfterCall(s, calls[0], k))
  }

  predicate KeepsLogs(calls: seq<Call>) {
    forall i | 0 <= i < |calls| :: !Rewrites(calls[i].op)
  }

  ghost function WithoutTicks(calls: seq<Call>): seq<Call>
    decreases |calls|
  {
    if calls == [] then []
    else (if IsTick(calls[0].op) then [] else [calls[0]]) + WithoutTicks(calls[1..])
  }

  /** Rows that hold the same state and have emitted the same events are the same from then on. */
  lemma SameState(a: Row, b: Row, k: Date, logs: bool)
    requires Valid(a) && Valid(b) && a.cfg == b.cfg && a.marks == b.marks && a.state == b.state
    requires logs ==> Core(a.log) == Core(b.log)
    ensures SameFrom(a, b, k, logs)
  {
    hide Valid, Current, Settled, Core;
  }

  lemma SameAfterSettling(a: Row, b: Row, k: Date, c: Date, db: Instant, logs: bool)
    requires SameFrom(a, b, k, logs) && Current(c, a.cfg)
    ensures var r := Settled(a.state, a.cfg, c); SameFrom(Persist(a, r.state, r.events, db), b, Later(k, c), logs)
  {
    hide ValidConfig, Sound, Current, Settled, CountKind, Counted, Core;
    var r := Settled(a.state, a.cfg, c);
    SettledRow(a, c, db);
    SettledCore(a.state, a.cfg, c, a.log);
    forall d | d >= Later(k, c) && Current(d, a.cfg) ensures SameAt(Persist(a, r.state, r.events, db), b, d, logs) {
      assert SameAt(a, b, d, logs);
      SettleTwice(a.state, a.cfg, c, d);
    }
  }

  lemma SameLater(a: Row, b: Row, k: Date, c: Date, logs: bool)
    requires SameFrom(a, b, k, logs) && k <= c
    ensures SameFrom(a, b, c, logs)
  {
    hide Valid, Current, SameAt;
  }

  lemma SameAfterTick(a: Row, b: Row, k: Date, seen: Candidate, now: Instant, db: Instant, l: Date, logs: bool)
    requires SameFrom(a, b, k, logs) && Plausible(seen, now, a.cfg)
    requires PassInTime(a.state, seen.state, a.cfg, PeriodKey(now, seen.zone, a.cfg), l)
    ensures SameFrom(SettledDue(a, seen, now, db), b, Later(k, Min(PeriodKey(now, seen.zone, a.cfg), l)), logs)
  {
    hide ValidConfig, Sound, Current, Settled, CountKind, Counted, PeriodKey, Skipped, Persist, SameAt, Core;
    hide PrevPeriod;
    var c := PeriodKey(now, seen.zone, a.cfg);
    var m := Later(k, Min(c, l));
    SettledDueValid(a, seen, now, db);
    if Skipped(seen.state, a.cfg, c) {
      SameLater(a, b, k, m, logs);
    } else if c <= l {
      SameAfterSettling(a, b, k, c, db, logs);
    } else {
      SameAfterIdlePass(a, b, k, c, db, logs);
      SameLater(SettledDue(a, seen, now, db), b, k, m, logs);
    }
  }

  /** A pass that finds nothing earned, or everything settled. */
  lemma SameAfterIdlePass(a: Row, b: Row, k: Date, c: Date, db: Instant, logs: bool)
    requires SameFrom(a, b, k, logs) && Current(c, a.cfg)
    requires a.state.lastEarned == NO_DATE || PrevPeriod(c, a.cfg) <= a.state.settledThrough
    ensures var r := Settled(a.state, a.cfg, c); SameFrom(Persist(a, r.state, r.events, db), b, k, logs)
  {
    hide ValidConfig, Sound, Current, Settled, CountKind, Counted, Core, PrevPeriod;
    var r := Settled(a.state, a.cfg, c);
    SettledRow(a, c, db);
    var x := Persist(a, r.state, r.events, db);
    if a.state.lastEarned == NO_DATE { SettleFresh(a.state, a.cfg, c); } else { AlreadySettled(a.state, a.cfg, c); }
    assert x.log == a.log;
    forall d | d >= k && Current(d, a.cfg) ensures SameAt(x, b, d, logs) {
      assert SameAt(a, b, d, logs);
      if a.state.lastEarned == NO_DATE {
        SettleFresh(a.state, a.cfg, d);
        SettleFresh(x.state, a.cfg, d);
      }
    }
  }

  lemma SameAfterReminder(a: Row, b: Row, k: Date, seen: Candidate, now: Instant, logs: bool)
    requires SameFrom(a, b, k, logs)
    ensures SameFrom(Reminded(a, seen, now), b, k, logs)
  {
    hide ValidConfig, Sound, Current, Settled, Counted, PeriodKey, Reminds, DerivedAt;
    RemindedValid(a, seen, now);
    var y := Reminded(a, seen, now);
    assert Core(y.log) == Core(a.log) by {
      if y.log != a.log { assert y.log[..|y.log| - 1] == a.log; }
    }
    forall d | d >= k && Current(d, a.cfg) ensures SameAt(y, b, d, logs) {
      assert SameAt(a, b, d, logs);
    }
  }

  // ---------------------------------------------------------------- records

  /** A current-period record settles first, and from then on the rows hold the same state. */
  lemma SameAfterRecord(a: Row, b: Row, k: Date, now: Instant, at: Instant, amount: int, zone: Zone, db: Instant,
                        logs: bool)
    requires SameFrom(a, b, k, logs) && k <= PeriodKey(now, zone, a.cfg)
    requires Clocked(now, zone, a.cfg) && Clocked(at, zone, a.cfg) && BranchOf(a, now, at, zone).Normal?
    ensures SameFrom(Recorded(a, now, at, amount, zone, db).row, Recorded(b, now, at, amount, zone, db).row,
                     PeriodKey(now, zone, a.cfg), logs)
  {
    hide ValidConfig, Sound, Current, Settled, Earned, CountKind, Counted, PeriodKey, ViewOf, Core;
    var cur := PeriodKey(now, zone, a.cfg);
    RecordedValid(a, now, at, amount, zone, db);
    RecordedValid(b, now, at, amount, zone, db);
    assert SameAt(a, b, cur, logs);
    var r, q := Settled(a.state, a.cfg, cur), Settled(b.state, b.cfg, cur);
    var x, y := Recorded(a, now, at, amount, zone, db).row, Recorded(b, now, at, amount, zone, db).row;
    assert x.state == y.state;
    SettledCore(a.state, a.cfg, cur, a.log);
    SettledCore(b.state, b.cfg, cur, b.log);
    EarnedCore(r.state, a.cfg, cur, a.log + r.events);
    EarnedCore(q.state, b.cfg, cur, b.log + q.events);
    if Amount(a.marks, cur) + Max(amount, 1) >= a.cfg.minAmount {
      var e := Earned(r.state, a.cfg, cur).events;
      assert x.log == (a.log + r.events) + e && y.log == (b.log + q.events) + e;
    } else {
      assert x.log == a.log + r.events && y.log == b.log + q.events;
    }
    SameState(x, y, cur, logs);
  }

  /** How many events a settled streak emits can be read off its state. */
  lemma EventsOfStates(s: State, t: State, cfg: Config, cur: Date)
    requires ValidConfig(cfg) && Sound(s, cfg) && Sound(t, cfg) && SameButPointer(s, t)
    requires Settled(s, cfg, cur).state == Settled(t, cfg, cur).state
    ensures |Settled(s, cfg, cur).events| == |Settled(t, cfg, cur).events|
  {
    hide ValidConfig, Aligned, PrevPeriod, ActiveBetween, Charge;
    if s.lastEarned != NO_DATE {
      if s.count == 0 {
        ChargeIdle(s, cfg.freezes.autoConsume, Pending(s, cfg, cur));
        ChargeIdle(t, cfg.freezes.autoConsume, Pending(t, cfg, cur));
      } else {
        ChargeClosed(s, cfg.freezes.autoConsume, Pending(s, cfg, cur));
        ChargeClosed(t, cfg.freezes.autoConsume, Pending(t, cfg, cur));
      }
    }
  }

  lemma SamePrefix(x: seq<Event>, u: seq<Event>, y: seq<Event>, v: seq<Event>)
    requires x + u == y + v && |u| == |v|
    ensures x == y
  {
    assert x == (x + u)[..|x|] && y == (y + v)[..|y|];
  }

  /** Rows that differ only in the settle pointer have emitted the same events so far. */
  lemma SameLogs(a: Row, b: Row, cur: Date)
    requires Valid(a) && Valid(b) && a.cfg == b.cfg && SameAt(a, b, cur, true) && SameButPointer(a.state, b.state)
    ensures Core(a.log) == Core(b.log)
  {
    hide ValidConfig, Sound, Settled, Core, Counted;
    EventsOfStates(a.state, b.state, a.cfg, cur);
    SamePrefix(Core(a.log), Settled(a.state, a.cfg, cur).events, Core(b.log), Settled(b.state, b.cfg, cur).events);
  }

  /** Earning a late period and crossing its boundary, the pointer does not matter. */
  lemma LateAdvance(s: State, t: State, cfg: Config, p: Date, cur: Date, total: int)
    requires ValidConfig(cfg) && Sound(s, cfg) && Sound(t, cfg) && Current(p, cfg) && Current(cur, cfg) && p < cur
    requires SameButPointer(s, t) && s.settledThrough < p && t.settledThrough < p && s.lastEarned < p
    requires total >= cfg.minAmount && ScheduledOn(p, cfg)
    ensures Advance(s, cfg, p, cur, total) == Advance(t, cfg, p, cur, total)
    ensures Advance(s, cfg, p, cur, total).events
         == Earned(s, cfg, p).events + Settled(Earned(s, cfg, p).state, cfg, cur).events
    ensures Sound(Earned(s, cfg, p).state, cfg)
  {
    hide ValidConfig, Aligned, Settled, Earned, ScheduledOn;
    EarnedSound(s, cfg, p);
    EarnedSound(t, cfg, p);
    EarnedPointer(s, cfg, p, t.settledThrough);
    EarnedPointer(s, cfg, p, s.settledThrough);
    EarnedLast(s, cfg, p);
    PointerIrrelevant(Earned(s, cfg, p).state, cfg, t.settledThrough, cur);
    assert [] + Earned(s, cfg, p).events == Earned(s, cfg, p).events;
  }

  /** A late record keeps rows the same that differ only in the settle pointer, or if it earns nothing. */
  lemma SameAfterLateRecord(a: Row, b: Row, k: Date, now: Instant, at: Instant, amount: int, zone: Zone,
                            db: Instant, logs: bool)
    requires SameFrom(a, b, k, logs) && k <= PeriodKey(now, zone, a.cfg)
    requires SameButPointer(a.state, b.state) || EarnsNothing(a, PeriodKey(at, zone, a.cfg), amount)
    requires Clocked(now, zone, a.cfg) && Clocked(at, zone, a.cfg)
    requires BranchOf(a, now, at, zone).InGrace? && BranchOf(b, now, at, zone).InGrace?
    ensures SameFrom(Recorded(a, now, at, amount, zone, db).row, Recorded(b, now, at, amount, zone, db).row,
                     PeriodKey(now, zone, a.cfg), logs)
  {
    hide ValidConfig, Sound, Current, Settled, Earned, CountKind, Counted, PeriodKey, ViewOf, Core, ScheduledOn;
    var cfg := a.cfg;
    var p, cur := PeriodKey(at, zone, cfg), PeriodKey(now, zone, cfg);
    var total := Amount(a.marks, p) + Max(amount, 1);
    RecordedValid(a, now, at, amount, zone, db);
    RecordedValid(b, now, at, amount, zone, db);
    assert SameAt(a, b, cur, logs);
    var x, y := Recorded(a, now, at, amount, zone, db).row, Recorded(b, now, at, amount, zone, db).row;
    if total >= cfg.minAmount && ScheduledOn(p, cfg) {
      LateAdvance(a.state, b.state, cfg, p, cur, total);
      if logs {
        SameLogs(a, b, cur);
        var o, e := Advance(a.state, cfg, p, cur, total), Earned(a.state, cfg, p);
        EarnedCore(a.state, cfg, p, a.log);
        EarnedCore(a.state, cfg, p, b.log);
        SettledCore(e.state, cfg, cur, a.log + e.events);
        SettledCore(e.state, cfg, cur, b.log + e.events);
        assert a.log + o.events == (a.log + e.events) + Settled(e.state, cfg, cur).events;
        assert b.log + o.events == (b.log + e.events) + Settled(e.state, cfg, cur).events;
      }
    } else {
      LateSettle(a.state, cfg, p, cur, total);
      LateSettle(b.state, cfg, p, cur, total);
      SettledCore(a.state, cfg, cur, a.log);
      SettledCore(b.state, cfg, cur, b.log);
    }
    SameState(x, y, cur, logs);
  }

  /** A late record that earns nothing settles. */
  lemma LateSettle(s: State, cfg: Config, p: Date, cur: Date, total: int)
    requires ValidConfig(cfg) && Sound(s, cfg) && Current(p, cfg) && Current(cur, cfg) && p < cur
    requires total < cfg.minAmount || !ScheduledOn(p, cfg)
    ensures Advance(s, cfg, p, cur, total) == Settled(s, cfg, cur)
  {
    hide ValidConfig, Aligned, Settled, ScheduledOn, MilestoneEvents;
    SettledSound(s, cfg, cur);
    assert [] + [] + Settled(s, cfg, cur).events == Settled(s, cfg, cur).events;
  }

  // ---------------------------------------------------------------- zone changes, repairs, grants and rewrites

  lemma SameAfterMove(a: Row, b: Row, k: Date, now: Instant, oldZone: Zone, newZone: Zone, db: Instant, logs: bool)
    requires SameFrom(a, b, k, logs) && k <= PeriodKey(now, oldZone, a.cfg)
    requires Clocked(now, oldZone, a.cfg) && Clocked(now, newZone, a.cfg)
    ensures SameFrom(Moved(a, now, oldZone, newZone, db), Moved(b, now, oldZone, newZone, db),
                     PeriodKey(now, newZone, a.cfg), logs)
  {
    hide ValidConfig, Sound, Current, Settled, CountKind, Counted, PeriodKey, Core, PrevPeriod;
    var cur := PeriodKey(now, oldZone, a.cfg);
    MovedValid(a, now, oldZone, newZone, db);
    MovedValid(b, now, oldZone, newZone, db);
    assert SameAt(a, b, cur, logs);
    SettledCore(a.state, a.cfg, cur, a.log);
    SettledCore(b.state, b.cfg, cur, b.log);
    SameState(Moved(a, now, oldZone, newZone, db), Moved(b, now, oldZone, newZone, db),
              PeriodKey(now, newZone, a.cfg), logs);
  }

  lemma LatestBreakAdd(log: seq<Event>, e: Event)
    ensures LatestBreak(log + [e])
         == if e.kind.Broken? then e.count else if e.kind.Repaired? then 0 else LatestBreak(log)
  {
    assert (log + [e])[..|log|] == log;
  }

  /** Reminders do not hide a break. */
  lemma {:induction false} LatestBreakCore(log: seq<Event>)
    ensures LatestBreak(Core(log)) == LatestBreak(log)
    decreases |log|
  {
    if log != [] {
      var init, e := log[..|log| - 1], log[|log| - 1];
      LatestBreakCore(init);
      if e.kind.AtRisk? {
        assert Core(log) == Core(init);
      } else {
        assert Core(log) == Core(init) + [e];
        LatestBreakAdd(Core(init), e);
      }
    }
  }

  lemma SameAfterRepair(a: Row, b: Row, k: Date, now: Instant, zone: Zone, db: Instant, logs: bool)
    requires SameFrom(a, b, k, logs) && k <= PeriodKey(now, zone, a.cfg) && Clocked(now, zone, a.cfg)
    requires InWindow(a, now, PeriodKey(now, zone, a.cfg), db) <==> InWindow(b, now, PeriodKey(now, zone, a.cfg), db)
    requires logs || Lost(a, PeriodKey(now, zone, a.cfg)) == Lost(b, PeriodKey(now, zone, a.cfg))
    ensures SameFrom(RepairedRow(a, now, zone, db).row, RepairedRow(b, now, zone, db).row,
                     PeriodKey(now, zone, a.cfg), logs)
  {
    hide ValidConfig, Sound, Current, Settled, CountKind, Counted, PeriodKey, Core, PrevPeriod, ViewOf, LatestBreak;
    hide Restored;
    var cfg, cur := a.cfg, PeriodKey(now, zone, a.cfg);
    RepairedValid(a, now, zone, db);
    RepairedValid(b, now, zone, db);
    assert SameAt(a, b, cur, logs);
    var r, q := Settled(a.state, cfg, cur), Settled(b.state, cfg, cur);
    SettledCore(a.state, cfg, cur, a.log);
    SettledCore(b.state, cfg, cur, b.log);
    LatestBreakCore(a.log + r.events);
    LatestBreakCore(b.log + q.events);
    if RepairedRow(a, now, zone, db).reply.Done? {
      var e := Event(Repaired, cur, RepairedRow(a, now, zone, db).row.state.count);
      CoreAppend(a.log + r.events, [e]);
      CoreAppend(b.log + q.events, [e]);
      SameState(RepairedRow(a, now, zone, db).row, RepairedRow(b, now, zone, db).row, cur, logs);
    } else {
      SameLater(a, b, k, cur, logs);
    }
  }

  /** With nothing to resolve, granting freezes and settling commute. */
  lemma GrantSilent(s: State, cfg: Config, cur: Date, n: int)
    requires ValidConfig(cfg) && Sound(s, cfg) && Current(cur, cfg) && Silent(s, cfg, cur) && n >= 0
    ensures Sound(s.(freezes := n), cfg)
    ensures var r := Settled(s, cfg, cur);
            && r.state == s.(settledThrough := r.state.settledThrough)
            && Settled(s.(freezes := n), cfg, cur) == Outcome(r.state.(freezes := n), [])
  {
    hide ValidConfig, Aligned, PrevPeriod, ActiveBetween, Charge;
    if s.lastEarned != NO_DATE {
      var auto, missed := cfg.freezes.autoConsume, Pending(s, cfg, cur);
      if s.count == 0 {
        ChargeIdle(s, auto, missed);
        ChargeIdle(s.(freezes := n), auto, missed);
      } else {
        ChargeClosed(s, auto, missed);
        ChargeClosed(s.(freezes := n), auto, missed);
      }
    }
  }

  /** Freezes that are not consumed do not enter settling. */
  lemma {:induction false} ChargeWithoutAuto(s: State, missed: seq<Date>, n: int)
    ensures var r := Charge(s, false, missed);
            Charge(s.(freezes := n), false, missed) == Outcome(r.state.(freezes := n), r.events)
  {
  }

  lemma GrantWithoutAuto(s: State, cfg: Config, cur: Date, n: nat)
    requires ValidConfig(cfg) && Sound(s, cfg) && !cfg.freezes.autoConsume
    ensures Sound(s.(freezes := n), cfg)
    ensures var r := Settled(s, cfg, cur);
            Settled(s.(freezes := n), cfg, cur) == Outcome(r.state.(freezes := n), r.events)
  {
    hide ValidConfig, Aligned, PrevPeriod, ActiveBetween, Charge;
    if s.lastEarned != NO_DATE { ChargeWithoutAuto(s, Pending(s, cfg, cur), n); }
  }

  lemma SameAfterGrant(a: Row, b: Row, k: Date, cur: Date, n: nat, logs: bool)
    requires SameFrom(a, b, k, logs) && k <= cur && Current(cur, a.cfg)
    requires GrantsAlike(a.state, b.state, a.cfg, n, cur, logs)
    ensures SameFrom(a.(state := a.state.(freezes := n)), b.(state := b.state.(freezes := n)), cur, logs)
  {
    hide ValidConfig, Current, Settled, Counted, Core, Pointer;
    var x, y := a.(state := a.state.(freezes := n)), b.(state := b.state.(freezes := n));
    assert SameAt(a, b, cur, logs);
    if !a.cfg.freezes.autoConsume {
      forall c | c >= cur && Current(c, a.cfg) ensures SameAt(x, y, c, logs) {
        assert SameAt(a, b, c, logs);
        GrantWithoutAuto(a.state, a.cfg, c, n);
        GrantWithoutAuto(b.state, a.cfg, c, n);
      }
    } else {
      if Silent(a.state, a.cfg, cur) && Silent(b.state, a.cfg, cur) {
        GrantSilent(a.state, a.cfg, cur, n);
        GrantSilent(b.state, a.cfg, cur, n);
        assert Core(a.log) + [] == Core(a.log) && Core(b.log) + [] == Core(b.log);
      }
      forall c | c >= cur && Current(c, a.cfg) ensures SameAt(x, y, c, logs) {
        SettleTwice(x.state, a.cfg, cur, c);
        SettleTwice(y.state, a.cfg, cur, c);
      }
    }
  }

  lemma SameAfterRecount(a: Row, b: Row, now: Instant, zone: Zone, k: Date)
    requires Valid(a) && Valid(b) && a.cfg == b.cfg && a.marks == b.marks
    requires LedgerClocked(a.marks, zone, a.cfg) && Clocked(now, zone, a.cfg)
    ensures SameFrom(Recounted(a, now, zone), Recounted(b, now, zone), k, false)
  {
    hide ValidConfig, Sound, Counted, PeriodKey, Current, EarnedPeriods, KeysOf, Replayed, LedgerClocked;
    RecountedValid(a, now, zone);
    RecountedValid(b, now, zone);
    SameState(Recounted(a, now, zone), Recounted(b, now, zone), k, false);
  }

  lemma SameAfterShift(a: Row, b: Row, k: Date, days: int, logs: bool)
    requires SameFrom(a, b, k, logs) && CanShift(a, days) && CanShift(b, days) && Current(k, a.cfg)
    requires days <= 0 || Repeats(a.cfg, days) || SettleAlikeShifted(a.state, b.state, a.cfg, days, k)
    ensures SameFrom(Shifted(a, days), Shifted(b, days), k, false)
  {
    hide ValidConfig, Settled, Counted, Core, Repeats, ShiftMarks;
    ShiftedValid(a, days);
    ShiftedValid(b, days);
    var x, y := Shifted(a, days), Shifted(b, days);
    forall c | c >= k && Current(c, a.cfg) ensures SameAt(x, y, c, false) {
      if days <= 0 || !a.cfg.period.Day? {
        assert SameAt(a, b, c, logs);
      } else if Repeats(a.cfg, days) {
        assert Current(c + days, a.cfg);
        assert SameAt(a, b, c + days, logs);
        SettleShift(a.state, a.cfg, days, c);
        SettleShift(b.state, b.cfg, days, c);
      } else {
        SettleTwice(x.state, x.cfg, k, c);
        SettleTwice(y.state, y.cfg, k, c);
      }
    }
  }

  // ---------------------------------------------------------------- runs

  lemma SameParts(a: Row, b: Row, k: Date, logs: bool)
    requires SameFrom(a, b, k, logs)
    ensures Valid(a) && Valid(b) && a.cfg == b.cfg && a.marks == b.marks
    ensures SameFrom(a, b, k, false)
  {
    hide Valid, Current, Settled, Core;
    forall c | c >= k && Current(c, a.cfg) ensures SameAt(a, b, c, false) {
      assert SameAt(a, b, c, logs);
    }
  }

  lemma SameAfterCall(a: Session, b: Session, c: Call, k: Date, logs: bool)
    requires SameFrom(a.row, b.row, k, logs) && a.zone == b.zone && Droppable(a, b, c, k, logs) && !IsTick(c.op)
    ensures SameFrom(Step(a, c).row, Step(b, c).row, KeyAfterCall(a, c, k), logs && !Rewrites(c.op))
    ensures Step(a, c).zone == Step(b, c).zone
  {
    hide ValidConfig, Sound, Counted, PeriodKey, Current, SameFrom, Recorded, Moved, RepairedRow, Recounted, MarksFor;
    hide GrantsAlike, InWindow, Lost, SettleAlikeShifted, CanShift, Clocked, Shifted, Repeats, EarnsNothing;
    SameParts(a.row, b.row, k, logs);
    var cur := PeriodKey(c.now, a.zone, a.row.cfg);
    ClockedKey(c.now, a.zone, a.row.cfg);
    match c.op
    case Record(at, amount) =>
      match BranchOf(a.row, c.now, at, a.zone) {
        case Normal => SameAfterRecord(a.row, b.row, k, c.now, at, amount, a.zone, c.db, logs);
        case InGrace => SameAfterLateRecord(a.row, b.row, k, c.now, at, amount, a.zone, c.db, logs);
        case Outside =>
          RejectedRecord(a, c);
          RejectedRecord(b, c);
          SameLater(a.row, b.row, k, cur, logs);
      }
    case SetTimezone(target) => SameAfterMove(a.row, b.row, k, c.now, a.zone, target, c.db, logs);
    case Repair => SameAfterRepair(a.row, b.row, k, c.now, a.zone, c.db, logs);
    case Unrecord =>
      SameAfterRecount(a.row.(marks := a.row.marks - {cur}), b.row.(marks := b.row.marks - {cur}), c.now, a.zone, cur);
    case Recount => SameAfterRecount(a.row, b.row, c.now, a.zone, cur);
    case SetFreezes(n) =>
      SameLater(a.row, b.row, k, cur, logs);
      if 0 <= n <= MAX_FREEZES { SameAfterGrant(a.row, b.row, k, cur, n, logs); }
    case ShiftHistory(days) =>
      SameLater(a.row, b.row, k, cur, logs);
      SameAfterShift(a.row, b.row, cur, days, logs);
    case ReplaceHistory(periods) =>
      var marks := MarksFor(periods, a.row.cfg.minAmount);
      SameAfterRecount(a.row.(marks := marks, claims := {}), b.row.(marks := marks, claims := {}), c.now, a.zone, cur);
  }

  lemma ClockedKey(t: Instant, zone: Zone, cfg: Config)
    requires Clocked(t, zone, cfg)
    ensures Current(PeriodKey(t, zone, cfg), cfg)
  {
  }

  lemma RejectedRecord(s: Session, c: Call)
    requires Valid(s.row) && Possible(s, c) && c.op.Record? && BranchOf(s.row, c.now, c.op.at, s.zone).Outside?
    ensures Step(s, c) == s
  {
    hide Valid, PeriodKey, Current;
  }

  /** Scheduler downtime over runs.  Take any sequence of engine calls, periods not going back, in which the calls
      that could tell the difference meet their condition.  Taking every scheduler step out of it changes neither
      what any later settle stores nor, unless a call rewrites the history, the events that have been emitted by
      then, reminders aside. */
  lemma {:induction false} TicksMayBeDropped(a: Session, b: Session, calls: seq<Call>, k: Date, logs: bool)
    requires SameFrom(a.row, b.row, k, logs) && a.zone == b.zone && DroppableRun(a, b, calls, k, logs)
    ensures CanRun(a, calls) && CanRun(b, WithoutTicks(calls))
    ensures Run(a, calls).zone == Run(b, WithoutTicks(calls)).zone
    ensures SameFrom(Run(a, calls).row, Run(b, WithoutTicks(calls)).row, LastTick(a, calls, k),
                     logs && KeepsLogs(calls))
    decreases |calls|
  {
    hide Valid, SameFrom, Step, Possible, Droppable, KeyAfterCall, Rewrites;
    SameParts(a.row, b.row, k, logs);
    if calls != [] {
      var c, rest := calls[0], calls[1..];
      DroppableParts(a, b, c, k, logs);
      StepValid(a, c);
      assert KeepsLogs(calls) <==> !Rewrites(c.op) && KeepsLogs(rest) by { KeepsLogsCons(calls); }
      if IsTick(c.op) {
        SameAfterScheduler(a, b, c, k, logs);
        TicksMayBeDropped(Step(a, c), b, rest, KeyAfterCall(a, c, k), logs && !Rewrites(c.op));
        assert WithoutTicks(calls) == WithoutTicks(rest);
      } else {
        StepValid(b, c);
        SameAfterCall(a, b, c, k, logs);
        TicksMayBeDropped(Step(a, c), Step(b, c), rest, KeyAfterCall(a, c, k), logs && !Rewrites(c.op));
        assert WithoutTicks(calls)[0] == c && WithoutTicks(calls)[1..] == WithoutTicks(rest);
      }
    } else {
      assert KeepsLogs(calls);
    }
  }

  lemma KeepsLogsCons(calls: seq<Call>)
    requires calls != []
    ensures KeepsLogs(calls) <==> !Rewrites(calls[0].op) && KeepsLogs(calls[1..])
  {
    hide Rewrites;
    assert calls == [calls[0]] + calls[1..];
  }

  lemma DroppableParts(a: Session, b: Session, c: Call, k: Date, logs: bool)
    requires Valid(a.row) && Valid(b.row) && Droppable(a, b, c, k, logs)
    ensures Possible(a, c) && Possible(b, c)
  {
  }

  lemma SameAfterScheduler(a: Session, b: Session, c: Call, k: Date, logs: bool)
    requires SameFrom(a.row, b.row, k, logs) && a.zone == b.zone && Droppable(a, b, c, k, logs) && IsTick(c.op)
    ensures SameFrom(Step(a, c).row, b.row, KeyAfterCall(a, c, k), logs && !Rewrites(c.op))
    ensures Step(a, c).zone == b.zone
  {
    hide ValidConfig, Sound, Counted, PeriodKey, Current, SameFrom, SettledDue, Reminded, PassInTime;
    SameParts(a.row, b.row, k, logs);
    match c.op
    case SettleTick(seen) =>
      var j, cur := PeriodKey(c.now, seen.zone, a.row.cfg), PeriodKey(c.now, a.zone, a.row.cfg);
      SameAfterTick(a.row, b.row, k, seen, c.now, c.db, Later(k, cur), logs);
      assert Later(k, Min(j, Later(k, cur))) == Later(k, Min(j, cur));
    case RemindTick(seen) => SameAfterReminder(a.row, b.row, k, seen, c.now, logs);
  }

  /** So in such a run nobody can tell from a read, from the period of the last call on, whether the scheduler has
      been running. */
  lemma ReadsIgnoreTicks(cfg: Config, zone: Zone, calls: seq<Call>, k: Date, cur: Date, logs: bool)
    requires ValidConfig(cfg) && Current(k, cfg)
    requires var s := Session(NewRow(cfg), zone); DroppableRun(s, s, calls, k, logs)
    requires Current(cur, cfg)
    ensures var s := Session(NewRow(cfg), zone); CanRun(s, calls) && CanRun(s, WithoutTicks(calls))
    ensures var s := Session(NewRow(cfg), zone);
            LastTick(s, calls, k) <= cur ==>
              var a, b := Run(s, calls).row, Run(s, WithoutTicks(calls)).row; var zone' := Run(s, calls).zone;
              && a.cfg == cfg == b.cfg && a.marks == b.marks && Sound(a.state, cfg) && Sound(b.state, cfg)
              && SameRead(DerivedAt(a.state, cfg, cur, zone'), DerivedAt(b.state, cfg, cur, zone'))
  {
    hide ValidConfig, PeriodKey, DroppableRun, Run, CanRun, DerivedAt, Settled, WithoutTicks, Counted, Aligned, Core;
    hide LastTick;
    var s := Session(NewRow(cfg), zone);
    NewRowValid(cfg);
    SameState(s.row, s.row, k, logs);
    TicksMayBeDropped(s, s, calls, k, logs);
    RunValid(s, calls);
    RunValid(s, WithoutTicks(calls));
    var a, b := Run(s, calls).row, Run(s, WithoutTicks(calls)).row;
    if LastTick(s, calls, k) <= cur {
      assert SameAt(a, b, cur, logs && KeepsLogs(calls));
      DeriveAfterSettle(a.state, cfg, cur, Run(s, calls).zone);
      DeriveAfterSettle(b.state, cfg, cur, Run(s, calls).zone);
    }
  }
}
