/** One streak as the store keeps it, and what each engine operation does to it (internal/engine/record.go,
    admin.go, history.go, scheduler.go; internal/store/store.go). */
module Rows {
  import opened Calendar
  import opened Configs
  import opened Periods
  import opened Transition
  import opened Derive
  import opened Replay

  const BOUNDARY_GRACE: Instant := 600 * NANOS
  const FUTURE_SLACK: Instant := 60 * NANOS
  const REPAIR_WINDOW: Instant := 30 * DAY_SECONDS * NANOS

  /** The rows of all tables that belong to one streak. */
  datatype Row = Row(
    cfg: Config,
    state: State,
    marks: map<Date, int>,  // the earn-once ledger: amount per period
    log: seq<Event>,        // the outbox, oldest first
    brokenAt: Instant,      // created_at of the newest broken event, by the database's clock
    claims: set<Date>       // days whose reminder was sent
  )

  datatype Error = BadTimezone | OutsidePeriod | NothingToRepair | NotPositive | NotDayPeriod | OutOfRange

  datatype View = View(derived: Derived, amount: int)

  datatype Reply = Done(view: View) | Failed(error: Error)

  datatype Result = Result(row: Row, reply: Reply)

  ghost predicate Valid(row: Row) {
    ValidConfig(row.cfg) && Sound(row.state, row.cfg) && Counted(row.log)
  }

  /** Saving a sound state and counted events keeps a row valid. */
  lemma PersistValid(row: Row, s: State, events: seq<Event>, db: Instant)
    requires Valid(row) && Sound(s, row.cfg) && Counted(events)
    ensures Valid(Persist(row, s, events, db))
  {
    hide ValidConfig, Sound, Current, CountKind;
  }

  lemma {:induction false} LatestBreakNonneg(log: seq<Event>)
    requires Counted(log)
    ensures LatestBreak(log) >= 0
    decreases |log|
  {
    if log != [] { LatestBreakNonneg(log[..|log| - 1]); }
  }

  lemma SettledRow(row: Row, cur: Date, db: Instant)
    requires Valid(row) && Current(cur, row.cfg)
    ensures var r := Settled(row.state, row.cfg, cur);
            Sound(r.state, row.cfg) && Counted(r.events) && Valid(Persist(row, r.state, r.events, db))
  {
    hide ValidConfig, Sound, Current, Settled, Persist, Counted;
    SettledSound(row.state, row.cfg, cur);
    SettledCounted(row.state, row.cfg, cur);
    var r := Settled(row.state, row.cfg, cur);
    PersistValid(row, r.state, r.events, db);
  }

  function NewRow(cfg: Config): Row {
    Row(cfg, NewState(cfg), map[], [], 0, {})
  }

  lemma NewRowValid(cfg: Config)
    requires ValidConfig(cfg)
    ensures Valid(NewRow(cfg))
  {
  }

  predicate Clocked(t: Instant, zone: Zone, cfg: Config) {
    Current(PeriodKey(t, zone, cfg), cfg)
  }

  function Amount(marks: map<Date, int>, p: Date): int {
    if p in marks then marks[p] else 0
  }

  /** SaveStreakState together with persistEvents. */
  function Persist(row: Row, s: State, events: seq<Event>, db: Instant): Row {
    row.(state := s, log := row.log + events,
         brokenAt := if CountKind(events, EventKind.Broken) > 0 then db else row.brokenAt)
  }

  function ViewOf(row: Row, amount: int, now: Instant, zone: Zone): View
    requires ValidConfig(row.cfg) && Sound(row.state, row.cfg)
  {
    View(DerivedAt(row.state, row.cfg, PeriodKey(now, zone, row.cfg), zone), amount)
  }

  // ---------------------------------------------------------------- Record

  datatype Branch = Normal | InGrace | Outside

  /** Which branch of Record serves an activity at instant `at`. */
  function BranchOf(row: Row, now: Instant, at: Instant, zone: Zone): Branch {
    var p, cur := PeriodKey(at, zone, row.cfg), PeriodKey(now, zone, row.cfg);
    if at > now + FUTURE_SLACK then Outside
    else if p == cur then Normal
    else if p < cur && now - at <= BOUNDARY_GRACE
            && row.state.settledThrough < p && row.state.lastEarned < p then InGrace
    else Outside
  }

  /** The state and events of an accepted activity in period p that brings its amount to total. */
  function Advance(s: State, cfg: Config, p: Date, cur: Date, total: int): Outcome
    requires ValidConfig(cfg) && Sound(s, cfg) && Current(p, cfg) && Current(cur, cfg)
  {
    SettledSound(s, cfg, cur);
    var r := if p == cur then Settled(s, cfg, cur) else Outcome(s, []);
    EarnedSound(r.state, cfg, p);
    var a := if total >= cfg.minAmount then Earned(r.state, cfg, p) else Outcome(r.state, []);
    var q := if p < cur then Settled(a.state, cfg, cur) else Outcome(a.state, []);
    Outcome(q.state, r.events + a.events + q.events)
  }

  ghost function Recorded(row: Row, now: Instant, at: Instant, amount: int, zone: Zone, db: Instant): Result
    requires Valid(row) && Clocked(now, zone, row.cfg) && Clocked(at, zone, row.cfg)
  {
    if BranchOf(row, now, at, zone).Outside? then Result(row, Failed(OutsidePeriod))
    else
      var p, cur := PeriodKey(at, zone, row.cfg), PeriodKey(now, zone, row.cfg);
      var total := Amount(row.marks, p) + Max(amount, 1);
      var o := Advance(row.state, row.cfg, p, cur, total);
      AdvanceSound(row.state, row.cfg, p, cur, total);
      PersistValid(row.(marks := row.marks[p := total]), o.state, o.events, db);
      var row' := Persist(row.(marks := row.marks[p := total]), o.state, o.events, db);
      Result(row', Done(ViewOf(row', Amount(row'.marks, cur), now, zone)))
  }

  lemma AdvanceSound(s: State, cfg: Config, p: Date, cur: Date, total: int)
    requires ValidConfig(cfg) && Sound(s, cfg) && Current(p, cfg) && Current(cur, cfg)
    ensures Sound(Advance(s, cfg, p, cur, total).state, cfg)
    ensures Counted(Advance(s, cfg, p, cur, total).events)
  {
    hide ValidConfig, Current, Settled, Earned;
    SettledSound(s, cfg, cur);
    SettledCounted(s, cfg, cur);
    var r := if p == cur then Settled(s, cfg, cur) else Outcome(s, []);
    EarnedSound(r.state, cfg, p);
    EarnedEvents(r.state, cfg, p);
    var a := if total >= cfg.minAmount then Earned(r.state, cfg, p) else Outcome(r.state, []);
    SettledSound(a.state, cfg, cur);
    SettledCounted(a.state, cfg, cur);
  }

  // ---------------------------------------------------------------- settling, travel and repair

  /** settleDue's prefilter: leave the streak alone at cur. */
  predicate Skipped(s: State, cfg: Config, cur: Date)
    requires ValidConfig(cfg) && Sound(s, cfg)
  {
    var from := Later(s.lastEarned, s.settledThrough);
    s.lastEarned == NO_DATE ||
    (s.settledThrough != NO_DATE && (PrevPeriod(cur, cfg) <= from || Missed(from, cur, cfg, MAX_FREEZES + 1) == 0))
  }

  /** What a scheduler pass saw of a streak before locking it: the state and the subject's zone, either of which
      may be out of date by then. */
  datatype Candidate = Candidate(state: State, zone: Zone)

  predicate Plausible(seen: Candidate, now: Instant, cfg: Config) {
    Sound(seen.state, cfg) && Clocked(now, seen.zone, cfg)
  }

  /** settleDue on one streak: the prefilter looks at what was seen, settleOne at the locked row. */
  ghost function SettledDue(row: Row, seen: Candidate, now: Instant, db: Instant): Row
    requires Valid(row) && Plausible(seen, now, row.cfg)
  {
    var cur := PeriodKey(now, seen.zone, row.cfg);
    if Skipped(seen.state, row.cfg, cur) then row
    else
      var r := Settled(row.state, row.cfg, cur);
      Persist(row, r.state, r.events, db)
  }

  /** Whether remindDue emits an at-risk event for the streak. */
  predicate Reminds(row: Row, seen: Candidate, now: Instant)
    requires ValidConfig(row.cfg) && Sound(row.state, row.cfg)
  {
    var cur := PeriodKey(now, seen.zone, row.cfg);
    var d := DerivedAt(row.state, row.cfg, cur, seen.zone);
    && row.cfg.reminderMinute.Some? && seen.state.count > 0 && row.cfg.period.Day?
    && now >= AtWall(DAY_SECONDS * cur + 60 * row.cfg.reminderMinute.value, seen.zone)
    && !d.liveness.Broken? && !d.earnedThisPeriod && ScheduledOn(cur, row.cfg)
    && cur !in row.claims
  }

  function Reminded(row: Row, seen: Candidate, now: Instant): Row
    requires Valid(row)
  {
    var cur := PeriodKey(now, seen.zone, row.cfg);
    if !Reminds(row, seen, now) then row
    else
      row.(claims := row.claims + {cur},
           log := row.log + [Event(AtRisk, cur, DerivedAt(row.state, row.cfg, cur, seen.zone).count)])
  }

  /** SetTimezone on one streak: settle in the old zone, then pull the settle pointer up to the new zone's
      current period. */
  ghost function Moved(row: Row, now: Instant, oldZone: Zone, newZone: Zone, db: Instant): Row
    requires Valid(row) && Clocked(now, oldZone, row.cfg) && Clocked(now, newZone, row.cfg)
  {
    var r := Settled(row.state, row.cfg, PeriodKey(now, oldZone, row.cfg));
    var prev := PrevPeriod(PeriodKey(now, newZone, row.cfg), row.cfg);
    Persist(row, r.state.(settledThrough := Later(r.state.settledThrough, prev)), r.events, db)
  }

  /** The count lost by the newest break, 0 when there is none or it has been repaired. */
  function LatestBreak(log: seq<Event>): int {
    if log == [] then 0
    else
      var e := log[|log| - 1];
      if e.kind.Broken? then e.count else if e.kind.Repaired? then 0 else LatestBreak(log[..|log| - 1])
  }

  function Restored(s: State, lost: int, prev: Date): State {
    s.(count := s.count + lost, longest := Max(s.longest, s.count + lost),
       settledThrough := Later(s.settledThrough, prev))
  }

  ghost function RepairedRow(row: Row, now: Instant, zone: Zone, db: Instant): Result
    requires Valid(row) && Clocked(now, zone, row.cfg)
  {
    var cur := PeriodKey(now, zone, row.cfg);
    var r := Settled(row.state, row.cfg, cur);
    var settled := Persist(row, r.state, r.events, db);
    var lost := LatestBreak(settled.log);
    if lost == 0 || now - settled.brokenAt > REPAIR_WINDOW then Result(row, Failed(NothingToRepair))
    else
      SettledRow(row, cur, db);
      CurrentFacts(cur, row.cfg);
      LatestBreakNonneg(settled.log);
      var s := Restored(r.state, lost, PrevPeriod(cur, row.cfg));
      var row' := Persist(settled, s, [Event(Repaired, cur, s.count)], db);
      Result(row', Done(ViewOf(row', Amount(row'.marks, cur), now, zone)))
  }

  // ---------------------------------------------------------------- the ledger

  ghost predicate IsLedger(ledger: seq<Date>, marks: map<Date, int>, minAmount: int) {
    Ascending(ledger) && forall p :: p in ledger <==> p in marks && marks[p] >= minAmount
  }

  lemma {:induction false} LedgerExists(dates: set<Date>) returns (ledger: seq<Date>)
    ensures Ascending(ledger) && forall p :: p in ledger <==> p in dates
    decreases |dates|
  {
    if !exists k :: k in dates { return []; }
    var m := Latest(dates);
    var init := LedgerExists(dates - {m});
    ledger := init + [m];
    assert forall i | 0 <= i < |init| :: init[i] in init;
  }

  lemma {:induction false} Latest(dates: set<Date>) returns (m: Date)
    requires exists k :: k in dates
    ensures m in dates && forall p | p in dates :: p <= m
    decreases |dates|
  {
    var d :| d in dates;
    m := d;
    var rest := dates - {d};
    assert forall p | p in dates :: p == d || p in rest;
    if exists j :: j in rest {
      var k := Latest(rest);
      m := Max(d, k);
    }
  }

  /** Periods whose amount reached the threshold, ascending: the input of Replay. */
  ghost function EarnedPeriods(marks: map<Date, int>, minAmount: int): (ledger: seq<Date>)
    ensures IsLedger(ledger, marks, minAmount)
  {
    assert exists l: seq<Date> :: IsLedger(l, marks, minAmount) by {
      var l := LedgerExists(set p | p in marks && marks[p] >= minAmount);
      assert IsLedger(l, marks, minAmount);
    }
    var ledger: seq<Date> :| IsLedger(ledger, marks, minAmount);
    ledger
  }

  lemma InitMember(a: seq<Date>, p: Date)
    requires Ascending(a) && a != []
    ensures p in a[..|a| - 1] <==> p in a && p != a[|a| - 1]
  {
    var m := |a| - 1;
    assert a == a[..m] + [a[m]];
    if p in a[..m] {
      var i :| 0 <= i < m && a[..m][i] == p;
      assert a[i] == p;
    }
  }

  /** An ascending ledger is determined by its periods. */
  lemma {:induction false} LedgerUnique(a: seq<Date>, b: seq<Date>)
    requires Ascending(a) && Ascending(b) && forall p :: p in a <==> p in b
    ensures a == b
    decreases |a|
  {
    if b != [] { assert b[0] in b && b[0] in a; }
    if a != [] {
      var m, n := |a| - 1, |b| - 1;
      assert a[m] in a;
      assert b != [];
      assert b[n] in b;
      var i :| 0 <= i <= m && a[i] == b[n];
      var j :| 0 <= j <= n && b[j] == a[m];
      assert a[m] == b[n];
      forall p ensures p in a[..m] <==> p in b[..n] {
        InitMember(a, p);
        InitMember(b, p);
      }
      LedgerUnique(a[..m], b[..n]);
    }
  }
}
