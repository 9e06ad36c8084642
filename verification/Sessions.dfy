/** One streak in its subject's zone, and runs of engine calls on it. */
module Sessions {
  import opened Calendar
  import opened Configs
  import opened Periods
  import opened Boundaries
  import opened Transition
  import opened Derive
  import opened Replay
  import opened Rows

  datatype Op =
    | Record(at: Instant, amount: int)
    | SettleTick(seen: Candidate) // the two steps of a scheduler pass on this streak
    | RemindTick(seen: Candidate)
    | SetTimezone(target: Zone)
    | Repair
    | Unrecord
    | Recount
    | SetFreezes(n: int)
    | ShiftHistory(days: int)
    | ReplaceHistory(periods: seq<Date>)

  /** An operation with the engine's clock and the database's clock when it runs. */
  datatype Call = Call(now: Instant, db: Instant, op: Op)

  datatype Session = Session(row: Row, zone: Zone)

  // ---------------------------------------------------------------- operations that rewrite the ledger

  /** The replayed representatives of the marks are period keys of a clock after year 0. */
  ghost predicate LedgerClocked(marks: map<Date, int>, zone: Zone, cfg: Config) {
    forall p | p in marks :: Clocked(PeriodRepresentative(p, zone, cfg), zone, cfg)
  }

  lemma LedgerKeys(marks: map<Date, int>, zone: Zone, cfg: Config)
    requires LedgerClocked(marks, zone, cfg)
    ensures AllCurrent(KeysOf(EarnedPeriods(marks, cfg.minAmount), zone, cfg), cfg)
  {
    hide PeriodKey, Current, PeriodRepresentative;
    var ledger := EarnedPeriods(marks, cfg.minAmount);
    forall i | 0 <= i < |ledger| ensures Current(KeysOf(ledger, zone, cfg)[i], cfg) {
      assert ledger[i] in ledger;
    }
  }

  /** recountLocked: rebuild the state from the ledger. */
  ghost function Recounted(row: Row, now: Instant, zone: Zone): Row
    requires Valid(row) && LedgerClocked(row.marks, zone, row.cfg)
  {
    LedgerKeys(row.marks, zone, row.cfg);
    var keys := KeysOf(EarnedPeriods(row.marks, row.cfg.minAmount), zone, row.cfg);
    row.(state := Replayed(row.cfg, keys, PeriodKey(now, zone, row.cfg)))
  }

  lemma RecountedValid(row: Row, now: Instant, zone: Zone)
    requires Valid(row) && LedgerClocked(row.marks, zone, row.cfg) && Clocked(now, zone, row.cfg)
    ensures Valid(Recounted(row, now, zone))
  {
    hide PeriodKey, Current, ValidConfig, Settled, PeriodRepresentative;
    LedgerKeys(row.marks, zone, row.cfg);
    var keys := KeysOf(EarnedPeriods(row.marks, row.cfg.minAmount), zone, row.cfg);
    SettledSound(Fold(row.cfg, keys), row.cfg, PeriodKey(now, zone, row.cfg));
  }

  /** Unrecord: drop the current period's mark and recount. */
  ghost function Unrecorded(row: Row, now: Instant, zone: Zone): Row
    requires Valid(row) && LedgerClocked(row.marks, zone, row.cfg)
  {
    Recounted(row.(marks := row.marks - {PeriodKey(now, zone, row.cfg)}), now, zone)
  }

  /** AddMark of the threshold amount for each listed period. */
  ghost function MarksFor(periods: seq<Date>, amount: int): (marks: map<Date, int>)
    ensures forall p :: p in marks <==> p in periods
    decreases |periods|
  {
    if periods == [] then map[]
    else
      var n := |periods| - 1;
      var marks := MarksFor(periods[..n], amount);
      assert periods == periods[..n] + [periods[n]];
      marks[periods[n] := Amount(marks, periods[n]) + amount]
  }

  ghost function Replaced(row: Row, periods: seq<Date>, now: Instant, zone: Zone): Row
    requires Valid(row) && LedgerClocked(MarksFor(periods, row.cfg.minAmount), zone, row.cfg)
  {
    Recounted(row.(marks := MarksFor(periods, row.cfg.minAmount), claims := {}), now, zone)
  }

  function ShiftDate(d: Date, days: int): Date {
    if d == NO_DATE then NO_DATE else d - days
  }

  function ShiftMarks(marks: map<Date, int>, days: int): map<Date, int> {
    var moved := set p | p in marks :: p - days;
    map q | q in moved :: marks[q + days]
  }

  function ShiftState(s: State, days: int): State {
    s.(lastEarned := ShiftDate(s.lastEarned, days), settledThrough := ShiftDate(s.settledThrough, days))
  }

  /** ShiftHistory: marks and pointers move `days` days back together, the state is not recounted. */
  ghost function Shifted(row: Row, days: int): Row {
    if days <= 0 || !row.cfg.period.Day? then row
    else row.(marks := ShiftMarks(row.marks, days), claims := {}, state := ShiftState(row.state, days))
  }

  /** A shift that leaves both pointers after the zero date. */
  ghost predicate CanShift(row: Row, days: int) {
    && (row.state.lastEarned != NO_DATE ==> row.state.lastEarned > days)
    && (row.state.settledThrough != NO_DATE ==> row.state.settledThrough > days)
  }

  lemma ShiftedValid(row: Row, days: int)
    requires Valid(row) && CanShift(row, days)
    ensures Valid(Shifted(row, days))
  {
    hide ValidConfig, Counted;
  }

  // ---------------------------------------------------------------- runs

  /** The clocks involved read year 0 or later. */
  ghost predicate Possible(s: Session, c: Call) {
    && Clocked(c.now, s.zone, s.row.cfg)
    && match c.op
       case Record(at, _) => Clocked(at, s.zone, s.row.cfg)
       case SettleTick(seen) => Plausible(seen, c.now, s.row.cfg)
       case RemindTick(seen) => Plausible(seen, c.now, s.row.cfg)
       case SetTimezone(target) => Clocked(c.now, target, s.row.cfg)
       case Unrecord => LedgerClocked(s.row.marks, s.zone, s.row.cfg)
       case Recount => LedgerClocked(s.row.marks, s.zone, s.row.cfg)
       case ShiftHistory(days) => CanShift(s.row, days)
       case ReplaceHistory(periods) => LedgerClocked(MarksFor(periods, s.row.cfg.minAmount), s.zone, s.row.cfg)
       case _ => true
  }

  ghost function Step(s: Session, c: Call): Session
    requires Valid(s.row) && Possible(s, c)
  {
    match c.op
    case Record(at, amount) => s.(row := Recorded(s.row, c.now, at, amount, s.zone, c.db).row)
    case SettleTick(seen) => s.(row := SettledDue(s.row, seen, c.now, c.db))
    case RemindTick(seen) => s.(row := Reminded(s.row, seen, c.now))
    case SetTimezone(target) => Session(Moved(s.row, c.now, s.zone, target, c.db), target)
    case Repair => s.(row := RepairedRow(s.row, c.now, s.zone, c.db).row)
    case Unrecord => s.(row := Unrecorded(s.row, c.now, s.zone))
    case Recount => s.(row := Recounted(s.row, c.now, s.zone))
    case SetFreezes(n) => if 0 <= n <= MAX_FREEZES then s.(row := s.row.(state := s.row.state.(freezes := n))) else s
    case ShiftHistory(days) => s.(row := Shifted(s.row, days))
    case ReplaceHistory(periods) => s.(row := Replaced(s.row, periods, c.now, s.zone))
  }

  lemma RecordedValid(row: Row, now: Instant, at: Instant, amount: int, zone: Zone, db: Instant)
    requires Valid(row) && Clocked(now, zone, row.cfg) && Clocked(at, zone, row.cfg)
    ensures Valid(Recorded(row, now, at, amount, zone, db).row)
  {
    hide PeriodKey, Current, ValidConfig, Advance, ViewOf, Persist;
    if !BranchOf(row, now, at, zone).Outside? {
      var p, cur := PeriodKey(at, zone, row.cfg), PeriodKey(now, zone, row.cfg);
      var total := Amount(row.marks, p) + Max(amount, 1);
      var o := Advance(row.state, row.cfg, p, cur, total);
      AdvanceSound(row.state, row.cfg, p, cur, total);
      PersistValid(row.(marks := row.marks[p := total]), o.state, o.events, db);
    }
  }

  lemma SettledDueValid(row: Row, seen: Candidate, now: Instant, db: Instant)
    requires Valid(row) && Plausible(seen, now, row.cfg)
    ensures Valid(SettledDue(row, seen, now, db))
  {
    hide PeriodKey, Current, ValidConfig, Settled, Persist, Sound, Skipped;
    SettledRow(row, PeriodKey(now, seen.zone, row.cfg), db);
  }

  lemma RemindedValid(row: Row, seen: Candidate, now: Instant)
    requires Valid(row)
    ensures Valid(Reminded(row, seen, now))
  {
    hide PeriodKey, ValidConfig, Sound, AtWall, DerivedAt;
    DerivedCount(row.state, row.cfg, PeriodKey(now, seen.zone, row.cfg), seen.zone);
  }

  lemma MovedValid(row: Row, now: Instant, oldZone: Zone, newZone: Zone, db: Instant)
    requires Valid(row) && Clocked(now, oldZone, row.cfg) && Clocked(now, newZone, row.cfg)
    ensures Valid(Moved(row, now, oldZone, newZone, db))
  {
    hide PeriodKey, Current, ValidConfig, Settled, Persist, Aligned, PrevPeriod;
    SettledRow(row, PeriodKey(now, oldZone, row.cfg), db);
    CurrentFacts(PeriodKey(now, newZone, row.cfg), row.cfg);
    var r := Settled(row.state, row.cfg, PeriodKey(now, oldZone, row.cfg));
    var prev := PrevPeriod(PeriodKey(now, newZone, row.cfg), row.cfg);
    PersistValid(row, r.state.(settledThrough := Later(r.state.settledThrough, prev)), r.events, db);
  }

  lemma RepairedValid(row: Row, now: Instant, zone: Zone, db: Instant)
    requires Valid(row) && Clocked(now, zone, row.cfg)
    ensures Valid(RepairedRow(row, now, zone, db).row)
  {
    hide PeriodKey, Current, ValidConfig, Settled, Aligned, PrevPeriod, ViewOf, CountKind;
    var cur := PeriodKey(now, zone, row.cfg);
    var r := Settled(row.state, row.cfg, cur);
    SettledRow(row, cur, db);
    CurrentFacts(cur, row.cfg);
    LatestBreakNonneg(Persist(row, r.state, r.events, db).log);
  }

  /** Every operation keeps a stored row valid. */
  lemma StepValid(s: Session, c: Call)
    requires Valid(s.row) && Possible(s, c)
    ensures Valid(Step(s, c).row) && Step(s, c).row.cfg == s.row.cfg
  {
    hide PeriodKey, ValidConfig, Recorded, SettledDue, Reminded, Moved, RepairedRow, Recounted, MarksFor;
    match c.op
    case Record(at, amount) =>
      RecordedValid(s.row, c.now, at, amount, s.zone, c.db);
      StepKeepsConfig(s, c);
    case SettleTick(seen) => SettledDueValid(s.row, seen, c.now, c.db); StepKeepsConfig(s, c);
    case RemindTick(seen) => RemindedValid(s.row, seen, c.now); StepKeepsConfig(s, c);
    case SetTimezone(target) => MovedValid(s.row, c.now, s.zone, target, c.db); StepKeepsConfig(s, c);
    case Repair => RepairedValid(s.row, c.now, s.zone, c.db); StepKeepsConfig(s, c);
    case Unrecord =>
      RecountedValid(s.row.(marks := s.row.marks - {PeriodKey(c.now, s.zone, s.row.cfg)}), c.now, s.zone);
      StepKeepsConfig(s, c);
    case Recount => RecountedValid(s.row, c.now, s.zone); StepKeepsConfig(s, c);
    case SetFreezes(n) =>
    case ShiftHistory(days) =>
    case ReplaceHistory(periods) =>
      RecountedValid(s.row.(marks := MarksFor(periods, s.row.cfg.minAmount), claims := {}), c.now, s.zone);
      StepKeepsConfig(s, c);
  }

  lemma StepKeepsConfig(s: Session, c: Call)
    requires Valid(s.row) && Possible(s, c)
    ensures Step(s, c).row.cfg == s.row.cfg
  {
    hide PeriodKey, Current, ValidConfig, Settled, Advance, ViewOf, CountKind, Replayed, EarnedPeriods, KeysOf;
  }

  ghost predicate CanRun(s: Session, calls: seq<Call>)
    decreases |calls|
  {
    Valid(s.row) &&
    (calls == [] || (Possible(s, calls[0]) && CanRun(Step(s, calls[0]), calls[1..])))
  }

  ghost function Run(s: Session, calls: seq<Call>): Session
    requires CanRun(s, calls)
    decreases |calls|
  {
    if calls == [] then s else Run(Step(s, calls[0]), calls[1..])
  }

  /** Every run leaves a valid row. */
  lemma {:induction false} RunValid(s: Session, calls: seq<Call>)
    requires CanRun(s, calls)
    ensures Valid(Run(s, calls).row) && Run(s, calls).row.cfg == s.row.cfg
    decreases |calls|
  {
    hide Valid, Step, Possible;
    if calls != [] {
      StepValid(s, calls[0]);
      RunValid(Step(s, calls[0]), calls[1..]);
    }
  }

  /** One more call after a run. */
  lemma {:induction false} RunOn(s: Session, calls: seq<Call>, c: Call)
    requires CanRun(s, calls) && Possible(Run(s, calls), c)
    ensures Valid(Run(s, calls).row)
    ensures CanRun(s, calls + [c]) && Run(s, calls + [c]) == Step(Run(s, calls), c)
    decreases |calls|
  {
    hide Valid, Step, Possible;
    RunValid(s, calls);
    if calls == [] {
      StepValid(s, c);
      assert [c][1..] == [] && [] + [c] == [c];
      assert CanRun(Step(s, c), []);
    } else {
      assert (calls + [c])[0] == calls[0] && (calls + [c])[1..] == calls[1..] + [c];
      RunOn(Step(s, calls[0]), calls[1..], c);
    }
  }
}
