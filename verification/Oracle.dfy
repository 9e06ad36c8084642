/** The central claim: the stored state is what a replay of the ledger gives (internal/core/replay.go). */
module Oracle {
  import opened Calendar
  import opened Configs
  import opened Periods
  import opened Boundaries
  import opened Transition
  import opened Derive
  import opened Downtime
  import opened Replay
  import opened Grace
  import opened Rows
  import opened Sessions
  import opened Records
  import opened Scenarios

  /** From period k on, settling s is replaying the ledger. */
  ghost predicate Agree(s: State, cfg: Config, ledger: seq<Date>, k: Date)
    requires ValidConfig(cfg) && Sound(s, cfg) && AllCurrent(ledger, cfg)
  {
    forall c | c >= k && Current(c, cfg) :: Settled(s, cfg, c).state == Replayed(cfg, ledger, c)
  }

  lemma AgreeSettled(s: State, cfg: Config, ledger: seq<Date>, k: Date)
    requires ValidConfig(cfg) && Sound(s, cfg) && AllCurrent(ledger, cfg) && Current(k, cfg)
    requires Agree(s, cfg, ledger, k)
    ensures Sound(Settled(s, cfg, k).state, cfg) && Agree(Settled(s, cfg, k).state, cfg, ledger, k)
  {
    hide Current, Aligned, ValidConfig, Settled, Sound;
    SettledSound(s, cfg, k);
    forall c | c >= k && Current(c, cfg)
      ensures Settled(Settled(s, cfg, k).state, cfg, c).state == Replayed(cfg, ledger, c)
    {
      SettleTwice(s, cfg, k, c);
    }
  }

  lemma AgreeReplayed(cfg: Config, ledger: seq<Date>, k: Date)
    requires ValidConfig(cfg) && AllCurrent(ledger, cfg) && Current(k, cfg)
    ensures Sound(Replayed(cfg, ledger, k), cfg) && Agree(Replayed(cfg, ledger, k), cfg, ledger, k)
  {
    hide Current, Aligned, ValidConfig, Settled, Sound;
    AgreeSettled(Fold(cfg, ledger), cfg, ledger, k);
  }

  /** The last period of a replayed ledger, if active, has been earned. */
  lemma FoldEarnsLast(cfg: Config, ledger: seq<Date>)
    requires ValidConfig(cfg) && AllCurrent(ledger, cfg) && ledger != []
    ensures ScheduledOn(ledger[|ledger| - 1], cfg) ==>
              Fold(cfg, ledger).lastEarned >= ledger[|ledger| - 1] > NO_DATE
  {
    hide Aligned, ScheduledOn, ValidConfig, Settled, MilestoneEvents;
  }

  /** Settling to c and earning it keeps the agreement, with c at the end of the ledger. */
  lemma AgreeEarned(s: State, cfg: Config, ledger: seq<Date>, c: Date)
    requires ValidConfig(cfg) && Sound(s, cfg) && AllCurrent(ledger, cfg) && Current(c, cfg)
    requires Agree(s, cfg, ledger, c) && (c in ledger ==> ledger[|ledger| - 1] == c)
    ensures var ledger' := if c in ledger then ledger else ledger + [c];
            && Sound(Settled(s, cfg, c).state, cfg)
            && Sound(Earned(Settled(s, cfg, c).state, cfg, c).state, cfg)
            && AllCurrent(ledger', cfg)
            && Agree(Earned(Settled(s, cfg, c).state, cfg, c).state, cfg, ledger', c)
  {
    hide Current, ScheduledOn, ValidConfig, Settled, Sound;
    var x := Settled(s, cfg, c).state;
    AgreeSettled(s, cfg, ledger, c);
    EarnedSound(x, cfg, c);
    if c in ledger {
      FoldEarnsLast(cfg, ledger);
      SettledSound(Fold(cfg, ledger), cfg, c);
      assert Earned(x, cfg, c).state == x by { hide MilestoneEvents; }
    } else {
      assert (ledger + [c])[..|ledger|] == ledger;
      assert Fold(cfg, ledger + [c]) == Earned(x, cfg, c).state by {
        hide Earned;
        assert x == Replayed(cfg, ledger, c);
      }
    }
  }

  // ---------------------------------------------------------------- rows

  ghost predicate InStep(row: Row, first: Date, k: Date) {
    && Valid(row) && Current(k, row.cfg) && LedgerWithin(row.marks, row.cfg, first, k) && LedgerCurrent(row)
    && Agree(row.state, row.cfg, EarnedPeriods(row.marks, row.cfg.minAmount), k)
  }

  /** The marks are period keys from first to k. */
  ghost predicate LedgerWithin(marks: map<Date, int>, cfg: Config, first: Date, k: Date) {
    forall p | p in marks :: Current(p, cfg) && first <= p <= k
  }

  ghost predicate LedgerCurrent(row: Row) {
    AllCurrent(EarnedPeriods(row.marks, row.cfg.minAmount), row.cfg)
  }

  lemma LedgerIsCurrent(row: Row)
    requires forall p | p in row.marks :: Current(p, row.cfg)
    ensures LedgerCurrent(row)
  {
    hide Current;
    var ledger := EarnedPeriods(row.marks, row.cfg.minAmount);
    assert forall i | 0 <= i < |ledger| :: ledger[i] in ledger;
  }

  /** Adding activity to period c, the latest so far: the ledger gains c when its amount reaches the threshold. */
  lemma LedgerAfterMark(marks: map<Date, int>, minAmount: int, c: Date, total: int)
    requires (forall p | p in marks :: p <= c) && total >= Amount(marks, c)
    requires c !in marks ==> total > 0
    ensures var before := EarnedPeriods(marks, minAmount); var after := EarnedPeriods(marks[c := total], minAmount);
            && (total < minAmount ==> after == before && c !in before)
            && (total >= minAmount && c in before ==> after == before && before[|before| - 1] == c)
            && (total >= minAmount && c !in before ==> after == before + [c])
  {
    var before, after := EarnedPeriods(marks, minAmount), EarnedPeriods(marks[c := total], minAmount);
    assert forall i | 0 <= i < |before| :: before[i] in before;
    if total >= minAmount && c !in before {
      LedgerUnique(after, before + [c]);
    } else {
      LedgerUnique(after, before);
      if c in before {
        var i :| 0 <= i < |before| && before[i] == c;
        assert before[|before| - 1] in before;
      }
    }
  }

  /** The regime of the oracle: the zone stays, periods do not go back, the ledger is the truth.  A late record must
      find nothing to resolve before its period; GraceKeepsOracleIff says that it must.  A scheduler pass may have
      read its clock in an earlier period, unless it was on its way when the streak was reset. */
  ghost predicate OracleCall(s: Session, c: Call, first: Date, k: Date)
    requires Valid(s.row)
  {
    var cur := PeriodKey(c.now, s.zone, s.row.cfg);
    && Possible(s, c)
    && match c.op
       case Record(at, amount) =>
         k <= cur && (BranchOf(s.row, c.now, at, s.zone).InGrace? ==>
                        first <= PeriodKey(at, s.zone, s.row.cfg) && InReplayOrder(s, c))
       case SettleTick(seen) =>
         var j := PeriodKey(c.now, seen.zone, s.row.cfg);
         k <= j || s.row.state.lastEarned != NO_DATE || Skipped(seen.state, s.row.cfg, j)
       case RemindTick(_) => true
       case Unrecord => k <= cur
       case Recount => k <= cur
       case ReplaceHistory(periods) => k <= cur && forall p | p in periods :: Current(p, s.row.cfg) && first <= p <= cur
       case _ => false
  }

  /** A record that earns nothing, or finds nothing to resolve before its period. */
  ghost predicate InReplayOrder(s: Session, c: Call)
    requires Valid(s.row) && c.op.Record?
  {
    var p := PeriodKey(c.op.at, s.zone, s.row.cfg);
    NothingToResolve(s.row.state, s.row.cfg, p) || Amount(s.row.marks, p) + Max(c.op.amount, 1) < s.row.cfg.minAmount
  }

  /** The period of the last call that changed the state or the ledger, k when there was none so far. */
  ghost function KeyAfter(s: Session, c: Call, k: Date): Date
    requires Valid(s.row) && Possible(s, c)
  {
    if SameCore(Step(s, c).row, s.row) then k
    else PeriodKey(c.now, if c.op.SettleTick? then c.op.seen.zone else s.zone, s.row.cfg)
  }

  ghost predicate SameCore(a: Row, b: Row) {
    a.cfg == b.cfg && a.state == b.state && a.marks == b.marks
  }

  ghost predicate OracleRun(s: Session, calls: seq<Call>, first: Date, k: Date)
    decreases |calls|
  {
    Valid(s.row) &&
    (calls == [] || (OracleCall(s, calls[0], first, k)
                     && OracleRun(Step(s, calls[0]), calls[1..], first, KeyAfter(s, calls[0], k))))
  }

  /** Nothing has been settled or marked yet. */
  ghost predicate Fresh(row: Row) {
    row.state == NewState(row.cfg) && row.marks == map[]
  }

  /** The settle pointer has reached the period before k. */
  ghost predicate CaughtUp(row: Row, k: Date) {
    Fresh(row) || PrevPeriod(k, row.cfg) <= row.state.settledThrough
  }

  lemma FreshInStep(row: Row, first: Date, k: Date)
    requires Valid(row) && Current(k, row.cfg) && Fresh(row)
    ensures InStep(row, first, k)
  {
    hide ValidConfig, Current, Settled;
    LedgerUnique(EarnedPeriods(map[], row.cfg.minAmount), []);
    assert Fold(row.cfg, []) == NewState(row.cfg);
  }

  lemma InStepLater(row: Row, first: Date, k: Date, c: Date)
    requires InStep(row, first, k) && Current(c, row.cfg) && k <= c
    ensures InStep(row, first, c)
  {
    hide ValidConfig, Current, Settled, Sound, Counted;
  }

  /** What neither state nor ledger shows changes no agreement. */
  lemma InStepSame(a: Row, b: Row, first: Date, k: Date)
    requires InStep(a, first, k) && CaughtUp(a, k) && Valid(b) && SameCore(a, b)
    ensures InStep(b, first, k) && CaughtUp(b, k)
  {
    hide ValidConfig, Current, Settled, Sound, Counted;
  }

  lemma InStepTick(row: Row, seen: Candidate, now: Instant, db: Instant, first: Date, cur: Date)
    requires Valid(row) && Plausible(seen, now, row.cfg) && cur == PeriodKey(now, seen.zone, row.cfg)
    requires InStep(row, first, cur)
    ensures InStep(SettledDue(row, seen, now, db), first, cur)
    ensures SameCore(SettledDue(row, seen, now, db), row) || CaughtUp(SettledDue(row, seen, now, db), cur)
  {
    hide ValidConfig, Current, Settled, Sound, Agree, Skipped, PeriodKey, PrevPeriod;
    SettledDueValid(row, seen, now, db);
    SettledSound(row.state, row.cfg, cur);
    AgreeSettled(row.state, row.cfg, EarnedPeriods(row.marks, row.cfg.minAmount), cur);
  }

  /** A pass whose period the streak has been settled past does nothing. */
  lemma PassBehind(row: Row, seen: Candidate, now: Instant, db: Instant, k: Date)
    requires Valid(row) && Plausible(seen, now, row.cfg) && Current(k, row.cfg) && row.state.lastEarned != NO_DATE
    requires PeriodKey(now, seen.zone, row.cfg) <= k && PrevPeriod(k, row.cfg) <= row.state.settledThrough
    ensures SettledDue(row, seen, now, db) == row
  {
    hide ValidConfig, Sound, Aligned, PeriodKey, PrevPeriod, Settled, Skipped;
    var j := PeriodKey(now, seen.zone, row.cfg);
    PrevMonotone(j, k, row.cfg);
    AlreadySettled(row.state, row.cfg, j);
  }

  lemma InStepRecount(row: Row, now: Instant, zone: Zone, first: Date)
    requires Valid(row) && LedgerClocked(row.marks, zone, row.cfg) && Recovering(zone, row.cfg, first)
    requires Clocked(now, zone, row.cfg) && LedgerWithin(row.marks, row.cfg, first, PeriodKey(now, zone, row.cfg))
    ensures InStep(Recounted(row, now, zone), first, PeriodKey(now, zone, row.cfg))
    ensures CaughtUp(Recounted(row, now, zone), PeriodKey(now, zone, row.cfg))
  {
    hide ValidConfig, Settled, Sound, Agree, PeriodKey, PeriodRepresentative, Counted, Current, PrevPeriod;
    var ledger := EarnedPeriods(row.marks, row.cfg.minAmount);
    RecountedValid(row, now, zone);
    LedgerIsCurrent(row);
    assert forall i | 0 <= i < |ledger| :: ledger[i] in ledger;
    KeysOfLedger(ledger, zone, row.cfg, first);
    AgreeReplayed(row.cfg, ledger, PeriodKey(now, zone, row.cfg));
    SettledSound(Fold(row.cfg, ledger), row.cfg, PeriodKey(now, zone, row.cfg));
  }

  /** Advance, in the regime, is: settle to p, earn p if its amount has reached the threshold, settle to cur. */
  lemma AdvanceInReplayOrder(s: State, cfg: Config, p: Date, cur: Date, total: int)
    requires ValidConfig(cfg) && Sound(s, cfg) && Current(p, cfg) && Current(cur, cfg) && p <= cur
    requires p < cur ==> s.settledThrough < p && s.lastEarned < p
    requires p < cur && total >= cfg.minAmount ==> NothingToResolve(s, cfg, p)
    ensures Sound(Settled(s, cfg, p).state, cfg)
    ensures var x := Settled(s, cfg, p).state;
            var y := if total >= cfg.minAmount then Earned(x, cfg, p).state else x;
            Sound(y, cfg) &&
            Advance(s, cfg, p, cur, total).state == if p < cur then Settled(y, cfg, cur).state else y
  {
    hide ValidConfig, Current, Settled, Sound, Earned, Pending;
    SettledSound(s, cfg, p);
    var x := Settled(s, cfg, p).state;
    EarnedSound(x, cfg, p);
    EarnedSound(s, cfg, p);
    if p < cur {
      if total >= cfg.minAmount {
        GraceAgreesIff(s, cfg, p, cur);
      } else {
        SettleTwice(s, cfg, p, cur);
      }
    }
  }

  /** In a record's period, too, the row is in step: the period has not been settled past. */
  lemma InStepAtRecord(row: Row, now: Instant, at: Instant, zone: Zone, first: Date, k: Date)
    requires InStep(row, first, k) && CaughtUp(row, k) && k <= PeriodKey(now, zone, row.cfg)
    requires Clocked(at, zone, row.cfg) && !BranchOf(row, now, at, zone).Outside?
    ensures InStep(row, first, PeriodKey(at, zone, row.cfg))
    ensures k <= PeriodKey(at, zone, row.cfg) || Fresh(row)
  {
    hide ValidConfig, Settled, Sound, PeriodKey, Agree, Aligned, PrevPeriod, CalendarNext, Counted;
    var p := PeriodKey(at, zone, row.cfg);
    if k <= p {
      InStepLater(row, first, k, p);
    } else {
      NoKeyBetween(p, k, row.cfg);
      FreshInStep(row, first, p);
    }
  }

  lemma InStepRecord(s: Session, c: Call, first: Date, k: Date)
    requires InStep(s.row, first, k) && CaughtUp(s.row, k) && first <= k && c.op.Record? && OracleCall(s, c, first, k)
    requires !BranchOf(s.row, c.now, c.op.at, s.zone).Outside?
    ensures InStep(Step(s, c).row, first, PeriodKey(c.now, s.zone, s.row.cfg))
  {
    hide ValidConfig, Current, Settled, Sound, Earned, Agree, PeriodKey, Advance, Counted, NothingToResolve, ViewOf;
    hide CountKind, EarnedPeriods, CaughtUp;
    var row, cfg := s.row, s.row.cfg;
    var p, cur := PeriodKey(c.op.at, s.zone, cfg), PeriodKey(c.now, s.zone, cfg);
    StepValid(s, c);
    var total := Amount(row.marks, p) + Max(c.op.amount, 1);
    var before := EarnedPeriods(row.marks, cfg.minAmount);
    var row' := Step(s, c).row;
    InStepAtRecord(row, c.now, c.op.at, s.zone, first, k);
    MarksPositive(row, p, total);
    LedgerAfterMark(row.marks, cfg.minAmount, p, total);
    LedgerIsCurrent(row');
    AdvanceInReplayOrder(row.state, cfg, p, cur, total);
    AgreeSettled(row.state, cfg, before, p);
    AgreeEarned(row.state, cfg, before, p);
    var x := Settled(row.state, cfg, p).state;
    var y := if total >= cfg.minAmount then Earned(x, cfg, p).state else x;
    var after := EarnedPeriods(row'.marks, cfg.minAmount);
    assert Agree(y, cfg, after, p);
    if p < cur {
      AgreeLater(y, cfg, after, p, cur);
      AgreeSettled(y, cfg, after, cur);
    }
  }

  lemma RecordCatchesUp(row: Row, now: Instant, at: Instant, amount: int, zone: Zone, db: Instant)
    requires Valid(row) && Clocked(now, zone, row.cfg) && Clocked(at, zone, row.cfg)
    requires !BranchOf(row, now, at, zone).Outside?
    ensures CaughtUp(Recorded(row, now, at, amount, zone, db).row, PeriodKey(now, zone, row.cfg))
  {
    hide ValidConfig, Current, Settled, Sound, PeriodKey, Counted, ViewOf, CountKind, PrevPeriod, Earned;
    var cfg := row.cfg;
    var p, cur := PeriodKey(at, zone, cfg), PeriodKey(now, zone, cfg);
    SettledSound(row.state, cfg, cur);
    var r := if p == cur then Settled(row.state, cfg, cur).state else row.state;
    EarnedSound(r, cfg, p);
    EarnedPointer(r, cfg, p, r.settledThrough);
    var a := if Amount(row.marks, p) + Max(amount, 1) >= cfg.minAmount then Earned(r, cfg, p).state else r;
    SettledSound(a, cfg, cur);
  }

  lemma MarksPositive(row: Row, p: Date, total: int)
    requires total > Amount(row.marks, p)
    ensures total >= Amount(row.marks, p) && (p !in row.marks ==> total > 0)
  {
  }

  lemma AgreeLater(s: State, cfg: Config, ledger: seq<Date>, k: Date, c: Date)
    requires ValidConfig(cfg) && Sound(s, cfg) && AllCurrent(ledger, cfg) && Agree(s, cfg, ledger, k) && k <= c
    ensures Agree(s, cfg, ledger, c)
  {
    hide ValidConfig, Current, Settled, Sound;
  }

  /** Rejected records and reminders. */
  lemma SilentCall(s: Session, c: Call)
    requires Valid(s.row) && Possible(s, c)
    requires c.op.RemindTick? || (c.op.Record? && BranchOf(s.row, c.now, c.op.at, s.zone).Outside?)
    ensures SameCore(Step(s, c).row, s.row)
  {
    hide ValidConfig, Sound, Counted, PeriodKey, Current, DerivedAt, AtWall;
  }

  lemma EarlierPass(s: Session, c: Call, first: Date, k: Date)
    requires Valid(s.row) && Current(k, s.row.cfg) && CaughtUp(s.row, k)
    requires c.op.SettleTick? && OracleCall(s, c, first, k)
    ensures k <= PeriodKey(c.now, c.op.seen.zone, s.row.cfg) || Step(s, c).row == s.row
  {
    hide ValidConfig, Sound, Counted, PeriodKey, Current, PrevPeriod, Settled, Skipped, CountKind;
    if PeriodKey(c.now, c.op.seen.zone, s.row.cfg) < k && s.row.state.lastEarned != NO_DATE {
      PassBehind(s.row, c.op.seen, c.now, c.db, k);
    }
  }

  lemma InStepCall(s: Session, c: Call, first: Date, k: Date)
    requires InStep(s.row, first, k) && CaughtUp(s.row, k) && first <= k
    requires OracleCall(s, c, first, k) && Recovering(s.zone, s.row.cfg, first)
    ensures InStep(Step(s, c).row, first, KeyAfter(s, c, k)) && CaughtUp(Step(s, c).row, KeyAfter(s, c, k))
    ensures first <= KeyAfter(s, c, k)
    ensures Step(s, c).zone == s.zone && Step(s, c).row.cfg == s.row.cfg
  {
    hide ValidConfig, Current, Settled, Sound, Agree, PeriodKey, Recorded, SettledDue, Reminded, Recounted, MarksFor;
    hide InStep, Moved, RepairedRow, CaughtUp, InReplayOrder;
    var cur := PeriodKey(c.now, s.zone, s.row.cfg);
    InStepParts(s.row, first, k);
    StepValid(s, c);
    if c.op.RemindTick? || (c.op.Record? && BranchOf(s.row, c.now, c.op.at, s.zone).Outside?) { SilentCall(s, c); }
    if c.op.SettleTick? { EarlierPass(s, c, first, k); }
    if SameCore(Step(s, c).row, s.row) {
      InStepSame(s.row, Step(s, c).row, first, k);
    } else {
      match c.op
      case Record(at, amount) =>
        InStepRecord(s, c, first, k);
        RecordCatchesUp(s.row, c.now, at, amount, s.zone, c.db);
      case RemindTick(_) => assert false;
      case SettleTick(seen) =>
        var j := PeriodKey(c.now, seen.zone, s.row.cfg);
        InStepLater(s.row, first, k, j);
        InStepTick(s.row, seen, c.now, c.db, first, j);
      case Unrecord => InStepRecount(s.row.(marks := s.row.marks - {cur}), c.now, s.zone, first);
      case Recount => InStepRecount(s.row, c.now, s.zone, first);
      case ReplaceHistory(periods) =>
        InStepRecount(s.row.(marks := MarksFor(periods, s.row.cfg.minAmount), claims := {}), c.now, s.zone, first);
    }
  }

  lemma InStepParts(row: Row, first: Date, k: Date)
    requires InStep(row, first, k)
    ensures Valid(row) && Current(k, row.cfg) && LedgerWithin(row.marks, row.cfg, first, k)
  {
  }

  /** The period of the last call of a run that changed the state or the ledger, k when none did. */
  ghost function LastKey(s: Session, calls: seq<Call>, k: Date): Date
    requires CanRun(s, calls)
    decreases |calls|
  {
    if calls == [] then k else LastKey(Step(s, calls[0]), calls[1..], KeyAfter(s, calls[0], k))
  }

  lemma {:induction false} RunInStep(s: Session, calls: seq<Call>, first: Date, k: Date)
    requires InStep(s.row, first, k) && CaughtUp(s.row, k) && first <= k
    requires OracleRun(s, calls, first, k) && Recovering(s.zone, s.row.cfg, first)
    ensures CanRun(s, calls) && Run(s, calls).zone == s.zone && Run(s, calls).row.cfg == s.row.cfg
    ensures InStep(Run(s, calls).row, first, LastKey(s, calls, k))
    decreases |calls|
  {
    hide Step, PeriodKey, InStep, Valid, Possible, CaughtUp, KeyAfter;
    if calls != [] {
      InStepCall(s, calls[0], first, k);
      RunInStep(Step(s, calls[0]), calls[1..], first, KeyAfter(s, calls[0], k));
    }
  }

  /** Over whole runs: start from a new streak and apply any sequence of records, scheduler steps, unrecords,
      recounts and history replacements in a zone that recovers its periods, the periods not going back.  Then at
      every later instant, settling the stored state is exactly replaying the ledger, in every field. */
  lemma OracleOverRuns(cfg: Config, zone: Zone, calls: seq<Call>, first: Date, k: Date, now: Instant)
    requires ValidConfig(cfg) && Recovering(zone, cfg, first) && Current(k, cfg) && first <= k
    requires OracleRun(Session(NewRow(cfg), zone), calls, first, k)
    ensures CanRun(Session(NewRow(cfg), zone), calls)
    ensures LastKey(Session(NewRow(cfg), zone), calls, k) <= PeriodKey(now, zone, cfg) ==>
              var row := Run(Session(NewRow(cfg), zone), calls).row;
              var keys := KeysOf(EarnedPeriods(row.marks, cfg.minAmount), zone, cfg);
              && row.cfg == cfg && Sound(row.state, cfg) && AllCurrent(keys, cfg)
              && Settled(row.state, cfg, PeriodKey(now, zone, cfg)).state
                 == Replayed(cfg, keys, PeriodKey(now, zone, cfg))
  {
    hide PeriodKey, ValidConfig, Settled, Sound, OracleRun, Run, CanRun, Counted, PeriodRepresentative, Replayed;
    hide LastKey;
    var s := Session(NewRow(cfg), zone);
    NewRowValid(cfg);
    FreshInStep(s.row, first, k);
    RunInStep(s, calls, first, k);
    var row := Run(s, calls).row;
    var ledger := EarnedPeriods(row.marks, cfg.minAmount);
    PeriodKeyAligned(now, zone, cfg);
    InStepParts(row, first, LastKey(s, calls, k));
    assert forall i | 0 <= i < |ledger| :: ledger[i] in ledger;
    KeysOfLedger(ledger, zone, cfg, first);
  }

  /** In particular in every zone whose offsets vary by less than 12 hours, where every period is recovered. */
  lemma OracleInNarrowZone(cfg: Config, zone: Zone, calls: seq<Call>, first: Date, k: Date, now: Instant)
    requires ValidConfig(cfg) && NarrowZone(zone) && Current(k, cfg) && first <= k
    requires OracleRun(Session(NewRow(cfg), zone), calls, first, k)
    ensures CanRun(Session(NewRow(cfg), zone), calls)
    ensures LastKey(Session(NewRow(cfg), zone), calls, k) <= PeriodKey(now, zone, cfg) ==>
              var row := Run(Session(NewRow(cfg), zone), calls).row;
              var ledger := EarnedPeriods(row.marks, cfg.minAmount);
              && row.cfg == cfg && Sound(row.state, cfg) && AllCurrent(ledger, cfg)
              && Settled(row.state, cfg, PeriodKey(now, zone, cfg)).state
                 == Replayed(cfg, ledger, PeriodKey(now, zone, cfg))
  {
    hide PeriodKey, ValidConfig, Settled, Sound, OracleRun, Run, CanRun, Counted, PeriodRepresentative, Replayed;
    hide LastKey;
    hide InStep, NarrowZone, Recovering, CaughtUp;
    var s := Session(NewRow(cfg), zone);
    NarrowZoneRecovers(zone, cfg, first);
    OracleOverRuns(cfg, zone, calls, first, k, now);
    NewRowValid(cfg);
    FreshInStep(s.row, first, k);
    FreshCaughtUp(s.row, k);
    RunInStep(s, calls, first, k);
    var row := Run(s, calls).row;
    InStepParts(row, first, LastKey(s, calls, k));
    var ledger := EarnedPeriods(row.marks, cfg.minAmount);
    assert forall i | 0 <= i < |ledger| :: ledger[i] in ledger;
    KeysOfLedger(ledger, zone, cfg, first);
  }

  lemma FreshCaughtUp(row: Row, k: Date)
    requires Fresh(row)
    ensures CaughtUp(row, k)
  {
  }

  /** The condition on grace records is exact.  A row in step stays in step through a record of the period that
      has just ended if and only if the record is in replay order; HalfDayIsAdjacent says when that period is
      the one before the current one. */
  lemma GraceKeepsOracleIff(s: Session, c: Call, first: Date, k: Date)
    requires InStep(s.row, first, k) && CaughtUp(s.row, k) && first <= k <= PeriodKey(c.now, s.zone, s.row.cfg)
    requires Possible(s, c) && c.op.Record? && BranchOf(s.row, c.now, c.op.at, s.zone).InGrace?
    requires first <= PeriodKey(c.op.at, s.zone, s.row.cfg)
             == PrevPeriod(PeriodKey(c.now, s.zone, s.row.cfg), s.row.cfg)
    ensures InStep(Step(s, c).row, first, PeriodKey(c.now, s.zone, s.row.cfg)) <==> InReplayOrder(s, c)
  {
    hide ValidConfig, Current, Settled, Sound, Earned, Agree, PeriodKey, Counted, NothingToResolve, ViewOf, CountKind;
    hide EarnedPeriods, CaughtUp, PrevPeriod;
    var row, cfg := s.row, s.row.cfg;
    var p, cur := PeriodKey(c.op.at, s.zone, cfg), PeriodKey(c.now, s.zone, cfg);
    if InReplayOrder(s, c) {
      InStepRecord(s, c, first, k);
    } else {
      var total := Amount(row.marks, p) + Max(c.op.amount, 1);
      InStepAtRecord(row, c.now, c.op.at, s.zone, first, k);
      MarksPositive(row, p, total);
      LedgerAfterMark(row.marks, cfg.minAmount, p, total);
      GraceLeavesOracle(row.state, cfg, EarnedPeriods(row.marks, cfg.minAmount), p, cur);
      var row' := Step(s, c).row;
      if InStep(row', first, cur) {
        AgreeNow(row'.state, cfg, EarnedPeriods(row'.marks, cfg.minAmount), cur);
      }
    }
  }

  lemma AgreeNow(s: State, cfg: Config, ledger: seq<Date>, k: Date)
    requires ValidConfig(cfg) && Sound(s, cfg) && AllCurrent(ledger, cfg) && Agree(s, cfg, ledger, k) && Current(k, cfg)
    ensures Settled(s, cfg, k).state == Replayed(cfg, ledger, k)
  {
  }

  /** Out of replay order the stored state is not the replayed one, although the ledger has gained p. */
  lemma GraceLeavesOracle(s: State, cfg: Config, before: seq<Date>, p: Date, cur: Date)
    requires ValidConfig(cfg) && Sound(s, cfg) && AllCurrent(before, cfg) && Current(p, cfg) && Current(cur, cfg)
    requires PrevPeriod(cur, cfg) == p && s.settledThrough < p && s.lastEarned < p && !NothingToResolve(s, cfg, p)
    requires Agree(s, cfg, before, p) && (p in before ==> before[|before| - 1] == p)
    ensures p !in before && AllCurrent(before + [p], cfg)
    ensures Sound(GraceOrder(s, cfg, p, cur).state, cfg)
    ensures Settled(GraceOrder(s, cfg, p, cur).state, cfg, cur).state != Replayed(cfg, before + [p], cur)
  {
    hide ValidConfig, Settled, Sound, Earned, ScheduledOn, PrevPeriod, Aligned;
    SettledSound(s, cfg, p);
    CurrentFacts(cur, cfg);
    AgreeNow(s, cfg, before, p);
    if p in before {
      FoldEarnsLast(cfg, before);
      SettledSound(Fold(cfg, before), cfg, p);
      assert false;
    }
    assert (before + [p])[..|before|] == before;
    EarnedSound(s, cfg, p);
    var a := Earned(s, cfg, p).state;
    SettledSound(a, cfg, cur);
    SettleTwice(a, cfg, cur, cur);
    GraceStateIff(s, cfg, p, cur);
  }

  lemma ReplayOfTwoDays()
    ensures var cfg := Daily(1);
            && ValidConfig(cfg) && AllCurrent([100, 102], cfg)
            && Replayed(cfg, [100, 102], 103) == State(2, 2, 102, 102, 0, 0)
  {
    var cfg := Daily(1);
    DailyValid(1);
    FirstEarn(1);
    DailySettled(FirstDay(1).state, 1, 102);
    DailyEarned(State(1, 1, 100, 101, 0, 0), 1, 102);
    DailySettled(State(2, 2, 102, 101, 0, 0), 1, 103);
    hide ValidConfig, Settled, Earned, Aligned;
    assert [100, 102][..1] == [100] && [100][..0] == [];
    assert Fold(cfg, [100]) == FirstDay(1).state;
  }

  lemma LedgerOfTwoDays()
    ensures EarnedPeriods(map[100 := 1, 102 := 1], 1) == [100, 102]
  {
    LedgerUnique(EarnedPeriods(map[100 := 1, 102 := 1], 1), [100, 102]);
  }

  /** A run whose grace record is out of replay order: with one freeze in hand, earn day 100, miss day 101, and
      record day 102 just after it has ended.  The freeze is still there; a replay of the ledger spends it. */
  lemma GraceSkipsAMiss()
    ensures var s := Session(NewRow(Daily(1)), UTC); var calls := [FirstRecord()] + [LateRecord(102)];
            && CanRun(s, calls) && ValidConfig(Daily(1)) && AllCurrent([100, 102], Daily(1))
            && var row := Run(s, calls).row;
               && EarnedPeriods(row.marks, 1) == [100, 102] && row.state.freezes == 1
               && Sound(row.state, Daily(1)) && Settled(row.state, Daily(1), 103).state.freezes == 1
               && Replayed(Daily(1), [100, 102], 103).freezes == 0
  {
    hide ValidConfig, Settled, Possible, Step, CanRun, Run, Replayed, NewRow, FirstDay;
    var s := Session(NewRow(Daily(1)), UTC);
    AfterFirstRecord(1);
    LateStep(1, 102);
    RunOn(s, [FirstRecord()], LateRecord(102));
    ReplayOfTwoDays();
    LedgerOfTwoDays();
    DailySettled(SecondDay(1, 102).state, 1, 103);
  }

  lemma RecoveredLedgerClocked(marks: map<Date, int>, zone: Zone, cfg: Config, first: Date)
    requires Recovering(zone, cfg, first) && forall p | p in marks :: Current(p, cfg) && p >= first
    ensures LedgerClocked(marks, zone, cfg)
  {
    hide PeriodKey, PeriodRepresentative, Aligned;
  }

  /** Consequently an activity can be taken back: recording into a period without marks and unrecording it
      leaves the ledger as it was and the state the earlier one, settled. */
  lemma RecordThenUnrecord(row: Row, now: Instant, at: Instant, amount: int, undo: Instant, zone: Zone, db: Instant,
                           first: Date, k: Date)
    requires InStep(row, first, k) && first <= k && Recovering(zone, row.cfg, first)
    requires Clocked(now, zone, row.cfg) && Clocked(at, zone, row.cfg)
    requires k <= PeriodKey(now, zone, row.cfg) == PeriodKey(undo, zone, row.cfg)
    requires BranchOf(row, now, at, zone).Normal? && PeriodKey(now, zone, row.cfg) !in row.marks
    ensures var recorded := Recorded(row, now, at, amount, zone, db).row;
            && Valid(recorded) && LedgerClocked(recorded.marks, zone, row.cfg)
            && Unrecorded(recorded, undo, zone).marks == row.marks
            && Unrecorded(recorded, undo, zone).state
               == Settled(row.state, row.cfg, PeriodKey(now, zone, row.cfg)).state
  {
    hide PeriodKey, ValidConfig, Settled, Sound, Advance, ViewOf, PeriodRepresentative, CountKind, Counted, Replayed;
    hide EarnedPeriods, Aligned;
    var cur := PeriodKey(now, zone, row.cfg);
    var recorded := Recorded(row, now, at, amount, zone, db).row;
    RecordedValid(row, now, at, amount, zone, db);
    RecoveredLedgerClocked(recorded.marks, zone, row.cfg, first);
    assert recorded.marks - {cur} == row.marks;
    var ledger := EarnedPeriods(row.marks, row.cfg.minAmount);
    assert forall i | 0 <= i < |ledger| :: ledger[i] in ledger;
    KeysOfLedger(ledger, zone, row.cfg, first);
  }

  // ---------------------------------------------------------------- imported histories

  /** Every listed date is marked with at least the given amount, however often it is listed. */
  lemma {:induction false} MarksReach(periods: seq<Date>, amount: int)
    requires amount >= 0
    ensures forall p | p in periods :: p in MarksFor(periods, amount) && MarksFor(periods, amount)[p] >= amount
    decreases |periods|
  {
    if periods != [] {
      var n := |periods| - 1;
      MarksReach(periods[..n], amount);
      assert periods == periods[..n] + [periods[n]];
      forall p | p in periods[..n] ensures Amount(MarksFor(periods[..n], amount), p) >= amount { }
      forall p | p !in periods[..n] ensures Amount(MarksFor(periods[..n], amount), p) == 0 { }
    }
  }

  /** An imported history earns exactly the given dates; claims are dropped, the outbox stays. */
  lemma ReplacedLedger(row: Row, periods: seq<Date>, now: Instant, zone: Zone, p: Date)
    requires Valid(row) && LedgerClocked(MarksFor(periods, row.cfg.minAmount), zone, row.cfg)
    ensures var row' := Replaced(row, periods, now, zone);
            && (p in EarnedPeriods(row'.marks, row.cfg.minAmount) <==> p in periods)
            && (p in row'.marks <==> p in periods)
            && row'.claims == {} && row'.log == row.log && row'.brokenAt == row.brokenAt
  {
    hide Sound, Counted, PeriodKey, Current, KeysOf, Replayed, LedgerClocked;
    MarksReach(periods, row.cfg.minAmount);
  }

  /** So for period keys, in a zone that recovers them, the stored state is the replay of the given dates, sorted
      and each taken once. */
  lemma ReplacedIsReplay(row: Row, periods: seq<Date>, ledger: seq<Date>, now: Instant, zone: Zone, first: Date)
    requires Valid(row) && Recovering(zone, row.cfg, first)
    requires forall p | p in periods :: Current(p, row.cfg) && first <= p
    requires Ascending(ledger) && forall p :: p in ledger <==> p in periods
    ensures LedgerClocked(MarksFor(periods, row.cfg.minAmount), zone, row.cfg) && AllCurrent(ledger, row.cfg)
    ensures Replaced(row, periods, now, zone).state == Replayed(row.cfg, ledger, PeriodKey(now, zone, row.cfg))
  {
    hide ValidConfig, Sound, Counted, PeriodKey, Current, PeriodRepresentative, Replayed, MarksFor;
    var marks := MarksFor(periods, row.cfg.minAmount);
    RecoveredLedgerClocked(marks, zone, row.cfg, first);
    var stored := EarnedPeriods(marks, row.cfg.minAmount);
    forall p ensures p in stored <==> p in ledger { ReplacedLedger(row, periods, now, zone, p); }
    LedgerUnique(stored, ledger);
    assert forall i | 0 <= i < |ledger| :: ledger[i] in ledger;
    KeysOfLedger(ledger, zone, row.cfg, first);
  }

  // ---------------------------------------------------------------- what shows as earned

  /** The last earned period of a replayed ledger is its last active one. */
  lemma {:induction false} FoldLast(cfg: Config, ledger: seq<Date>)
    requires ValidConfig(cfg) && AllCurrent(ledger, cfg) && Ascending(ledger)
    ensures var last := Fold(cfg, ledger).lastEarned;
            && (last == NO_DATE || (last in ledger && ScheduledOn(last, cfg)))
            && forall p | p in ledger && ScheduledOn(p, cfg) :: p <= last
    decreases |ledger|
  {
    hide Aligned, ScheduledOn, ValidConfig, Settled, Earned;
    if ledger != [] {
      var n := |ledger| - 1;
      var init, p := ledger[..n], ledger[n];
      FoldLast(cfg, init);
      assert ledger == init + [p];
      SettledSound(Fold(cfg, init), cfg, p);
      EarnedLatest(Settled(Fold(cfg, init), cfg, p).state, cfg, p);
      LastIsGreatest(init, p);
    }
  }

  lemma LastIsGreatest(init: seq<Date>, p: Date)
    requires Ascending(init + [p])
    ensures forall q | q in init :: q < p
  {
    forall q | q in init ensures q < p {
      var i :| 0 <= i < |init| && init[i] == q;
      assert (init + [p])[i] == q && (init + [p])[|init|] == p;
    }
  }

  /** In step with its ledger, a row shows the current period as earned exactly when it is an active period whose
      amount has reached the threshold. */
  lemma EarnedThisPeriodIff(row: Row, first: Date, k: Date, cur: Date, zone: Zone)
    requires InStep(row, first, k) && Current(cur, row.cfg) && k <= cur
    ensures DerivedAt(row.state, row.cfg, cur, zone).earnedThisPeriod
            <==> ScheduledOn(cur, row.cfg) && cur in row.marks && row.marks[cur] >= row.cfg.minAmount
  {
    hide ValidConfig, Aligned, Settled, Sound, Counted, DerivedAt, ScheduledOn, Replayed;
    var cfg, ledger := row.cfg, EarnedPeriods(row.marks, row.cfg.minAmount);
    AgreeNow(row.state, cfg, ledger, cur);
    SettledSound(row.state, cfg, cur);
    ReplayedLast(cfg, ledger, cur);
    FoldLast(cfg, ledger);
    EarnedIsLast(row.state, cfg, cur, zone);
    assert forall p | p in ledger :: p in row.marks;
  }

  lemma ReplayedLast(cfg: Config, ledger: seq<Date>, cur: Date)
    requires ValidConfig(cfg) && AllCurrent(ledger, cfg) && Current(cur, cfg)
    ensures Replayed(cfg, ledger, cur).lastEarned == Fold(cfg, ledger).lastEarned
  {
    hide ValidConfig, Settled, Aligned;
    SettledSound(Fold(cfg, ledger), cfg, cur);
  }

  /** So it does at every instant after a run in the oracle's regime. */
  lemma EarnedShowsOverRuns(cfg: Config, zone: Zone, calls: seq<Call>, first: Date, k: Date, now: Instant)
    requires ValidConfig(cfg) && Recovering(zone, cfg, first) && Current(k, cfg) && first <= k
    requires OracleRun(Session(NewRow(cfg), zone), calls, first, k) && Clocked(now, zone, cfg)
    ensures CanRun(Session(NewRow(cfg), zone), calls)
    ensures var row, cur := Run(Session(NewRow(cfg), zone), calls).row, PeriodKey(now, zone, cfg);
            row.cfg == cfg && Sound(row.state, cfg) &&
            (LastKey(Session(NewRow(cfg), zone), calls, k) <= cur ==>
              (DerivedAt(row.state, cfg, cur, zone).earnedThisPeriod
               <==> ScheduledOn(cur, cfg) && cur in EarnedPeriods(row.marks, cfg.minAmount)))
  {
    hide PeriodKey, ValidConfig, Settled, Sound, OracleRun, Run, CanRun, Counted, DerivedAt;
    hide Agree, LastKey, ScheduledOn, EarnedPeriods, CaughtUp;
    var s := Session(NewRow(cfg), zone);
    NewRowValid(cfg);
    FreshInStep(s.row, first, k);
    FreshCaughtUp(s.row, k);
    RunInStep(s, calls, first, k);
    var row, cur := Run(s, calls).row, PeriodKey(now, zone, cfg);
    if LastKey(s, calls, k) <= cur { EarnedThisPeriodIff(row, first, LastKey(s, calls, k), cur, zone); }
  }
}
