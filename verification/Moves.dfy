/** Engine calls as sequences of elementary moves on the state and the outbox.  Records, ticks, zone changes,
    repairs and freeze grants are made of six of them, so what every move keeps, every run keeps. */
module Moves {
  import opened Calendar
  import opened Configs
  import opened Periods
  import opened Boundaries
  import opened Transition
  import opened Derive
  import opened Rows
  import opened Sessions

  datatype Move =
    | Settling(cur: Date)
    | Earning(p: Date)
    | Pulling(prev: Date)     // advance the settle pointer without charging
    | Restoring(cur: Date)    // give back the newest unrepaired break
    | Reminding(event: Event)
    | Granting(n: int)        // set the inventory

  datatype Track = Track(state: State, log: seq<Event>)

  ghost predicate MoveOk(t: Track, cfg: Config, m: Move)
    requires ValidConfig(cfg)
  {
    && Sound(t.state, cfg) && Counted(t.log)
    && match m
       case Settling(cur) => Current(cur, cfg)
       case Earning(p) => Current(p, cfg)
       case Pulling(prev) => prev > NO_DATE && Pointer(prev, cfg)
       case Restoring(cur) => LatestBreak(t.log) > 0
       case Reminding(e) => e.kind.AtRisk? && e.count >= 0
       case Granting(n) => n >= 0
  }

  ghost function Make(t: Track, cfg: Config, m: Move): Track
    requires ValidConfig(cfg) && MoveOk(t, cfg, m)
  {
    match m
    case Settling(cur) => var r := Settled(t.state, cfg, cur); Track(r.state, t.log + r.events)
    case Earning(p) => var r := Earned(t.state, cfg, p); Track(r.state, t.log + r.events)
    case Pulling(prev) => t.(state := t.state.(settledThrough := Later(t.state.settledThrough, prev)))
    case Restoring(cur) =>
      var n := t.state.count + LatestBreak(t.log);
      Track(t.state.(count := n, longest := Max(t.state.longest, n)), t.log + [Event(Repaired, cur, n)])
    case Reminding(e) => t.(log := t.log + [e])
    case Granting(n) => t.(state := t.state.(freezes := n))
  }

  ghost predicate CanMake(t: Track, cfg: Config, moves: seq<Move>)
    requires ValidConfig(cfg)
    decreases |moves|
  {
    Sound(t.state, cfg) && Counted(t.log) &&
    (moves == [] || (MoveOk(t, cfg, moves[0]) && CanMake(Make(t, cfg, moves[0]), cfg, moves[1..])))
  }

  ghost function MakeAll(t: Track, cfg: Config, moves: seq<Move>): Track
    requires ValidConfig(cfg) && CanMake(t, cfg, moves)
    decreases |moves|
  {
    if moves == [] then t else MakeAll(Make(t, cfg, moves[0]), cfg, moves[1..])
  }

  lemma MakeSound(t: Track, cfg: Config, m: Move)
    requires ValidConfig(cfg) && MoveOk(t, cfg, m)
    ensures Sound(Make(t, cfg, m).state, cfg) && Counted(Make(t, cfg, m).log)
  {
    hide ValidConfig, Settled, Earned, Aligned;
    match m
    case Settling(cur) =>
      SettledSound(t.state, cfg, cur);
      SettledCounted(t.state, cfg, cur);
    case Earning(p) =>
      EarnedSound(t.state, cfg, p);
      EarnedEvents(t.state, cfg, p);
    case _ =>
  }

  lemma {:induction false} MakeConcat(t: Track, cfg: Config, a: seq<Move>, b: seq<Move>)
    requires ValidConfig(cfg) && CanMake(t, cfg, a) && CanMake(MakeAll(t, cfg, a), cfg, b)
    ensures CanMake(t, cfg, a + b) && MakeAll(t, cfg, a + b) == MakeAll(MakeAll(t, cfg, a), cfg, b)
    decreases |a|
  {
    hide ValidConfig, Make, MoveOk, Sound, Counted;
    if a == [] {
      assert a + b == b;
    } else {
      assert (a + b)[0] == a[0] && (a + b)[1..] == a[1..] + b;
      MakeConcat(Make(t, cfg, a[0]), cfg, a[1..], b);
    }
  }

  /** Making one move after a sequence of moves. */
  lemma MakeOneMore(t: Track, cfg: Config, a: seq<Move>, m: Move)
    requires ValidConfig(cfg) && CanMake(t, cfg, a) && MoveOk(MakeAll(t, cfg, a), cfg, m)
    ensures CanMake(t, cfg, a + [m]) && MakeAll(t, cfg, a + [m]) == Make(MakeAll(t, cfg, a), cfg, m)
  {
    hide ValidConfig, Make, MoveOk, Sound, Counted;
    var u := MakeAll(t, cfg, a);
    MakeSound(u, cfg, m);
    MoveOkParts(u, cfg, m);
    assert [m][1..] == [];
    assert CanMake(Make(u, cfg, m), cfg, []);
    MakeConcat(t, cfg, a, [m]);
  }

  lemma MoveOkParts(t: Track, cfg: Config, m: Move)
    requires ValidConfig(cfg) && MoveOk(t, cfg, m)
    ensures Sound(t.state, cfg) && Counted(t.log)
  {
  }

  // ---------------------------------------------------------------- calls are moves

  function TrackOf(row: Row): Track {
    Track(row.state, row.log)
  }

  /** Operations that leave the ledger as the record of what was earned. */
  predicate Ordinary(op: Op) {
    op.Record? || op.SettleTick? || op.RemindTick? || op.SetTimezone? || op.Repair? || op.SetFreezes?
  }

  /** The moves take a row's state and outbox to those of another row. */
  ghost predicate Leads(row: Row, moves: seq<Move>, row': Row) {
    && Valid(row) && CanMake(TrackOf(row), row.cfg, moves)
    && MakeAll(TrackOf(row), row.cfg, moves) == TrackOf(row')
  }

  predicate NoGrants(moves: seq<Move>) {
    forall i | 0 <= i < |moves| :: !moves[i].Granting?
  }

  lemma LeadsNowhere(row: Row)
    requires Valid(row)
    ensures Leads(row, [], row)
  {
    hide ValidConfig, Sound, Counted, Current;
  }

  lemma LeadsOn(row: Row, moves: seq<Move>, mid: Row, m: Move, row': Row)
    requires Leads(row, moves, mid) && MoveOk(TrackOf(mid), row.cfg, m)
    requires Make(TrackOf(mid), row.cfg, m) == TrackOf(row')
    ensures Leads(row, moves + [m], row')
  {
    hide ValidConfig, Make, MoveOk, Sound, Counted, Current;
    MakeOneMore(TrackOf(row), row.cfg, moves, m);
  }

  lemma EarnedCounted(s: State, cfg: Config, p: Date)
    requires ValidConfig(cfg) && Sound(s, cfg)
    ensures Counted(Earned(s, cfg, p).events)
  {
    hide ValidConfig, Earned, Aligned;
    EarnedEvents(s, cfg, p);
  }

  lemma RecordMoves(row: Row, now: Instant, at: Instant, amount: int, zone: Zone, db: Instant)
    returns (moves: seq<Move>)
    requires Valid(row) && Clocked(now, zone, row.cfg) && Clocked(at, zone, row.cfg)
    ensures Leads(row, moves, Recorded(row, now, at, amount, zone, db).row) && NoGrants(moves)
  {
    hide ValidConfig, PeriodKey, Current, Settled, Earned, ViewOf, CountKind, Sound, Counted, CanMake, MakeAll;
    LeadsNowhere(row);
    moves := [];
    if BranchOf(row, now, at, zone).Outside? { return; }
    var cfg := row.cfg;
    var p, cur := PeriodKey(at, zone, cfg), PeriodKey(now, zone, cfg);
    var total := Amount(row.marks, p) + Max(amount, 1);
    var x := row;
    if p == cur {
      var r := Settled(x.state, cfg, cur);
      var y := Persist(x, r.state, r.events, db);
      SettledRow(x, cur, db);
      LeadsOn(row, moves, x, Settling(cur), y);
      x, moves := y, moves + [Settling(cur)];
    }
    if total >= cfg.minAmount {
      var r := Earned(x.state, cfg, p);
      var y := Persist(x, r.state, r.events, db);
      EarnedSound(x.state, cfg, p);
      EarnedCounted(x.state, cfg, p);
      PersistValid(x, r.state, r.events, db);
      LeadsOn(row, moves, x, Earning(p), y);
      x, moves := y, moves + [Earning(p)];
    }
    if p < cur {
      var r := Settled(x.state, cfg, cur);
      var y := Persist(x, r.state, r.events, db);
      SettledRow(x, cur, db);
      LeadsOn(row, moves, x, Settling(cur), y);
      x, moves := y, moves + [Settling(cur)];
    }
    var row' := Recorded(row, now, at, amount, zone, db).row;
    assert x.state == row'.state;
    assert x.log == row'.log;
  }

  lemma SettleTickMoves(row: Row, seen: Candidate, now: Instant, db: Instant) returns (moves: seq<Move>)
    requires Valid(row) && Plausible(seen, now, row.cfg)
    ensures Leads(row, moves, SettledDue(row, seen, now, db)) && NoGrants(moves)
  {
    hide ValidConfig, PeriodKey, Current, Settled, CountKind, Sound, Counted, CanMake, MakeAll, Skipped;
    LeadsNowhere(row);
    moves := [];
    var cur := PeriodKey(now, seen.zone, row.cfg);
    if !Skipped(seen.state, row.cfg, cur) {
      SettledRow(row, cur, db);
      LeadsOn(row, moves, row, Settling(cur), SettledDue(row, seen, now, db));
      moves := moves + [Settling(cur)];
    }
  }

  lemma RemindTickMoves(row: Row, seen: Candidate, now: Instant) returns (moves: seq<Move>)
    requires Valid(row) && Plausible(seen, now, row.cfg)
    ensures Leads(row, moves, Reminded(row, seen, now)) && NoGrants(moves)
  {
    hide ValidConfig, PeriodKey, Current, Sound, Counted, CanMake, MakeAll, DerivedAt, AtWall;
    LeadsNowhere(row);
    moves := [];
    var cur := PeriodKey(now, seen.zone, row.cfg);
    if Reminds(row, seen, now) {
      var e := Event(AtRisk, cur, DerivedAt(row.state, row.cfg, cur, seen.zone).count);
      DerivedCount(row.state, row.cfg, cur, seen.zone);
      LeadsOn(row, moves, row, Reminding(e), Reminded(row, seen, now));
      moves := moves + [Reminding(e)];
    }
  }

  lemma TravelMoves(row: Row, now: Instant, oldZone: Zone, newZone: Zone, db: Instant) returns (moves: seq<Move>)
    requires Valid(row) && Clocked(now, oldZone, row.cfg) && Clocked(now, newZone, row.cfg)
    ensures Leads(row, moves, Moved(row, now, oldZone, newZone, db)) && NoGrants(moves)
  {
    hide ValidConfig, PeriodKey, Settled, CountKind, Sound, Counted, CanMake, MakeAll, Aligned, PrevPeriod;
    var cur, next := PeriodKey(now, oldZone, row.cfg), PeriodKey(now, newZone, row.cfg);
    var r := Settled(row.state, row.cfg, cur);
    var y := Persist(row, r.state, r.events, db);
    var row' := Moved(row, now, oldZone, newZone, db);
    LeadsNowhere(row);
    SettledRow(row, cur, db);
    CurrentFacts(next, row.cfg);
    LeadsOn(row, [], row, Settling(cur), y);
    LeadsOn(row, [] + [Settling(cur)], y, Pulling(PrevPeriod(next, row.cfg)), row');
    moves := [] + [Settling(cur)] + [Pulling(PrevPeriod(next, row.cfg))];
  }

  lemma RepairMoves(row: Row, now: Instant, zone: Zone, db: Instant) returns (moves: seq<Move>)
    requires Valid(row) && Clocked(now, zone, row.cfg)
    ensures Leads(row, moves, RepairedRow(row, now, zone, db).row) && NoGrants(moves)
  {
    hide ValidConfig, PeriodKey, Settled, CountKind, Counted, CanMake, MakeAll, Aligned, PrevPeriod, ViewOf;
    var cur := PeriodKey(now, zone, row.cfg);
    var r := Settled(row.state, row.cfg, cur);
    var y := Persist(row, r.state, r.events, db);
    var lost := LatestBreak(y.log);
    LeadsNowhere(row);
    moves := [];
    SettledRow(row, cur, db);
    LatestBreakNonneg(y.log);
    if lost == 0 || now - y.brokenAt > REPAIR_WINDOW { return; }
    CurrentFacts(cur, row.cfg);
    var prev := PrevPeriod(cur, row.cfg);
    var s := r.state.(settledThrough := Later(r.state.settledThrough, prev));
    var x := y.(state := s);
    var row' := RepairedRow(row, now, zone, db).row;
    LeadsOn(row, [], row, Settling(cur), y);
    LeadsOn(row, [] + [Settling(cur)], y, Pulling(prev), x);
    moves := [] + [Settling(cur)] + [Pulling(prev)];
    assert MoveOk(TrackOf(x), row.cfg, Restoring(cur));
    LeadsOn(row, moves, x, Restoring(cur), row');
    moves := moves + [Restoring(cur)];
  }

  lemma GrantMoves(row: Row, n: int) returns (moves: seq<Move>)
    requires Valid(row) && n >= 0
    ensures Leads(row, moves, row.(state := row.state.(freezes := n)))
  {
    hide ValidConfig, CanMake, MakeAll, Counted, Aligned;
    LeadsNowhere(row);
    LeadsOn(row, [], row, Granting(n), row.(state := row.state.(freezes := n)));
    moves := [] + [Granting(n)];
  }

  lemma CallMoves(s: Session, c: Call) returns (moves: seq<Move>)
    requires Valid(s.row) && Possible(s, c) && Ordinary(c.op)
    ensures Leads(s.row, moves, Step(s, c).row) && (!c.op.SetFreezes? ==> NoGrants(moves))
  {
    hide Leads, Recorded, SettledDue, Reminded, Moved, RepairedRow, Valid, Clocked, Plausible;
    match c.op
    case Record(at, amount) => moves := RecordMoves(s.row, c.now, at, amount, s.zone, c.db);
    case SettleTick(seen) => moves := SettleTickMoves(s.row, seen, c.now, c.db);
    case RemindTick(seen) => moves := RemindTickMoves(s.row, seen, c.now);
    case SetTimezone(target) => moves := TravelMoves(s.row, c.now, s.zone, target, c.db);
    case Repair => moves := RepairMoves(s.row, c.now, s.zone, c.db);
    case SetFreezes(n) =>
      if 0 <= n <= MAX_FREEZES {
        moves := GrantMoves(s.row, n);
      } else {
        LeadsNowhere(s.row);
        moves := [];
      }
  }

  lemma LeadsThrough(row: Row, a: seq<Move>, mid: Row, b: seq<Move>, row': Row)
    requires Leads(row, a, mid) && Leads(mid, b, row') && mid.cfg == row.cfg
    ensures Leads(row, a + b, row')
  {
    hide ValidConfig, Make, MoveOk, Sound, Counted, Current;
    MakeConcat(TrackOf(row), row.cfg, a, b);
  }

  ghost predicate AllOrdinary(calls: seq<Call>) {
    forall i | 0 <= i < |calls| :: Ordinary(calls[i].op)
  }

  ghost predicate WithoutGrants(calls: seq<Call>) {
    forall i | 0 <= i < |calls| :: !calls[i].op.SetFreezes?
  }

  /** Every run of ordinary calls, in whatever zones, is a sequence of moves. */
  lemma {:induction false} RunMoves(s: Session, calls: seq<Call>) returns (moves: seq<Move>)
    requires CanRun(s, calls) && AllOrdinary(calls)
    ensures Leads(s.row, moves, Run(s, calls).row) && (WithoutGrants(calls) ==> NoGrants(moves))
    decreases |calls|
  {
    hide Leads, Step, Possible, Valid;
    if calls == [] {
      LeadsNowhere(s.row);
      return [];
    }
    var c := calls[0];
    StepValid(s, c);
    var a := CallMoves(s, c);
    var b := RunMoves(Step(s, c), calls[1..]);
    LeadsThrough(s.row, a, Step(s, c).row, b, Run(s, calls).row);
    moves := a + b;
  }
}
