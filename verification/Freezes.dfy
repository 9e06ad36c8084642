/** When freezes are earned, read off the outbox (internal/core/transition.go). */
module Freezes {
  import opened Calendar
  import opened Configs
  import opened Periods
  import opened Transition
  import opened ClosedForm
  import opened Rows
  import opened Sessions
  import opened Moves
  import opened Conservation

  /** How many periods have been earned since the last freeze grant or break. */
  ghost function Since(log: seq<Event>): nat
    decreases |log|
  {
    if log == [] then 0
    else
      var kind := log[|log| - 1].kind;
      if kind.FreezeEarned? || kind.Broken? then 0
      else Since(log[..|log| - 1]) + if kind.Extended? then 1 else 0
  }

  lemma SinceAdd(log: seq<Event>, e: Event)
    ensures Since(log + [e]) == if e.kind.FreezeEarned? || e.kind.Broken? then 0
                                else Since(log) + if e.kind.Extended? then 1 else 0
  {
    assert (log + [e])[..|log|] == log;
  }

  lemma {:induction false} SinceNeutral(log: seq<Event>, events: seq<Event>)
    requires forall i | 0 <= i < |events| ::
               var k := events[i].kind; !k.FreezeEarned? && !k.Broken? && !k.Extended?
    ensures Since(log + events) == Since(log)
    decreases |events|
  {
    if events == [] {
      assert log + events == log;
    } else {
      var n := |events| - 1;
      SinceNeutral(log, events[..n]);
      assert log + events == (log + events[..n]) + [events[n]];
      SinceAdd(log + events[..n], events[n]);
    }
  }

  /** Earning a period moves the progress on by one, up to EarnEveryNPeriods, and a grant starts it anew. */
  lemma EarningProgress(s: State, cfg: Config, p: Date)
    requires ValidConfig(cfg) && Earns(s, cfg, p)
    ensures var r := Earned(s, cfg, p); var n := cfg.freezes.earnEvery;
            r.state.progress == if n == 0 then s.progress
                                else if CountKind(r.events, FreezeEarned) > 0 then 0
                                else Min(s.progress + 1, n)
    ensures CountKind(Earned(s, cfg, p).events, FreezeEarned) <= 1
  {
    hide ScheduledOn, MilestoneEvents, CountKind;
    EarnedCounts(s, cfg, p);
  }

  /** Settling keeps it, or starts it anew after a break. */
  lemma SettlingProgress(s: State, cfg: Config, cur: Date, log: seq<Event>)
    requires ValidConfig(cfg) && Sound(s, cfg)
    ensures var r := Settled(s, cfg, cur);
            || (Since(log + r.events) == Since(log) && r.state.progress == s.progress)
            || (Since(log + r.events) == 0 && r.state.progress == 0)
  {
    hide ValidConfig, Aligned, PrevPeriod, ActiveBetween, Charge, Since;
    var r := Settled(s, cfg, cur);
    if s.lastEarned == NO_DATE || s.count == 0 {
      if s.lastEarned != NO_DATE { ChargeIdle(s, cfg.freezes.autoConsume, Pending(s, cfg, cur)); }
      assert log + r.events == log;
    } else {
      var auto, missed := cfg.freezes.autoConsume, Pending(s, cfg, cur);
      ChargeClosed(s, auto, missed);
      if |missed| <= Budget(s, auto) {
        SinceNeutral(log, r.events);
      } else {
        var b := |r.events| - 1;
        assert log + r.events == (log + r.events[..b]) + [r.events[b]];
        SinceAdd(log + r.events[..b], r.events[b]);
      }
    }
  }

  lemma EarningSince(s: State, cfg: Config, p: Date, log: seq<Event>)
    requires ValidConfig(cfg) && Earns(s, cfg, p)
    ensures var events := Earned(s, cfg, p).events;
            Since(log + events) == if CountKind(events, FreezeEarned) > 0 then 0 else Since(log) + 1
  {
    hide ValidConfig, ScheduledOn, MilestoneEvents, CountKind, Since;
    var r, n := Earned(s, cfg, p), s.count + 1;
    EarnedCounts(s, cfg, p);
    MilestonesUniform(cfg.milestones, p, n);
    var granted := r.state.freezes > s.freezes;
    var head := if granted then [Event(Extended, p, n), Event(FreezeEarned, p, n)] else [Event(Extended, p, n)];
    var tail := MilestoneEvents(cfg.milestones, p, n)
                + if cfg.target > 0 && n == cfg.target then [Event(Completed, p, n)] else [];
    assert log + r.events == (log + head) + tail;
    SinceNeutral(log + head, tail);
    SinceAdd(log, Event(Extended, p, n));
    if granted {
      assert log + head == (log + [Event(Extended, p, n)]) + [Event(FreezeEarned, p, n)];
      SinceAdd(log + [Event(Extended, p, n)], Event(FreezeEarned, p, n));
    }
  }

  ghost predicate InProgress(t: Track, cfg: Config) {
    t.state.progress == Min(Since(t.log), cfg.freezes.earnEvery)
  }

  lemma InProgressMove(t: Track, cfg: Config, m: Move)
    requires ValidConfig(cfg) && MoveOk(t, cfg, m) && InProgress(t, cfg)
    ensures InProgress(Make(t, cfg, m), cfg)
  {
    hide ValidMask, Aligned, Settled, Earned, Counted, Pointer, LatestBreak, Since, ScheduledOn;
    match m
    case Settling(cur) => SettlingProgress(t.state, cfg, cur, t.log);
    case Earning(p) =>
      if Earns(t.state, cfg, p) {
        EarningProgress(t.state, cfg, p);
        EarningSince(t.state, cfg, p, t.log);
        EarnedCounts(t.state, cfg, p);
        if cfg.freezes.earnEvery == 0 { NeverGranted(t.state, cfg, p); }
      } else {
        EarnedEvents(t.state, cfg, p);
        assert t.log + [] == t.log;
      }
    case Pulling(_) =>
    case Restoring(cur) => SinceAdd(t.log, Make(t, cfg, m).log[|t.log|]);
    case Reminding(e) => SinceAdd(t.log, e);
    case Granting(_) =>
  }

  lemma NeverGranted(s: State, cfg: Config, p: Date)
    requires ValidConfig(cfg) && cfg.freezes.earnEvery == 0
    ensures CountKind(Earned(s, cfg, p).events, FreezeEarned) == 0
  {
    hide ScheduledOn, MilestoneEvents, CountKind;
    EarnedCounts(s, cfg, p);
  }

  lemma {:induction false} InProgressMoves(t: Track, cfg: Config, moves: seq<Move>)
    requires ValidConfig(cfg) && CanMake(t, cfg, moves) && InProgress(t, cfg)
    ensures InProgress(MakeAll(t, cfg, moves), cfg)
    decreases |moves|
  {
    hide ValidConfig, MoveOk, Make, InProgress;
    if moves != [] {
      InProgressMove(t, cfg, moves[0]);
      InProgressMoves(Make(t, cfg, moves[0]), cfg, moves[1..]);
    }
  }

  /** Over any run of records, ticks, zone changes, repairs and freeze grants, the progress is the number of
      periods earned since the last freeze was granted or the chain was broken, up to EarnEveryNPeriods. */
  lemma ProgressIsSince(cfg: Config, zone: Zone, calls: seq<Call>)
    requires CanRun(Session(NewRow(cfg), zone), calls) && AllOrdinary(calls)
    ensures var row := Run(Session(NewRow(cfg), zone), calls).row;
            row.state.progress == Min(Since(row.log), cfg.freezes.earnEvery)
  {
    hide ValidMask, Step, Possible, Make, MoveOk, Sound, CanMake, MakeAll;
    var moves := RunMoves(Session(NewRow(cfg), zone), calls);
    assert InProgress(TrackOf(NewRow(cfg)), cfg);
    InProgressMoves(TrackOf(NewRow(cfg)), cfg, moves);
  }

  // ---------------------------------------------------------------- earning without loss

  /** The inventory after the events of a log. */
  ghost function Inventory(log: seq<Event>, f: FreezePolicy): int {
    f.initial + CountKind(log, FreezeEarned) - CountKind(log, FreezeConsumed)
  }

  /** No break, and room for another freeze whenever a period is earned. */
  ghost predicate NothingWasted(log: seq<Event>, f: FreezePolicy) {
    forall i | 0 <= i < |log| ::
      !log[i].kind.Broken? && (log[i].kind.Extended? ==> Inventory(log[..i], f) < f.max)
  }

  ghost predicate EarnsInFull(t: Track, cfg: Config) {
    Accounted(t, cfg) && (NothingWasted(t.log, cfg.freezes) && cfg.freezes.earnEvery > 0 ==> FullyEarned(t, cfg))
  }

  ghost predicate FullyEarned(t: Track, cfg: Config) {
    && Times(cfg.freezes.earnEvery, CountKind(t.log, FreezeEarned)) + t.state.progress == CountKind(t.log, Extended)
    && t.state.progress < cfg.freezes.earnEvery
  }

  lemma WastedBefore(log: seq<Event>, events: seq<Event>, f: FreezePolicy)
    requires NothingWasted(log + events, f)
    ensures NothingWasted(log, f)
    ensures forall i | 0 <= i < |events| :: !events[i].kind.Broken?
    ensures events != [] && events[0].kind.Extended? ==> Inventory(log, f) < f.max
  {
    hide Inventory;
    var all := log + events;
    forall i | 0 <= i < |log|
      ensures !log[i].kind.Broken? && (log[i].kind.Extended? ==> Inventory(log[..i], f) < f.max)
    {
      assert all[i] == log[i] && all[..i] == log[..i];
    }
    forall i | 0 <= i < |events| ensures !events[i].kind.Broken? { assert all[|log| + i] == events[i]; }
    if events != [] { assert all[|log|] == events[0] && all[..|log|] == log; }
  }

  lemma EarnsInFullMove(t: Track, cfg: Config, m: Move)
    requires ValidConfig(cfg) && MoveOk(t, cfg, m) && !m.Granting? && EarnsInFull(t, cfg)
    ensures EarnsInFull(Make(t, cfg, m), cfg)
  {
    hide ValidMask, Aligned, ScheduledOn, Settled, Earned, Counted, Pointer, CountKind, LatestBreak, NothingWasted;
    AccountedMove(t, cfg, m);
    var u, n := Make(t, cfg, m), cfg.freezes.earnEvery;
    if NothingWasted(u.log, cfg.freezes) && n > 0 {
      match m
      case Settling(cur) =>
        var events := Settled(t.state, cfg, cur).events;
        WastedBefore(t.log, events, cfg.freezes);
        SettledCounts(t.state, cfg, cur);
        KeptProgress(t.state, cfg, cur);
        CountConcat(t.log, events, Extended);
        CountConcat(t.log, events, FreezeEarned);
      case Earning(p) =>
        var events := Earned(t.state, cfg, p).events;
        WastedBefore(t.log, events, cfg.freezes);
        EarnedCounts(t.state, cfg, p);
        EarnedEvents(t.state, cfg, p);
        CountConcat(t.log, events, Extended);
        CountConcat(t.log, events, FreezeEarned);
        if Earns(t.state, cfg, p) {
          EarningProgress(t.state, cfg, p);
          EarnedAnnounces(t.state, cfg, p);
          assert t.state.freezes < cfg.freezes.max;
          var k := CountKind(t.log, FreezeEarned);
          assert Times(n, k + 1) == Times(n, k) + n;
        }
      case Pulling(_) =>
      case Restoring(cur) =>
        var e := u.log[|t.log|];
        WastedBefore(t.log, [e], cfg.freezes);
        CountSilent(t.log, e, Extended);
        CountSilent(t.log, e, FreezeEarned);
      case Reminding(e) =>
        WastedBefore(t.log, [e], cfg.freezes);
        CountSilent(t.log, e, Extended);
        CountSilent(t.log, e, FreezeEarned);
    }
  }

  /** Settling without a break keeps the progress. */
  lemma KeptProgress(s: State, cfg: Config, cur: Date)
    requires ValidConfig(cfg) && Sound(s, cfg)
    requires forall i | 0 <= i < |Settled(s, cfg, cur).events| :: !Settled(s, cfg, cur).events[i].kind.Broken?
    ensures Settled(s, cfg, cur).state.progress == s.progress
  {
    hide ValidConfig, Aligned, PrevPeriod, ActiveBetween, Charge;
    if s.lastEarned != NO_DATE {
      if s.count == 0 {
        ChargeIdle(s, cfg.freezes.autoConsume, Pending(s, cfg, cur));
      } else {
        var auto, r := cfg.freezes.autoConsume, Settled(s, cfg, cur);
        ChargeClosed(s, auto, Pending(s, cfg, cur));
        assert |Pending(s, cfg, cur)| <= Budget(s, auto) || r.events[Budget(s, auto)].kind.Broken?;
      }
    }
  }

  lemma {:induction false} EarnsInFullMoves(t: Track, cfg: Config, moves: seq<Move>)
    requires ValidConfig(cfg) && CanMake(t, cfg, moves) && NoGrants(moves) && EarnsInFull(t, cfg)
    ensures EarnsInFull(MakeAll(t, cfg, moves), cfg)
    decreases |moves|
  {
    hide ValidConfig, MoveOk, Make, EarnsInFull;
    if moves != [] {
      EarnsInFullMove(t, cfg, moves[0]);
      EarnsInFullMoves(Make(t, cfg, moves[0]), cfg, moves[1..]);
    }
  }

  /** While no break occurs and there is room for another freeze at every earn, every EarnEveryNPeriods earned
      periods bring exactly one freeze, and the remainder is the progress. */
  lemma FreezesInFull(cfg: Config, zone: Zone, calls: seq<Call>)
    requires CanRun(Session(NewRow(cfg), zone), calls) && AllOrdinary(calls) && WithoutGrants(calls)
    requires cfg.freezes.earnEvery > 0
    ensures var row := Run(Session(NewRow(cfg), zone), calls).row; var n := cfg.freezes.earnEvery;
            NothingWasted(row.log, cfg.freezes) ==>
              && n * CountKind(row.log, FreezeEarned) + row.state.progress == CountKind(row.log, Extended)
              && 0 <= row.state.progress < n
  {
    hide ValidMask, Step, Possible, Make, MoveOk, Sound, CanMake, MakeAll;
    var moves := RunMoves(Session(NewRow(cfg), zone), calls);
    assert EarnsInFull(TrackOf(NewRow(cfg)), cfg);
    EarnsInFullMoves(TrackOf(NewRow(cfg)), cfg, moves);
    TimesIsProduct(cfg.freezes.earnEvery, CountKind(Run(Session(NewRow(cfg), zone), calls).row.log, FreezeEarned));
  }
}
