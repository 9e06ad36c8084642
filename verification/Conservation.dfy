/** What runs conserve: counts against breaks and repairs, and the freeze inventory against its events
    (internal/core/transition.go, internal/engine/admin.go). */
module Conservation {
  import opened Calendar
  import opened Configs
  import opened Periods
  import opened Transition
  import opened ClosedForm
  import opened Rows
  import opened Sessions
  import opened Moves

  // ---------------------------------------------------------------- counts, breaks and repairs

  /** The sum of the counts lost by breaks that no repair has given back: a break is repaired when the next
      broken or repaired event after it is a repair.  `repaired` says whether that is so at the end of log. */
  ghost function Unrepaired(log: seq<Event>, repaired: bool): int
    decreases |log|
  {
    if log == [] then 0
    else
      var e, init := log[|log| - 1], log[..|log| - 1];
      if e.kind.Broken? then Unrepaired(init, false) + if repaired then 0 else e.count
      else Unrepaired(init, if e.kind.Repaired? then true else repaired)
  }

  /** The greatest count any event has reached. */
  ghost function Peak(log: seq<Event>): int
    decreases |log|
  {
    if log == [] then 0
    else
      var e, init := log[|log| - 1], log[..|log| - 1];
      if e.kind.Extended? || e.kind.Repaired? then Max(Peak(init), e.count) else Peak(init)
  }

  /** The position of the newest broken or repaired event, -1 when there is none. */
  ghost function LastMarker(log: seq<Event>): int
    decreases |log|
  {
    if log == [] then -1
    else if log[|log| - 1].kind.Broken? || log[|log| - 1].kind.Repaired? then |log| - 1
    else LastMarker(log[..|log| - 1])
  }

  /** Every repair answers a break: the marker before it is a break that lost something. */
  ghost predicate RepairsAnswerBreaks(log: seq<Event>) {
    forall j | 0 <= j < |log| && log[j].kind.Repaired? :: LatestBreak(log[..j]) > 0
  }

  lemma {:induction false} RepairTakesBack(log: seq<Event>)
    ensures Unrepaired(log, true) == Unrepaired(log, false) - LatestBreak(log)
    decreases |log|
  {
    if log != [] {
      RepairTakesBack(log[..|log| - 1]);
    }
  }

  lemma {:induction false} MarkerIsBreak(log: seq<Event>)
    requires LatestBreak(log) > 0
    ensures 0 <= LastMarker(log) < |log| && log[LastMarker(log)].kind.Broken?
    ensures log[LastMarker(log)].count == LatestBreak(log)
    decreases |log|
  {
    if !log[|log| - 1].kind.Broken? {
      MarkerIsBreak(log[..|log| - 1]);
    }
  }

  lemma {:induction false} MarkerNotBefore(log: seq<Event>, j: int)
    requires 0 <= j < |log| && (log[j].kind.Broken? || log[j].kind.Repaired?)
    ensures LastMarker(log) >= j
    decreases |log|
  {
    if LastMarker(log) != |log| - 1 {
      MarkerNotBefore(log[..|log| - 1], j);
    }
  }

  /** Each break is repaired at most once: different repairs answer different breaks. */
  lemma RepairedAtMostOnce(log: seq<Event>, i: int, j: int)
    requires RepairsAnswerBreaks(log) && 0 <= i < j < |log| && log[i].kind.Repaired? && log[j].kind.Repaired?
    ensures 0 <= LastMarker(log[..i]) < i < LastMarker(log[..j]) < j
    ensures log[LastMarker(log[..i])].kind.Broken? && log[LastMarker(log[..j])].kind.Broken?
  {
    MarkerIsBreak(log[..i]);
    MarkerIsBreak(log[..j]);
    MarkerNotBefore(log[..j], i);
  }

  ghost predicate Balanced(t: Track) {
    && CountKind(t.log, Extended) == t.state.count + Unrepaired(t.log, false)
    && t.state.longest == Peak(t.log) && t.state.count <= t.state.longest
    && RepairsAnswerBreaks(t.log)
  }

  lemma AddOne(log: seq<Event>, e: Event)
    ensures CountKind(log + [e], Extended) == CountKind(log, Extended) + if e.kind.Extended? then 1 else 0
    ensures Unrepaired(log + [e], false) == if e.kind.Broken? then Unrepaired(log, false) + e.count
                                            else Unrepaired(log, e.kind.Repaired?)
    ensures Peak(log + [e]) == if e.kind.Extended? || e.kind.Repaired? then Max(Peak(log), e.count) else Peak(log)
    ensures RepairsAnswerBreaks(log) && (e.kind.Repaired? ==> LatestBreak(log) > 0) ==> RepairsAnswerBreaks(log + [e])
  {
    var all := log + [e];
    assert all[..|log|] == log;
    forall j | 0 <= j < |log| ensures all[..j] == log[..j] { }
  }

  /** Events of other kinds weigh nothing. */
  lemma {:induction false} AddNeutral(t: Track, events: seq<Event>)
    requires Balanced(t)
    requires forall i | 0 <= i < |events| ::
               var k := events[i].kind; !k.Extended? && !k.Broken? && !k.Repaired?
    ensures Balanced(t.(log := t.log + events))
    decreases |events|
  {
    if events == [] {
      assert t.log + events == t.log;
    } else {
      var n := |events| - 1;
      AddNeutral(t, events[..n]);
      assert t.log + events == (t.log + events[..n]) + [events[n]];
      AddOne(t.log + events[..n], events[n]);
    }
  }

  /** Freezes spent, then the break that ends the chain. */
  lemma BalancedBreak(t: Track, u: State, events: seq<Event>)
    requires Balanced(t) && events != [] && t.state.count > 0
    requires u.count == 0 && u.longest == t.state.longest
    requires forall i | 0 <= i < |events| - 1 :: events[i].kind.FreezeConsumed?
    requires events[|events| - 1].kind.Broken? && events[|events| - 1].count == t.state.count
    ensures Balanced(Track(u, t.log + events))
  {
    hide Unrepaired, Peak, CountKind, RepairsAnswerBreaks;
    var b := |events| - 1;
    AddNeutral(t, events[..b]);
    assert t.log + events == (t.log + events[..b]) + [events[b]];
    AddOne(t.log + events[..b], events[b]);
  }

  lemma BalancedSettling(t: Track, cfg: Config, cur: Date)
    requires ValidConfig(cfg) && Sound(t.state, cfg) && Current(cur, cfg) && Balanced(t)
    ensures var r := Settled(t.state, cfg, cur); Balanced(Track(r.state, t.log + r.events))
  {
    hide ValidConfig, Aligned, PrevPeriod, ActiveBetween, Balanced, Charge;
    var s := t.state;
    var r := Settled(s, cfg, cur);
    if s.lastEarned == NO_DATE || s.count == 0 {
      if s.lastEarned != NO_DATE { ChargeIdle(s, cfg.freezes.autoConsume, Pending(s, cfg, cur)); }
      assert t.log + r.events == t.log;
      BalancedMeans(t, r.state);
    } else {
      var auto, missed := cfg.freezes.autoConsume, Pending(s, cfg, cur);
      ChargeClosed(s, auto, missed);
      if |missed| <= Budget(s, auto) {
        AddNeutral(t, r.events);
        BalancedMeans(t.(log := t.log + r.events), r.state);
      } else {
        BalancedBreak(t, r.state, r.events);
      }
    }
  }

  /** The balance looks at the counts of the state only. */
  lemma BalancedMeans(t: Track, u: State)
    requires Balanced(t) && u.count == t.state.count && u.longest == t.state.longest
    ensures Balanced(Track(u, t.log))
  {
  }

  lemma BalancedEarning(t: Track, cfg: Config, p: Date)
    requires ValidConfig(cfg) && Balanced(t)
    ensures var r := Earned(t.state, cfg, p); Balanced(Track(r.state, t.log + r.events))
  {
    hide ValidConfig, ScheduledOn, MilestoneEvents, Unrepaired, Peak, RepairsAnswerBreaks, CountKind;
    var r := Earned(t.state, cfg, p);
    EarnedEvents(t.state, cfg, p);
    if r.events == [] {
      assert t.log + r.events == t.log;
    } else {
      var u := Track(r.state, t.log + [r.events[0]]);
      AddOne(t.log, r.events[0]);
      AddNeutral(u, r.events[1..]);
      assert t.log + r.events == u.log + r.events[1..];
    }
  }

  lemma BalancedMove(t: Track, cfg: Config, m: Move)
    requires ValidConfig(cfg) && MoveOk(t, cfg, m) && Balanced(t)
    ensures Balanced(Make(t, cfg, m))
  {
    hide ValidConfig, Aligned, Settled, Earned, Counted, Pointer, Unrepaired, Peak, CountKind;
    match m
    case Settling(cur) => BalancedSettling(t, cfg, cur);
    case Earning(p) => BalancedEarning(t, cfg, p);
    case Pulling(_) =>
    case Restoring(cur) =>
      AddOne(t.log, Make(t, cfg, m).log[|t.log|]);
      RepairTakesBack(t.log);
    case Reminding(e) => AddOne(t.log, e);
    case Granting(_) =>
  }

  lemma {:induction false} BalancedMoves(t: Track, cfg: Config, moves: seq<Move>)
    requires ValidConfig(cfg) && CanMake(t, cfg, moves) && Balanced(t)
    ensures Balanced(MakeAll(t, cfg, moves))
    decreases |moves|
  {
    hide ValidConfig, MoveOk, Make, Balanced;
    if moves != [] {
      BalancedMove(t, cfg, moves[0]);
      BalancedMoves(Make(t, cfg, moves[0]), cfg, moves[1..]);
    }
  }

  /** Chain conservation: over any run of records, ticks, freeze grants, zone changes and repairs, the number of
      extended events is the current count plus the counts of the breaks not yet repaired; Longest is the
      greatest count any event reached; and every repair answers a break of its own. */
  lemma ChainConservation(cfg: Config, zone: Zone, calls: seq<Call>)
    requires CanRun(Session(NewRow(cfg), zone), calls) && AllOrdinary(calls)
    ensures var row := Run(Session(NewRow(cfg), zone), calls).row;
            && CountKind(row.log, Extended) == row.state.count + Unrepaired(row.log, false)
            && row.state.longest == Peak(row.log) >= row.state.count
            && RepairsAnswerBreaks(row.log)
  {
    hide ValidConfig, Step, Possible, Make, MoveOk, Sound, CanMake, MakeAll;
    var moves := RunMoves(Session(NewRow(cfg), zone), calls);
    assert Balanced(TrackOf(NewRow(cfg)));
    BalancedMoves(TrackOf(NewRow(cfg)), cfg, moves);
  }

  // ---------------------------------------------------------------- freezes

  ghost predicate Accounted(t: Track, cfg: Config) {
    var f, s := cfg.freezes, t.state;
    && s.freezes == f.initial + CountKind(t.log, FreezeEarned) - CountKind(t.log, FreezeConsumed)
    && 0 <= s.freezes <= f.max
    && 0 <= s.progress <= f.earnEvery
    && Times(f.earnEvery, CountKind(t.log, FreezeEarned)) + s.progress <= CountKind(t.log, Extended)
    && (f.earnEvery == 0 ==> CountKind(t.log, FreezeEarned) == 0)
  }

  /** Multiplication by repeated addition. */
  ghost function Times(n: int, k: nat): int {
    if k == 0 then 0 else Times(n, k - 1) + n
  }

  lemma {:induction false} TimesIsProduct(n: int, k: nat)
    ensures Times(n, k) == n * k
  {
    if k > 0 {
      TimesIsProduct(n, k - 1);
      assert n * k == n * (k - 1) + n;
    }
  }

  lemma CountSilent(log: seq<Event>, e: Event, kind: EventKind)
    requires e.kind != kind
    ensures CountKind(log + [e], kind) == CountKind(log, kind)
  {
    assert (log + [e])[..|log|] == log;
  }

  lemma SettledCounts(s: State, cfg: Config, cur: Date)
    requires ValidConfig(cfg) && Sound(s, cfg) && Current(cur, cfg)
    ensures var r := Settled(s, cfg, cur);
            && CountKind(r.events, Extended) == 0 && CountKind(r.events, FreezeEarned) == 0
            && r.state.freezes == s.freezes - CountKind(r.events, FreezeConsumed) >= 0
            && (r.state.progress == s.progress || r.state.progress == 0)
  {
    hide ValidConfig, Aligned, PrevPeriod, ActiveBetween;
    var r := Settled(s, cfg, cur);
    if s.lastEarned != NO_DATE && s.count > 0 {
      var auto, missed := cfg.freezes.autoConsume, Pending(s, cfg, cur);
      ChargeClosed(s, auto, missed);
      CountUniform(r.events, FreezeConsumed, EventKind.Broken, Min(|missed|, Budget(s, auto)));
    }
    CountNone(r.events, Extended);
    CountNone(r.events, FreezeEarned);
  }

  lemma EarnedCounts(s: State, cfg: Config, p: Date)
    requires ValidConfig(cfg)
    ensures var r := Earned(s, cfg, p);
            && CountKind(r.events, Extended) == (if Earns(s, cfg, p) then 1 else 0)
            && CountKind(r.events, FreezeConsumed) == 0
            && CountKind(r.events, FreezeEarned) == r.state.freezes - s.freezes
  {
    hide ValidConfig, ScheduledOn, MilestoneEvents, CountKind;
    var r, n := Earned(s, cfg, p), s.count + 1;
    EarnedEvents(s, cfg, p);
    if Earns(s, cfg, p) {
      var head := [Event(Extended, p, n)] + if r.state.freezes > s.freezes then [Event(FreezeEarned, p, n)] else [];
      var tail := MilestoneEvents(cfg.milestones, p, n)
                  + if cfg.target > 0 && n == cfg.target then [Event(Completed, p, n)] else [];
      assert r.events == head + tail;
      MilestonesUniform(cfg.milestones, p, n);
      CountConcat(head, tail, Extended);
      CountConcat(head, tail, FreezeEarned);
      CountNone(tail, Extended);
      CountNone(tail, FreezeEarned);
      CountHead(head);
    } else {
      CountNone(r.events, Extended);
      CountNone(r.events, FreezeEarned);
    }
    CountNone(r.events, FreezeConsumed);
  }

  /** In an ascending list a milestone occurs once at most. */
  lemma {:induction false} MilestoneOnce(milestones: seq<int>, p: Date, count: int)
    requires forall i, j | 0 <= i < j < |milestones| :: milestones[i] < milestones[j]
    ensures |MilestoneEvents(milestones, p, count)| == if count in milestones then 1 else 0
    decreases |milestones|
  {
    if milestones != [] {
      var n := |milestones| - 1;
      MilestoneOnce(milestones[..n], p, count);
      assert milestones == milestones[..n] + [milestones[n]];
    }
  }

  /** What earning a period announces: a freeze exactly when one is due and there is room for it, the milestone
      that the new count is, and completion exactly at the target. */
  lemma EarnedAnnounces(s: State, cfg: Config, p: Date)
    requires ValidConfig(cfg) && Earns(s, cfg, p)
    ensures var events := Earned(s, cfg, p).events; var f := cfg.freezes;
            && (CountKind(events, FreezeEarned) == 1
                <==> f.earnEvery > 0 && s.progress >= f.earnEvery - 1 && s.freezes < f.max)
            && CountKind(events, Milestone) == (if s.count + 1 in cfg.milestones then 1 else 0)
            && CountKind(events, Completed) == (if cfg.target > 0 && s.count + 1 == cfg.target then 1 else 0)
  {
    hide ScheduledOn, MilestoneEvents, CountKind;
    var r, n := Earned(s, cfg, p), s.count + 1;
    EarnedCounts(s, cfg, p);
    MilestoneOnce(cfg.milestones, p, n);
    MilestonesUniform(cfg.milestones, p, n);
    var head := [Event(Extended, p, n)] + if r.state.freezes > s.freezes then [Event(FreezeEarned, p, n)] else [];
    var mid := MilestoneEvents(cfg.milestones, p, n);
    var tail := if cfg.target > 0 && n == cfg.target then [Event(Completed, p, n)] else [];
    assert r.events == head + (mid + tail);
    CountConcat(head, mid + tail, Milestone);
    CountConcat(head, mid + tail, Completed);
    CountConcat(mid, tail, Milestone);
    CountConcat(mid, tail, Completed);
    CountNone(head, Milestone);
    CountNone(head, Completed);
    CountNone(mid, Completed);
    CountNone(tail, Milestone);
    CountAll(mid, Milestone);
    CountAll(tail, Completed);
  }

  lemma CountHead(head: seq<Event>)
    requires 1 <= |head| <= 2 && head[0].kind.Extended? && (|head| == 2 ==> head[1].kind.FreezeEarned?)
    ensures CountKind(head, Extended) == 1 && CountKind(head, FreezeEarned) == |head| - 1
  {
    assert head[..1] == [head[0]] && [head[0]][..0] == [];
    assert CountKind([], Extended) == 0 && CountKind([], FreezeEarned) == 0;
    assert CountKind([head[0]], Extended) == 1 && CountKind([head[0]], FreezeEarned) == 0;
  }

  lemma AccountedMove(t: Track, cfg: Config, m: Move)
    requires ValidConfig(cfg) && MoveOk(t, cfg, m) && !m.Granting? && Accounted(t, cfg)
    ensures Accounted(Make(t, cfg, m), cfg)
  {
    hide ValidMask, Aligned, ScheduledOn, Settled, Counted, Pointer, CountKind, MilestoneEvents, LatestBreak;
    match m
    case Settling(cur) =>
      var events := Settled(t.state, cfg, cur).events;
      SettledCounts(t.state, cfg, cur);
      CountConcat(t.log, events, Extended);
      CountConcat(t.log, events, FreezeEarned);
      CountConcat(t.log, events, FreezeConsumed);
    case Earning(p) =>
      var events := Earned(t.state, cfg, p).events;
      EarnedCounts(t.state, cfg, p);
      CountConcat(t.log, events, Extended);
      CountConcat(t.log, events, FreezeEarned);
      CountConcat(t.log, events, FreezeConsumed);
    case Pulling(_) =>
    case Restoring(cur) =>
      var e := Make(t, cfg, m).log[|t.log|];
      CountSilent(t.log, e, Extended);
      CountSilent(t.log, e, FreezeEarned);
      CountSilent(t.log, e, FreezeConsumed);
    case Reminding(e) =>
      CountSilent(t.log, e, Extended);
      CountSilent(t.log, e, FreezeEarned);
      CountSilent(t.log, e, FreezeConsumed);
  }

  lemma {:induction false} AccountedMoves(t: Track, cfg: Config, moves: seq<Move>)
    requires ValidConfig(cfg) && CanMake(t, cfg, moves) && NoGrants(moves) && Accounted(t, cfg)
    ensures Accounted(MakeAll(t, cfg, moves), cfg)
    decreases |moves|
  {
    hide ValidConfig, MoveOk, Make, Accounted;
    if moves != [] {
      AccountedMove(t, cfg, moves[0]);
      AccountedMoves(Make(t, cfg, moves[0]), cfg, moves[1..]);
    }
  }

  /** Freeze accounting over any run of records, ticks, zone changes and repairs: the inventory is what was
      granted at the start, plus earned, minus consumed, within the cap; and earning is amortised: every
      granted freeze is paid for by EarnEveryNPeriods extended events. */
  lemma FreezeAccounting(cfg: Config, zone: Zone, calls: seq<Call>)
    requires CanRun(Session(NewRow(cfg), zone), calls) && AllOrdinary(calls) && WithoutGrants(calls)
    ensures var row := Run(Session(NewRow(cfg), zone), calls).row; var f := cfg.freezes;
            var earned, consumed := CountKind(row.log, FreezeEarned), CountKind(row.log, FreezeConsumed);
            && row.state.freezes == f.initial + earned - consumed && 0 <= row.state.freezes <= f.max
            && 0 <= row.state.progress <= f.earnEvery
            && f.earnEvery * earned + row.state.progress <= CountKind(row.log, Extended)
            && (if f.earnEvery == 0 then consumed <= f.initial
                else consumed <= f.initial + CountKind(row.log, Extended) / f.earnEvery)
  {
    hide ValidMask, Step, Possible, Make, MoveOk, Sound, CanMake, MakeAll;
    var moves := RunMoves(Session(NewRow(cfg), zone), calls);
    assert Accounted(TrackOf(NewRow(cfg)), cfg);
    AccountedMoves(TrackOf(NewRow(cfg)), cfg, moves);
    var log := Run(Session(NewRow(cfg), zone), calls).row.log;
    var n, k, x := cfg.freezes.earnEvery, CountKind(log, FreezeEarned), CountKind(log, Extended);
    TimesIsProduct(n, k);
    if n > 0 { Quotient(n, k, x); }
  }

  lemma Quotient(n: int, k: int, x: int)
    requires n > 0 && n * k <= x
    ensures k <= x / n
  {
    var d := k - x / n - 1;
    assert n * d == n * k - n * (x / n) - n;
    Negative(n, d);
  }

  lemma Negative(n: int, d: int)
    requires n > 0 && n * d < 0
    ensures d < 0
  {
  }
}
