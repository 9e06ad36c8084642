/** The streak state machine (internal/core/transition.go): resolving missed periods and earning one.

    Settled and Earned say what Settle and Apply compute, on the key `cur` of the current period;
    the methods below them are the source's loops. */
module Transition {
  import opened Calendar
  import opened Configs
  import opened Periods
  import opened Boundaries

  datatype State = State(
    count: int,
    longest: int,
    lastEarned: Date,     // NO_DATE: never earned
    settledThrough: Date, // last elapsed period that has been resolved
    freezes: int,
    progress: int         // earned periods since the last freeze grant
  )

  datatype EventKind = Extended | FreezeEarned | FreezeConsumed | Broken | Milestone | Completed | Repaired | AtRisk

  /** count is the streak count after the event, except for Broken: the count that was lost. */
  datatype Event = Event(kind: EventKind, period: Date, count: int)

  datatype Outcome = Outcome(state: State, events: seq<Event>)

  /** A stored period: none yet, or a period key. */
  predicate Pointer(d: Date, cfg: Config) {
    d == NO_DATE || (d > NO_DATE && Aligned(d, cfg))
  }

  /** What holds of every state the engine stores. */
  predicate Sound(s: State, cfg: Config) {
    Pointer(s.lastEarned, cfg) && Pointer(s.settledThrough, cfg) && s.count >= 0 && s.freezes >= 0
  }

  /** A streak that never earned anything counts nothing.  Record, Settle and Replay keep this; a Repair
      after ReplaceHistory has emptied the ledger does not. */
  predicate Grounded(s: State) {
    s.lastEarned == NO_DATE ==> s.count == 0
  }

  function NewState(cfg: Config): State {
    State(0, 0, NO_DATE, NO_DATE, cfg.freezes.initial, 0)
  }

  /** Resolve the missed periods in order: each one costs a freeze, or else the chain. */
  function Charge(s: State, auto: bool, missed: seq<Date>): Outcome
    decreases |missed|
  {
    if missed == [] || s.count == 0 then
      Outcome(s, [])
    else if auto && s.freezes > 0 then
      var r := Charge(s.(freezes := s.freezes - 1), auto, missed[1..]);
      Outcome(r.state, [Event(FreezeConsumed, missed[0], s.count)] + r.events)
    else
      Outcome(s.(count := 0, progress := 0), [Event(Broken, missed[0], s.count)])
  }

  /** The active periods Settle has to resolve. */
  function Pending(s: State, cfg: Config, cur: Date): seq<Date>
    requires ValidConfig(cfg) && Sound(s, cfg) && s.lastEarned != NO_DATE
  {
    ActiveBetween(Later(s.lastEarned, s.settledThrough), cur, cfg)
  }

  function Settled(s: State, cfg: Config, cur: Date): Outcome
    requires ValidConfig(cfg) && Sound(s, cfg)
  {
    if s.lastEarned == NO_DATE then
      Outcome(s.(settledThrough := PrevPeriod(cur, cfg)), [])
    else
      var r := Charge(s, cfg.freezes.autoConsume, Pending(s, cfg, cur));
      Outcome(r.state.(settledThrough := Later(s.settledThrough, PrevPeriod(cur, cfg))), r.events)
  }

  /** Whether Apply earns period p: an active period later than every earned one. */
  predicate Earns(s: State, cfg: Config, p: Date)
    requires ValidConfig(cfg)
  {
    ScheduledOn(p, cfg) && (s.lastEarned == NO_DATE || s.lastEarned < p)
  }

  function Granted(s: State, f: FreezePolicy): State {
    if f.earnEvery <= 0 then s
    else if s.progress + 1 < f.earnEvery then s.(progress := s.progress + 1)
    else if s.freezes < f.max then s.(freezes := s.freezes + 1, progress := 0)
    else s.(progress := f.earnEvery)
  }

  function MilestoneEvents(milestones: seq<int>, p: Date, count: int): seq<Event> {
    if milestones == [] then []
    else
      MilestoneEvents(milestones[..|milestones| - 1], p, count)
      + if milestones[|milestones| - 1] == count then [Event(Milestone, p, count)] else []
  }

  function Earned(s: State, cfg: Config, p: Date): Outcome
    requires ValidConfig(cfg)
  {
    if !Earns(s, cfg, p) then Outcome(s, [])
    else
      var n := s.count + 1;
      var s1 := s.(count := n, lastEarned := p, longest := Max(s.longest, n));
      var s2 := Granted(s1, cfg.freezes);
      Outcome(s2,
        [Event(Extended, p, n)]
        + (if s2.freezes > s1.freezes then [Event(FreezeEarned, p, n)] else [])
        + MilestoneEvents(cfg.milestones, p, n)
        + (if cfg.target > 0 && n == cfg.target then [Event(Completed, p, n)] else []))
  }

  // ---------------------------------------------------------------- the source's loops

  method Settle(s0: State, cfg: Config, now: Instant, zone: Zone) returns (s: State, events: seq<Event>)
    requires ValidConfig(cfg) && Sound(s0, cfg)
    ensures Outcome(s, events) == Settled(s0, cfg, PeriodKey(now, zone, cfg))
  {
    hide PeriodKey, PrevPeriod, Next, Aligned, ValidConfig;
    var cur := PeriodKey(now, zone, cfg);
    var from := Later(s0.lastEarned, s0.settledThrough);
    s, events := s0, [];
    if s0.lastEarned == NO_DATE {
      s := s.(settledThrough := PrevPeriod(cur, cfg));
      return;
    }
    var auto := cfg.freezes.autoConsume;
    ghost var goal := Charge(s0, auto, ActiveBetween(from, cur, cfg));
    ghost var last := from;
    NextIsLeast(last, cfg);
    var p := NextScheduled(from, cfg);
    while p < cur
      invariant Aligned(last, cfg) && last < p == Next(last, cfg)
      invariant var rest := Charge(s, auto, ActiveBetween(last, cur, cfg));
                goal == Outcome(rest.state, events + rest.events)
      invariant s.settledThrough == s0.settledThrough
      decreases cur - last
    {
      if s.count == 0 { break; }
      assert ActiveBetween(last, cur, cfg)[1..] == ActiveBetween(p, cur, cfg) by { NextIsLeast(last, cfg); }
      if auto && s.freezes > 0 {
        events := events + [Event(FreezeConsumed, p, s.count)];
        s := s.(freezes := s.freezes - 1);
      } else {
        events := events + [Event(Broken, p, s.count)];
        s := s.(count := 0, progress := 0);
      }
      NextIsLeast(last, cfg);
      last := p;
      NextIsLeast(last, cfg);
      p := NextScheduled(p, cfg);
    }
    s := s.(settledThrough := Later(s.settledThrough, PrevPeriod(cur, cfg)));
  }

  /** Apply's loop over the configured milestones. */
  method Milestones(milestones: seq<int>, p: Date, count: int) returns (events: seq<Event>)
    ensures events == MilestoneEvents(milestones, p, count)
  {
    events := [];
    for i := 0 to |milestones|
      invariant events == MilestoneEvents(milestones[..i], p, count)
    {
      assert milestones[..i + 1][..i] == milestones[..i];
      if count == milestones[i] {
        events := events + [Event(Milestone, p, count)];
      }
    }
    assert milestones[..|milestones|] == milestones;
  }

  method Apply(s0: State, cfg: Config, at: Instant, zone: Zone) returns (s: State, events: seq<Event>, earned: bool)
    requires ValidConfig(cfg)
    ensures Outcome(s, events) == Earned(s0, cfg, PeriodKey(at, zone, cfg))
    ensures earned <==> Earns(s0, cfg, PeriodKey(at, zone, cfg))
  {
    hide PeriodKey, ScheduledOn, ValidConfig, MilestoneEvents;
    var p := PeriodKey(at, zone, cfg);
    s, events := s0, [];
    if !ScheduledOn(p, cfg) { return s0, [], false; }
    if s.lastEarned != NO_DATE && s.lastEarned >= p { return s0, [], false; }
    s := s.(count := s.count + 1);
    s := s.(lastEarned := p);
    if s.count > s.longest {
      s := s.(longest := s.count);
    }
    events := events + [Event(Extended, p, s.count)];
    ghost var s1 := s;
    var n := cfg.freezes.earnEvery;
    if n > 0 {
      s := s.(progress := s.progress + 1);
      if s.progress >= n {
        if s.freezes < cfg.freezes.max {
          s := s.(freezes := s.freezes + 1, progress := 0);
          events := events + [Event(FreezeEarned, p, s.count)];
        } else {
          s := s.(progress := n);
        }
      }
    }
    assert s == Granted(s1, cfg.freezes);
    hide Granted;
    assert events == [Event(Extended, p, s.count)]
                     + if s.freezes > s1.freezes then [Event(FreezeEarned, p, s.count)] else [];
    var reached := Milestones(cfg.milestones, p, s.count);
    events := events + reached;
    if cfg.target > 0 && s.count == cfg.target {
      events := events + [Event(Completed, p, s.count)];
    }
    return s, events, true;
  }

  // ---------------------------------------------------------------- laws

  lemma CurrentFacts(cur: Date, cfg: Config)
    requires Current(cur, cfg)
    ensures Aligned(cur, cfg) && Pointer(cur, cfg) && Pointer(PrevPeriod(cur, cfg), cfg)
    ensures NO_DATE < PrevPeriod(cur, cfg) < cur
  {
    hide Aligned, PrevPeriod, CalendarNext;
    CalendarSteps(cur, cfg);
  }

  lemma {:induction false} ChargeFrame(s: State, auto: bool, missed: seq<Date>)
    requires s.freezes >= 0 && s.count >= 0
    ensures var t := Charge(s, auto, missed).state;
            t.lastEarned == s.lastEarned && t.settledThrough == s.settledThrough && t.longest == s.longest &&
            0 <= t.freezes <= s.freezes && (t.count == s.count || t.count == 0)
    decreases |missed|
  {
    if missed != [] && s.count != 0 && auto && s.freezes > 0 {
      ChargeFrame(s.(freezes := s.freezes - 1), auto, missed[1..]);
    }
  }

  lemma ChargeIdle(s: State, auto: bool, missed: seq<Date>)
    requires s.count == 0
    ensures Charge(s, auto, missed) == Outcome(s, [])
  {
  }

  lemma SettledSound(s: State, cfg: Config, cur: Date)
    requires ValidConfig(cfg) && Sound(s, cfg) && Current(cur, cfg)
    ensures Sound(Settled(s, cfg, cur).state, cfg)
    ensures Settled(s, cfg, cur).state.lastEarned == s.lastEarned
    ensures Settled(s, cfg, cur).state.longest == s.longest
    ensures PrevPeriod(cur, cfg) <= Settled(s, cfg, cur).state.settledThrough
  {
    hide Aligned, PrevPeriod, ValidConfig, ActiveBetween;
    CurrentFacts(cur, cfg);
    if s.lastEarned != NO_DATE {
      ChargeFrame(s, cfg.freezes.autoConsume, Pending(s, cfg, cur));
    }
  }

  lemma EarnedSound(s: State, cfg: Config, p: Date)
    requires ValidConfig(cfg) && Sound(s, cfg) && Current(p, cfg)
    ensures Sound(Earned(s, cfg, p).state, cfg)
  {
    hide Aligned, ScheduledOn;
  }

  lemma {:induction false} ChargeConcat(s: State, auto: bool, a: seq<Date>, b: seq<Date>)
    ensures var r := Charge(s, auto, a); var q := Charge(r.state, auto, b);
            Charge(s, auto, a + b) == Outcome(q.state, r.events + q.events)
    decreases |a|
  {
    if a == [] {
      assert a + b == b;
    } else if s.count != 0 {
      assert (a + b)[1..] == a[1..] + b && (a + b)[0] == a[0];
      if auto && s.freezes > 0 {
        ChargeConcat(s.(freezes := s.freezes - 1), auto, a[1..], b);
      }
    }
  }

  lemma PrevMonotone(j: Date, k: Date, cfg: Config)
    requires Aligned(j, cfg) && Aligned(k, cfg) && j <= k
    ensures PrevPeriod(j, cfg) <= PrevPeriod(k, cfg)
  {
    hide Aligned, PrevPeriod, CalendarNext;
    CalendarSteps(j, cfg);
    NoKeyBetween(j, k, cfg);
  }

  /** Settling in two steps is settling once at the later period: same state, same events in the same order. */
  lemma SettleTwice(s: State, cfg: Config, j: Date, k: Date)
    requires ValidConfig(cfg) && Sound(s, cfg) && Current(j, cfg) && Current(k, cfg) && j <= k
    ensures Sound(Settled(s, cfg, j).state, cfg)
    ensures var r := Settled(s, cfg, j); var q := Settled(r.state, cfg, k);
            Settled(s, cfg, k) == Outcome(q.state, r.events + q.events)
  {
    hide Aligned, PrevPeriod, ValidConfig, ActiveBetween;
    SettledSound(s, cfg, j);
    CurrentFacts(j, cfg);
    CurrentFacts(k, cfg);
    PrevMonotone(j, k, cfg);
    if s.lastEarned != NO_DATE {
      var auto := cfg.freezes.autoConsume;
      var from := Later(s.lastEarned, s.settledThrough);
      ActiveBetweenSplit(from, j, k, cfg);
      ChargeConcat(s, auto, ActiveBetween(from, j, cfg), ActiveBetween(Later(from, PrevPeriod(j, cfg)), k, cfg));
      ChargePointer(Charge(s, auto, ActiveBetween(from, j, cfg)).state, auto,
                    ActiveBetween(Later(from, PrevPeriod(j, cfg)), k, cfg),
                    Later(s.settledThrough, PrevPeriod(j, cfg)));
      ChargeFrame(s, auto, ActiveBetween(from, j, cfg));
    }
  }

  lemma {:induction false} ChargePointer(s: State, auto: bool, missed: seq<Date>, d: Date)
    ensures var r := Charge(s, auto, missed);
            Charge(s.(settledThrough := d), auto, missed) == Outcome(r.state.(settledThrough := d), r.events)
    decreases |missed|
  {
    if missed != [] && s.count != 0 && auto && s.freezes > 0 {
      ChargePointer(s.(freezes := s.freezes - 1), auto, missed[1..], d);
    }
  }

  /** Settling only emits freeze_consumed and broken events, and they carry the settled count. */
  lemma {:induction false} ChargeEvents(s: State, auto: bool, missed: seq<Date>)
    ensures forall i | 0 <= i < |Charge(s, auto, missed).events| ::
              var e := Charge(s, auto, missed).events[i];
              e.count == s.count && (e.kind.FreezeConsumed? || e.kind.Broken?)
    decreases |missed|
  {
    if missed != [] && s.count != 0 && auto && s.freezes > 0 {
      ChargeEvents(s.(freezes := s.freezes - 1), auto, missed[1..]);
    }
  }

  lemma SettledKinds(s: State, cfg: Config, cur: Date)
    requires ValidConfig(cfg) && Sound(s, cfg)
    ensures forall i | 0 <= i < |Settled(s, cfg, cur).events| ::
              var e := Settled(s, cfg, cur).events[i]; e.kind.FreezeConsumed? || e.kind.Broken?
  {
    hide ValidConfig, Aligned, PrevPeriod, ActiveBetween, Charge;
    if s.lastEarned != NO_DATE { ChargeEvents(s, cfg.freezes.autoConsume, Pending(s, cfg, cur)); }
  }

  lemma {:induction false} MilestonesUniform(milestones: seq<int>, p: Date, count: int)
    ensures forall i | 0 <= i < |MilestoneEvents(milestones, p, count)| ::
              MilestoneEvents(milestones, p, count)[i] == Event(Milestone, p, count)
    decreases |milestones|
  {
    if milestones != [] {
      MilestonesUniform(milestones[..|milestones| - 1], p, count);
    }
  }

  /** Earning emits one extended event first, and every event is about the earned period and the new count. */
  lemma EarnedEvents(s: State, cfg: Config, p: Date)
    requires ValidConfig(cfg)
    ensures var o := Earned(s, cfg, p);
            if Earns(s, cfg, p) then
              && o.events != [] && o.events[0].kind.Extended? && o.state.count == s.count + 1
              && (forall i | 0 <= i < |o.events| :: o.events[i].period == p && o.events[i].count == s.count + 1)
              && (forall i | 0 < i < |o.events| ::
                    var k := o.events[i].kind; k.FreezeEarned? || k.Milestone? || k.Completed?)
            else o == Outcome(s, [])
  {
    hide ScheduledOn, ValidConfig, MilestoneEvents;
    MilestonesUniform(cfg.milestones, p, s.count + 1);
  }

  predicate Counted(events: seq<Event>) {
    forall i | 0 <= i < |events| :: events[i].count >= 0
  }

  lemma SettledCounted(s: State, cfg: Config, cur: Date)
    requires ValidConfig(cfg) && Sound(s, cfg)
    ensures Counted(Settled(s, cfg, cur).events)
  {
    hide Aligned, ValidConfig, PrevPeriod, ActiveBetween;
    if s.lastEarned != NO_DATE {
      ChargeEvents(s, cfg.freezes.autoConsume, Pending(s, cfg, cur));
    }
  }

  // ---------------------------------------------------------------- counting events

  function CountKind(events: seq<Event>, kind: EventKind): nat {
    if events == [] then 0
    else CountKind(events[..|events| - 1], kind) + if events[|events| - 1].kind == kind then 1 else 0
  }

  lemma {:induction false} CountConcat(a: seq<Event>, b: seq<Event>, kind: EventKind)
    ensures CountKind(a + b, kind) == CountKind(a, kind) + CountKind(b, kind)
    decreases |b|
  {
    if b == [] {
      assert a + b == a;
    } else {
      assert (a + b)[..|a + b| - 1] == a + b[..|b| - 1];
      CountConcat(a, b[..|b| - 1], kind);
    }
  }

  lemma {:induction false} CountAll(events: seq<Event>, kind: EventKind)
    requires forall i | 0 <= i < |events| :: events[i].kind == kind
    ensures CountKind(events, kind) == |events|
    decreases |events|
  {
    if events != [] { CountAll(events[..|events| - 1], kind); }
  }

  lemma {:induction false} CountNone(events: seq<Event>, kind: EventKind)
    requires forall i | 0 <= i < |events| :: events[i].kind != kind
    ensures CountKind(events, kind) == 0
    decreases |events|
  {
    if events != [] { CountNone(events[..|events| - 1], kind); }
  }

  lemma {:induction false} CountedAt(events: seq<Event>, i: nat, kind: EventKind)
    requires i < |events| && events[i].kind == kind
    ensures CountKind(events, kind) > 0
    decreases |events|
  {
    if i < |events| - 1 { CountedAt(events[..|events| - 1], i, kind); }
  }

  lemma CountedSome(events: seq<Event>, kind: EventKind)
    ensures CountKind(events, kind) > 0 <==> exists i :: 0 <= i < |events| && events[i].kind == kind
  {
    if i :| 0 <= i < |events| && events[i].kind == kind {
      CountedAt(events, i, kind);
    } else {
      CountNone(events, kind);
    }
  }
}
