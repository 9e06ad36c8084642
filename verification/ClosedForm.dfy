/** Derive is the closed form of the Settle loop (internal/core/state.go, internal/core/transition.go). */
module ClosedForm {
  import opened Calendar
  import opened Configs
  import opened Periods
  import opened Boundaries
  import opened Transition
  import opened Derive
  import opened Downtime

  /** How many missed periods a state can absorb. */
  function Budget(s: State, auto: bool): int {
    if auto then s.freezes else 0
  }

  /** The loop in closed form: it charges the first missed periods in order, one freeze each, and breaks
      the chain at the first one the inventory does not cover. */
  lemma {:induction false} ChargeClosed(s: State, auto: bool, missed: seq<Date>)
    requires s.count > 0 && s.freezes >= 0
    ensures var r := Charge(s, auto, missed); var b := Budget(s, auto); var broke := |missed| > b;
            && r.state == (if broke then s.(freezes := s.freezes - b, count := 0, progress := 0)
                           else s.(freezes := s.freezes - |missed|))
            && |r.events| == Min(|missed|, b + 1)
            && forall i | 0 <= i < |r.events| ::
                 r.events[i] == Event(if i < b then FreezeConsumed else EventKind.Broken, missed[i], s.count)
    decreases |missed|
  {
    if missed != [] && auto && s.freezes > 0 {
      ChargeClosed(s.(freezes := s.freezes - 1), auto, missed[1..]);
    }
  }

  lemma CountUniform(events: seq<Event>, kind: EventKind, other: EventKind, k: nat)
    requires k <= |events| && kind != other
    requires forall i | 0 <= i < |events| :: events[i].kind == if i < k then kind else other
    ensures CountKind(events, kind) == k && CountKind(events, other) == |events| - k
  {
    hide CountKind;
    var a, b := events[..k], events[k..];
    assert events == a + b;
    CountConcat(a, b, kind);
    CountConcat(a, b, other);
    CountAll(a, kind);
    CountNone(b, kind);
    CountNone(a, other);
    CountAll(b, other);
  }

  /** A live streak reads as broken at cur exactly when it has missed more than it can absorb. */
  lemma BrokenIffOverBudget(s: State, cfg: Config, cur: Date, zone: Zone)
    requires ValidConfig(cfg) && Sound(s, cfg) && s.count > 0 && s.lastEarned != NO_DATE
    ensures DerivedAt(s, cfg, cur, zone).liveness.Broken? <==>
            |Pending(s, cfg, cur)| > Budget(s, cfg.freezes.autoConsume)
  {
    hide Aligned, ValidConfig, ActiveBetween, PeriodEnd, LossPeriod;
  }

  /** What the view says besides the numbers: broken without a chain or with more misses than it can absorb, frozen
      with some, alive with none; a deadline exactly while it is not broken; the current period, and whether it is
      the last one earned. */
  lemma DeriveLiveness(s: State, cfg: Config, cur: Date, zone: Zone)
    requires ValidConfig(cfg) && Sound(s, cfg)
    ensures var d := DerivedAt(s, cfg, cur, zone);
            var live := s.lastEarned != NO_DATE && s.count > 0;
            && (d.liveness.Alive? <==> live && Pending(s, cfg, cur) == [])
            && (d.liveness.Frozen? <==> live && 0 < |Pending(s, cfg, cur)| <= Budget(s, cfg.freezes.autoConsume))
            && (d.lossAt.Some? <==> !d.liveness.Broken?)
            && d.currentPeriod == cur && (d.earnedThisPeriod <==> s.lastEarned == cur != NO_DATE)
  {
    hide ValidConfig, Aligned, ActiveBetween, PeriodEnd, LossPeriod;
  }

  /** What Derive reads is what Settle would store: the numbers agree (the count exactly on grounded states),
      PendingFreezeSpend counts the freeze_consumed events, a live streak reads broken iff Settle emits one
      broken event, and the events are charged to the first active periods after the settle pointer. */
  lemma DeriveMatchesSettle(s: State, cfg: Config, cur: Date, zone: Zone)
    requires ValidConfig(cfg) && Sound(s, cfg) && Current(cur, cfg)
    ensures var d := DerivedAt(s, cfg, cur, zone); var r := Settled(s, cfg, cur);
            && (d.count == r.state.count <==> Grounded(s)) && d.longest == r.state.longest
            && d.freezesAfterSpend == r.state.freezes && d.freezeProgress == r.state.progress
            && d.pendingFreezeSpend == CountKind(r.events, FreezeConsumed)
            && CountKind(r.events, EventKind.Broken)
                == (if s.lastEarned != NO_DATE && s.count > 0 && d.liveness.Broken? then 1 else 0)
            && |r.events| == CountKind(r.events, FreezeConsumed) + CountKind(r.events, EventKind.Broken)
            && (s.lastEarned != NO_DATE ==>
                  |r.events| <= |Pending(s, cfg, cur)| &&
                  forall i | 0 <= i < |r.events| :: r.events[i].period == Pending(s, cfg, cur)[i]
                                                 && r.events[i].count == s.count)
  {
    hide Aligned, PrevPeriod, ValidConfig, ActiveBetween, PeriodEnd, LossPeriod;
    if s.lastEarned != NO_DATE && s.count > 0 {
      var auto := cfg.freezes.autoConsume;
      var missed := Pending(s, cfg, cur);
      ChargeClosed(s, auto, missed);
      CountUniform(Charge(s, auto, missed).events, FreezeConsumed, EventKind.Broken,
                   Min(|missed|, Budget(s, auto)));
    }
  }

  /** Reading after settling changes nothing but Frozen to Alive and the pending spend to none; the count,
      the inventory and the deadline stay. */
  lemma DeriveAfterSettle(s: State, cfg: Config, cur: Date, zone: Zone)
    requires ValidConfig(cfg) && Sound(s, cfg) && Current(cur, cfg)
    ensures Sound(Settled(s, cfg, cur).state, cfg)
    ensures var d := DerivedAt(s, cfg, cur, zone);
            DerivedAt(Settled(s, cfg, cur).state, cfg, cur, zone)
            == d.(liveness := if d.liveness.Frozen? then Alive else d.liveness, pendingFreezeSpend := 0)
  {
    hide Aligned, PrevPeriod, ValidConfig, ActiveBetween, PeriodEnd, LossPeriod;
    SettledSound(s, cfg, cur);
    CurrentFacts(cur, cfg);
    if s.lastEarned != NO_DATE {
      var r := Settled(s, cfg, cur).state;
      NothingPending(Later(r.lastEarned, r.settledThrough), cur, cfg);
      if s.count > 0 {
        ChargeClosed(s, cfg.freezes.autoConsume, Pending(s, cfg, cur));
      }
    }
  }
}
