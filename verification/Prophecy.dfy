/** LossAt as a prophecy: when a streak left alone is lost (internal/core/state.go). */
module Prophecy {
  import opened Calendar
  import opened Configs
  import opened Periods
  import opened Boundaries
  import opened Transition
  import opened Derive
  import opened ClosedForm

  /** The streak, left alone, reads as broken at t. */
  predicate BrokenAt(s: State, cfg: Config, zone: Zone, t: Instant)
    requires ValidConfig(cfg) && Sound(s, cfg)
  {
    DerivedAt(s, cfg, PeriodKey(t, zone, cfg), zone).liveness.Broken?
  }

  /** LossAt foretells the loss: from now on the streak is broken at exactly the instants from LossAt on. */
  ghost predicate LossAtExact(s: State, cfg: Config, zone: Zone, now: Instant, loss: Instant)
    requires ValidConfig(cfg) && Sound(s, cfg)
  {
    forall t :: t >= now ==> (BrokenAt(s, cfg, zone, t) <==> t >= loss)
  }

  lemma {:induction false} StepsOrder(a: Date, b: Date, cfg: Config, k: nat)
    requires ValidConfig(cfg) && Aligned(a, cfg) && Aligned(b, cfg)
    ensures Aligned(Steps(a, cfg, k), cfg) && a <= Steps(a, cfg, k)
    ensures a <= b ==> Steps(a, cfg, k) <= Steps(b, cfg, k)
    ensures a < b && ScheduledOn(b, cfg) ==> Steps(a, cfg, k) < Steps(b, cfg, k)
    decreases k
  {
    hide Next, Aligned, ScheduledOn, ValidConfig;
    if k > 0 {
      NextIsLeast(a, cfg);
      NextIsLeast(b, cfg);
      StepsOrder(Next(a, cfg), Next(b, cfg), cfg, k - 1);
      if a < b && ScheduledOn(b, cfg) {
        assert Active(b, cfg);
      }
    }
  }

  /** More than j active periods lie between b and k exactly when k is past the j-th of them. */
  lemma {:induction false} CountPast(b: Date, k: Date, cfg: Config, j: nat)
    requires ValidConfig(cfg) && Aligned(b, cfg)
    ensures Aligned(Next(b, cfg), cfg)
    ensures |ActiveBetween(b, k, cfg)| > j <==> k > Steps(Next(b, cfg), cfg, j)
    decreases j
  {
    hide Next, Aligned, ScheduledOn, ValidConfig;
    NextIsLeast(b, cfg);
    var n := Next(b, cfg);
    StepsOrder(n, n, cfg, j);
    if j > 0 {
      CountPast(n, k, cfg, j - 1);
    }
  }

  /** The first period at risk is the next active one after the last earned and the last elapsed period. */
  lemma FirstAtRiskIsNext(cur: Date, lastEarned: Date, cfg: Config)
    requires ValidConfig(cfg) && Current(cur, cfg) && Pointer(lastEarned, cfg)
    ensures Aligned(Later(lastEarned, PrevPeriod(cur, cfg)), cfg)
    ensures FirstAtRisk(cur, lastEarned, cfg) == Next(Later(lastEarned, PrevPeriod(cur, cfg)), cfg)
    ensures FirstAtRisk(cur, lastEarned, cfg) >= cur
  {
    hide Next, Aligned, ScheduledOn, ValidConfig, PrevPeriod, CalendarNext;
    CurrentFacts(cur, cfg);
    CalendarSteps(cur, cfg);
    var prev := PrevPeriod(cur, cfg);
    if lastEarned < cur {
      if lastEarned > NO_DATE { NoKeyBetween(lastEarned, cur, cfg); }
      NextIsLeast(prev, cfg);
      NoKeyBetween(prev, Next(prev, cfg), cfg);
      if ScheduledOn(cur, cfg) {
        assert Active(cur, cfg);
      } else {
        NextAfterGap(prev, cur, cfg);
      }
      NextIsLeast(cur, cfg);
    } else {
      NextIsLeast(lastEarned, cfg);
    }
  }

  /** Where a live streak really breaks: at the end of the period `spare` steps past the first active one
      after the last earned period, the settle pointer and the last elapsed period. */
  lemma TrueLoss(s: State, cfg: Config, zone: Zone, now: Instant, t: Instant) returns (c: Date, b: Date, spare: nat)
    requires ValidConfig(cfg) && Sound(s, cfg) && FixedZone(zone)
    requires Current(PeriodKey(now, zone, cfg), cfg) && !BrokenAt(s, cfg, zone, now) && t >= now
    ensures c == Later(s.lastEarned, PrevPeriod(PeriodKey(now, zone, cfg), cfg)) && b == Later(c, s.settledThrough)
    ensures Aligned(c, cfg) && Aligned(b, cfg) && Aligned(Next(c, cfg), cfg) && Aligned(Next(b, cfg), cfg)
    ensures Next(c, cfg) >= PeriodKey(now, zone, cfg)
    ensures var d := DerivedAt(s, cfg, PeriodKey(now, zone, cfg), zone);
            spare == Spare(cfg, d.freezesAfterSpend) &&
            d.lossAt == Some(PeriodEnd(Steps(Next(c, cfg), cfg, spare), zone, cfg))
    ensures BrokenAt(s, cfg, zone, t) <==> PeriodKey(t, zone, cfg) > Steps(Next(b, cfg), cfg, spare)
  {
    hide PeriodKey, Next, Aligned, ScheduledOn, ValidConfig, PrevPeriod, CalendarNext, PeriodEnd, ActiveBetween;
    var cur, k := PeriodKey(now, zone, cfg), PeriodKey(t, zone, cfg);
    KeysFollowTime(now, t, zone, cfg);
    PeriodKeyAligned(t, zone, cfg);
    CurrentFacts(cur, cfg);
    var from := Later(s.lastEarned, s.settledThrough);
    c := Later(s.lastEarned, PrevPeriod(cur, cfg));
    b := Later(c, s.settledThrough);
    FirstAtRiskIsNext(cur, s.lastEarned, cfg);
    BrokenIffOverBudget(s, cfg, cur, zone);
    BrokenIffOverBudget(s, cfg, k, zone);
    spare := Spare(cfg, DerivedAt(s, cfg, cur, zone).freezesAfterSpend);
    ActiveBetweenSplit(from, cur, k, cfg);
    assert b == Later(from, PrevPeriod(cur, cfg));
    assert |Pending(s, cfg, cur)| + spare == Budget(s, cfg.freezes.autoConsume);
    NextIsLeast(c, cfg);
    CountPast(b, k, cfg, spare);
  }

  /** In a fixed zone LossAt is never later than the true loss. */
  lemma LossAtNeverLate(s: State, cfg: Config, zone: Zone, now: Instant, t: Instant)
    requires ValidConfig(cfg) && Sound(s, cfg) && FixedZone(zone)
    requires Current(PeriodKey(now, zone, cfg), cfg) && !BrokenAt(s, cfg, zone, now) && t >= now
    requires BrokenAt(s, cfg, zone, t)
    ensures DerivedAt(s, cfg, PeriodKey(now, zone, cfg), zone).lossAt.Some?
    ensures t >= DerivedAt(s, cfg, PeriodKey(now, zone, cfg), zone).lossAt.value
  {
    hide PeriodKey, Next, Aligned, ScheduledOn, ValidConfig, PrevPeriod, PeriodEnd, DerivedAt, BrokenAt;
    var c, b, spare := TrueLoss(s, cfg, zone, now, t);
    var p := Steps(Next(c, cfg), cfg, spare);
    NextIsLeast(c, cfg);
    NextIsLeast(b, cfg);
    StepsOrder(Next(c, cfg), Next(b, cfg), cfg, spare);
    BoundaryAdjoint(t, p, zone, cfg);
  }

  /** In a fixed zone LossAt is the exact deadline of a live streak if and only if the settle pointer has not
      passed the next active period after the last earned and the last elapsed ones. */
  lemma LossAtExactIff(s: State, cfg: Config, zone: Zone, now: Instant)
    requires ValidConfig(cfg) && Sound(s, cfg) && FixedZone(zone)
    requires Current(PeriodKey(now, zone, cfg), cfg) && !BrokenAt(s, cfg, zone, now)
    ensures var cur := PeriodKey(now, zone, cfg); var d := DerivedAt(s, cfg, cur, zone);
            d.lossAt.Some? &&
            (LossAtExact(s, cfg, zone, now, d.lossAt.value)
             <==> s.settledThrough < Next(Later(s.lastEarned, PrevPeriod(cur, cfg)), cfg))
  {
    hide PeriodKey, Next, Aligned, ScheduledOn, ValidConfig, PrevPeriod, CalendarNext, PeriodEnd, DerivedAt, BrokenAt;
    var cur := PeriodKey(now, zone, cfg);
    var loss := DerivedAt(s, cfg, cur, zone).lossAt;
    var c, b, spare := TrueLoss(s, cfg, zone, now, now);
    if s.settledThrough < Next(c, cfg) {
      NextIsLeast(c, cfg);
      NextAfterGap(c, b, cfg);
      StepsOrder(Next(c, cfg), Next(c, cfg), cfg, spare);
      forall t | t >= now ensures BrokenAt(s, cfg, zone, t) <==> t >= loss.value {
        var _, _, _ := TrueLoss(s, cfg, zone, now, t);
        BoundaryAdjoint(t, Steps(Next(c, cfg), cfg, spare), zone, cfg);
      }
    } else {
      var early := EarlyLoss(s, cfg, zone, now, c, b, spare);
    }
  }

  /** Otherwise LossAt itself is an instant at which the streak is still alive. */
  lemma EarlyLoss(s: State, cfg: Config, zone: Zone, now: Instant, c: Date, b: Date, spare: nat) returns (t: Instant)
    requires ValidConfig(cfg) && Sound(s, cfg) && FixedZone(zone)
    requires Current(PeriodKey(now, zone, cfg), cfg) && !BrokenAt(s, cfg, zone, now)
    requires c == Later(s.lastEarned, PrevPeriod(PeriodKey(now, zone, cfg), cfg)) && b == Later(c, s.settledThrough)
    requires Aligned(c, cfg) && Aligned(b, cfg) && Next(c, cfg) <= s.settledThrough
    requires spare == Spare(cfg, DerivedAt(s, cfg, PeriodKey(now, zone, cfg), zone).freezesAfterSpend)
    ensures t >= now && !BrokenAt(s, cfg, zone, t)
    ensures DerivedAt(s, cfg, PeriodKey(now, zone, cfg), zone).lossAt == Some(t)
  {
    hide PeriodKey, Next, Aligned, ScheduledOn, ValidConfig, PrevPeriod, CalendarNext, PeriodEnd, DerivedAt, BrokenAt;
    var _, _, _ := TrueLoss(s, cfg, zone, now, now);
    NextIsLeast(c, cfg);
    NextIsLeast(b, cfg);
    StepsOrder(Next(c, cfg), Next(b, cfg), cfg, spare);
    StepsOrder(Next(b, cfg), Next(b, cfg), cfg, spare);
    var p, q := Steps(Next(c, cfg), cfg, spare), Steps(Next(b, cfg), cfg, spare);
    t := PeriodEnd(p, zone, cfg);
    BoundaryAdjoint(now, p, zone, cfg);
    var _, _, _ := TrueLoss(s, cfg, zone, now, t);
    NoKeyBetween(p, q, cfg);
    CalendarSteps(q, cfg);
    BoundaryAdjoint(t, q, zone, cfg);
    PeriodEndOrder(p, q, zone, cfg);
  }

  lemma PeriodEndOrder(p: Date, q: Date, zone: Zone, cfg: Config)
    requires FixedZone(zone) && CalendarNext(p, cfg) < CalendarNext(q, cfg)
    ensures PeriodEnd(p, zone, cfg) < PeriodEnd(q, zone, cfg)
  {
    hide CalendarNext;
    var m := 60 * cfg.boundaryOffsetMin;
    assert AtWall(DAY_SECONDS * CalendarNext(p, cfg) + m, zone)
        == NANOS * (DAY_SECONDS * CalendarNext(p, cfg) + m - zone(0));
    assert AtWall(DAY_SECONDS * CalendarNext(q, cfg) + m, zone)
        == NANOS * (DAY_SECONDS * CalendarNext(q, cfg) + m - zone(0));
  }

  /** In particular, while the settle pointer is behind the current period LossAt is exact: with no further
      activity the streak is broken at t, through rest days and remaining freezes, iff t >= LossAt. */
  lemma LossAtExactBehindPointer(s: State, cfg: Config, zone: Zone, now: Instant, t: Instant)
    requires ValidConfig(cfg) && Sound(s, cfg) && FixedZone(zone) && t >= now
    requires Current(PeriodKey(now, zone, cfg), cfg) && !BrokenAt(s, cfg, zone, now)
    requires s.settledThrough < PeriodKey(now, zone, cfg)
    ensures DerivedAt(s, cfg, PeriodKey(now, zone, cfg), zone).lossAt.Some?
    ensures BrokenAt(s, cfg, zone, t) <==> t >= DerivedAt(s, cfg, PeriodKey(now, zone, cfg), zone).lossAt.value
  {
    hide PeriodKey, Next, Aligned, ScheduledOn, ValidConfig, PrevPeriod, CalendarNext, PeriodEnd, DerivedAt, BrokenAt;
    var c, b, spare := TrueLoss(s, cfg, zone, now, t);
    LossAtExactIff(s, cfg, zone, now);
  }
}
