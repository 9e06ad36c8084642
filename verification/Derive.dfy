/** The closed-form read and the deadline predictor (internal/core/state.go). */
module Derive {
  import opened Calendar
  import opened Configs
  import opened Periods
  import opened Boundaries
  import opened Transition

  datatype Liveness = Alive | Frozen | Broken

  datatype Derived = Derived(
    count: int,
    longest: int,
    liveness: Liveness,
    earnedThisPeriod: bool,
    currentPeriod: Date,
    pendingFreezeSpend: int,
    freezesAfterSpend: int,
    freezeProgress: int,
    lossAt: Option<Instant>
  )

  /** The k-th active period after p. */
  function Steps(p: Date, cfg: Config, k: nat): Date
    requires ValidConfig(cfg)
    decreases k
  {
    if k == 0 then p else Steps(Next(p, cfg), cfg, k - 1)
  }

  function FirstAtRisk(cur: Date, lastEarned: Date, cfg: Config): Date
    requires ValidConfig(cfg)
  {
    if lastEarned != NO_DATE && lastEarned >= cur then Next(lastEarned, cfg)
    else if !ScheduledOn(cur, cfg) then Next(cur, cfg)
    else cur
  }

  function Spare(cfg: Config, freezes: int): nat {
    if cfg.freezes.autoConsume && freezes > 0 then freezes else 0
  }

  /** The period the streak cannot survive unearned. */
  function LossPeriod(cur: Date, lastEarned: Date, freezes: int, cfg: Config): Date
    requires ValidConfig(cfg)
  {
    Steps(FirstAtRisk(cur, lastEarned, cfg), cfg, Spare(cfg, freezes))
  }

  function DerivedAt(s: State, cfg: Config, cur: Date, zone: Zone): Derived
    requires ValidConfig(cfg) && Sound(s, cfg)
  {
    var earned := s.lastEarned != NO_DATE && s.lastEarned == cur;
    var d := Derived(0, s.longest, Liveness.Broken, earned, cur, 0, s.freezes, s.progress, None);
    if s.lastEarned == NO_DATE || s.count == 0 then d
    else
      var auto := cfg.freezes.autoConsume;
      var missed := Missed(Later(s.lastEarned, s.settledThrough), cur, cfg, s.freezes + 1);
      if missed == 0 then
        d.(liveness := Alive, count := s.count,
           lossAt := Some(PeriodEnd(LossPeriod(cur, s.lastEarned, s.freezes, cfg), zone, cfg)))
      else if missed <= s.freezes && auto then
        d.(liveness := Frozen, count := s.count, pendingFreezeSpend := missed, freezesAfterSpend := s.freezes - missed,
           lossAt := Some(PeriodEnd(LossPeriod(cur, s.lastEarned, s.freezes - missed, cfg), zone, cfg)))
      else if auto then
        d.(pendingFreezeSpend := s.freezes, freezesAfterSpend := 0, freezeProgress := 0)
      else
        d.(freezeProgress := 0)
  }

  lemma DerivedCount(s: State, cfg: Config, cur: Date, zone: Zone)
    requires ValidConfig(cfg) && Sound(s, cfg)
    ensures DerivedAt(s, cfg, cur, zone).currentPeriod == cur && DerivedAt(s, cfg, cur, zone).count >= 0
  {
  }

  /** lossAt: walk past the freezes that remain. */
  method LossAt(d: Derived, lastEarned: Date, cfg: Config, zone: Zone) returns (loss: Instant)
    requires ValidConfig(cfg)
    ensures loss == PeriodEnd(LossPeriod(d.currentPeriod, lastEarned, d.freezesAfterSpend, cfg), zone, cfg)
  {
    hide Next, PeriodEnd, ScheduledOn;
    var p := d.currentPeriod;
    if lastEarned != NO_DATE && lastEarned >= p {
      p := NextScheduled(lastEarned, cfg);
    } else if !ScheduledOn(p, cfg) {
      p := NextScheduled(p, cfg);
    }
    var spare := 0;
    if cfg.freezes.autoConsume {
      spare := d.freezesAfterSpend;
    }
    var i := 0;
    while i < spare
      invariant 0 <= i && (i <= spare || i == 0)
      invariant Steps(p, cfg, Max(spare - i, 0))
             == LossPeriod(d.currentPeriod, lastEarned, d.freezesAfterSpend, cfg)
    {
      p := NextScheduled(p, cfg);
      i := i + 1;
    }
    return PeriodEnd(p, zone, cfg);
  }

  method Derive(s: State, cfg: Config, now: Instant, zone: Zone) returns (d: Derived)
    requires ValidConfig(cfg) && Sound(s, cfg)
    ensures d == DerivedAt(s, cfg, PeriodKey(now, zone, cfg), zone)
  {
    hide PeriodKey, PeriodEnd, Aligned, ValidConfig, LossPeriod, ActiveBetween;
    var cur := PeriodKey(now, zone, cfg);
    d := Derived(0, s.longest, Liveness.Broken, s.lastEarned != NO_DATE && s.lastEarned == cur, cur, 0, 0, 0, None);
    if s.lastEarned == NO_DATE || s.count == 0 {
      d := d.(liveness := Liveness.Broken, freezesAfterSpend := s.freezes, freezeProgress := s.progress);
      return;
    }
    var from := Later(s.lastEarned, s.settledThrough);
    var missed := MissedBetween(from, cur, cfg, s.freezes + 1);
    if missed == 0 {
      d := d.(liveness := Alive, count := s.count, freezesAfterSpend := s.freezes, freezeProgress := s.progress);
    } else if missed <= s.freezes && cfg.freezes.autoConsume {
      d := d.(liveness := Frozen, count := s.count, pendingFreezeSpend := missed,
              freezesAfterSpend := s.freezes - missed, freezeProgress := s.progress);
    } else {
      d := d.(liveness := Liveness.Broken);
      if cfg.freezes.autoConsume {
        d := d.(pendingFreezeSpend := s.freezes, freezesAfterSpend := 0);
      } else {
        d := d.(freezesAfterSpend := s.freezes);
      }
      return;
    }
    var loss := LossAt(d, s.lastEarned, cfg, zone);
    d := d.(lossAt := Some(loss));
  }
}
