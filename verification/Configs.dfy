/** Streak configuration (internal/core/config.go), after Normalized has filled in the defaults. */
module Configs {
  import opened Calendar

  datatype Cadence = Day | Week | Month

  datatype FreezePolicy = FreezePolicy(initial: int, earnEvery: int, max: int, autoConsume: bool)

  datatype Config = Config(
    period: Cadence,
    weekdayMask: string,        // seven '0'/'1' characters, Monday first; empty: every day
    boundaryOffsetMin: int,
    minAmount: int,
    target: int,
    freezes: FreezePolicy,
    milestones: seq<int>,
    reminderMinute: Option<int> // the parsed local "HH:MM", None when reminders are off
  )

  datatype Option<T> = None | Some(value: T)

  datatype ConfigError =
    | BadAmount | MaskOnNonDay | MaskMalformed | MaskEmpty | OffsetOutOfRange | NegativeTarget
    | NegativeFreezes | MaxTooLarge | InitialAboveMax | EarningWithoutCap | BadReminder | MilestonesNotAscending

  const MAX_FREEZES := 100

  predicate ValidMask(cfg: Config) {
    cfg.weekdayMask == "" ||
    (cfg.period.Day? && |cfg.weekdayMask| == 7 &&
     (forall i | 0 <= i < 7 :: cfg.weekdayMask[i] == '0' || cfg.weekdayMask[i] == '1') &&
     '1' in cfg.weekdayMask)
  }

  predicate ValidFreezes(f: FreezePolicy) {
    0 <= f.initial <= f.max <= MAX_FREEZES && 0 <= f.earnEvery && (f.earnEvery > 0 ==> f.max > 0)
  }

  /** What the rest of the engine may rely on once Validate has accepted a configuration. */
  predicate ValidConfig(cfg: Config) {
    && cfg.minAmount >= 0
    && ValidMask(cfg)
    && -720 <= cfg.boundaryOffsetMin <= 720
    && cfg.target >= 0
    && ValidFreezes(cfg.freezes)
    && (cfg.reminderMinute.Some? ==> 0 <= cfg.reminderMinute.value < 1440)
    && (forall i | 0 <= i < |cfg.milestones| :: cfg.milestones[i] > 0)
    && (forall i, j | 0 <= i < j < |cfg.milestones| :: cfg.milestones[i] < cfg.milestones[j])
  }

  /** Validate: the chain of checks and the milestone loop accept exactly the valid configurations, and name the
      first fault of any other. */
  method Validate(cfg: Config) returns (error: Option<ConfigError>)
    ensures error.None? <==> ValidConfig(cfg)
    ensures error == Some(BadAmount) <==> cfg.minAmount < 0
    ensures error == Some(MaskOnNonDay) <==> cfg.minAmount >= 0 && cfg.weekdayMask != "" && !cfg.period.Day?
    ensures error.None? ==> -12 * 60 <= cfg.boundaryOffsetMin <= 12 * 60 && 0 <= cfg.target
    ensures error == Some(OffsetOutOfRange) ==> cfg.boundaryOffsetMin < -12 * 60 || 12 * 60 < cfg.boundaryOffsetMin
    ensures error.None? ==> 0 <= cfg.freezes.initial <= cfg.freezes.max <= 100 && 0 <= cfg.freezes.earnEvery
    ensures error == Some(MaxTooLarge) ==> cfg.freezes.max > 100
    ensures error == Some(InitialAboveMax) ==> cfg.freezes.initial > cfg.freezes.max
    ensures error == Some(EarningWithoutCap) ==> cfg.freezes.earnEvery > 0 && cfg.freezes.max == 0
    ensures error == Some(BadReminder) ==> cfg.reminderMinute.Some? && !(0 <= cfg.reminderMinute.value < 24 * 60)
    ensures error == Some(MaskEmpty) ==> '1' !in cfg.weekdayMask
    ensures error == Some(MilestonesNotAscending) ==>
              exists i | 0 <= i < |cfg.milestones| ::
                cfg.milestones[i] <= if i == 0 then 0 else cfg.milestones[i - 1]
  {
    if cfg.minAmount < 0 { return Some(BadAmount); }
    if cfg.weekdayMask != "" {
      if !cfg.period.Day? { return Some(MaskOnNonDay); }
      if |cfg.weekdayMask| != 7 || exists i | 0 <= i < |cfg.weekdayMask| :: cfg.weekdayMask[i] !in "01" {
        return Some(MaskMalformed);
      }
      if '1' !in cfg.weekdayMask { return Some(MaskEmpty); }
    }
    if cfg.boundaryOffsetMin < -720 || cfg.boundaryOffsetMin > 720 { return Some(OffsetOutOfRange); }
    if cfg.target < 0 { return Some(NegativeTarget); }
    var f := cfg.freezes;
    if f.initial < 0 || f.earnEvery < 0 || f.max < 0 { return Some(NegativeFreezes); }
    if f.max > MAX_FREEZES { return Some(MaxTooLarge); }
    if f.initial > f.max { return Some(InitialAboveMax); }
    if f.earnEvery > 0 && f.max == 0 { return Some(EarningWithoutCap); }
    if cfg.reminderMinute.Some? && !(0 <= cfg.reminderMinute.value < 1440) { return Some(BadReminder); }
    var prev := 0;
    for i := 0 to |cfg.milestones|
      invariant prev == if i == 0 then 0 else cfg.milestones[i - 1]
      invariant forall j | 0 <= j < i :: 0 < cfg.milestones[j] <= prev
      invariant forall j, k | 0 <= j < k < i :: cfg.milestones[j] < cfg.milestones[k]
    {
      if cfg.milestones[i] <= prev { return Some(MilestonesNotAscending); }
      prev := cfg.milestones[i];
    }
    return None;
  }

  /** Whether d is an active (non-rest) day; week and month periods have no rest days. */
  predicate ScheduledOn(d: Date, cfg: Config)
    requires ValidConfig(cfg)
  {
    !cfg.period.Day? || cfg.weekdayMask == "" || cfg.weekdayMask[ISOWeekday(d) - 1] == '1'
  }
}
