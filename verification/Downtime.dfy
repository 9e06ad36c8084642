/** When the settler runs makes no difference (internal/core/transition.go, internal/engine/scheduler.go). */
module Downtime {
  import opened Calendar
  import opened Configs
  import opened Periods
  import opened Boundaries
  import opened Transition

  ghost predicate GoodClock(ticks: seq<Instant>, zone: Zone, cfg: Config) {
    forall i | 0 <= i < |ticks| :: Current(PeriodKey(ticks[i], zone, cfg), cfg)
  }

  /** Settle at each tick in turn, collecting the events. */
  ghost function SettleRun(s: State, cfg: Config, zone: Zone, ticks: seq<Instant>): (r: Outcome)
    requires ValidConfig(cfg) && Sound(s, cfg) && GoodClock(ticks, zone, cfg)
    ensures Sound(r.state, cfg)
    decreases |ticks|
  {
    hide PeriodKey, Aligned, ValidConfig, Settled;
    if ticks == [] then Outcome(s, [])
    else
      var n := |ticks| - 1;
      var r := SettleRun(s, cfg, zone, ticks[..n]);
      SettledSound(r.state, cfg, PeriodKey(ticks[n], zone, cfg));
      var q := Settled(r.state, cfg, PeriodKey(ticks[n], zone, cfg));
      Outcome(q.state, r.events + q.events)
  }

  /** Settling at any instants whose period keys do not go back is settling once, at the last of them. */
  lemma {:induction false} DowntimeInvisible(s: State, cfg: Config, zone: Zone, ticks: seq<Instant>)
    requires ValidConfig(cfg) && Sound(s, cfg) && GoodClock(ticks, zone, cfg) && |ticks| > 0
    requires forall i, j | 0 <= i < j < |ticks| :: PeriodKey(ticks[i], zone, cfg) <= PeriodKey(ticks[j], zone, cfg)
    ensures SettleRun(s, cfg, zone, ticks) == Settled(s, cfg, PeriodKey(ticks[|ticks| - 1], zone, cfg))
    decreases |ticks|
  {
    hide PeriodKey, Aligned, ValidConfig, Settled;
    var n := |ticks| - 1;
    var last := PeriodKey(ticks[n], zone, cfg);
    if n == 0 {
      assert ticks[..0] == [];
      assert SettleRun(s, cfg, zone, []) == Outcome(s, []);
    } else {
      DowntimeInvisible(s, cfg, zone, ticks[..n]);
      SettleTwice(s, cfg, PeriodKey(ticks[n - 1], zone, cfg), last);
    }
  }

  /** The same in the source's own terms: a fixed zone and a clock that does not go back. */
  lemma DowntimeInvisibleInFixedZone(s: State, cfg: Config, zone: Zone, ticks: seq<Instant>)
    requires ValidConfig(cfg) && Sound(s, cfg) && GoodClock(ticks, zone, cfg) && |ticks| > 0 && FixedZone(zone)
    requires forall i, j | 0 <= i < j < |ticks| :: ticks[i] <= ticks[j]
    ensures SettleRun(s, cfg, zone, ticks) == Settled(s, cfg, PeriodKey(ticks[|ticks| - 1], zone, cfg))
  {
    hide PeriodKey, Aligned, ValidConfig, Settled;
    forall i, j | 0 <= i < j < |ticks| ensures PeriodKey(ticks[i], zone, cfg) <= PeriodKey(ticks[j], zone, cfg) {
      KeysFollowTime(ticks[i], ticks[j], zone, cfg);
    }
    DowntimeInvisible(s, cfg, zone, ticks);
  }

  /** Nothing active follows a settle pointer that has passed every period before cur. */
  lemma NothingPending(from: Date, cur: Date, cfg: Config)
    requires ValidConfig(cfg) && Aligned(from, cfg) && Aligned(cur, cfg) && PrevPeriod(cur, cfg) <= from
    ensures ActiveBetween(from, cur, cfg) == []
  {
    hide Next, Aligned, ScheduledOn, ValidConfig, PrevPeriod, CalendarNext;
    NextIsLeast(from, cfg);
    CalendarSteps(cur, cfg);
    NoKeyBetween(Next(from, cfg), cur, cfg);
  }

  /** Once something has been earned, settling at an earlier period than before changes nothing. */
  lemma SettleBack(s: State, cfg: Config, j: Date, k: Date)
    requires ValidConfig(cfg) && Sound(s, cfg) && Current(j, cfg) && Current(k, cfg)
    requires k <= j && s.lastEarned != NO_DATE
    ensures Sound(Settled(s, cfg, j).state, cfg)
    ensures Settled(Settled(s, cfg, j).state, cfg, k) == Outcome(Settled(s, cfg, j).state, [])
  {
    hide Aligned, PrevPeriod, ValidConfig, ActiveBetween;
    SettledSound(s, cfg, j);
    CurrentFacts(j, cfg);
    CurrentFacts(k, cfg);
    PrevMonotone(k, j, cfg);
    var r := Settled(s, cfg, j).state;
    NothingPending(Later(r.lastEarned, r.settledThrough), k, cfg);
  }

  /** A settle pointer that has reached the period before j leaves nothing for settling at j. */
  lemma AlreadySettled(s: State, cfg: Config, j: Date)
    requires ValidConfig(cfg) && Sound(s, cfg) && Current(j, cfg)
    requires s.lastEarned != NO_DATE && PrevPeriod(j, cfg) <= s.settledThrough
    ensures Settled(s, cfg, j) == Outcome(s, [])
  {
    hide Aligned, PrevPeriod, ValidConfig, ActiveBetween;
    CurrentFacts(j, cfg);
    NothingPending(Later(s.lastEarned, s.settledThrough), j, cfg);
  }

  /** Once something has been earned, settling at instants in any order is settling once at the latest
      period among them: Settle acts through the maximum. */
  lemma {:induction false} AnyOrderIsLatest(s: State, cfg: Config, zone: Zone, ticks: seq<Instant>, m: nat)
    requires ValidConfig(cfg) && Sound(s, cfg) && GoodClock(ticks, zone, cfg) && m < |ticks|
    requires s.lastEarned != NO_DATE
    requires forall i | 0 <= i < |ticks| :: PeriodKey(ticks[i], zone, cfg) <= PeriodKey(ticks[m], zone, cfg)
    ensures SettleRun(s, cfg, zone, ticks) == Settled(s, cfg, PeriodKey(ticks[m], zone, cfg))
    decreases |ticks|
  {
    hide PeriodKey, Aligned, ValidConfig, Settled;
    var n := |ticks| - 1;
    var init, last, top := ticks[..n], PeriodKey(ticks[n], zone, cfg), PeriodKey(ticks[m], zone, cfg);
    if n == 0 {
      assert SettleRun(s, cfg, zone, []) == Outcome(s, []) && ticks[..0] == [];
    } else {
      var i := LatestTick(zone, cfg, init);
      AnyOrderIsLatest(s, cfg, zone, init, i);
      var before := PeriodKey(init[i], zone, cfg);
      assert before == PeriodKey(ticks[i], zone, cfg);
      if before <= last {
        SettleTwice(s, cfg, before, last);
      } else {
        SettleBack(s, cfg, before, last);
      }
      if m < n { assert init[m] == ticks[m]; }
      assert top == if before <= last then last else before;
    }
  }

  lemma {:induction false} LatestTick(zone: Zone, cfg: Config, ticks: seq<Instant>) returns (m: nat)
    requires |ticks| > 0
    ensures m < |ticks|
    ensures forall i | 0 <= i < |ticks| :: PeriodKey(ticks[i], zone, cfg) <= PeriodKey(ticks[m], zone, cfg)
    decreases |ticks|
  {
    hide PeriodKey;
    var n := |ticks| - 1;
    if n == 0 { return 0; }
    m := LatestTick(zone, cfg, ticks[..n]);
    assert forall i | 0 <= i < n :: ticks[..n][i] == ticks[i];
    if PeriodKey(ticks[m], zone, cfg) < PeriodKey(ticks[n], zone, cfg) {
      m := n;
    }
  }
}
