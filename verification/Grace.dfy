/** The boundary-race branch of Record (internal/engine/record.go): it earns a period that has just
    ended before settling, and claims to follow the order a ledger replay would use. */
module Grace {
  import opened Calendar
  import opened Configs
  import opened Periods
  import opened Transition
  import opened Replay
  import opened Downtime
  import opened ClosedForm

  /** Earn p, then settle to cur. */
  function GraceOrder(s: State, cfg: Config, p: Date, cur: Date): Outcome
    requires ValidConfig(cfg) && Sound(s, cfg) && Current(p, cfg)
  {
    EarnedSound(s, cfg, p);
    var a := Earned(s, cfg, p);
    var q := Settled(a.state, cfg, cur);
    Outcome(q.state, a.events + q.events)
  }

  /** Settle to p, earn it, settle to cur: the order of a ledger replay. */
  function ReplayOrder(s: State, cfg: Config, p: Date, cur: Date): Outcome
    requires ValidConfig(cfg) && Sound(s, cfg) && Current(p, cfg)
  {
    SettledSound(s, cfg, p);
    var r := Settled(s, cfg, p);
    var g := GraceOrder(r.state, cfg, p, cur);
    Outcome(g.state, r.events + g.events)
  }

  /** Nothing was ever earned, or the chain is already lost, or p is a rest day, or no active period between
      the settle pointer and p is unresolved. */
  predicate NothingToResolve(s: State, cfg: Config, p: Date)
    requires ValidConfig(cfg) && Sound(s, cfg)
  {
    s.lastEarned == NO_DATE || s.count == 0 || !ScheduledOn(p, cfg) || Pending(s, cfg, p) == []
  }

  lemma EarnedPointer(s: State, cfg: Config, p: Date, d: Date)
    requires ValidConfig(cfg)
    ensures Earned(s.(settledThrough := d), cfg, p)
         == Outcome(Earned(s, cfg, p).state.(settledThrough := d), Earned(s, cfg, p).events)
  {
    hide ScheduledOn, ValidConfig, MilestoneEvents;
  }

  /** A settle pointer at or before the last earned period has no influence. */
  lemma PointerIrrelevant(s: State, cfg: Config, d: Date, cur: Date)
    requires ValidConfig(cfg) && Sound(s, cfg) && Sound(s.(settledThrough := d), cfg) && Current(cur, cfg)
    requires s.settledThrough <= s.lastEarned && d <= s.lastEarned && NO_DATE < s.lastEarned < cur
    ensures Settled(s.(settledThrough := d), cfg, cur) == Settled(s, cfg, cur)
  {
    hide Aligned, PrevPeriod, CalendarNext, ValidConfig, ActiveBetween;
    CurrentFacts(cur, cfg);
    NoKeyBetween(s.lastEarned, cur, cfg);
    ChargePointer(s, cfg.freezes.autoConsume, Pending(s, cfg, cur), d);
  }

  /** The grace branch agrees with replay order, in state and events, exactly when there is nothing to
      resolve before p. */
  lemma GraceAgreesIff(s: State, cfg: Config, p: Date, cur: Date)
    requires ValidConfig(cfg) && Sound(s, cfg) && Current(p, cfg) && Current(cur, cfg)
    requires p < cur && s.settledThrough < p && s.lastEarned < p
    ensures GraceOrder(s, cfg, p, cur) == ReplayOrder(s, cfg, p, cur) <==> NothingToResolve(s, cfg, p)
  {
    hide Aligned, PrevPeriod, ValidConfig, ActiveBetween, ScheduledOn;
    EarnedSound(s, cfg, p);
    SettledSound(s, cfg, p);
    CurrentFacts(p, cfg);
    var a, r := Earned(s, cfg, p), Settled(s, cfg, p);
    if !ScheduledOn(p, cfg) {
      SettleTwice(s, cfg, p, cur);
    } else if NothingToResolve(s, cfg, p) {
      assert r == Outcome(s.(settledThrough := PrevPeriod(p, cfg)), []) by {
        assert s.settledThrough <= PrevPeriod(p, cfg) by { PointerBehind(s.settledThrough, p, cfg); }
      }
      EarnedPointer(s, cfg, p, PrevPeriod(p, cfg));
      EarnedSound(r.state, cfg, p);
      PointerIrrelevant(a.state, cfg, PrevPeriod(p, cfg), cur);
    } else {
      assert GraceOrder(s, cfg, p, cur).events[0].kind == Extended;
      assert r.events != [] && ReplayOrder(s, cfg, p, cur).events[0] == r.events[0];
      assert r.events[0].kind != Extended;
    }
  }

  /** Earning a period shows whether misses have been charged before it. */
  lemma ChargeShows(s: State, cfg: Config, missed: seq<Date>, p: Date)
    requires ValidConfig(cfg) && s.count > 0 && s.freezes >= 0 && missed != [] && Earns(s, cfg, p)
    ensures var r := Charge(s, cfg.freezes.autoConsume, missed).state;
            var a, b := Earned(s, cfg, p).state, Earned(r, cfg, p).state;
            Earns(r, cfg, p) && (a.count != b.count || a.freezes != b.freezes || a.progress != b.progress)
  {
    hide ScheduledOn, Charge, MilestoneEvents;
    ChargeClosed(s, cfg.freezes.autoConsume, missed);
  }

  /** Crossing the boundary right after an earned period charges nothing. */
  lemma SettledAfterEarning(s: State, cfg: Config, cur: Date)
    requires ValidConfig(cfg) && Sound(s, cfg) && Current(cur, cfg) && s.lastEarned == PrevPeriod(cur, cfg)
    ensures Settled(s, cfg, cur) == Outcome(s.(settledThrough := Later(s.settledThrough, PrevPeriod(cur, cfg))), [])
  {
    hide Aligned, PrevPeriod, ValidConfig, ActiveBetween;
    CurrentFacts(cur, cfg);
    NothingPending(Later(s.lastEarned, s.settledThrough), cur, cfg);
  }

  /** In the stored state, too, the orders differ whenever something is left to resolve before p, the period
      that has just ended. */
  lemma GraceStateIff(s: State, cfg: Config, p: Date, cur: Date)
    requires ValidConfig(cfg) && Sound(s, cfg) && Current(p, cfg) && Current(cur, cfg)
    requires PrevPeriod(cur, cfg) == p && s.settledThrough < p && s.lastEarned < p
    ensures GraceOrder(s, cfg, p, cur).state == ReplayOrder(s, cfg, p, cur).state <==> NothingToResolve(s, cfg, p)
  {
    hide Aligned, PrevPeriod, ValidConfig, ActiveBetween, ScheduledOn, Charge, Earned;
    CurrentFacts(cur, cfg);
    GraceAgreesIff(s, cfg, p, cur);
    if !NothingToResolve(s, cfg, p) {
      var missed, d := Pending(s, cfg, p), Later(s.settledThrough, PrevPeriod(p, cfg));
      var r := Charge(s, cfg.freezes.autoConsume, missed).state;
      ChargeShows(s, cfg, missed, p);
      EarnedPointer(r, cfg, p, d);
      EarnedLast(s, cfg, p);
      EarnedLast(r, cfg, p);
      EarnedSound(s, cfg, p);
      SettledSound(s, cfg, p);
      EarnedSound(Settled(s, cfg, p).state, cfg, p);
      SettledAfterEarning(Earned(s, cfg, p).state, cfg, cur);
      SettledAfterEarning(Earned(Settled(s, cfg, p).state, cfg, p).state, cfg, cur);
    }
  }

  lemma EarnedLast(s: State, cfg: Config, p: Date)
    requires ValidConfig(cfg) && Earns(s, cfg, p)
    ensures Earned(s, cfg, p).state.lastEarned == p
  {
    hide ScheduledOn, MilestoneEvents;
  }

  lemma PointerBehind(d: Date, p: Date, cfg: Config)
    requires Pointer(d, cfg) && Current(p, cfg) && d < p
    ensures d <= PrevPeriod(p, cfg)
  {
    hide Aligned, PrevPeriod, CalendarNext;
    CurrentFacts(p, cfg);
    if d != NO_DATE { NoKeyBetween(d, p, cfg); }
  }
}
