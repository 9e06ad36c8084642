/** The from-scratch oracle (internal/core/replay.go) and what it means. */
module Replay {
  import opened Calendar
  import opened Configs
  import opened Periods
  import opened Boundaries
  import opened Transition
  import opened Downtime

  ghost predicate AllCurrent(keys: seq<Date>, cfg: Config) {
    forall i | 0 <= i < |keys| :: Current(keys[i], cfg)
  }

  lemma NewStateSound(cfg: Config)
    requires ValidConfig(cfg)
    ensures Sound(NewState(cfg), cfg)
  {
  }

  /** Settle to each period of the ledger in turn and earn it, from a new streak. */
  ghost function Fold(cfg: Config, keys: seq<Date>): (s: State)
    requires ValidConfig(cfg) && AllCurrent(keys, cfg)
    ensures Sound(s, cfg)
    decreases |keys|
  {
    hide Aligned, ValidConfig, Settled, Earned;
    NewStateSound(cfg);
    if keys == [] then NewState(cfg)
    else
      var n := |keys| - 1;
      var s := Fold(cfg, keys[..n]);
      SettledSound(s, cfg, keys[n]);
      EarnedSound(Settled(s, cfg, keys[n]).state, cfg, keys[n]);
      Earned(Settled(s, cfg, keys[n]).state, cfg, keys[n]).state
  }

  ghost function Replayed(cfg: Config, keys: seq<Date>, cur: Date): State
    requires ValidConfig(cfg) && AllCurrent(keys, cfg)
  {
    Settled(Fold(cfg, keys), cfg, cur).state
  }

  /** The periods that the representatives of a ledger are keyed to. */
  ghost function KeysOf(earned: seq<Date>, zone: Zone, cfg: Config): seq<Date> {
    seq(|earned|, i requires 0 <= i < |earned| => PeriodKey(PeriodRepresentative(earned[i], zone, cfg), zone, cfg))
  }

  /** When representatives key back, those are the ledger's own periods. */
  lemma KeysOfLedger(earned: seq<Date>, zone: Zone, cfg: Config, first: Date)
    requires Recovering(zone, cfg, first) && AllCurrent(earned, cfg)
    requires forall i | 0 <= i < |earned| :: earned[i] >= first
    ensures KeysOf(earned, zone, cfg) == earned
  {
    hide PeriodKey, PeriodRepresentative, Current;
  }

  method Replay(cfg: Config, earned: seq<Date>, now: Instant, zone: Zone) returns (s: State)
    requires ValidConfig(cfg) && AllCurrent(KeysOf(earned, zone, cfg), cfg)
    ensures s == Replayed(cfg, KeysOf(earned, zone, cfg), PeriodKey(now, zone, cfg))
  {
    hide PeriodKey, PeriodRepresentative, Aligned, ValidConfig, Settled, Earned;
    NewStateSound(cfg);
    ghost var keys := KeysOf(earned, zone, cfg);
    s := NewState(cfg);
    for i := 0 to |earned|
      invariant Sound(s, cfg) && s == Fold(cfg, keys[..i])
    {
      assert keys[..i + 1][..i] == keys[..i];
      var at := PeriodRepresentative(earned[i], zone, cfg);
      SettledSound(s, cfg, keys[i]);
      var settled, _ := Settle(s, cfg, at, zone);
      EarnedSound(settled, cfg, keys[i]);
      var applied, _, _ := Apply(settled, cfg, at, zone);
      s := applied;
    }
    assert keys[..|earned|] == keys;
    var final, _ := Settle(s, cfg, now, zone);
    s := final;
  }

  // ---------------------------------------------------------------- rest days do not matter

  ghost function ActiveOf(keys: seq<Date>, cfg: Config): (active: seq<Date>)
    requires ValidConfig(cfg) && AllCurrent(keys, cfg)
    ensures AllCurrent(active, cfg)
    ensures forall p :: p in active <==> p in keys && ScheduledOn(p, cfg)
    decreases |keys|
  {
    hide Current, ScheduledOn, ValidConfig;
    if keys == [] then []
    else
      var n := |keys| - 1;
      assert keys == keys[..n] + [keys[n]];
      ActiveOf(keys[..n], cfg) + if ScheduledOn(keys[n], cfg) then [keys[n]] else []
  }

  lemma {:induction false} ActiveOfAscending(keys: seq<Date>, cfg: Config)
    requires ValidConfig(cfg) && AllCurrent(keys, cfg) && Ascending(keys)
    ensures Ascending(ActiveOf(keys, cfg))
    decreases |keys|
  {
    hide Current, ScheduledOn, ValidConfig;
    if keys != [] {
      var n := |keys| - 1;
      ActiveOfAscending(keys[..n], cfg);
      var init := ActiveOf(keys[..n], cfg);
      assert forall i | 0 <= i < |init| :: init[i] in init;
    }
  }

  /** Replaying a rest-day mark is settling at it, so it leaves no trace at any later period. */
  lemma RestDayNoTrace(s: State, cfg: Config, p: Date, cur: Date)
    requires ValidConfig(cfg) && Sound(s, cfg) && Current(p, cfg) && Current(cur, cfg) && p <= cur
    requires !ScheduledOn(p, cfg)
    ensures Sound(Settled(s, cfg, p).state, cfg)
    ensures Sound(Earned(Settled(s, cfg, p).state, cfg, p).state, cfg)
    ensures Settled(Earned(Settled(s, cfg, p).state, cfg, p).state, cfg, cur).state == Settled(s, cfg, cur).state
  {
    hide Current, ScheduledOn, ValidConfig, Settled;
    SettleTwice(s, cfg, p, cur);
  }

  /** A ledger with rest-day marks replays to the same state at any later period as its active periods alone. */
  lemma {:induction false} RestDaysIgnored(cfg: Config, keys: seq<Date>, cur: Date)
    requires ValidConfig(cfg) && AllCurrent(keys, cfg) && Current(cur, cfg) && Ascending(keys)
    requires keys != [] ==> keys[|keys| - 1] <= cur
    ensures Replayed(cfg, keys, cur) == Replayed(cfg, ActiveOf(keys, cfg), cur)
    decreases |keys|
  {
    hide Current, ScheduledOn, ValidConfig, Settled, Earned;
    if keys != [] {
      var n := |keys| - 1;
      var init, p := keys[..n], keys[n];
      if ScheduledOn(p, cfg) {
        var a := ActiveOf(init, cfg);
        RestDaysIgnored(cfg, init, p);
        assert (a + [p])[..|a|] == a;
      } else {
        RestDaysIgnored(cfg, init, cur);
        RestDayNoTrace(Fold(cfg, init), cfg, p, cur);
        assert ActiveOf(keys, cfg) == ActiveOf(init, cfg);
      }
    }
  }

  // ---------------------------------------------------------------- runs of adjacent periods

  /** The ledger entries lo..hi follow each other without skipping an active period. */
  ghost predicate IsChain(ledger: seq<Date>, cfg: Config, lo: int, hi: int)
    requires ValidConfig(cfg)
  {
    0 <= lo < hi <= |ledger| && forall i | lo < i < hi :: Next(ledger[i - 1], cfg) == ledger[i]
  }

  /** n is the length of the longest chain anywhere in the ledger. */
  ghost predicate LongestChain(ledger: seq<Date>, cfg: Config, n: int)
    requires ValidConfig(cfg)
  {
    && (forall lo, hi | IsChain(ledger, cfg, lo, hi) :: hi - lo <= n)
    && (if ledger == [] then n == 0 else exists lo, hi :: IsChain(ledger, cfg, lo, hi) && hi - lo == n)
  }

  /** n is the length of the longest chain that ends the ledger. */
  ghost predicate TrailingChain(ledger: seq<Date>, cfg: Config, n: int)
    requires ValidConfig(cfg)
  {
    && IsChain(ledger, cfg, |ledger| - n, |ledger|)
    && forall lo | IsChain(ledger, cfg, lo, |ledger|) :: |ledger| - lo <= n
  }

  ghost predicate FoldMeaning(s: State, ledger: seq<Date>, cfg: Config)
    requires ValidConfig(cfg)
  {
    if ledger == [] then s == NewState(cfg)
    else
      && s.lastEarned == ledger[|ledger| - 1] && s.settledThrough < s.lastEarned
      && TrailingChain(ledger, cfg, s.count) && LongestChain(ledger, cfg, s.longest)
  }

  lemma ChainPrefix(ledger: seq<Date>, cfg: Config, n: nat, lo: int, hi: int)
    requires ValidConfig(cfg) && hi <= n <= |ledger|
    ensures IsChain(ledger[..n], cfg, lo, hi) <==> IsChain(ledger, cfg, lo, hi)
  {
    hide Next, ValidConfig;
    assert forall i | 0 <= i < n :: ledger[..n][i] == ledger[i];
  }

  /** Extending a ledger by an adjacent period lengthens its trailing chain; any other period starts a new one. */
  lemma ChainStep(ledger: seq<Date>, cfg: Config, n: int, m: int)
    requires ValidConfig(cfg) && |ledger| > 1
    requires var init := ledger[..|ledger| - 1]; TrailingChain(init, cfg, n) && LongestChain(init, cfg, m)
    ensures var k := if Next(ledger[|ledger| - 2], cfg) == ledger[|ledger| - 1] then n + 1 else 1;
            TrailingChain(ledger, cfg, k) && LongestChain(ledger, cfg, Max(m, k))
  {
    hide Next, ValidConfig;
    var e := |ledger| - 1;
    var init := ledger[..e];
    var k := if Next(ledger[e - 1], cfg) == ledger[e] then n + 1 else 1;
    forall lo, hi | hi <= e ensures IsChain(init, cfg, lo, hi) <==> IsChain(ledger, cfg, lo, hi) {
      ChainPrefix(ledger, cfg, e, lo, hi);
    }
    assert IsChain(ledger, cfg, e - n, e);
    assert IsChain(ledger, cfg, e + 1 - k, e + 1);
    var end := |ledger|;
    forall lo | IsChain(ledger, cfg, lo, end) ensures end - lo <= k {
      if lo < e {
        assert Next(ledger[e - 1], cfg) == ledger[e];
        assert IsChain(init, cfg, lo, e);
      }
    }
    forall lo, hi | IsChain(ledger, cfg, lo, hi) ensures hi - lo <= Max(m, k) {
      if hi <= e { assert IsChain(init, cfg, lo, hi); }
    }
    var lo, hi :| IsChain(init, cfg, lo, hi) && hi - lo == m;
    assert IsChain(ledger, cfg, lo, hi);
  }

  lemma ChainStart(p: Date, cfg: Config)
    requires ValidConfig(cfg)
    ensures TrailingChain([p], cfg, 1) && LongestChain([p], cfg, 1)
  {
    assert IsChain([p], cfg, 0, 1);
  }

  /** Without freezes, settling a live state keeps the count iff no active period was skipped. */
  lemma SettleWithoutFreezes(s: State, cfg: Config, cur: Date)
    requires ValidConfig(cfg) && Sound(s, cfg) && Current(cur, cfg) && !cfg.freezes.autoConsume
    requires s.lastEarned != NO_DATE && s.settledThrough < s.lastEarned
    ensures var r := Settled(s, cfg, cur).state;
            && r.count == (if Next(s.lastEarned, cfg) < cur then 0 else s.count)
            && r.lastEarned == s.lastEarned && r.longest == s.longest
            && r.settledThrough == Later(s.settledThrough, PrevPeriod(cur, cfg))
  {
    hide Next, Aligned, ValidConfig, PrevPeriod;
  }

  lemma {:induction false} FoldMeans(cfg: Config, ledger: seq<Date>)
    requires ValidConfig(cfg) && !cfg.freezes.autoConsume
    requires AllCurrent(ledger, cfg) && Ascending(ledger) && forall p | p in ledger :: ScheduledOn(p, cfg)
    ensures FoldMeaning(Fold(cfg, ledger), ledger, cfg)
    decreases |ledger|
  {
    hide Next, Aligned, ScheduledOn, ValidConfig, PrevPeriod, TrailingChain, LongestChain, Settled;
    if ledger != [] {
      var n := |ledger| - 1;
      var init, p := ledger[..n], ledger[n];
      FoldMeans(cfg, init);
      var s := Fold(cfg, init);
      CurrentFacts(p, cfg);
      ChainStart(p, cfg);
      if init == [] {
        assert ledger == [p];
        assert Settled(s, cfg, p).state == s.(settledThrough := PrevPeriod(p, cfg)) by {
          assert s == NewState(cfg);
          SettleFresh(s, cfg, p);
        }
      } else {
        var q := ledger[n - 1];
        assert init[n - 1] == q && s.lastEarned == q;
        SettleWithoutFreezes(s, cfg, p);
        ChainStep(ledger, cfg, s.count, s.longest);
        NextIsLeast(q, cfg);
        assert Active(p, cfg);
      }
    }
  }

  lemma SettleFresh(s: State, cfg: Config, cur: Date)
    requires ValidConfig(cfg) && Sound(s, cfg) && s.lastEarned == NO_DATE
    ensures Settled(s, cfg, cur) == Outcome(s.(settledThrough := PrevPeriod(cur, cfg)), [])
  {
  }

  /** Replay without freezes, said outright.  Take the active periods of the ledger.  CurrentCount is the
      length of the longest chain of adjacent periods that ends the ledger, provided no active period lies
      between its end and the current one, and 0 otherwise; Longest is the longest chain anywhere. */
  lemma ReplayMeaning(cfg: Config, keys: seq<Date>, cur: Date)
    requires ValidConfig(cfg) && !cfg.freezes.autoConsume
    requires AllCurrent(keys, cfg) && Ascending(keys) && Current(cur, cfg)
    requires keys != [] ==> keys[|keys| - 1] <= cur
    ensures var s := Replayed(cfg, keys, cur); var ledger := ActiveOf(keys, cfg);
            && LongestChain(ledger, cfg, s.longest)
            && (if ledger == [] || exists p :: ledger[|ledger| - 1] < p < cur && Active(p, cfg) then s.count == 0
                else TrailingChain(ledger, cfg, s.count))
  {
    hide Next, Aligned, ScheduledOn, ValidConfig, PrevPeriod, TrailingChain, Settled;
    RestDaysIgnored(cfg, keys, cur);
    ActiveOfAscending(keys, cfg);
    var ledger := ActiveOf(keys, cfg);
    FoldMeans(cfg, ledger);
    var s := Fold(cfg, ledger);
    if ledger == [] {
      SettleFresh(s, cfg, cur);
    } else {
      SettleWithoutFreezes(s, cfg, cur);
      NextIsLeast(s.lastEarned, cfg);
    }
  }
}
