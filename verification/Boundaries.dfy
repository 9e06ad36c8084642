/** Where periods begin and end on the clock: PeriodKey and PeriodEnd fit together, and the noon that
    Replay stands a period for lies inside it (internal/core/period.go). */
module Boundaries {
  import opened Calendar
  import opened Configs
  import opened Periods

  ghost predicate FixedZone(zone: Zone) {
    forall u :: zone(u) == zone(0)
  }

  /** The offsets of a zone stay within a band of less than 12 hours. */
  ghost predicate NarrowZone(zone: Zone) {
    forall u, v :: zone(u) - zone(v) < DAY_SECONDS / 2
  }

  /** What the boundary offset means: an activity at second x of civil day d counts for that day, or for the day
      before while the clock has not reached a positive offset, or for the day after once it has reached a negative
      one counted back from midnight. */
  lemma BoundaryMeaning(t: Instant, d: Date, x: int, zone: Zone, cfg: Config)
    requires ValidConfig(cfg) && 0 <= x < 24 * 60 * 60 && WallSecond(t, zone) == 24 * 60 * 60 * d + x
    ensures PeriodKey(t, zone, cfg) == KeyOfDay(if x < 60 * cfg.boundaryOffsetMin then d - 1
                                                else if x >= 24 * 60 * 60 + 60 * cfg.boundaryOffsetMin then d + 1
                                                else d, cfg)
  {
    hide KeyOfDay;
  }

  /** The wall clock is UTC shifted by the zone's offset at that second. */
  lemma WallClock(second: int, zone: Zone)
    ensures WallSecond(1_000_000_000 * second, zone) == second + zone(second)
    ensures WallSecond(1_000_000_000 * second + 999_999_999, zone) == second + zone(second)
  {
  }

  /** The two lookups land on the wall-clock time they are asked for, on either side of a change of offset, for
      every time that the change neither skips nor repeats. */
  lemma WallTimeResolved(zone: Zone, change: int, before: int, after: int, w: int)
    requires forall u :: zone(u) == if u < change then before else after
    requires w < change + Min(before, after) || w >= change + Max(before, after)
    ensures WallSecond(AtWall(w, zone), zone) == w
    ensures AtWall(w, zone) == 1_000_000_000 * (w - if w < change + Min(before, after) then before else after)
  {
    assert AtWall(w, zone) / NANOS == w - zone(w - zone(w));
  }

  /** A period key never exceeds p before p's end, and always does from its end on. */
  lemma BoundaryAdjoint(t: Instant, p: Date, zone: Zone, cfg: Config)
    requires FixedZone(zone) && Aligned(p, cfg)
    ensures PeriodKey(t, zone, cfg) > p <==> t >= PeriodEnd(p, zone, cfg)
  {
    hide KeyOfDay, CalendarNext;
    var w := WallSecond(t, zone) - 60 * cfg.boundaryOffsetMin;
    var n := CalendarNext(p, cfg);
    KeyAfter(w / DAY_SECONDS, p, cfg);
    assert zone(t / NANOS) == zone(0);
    assert AtWall(DAY_SECONDS * n + 60 * cfg.boundaryOffsetMin, zone)
        == NANOS * (DAY_SECONDS * n + 60 * cfg.boundaryOffsetMin - zone(0));
    assert w / DAY_SECONDS >= n <==> w >= DAY_SECONDS * n;
  }

  /** So in a fixed zone an instant belongs to p exactly from the end of the period before p to the end of p. */
  lemma PeriodIsInterval(t: Instant, p: Date, zone: Zone, cfg: Config)
    requires FixedZone(zone) && Aligned(p, cfg)
    ensures PeriodKey(t, zone, cfg) == p <==>
            PeriodEnd(PrevPeriod(p, cfg), zone, cfg) <= t < PeriodEnd(p, zone, cfg)
  {
    hide KeyOfDay, CalendarNext, PrevPeriod, Aligned, PeriodEnd;
    CalendarSteps(p, cfg);
    PeriodKeyAligned(t, zone, cfg);
    BoundaryAdjoint(t, p, zone, cfg);
    BoundaryAdjoint(t, PrevPeriod(p, cfg), zone, cfg);
    NoKeyBetween(PrevPeriod(p, cfg), PeriodKey(t, zone, cfg), cfg);
  }

  lemma PeriodKeyAligned(t: Instant, zone: Zone, cfg: Config)
    ensures Aligned(PeriodKey(t, zone, cfg), cfg)
  {
    hide KeyOfDay;
    KeyContains((WallSecond(t, zone) - 60 * cfg.boundaryOffsetMin) / DAY_SECONDS, cfg);
    assert Aligned(PeriodKey(t, zone, cfg), cfg);
  }

  /** In a fixed zone keys follow the clock. */
  lemma KeysFollowTime(t: Instant, u: Instant, zone: Zone, cfg: Config)
    requires FixedZone(zone) && t <= u
    ensures PeriodKey(t, zone, cfg) <= PeriodKey(u, zone, cfg)
  {
    hide PeriodKey, KeyOfDay, CalendarNext, PeriodEnd, Aligned;
    var p := PeriodKey(u, zone, cfg);
    PeriodKeyAligned(u, zone, cfg);
    BoundaryAdjoint(t, p, zone, cfg);
    BoundaryAdjoint(u, p, zone, cfg);
  }

  /** In a zone of narrow offsets half a day crosses one boundary at most. */
  lemma HalfDayIsAdjacent(t: Instant, u: Instant, zone: Zone, cfg: Config)
    requires NarrowZone(zone) && u - t <= NANOS * (DAY_SECONDS / 2)
    requires PeriodKey(t, zone, cfg) < PeriodKey(u, zone, cfg)
    ensures PrevPeriod(PeriodKey(u, zone, cfg), cfg) == PeriodKey(t, zone, cfg)
  {
    hide KeyOfDay, CalendarNext, PrevPeriod, Aligned;
    var m := 60 * cfg.boundaryOffsetMin;
    var d, e := (WallSecond(t, zone) - m) / DAY_SECONDS, (WallSecond(u, zone) - m) / DAY_SECONDS;
    assert zone(u / NANOS) - zone(t / NANOS) < DAY_SECONDS / 2;
    assert e <= d + 1;
    KeyContains(d, cfg);
    KeyContains(e, cfg);
    NoKeyBetween(KeyOfDay(d, cfg), KeyOfDay(e, cfg), cfg);
    CalendarSteps(KeyOfDay(d, cfg), cfg);
  }

  /** The representative of p keys back to p exactly when the wall clock it lands on is still inside p. */
  lemma RepresentativeExact(p: Date, zone: Zone, cfg: Config)
    requires Aligned(p, cfg)
    ensures var e := ResolutionError(NoonOf(p, cfg), zone);
            PeriodKey(PeriodRepresentative(p, zone, cfg), zone, cfg) == p <==>
            -DAY_SECONDS / 2 <= e < DAY_SECONDS * (CalendarNext(p, cfg) - p) - DAY_SECONDS / 2
  {
    hide KeyOfDay, CalendarNext, Aligned, PrevPeriod;
    var e := ResolutionError(NoonOf(p, cfg), zone);
    var d := (DAY_SECONDS * p + DAY_SECONDS / 2 + e) / DAY_SECONDS;
    assert PeriodKey(PeriodRepresentative(p, zone, cfg), zone, cfg) == KeyOfDay(d, cfg);
    CalendarSteps(p, cfg);
    KeyAfter(d, p, cfg);
    KeyAfter(d, PrevPeriod(p, cfg), cfg);
    KeyContains(d, cfg);
    NoKeyBetween(PrevPeriod(p, cfg), KeyOfDay(d, cfg), cfg);
  }

  /** Replay may therefore use representatives in every zone whose offsets vary by less than 12 hours. */
  lemma RepresentativeInNarrowZone(p: Date, zone: Zone, cfg: Config)
    requires NarrowZone(zone) && Aligned(p, cfg)
    ensures PeriodKey(PeriodRepresentative(p, zone, cfg), zone, cfg) == p
  {
    hide KeyOfDay, CalendarNext, Aligned;
    RepresentativeExact(p, zone, cfg);
    CalendarSteps(p, cfg);
    var w := NoonOf(p, cfg);
    var r := w - zone(w - zone(w));
    assert AtWall(w, zone) / NANOS == r;
    assert ResolutionError(w, zone) == zone(r) - zone(w - zone(w));
  }

  /** The representatives of all periods from `first` on key back to them. */
  ghost predicate Recovering(zone: Zone, cfg: Config, first: Date) {
    forall p | p >= first && Current(p, cfg) :: PeriodKey(PeriodRepresentative(p, zone, cfg), zone, cfg) == p
  }

  lemma NarrowZoneRecovers(zone: Zone, cfg: Config, first: Date)
    requires NarrowZone(zone)
    ensures Recovering(zone, cfg, first)
  {
    hide PeriodKey, PeriodRepresentative, Aligned;
    forall p | p >= first && Current(p, cfg)
      ensures PeriodKey(PeriodRepresentative(p, zone, cfg), zone, cfg) == p
    {
      RepresentativeInNarrowZone(p, zone, cfg);
    }
  }

  /** The limit is real: in a zone that skips a civil day, as Samoa did, a day key is not recovered. */
  lemma RepresentativeLostOnSkippedDay()
    ensures exists p: Date, zone: Zone, cfg: Config ::
              ValidConfig(cfg) && Aligned(p, cfg) && PeriodKey(PeriodRepresentative(p, zone, cfg), zone, cfg) != p
  {
    var cfg := Config(Day, "", 0, 1, 0, FreezePolicy(0, 0, 0, false), [], None);
    var zone: Zone := u => if u < 1000 * DAY_SECONDS then 0 else DAY_SECONDS;
    RepresentativeExact(1000, zone, cfg);
    assert ResolutionError(NoonOf(1000, cfg), zone) == DAY_SECONDS;
    assert Aligned(1000, cfg) && PeriodKey(PeriodRepresentative(1000, zone, cfg), zone, cfg) != 1000;
  }
}
