/** Period arithmetic (internal/core/period.go): keys, boundaries, stepping and counting. */
module Periods {
  import opened Calendar
  import opened Configs

  /** Nanoseconds since midnight UTC of day 0. */
  type Instant = int

  /** A zone: its offset from UTC in seconds, at each UTC second. */
  type Zone = int -> int

  const NANOS := 1_000_000_000
  const DAY_SECONDS := 86_400

  /** The wall clock of an instant, in whole seconds since wall midnight of day 0. */
  function WallSecond(t: Instant, zone: Zone): int {
    t / NANOS + zone(t / NANOS)
  }

  /** time.Date(..., loc): Go looks the offset up at the wall second itself, and again at the instant
      that offset gives, and keeps the second offset. */
  function AtWall(w: int, zone: Zone): Instant {
    NANOS * (w - zone(w - zone(w)))
  }

  /** How far the wall clock at AtWall(w) is from w: 0 except near a transition of the zone. */
  function ResolutionError(w: int, zone: Zone): int {
    WallSecond(AtWall(w, zone), zone) - w
  }

  /** The period of a civil day: itself, the Monday of its ISO week, the first of its month. */
  function KeyOfDay(d: Date, cfg: Config): Date {
    match cfg.period
    case Day => d
    case Week => d - (ISOWeekday(d) - 1)
    case Month => MonthStart(MonthOf(d))
  }

  function PeriodKey(t: Instant, zone: Zone, cfg: Config): Date {
    KeyOfDay((WallSecond(t, zone) - 60 * cfg.boundaryOffsetMin) / DAY_SECONDS, cfg)
  }

  /** The calendar period after p, rest days included. */
  function CalendarNext(p: Date, cfg: Config): Date {
    match cfg.period
    case Day => p + 1
    case Week => p + 7
    case Month => AddMonths(p, 1)
  }

  /** prevPeriod / prevCalendarPeriod: the calendar period before p, rest days included. */
  function PrevPeriod(p: Date, cfg: Config): Date {
    match cfg.period
    case Day => p - 1
    case Week => p - 7
    case Month => AddMonths(p, -1)
  }

  /** The instant at which period p closes. */
  function PeriodEnd(p: Date, zone: Zone, cfg: Config): Instant {
    AtWall(DAY_SECONDS * CalendarNext(p, cfg) + 60 * cfg.boundaryOffsetMin, zone)
  }

  /** Noon after the boundary of the first day of p: the wall second Replay stands for p with. */
  function NoonOf(p: Date, cfg: Config): int {
    DAY_SECONDS * p + DAY_SECONDS / 2 + 60 * cfg.boundaryOffsetMin
  }

  function PeriodRepresentative(p: Date, zone: Zone, cfg: Config): Instant {
    AtWall(NoonOf(p, cfg), zone)
  }

  /** p is a period key of this cadence. */
  predicate Aligned(p: Date, cfg: Config) {
    KeyOfDay(p, cfg) == p
  }

  /** p is a period key of a clock that reads year 0 or later, so that p and the period before it
      both come after the zero date. */
  predicate Current(p: Date, cfg: Config) {
    Aligned(p, cfg) && p >= 32
  }

  /** p is a period somebody can earn. */
  predicate Active(p: Date, cfg: Config)
    requires ValidConfig(cfg)
  {
    Aligned(p, cfg) && ScheduledOn(p, cfg)
  }

  /** The first scheduled day at or after d, looking k days ahead. */
  function FirstScheduled(d: Date, cfg: Config, k: nat): Date
    requires ValidConfig(cfg)
    decreases k
  {
    if k == 0 || ScheduledOn(d, cfg) then d else FirstScheduled(d + 1, cfg, k - 1)
  }

  /** The first active period strictly after p. */
  function Next(p: Date, cfg: Config): Date
    requires ValidConfig(cfg)
  {
    match cfg.period
    case Day => FirstScheduled(p + 1, cfg, 6)
    case Week => p + 7
    case Month => AddMonths(p, 1)
  }

  lemma KeyContains(d: Date, cfg: Config)
    ensures Aligned(KeyOfDay(d, cfg), cfg)
    ensures KeyOfDay(d, cfg) <= d < CalendarNext(KeyOfDay(d, cfg), cfg)
  {
    hide MonthOf, MonthStart, AddMonths;
    if cfg.period.Month? {
      var k := MonthOf(d);
      MonthContains(d);
      MonthLength(k);
      MonthOfUnique(MonthStart(k), k);
      AddMonthsFromFirst(MonthStart(k), 1);
    }
  }

  /** A day's key is the day itself, the Monday of its week, the first of its month. */
  lemma KeyIsFirstDay(d: Date, cfg: Config)
    ensures match cfg.period
            case Day => KeyOfDay(d, cfg) == d
            case Week => ISOWeekday(KeyOfDay(d, cfg)) == 1 && d - 7 < KeyOfDay(d, cfg) <= d
            case Month => CivilOf(KeyOfDay(d, cfg)) == CivilOf(d).(d := 1)
  {
    hide MonthOf, MonthStart, MonthDays;
    if cfg.period.Month? {
      var k := MonthOf(d);
      MonthLength(k);
      MonthOfUnique(MonthStart(k), k);
    }
  }

  /** Calendar stepping from a period key: neighbours are keys, inverse to each other, and no key lies between. */
  lemma CalendarSteps(p: Date, cfg: Config)
    requires Aligned(p, cfg)
    ensures Aligned(CalendarNext(p, cfg), cfg) && Aligned(PrevPeriod(p, cfg), cfg)
    ensures p - 31 <= PrevPeriod(p, cfg) < p < CalendarNext(p, cfg) <= p + 31
    ensures CalendarNext(PrevPeriod(p, cfg), cfg) == p == PrevPeriod(CalendarNext(p, cfg), cfg)
  {
    hide MonthOf, MonthStart, AddMonths;
    if cfg.period.Month? {
      var k := MonthOf(p);
      MonthLength(k - 1);
      MonthLength(k);
      MonthLength(k + 1);
      AddMonthsFromFirst(p, 1);
      AddMonthsFromFirst(p, -1);
      MonthOfUnique(MonthStart(k - 1), k - 1);
      MonthOfUnique(MonthStart(k + 1), k + 1);
      AddMonthsFromFirst(MonthStart(k - 1), 1);
      AddMonthsFromFirst(MonthStart(k + 1), -1);
    }
  }

  /** A day is keyed after p exactly when it comes at or after the next calendar period. */
  lemma KeyAfter(d: Date, p: Date, cfg: Config)
    requires Aligned(p, cfg)
    ensures KeyOfDay(d, cfg) > p <==> d >= CalendarNext(p, cfg)
  {
    hide MonthOf, MonthStart, AddMonths;
    if cfg.period.Month? {
      var j, k := MonthOf(p), MonthOf(d);
      AddMonthsFromFirst(p, 1);
      MonthContains(d);
      if j < k {
        MonthsAscend(j, k);
        MonthsAscend(j + 1, k);
      } else {
        MonthsAscend(k, j);
        MonthsAscend(k + 1, j + 1);
      }
    }
  }

  /** No period key lies strictly between neighbours. */
  lemma NoKeyBetween(p: Date, q: Date, cfg: Config)
    requires Aligned(p, cfg) && Aligned(q, cfg)
    ensures p < q ==> CalendarNext(p, cfg) <= q && p <= PrevPeriod(q, cfg)
  {
    assert KeyOfDay(q, cfg) == q && KeyOfDay(p, cfg) == p;
    hide PrevPeriod, CalendarNext, KeyOfDay;
    CalendarSteps(q, cfg);
    KeyAfter(q, p, cfg);
    KeyAfter(p, PrevPeriod(q, cfg), cfg);
  }

  /** For every valid mask there is an active day among any seven in a row. */
  lemma SomeDayScheduled(d: Date, cfg: Config) returns (e: Date)
    requires ValidConfig(cfg)
    ensures d <= e < d + 7 && ScheduledOn(e, cfg)
  {
    if !cfg.period.Day? || cfg.weekdayMask == "" {
      return d;
    }
    var i :| 0 <= i < 7 && cfg.weekdayMask[i] == '1';
    e := d + (i - (ISOWeekday(d) - 1)) % 7;
    assert ISOWeekday(e) == i + 1;
  }

  lemma {:induction false} FirstScheduledLeast(d: Date, cfg: Config, k: nat)
    requires ValidConfig(cfg)
    requires exists e :: d <= e <= d + k && ScheduledOn(e, cfg)
    ensures d <= FirstScheduled(d, cfg, k) <= d + k && ScheduledOn(FirstScheduled(d, cfg, k), cfg)
    ensures forall q | d <= q < FirstScheduled(d, cfg, k) :: !ScheduledOn(q, cfg)
    decreases k
  {
    hide ScheduledOn;
    if k > 0 && !ScheduledOn(d, cfg) {
      FirstScheduledLeast(d + 1, cfg, k - 1);
    }
  }

  /** NextScheduled is the least active period after p, and for day streaks at most seven days on. */
  lemma NextIsLeast(p: Date, cfg: Config)
    requires ValidConfig(cfg) && Aligned(p, cfg)
    ensures p < Next(p, cfg) && Active(Next(p, cfg), cfg)
    ensures cfg.period.Day? ==> Next(p, cfg) <= p + 7
    ensures forall q | p < q && Active(q, cfg) :: Next(p, cfg) <= q
  {
    hide MonthOf, MonthStart, AddMonths, ValidConfig;
    CalendarSteps(p, cfg);
    if cfg.period.Day? {
      var e := SomeDayScheduled(p + 1, cfg);
      FirstScheduledLeast(p + 1, cfg, 6);
    } else {
      forall q | p < q && Active(q, cfg) ensures Next(p, cfg) <= q {
        NoKeyBetween(p, q, cfg);
      }
    }
  }

  /** The unbounded day loop of NextScheduled stops, and finds what Next says. */
  method NextScheduled(p: Date, cfg: Config) returns (next: Date)
    requires ValidConfig(cfg)
    ensures next == Next(p, cfg)
  {
    match cfg.period
    case Week => return p + 7;
    case Month => return AddMonths(p, 1);
    case Day =>
      ghost var e := SomeDayScheduled(p + 1, cfg);
      FirstScheduledLeast(p + 1, cfg, 6);
      next := p + 1;
      while !ScheduledOn(next, cfg)
        invariant p < next <= Next(p, cfg)
        decreases Next(p, cfg) - next
      {
        next := next + 1;
      }
  }

  /** The active periods strictly between from and end, in order. */
  function ActiveBetween(from: Date, end: Date, cfg: Config): seq<Date>
    requires ValidConfig(cfg) && Aligned(from, cfg)
    decreases end - from
  {
    hide MonthOf, MonthStart, AddMonths;
    NextIsLeast(from, cfg);
    if Next(from, cfg) < end then [Next(from, cfg)] + ActiveBetween(Next(from, cfg), end, cfg) else []
  }

  ghost predicate Ascending(s: seq<Date>) {
    forall i, j | 0 <= i < j < |s| :: s[i] < s[j]
  }

  /** ActiveBetween lists each active period of the open interval once. */
  lemma {:induction false} ActiveBetweenExact(from: Date, end: Date, cfg: Config)
    requires ValidConfig(cfg) && Aligned(from, cfg)
    ensures Ascending(ActiveBetween(from, end, cfg))
    ensures forall p :: p in ActiveBetween(from, end, cfg) <==> from < p < end && Active(p, cfg)
    decreases end - from
  {
    hide Next, Aligned, ScheduledOn, ValidConfig;
    NextIsLeast(from, cfg);
    var n := Next(from, cfg);
    if n < end {
      ActiveBetweenExact(n, end, cfg);
      var rest := ActiveBetween(n, end, cfg);
      assert forall j | 0 <= j < |rest| :: rest[j] in rest;
    }
  }

  function Min(a: int, b: int): int {
    if a <= b then a else b
  }

  function Max(a: int, b: int): int {
    if a <= b then b else a
  }

  /** How many active periods lie strictly between from and end; no need to count past limit. */
  function Missed(from: Date, end: Date, cfg: Config, limit: int): nat
    requires ValidConfig(cfg) && Aligned(from, cfg)
  {
    if from == NO_DATE then 0 else Min(Max(limit, 1), |ActiveBetween(from, end, cfg)|)
  }

  /** The counting loop stops at the limit with the number of missed periods. */
  method MissedBetween(from: Date, end: Date, cfg: Config, limit: int) returns (n: nat)
    requires ValidConfig(cfg) && Aligned(from, cfg)
    ensures n == Missed(from, end, cfg, limit)
  {
    hide Next, Aligned, ScheduledOn, ValidConfig;
    NextIsLeast(from, cfg);
    if from == NO_DATE || from >= end {
      return 0;
    }
    n := 0;
    var p := NextScheduled(from, cfg);
    ghost var last := from;
    while p < end
      invariant Aligned(last, cfg) && p == Next(last, cfg) && last < p
      invariant n + |ActiveBetween(last, end, cfg)| == |ActiveBetween(from, end, cfg)|
      invariant n == 0 || n < limit
      decreases end - last
    {
      n := n + 1;
      NextIsLeast(last, cfg);
      last := p;
      NextIsLeast(last, cfg);
      if n >= limit {
        return;
      }
      p := NextScheduled(p, cfg);
    }
  }

  /** Splitting an interval at a period: what comes before it, then what comes from it on. */
  lemma {:induction false} ActiveBetweenSplit(from: Date, mid: Date, end: Date, cfg: Config)
    requires ValidConfig(cfg) && Aligned(from, cfg) && Aligned(mid, cfg) && mid <= end
    ensures Aligned(Later(from, PrevPeriod(mid, cfg)), cfg)
    ensures ActiveBetween(from, end, cfg)
         == ActiveBetween(from, mid, cfg) + ActiveBetween(Later(from, PrevPeriod(mid, cfg)), end, cfg)
    decreases mid - from
  {
    hide Next, Aligned, ScheduledOn, ValidConfig, PrevPeriod, CalendarNext;
    CalendarSteps(mid, cfg);
    NextIsLeast(from, cfg);
    var n := Next(from, cfg);
    if n < mid {
      NoKeyBetween(n, mid, cfg);
      ActiveBetweenSplit(n, mid, end, cfg);
    } else {
      NextAfterGap(from, Later(from, PrevPeriod(mid, cfg)), cfg);
    }
  }

  /** Moving the starting point inside a gap does not change what comes next. */
  lemma NextAfterGap(a: Date, b: Date, cfg: Config)
    requires ValidConfig(cfg) && Aligned(a, cfg) && Aligned(b, cfg) && a <= b < Next(a, cfg)
    ensures Next(b, cfg) == Next(a, cfg)
  {
    hide Next, Aligned, ScheduledOn, ValidConfig;
    NextIsLeast(a, cfg);
    NextIsLeast(b, cfg);
  }
}
