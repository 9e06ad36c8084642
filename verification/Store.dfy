/** The rows of one streak as the store updates them in place (internal/store/store.go). */
module Store {
  import opened Calendar
  import opened Configs
  import opened Periods
  import opened Transition
  import opened Rows
  import opened Sessions

  class Streak {
    const cfg: Config
    var state: State
    var marks: map<Date, int>
    var log: seq<Event>
    var brokenAt: Instant
    var claims: set<Date>

    ghost function Snapshot(): Row
      reads this
    {
      Row(cfg, state, marks, log, brokenAt, claims)
    }

    constructor (cfg: Config)
      ensures Snapshot() == NewRow(cfg)
    {
      this.cfg := cfg;
      state := NewState(cfg);
      marks, log, brokenAt, claims := map[], [], 0, {};
    }

    /** Accumulate activity on the period's row; the amount does not depend on how it was split up. */
    method AddMark(p: Date, amount: int) returns (total: int)
      modifies this`marks
      ensures total == Amount(old(marks), p) + amount
      ensures marks == old(marks)[p := total]
    {
      if p in marks {
        total := marks[p] + amount;
      } else {
        total := amount;
      }
      marks := marks[p := total];
    }

    method GetMarkAmount(p: Date) returns (amount: int)
      ensures amount == Amount(marks, p)
    {
      amount := 0;
      if p in marks {
        amount := marks[p];
      }
    }

    method DeleteMark(p: Date) returns (found: bool)
      modifies this`marks
      ensures marks == old(marks) - {p} && (found <==> p in old(marks))
    {
      found := p in marks;
      marks := marks - {p};
    }

    /** Delete every row and reinsert it `days` days earlier. */
    method ShiftMarks(days: int)
      modifies this`marks
      ensures marks == Sessions.ShiftMarks(old(marks), days)
    {
      marks := Sessions.ShiftMarks(marks, days);
    }

    /** Insert the once-per-day claim; false means the day is claimed already. */
    method ClaimReminder(day: Date) returns (claimed: bool)
      modifies this`claims
      ensures claimed <==> day !in old(claims)
      ensures claims == old(claims) + {day}
    {
      claimed := day !in claims;
      claims := claims + {day};
    }

    /** Periods whose amount reached the threshold, in ascending order. */
    method SelectEarned(minAmount: int) returns (ledger: seq<Date>)
      ensures ledger == EarnedPeriods(marks, minAmount)
    {
      var rest := set p | p in marks && marks[p] >= minAmount;
      ghost var all := rest;
      ledger := [];
      while exists p :: p in rest
        invariant Ascending(ledger) && forall p :: p in all <==> p in ledger || p in rest
        invariant forall p, q | p in ledger && q in rest :: p < q
        decreases rest
      {
        assert exists p :: p in rest && forall q | q in rest :: p <= q by {
          var e := Earliest(rest);
        }
        var m :| m in rest && forall q | q in rest :: m <= q;
        assert forall i | 0 <= i < |ledger| :: ledger[i] in ledger;
        ledger := ledger + [m];
        rest := rest - {m};
      }
      LedgerUnique(ledger, EarnedPeriods(marks, minAmount));
    }

    /** Append the events to the outbox one by one; the database's clock stamps them. */
    method PersistEvents(events: seq<Event>, db: Instant)
      modifies this`log, this`brokenAt
      ensures log == old(log) + events
      ensures brokenAt == if CountKind(events, EventKind.Broken) > 0 then db else old(brokenAt)
    {
      for i := 0 to |events|
        invariant log == old(log) + events[..i]
        invariant brokenAt == if CountKind(events[..i], EventKind.Broken) > 0 then db else old(brokenAt)
      {
        assert events[..i + 1][..i] == events[..i];
        log := log + [events[i]];
        if events[i].kind.Broken? {
          brokenAt := db;
        }
      }
      assert events[..|events|] == events;
    }

    /** Search the outbox backwards for the newest broken or repaired event. */
    method FindLatestBreak() returns (lost: int)
      ensures lost == LatestBreak(log)
    {
      var i := |log|;
      assert log[..i] == log;
      while i > 0
        invariant 0 <= i <= |log|
        invariant LatestBreak(log[..i]) == LatestBreak(log)
      {
        assert log[..i][..i - 1] == log[..i - 1];
        i := i - 1;
        if log[i].kind.Broken? {
          return log[i].count;
        } else if log[i].kind.Repaired? {
          return 0;
        }
      }
      return 0;
    }

    /** A transaction that fails leaves every row as it found it. */
    method Rollback(row: Row)
      requires row.cfg == cfg
      modifies this
      ensures Snapshot() == row
    {
      state, marks, log, brokenAt, claims := row.state, row.marks, row.log, row.brokenAt, row.claims;
    }
  }

  lemma {:induction false} Earliest(dates: set<Date>) returns (m: Date)
    requires exists p :: p in dates
    ensures m in dates && forall p | p in dates :: m <= p
    decreases |dates|
  {
    var d :| d in dates;
    m := d;
    var rest := dates - {d};
    assert forall p | p in dates :: p == d || p in rest;
    if exists p :: p in rest {
      var k := Earliest(rest);
      m := Min(d, k);
    }
  }
}
