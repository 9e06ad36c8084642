/** Concurrent Record calls as transactions: take the streak's row lock, look the idempotency key up, write and
    commit, or abort (internal/engine/record.go, internal/engine/engine.go, internal/store/store.go).

    Steps of different requests interleave arbitrarily.  A transaction works on the row it read under its lock
    and its writes become visible at commit; the primary key of the idempotency table rejects a second row. */
module Concurrency {
  import opened Calendar
  import opened Configs
  import opened Periods
  import opened Transition
  import opened Rows
  import opened Sessions
  import opened Moves
  import opened Travel

  datatype Request = Request(
    streak: nat,
    key: Option<string>, // idempotency key
    zone: Zone,
    now: Instant,
    at: Instant,
    amount: int,
    db: Instant
  )

  datatype Phase =
    | Waiting
    | Locked(row: Row)                         // holds the row lock, has read the row
    | Looked(row: Row, memo: Option<View>)     // has looked the key up
    | Succeeded(view: View, replayed: bool)    // committed
    | Aborted                                  // failed and rolled back

  datatype System = System(
    rows: seq<Row>,            // committed streak rows
    memos: map<string, View>,  // committed idempotency rows
    phases: seq<Phase>,        // one per request
    commits: seq<nat>          // history: requests that wrote, in commit order
  )

  datatype Action = Acquire(i: nat) | Lookup(i: nat) | Finish(i: nat) | Crash(i: nat)

  predicate Holds(p: Phase) {
    p.Locked? || p.Looked?
  }

  /** Requests that start a transaction: Record rejects one from the future before that. */
  ghost predicate GoodRequests(reqs: seq<Request>, rows: seq<Row>) {
    forall i | 0 <= i < |reqs| ::
      reqs[i].streak < |rows| && reqs[i].at <= reqs[i].now + FUTURE_SLACK &&
      Clocked(reqs[i].now, reqs[i].zone, rows[reqs[i].streak].cfg) &&
      Clocked(reqs[i].at, reqs[i].zone, rows[reqs[i].streak].cfg)
  }

  /** What the request computes from the row it has locked. */
  ghost function Transact(row: Row, r: Request): Result
    requires Valid(row) && Clocked(r.now, r.zone, row.cfg) && Clocked(r.at, r.zone, row.cfg)
  {
    Recorded(row, r.now, r.at, r.amount, r.zone, r.db)
  }

  ghost predicate Enabled(sys: System, reqs: seq<Request>, a: Action) {
    && |sys.phases| == |reqs| && a.i < |reqs|
    && match a
       case Acquire(i) =>
         sys.phases[i].Waiting? &&
         (forall j | 0 <= j < |reqs| && reqs[j].streak == reqs[i].streak :: !Holds(sys.phases[j]))
       case Lookup(i) => sys.phases[i].Locked?
       case Finish(i) => sys.phases[i].Looked?
       case Crash(i) => Holds(sys.phases[i])
  }

  ghost function Do(sys: System, reqs: seq<Request>, a: Action): System
    requires Inv(sys, reqs) && Enabled(sys, reqs, a)
  {
    var r := reqs[a.i];
    match a
    case Acquire(i) => sys.(phases := sys.phases[i := Locked(sys.rows[r.streak])])
    case Lookup(i) =>
      var memo := if r.key.Some? && r.key.value in sys.memos then Some(sys.memos[r.key.value]) else None;
      sys.(phases := sys.phases[i := Looked(sys.phases[i].row, memo)])
    case Crash(i) => sys.(phases := sys.phases[i := Aborted])
    case Finish(i) =>
      var p := sys.phases[i];
      if p.memo.Some? then sys.(phases := sys.phases[i := Succeeded(p.memo.value, true)])
      else
        var o := Transact(p.row, r);
        if o.reply.Failed? || (r.key.Some? && r.key.value in sys.memos) then sys.(phases := sys.phases[i := Aborted])
        else
          System(sys.rows[r.streak := o.row],
                 if r.key.Some? then sys.memos[r.key.value := o.reply.view] else sys.memos,
                 sys.phases[i := Succeeded(o.reply.view, false)],
                 sys.commits + [i])
  }

  ghost predicate Inv(sys: System, reqs: seq<Request>) {
    && |sys.phases| == |reqs| && GoodRequests(reqs, sys.rows)
    && (forall k | 0 <= k < |sys.rows| :: Valid(sys.rows[k]))
    && LocksExclusive(sys, reqs) && HistoryMatches(sys, reqs) && MemosMatch(sys, reqs)
  }

  /** At most one transaction holds a streak's row, and the row it read is the committed one. */
  ghost predicate LocksExclusive(sys: System, reqs: seq<Request>)
    requires |sys.phases| == |reqs|
  {
    && (forall i, j | 0 <= i < |reqs| && 0 <= j < |reqs| && i != j && reqs[i].streak == reqs[j].streak ::
          !(Holds(sys.phases[i]) && Holds(sys.phases[j])))
    && (forall i | 0 <= i < |reqs| && Holds(sys.phases[i]) ::
          reqs[i].streak < |sys.rows| && sys.phases[i].row == sys.rows[reqs[i].streak])
  }

  /** The requests that wrote are those that succeeded without a replay, each once. */
  ghost predicate HistoryMatches(sys: System, reqs: seq<Request>)
    requires |sys.phases| == |reqs|
  {
    && (forall n | 0 <= n < |sys.commits| ::
          sys.commits[n] < |reqs| && sys.phases[sys.commits[n]].Succeeded? && !sys.phases[sys.commits[n]].replayed)
    && (forall m, n | 0 <= m < n < |sys.commits| :: sys.commits[m] != sys.commits[n])
    && (forall i | 0 <= i < |reqs| && sys.phases[i].Succeeded? && !sys.phases[i].replayed :: i in sys.commits)
  }

  /** Each memo belongs to exactly one committed request, and everyone who succeeded under a key got its view. */
  ghost predicate MemosMatch(sys: System, reqs: seq<Request>)
    requires |sys.phases| == |reqs|
  {
    && (forall i | 0 <= i < |reqs| && reqs[i].key.Some? && sys.phases[i].Succeeded? ::
          reqs[i].key.value in sys.memos && sys.phases[i].view == sys.memos[reqs[i].key.value])
    && (forall i | 0 <= i < |reqs| && reqs[i].key.None? && sys.phases[i].Succeeded? :: !sys.phases[i].replayed)
    && (forall i | 0 <= i < |reqs| && sys.phases[i].Looked? && sys.phases[i].memo.Some? ::
          reqs[i].key.Some? && reqs[i].key.value in sys.memos &&
          sys.phases[i].memo.value == sys.memos[reqs[i].key.value])
    && (forall i, j | 0 <= i < j < |reqs| && reqs[i].key.Some? && reqs[i].key == reqs[j].key ::
          !(Wrote(sys.phases[i]) && Wrote(sys.phases[j])))
  }

  predicate Wrote(p: Phase) {
    p.Succeeded? && !p.replayed
  }

  ghost predicate Initial(sys: System, reqs: seq<Request>) {
    && |sys.phases| == |reqs| && GoodRequests(reqs, sys.rows)
    && (forall k | 0 <= k < |sys.rows| :: Valid(sys.rows[k]))
    && (forall i | 0 <= i < |reqs| :: sys.phases[i].Waiting?)
    && sys.commits == []
  }

  lemma InitialInv(sys: System, reqs: seq<Request>)
    requires Initial(sys, reqs)
    ensures Inv(sys, reqs)
  {
    hide Valid, PeriodKey, Current;
  }

  lemma DoLocks(sys: System, reqs: seq<Request>, a: Action)
    requires Inv(sys, reqs) && Enabled(sys, reqs, a)
    ensures |Do(sys, reqs, a).phases| == |reqs| && LocksExclusive(Do(sys, reqs, a), reqs)
  {
    hide Valid, PeriodKey, Current, Transact, ValidConfig, HistoryMatches, MemosMatch;
  }

  lemma DoHistory(sys: System, reqs: seq<Request>, a: Action)
    requires Inv(sys, reqs) && Enabled(sys, reqs, a)
    ensures |Do(sys, reqs, a).phases| == |reqs| && HistoryMatches(Do(sys, reqs, a), reqs)
  {
    hide Valid, PeriodKey, Current, Transact, ValidConfig, LocksExclusive, MemosMatch, GoodRequests;
    var sys' := Do(sys, reqs, a);
    if sys'.commits != sys.commits {
      assert forall n | 0 <= n < |sys.commits| :: sys.commits[n] != a.i;
      forall i | 0 <= i < |reqs| && sys'.phases[i].Succeeded? && !sys'.phases[i].replayed
        ensures i in sys'.commits
      {
        if i != a.i { assert i in sys.commits; } else { assert sys'.commits[|sys.commits|] == i; }
      }
    }
  }

  /** Only the row of a new memo, or a memo that was there, is ever shown. */
  lemma DoMemosFinish(sys: System, reqs: seq<Request>, i: nat)
    requires Inv(sys, reqs) && Enabled(sys, reqs, Finish(i))
    ensures |Do(sys, reqs, Finish(i)).phases| == |reqs| && MemosMatch(Do(sys, reqs, Finish(i)), reqs)
  {
    hide Valid, Clocked, Transact, LocksExclusive, HistoryMatches, GoodRequests;
    var sys' := Do(sys, reqs, Finish(i));
    assert forall j | 0 <= j < |reqs| && j != i :: sys'.phases[j] == sys.phases[j];
    assert forall k | k in sys.memos :: k in sys'.memos && sys'.memos[k] == sys.memos[k];
  }

  lemma DoMemos(sys: System, reqs: seq<Request>, a: Action)
    requires Inv(sys, reqs) && Enabled(sys, reqs, a)
    ensures |Do(sys, reqs, a).phases| == |reqs| && MemosMatch(Do(sys, reqs, a), reqs)
  {
    hide Valid, Clocked, Transact, LocksExclusive, HistoryMatches, GoodRequests;
    if a.Finish? {
      hide Inv, Enabled, Do, MemosMatch;
      DoMemosFinish(sys, reqs, a.i);
    } else {
      assert forall j | 0 <= j < |reqs| && j != a.i :: Do(sys, reqs, a).phases[j] == sys.phases[j];
    }
  }

  lemma DoRows(sys: System, reqs: seq<Request>, a: Action)
    requires Inv(sys, reqs) && Enabled(sys, reqs, a)
    ensures var rows := Do(sys, reqs, a).rows;
            |rows| == |sys.rows| && GoodRequests(reqs, rows) && forall k | 0 <= k < |rows| :: Valid(rows[k])
  {
    hide Valid, PeriodKey, Current, Recorded, ValidConfig, HistoryMatches, MemosMatch;
    if a.Finish? {
      var p, r := sys.phases[a.i], reqs[a.i];
      RecordedValid(p.row, r.now, r.at, r.amount, r.zone, r.db);
      RecordedConfig(p.row, r);
    }
  }

  /** Every step of every transaction keeps the invariant. */
  lemma DoInv(sys: System, reqs: seq<Request>, a: Action)
    requires Inv(sys, reqs) && Enabled(sys, reqs, a)
    ensures Inv(Do(sys, reqs, a), reqs)
  {
    hide Do, Enabled, LocksExclusive, HistoryMatches, MemosMatch, GoodRequests, Valid;
    DoLocks(sys, reqs, a);
    DoHistory(sys, reqs, a);
    DoMemos(sys, reqs, a);
    DoRows(sys, reqs, a);
  }

  lemma RecordedConfig(row: Row, r: Request)
    requires Valid(row) && Clocked(r.now, r.zone, row.cfg) && Clocked(r.at, r.zone, row.cfg)
    ensures Transact(row, r).row.cfg == row.cfg
  {
    hide PeriodKey, Current, ValidConfig, Advance, ViewOf, CountKind;
  }

  // ---------------------------------------------------------------- executions

  ghost predicate CanExecute(sys: System, reqs: seq<Request>, actions: seq<Action>)
    decreases |actions|
  {
    Inv(sys, reqs) &&
    (actions == [] || (Enabled(sys, reqs, actions[0]) && CanExecute(Do(sys, reqs, actions[0]), reqs, actions[1..])))
  }

  ghost function Execute(sys: System, reqs: seq<Request>, actions: seq<Action>): System
    requires CanExecute(sys, reqs, actions)
    decreases |actions|
  {
    if actions == [] then sys else Execute(Do(sys, reqs, actions[0]), reqs, actions[1..])
  }

  ghost predicate GoodStart(rows: seq<Row>, reqs: seq<Request>) {
    GoodRequests(reqs, rows) && forall k | 0 <= k < |rows| :: Valid(rows[k])
  }

  ghost predicate InRange(commits: seq<nat>, reqs: seq<Request>) {
    forall n | 0 <= n < |commits| :: commits[n] < |reqs|
  }

  /** Run the committed requests one after the other. */
  ghost function Serial(rows: seq<Row>, reqs: seq<Request>, commits: seq<nat>): (rows': seq<Row>)
    requires GoodStart(rows, reqs) && InRange(commits, reqs)
    ensures GoodStart(rows', reqs) && |rows'| == |rows|
    decreases |commits|
  {
    hide Valid, PeriodKey, Current, Recorded, ValidConfig;
    if commits == [] then rows
    else
      var n := |commits| - 1;
      var before := Serial(rows, reqs, commits[..n]);
      var r := reqs[commits[n]];
      RecordedValid(before[r.streak], r.now, r.at, r.amount, r.zone, r.db);
      RecordedConfig(before[r.streak], r);
      before[r.streak := Transact(before[r.streak], r).row]
  }

  /** The reply the n-th committed request gets when the commits run one after the other. */
  ghost function SerialReply(rows: seq<Row>, reqs: seq<Request>, commits: seq<nat>, n: nat): Reply
    requires GoodStart(rows, reqs) && InRange(commits, reqs) && n < |commits|
  {
    hide Valid, PeriodKey, Current, Recorded, ValidConfig;
    var r := reqs[commits[n]];
    Transact(Serial(rows, reqs, commits[..n])[r.streak], r).reply
  }

  /** The system is where running its commits serially leads, and every writer got its serial reply. */
  ghost predicate Serialized(start: seq<Row>, sys: System, reqs: seq<Request>)
    requires GoodStart(start, reqs)
  {
    && |sys.phases| == |reqs| && InRange(sys.commits, reqs)
    && sys.rows == Serial(start, reqs, sys.commits)
    && forall n | 0 <= n < |sys.commits| ::
         sys.phases[sys.commits[n]].Succeeded? &&
         SerialReply(start, reqs, sys.commits, n) == Done(sys.phases[sys.commits[n]].view)
  }

  lemma SerialAppend(rows: seq<Row>, reqs: seq<Request>, commits: seq<nat>, i: nat)
    requires GoodStart(rows, reqs) && InRange(commits, reqs) && i < |reqs|
    ensures var before := Serial(rows, reqs, commits); var k := reqs[i].streak;
            && k < |before| && Valid(before[k])
            && Clocked(reqs[i].now, reqs[i].zone, before[k].cfg) && Clocked(reqs[i].at, reqs[i].zone, before[k].cfg)
            && Serial(rows, reqs, commits + [i]) == before[k := Transact(before[k], reqs[i]).row]
            && SerialReply(rows, reqs, commits + [i], |commits|) == Transact(before[k], reqs[i]).reply
  {
    hide Valid, Clocked, Transact;
    assert (commits + [i])[..|commits|] == commits;
  }

  lemma SerialReplyPrefix(rows: seq<Row>, reqs: seq<Request>, commits: seq<nat>, i: nat, n: nat)
    requires GoodStart(rows, reqs) && InRange(commits, reqs) && i < |reqs| && n < |commits|
    ensures SerialReply(rows, reqs, commits + [i], n) == SerialReply(rows, reqs, commits, n)
  {
    hide GoodStart, Serial, Transact;
    assert (commits + [i])[..n] == commits[..n];
  }

  lemma DoSerialized(start: seq<Row>, sys: System, reqs: seq<Request>, a: Action)
    requires Inv(sys, reqs) && Enabled(sys, reqs, a) && GoodStart(start, reqs) && Serialized(start, sys, reqs)
    ensures Serialized(start, Do(sys, reqs, a), reqs)
  {
    hide Valid, Clocked, Transact, MemosMatch, HistoryMatches, GoodStart, GoodRequests, Serial, SerialReply;
    var sys', m := Do(sys, reqs, a), |sys.commits|;
    if sys'.commits != sys.commits {
      SerialAppend(start, reqs, sys.commits, a.i);
      assert sys.phases[a.i].row == sys.rows[reqs[a.i].streak];
      forall n | 0 <= n < m
        ensures SerialReply(start, reqs, sys'.commits, n) == SerialReply(start, reqs, sys.commits, n)
      {
        SerialReplyPrefix(start, reqs, sys.commits, a.i, n);
      }
    }
  }

  /** In every interleaving the transactions are serialized in commit order. */
  lemma {:induction false} Serializable(start: seq<Row>, sys: System, reqs: seq<Request>, actions: seq<Action>)
    requires CanExecute(sys, reqs, actions) && GoodStart(start, reqs) && Serialized(start, sys, reqs)
    ensures Inv(Execute(sys, reqs, actions), reqs) && Serialized(start, Execute(sys, reqs, actions), reqs)
    decreases |actions|
  {
    hide Inv, Do, Enabled, Serialized, GoodStart;
    if actions != [] {
      DoInv(sys, reqs, actions[0]);
      DoSerialized(start, sys, reqs, actions[0]);
      Serializable(start, Do(sys, reqs, actions[0]), reqs, actions[1..]);
    }
  }

  /** What the commits add to period p of streak k. */
  ghost function Added(rows: seq<Row>, reqs: seq<Request>, commits: seq<nat>, k: nat, p: Date): int
    requires GoodStart(rows, reqs) && InRange(commits, reqs)
    decreases |commits|
  {
    if commits == [] then 0
    else
      var n := |commits| - 1;
      var r := reqs[commits[n]];
      Added(rows, reqs, commits[..n], k, p)
      + if r.streak == k && PeriodKey(r.at, r.zone, rows[k].cfg) == p then Max(r.amount, 1) else 0
  }

  ghost predicate AllReplied(rows: seq<Row>, reqs: seq<Request>, commits: seq<nat>)
    requires GoodStart(rows, reqs) && InRange(commits, reqs)
  {
    forall n | 0 <= n < |commits| :: SerialReply(rows, reqs, commits, n).Done?
  }

  lemma {:induction false} AmountsAdd(rows: seq<Row>, reqs: seq<Request>, commits: seq<nat>, k: nat, p: Date)
    requires GoodStart(rows, reqs) && InRange(commits, reqs) && AllReplied(rows, reqs, commits) && k < |rows|
    ensures Serial(rows, reqs, commits)[k].cfg == rows[k].cfg
    ensures Amount(Serial(rows, reqs, commits)[k].marks, p)
         == Amount(rows[k].marks, p) + Added(rows, reqs, commits, k, p)
    decreases |commits|
  {
    hide Valid, PeriodKey, Clocked, Transact, ValidConfig, GoodRequests;
    if commits != [] {
      var n := |commits| - 1;
      var init := commits[..n];
      forall m | 0 <= m < n ensures SerialReply(rows, reqs, init, m).Done? {
        assert init[..m] == commits[..m];
        assert SerialReply(rows, reqs, commits, m).Done?;
      }
      AmountsAdd(rows, reqs, init, k, p);
      var r := reqs[commits[n]];
      var before := Serial(rows, reqs, init);
      assert SerialReply(rows, reqs, commits, n).Done?;
      SerialAppend(rows, reqs, init, commits[n]);
      assert commits == init + [commits[n]];
      if r.streak == k {
        TransactAdds(before[k], r, p);
      }
    }
  }

  lemma TransactAdds(row: Row, r: Request, p: Date)
    requires Valid(row) && Clocked(r.now, r.zone, row.cfg) && Clocked(r.at, r.zone, row.cfg)
    requires Transact(row, r).reply.Done?
    ensures Transact(row, r).row.cfg == row.cfg
    ensures Amount(Transact(row, r).row.marks, p)
         == Amount(row.marks, p) + if PeriodKey(r.at, r.zone, row.cfg) == p then Max(r.amount, 1) else 0
  {
    hide PeriodKey, Current, ValidConfig, Advance, ViewOf, CountKind;
  }

  ghost predicate AllOnce(rows: seq<Row>) {
    forall k | 0 <= k < |rows| :: OnceEach(TrackOf(rows[k]))
  }

  lemma TransactOnce(row: Row, r: Request)
    requires Valid(row) && Clocked(r.now, r.zone, row.cfg) && Clocked(r.at, r.zone, row.cfg) && OnceEach(TrackOf(row))
    ensures OnceEach(TrackOf(Transact(row, r).row))
  {
    hide ValidConfig, PeriodKey, OnceEach, Make, MoveOk, Sound, Current, Recorded;
    var moves := RecordMoves(row, r.now, r.at, r.amount, r.zone, r.db);
    OnceEachMoves(TrackOf(row), row.cfg, moves);
  }

  lemma {:induction false} SerialOnce(rows: seq<Row>, reqs: seq<Request>, commits: seq<nat>)
    requires GoodStart(rows, reqs) && InRange(commits, reqs) && AllOnce(rows)
    ensures AllOnce(Serial(rows, reqs, commits))
    decreases |commits|
  {
    hide Valid, PeriodKey, Current, Transact, ValidConfig, OnceEach;
    if commits != [] {
      var n := |commits| - 1;
      SerialOnce(rows, reqs, commits[..n]);
      var r := reqs[commits[n]];
      TransactOnce(Serial(rows, reqs, commits[..n])[r.streak], r);
    }
  }

  /** In every interleaving of any requests, in any zones, with crashes anywhere:
      the committed rows are those of some serial order of the writers;
      of the requests that share an idempotency key at most one writes, and all that succeed return one view;
      the amount of every period of every streak grows by the amounts of the writers that fell into it;
      and no period of a streak has two extended events. */
  lemma ConcurrentRecords(sys: System, reqs: seq<Request>, actions: seq<Action>)
    requires Initial(sys, reqs) && CanExecute(sys, reqs, actions) && AllOnce(sys.rows)
    ensures var end := Execute(sys, reqs, actions);
            && |end.phases| == |reqs| && |end.rows| == |sys.rows|
            && GoodStart(sys.rows, reqs) && InRange(end.commits, reqs)
            && end.rows == Serial(sys.rows, reqs, end.commits)
            && (forall m, n | 0 <= m < n < |end.commits| :: end.commits[m] != end.commits[n])
            && (forall i, j | 0 <= i < j < |reqs| && reqs[i].key.Some? && reqs[i].key == reqs[j].key ::
                  && !(Wrote(end.phases[i]) && Wrote(end.phases[j]))
                  && (end.phases[i].Succeeded? && end.phases[j].Succeeded? ==>
                        end.phases[i].view == end.phases[j].view))
            && (forall k, p | 0 <= k < |sys.rows| ::
                  Amount(end.rows[k].marks, p)
                  == Amount(sys.rows[k].marks, p) + Added(sys.rows, reqs, end.commits, k, p))
            && (forall k | 0 <= k < |sys.rows| :: Ascending(PeriodsOf(end.rows[k].log, EARNING)))
  {
    hide Valid, PeriodKey, Current, Transact, ValidConfig, Do, Enabled, Execute, CanExecute, PeriodsOf, Serial;
    hide GoodRequests, LocksExclusive;
    InitialInv(sys, reqs);
    assert Serial(sys.rows, reqs, []) == sys.rows by { SerialStart(sys.rows, reqs); }
    Serializable(sys.rows, sys, reqs, actions);
    var end := Execute(sys, reqs, actions);
    forall k, p | 0 <= k < |sys.rows|
      ensures Amount(end.rows[k].marks, p) == Amount(sys.rows[k].marks, p) + Added(sys.rows, reqs, end.commits, k, p)
    {
      AmountsAdd(sys.rows, reqs, end.commits, k, p);
    }
    SerialOnce(sys.rows, reqs, end.commits);
  }

  lemma SerialStart(rows: seq<Row>, reqs: seq<Request>)
    requires GoodStart(rows, reqs)
    ensures Serial(rows, reqs, []) == rows
  {
  }
}
