/** workflows/daily_summary.py: one summary row per UTC date, and when the scheduler
    fires. */
module DailySummary {
  import opened Common

  const SUMMARY := "daily_summary"

  /** A memory row as far as this check reads it. Rows are in order of their ids. */
  datatype Row = Row(category: string, date: nat)

  /** The summary row with the highest id. */
  function Latest(rows: seq<Row>): Option<Row> {
    if rows == [] then None
    else if rows[|rows| - 1].category == SUMMARY then Some(rows[|rows| - 1])
    else Latest(rows[..|rows| - 1])
  }

  lemma {:induction false} LatestIsSummary(rows: seq<Row>)
    ensures Latest(rows).Some? ==> Latest(rows).value in rows && Latest(rows).value.category == SUMMARY
  {
    if rows != [] && rows[|rows| - 1].category != SUMMARY {
      LatestIsSummary(rows[..|rows| - 1]);
    }
  }

  /** What the table gets: a run of the summary on some date, or another writer's row. */
  datatype Op = Summarize(today: nat) | Other(row: Row)

  function Apply(rows: seq<Row>, op: Op): seq<Row> {
    match op
    case Summarize(d) => if Latest(rows) == Some(Row(SUMMARY, d)) then rows else rows + [Row(SUMMARY, d)]
    case Other(r) => rows + [r]
  }

  function Run(ops: seq<Op>): seq<Row> {
    if ops == [] then [] else Apply(Run(ops[..|ops| - 1]), ops[|ops| - 1])
  }

  ghost predicate WellFormed(ops: seq<Op>) {
    forall i | 0 <= i < |ops| && ops[i].Other? :: ops[i].row.category != SUMMARY
  }

  /** Some summary row of the date exists: what the check should ask. */
  ghost predicate Exists(rows: seq<Row>, d: nat) {
    exists i :: 0 <= i < |rows| && rows[i] == Row(SUMMARY, d)
  }

  ghost predicate OnePerDate(rows: seq<Row>) {
    forall i, j | 0 <= i < j < |rows| && rows[i].category == SUMMARY && rows[j].category == SUMMARY ::
      rows[i].date != rows[j].date
  }

  ghost predicate Returns(ops: seq<Op>, i: nat, j: nat, k: nat) {
    && i < j < k < |ops| && ops[i].Summarize? && ops[j].Summarize? && ops[k].Summarize?
    && ops[i].today == ops[k].today && ops[j].today != ops[i].today
  }

  /** No date comes back after another one: runs of one date are consecutive among
      the summary runs. A clock that never goes backwards gives this. */
  ghost predicate Contiguous(ops: seq<Op>) {
    forall i: nat, j: nat, k: nat | i < j < k < |ops| :: !Returns(ops, i, j, k)
  }

  ghost predicate ClockForward(ops: seq<Op>) {
    forall i, k | 0 <= i < k < |ops| && ops[i].Summarize? && ops[k].Summarize? :: ops[i].today <= ops[k].today
  }

  /** Date `d` was summarized by some op. */
  ghost predicate Ran(ops: seq<Op>, d: nat) {
    exists i :: 0 <= i < |ops| && ops[i] == Summarize(d)
  }

  /** Summary rows are exactly for the dates that ran, and the latest one is for the
      last run. */
  lemma {:induction false} RowsAreRuns(ops: seq<Op>)
    requires WellFormed(ops)
    ensures forall d :: Exists(Run(ops), d) <==> Ran(ops, d)
    ensures match Latest(Run(ops))
      case Some(r) => r.category == SUMMARY && Exists(Run(ops), r.date) && LastRun(ops) == Some(r.date)
      case None => LastRun(ops).None?
  {
    if ops != [] {
      var n := |ops| - 1;
      RowsAreRuns(ops[..n]);
      RowStep(Run(ops[..n]), ops[n]);
      RanStep(ops);
    }
  }

  function LastRun(ops: seq<Op>): Option<nat> {
    if ops == [] then None
    else if ops[|ops| - 1].Summarize? then Some(ops[|ops| - 1].today)
    else LastRun(ops[..|ops| - 1])
  }

  lemma RanStep(ops: seq<Op>)
    requires ops != []
    ensures forall d :: Ran(ops, d) <==> Ran(ops[..|ops| - 1], d) || ops[|ops| - 1] == Summarize(d)
  {
    forall d ensures Ran(ops, d) <==> Ran(ops[..|ops| - 1], d) || ops[|ops| - 1] == Summarize(d) {
      if Ran(ops[..|ops| - 1], d) {
        var i :| 0 <= i < |ops| - 1 && ops[..|ops| - 1][i] == Summarize(d);
        assert ops[i] == Summarize(d);
      }
      if Ran(ops, d) && ops[|ops| - 1] != Summarize(d) {
        var i :| 0 <= i < |ops| && ops[i] == Summarize(d);
        assert ops[..|ops| - 1][i] == Summarize(d);
      }
    }
  }

  lemma RowStep(rows: seq<Row>, op: Op)
    requires op.Other? ==> op.row.category != SUMMARY
    requires Latest(rows).Some? ==> Latest(rows).value.category == SUMMARY && Exists(rows, Latest(rows).value.date)
    ensures forall d :: Exists(Apply(rows, op), d) <==> Exists(rows, d) || op == Summarize(d)
    ensures Latest(Apply(rows, op)) == if op.Summarize? then Some(Row(SUMMARY, op.today)) else Latest(rows)
  {
    var rows' := Apply(rows, op);
    if rows' != rows {
      assert rows'[..|rows'| - 1] == rows;
    }
    forall d ensures Exists(rows', d) <==> Exists(rows, d) || op == Summarize(d) {
      if Exists(rows, d) {
        var i :| 0 <= i < |rows| && rows[i] == Row(SUMMARY, d);
        assert rows'[i] == Row(SUMMARY, d);
      }
      if op == Summarize(d) && rows' != rows {
        assert rows'[|rows|] == Row(SUMMARY, d);
      }
    }
  }

  /** Looking at the latest summary row only gives the same answer as looking at all
      of them, whenever the day asked about is not before the latest run's. */
  lemma LatestIsEnough(ops: seq<Op>, today: nat)
    requires WellFormed(ops) && ClockForward(ops + [Summarize(today)])
    ensures Latest(Run(ops)) == Some(Row(SUMMARY, today)) <==> Exists(Run(ops), today)
  {
    RowsAreRuns(ops);
    if Ran(ops, today) {
      var i :| 0 <= i < |ops| && ops[i] == Summarize(today);
      LastRunIsLast(ops, today, i);
    }
  }

  lemma {:induction false} LastRunIsLast(ops: seq<Op>, today: nat, i: nat)
    requires ClockForward(ops + [Summarize(today)]) && i < |ops| && ops[i] == Summarize(today)
    ensures LastRun(ops) == Some(today)
  {
    var n := |ops| - 1;
    var all := ops + [Summarize(today)];
    assert all[i] == ops[i] && all[n] == ops[n] && all[|ops|] == Summarize(today);
    if i < n {
      if !ops[n].Summarize? {
        var short := ops[..n] + [Summarize(today)];
        forall a, b | 0 <= a < b < |short| && short[a].Summarize? && short[b].Summarize?
          ensures short[a].today <= short[b].today
        {
          assert all[a] == short[a];
          assert b < n ==> all[b] == short[b];
        }
        LastRunIsLast(ops[..n], today, i);
      } else {
        assert all[i].today <= all[n].today <= all[|ops|].today;
      }
    }
  }

  // --------------------------------------------------------------------------
  // One row per date, exactly when dates do not come back
  // --------------------------------------------------------------------------

  lemma {:induction false} LastRunIndex(ops: seq<Op>) returns (m: nat)
    ensures LastRun(ops).Some? ==>
      && m < |ops| && ops[m] == Summarize(LastRun(ops).value)
      && forall x | m < x < |ops| :: !ops[x].Summarize?
    ensures LastRun(ops).None? ==> forall x | 0 <= x < |ops| :: !ops[x].Summarize?
  {
    m := 0;
    if ops != [] {
      m := LastRunIndex(ops[..|ops| - 1]);
      if ops[|ops| - 1].Summarize? {
        m := |ops| - 1;
      }
    }
  }

  lemma ContiguousPrefix(ops: seq<Op>, n: nat)
    requires n <= |ops| && Contiguous(ops)
    ensures Contiguous(ops[..n])
  {
    forall i: nat, j: nat, k: nat | i < j < k < n ensures !Returns(ops[..n], i, j, k) {
      assert !Returns(ops, i, j, k);
    }
  }

  lemma LastRunIsThisDate(ops: seq<Op>, n: nat)
    requires n + 1 == |ops| && Contiguous(ops) && ops[n].Summarize? && Ran(ops[..n], ops[n].today)
    ensures LastRun(ops[..n]) == Some(ops[n].today)
  {
    var short := ops[..n];
    var i :| 0 <= i < n && short[i] == Summarize(ops[n].today);
    var m := LastRunIndex(short);
    assert short[m] == ops[m] && short[i] == ops[i];
    assert !Returns(ops, i, m, n);
  }

  /** A run whose date was summarized before is skipped, if dates do not come back. */
  lemma NoSecondRow(ops: seq<Op>, n: nat)
    requires n + 1 == |ops| && WellFormed(ops) && Contiguous(ops) && ops[n].Summarize?
    requires Exists(Run(ops[..n]), ops[n].today)
    ensures Run(ops) == Run(ops[..n])
  {
    RowsAreRuns(ops[..n]);
    assert Ran(ops[..n], ops[n].today);
    LastRunIsThisDate(ops, n);
  }

  lemma {:induction false} ContiguousGivesOne(ops: seq<Op>)
    requires WellFormed(ops) && Contiguous(ops)
    ensures OnePerDate(Run(ops))
  {
    if ops != [] {
      var n := |ops| - 1;
      ContiguousPrefix(ops, n);
      ContiguousGivesOne(ops[..n]);
      if ops[n].Summarize? && Exists(Run(ops[..n]), ops[n].today) {
        NoSecondRow(ops, n);
      } else {
        hide Contiguous, Latest, Run;
        NewDateIsOne(Run(ops[..n]), ops[n]);
      }
    }
  }

  /** Another writer's row, or the first row of its date, makes no second one. */
  lemma NewDateIsOne(rows: seq<Row>, op: Op)
    requires OnePerDate(rows)
    requires if op.Other? then op.row.category != SUMMARY else !Exists(rows, op.today)
    ensures OnePerDate(Apply(rows, op))
  {
    forall i | 0 <= i < |rows| && rows[i].category == SUMMARY ensures Exists(rows, rows[i].date) {
      assert rows[i] == Row(SUMMARY, rows[i].date);
    }
  }

  /** A date that comes back after another one gets a second row. */
  lemma {:induction false} ReturnGivesTwo(ops: seq<Op>, i: nat, j: nat, k: nat)
    requires WellFormed(ops) && Returns(ops, i, j, k)
    ensures !OnePerDate(Run(ops))
  {
    var n := |ops| - 1;
    var short := ops[..n];
    if k < n {
      ReturnGivesTwo(short, i, j, k);
      Grows(Run(short), ops[n]);
    } else {
      var m := LastRunIndex(short);
      assert short[i] == ops[i] && short[j] == ops[j];
      if m > j && short[m].today == ops[i].today {
        ReturnGivesTwo(short, i, j, m);
        Grows(Run(short), ops[n]);
      } else {
        assert LastRun(short) != Some(ops[n].today);
        SecondRow(ops, i);
      }
    }
  }

  lemma Grows(rows: seq<Row>, op: Op)
    ensures !OnePerDate(rows) ==> !OnePerDate(Apply(rows, op))
  {
    var rows' := Apply(rows, op);
    assert forall i | 0 <= i < |rows| :: rows'[i] == rows[i];
  }

  lemma SecondRow(ops: seq<Op>, i: nat)
    requires WellFormed(ops) && i < |ops| - 1 && ops[i] == ops[|ops| - 1] && ops[i].Summarize?
    requires LastRun(ops[..|ops| - 1]) != Some(ops[i].today)
    ensures !OnePerDate(Run(ops))
  {
    var short := ops[..|ops| - 1];
    RowsAreRuns(short);
    assert short[i] == ops[i];
    assert Ran(short, ops[i].today);
    TwiceIsTwo(Run(short), ops[i].today);
  }

  lemma TwiceIsTwo(rows: seq<Row>, d: nat)
    requires Exists(rows, d)
    ensures !OnePerDate(rows + [Row(SUMMARY, d)])
  {
    var x :| 0 <= x < |rows| && rows[x] == Row(SUMMARY, d);
    var rows' := rows + [Row(SUMMARY, d)];
    assert rows'[x].date == rows'[|rows|].date;
  }

  /** At most one summary row per UTC date, if and only if no date comes back after
      another one: in particular for any mix of scheduled and manual runs that do not
      overlap, under a clock that never goes backwards. */
  lemma OneRowPerDate(ops: seq<Op>)
    requires WellFormed(ops)
    ensures OnePerDate(Run(ops)) <==> Contiguous(ops)
    ensures ClockForward(ops) ==> OnePerDate(Run(ops))
  {
    if Contiguous(ops) {
      ContiguousGivesOne(ops);
    } else {
      var i, j, k :| 0 <= i < j < k < |ops| && Returns(ops, i, j, k);
      ReturnGivesTwo(ops, i, j, k);
    }
    assert ClockForward(ops) ==> Contiguous(ops);
  }

  // --------------------------------------------------------------------------
  // The scheduler
  // --------------------------------------------------------------------------

  const DAY := 86_400_000_000   // microseconds
  const HOUR := 3_600_000_000

  /** Today at the target hour, or tomorrow if that is not after now. Times are
      microseconds since midnight UTC of some day. */
  function NextFire(now: nat, hour: nat): nat
    requires hour < 24
  {
    var fire := now / DAY * DAY + hour * HOUR;
    if fire <= now then fire + DAY else fire
  }

  /** The firing lies strictly after now, at most a day later, at the target hour, and
      is the first such moment. */
  lemma NextFireIsNext(now: nat, hour: nat)
    requires hour < 24
    ensures var fire := NextFire(now, hour);
      && now < fire <= now + DAY && fire % DAY == hour * HOUR
      && HOUR == 60 * 60 * 1_000_000 && DAY == 24 * HOUR
      && forall t | now < t < fire :: t % DAY != hour * HOUR
  {
    var d := now / DAY;
    var fire := NextFire(now, hour);
    assert now == d * DAY + now % DAY;
    OnTheDay(d, hour * HOUR);
    OnTheDay(d + 1, hour * HOUR);
    forall t | now < t < fire ensures t % DAY != hour * HOUR {
      assert t == t / DAY * DAY + t % DAY;
      assert d <= t / DAY <= d + 1;
    }
  }

  lemma OnTheDay(d: nat, offset: nat)
    requires offset < DAY
    ensures (d * DAY + offset) % DAY == offset && (d * DAY + offset) / DAY == d
  {
  }

  /** After the firing at `fire` the scheduler computes the next one from the wall
      clock, which the sleep does not promise to have reached `fire`. The next firing
      falls on the same date again if and only if the clock is then less than a day
      short of it; once it has been reached, the next is at least a day later. */
  lemma FiresOnDifferentDates(fire: nat, now: nat, hour: nat)
    requires hour < 24 && fire % DAY == hour * HOUR
    ensures NextFire(now, hour) / DAY == fire / DAY <==> now < fire <= now + DAY
    ensures fire <= now ==> NextFire(now, hour) >= fire + DAY
  {
    NextFireIsNext(now, hour);
    var next := NextFire(now, hour);
    assert fire == fire / DAY * DAY + hour * HOUR && next == next / DAY * DAY + hour * HOUR;
    if next / DAY == fire / DAY {
      assert next == fire;
    }
    if now < fire <= now + DAY {
      assert next <= fire;
    }
  }

  // --------------------------------------------------------------------------
  // The code
  // --------------------------------------------------------------------------

  class MemoryTable {
    var rows: seq<Row>

    constructor ()
      ensures rows == []
    {
      rows := [];
    }

    /** run_daily_summary on one date; the statistics and the text are left out.
        `between` is what others insert after the look and before the write. */
    method RunDailySummary(today: nat, between: seq<Row>) returns (skipped: bool)
      modifies this
      ensures skipped <==> Latest(old(rows)) == Some(Row(SUMMARY, today))
      ensures rows == if skipped then old(rows) else old(rows) + between + [Row(SUMMARY, today)]
      ensures between == [] ==> rows == Apply(old(rows), Summarize(today))
    {
      var existing := Latest(rows);
      if existing.Some? && existing.value.date == today {
        assert existing.value == Row(SUMMARY, today) by {
          LatestIsSummary(rows);
        }
        return true;
      }
      assert between == [] ==> rows + between == rows;
      rows := rows + between + [Row(SUMMARY, today)];
      skipped := false;
    }
  }
}
