/** Daily summaries that overlap: the scheduler and a manual trigger each look in one
    transaction and write in a later one, with anything in between. */
module SummaryRuns {
  import opened Common
  import opened DailySummary

  /** A run that found no row of its date, and how many rows there were when it looked. */
  datatype Pending = Pending(date: nat, seen: nat)

  /** The table; for each row, as history, how many rows there were when the run that
      wrote it looked; and the runs between their look and their write. */
  datatype Table = Table(rows: seq<Row>, seen: seq<nat>, pending: map<nat, Pending>)

  const EMPTY := Table([], [], map[])

  datatype Move = Look(run: nat, today: nat) | Write(run: nat) | Insert(row: Row)

  predicate Enabled(t: Table, m: Move) {
    match m
    case Look(r, _) => r !in t.pending
    case Write(r) => r in t.pending
    case Insert(row) => row.category != SUMMARY
  }

  function After(t: Table, m: Move): Table
    requires Enabled(t, m)
  {
    match m
    case Look(r, d) =>
      if Latest(t.rows) == Some(Row(SUMMARY, d)) then t
      else t.(pending := t.pending[r := Pending(d, |t.rows|)])
    case Write(r) =>
      Table(t.rows + [Row(SUMMARY, t.pending[r].date)], t.seen + [t.pending[r].seen], t.pending - {r})
    case Insert(row) => t.(rows := t.rows + [row], seen := t.seen + [|t.rows|])
  }

  ghost predicate Possible(t: Table, ms: seq<Move>)
    decreases |ms|
  {
    ms == [] || (Enabled(t, ms[0]) && Possible(After(t, ms[0]), ms[1..]))
  }

  ghost function AfterAll(t: Table, ms: seq<Move>): Table
    requires Possible(t, ms)
    decreases |ms|
  {
    if ms == [] then t else AfterAll(After(t, ms[0]), ms[1..])
  }

  /** A run that looked at the first `n` rows and did not skip. */
  predicate Missed(rows: seq<Row>, n: nat, date: nat) {
    n <= |rows| && Latest(rows[..n]) != Some(Row(SUMMARY, date))
  }

  ghost predicate Inv(t: Table) {
    && |t.seen| == |t.rows|
    && (forall j | 0 <= j < |t.rows| :: t.seen[j] <= j)
    && (forall j | 0 <= j < |t.rows| && t.rows[j].category == SUMMARY :: Missed(t.rows, t.seen[j], t.rows[j].date))
    && (forall r | r in t.pending :: t.pending[r].seen <= |t.rows| && Missed(t.rows, t.pending[r].seen, t.pending[r].date))
  }

  lemma MissedStays(rows: seq<Row>, row: Row, n: nat, date: nat)
    requires Missed(rows, n, date)
    ensures Missed(rows + [row], n, date)
  {
    assert (rows + [row])[..n] == rows[..n];
  }

  lemma AfterKeepsInv(t: Table, m: Move)
    requires Inv(t) && Enabled(t, m)
    ensures Inv(After(t, m))
  {
    hide Missed;
    var t' := After(t, m);
    if m.Look? {
      assert Missed(t.rows, |t.rows|, m.today) <== t' != t by {
        LookMisses(t.rows, m.today);
      }
    } else {
      var row := t'.rows[|t.rows|];
      forall j | 0 <= j < |t.rows| && t.rows[j].category == SUMMARY ensures Missed(t'.rows, t.seen[j], t.rows[j].date) {
        MissedStays(t.rows, row, t.seen[j], t.rows[j].date);
      }
      forall r | r in t.pending ensures Missed(t'.rows, t.pending[r].seen, t.pending[r].date) {
        MissedStays(t.rows, row, t.pending[r].seen, t.pending[r].date);
      }
      assert m.Write? ==> Missed(t'.rows, t'.seen[|t.rows|], row.date);
      forall j | 0 <= j < |t'.rows| && t'.rows[j].category == SUMMARY
        ensures Missed(t'.rows, t'.seen[j], t'.rows[j].date)
      {
        assert j < |t.rows| ==> t'.rows[j] == t.rows[j] && t'.seen[j] == t.seen[j];
      }
    }
  }

  lemma LookMisses(rows: seq<Row>, date: nat)
    ensures Missed(rows, |rows|, date) <==> Latest(rows) != Some(Row(SUMMARY, date))
  {
    assert rows[..|rows|] == rows;
  }

  lemma {:induction false} AfterAllKeepsInv(t: Table, ms: seq<Move>)
    requires Inv(t) && Possible(t, ms)
    ensures Inv(AfterAll(t, ms))
    decreases |ms|
  {
    if ms != [] {
      AfterKeepsInv(t, ms[0]);
      AfterAllKeepsInv(After(t, ms[0]), ms[1..]);
    }
  }

  // --------------------------------------------------------------------------
  // When a date gets a second row
  // --------------------------------------------------------------------------

  /** The run behind row `j` was overtaken: row `i`, of the same date, was written
      between its look and its write. */
  predicate Overtaken(t: Table, i: nat, j: nat) {
    i < j < |t.rows| && |t.seen| == |t.rows| && t.rows[j].category == SUMMARY
    && t.seen[j] <= i && t.rows[i] == t.rows[j]
  }

  /** The run behind row `j` looked after row `i` of its date, but saw the later row
      `m` of another date as the newest summary. */
  predicate Misled(t: Table, i: nat, m: nat, j: nat) {
    i < m < j < |t.rows| && |t.seen| == |t.rows| && t.rows[j].category == SUMMARY
    && m < t.seen[j] <= |t.rows| && t.rows[i] == t.rows[j]
    && t.rows[m].category == SUMMARY && t.rows[m].date != t.rows[j].date
    && forall x | m < x < t.seen[j] :: t.rows[x].category != SUMMARY
  }

  lemma {:induction false} LatestIndex(rows: seq<Row>, i: nat) returns (m: nat)
    requires i < |rows| && rows[i].category == SUMMARY
    ensures i <= m < |rows| && rows[m].category == SUMMARY && Latest(rows) == Some(rows[m])
    ensures forall x | m < x < |rows| :: rows[x].category != SUMMARY
  {
    var n := |rows| - 1;
    if rows[n].category == SUMMARY {
      m := n;
    } else {
      m := LatestIndex(rows[..n], i);
      assert rows[m] == rows[..n][m];
      forall x | m < x < n ensures rows[x].category != SUMMARY {
        assert rows[x] == rows[..n][x];
      }
    }
  }

  lemma SecondRowHasACause(t: Table, i: nat, j: nat) returns (m: nat)
    requires Inv(t) && i < j < |t.rows| && t.rows[j].category == SUMMARY && t.rows[i] == t.rows[j]
    ensures Overtaken(t, i, j) || Misled(t, i, m, j)
  {
    m := 0;
    if i < t.seen[j] {
      var seen := t.rows[..t.seen[j]];
      assert seen[i] == t.rows[i];
      m := LatestIndex(seen, i);
      assert Missed(t.rows, t.seen[j], t.rows[j].date);
      assert t.rows[m] == seen[m];
      forall x | m < x < t.seen[j] ensures t.rows[x].category != SUMMARY {
        assert t.rows[x] == seen[x];
      }
    }
  }

  /** A second row of a date has one of these two causes. */
  lemma TwoRowsHaveACause(ms: seq<Move>, i: nat, j: nat) returns (m: nat)
    requires Possible(EMPTY, ms)
    requires var rows := AfterAll(EMPTY, ms).rows; i < j < |rows| && rows[j].category == SUMMARY && rows[i] == rows[j]
    ensures var t := AfterAll(EMPTY, ms); Overtaken(t, i, j) || Misled(t, i, m, j)
  {
    AfterAllKeepsInv(EMPTY, ms);
    m := SecondRowHasACause(AfterAll(EMPTY, ms), i, j);
  }

  // --------------------------------------------------------------------------
  // Which looks are harmless
  // --------------------------------------------------------------------------

  /** What a run could check before it looks: the newest summary is of its date, so it
      will skip; or the date has no row at all and no other run is about to write one. */
  ghost predicate Clear(t: Table, d: nat) {
    Latest(t.rows) == Some(Row(SUMMARY, d)) || (!Exists(t.rows, d) && forall r | r in t.pending :: t.pending[r].date != d)
  }

  /** One row per date so far, and the runs about to write are of different dates,
      none of which has a row. */
  ghost predicate Ready(t: Table) {
    && OnePerDate(t.rows)
    && (forall q, r | q in t.pending && r in t.pending && q != r :: t.pending[q].date != t.pending[r].date)
    && (forall r | r in t.pending :: !Exists(t.rows, t.pending[r].date))
  }

  ghost predicate OnlyWrites(ms: seq<Move>) {
    forall i | 0 <= i < |ms| :: ms[i].Write?
  }

  /** However the runs that have looked by now write, there is one row per date. */
  ghost predicate Kept(t: Table) {
    forall ms | Possible(t, ms) && OnlyWrites(ms) :: OnePerDate(AfterAll(t, ms).rows)
  }

  lemma RowAdds(rows: seq<Row>, row: Row, d: nat)
    ensures Exists(rows + [row], d) <==> Exists(rows, d) || row == Row(SUMMARY, d)
  {
    var rows' := rows + [row];
    if i :| 0 <= i < |rows| && rows[i] == Row(SUMMARY, d) {
      assert rows'[i] == Row(SUMMARY, d);
    }
    if row == Row(SUMMARY, d) {
      assert rows'[|rows|] == Row(SUMMARY, d);
    }
  }

  lemma NewRowIsOne(rows: seq<Row>, row: Row)
    requires OnePerDate(rows)
    ensures OnePerDate(rows + [row]) <==> row.category != SUMMARY || !Exists(rows, row.date)
  {
    var rows' := rows + [row];
    if row.category == SUMMARY && Exists(rows, row.date) {
      var i :| 0 <= i < |rows| && rows[i] == Row(SUMMARY, row.date);
      assert rows'[i].date == rows'[|rows|].date;
    } else {
      forall i | 0 <= i < |rows| && rows[i].category == SUMMARY ensures row.category == SUMMARY ==> rows[i].date != row.date {
        assert rows[i] == Row(SUMMARY, rows[i].date);
      }
    }
  }

  lemma WriteStaysReady(t: Table, r: nat)
    requires Ready(t) && r in t.pending
    ensures Ready(After(t, Write(r)))
  {
    var row := Row(SUMMARY, t.pending[r].date);
    NewRowIsOne(t.rows, row);
    forall q | q in t.pending && q != r ensures !Exists(t.rows + [row], t.pending[q].date) {
      RowAdds(t.rows, row, t.pending[q].date);
    }
  }

  lemma InsertStaysReady(t: Table, row: Row)
    requires Ready(t) && row.category != SUMMARY
    ensures Ready(After(t, Insert(row)))
  {
    NewRowIsOne(t.rows, row);
    forall q | q in t.pending ensures !Exists(t.rows + [row], t.pending[q].date) {
      RowAdds(t.rows, row, t.pending[q].date);
    }
  }

  lemma ClearLookStaysReady(t: Table, r: nat, d: nat)
    requires Ready(t) && r !in t.pending && Clear(t, d)
    ensures Ready(After(t, Look(r, d)))
  {
  }

  lemma {:induction false} ReadyIsKept(t: Table, ms: seq<Move>)
    requires Ready(t) && Possible(t, ms) && OnlyWrites(ms)
    ensures OnePerDate(AfterAll(t, ms).rows)
    decreases |ms|
  {
    if ms != [] {
      WriteStaysReady(t, ms[0].run);
      ReadyIsKept(After(t, ms[0]), ms[1..]);
    }
  }

  lemma ReadyKeeps(t: Table)
    requires Ready(t)
    ensures Kept(t)
  {
    forall ms | Possible(t, ms) && OnlyWrites(ms) ensures OnePerDate(AfterAll(t, ms).rows) {
      ReadyIsKept(t, ms);
    }
  }

  /** A look that is not clear leaves a run whose write, after at most one other, makes
      a second row. */
  lemma UnclearLookBreaks(t: Table, r: nat, d: nat) returns (ms: seq<Move>)
    requires Ready(t) && r !in t.pending && !Clear(t, d)
    ensures var looked := After(t, Look(r, d));
      Possible(looked, ms) && OnlyWrites(ms) && |ms| <= 2 && !OnePerDate(AfterAll(looked, ms).rows)
  {
    var looked := After(t, Look(r, d));
    assert looked.pending[r].date == d && looked.rows == t.rows;
    if Exists(t.rows, d) {
      ms := [Write(r)];
      NewRowIsOne(t.rows, Row(SUMMARY, d));
      TwoMoves(looked, Write(r), []);
    } else {
      var q :| q in t.pending && t.pending[q].date == d;
      var first := After(looked, Write(q));
      RowAdds(t.rows, Row(SUMMARY, d), d);
      NewRowIsOne(t.rows, Row(SUMMARY, d));
      NewRowIsOne(first.rows, Row(SUMMARY, d));
      TwoMoves(first, Write(r), []);
      TwoMoves(looked, Write(q), [Write(r)] + []);
      ms := [Write(q)] + ([Write(r)] + []);
    }
  }

  /** From a table that is ready, a look keeps one row per date, however the runs that
      have looked then write, if and only if it is clear. */
  lemma LookIsHarmlessWhen(t: Table, r: nat, d: nat)
    requires Ready(t) && r !in t.pending
    ensures Kept(After(t, Look(r, d))) <==> Clear(t, d)
  {
    if Clear(t, d) {
      ClearLookStaysReady(t, r, d);
      ReadyKeeps(After(t, Look(r, d)));
    } else {
      var ms := UnclearLookBreaks(t, r, d);
    }
  }

  /** Every look of the run is clear when it is taken. */
  ghost predicate AllClear(t: Table, ms: seq<Move>)
    requires Possible(t, ms)
    decreases |ms|
  {
    ms == [] || ((ms[0].Look? ==> Clear(t, ms[0].today)) && AllClear(After(t, ms[0]), ms[1..]))
  }

  /** At every moment of the run, the writes still to come cannot make a second row. */
  ghost predicate AlwaysKept(t: Table, ms: seq<Move>)
    requires Possible(t, ms)
    decreases |ms|
  {
    Kept(t) && (ms == [] || AlwaysKept(After(t, ms[0]), ms[1..]))
  }

  lemma {:induction false} ClearRunsAreKept(t: Table, ms: seq<Move>)
    requires Ready(t) && Possible(t, ms)
    ensures AlwaysKept(t, ms) <==> AllClear(t, ms)
    decreases |ms|
  {
    ReadyKeeps(t);
    if ms != [] {
      var t' := After(t, ms[0]);
      match ms[0]
      case Write(r) =>
        WriteStaysReady(t, r);
        ClearRunsAreKept(t', ms[1..]);
      case Insert(row) =>
        InsertStaysReady(t, row);
        ClearRunsAreKept(t', ms[1..]);
      case Look(r, d) =>
        LookIsHarmlessWhen(t, r, d);
        if Clear(t, d) {
          ClearLookStaysReady(t, r, d);
          ClearRunsAreKept(t', ms[1..]);
        } else {
          assert !AlwaysKept(t', ms[1..]);
        }
    }
  }

  /** From the empty table, for every interleaving of any number of runs: there is one
      row per date at every moment, whichever of the runs under way write next, if and
      only if every look was clear. */
  lemma OneRowPerDateWhen(ms: seq<Move>)
    requires Possible(EMPTY, ms)
    ensures AlwaysKept(EMPTY, ms) <==> AllClear(EMPTY, ms)
    ensures AllClear(EMPTY, ms) ==> OnePerDate(AfterAll(EMPTY, ms).rows)
  {
    ClearRunsAreKept(EMPTY, ms);
    if AllClear(EMPTY, ms) {
      KeptToTheEnd(EMPTY, ms);
    }
  }

  lemma {:induction false} KeptToTheEnd(t: Table, ms: seq<Move>)
    requires Possible(t, ms) && AlwaysKept(t, ms)
    ensures OnePerDate(AfterAll(t, ms).rows)
    decreases |ms|
  {
    if ms == [] {
      assert OnlyWrites([]) && AfterAll(t, []) == t;
    } else {
      KeptToTheEnd(After(t, ms[0]), ms[1..]);
    }
  }

  /** A run that nobody interleaves with is the one atomic step that OneRowPerDate of
      DailySummary speaks about. */
  lemma AloneIsOneStep(t: Table, r: nat, d: nat)
    requires r !in t.pending
    ensures var looked := After(t, Look(r, d));
      (if r in looked.pending then After(looked, Write(r)) else looked).rows == Apply(t.rows, Summarize(d))
  {
  }

  lemma TwoMoves(t: Table, a: Move, ms: seq<Move>)
    requires Enabled(t, a) && Possible(After(t, a), ms)
    ensures Possible(t, [a] + ms) && AfterAll(t, [a] + ms) == AfterAll(After(t, a), ms)
  {
    assert ([a] + ms)[1..] == ms;
  }

  /** The scheduled and a manual run of one date that both look before either writes
      leave two rows. */
  lemma OverlapGivesTwo(d: nat)
    ensures var ms := [Look(0, d), Look(1, d), Write(0), Write(1)];
      Possible(EMPTY, ms) && !OnePerDate(AfterAll(EMPTY, ms).rows)
  {
    var t1 := After(EMPTY, Look(0, d));
    var t2 := After(t1, Look(1, d));
    var t3 := After(t2, Write(0));
    var t4 := After(t3, Write(1));
    TwoMoves(t3, Write(1), []);
    TwoMoves(t2, Write(0), [Write(1)]);
    TwoMoves(t1, Look(1, d), [Write(0)] + [Write(1)]);
    TwoMoves(EMPTY, Look(0, d), [Look(1, d)] + ([Write(0)] + [Write(1)]));
    assert [Look(0, d)] + ([Look(1, d)] + ([Write(0)] + [Write(1)])) == [Look(0, d), Look(1, d), Write(0), Write(1)];
    assert t4.rows == [Row(SUMMARY, d), Row(SUMMARY, d)];
    assert t4.rows[0].date == t4.rows[1].date;
  }

  /** No two runs of one date need overlap: a run that looks before midnight and
      writes after another has written the next day's row hides that row from the
      next look, although the clock only went forward. */
  lemma LateWriteGivesTwo(d: nat)
    ensures var ms := [Look(0, d), Look(1, d + 1), Write(1), Write(0), Look(2, d + 1), Write(2)];
      && Possible(EMPTY, ms)
      && var t := AfterAll(EMPTY, ms); !OnePerDate(t.rows) && forall i: nat, j: nat :: !Overtaken(t, i, j)
  {
    var t1 := After(EMPTY, Look(0, d));
    var t2 := After(t1, Look(1, d + 1));
    var t3 := After(t2, Write(1));
    var t4 := After(t3, Write(0));
    assert Latest(t4.rows) == Some(Row(SUMMARY, d));
    var t5 := After(t4, Look(2, d + 1));
    var t6 := After(t5, Write(2));
    TwoMoves(t5, Write(2), []);
    TwoMoves(t4, Look(2, d + 1), [Write(2)]);
    TwoMoves(t3, Write(0), [Look(2, d + 1)] + [Write(2)]);
    TwoMoves(t2, Write(1), [Write(0)] + ([Look(2, d + 1)] + [Write(2)]));
    TwoMoves(t1, Look(1, d + 1), [Write(1)] + ([Write(0)] + ([Look(2, d + 1)] + [Write(2)])));
    TwoMoves(EMPTY, Look(0, d), [Look(1, d + 1)] + ([Write(1)] + ([Write(0)] + ([Look(2, d + 1)] + [Write(2)]))));
    assert [Look(0, d)] + ([Look(1, d + 1)] + ([Write(1)] + ([Write(0)] + ([Look(2, d + 1)] + [Write(2)]))))
        == [Look(0, d), Look(1, d + 1), Write(1), Write(0), Look(2, d + 1), Write(2)];
    assert t6.rows == [Row(SUMMARY, d + 1), Row(SUMMARY, d), Row(SUMMARY, d + 1)] && t6.seen == [0, 0, 2];
    assert t6.rows[0].date == t6.rows[2].date;
  }
}
