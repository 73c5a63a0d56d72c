/** reap_orphan_workflows as the program writes it: a select, then a loop that updates
    one workflow row and its tasks at a time, in no particular order. */
module Reaper {
  import opened Common
  import opened Programs
  import opened Tables
  import opened PipelineCode

  ghost function Orphans(db: Db, now: nat, maxAge: nat): set<nat> {
    set w | w in db.wfs && Stale(db, w, now, maxAge)
  }

  function Interrupt(row: Workflow): Workflow {
    row.(status := Interrupted, log := row.log + [WorkflowInterrupted])
  }

  /** The tables with the workflows `ws` reaped. */
  ghost function Reaped(db: Db, ws: set<nat>): Db {
    db.(wfs := map w | w in db.wfs :: if w in ws then Interrupt(db.wfs[w]) else db.wfs[w],
        tasks := map t | t in db.tasks :: if db.tasks[t].wf in ws then ReapTask(db.tasks[t]) else db.tasks[t])
  }

  lemma ReapedNone(db: Db)
    ensures Reaped(db, {}) == db
  {
    var db' := Reaped(db, {});
    assert db'.wfs == db.wfs && db'.tasks == db.tasks;
  }

  /** All orphans reaped one by one is the reaper's one transaction. */
  lemma ReapedAll(db: Db, now: nat, maxAge: nat)
    ensures Reaped(db, Orphans(db, now, maxAge)) == Reap(db, now, maxAge)
  {
    var a, b := Reaped(db, Orphans(db, now, maxAge)), Reap(db, now, maxAge);
    assert a.wfs == b.wfs;
    assert a.tasks == b.tasks;
  }

  lemma ReapedStep(db: Db, done: set<nat>, w: nat, next: Db)
    requires w in db.wfs && w !in done
    requires var cur := Reaped(db, done);
      next == cur.(
        wfs := cur.wfs[w := Interrupt(cur.wfs[w])],
        tasks := map t | t in cur.tasks :: if cur.tasks[t].wf == w then ReapTask(cur.tasks[t]) else cur.tasks[t])
    ensures next == Reaped(db, done + {w})
  {
    var target := Reaped(db, done + {w});
    assert next.wfs == target.wfs;
    assert next.tasks == target.tasks;
  }

  /** One turn of the loop: the row, then its running tasks. */
  method ReapOne(pg: Postgres, w: nat, ghost before: Db, ghost done: set<nat>)
    requires w in before.wfs && w !in done && pg.db == Reaped(before, done)
    modifies pg`db
    ensures pg.db == Reaped(before, done + {w})
  {
    var row, tasks := pg.db.wfs[w], pg.db.tasks;
    pg.db := pg.db.(
      wfs := pg.db.wfs[w := row.(status := Interrupted, log := row.log + [WorkflowInterrupted])],
      tasks := map t | t in tasks :: if tasks[t].wf == w && tasks[t].status == Running
                                     then tasks[t].(status := Interrupted) else tasks[t]);
    ReapedStep(before, done, w, pg.db);
  }

  /** One pass. Whatever the order, it does to the tables what Reap says, and it
      returns the number of rows it changed; if the transaction fails, nothing. */
  method ReapOrphanWorkflows(pg: Postgres, now: nat, maxAge: nat, commits: bool) returns (count: Option<nat>)
    modifies pg`db
    ensures commits ==> pg.db == Reap(old(pg.db), now, maxAge) && count == Some(|Orphans(old(pg.db), now, maxAge)|)
    ensures !commits ==> pg.db == old(pg.db) && count == None
  {
    if !commits {
      return None;
    }
    ghost var before := pg.db;
    ghost var orphans := Orphans(before, now, maxAge);
    var pending := set w | w in pg.db.wfs && Stale(pg.db, w, now, maxAge);
    assert pending == orphans;
    var reaped := 0;
    ReapedNone(before);
    while pending != {}
      invariant pending <= orphans && reaped == |orphans| - |pending|
      invariant pg.db == Reaped(before, orphans - pending)
      decreases |pending|
    {
      var w :| w in pending;
      ReapOne(pg, w, before, orphans - pending);
      assert orphans - (pending - {w}) == orphans - pending + {w};
      pending := pending - {w};
      reaped := reaped + 1;
    }
    assert orphans - pending == orphans;
    ReapedAll(before, now, maxAge);
    count := Some(reaped);
  }
}
