/** One step of one handler on the shared tables: what it does to the rows of its
    own workflow, and that it leaves every other workflow's rows alone. */
module TablesProofs {
  import opened Common
  import opened Programs
  import opened ProgramProofs
  import opened Tables

  /** What the shape of the rows guarantees to the step about to run. */
  predicate Ready(p: Prog, pc: Pc, r: Rows) {
    && !Ended(pc) && |r.tids| == |r.tasks|
    && (pc.Complete? || pc.FailTask? || pc.Approve? ==> r.tids != [])
    && (pc.Complete? && p.Commit? && pc.k == 2 ==> r.mem.Some?)
    && (pc.Complete? && pc.k == (if p.Commit? then 3 else 4) ==> r.appr.Some?)
    && (pc.Create? || pc.Approve? ==> r.appr.None?)
    && (pc.Remember? ==> r.mem.None?)
    && (pc.Stamp? ==> r.mem.Some?)
    && (pc.Delivered? ==> r.appr.Some?)
  }

  lemma FitsIsReady(l: Ledger)
    requires LedgerInv(l) && !Ended(l.pc)
    ensures Ready(l.prog, l.pc, l.rows)
  {
  }

  ghost predicate Owns(db: Db, f: Frame, l: Ledger) {
    && Ready(l.prog, l.pc, l.rows)
    && l.prog == f.prog && l.pc == f.pc && l.wf == f.wf
    && Agrees(db, f.wf, l.rows) && FrameOk(f, l.rows) && Anchored(db)
  }

  lemma TasksGrow(tasks: map<nat, Task>, w: nat, tids: seq<nat>, rows: seq<Task>, id: nat, t: Task)
    requires TasksAgree(tasks, w, tids, rows) && t.wf == w && forall x | x in tasks :: x < id
    ensures TasksAgree(tasks[id := t], w, tids + [id], rows + [t])
  {
    var tasks' := tasks[id := t];
    assert forall x | x in tasks' && tasks'[x].wf == w :: x == id || x in tids;
  }

  lemma LastTaskChanges(tasks: map<nat, Task>, w: nat, tids: seq<nat>, rows: seq<Task>, t: Task)
    requires TasksAgree(tasks, w, tids, rows) && t.wf == w && tids != []
    ensures TasksAgree(tasks[tids[|tids| - 1] := t], w, tids, rows[|rows| - 1 := t])
  {
  }

  lemma OwnCreate(db: Db, f: Frame, l: Ledger, id: nat, text: string)
    requires Owns(db, f, l) && FreshFor(db, f.pc, id) && f.pc.Create?
    ensures Agrees(Exec(db, f, id, text), f.wf, Advance(l, Ok, id).rows)
    ensures FrameOk(StepFrame(db, f, Ok, id, text), Advance(l, Ok, id).rows)
  {
    TasksGrow(db.tasks, f.wf, l.rows.tids, l.rows.tasks, id, Task(f.wf, KindAt(f.prog, f.pc.k), Running, None));
  }

  /** Only the reading half of a log append is followed by a writing half. */
  lemma WritesFollowReads(p: Prog, pc: Pc, out: Outcome)
    requires !pc.ReadLog? && !pc.ReadFail? && !pc.ReadEnd?
    ensures var n := Next(p, pc, out); !n.WriteLog? && !n.WriteFail? && !n.WriteEnd?
  {
  }

  lemma OwnComplete(db: Db, f: Frame, l: Ledger, id: nat, text: string)
    requires Owns(db, f, l) && f.pc.Complete?
    ensures Agrees(Exec(db, f, id, text), f.wf, Effect(l.prog, l.pc, l.wf, id, l.rows))
  {
    var r' := Effect(l.prog, l.pc, l.wf, id, l.rows);
    LastTaskChanges(db.tasks, f.wf, l.rows.tids, l.rows.tasks, r'.tasks[|r'.tasks| - 1]);
  }

  lemma OwnFailTask(db: Db, f: Frame, l: Ledger, id: nat, text: string)
    requires Owns(db, f, l) && f.pc.FailTask?
    ensures Agrees(Exec(db, f, id, text), f.wf, Effect(l.prog, l.pc, l.wf, id, l.rows))
  {
    var r' := Effect(l.prog, l.pc, l.wf, id, l.rows);
    LastTaskChanges(db.tasks, f.wf, l.rows.tids, l.rows.tasks, r'.tasks[|r'.tasks| - 1]);
  }

  lemma TaskLocals(db: Db, f: Frame, l: Ledger, id: nat, text: string)
    requires FrameOk(f, l.rows) && (f.pc.Complete? || f.pc.FailTask?) && l.pc == f.pc
    ensures FrameOk(StepFrame(db, f, Ok, id, text), Effect(l.prog, l.pc, l.wf, id, l.rows))
  {
    WritesFollowReads(f.prog, f.pc, Ok);
  }

  lemma OwnTask(db: Db, f: Frame, l: Ledger, id: nat, text: string)
    requires Owns(db, f, l) && (f.pc.Complete? || f.pc.FailTask?)
    ensures Agrees(Exec(db, f, id, text), f.wf, Advance(l, Ok, id).rows)
    ensures FrameOk(StepFrame(db, f, Ok, id, text), Advance(l, Ok, id).rows)
  {
    TaskLocals(db, f, l, id, text);
    if f.pc.Complete? {
      OwnComplete(db, f, l, id, text);
    } else {
      OwnFailTask(db, f, l, id, text);
    }
  }

  lemma OwnRow(db: Db, f: Frame, l: Ledger, id: nat, text: string)
    requires Owns(db, f, l) && FreshFor(db, f.pc, id)
    requires f.pc.Remember? || f.pc.Stamp? || f.pc.Approve? || f.pc.Delivered?
    ensures Agrees(Exec(db, f, id, text), f.wf, Advance(l, Ok, id).rows)
    ensures FrameOk(StepFrame(db, f, Ok, id, text), Advance(l, Ok, id).rows)
  {
  }

  lemma OwnLog(db: Db, f: Frame, l: Ledger, id: nat, text: string)
    requires Owns(db, f, l)
    requires f.pc.WriteLog? || f.pc.WriteFail? || f.pc.WriteEnd?
    ensures Agrees(Exec(db, f, id, text), f.wf, Advance(l, Ok, id).rows)
    ensures FrameOk(StepFrame(db, f, Ok, id, text), Advance(l, Ok, id).rows)
  {
    WritesFollowReads(f.prog, f.pc, Ok);
  }

  lemma OwnQuiet(db: Db, f: Frame, l: Ledger, id: nat, text: string)
    requires Owns(db, f, l)
    requires f.pc.Attach? || f.pc.Body? || f.pc.Upsert? || f.pc.ReadLog? || f.pc.ReadFail? || f.pc.ReadEnd?
    ensures Agrees(Exec(db, f, id, text), f.wf, Advance(l, Ok, id).rows)
    ensures FrameOk(StepFrame(db, f, Ok, id, text), Advance(l, Ok, id).rows)
  {
    QuietTables(db, f, l, id, text);
    hide Exec;
    if f.pc.Attach? || f.pc.Body? || f.pc.Upsert? {
      WritesFollowReads(f.prog, f.pc, Ok);
    }
  }

  lemma QuietTables(db: Db, f: Frame, l: Ledger, id: nat, text: string)
    requires Owns(db, f, l)
    requires f.pc.Attach? || f.pc.Body? || f.pc.Upsert? || f.pc.ReadLog? || f.pc.ReadFail? || f.pc.ReadEnd?
    ensures Agrees(Exec(db, f, id, text), f.wf, l.rows) && Effect(l.prog, l.pc, l.wf, id, l.rows) == l.rows
  {
    OneTable(db, f, id, text);
  }

  lemma OwnFailure(db: Db, f: Frame, l: Ledger, out: Outcome, id: nat, text: string)
    requires Owns(db, f, l) && out != Ok
    ensures Agrees(StepDb(db, f, out, id, text), f.wf, Advance(l, out, id).rows)
    ensures FrameOk(StepFrame(db, f, out, id, text), Advance(l, out, id).rows)
  {
  }

  /** The owner's step on the shared tables is its step on the ledger: the log it
      writes back is the current one plus its own entry, nothing is lost. */
  lemma OwnStep(db: Db, f: Frame, l: Ledger, out: Outcome, id: nat, text: string)
    requires Owns(db, f, l) && FreshFor(db, f.pc, id)
    ensures Agrees(StepDb(db, f, out, id, text), f.wf, Advance(l, out, id).rows)
    ensures FrameOk(StepFrame(db, f, out, id, text), Advance(l, out, id).rows)
  {
    if out != Ok {
      OwnFailure(db, f, l, out, id, text);
    } else {
      match f.pc
      case Create(_) => OwnCreate(db, f, l, id, text);
      case Complete(_) => OwnTask(db, f, l, id, text);
      case FailTask(_) => OwnTask(db, f, l, id, text);
      case Remember => OwnRow(db, f, l, id, text);
      case Stamp => OwnRow(db, f, l, id, text);
      case Approve => OwnRow(db, f, l, id, text);
      case Delivered => OwnRow(db, f, l, id, text);
      case WriteLog(_) => OwnLog(db, f, l, id, text);
      case WriteFail(_) => OwnLog(db, f, l, id, text);
      case WriteEnd => OwnLog(db, f, l, id, text);
      case _ => OwnQuiet(db, f, l, id, text);
    }
  }

  /** The tables keep every workflow, and every row stays anchored. */
  lemma StepKeepsAnchors(db: Db, f: Frame, l: Ledger, out: Outcome, id: nat, text: string)
    requires Owns(db, f, l) && FreshFor(db, f.pc, id)
    ensures var db' := StepDb(db, f, out, id, text); Anchored(db') && db'.wfs.Keys == db.wfs.Keys
  {
    ExecIsLocal(db, f, id, text);
  }

  /** A step writes at most one row of each table, anchored where it was or at its
      own workflow. */
  lemma ExecIsLocal(db: Db, f: Frame, id: nat, text: string)
    requires f.wf in db.wfs
    ensures var db' := Exec(db, f, id, text);
      && db'.wfs.Keys == db.wfs.Keys
      && (forall t | t in db'.tasks :: (t in db.tasks && db'.tasks[t].wf == db.tasks[t].wf) || db'.tasks[t].wf == f.wf)
      && (forall m | m in db'.mems :: (m in db.mems && db'.mems[m].owner == db.mems[m].owner) || db'.mems[m].owner == f.wf)
      && (forall a | a in db'.apprs :: (a in db.apprs && db'.apprs[a].wf == db.apprs[a].wf) || db'.apprs[a].wf == f.wf)
  {
    OneTable(db, f, id, text);
  }

  /** Which table each kind of step may change. */
  lemma OneTable(db: Db, f: Frame, id: nat, text: string)
    ensures var db' := Exec(db, f, id, text);
      && (!f.pc.Create? && !f.pc.Complete? && !f.pc.FailTask? ==> db'.tasks == db.tasks)
      && (!f.pc.Remember? && !f.pc.Stamp? ==> db'.mems == db.mems)
      && (!f.pc.Approve? && !f.pc.Delivered? ==> db'.apprs == db.apprs)
      && (!f.pc.WriteLog? && !f.pc.WriteFail? && !f.pc.WriteEnd? ==> db'.wfs == db.wfs)
      && (!f.pc.Upsert? ==> db'.vectors == db.vectors)
  {
    hide Exec;
    if f.pc.Create? || f.pc.Complete? || f.pc.FailTask? {
      TaskSteps(db, f, id, text);
    } else if f.pc.WriteLog? || f.pc.WriteFail? || f.pc.WriteEnd? {
      LogSteps(db, f, id, text);
    } else {
      RowSteps(db, f, id, text);
    }
  }

  lemma TaskSteps(db: Db, f: Frame, id: nat, text: string)
    requires f.pc.Create? || f.pc.Complete? || f.pc.FailTask?
    ensures Exec(db, f, id, text) == db.(tasks := Exec(db, f, id, text).tasks)
  {
  }

  lemma LogSteps(db: Db, f: Frame, id: nat, text: string)
    requires f.pc.WriteLog? || f.pc.WriteFail? || f.pc.WriteEnd?
    ensures Exec(db, f, id, text) == db.(wfs := Exec(db, f, id, text).wfs)
  {
  }

  lemma RowSteps(db: Db, f: Frame, id: nat, text: string)
    requires !f.pc.Create? && !f.pc.Complete? && !f.pc.FailTask? && !f.pc.WriteLog? && !f.pc.WriteFail? && !f.pc.WriteEnd?
    ensures var db' := Exec(db, f, id, text);
      && db'.tasks == db.tasks && db'.wfs == db.wfs
      && (!f.pc.Remember? && !f.pc.Stamp? ==> db'.mems == db.mems)
      && (!f.pc.Approve? && !f.pc.Delivered? ==> db'.apprs == db.apprs)
      && (!f.pc.Upsert? ==> db'.vectors == db.vectors)
  {
    if f.pc.Remember? || f.pc.Stamp? {
      MemorySteps(db, f, id, text);
    } else if f.pc.Approve? || f.pc.Delivered? {
      ApprovalSteps(db, f, id, text);
    }
  }

  lemma MemorySteps(db: Db, f: Frame, id: nat, text: string)
    requires f.pc.Remember? || f.pc.Stamp?
    ensures Exec(db, f, id, text) == db.(mems := Exec(db, f, id, text).mems)
  {
  }

  lemma ApprovalSteps(db: Db, f: Frame, id: nat, text: string)
    requires f.pc.Approve? || f.pc.Delivered?
    ensures Exec(db, f, id, text) == db.(apprs := Exec(db, f, id, text).apprs)
  {
  }

  lemma OtherTasks(tasks: map<nat, Task>, v: nat, tids: seq<nat>, rows: seq<Task>, id: nat, t: Task)
    requires TasksAgree(tasks, v, tids, rows) && t.wf != v
    requires id in tasks ==> tasks[id].wf != v
    ensures TasksAgree(tasks[id := t], v, tids, rows)
  {
    var tasks' := tasks[id := t];
    assert forall x | x in tasks' && tasks'[x].wf == v :: x in tasks && tasks[x].wf == v;
  }

  /** Other workflows do not notice. */
  lemma OtherStep(db: Db, f: Frame, l: Ledger, out: Outcome, id: nat, text: string, v: nat, r: Rows)
    requires Owns(db, f, l) && FreshFor(db, f.pc, id)
    requires v != f.wf && Agrees(db, v, r)
    ensures Agrees(StepDb(db, f, out, id, text), v, r)
  {
    if out == Ok {
      if f.pc.Create? {
        OtherTasks(db.tasks, v, r.tids, r.tasks, id, Task(f.wf, KindAt(f.prog, f.pc.k), Running, None));
      } else if f.pc.Complete? || f.pc.FailTask? {
        assert f.tid == l.rows.tids[|l.rows.tids| - 1];
        OtherTasks(db.tasks, v, r.tids, r.tasks, f.tid, Exec(db, f, id, text).tasks[f.tid]);
      } else {
        OtherRows(db, f, l, id, text, v, r);
      }
    }
  }

  lemma OtherMemory(mems: map<nat, Memory>, v: nat, mem: Option<nat>, id: nat, m: Memory)
    requires MemoryAgrees(mems, v, mem) && m.owner != v
    requires id in mems ==> mems[id].owner != v
    ensures MemoryAgrees(mems[id := m], v, mem)
  {
  }

  lemma OtherApproval(apprs: map<nat, Approval>, v: nat, tids: seq<nat>, appr: Option<nat>, id: nat, a: Approval)
    requires ApprovalAgrees(apprs, v, tids, appr) && a.wf != v
    requires id in apprs ==> apprs[id].wf != v
    ensures ApprovalAgrees(apprs[id := a], v, tids, appr)
  {
  }

  lemma OtherRows(db: Db, f: Frame, l: Ledger, id: nat, text: string, v: nat, r: Rows)
    requires Owns(db, f, l) && FreshFor(db, f.pc, id)
    requires v != f.wf && Agrees(db, v, r)
    requires !f.pc.Create? && !f.pc.Complete? && !f.pc.FailTask?
    ensures Agrees(Exec(db, f, id, text), v, r)
  {
    OneTable(db, f, id, text);
    var db' := Exec(db, f, id, text);
    if f.pc.Remember? || f.pc.Stamp? {
      var m := if f.pc.Remember? then id else f.mem;
      OtherMemory(db.mems, v, r.mem, m, db'.mems[m]);
    } else if f.pc.Approve? || f.pc.Delivered? {
      var a := if f.pc.Approve? then id else f.appr;
      OtherApproval(db.apprs, v, r.tids, r.appr, a, db'.apprs[a]);
    }
  }

  lemma InsertAgrees(db: Db, w: nat, p: Prog, now: nat)
    requires Anchored(db) && w !in db.wfs
    ensures var db' := InsertWorkflow(db, w, p, now);
      Anchored(db') && Agrees(db', w, Begin(p, w).rows) && FrameOk(NewFrame(p, w), Begin(p, w).rows)
  {
  }

  lemma InsertLeavesOthers(db: Db, w: nat, p: Prog, now: nat, v: nat, r: Rows)
    requires Agrees(db, v, r) && v != w
    ensures Agrees(InsertWorkflow(db, w, p, now), v, r)
  {
  }

  lemma ReapTasks(db: Db, now: nat, maxAge: nat, w: nat, r: Rows)
    requires Agrees(db, w, r)
    ensures Agrees(Reap(db, now, maxAge), w, if Stale(db, w, now, maxAge) then ReapRows(r) else r)
  {
    var r' := if Stale(db, w, now, maxAge) then ReapRows(r) else r;
    var tasks' := Reap(db, now, maxAge).tasks;
    assert forall t | t in tasks' && tasks'[t].wf == w :: t in db.tasks && db.tasks[t].wf == w;
    assert forall i | 0 <= i < |r.tids| :: tasks'[r.tids[i]] == r'.tasks[i];
  }
}
