/** The Postgres tables and the vector map, and what each transaction of the two
    pipelines, the gateway and the reaper does to them. */
module Tables {
  import opened Common
  import opened Programs

  datatype Workflow = Workflow(status: Status, log: seq<Event>, created: nat)

  /** `owner` is history: the workflow whose owner inserted the row. */
  datatype Memory = Memory(prog: Prog, content: string, embedding: Option<string>, owner: nat)

  datatype Approval = Approval(wf: nat, task: nat, delivered: Option<string>, decision: Option<string>)

  datatype Db = Db(
    wfs: map<nat, Workflow>, tasks: map<nat, Task>, mems: map<nat, Memory>, apprs: map<nat, Approval>,
    vectors: map<string, string>)

  const EMPTY := Db(map[], map[], map[], map[], map[])

  function VectorId(p: Prog): string {
    "commit:" + (if p.Commit? then p.key.sha else "")
  }

  /** The delivered_via column: the channels that took an approval, or NULL. */
  function Channels(text: string): (r: Option<string>)
    ensures r.None? <==> text == ""
    ensures r.Some? ==> r.value == text
  {
    if text == "" then None else Some(text)
  }

  /** The local variables of a running handler. */
  datatype Frame = Frame(
    prog: Prog, wf: nat, pc: Pc, tid: nat, mem: nat, content: string, appr: nat, snap: seq<Event>)

  function NewFrame(p: Prog, w: nat): Frame {
    Frame(p, w, Entry(p), 0, 0, "", 0, [])
  }

  function InsertWorkflow(db: Db, w: nat, p: Prog, now: nat): Db {
    db.(wfs := db.wfs[w := Workflow(Running, [Started(p)], now)])
  }

  function InsertTask(db: Db, id: nat, t: Task): Db {
    db.(tasks := db.tasks[id := t])
  }

  function UpdateTask(db: Db, id: nat, status: Status, result: Option<nat>): Db
    requires id in db.tasks
  {
    db.(tasks := db.tasks[id := db.tasks[id].(status := status, result := result)])
  }

  /** row.logs = snapshot + [entry], with the status set in the same transaction. */
  function WriteBack(db: Db, w: nat, snap: seq<Event>, e: Event, status: Status): Db
    requires w in db.wfs
  {
    db.(wfs := db.wfs[w := db.wfs[w].(log := snap + [e], status := status)])
  }

  /** The step at `f.pc` taking effect. `id` is the primary key of an insert and
      `text` the content or delivery list written. A select that finds no row
      raises in the program, so then nothing changes here. */
  function Exec(db: Db, f: Frame, id: nat, text: string): Db {
    match f.pc
    case Create(k) => InsertTask(db, id, Task(f.wf, KindAt(f.prog, k), Running, None))
    case Complete(k) =>
      if f.tid in db.tasks then
        UpdateTask(db, f.tid, Completed, ResultOf(f.prog, k, Some(f.mem), Some(f.appr)))
      else db
    case FailTask(_) =>
      if f.tid in db.tasks then UpdateTask(db, f.tid, Failed, db.tasks[f.tid].result) else db
    case Remember => db.(mems := db.mems[id := Memory(f.prog, text, None, f.wf)])
    case Upsert => db.(vectors := db.vectors[VectorId(f.prog) := f.content])
    case Stamp =>
      if f.mem in db.mems then
        db.(mems := db.mems[f.mem := db.mems[f.mem].(embedding := Some(VectorId(f.prog)))])
      else db
    case Approve => db.(apprs := db.apprs[id := Approval(f.wf, f.tid, None, None)])
    case Delivered =>
      if f.appr in db.apprs then
        db.(apprs := db.apprs[f.appr := db.apprs[f.appr].(delivered := Channels(text))])
      else db
    case WriteLog(k) => if f.wf in db.wfs then WriteBack(db, f.wf, f.snap, Line(k), db.wfs[f.wf].status) else db
    case WriteFail(_) => if f.wf in db.wfs then WriteBack(db, f.wf, f.snap, WorkflowFailed, Failed) else db
    case WriteEnd => if f.wf in db.wfs then WriteBack(db, f.wf, f.snap, WorkflowDone, Completed) else db
    case _ => db
  }

  /** The same step's effect on the handler's locals. */
  function Locals(db: Db, f: Frame, id: nat, text: string): Frame {
    match f.pc
    case Create(_) => f.(tid := id)
    case Remember => f.(mem := id, content := text)
    case Approve => f.(appr := id)
    case ReadLog(_) => f.(snap := if f.wf in db.wfs then db.wfs[f.wf].log else [])
    case ReadFail(_) => f.(snap := if f.wf in db.wfs then db.wfs[f.wf].log else [])
    case ReadEnd => f.(snap := if f.wf in db.wfs then db.wfs[f.wf].log else [])
    case _ => f
  }

  function StepDb(db: Db, f: Frame, out: Outcome, id: nat, text: string): Db {
    if out == Ok then Exec(db, f, id, text) else db
  }

  function StepFrame(db: Db, f: Frame, out: Outcome, id: nat, text: string): Frame {
    (if out == Ok then Locals(db, f, id, text) else f).(pc := Next(f.prog, f.pc, out))
  }

  /** The fresh keys an insert at `f.pc` may be given. */
  predicate FreshFor(db: Db, pc: Pc, id: nat) {
    match pc
    case Create(_) => forall t | t in db.tasks :: t < id
    case Remember => forall m | m in db.mems :: m < id
    case Approve => forall a | a in db.apprs :: a < id
    case _ => true
  }

  /** created_at < now - max_age, written without going below zero. */
  predicate Stale(db: Db, w: nat, now: nat, maxAge: nat) {
    w in db.wfs && db.wfs[w].status == Running && db.wfs[w].created + maxAge < now
  }

  /** reap_orphan_workflows as one transaction. */
  function Reap(db: Db, now: nat, maxAge: nat): Db {
    db.(wfs := map w | w in db.wfs ::
          if Stale(db, w, now, maxAge)
          then db.wfs[w].(status := Interrupted, log := db.wfs[w].log + [WorkflowInterrupted])
          else db.wfs[w],
        tasks := map t | t in db.tasks ::
          if Stale(db, db.tasks[t].wf, now, maxAge) then ReapTask(db.tasks[t]) else db.tasks[t])
  }

  // --------------------------------------------------------------------------
  // The rows of one workflow inside the shared tables
  // --------------------------------------------------------------------------

  ghost predicate TasksAgree(tasks: map<nat, Task>, w: nat, tids: seq<nat>, rows: seq<Task>) {
    && |tids| == |rows|
    && (forall i | 0 <= i < |tids| :: tids[i] in tasks && tasks[tids[i]] == rows[i] && rows[i].wf == w)
    && (forall i, j | 0 <= i < j < |tids| :: tids[i] < tids[j])
    && (forall t | t in tasks && tasks[t].wf == w :: t in tids)
  }

  ghost predicate MemoryAgrees(mems: map<nat, Memory>, w: nat, mem: Option<nat>) {
    && (mem.Some? ==> mem.value in mems && mems[mem.value].owner == w)
    && (forall m | m in mems && mems[m].owner == w :: mem == Some(m))
  }

  ghost predicate ApprovalAgrees(apprs: map<nat, Approval>, w: nat, tids: seq<nat>, appr: Option<nat>) {
    && (forall a | a in apprs && apprs[a].wf == w :: appr == Some(a))
    && (appr.Some? ==>
          appr.value in apprs && apprs[appr.value].wf == w && tids != [] && apprs[appr.value].task == tids[|tids| - 1])
  }

  /** The tables hold, for workflow `w`, exactly the rows `r`: the task rows are
      those of `r` in order of their ids, and no other task, memory or approval row
      belongs to `w`. */
  ghost predicate Agrees(db: Db, w: nat, r: Rows) {
    && w in db.wfs && db.wfs[w].status == r.status && db.wfs[w].log == r.log
    && TasksAgree(db.tasks, w, r.tids, r.tasks)
    && MemoryAgrees(db.mems, w, r.mem)
    && ApprovalAgrees(db.apprs, w, r.tids, r.appr)
  }

  /** Every row belongs to some workflow. */
  predicate Anchored(db: Db) {
    && (forall t | t in db.tasks :: db.tasks[t].wf in db.wfs)
    && (forall m | m in db.mems :: db.mems[m].owner in db.wfs)
    && (forall a | a in db.apprs :: db.apprs[a].wf in db.wfs)
  }

  /** The handler's locals name its own current rows. */
  ghost predicate FrameOk(f: Frame, r: Rows) {
    && (r.tids != [] ==> f.tid == r.tids[|r.tids| - 1])
    && (r.mem.Some? ==> f.mem == r.mem.value)
    && (r.appr.Some? ==> f.appr == r.appr.value)
    && (f.pc.WriteLog? || f.pc.WriteFail? || f.pc.WriteEnd? ==> f.snap == r.log)
  }
}
