/** The two job handlers, workflows/commit_pipeline.py and workflows/demo_forge.py,
    as the sequence of atomic steps each one performs for its workflow row. */
module Programs {
  import opened Common

  datatype Status = Running | Completed | Failed | Interrupted

  datatype Prog =
    | Commit(key: Key)
    | Demo(scenario: string, skipRender: bool)

  /** Entries of a workflow's log. The first one carries what the workflow is about. */
  datatype Event =
    | Started(prog: Prog) | SummaryDone | SocialDone | ApprovalSent
    | WorkflowDone | WorkflowFailed | WorkflowInterrupted

  datatype Task = Task(wf: nat, kind: string, status: Status, result: Option<nat>)

  /** Everything the four tables hold about one workflow, as its owner meant it. */
  datatype Rows = Rows(
    status: Status, log: seq<Event>, tids: seq<nat>, tasks: seq<Task>, mem: Option<nat>, appr: Option<nat>)

  /** Program points; each names the step about to run. `k` numbers the stages. */
  datatype Pc =
    | Attach                 // dedup_attach
    | Create(k: nat)         // _create_task
    | Body(k: nat)           // the LLM call or the subprocess
    | Remember               // insert the memory row
    | Upsert | Stamp         // vector upsert; then memory.embedding_id
    | Approve | Delivered    // insert the approval row; then approval.delivered_via
    | Complete(k: nat)       // _complete_task
    | ReadLog(k: nat) | WriteLog(k: nat)        // the two halves of _append_log
    | FailTask(k: nat)                          // _fail_task
    | ReadFail(k: nat) | WriteFail(k: nat)      // the two halves of _fail_workflow
    | ReadEnd | WriteEnd                        // the two halves of the last transaction
    | Returned                                  // the handler returned
    | Broken(k: nat)                            // the workflow was failed, the handler raised
    | Stuck(from: Pc)                           // a step outside the try, or of the except, raised

  /** The task types a run creates. */
  function Plan(p: Prog): seq<string> {
    match p
    case Commit(_) => ["summarize", "draft_social", "save", "request_approval"]
    case Demo(_, skip) =>
      if skip then ["check_tools", "capture", "manifest", "approve"]
      else ["check_tools", "capture", "render_mp4", "manifest", "approve"]
  }

  /** The task_chain column written with the workflow row. */
  function DeclaredChain(p: Prog): seq<string> {
    match p
    case Commit(_) => ["summarize", "draft_social", "save", "request_approval"]
    case Demo(_, _) => ["check_tools", "capture", "narrate", "render", "manifest", "approve"]
  }

  /** How many tasks exist when stage `k` is about to be created. Stage 2 of the
      demo is the MP4 render, left out when `skip_render` is set. */
  function Before(p: Prog, k: nat): nat {
    if p.Demo? && p.skipRender && k > 2 then k - 1 else k
  }

  function Entry(p: Prog): Pc {
    if p.Commit? then Attach else Create(0)
  }

  predicate ValidPc(p: Prog, pc: Pc) {
    match pc
    case Attach => p.Commit?
    case Create(k) => ValidStage(p, k)
    case Body(k) => if p.Commit? then k < 2 else k < 4 && ValidStage(p, k)
    case Remember => true
    case Upsert => p.Commit?
    case Stamp => p.Commit?
    case Approve => true
    case Delivered => true
    case Complete(k) => ValidStage(p, k)
    case ReadLog(k) => p.Commit? && k in {0, 1, 3}
    case WriteLog(k) => p.Commit? && k in {0, 1, 3}
    case FailTask(k) => if p.Commit? then k < 4 else k < 4 && ValidStage(p, k)
    case ReadFail(k) => if p.Commit? then k < 4 else k in {0, 1, 3}
    case WriteFail(k) => if p.Commit? then k < 4 else k in {0, 1, 3}
    case ReadEnd => true
    case WriteEnd => true
    case Returned => true
    case Broken(k) => if p.Commit? then k < 4 else k in {0, 1, 3}
    case Stuck(q) => ValidPc(p, q) && !Ended(q)
  }

  predicate ValidStage(p: Prog, k: nat) {
    if p.Commit? then k < 4 else k < 5 && (p.skipRender ==> k != 2)
  }

  predicate Ended(pc: Pc) {
    pc.Returned? || pc.Broken? || pc.Stuck?
  }

  /** A step whose exception the pipeline catches goes to FailTask; the two vector
      steps are only logged; everything else leaves the handler at once. */
  predicate Guarded(p: Prog, pc: Pc) {
    p.Commit? && (pc.Body? || pc.Remember? || pc.Approve? || pc.Delivered? || pc.Complete? || pc.ReadLog? || pc.WriteLog?)
  }

  function StageOf(pc: Pc): nat {
    match pc
    case Body(k) => k
    case Remember => 2
    case Approve => 3
    case Delivered => 3
    case Complete(k) => k
    case ReadLog(k) => k
    case WriteLog(k) => k
    case _ => 0
  }

  /** Control flow: the next program point. */
  function Next(p: Prog, pc: Pc, out: Outcome): Pc {
    if pc == Upsert && out != Ok then Complete(2)
    else if pc == Stamp then Complete(2)
    else if p.Demo? && pc.Body? && out == Bad then FailTask(pc.k)
    else if out != Ok then (if Guarded(p, pc) then FailTask(StageOf(pc)) else Stuck(pc))
    else NextOk(p, pc)
  }

  function NextOk(p: Prog, pc: Pc): Pc {
    match pc
    case Attach => Create(0)
    case Create(k) =>
      if p.Commit? then (if k < 2 then Body(k) else if k == 2 then Remember else Approve)
      else if k < 4 then Body(k) else Approve
    case Body(k) => Complete(k)
    case Remember => if p.Commit? then Upsert else Create(4)
    case Upsert => Stamp
    case Stamp => Complete(2)
    case Approve => Delivered
    case Delivered => Complete(if p.Commit? then 3 else 4)
    case Complete(k) =>
      if p.Commit? then (if k == 2 then Create(3) else ReadLog(k))
      else if k == 4 then ReadEnd
      else if k == 3 then Remember
      else if k == 1 && p.skipRender then Create(3)
      else Create(k + 1)
    case ReadLog(k) => WriteLog(k)
    case WriteLog(k) => if k < 3 then Create(k + 1) else ReadEnd
    case FailTask(k) => if p.Demo? && k == 2 then Create(3) else ReadFail(k)
    case ReadFail(k) => WriteFail(k)
    case WriteFail(k) => Broken(k)
    case ReadEnd => WriteEnd
    case WriteEnd => Returned
    case _ => pc
  }

  function Line(k: nat): Event {
    if k == 0 then SummaryDone else if k == 1 then SocialDone else ApprovalSent
  }

  function KindAt(p: Prog, k: nat): string {
    if Before(p, k) < |Plan(p)| then Plan(p)[Before(p, k)] else ""
  }

  function SetLast(r: Rows, status: Status, result: Option<nat>): Rows
    requires r.tasks != []
  {
    var n := |r.tasks| - 1;
    r.(tasks := r.tasks[n := r.tasks[n].(status := status, result := result)])
  }

  /** What the id-carrying result of a completed task is. */
  function ResultOf(p: Prog, k: nat, mem: Option<nat>, appr: Option<nat>): Option<nat> {
    if p.Commit? && k == 2 then mem
    else if (p.Commit? && k == 3) || (p.Demo? && k == 4) then appr
    else None
  }

  /** What a step that takes effect does to the rows of its workflow `w`; `id` is
      the fresh primary key of an insert. */
  function Effect(p: Prog, pc: Pc, w: nat, id: nat, r: Rows): Rows {
    match pc
    case Create(k) => r.(tids := r.tids + [id], tasks := r.tasks + [Task(w, KindAt(p, k), Running, None)])
    case Complete(k) => if r.tasks == [] then r else SetLast(r, Completed, ResultOf(p, k, r.mem, r.appr))
    case FailTask(k) => if r.tasks == [] then r else SetLast(r, Failed, r.tasks[|r.tasks| - 1].result)
    case Remember => r.(mem := Some(id))
    case Approve => r.(appr := Some(id))
    case WriteLog(k) => r.(log := r.log + [Line(k)])
    case WriteFail(k) => r.(log := r.log + [WorkflowFailed], status := Failed)
    case WriteEnd => r.(log := r.log + [WorkflowDone], status := Completed)
    case _ => r
  }

  /** The reaper's effect on one workflow and its running tasks. */
  function ReapTask(t: Task): Task {
    if t.status == Running then t.(status := Interrupted) else t
  }

  function ReapRows(r: Rows): Rows {
    r.(status := Interrupted, log := r.log + [WorkflowInterrupted],
       tasks := seq(|r.tasks|, i requires 0 <= i < |r.tasks| => ReapTask(r.tasks[i])))
  }

  /** A run of one handler on its own. */
  datatype Ledger = Ledger(prog: Prog, wf: nat, pc: Pc, rows: Rows)

  function Begin(p: Prog, w: nat): Ledger {
    Ledger(p, w, Entry(p), Rows(Running, [Started(p)], [], [], None, None))
  }

  function Advance(l: Ledger, out: Outcome, id: nat): Ledger {
    l.(pc := Next(l.prog, l.pc, out),
       rows := if out == Ok then Effect(l.prog, l.pc, l.wf, id, l.rows) else l.rows)
  }
}
