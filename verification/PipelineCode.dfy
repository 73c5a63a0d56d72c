/** The two job handlers, the approval gateway and the reaper as the program writes
    them: transactions on shared tables, try and except. Proved against Handlers.Drive,
    so the program points of Programs are exactly this code's control flow. */
module PipelineCode {
  import opened Common
  import opened Programs
  import opened Tables
  import opened Handlers
  import Dedup
  import Decimal
  import RedisQueue
  import Runtime

  /** How a call of a handler ends. */
  datatype Ending = Done(workflow: nat, approval: nat) | Skipped(answer: Runtime.Answer) | Raised

  /** How the steps before the first await of the pipeline proper end, and what other
      Redis clients do before the GET of a lost claim and before the attach. */
  datatype Opening = Opening(
    setNx: Outcome, beforeGet: seq<Dedup.Cmd>, get: Outcome, insert: Outcome, beforeAttach: seq<Dedup.Cmd>)

  /** The tables and the handler right after the workflow row is inserted. */
  function Inserted(x: World, p: Prog, now: nat): World {
    World(InsertWorkflow(x.db, x.serial, p, now), x.serial + 1, x.tape)
  }

  class Postgres {
    var db: Db
    var serial: nat
    var tape: seq<Fate>

    constructor (db: Db, serial: nat, tape: seq<Fate>)
      ensures Now() == World(db, serial, tape)
    {
      this.db, this.serial, this.tape := db, serial, tape;
    }

    function Now(): World
      reads this
    {
      World(db, serial, tape)
    }

    /** An await: the others run, then this coroutine learns how its step ends. */
    method Await() returns (fate: Fate)
      modifies this
      ensures fate == Fated(old(tape)) && Now() == Met(old(Now()))
    {
      if tape == [] {
        return Fate(EMPTY, 0, Ok, "");
      }
      fate := tape[0];
      db, serial, tape := fate.next, fate.serial, tape[1..];
    }

    // ------------------------------------------------------------------------
    // The transactions
    // ------------------------------------------------------------------------

    /** Here and below `f` is the handler's frame before the call and `g` after it. */
    method CreateTask(w: nat, kind: string, ghost f: Frame) returns (tid: Option<nat>, ghost g: Frame)
      requires f.pc.Create? && ValidPc(f.prog, f.pc) && f.wf == w && kind == KindAt(f.prog, f.pc.k)
      modifies this
      ensures Follows(old(Now()), f, Now(), g)
      ensures g.pc == Next(f.prog, f.pc, if tid.Some? then Ok else Raise)
      ensures tid.Some? ==> g.tid == tid.value
      ensures tid.Some? ==> tid.value in db.tasks && db.tasks[tid.value] == Task(w, kind, Running, None)
    {
      ghost var x := Now();
      OneFollows(x, f);
      var fate := Await();
      g := One(x, f).1;
      if fate.out != Ok {
        return None, g;
      }
      db := db.(tasks := db.tasks[serial := Task(w, kind, Running, None)]);
      tid, serial := Some(serial), serial + 1;
    }

    method CompleteTask(w: nat, tid: nat, result: Option<nat>, ghost f: Frame) returns (ok: bool, ghost g: Frame)
      requires f.pc.Complete? && ValidPc(f.prog, f.pc) && f.wf == w && f.tid == tid
      requires result == ResultOf(f.prog, f.pc.k, Some(f.mem), Some(f.appr))
      modifies this
      ensures Follows(old(Now()), f, Now(), g)
      ensures g.pc == Next(f.prog, f.pc, if ok then Ok else Raise) && g.tid == tid && g.appr == f.appr
      ensures ok ==> tid in db.tasks && db.tasks[tid].status == Completed && db.tasks[tid].result == result
    {
      ghost var x := Now();
      OneFollows(x, f);
      var fate := Await();
      g := One(x, f).1;
      ok := fate.out == Ok && tid in db.tasks;
      if ok {
        var t := db.tasks[tid];
        db := db.(tasks := db.tasks[tid := t.(status := Completed, result := result)]);
      }
    }

    method FailTask(w: nat, tid: nat, ghost f: Frame) returns (ok: bool, ghost g: Frame)
      requires f.pc.FailTask? && ValidPc(f.prog, f.pc) && f.wf == w && f.tid == tid
      modifies this
      ensures Follows(old(Now()), f, Now(), g)
      ensures g.pc == Next(f.prog, f.pc, if ok then Ok else Raise)
      ensures ok ==> tid in db.tasks && db.tasks[tid].status == Failed
    {
      ghost var x := Now();
      OneFollows(x, f);
      var fate := Await();
      g := One(x, f).1;
      ok := fate.out == Ok && tid in db.tasks;
      if ok {
        var t := db.tasks[tid];
        db := db.(tasks := db.tasks[tid := t.(status := Failed)]);
      }
    }

    /** A step outside the tables: an LLM call, a subprocess. */
    method Outside(ghost f: Frame) returns (out: Outcome, ghost g: Frame)
      requires f.pc.Body? && ValidPc(f.prog, f.pc)
      modifies this
      ensures Follows(old(Now()), f, Now(), g)
      ensures g == f.(pc := Next(f.prog, f.pc, out))
    {
      ghost var x := Now();
      OneFollows(x, f);
      var fate := Await();
      g, out := One(x, f).1, fate.out;
    }

    /** The reading half of a log append. */
    method ReadLogs(w: nat, ghost f: Frame) returns (snap: Option<seq<Event>>, ghost g: Frame)
      requires f.pc.ReadLog? || f.pc.ReadFail? || f.pc.ReadEnd?
      requires ValidPc(f.prog, f.pc) && f.wf == w
      modifies this
      ensures Follows(old(Now()), f, Now(), g)
      ensures g.pc == Next(f.prog, f.pc, if snap.Some? then Ok else Raise) && g.tid == f.tid && g.appr == f.appr
      ensures snap.Some? ==> g.snap == snap.value
      ensures snap.Some? ==> w in db.wfs && snap.value == db.wfs[w].log
    {
      ghost var x := Now();
      OneFollows(x, f);
      var fate := Await();
      g := One(x, f).1;
      snap := if fate.out == Ok && w in db.wfs then Some(db.wfs[w].log) else None;
    }

    /** The writing half: the log read earlier with one more entry. */
    method WriteLogs(w: nat, snap: seq<Event>, entry: Event, status: Option<Status>, ghost f: Frame)
      returns (ok: bool, ghost g: Frame)
      requires ValidPc(f.prog, f.pc) && f.wf == w && f.snap == snap
      requires match f.pc
        case WriteLog(k) => entry == Line(k) && status == None
        case WriteFail(_) => entry == WorkflowFailed && status == Some(Failed)
        case WriteEnd => entry == WorkflowDone && status == Some(Completed)
        case _ => false
      modifies this
      ensures Follows(old(Now()), f, Now(), g)
      ensures g.pc == Next(f.prog, f.pc, if ok then Ok else Raise) && g.tid == f.tid && g.appr == f.appr
      ensures ok ==> w in db.wfs && db.wfs[w].log == snap + [entry] && (status.Some? ==> db.wfs[w].status == status.value)
    {
      ghost var x := Now();
      OneFollows(x, f);
      var fate := Await();
      g := One(x, f).1;
      ok := fate.out == Ok && w in db.wfs;
      if ok {
        var row := db.wfs[w].(log := snap + [entry]);
        if status.Some? {
          row := row.(status := status.value);
        }
        db := db.(wfs := db.wfs[w := row]);
      }
    }

    /** One transaction that reads the row's log, and later writes it back with one
        more entry; others run in between. Used by _append_log, _fail_workflow and the
        closing transaction. */
    method AppendLog(w: nat, entry: Event, status: Option<Status>, ghost f: Frame) returns (ok: bool, ghost g: Frame)
      requires f.wf == w && ValidPc(f.prog, f.pc)
      requires match f.pc
        case ReadLog(k) => entry == Line(k) && status == None
        case ReadFail(_) => entry == WorkflowFailed && status == Some(Failed)
        case ReadEnd => entry == WorkflowDone && status == Some(Completed)
        case _ => false
      modifies this
      ensures Follows(old(Now()), f, Now(), g) && g.tid == f.tid && g.appr == f.appr
      ensures var half := NextOk(f.prog, f.pc);
        if ok then g.pc == NextOk(f.prog, half)
        else g.pc == Next(f.prog, f.pc, Raise) || g.pc == Next(f.prog, half, Raise)
    {
      hide Drive;
      var snap: Option<seq<Event>>;
      snap, g := ReadLogs(w, f);
      if snap.None? {
        return false, g;
      }
      ok, g := WriteLogs(w, snap.value, entry, status, g);
    }

    method InsertApproval(w: nat, task: nat, ghost f: Frame) returns (approval: Option<nat>, ghost g: Frame)
      requires f.pc == Approve && f.wf == w && f.tid == task
      modifies this
      ensures Follows(old(Now()), f, Now(), g) && g.tid == task
      ensures g.pc == Next(f.prog, Approve, if approval.Some? then Ok else Raise)
      ensures approval.Some? ==> g.appr == approval.value
      ensures approval.Some? ==> approval.value in db.apprs && db.apprs[approval.value] == Approval(w, task, None, None)
    {
      ghost var x := Now();
      OneFollows(x, f);
      var fate := Await();
      g := One(x, f).1;
      if fate.out != Ok {
        return None, g;
      }
      db := db.(apprs := db.apprs[serial := Approval(w, task, None, None)]);
      approval, serial := Some(serial), serial + 1;
    }

    method StampDelivered(approval: nat, ghost f: Frame) returns (ok: bool, ghost g: Frame)
      requires f.pc == Delivered && f.appr == approval
      modifies this
      ensures Follows(old(Now()), f, Now(), g) && g.tid == f.tid && g.appr == approval
      ensures g.pc == Next(f.prog, Delivered, if ok then Ok else Raise)
      ensures ok ==> approval in db.apprs && db.apprs[approval].delivered == Channels(Fated(old(tape)).text)
    {
      ghost var x := Now();
      OneFollows(x, f);
      var fate := Await();
      g := One(x, f).1;
      ok := fate.out == Ok && approval in db.apprs;
      if ok {
        var row := db.apprs[approval];
        db := db.(apprs := db.apprs[approval := row.(delivered := Channels(fate.text))]);
      }
    }

    /** ApprovalGateway.send: the row is committed before anything is delivered, and
        updated afterwards with the channels that took it. */
    method Send(w: nat, task: nat, ghost f: Frame) returns (approval: Option<nat>, ghost g: Frame)
      requires f.pc == Approve && f.wf == w && f.tid == task
      modifies this
      ensures Follows(old(Now()), f, Now(), g) && g.tid == task
      ensures if approval.Some? then g.pc == NextOk(f.prog, Delivered) && g.appr == approval.value
        else g.pc == Next(f.prog, Approve, Raise) || g.pc == Next(f.prog, Delivered, Raise)
    {
      hide Drive;
      approval, g := InsertApproval(w, task, f);
      if approval.None? {
        return;
      }
      var ok;
      ok, g := StampDelivered(approval.value, g);
      if !ok {
        approval := None;
      }
    }

    /** ApprovalGateway.decide, from the dashboard: any known row, any number of times. */
    method Decide(approval: nat, decision: string) returns (known: Option<bool>)
      modifies this`db
      ensures known.None? <==> decision !in {"approved", "rejected"}
      ensures known.Some? ==> known.value == (approval in old(db).apprs)
      ensures if known == Some(true)
        then db == old(db).(apprs := old(db).apprs[approval := old(db).apprs[approval].(decision := Some(decision))])
        else db == old(db)
      ensures db == Runtime.DecideStep(old(db), approval, decision)
    {
      if decision != "approved" && decision != "rejected" {
        return None;
      }
      if approval !in db.apprs {
        return Some(false);
      }
      var row := db.apprs[approval];
      db := db.(apprs := db.apprs[approval := row.(decision := Some(decision))]);
      known := Some(true);
    }

    // ------------------------------------------------------------------------
    // _run_pipeline_steps
    // ------------------------------------------------------------------------

    /** The except block of a stage. It always re-raises. */
    method FailOut(w: nat, tid: nat, ghost f: Frame) returns (ghost g: Frame)
      requires f.pc.FailTask? && ValidPc(f.prog, f.pc) && f.wf == w && f.tid == tid
      requires f.prog.Demo? ==> f.pc.k != 2
      modifies this
      ensures Follows(old(Now()), f, Now(), g)
      ensures Ended(g.pc) && !g.pc.Returned?
    {
      hide Drive;
      var ok;
      ok, g := FailTask(w, tid, f);
      if ok {
        ok, g := AppendLog(w, WorkflowFailed, Some(Failed), g);
      }
    }

    /** The try block of the two LLM stages, after the task row: the call, its
        completion, the log line. */
    method TryLlm(w: nat, tid: nat, k: nat, ghost f: Frame) returns (ok: bool, ghost g: Frame)
      requires f.prog.Commit? && k < 2 && f.pc == Body(k) && f.wf == w && f.tid == tid
      modifies this
      ensures Follows(old(Now()), f, Now(), g) && g.tid == tid
      ensures g.pc == if ok then Create(k + 1) else Pc.FailTask(k)
    {
      hide Drive;
      var out;
      out, g := Outside(f);
      if out != Ok {
        return false, g;
      }
      ok, g := CompleteTask(w, tid, None, g);
      if ok {
        ok, g := AppendLog(w, Line(k), None, g);
      }
    }

    method LlmStage(w: nat, k: nat, kind: string, ghost f: Frame) returns (ok: bool, ghost g: Frame)
      requires f.prog.Commit? && k < 2 && f.pc == Create(k) && f.wf == w && kind == KindAt(f.prog, k)
      modifies this
      ensures Follows(old(Now()), f, Now(), g)
      ensures if ok then g.pc == Create(k + 1) else Ended(g.pc) && !g.pc.Returned?
    {
      hide Drive;
      var tid;
      tid, g := CreateTask(w, kind, f);
      if tid.None? {
        return false, g;
      }
      ok, g := TryLlm(w, tid.value, k, g);
      if !ok {
        g := FailOut(w, tid.value, g);
      }
    }

    method InsertMemory(w: nat, p: Prog, ghost f: Frame) returns (memory: Option<nat>, content: string, ghost g: Frame)
      requires f.prog == p && f.pc == Remember && f.wf == w
      modifies this
      ensures Follows(old(Now()), f, Now(), g) && g.tid == f.tid
      ensures g.pc == Next(f.prog, Remember, if memory.Some? then Ok else Raise)
      ensures memory.Some? ==> g.mem == memory.value && g.content == content
      ensures memory.Some? ==> memory.value in db.mems && db.mems[memory.value] == Memory(p, content, None, w)
    {
      ghost var x := Now();
      OneFollows(x, f);
      var fate := Await();
      g, content := One(x, f).1, fate.text;
      if fate.out != Ok {
        return None, content, g;
      }
      db := db.(mems := db.mems[serial := Memory(p, content, None, w)]);
      memory, serial := Some(serial), serial + 1;
    }

    method UpsertVector(id: string, content: string, ghost f: Frame) returns (ok: bool, ghost g: Frame)
      requires f.pc == Upsert && ValidPc(f.prog, f.pc) && id == VectorId(f.prog) && f.content == content
      modifies this
      ensures Follows(old(Now()), f, Now(), g)
      ensures g == f.(pc := Next(f.prog, Upsert, if ok then Ok else Raise))
      ensures ok ==> id in db.vectors && db.vectors[id] == content
    {
      ghost var x := Now();
      OneFollows(x, f);
      var fate := Await();
      g := One(x, f).1;
      ok := fate.out == Ok;
      if ok {
        db := db.(vectors := db.vectors[id := content]);
      }
    }

    method StampMemory(memory: nat, id: string, ghost f: Frame) returns (ghost g: Frame)
      requires f.pc == Stamp && ValidPc(f.prog, f.pc) && id == VectorId(f.prog) && f.mem == memory
      modifies this
      ensures Follows(old(Now()), f, Now(), g)
      ensures g == f.(pc := Complete(2))
    {
      ghost var x := Now();
      OneFollows(x, f);
      var fate := Await();
      g := One(x, f).1;
      if fate.out == Ok && memory in db.mems {
        var row := db.mems[memory];
        db := db.(mems := db.mems[memory := row.(embedding := Some(id))]);
      }
    }

    /** The try block of the save stage. Indexing is best effort: its own try swallows
        whatever it raises. */
    method TrySave(w: nat, tid: nat, key: Key, ghost f: Frame) returns (ok: bool, ghost g: Frame)
      requires f.prog == Commit(key) && f.pc == Remember && f.wf == w && f.tid == tid
      modifies this
      ensures Follows(old(Now()), f, Now(), g) && g.tid == tid
      ensures g.pc == if ok then Create(3) else Pc.FailTask(2)
    {
      hide Drive;
      var memory, content;
      memory, content, g := InsertMemory(w, Commit(key), f);
      if memory.None? {
        return false, g;
      }
      var id := "commit:" + key.sha;
      ok, g := UpsertVector(id, content, g);
      if ok {
        g := StampMemory(memory.value, id, g);
      }
      ok, g := CompleteTask(w, tid, memory, g);
    }

    method SaveStage(w: nat, key: Key, ghost f: Frame) returns (ok: bool, ghost g: Frame)
      requires f.prog == Commit(key) && f.pc == Create(2) && f.wf == w
      modifies this
      ensures Follows(old(Now()), f, Now(), g)
      ensures if ok then g.pc == Create(3) else Ended(g.pc) && !g.pc.Returned?
    {
      hide Drive;
      var tid;
      tid, g := CreateTask(w, "save", f);
      if tid.None? {
        return false, g;
      }
      ok, g := TrySave(w, tid.value, key, g);
      if !ok {
        g := FailOut(w, tid.value, g);
      }
    }

    method TryApproval(w: nat, tid: nat, ghost f: Frame) returns (approval: Option<nat>, ghost g: Frame)
      requires f.prog.Commit? && f.pc == Approve && f.wf == w && f.tid == tid
      modifies this
      ensures Follows(old(Now()), f, Now(), g) && g.tid == tid
      ensures if approval.Some? then g.pc == ReadEnd && g.appr == approval.value else g.pc == Pc.FailTask(3)
    {
      hide Drive;
      approval, g := Send(w, tid, f);
      if approval.None? {
        return;
      }
      var ok;
      ok, g := CompleteTask(w, tid, approval, g);
      if ok {
        ok, g := AppendLog(w, ApprovalSent, None, g);
      }
      if !ok {
        approval := None;
      }
    }

    method ApprovalStage(w: nat, ghost f: Frame) returns (approval: Option<nat>, ghost g: Frame)
      requires f.prog.Commit? && f.pc == Create(3) && f.wf == w
      modifies this
      ensures Follows(old(Now()), f, Now(), g)
      ensures if approval.Some? then g.pc == ReadEnd && g.appr == approval.value
        else Ended(g.pc) && !g.pc.Returned?
    {
      hide Drive;
      var tid;
      tid, g := CreateTask(w, "request_approval", f);
      if tid.None? {
        return None, g;
      }
      approval, g := TryApproval(w, tid.value, g);
      if approval.None? {
        g := FailOut(w, tid.value, g);
      }
    }

    /** _run_pipeline_steps. None stands for an exception. */
    method RunPipelineSteps(w: nat, key: Key, ghost f: Frame) returns (approval: Option<nat>, ghost g: Frame)
      requires f.prog == Commit(key) && f.pc == Create(0) && f.wf == w
      modifies this
      ensures Follows(old(Now()), f, Now(), g) && Ended(g.pc)
      ensures approval == if g.pc.Returned? then Some(g.appr) else None
    {
      hide Drive;
      var ok;
      ok, g := LlmStage(w, 0, "summarize", f);
      if !ok {
        return None, g;
      }
      ok, g := LlmStage(w, 1, "draft_social", g);
      if !ok {
        return None, g;
      }
      ok, g := SaveStage(w, key, g);
      if !ok {
        return None, g;
      }
      approval, g := ApprovalStage(w, g);
      if approval.None? {
        return;
      }
      ok, g := AppendLog(w, WorkflowDone, Some(Completed), g);
      if !ok {
        approval := None;
      }
    }

    // ------------------------------------------------------------------------
    // run_commit_pipeline
    // ------------------------------------------------------------------------

    method InsertWorkflowRow(p: Prog, now: nat) returns (w: nat)
      modifies this
      ensures w == old(serial) && Now() == Inserted(old(Now()), p, now)
      ensures w in db.wfs && db.wfs[w].status == Running && db.wfs[w].log == [Started(p)] && db.wfs[w].created == now
      ensures db == old(db).(wfs := old(db).wfs[w := db.wfs[w]]) && serial == old(serial) + 1 && tape == old(tape)
    {
      w := serial;
      db := db.(wfs := db.wfs[w := Workflow(Running, [Started(p)], now)]);
      serial := serial + 1;
    }

    /** dedup_attach, unconditional: it overwrites whatever claim is there by now. */
    method Attach(guard: Dedup.Guard, key: Key, w: nat, before: seq<Dedup.Cmd>, ghost f: Frame)
      returns (ok: bool, ghost g: Frame)
      requires f.prog == Commit(key) && f.pc == Pc.Attach
      modifies this, guard
      ensures Follows(old(Now()), f, Now(), g)
      ensures g.pc == Next(f.prog, Pc.Attach, if ok then Ok else Raise)
      ensures guard.store ==
        var st := Dedup.Run(old(guard.store), before, guard.ttl);
        if Fated(old(tape)).out == Raise then st
        else Dedup.Apply(st, Dedup.Attach(key, Decimal.Show(w)), guard.ttl)
    {
      ghost var x := Now();
      OneFollows(x, f);
      var fate := Await();
      g := One(x, f).1;
      guard.store := Dedup.Run(guard.store, before, guard.ttl);
      if fate.out != Raise {
        guard.AttachWorkflowId(key, Decimal.Show(w));
      }
      ok := fate.out == Ok;
    }

    /** A commit job. A lost claim writes nothing and answers with whatever the claim
        holds when it is read; a won one drives a new workflow to its end. */
    method RunCommitPipeline(guard: Dedup.Guard, payload: RedisQueue.Payload, o: Opening) returns (r: Ending)
      modifies this, guard
      ensures payload.repo.None? || payload.sha.None? || o.setNx == Raise ==>
        r == Raised && Now() == old(Now()) && guard.store == old(guard.store)
      ensures payload.repo.Some? && payload.sha.Some? && o.setNx != Raise ==>
        var k := Key(payload.repo.value, payload.sha.value);
        if Dedup.Live(old(guard.store), k) then
          && Now() == old(Now())
          && (o.setNx == Ok && o.get == Ok ==>
                && guard.store == Dedup.Run(old(guard.store), o.beforeGet, guard.ttl)
                && r == Skipped(Runtime.SkipAnswer(k, Dedup.Get(guard.store, k))))
          && (o.setNx != Ok || o.get != Ok ==> r == Raised)
        else if o.setNx != Ok || o.insert != Ok then
          && r == Raised && Now() == old(Now())
          && guard.store == Dedup.Apply(old(guard.store), Dedup.SetNx(k), guard.ttl)
        else
          var (y, g) := Drive(Inserted(old(Now()), Commit(k), old(guard.store.now)), NewFrame(Commit(k), old(serial)));
          && Now() == y && r == (if g.pc.Returned? then Done(old(serial), g.appr) else Raised)
          && guard.store ==
            var claimed := Dedup.Run(Dedup.Apply(old(guard.store), Dedup.SetNx(k), guard.ttl), o.beforeAttach, guard.ttl);
            if Fated(old(tape)).out == Raise then claimed
            else Dedup.Apply(claimed, Dedup.Attach(k, Decimal.Show(old(serial))), guard.ttl)
    {
      hide Drive;
      if payload.repo.None? || payload.sha.None? || o.setNx == Raise {
        return Raised;
      }
      var k := Key(payload.repo.value, payload.sha.value);
      var claim := guard.Acquire(k, o.beforeGet);
      if o.setNx != Ok || (!claim.acquired && o.get != Ok) {
        return Raised;
      }
      if !claim.acquired {
        return Skipped(Runtime.SkipAnswer(k, claim.existing));
      }
      if o.insert != Ok {
        return Raised;
      }
      var w := InsertWorkflowRow(Commit(k), guard.store.now);
      ghost var g := NewFrame(Commit(k), w);
      var ok;
      ok, g := Attach(guard, k, w, o.beforeAttach, g);
      if !ok {
        EndedIsEnd(Now(), g);
        return Raised;
      }
      var approval;
      approval, g := RunPipelineSteps(w, k, g);
      EndedIsEnd(Now(), g);
      r := if approval.Some? then Done(w, approval.value) else Raised;
    }

    // ------------------------------------------------------------------------
    // run_demo_forge_request
    // ------------------------------------------------------------------------

    /** A stage of the demo that runs make, or builds the manifest. A bad exit fails
        the task, and the workflow with it unless it was the MP4 render. */
    method MakeStage(w: nat, k: nat, kind: string, ghost f: Frame) returns (ok: bool, ghost g: Frame)
      requires f.prog.Demo? && k < 4 && ValidStage(f.prog, k)
      requires f.pc == Create(k) && f.wf == w && kind == KindAt(f.prog, k)
      modifies this
      ensures Follows(old(Now()), f, Now(), g)
      ensures if ok then g.pc == NextOk(f.prog, Complete(k)) else Ended(g.pc) && !g.pc.Returned?
    {
      hide Drive;
      var tid, out;
      tid, g := CreateTask(w, kind, f);
      if tid.None? {
        return false, g;
      }
      out, g := Outside(g);
      if out == Ok {
        ok, g := CompleteTask(w, tid.value, None, g);
      } else if out == Raise {
        ok := false;
      } else if k == 2 {
        ok, g := FailTask(w, tid.value, g);
      } else {
        g := FailOut(w, tid.value, g);
        ok := false;
      }
    }

    method MakeStages(w: nat, skipRender: bool, ghost f: Frame) returns (ok: bool, ghost g: Frame)
      requires f.prog.Demo? && f.prog.skipRender == skipRender && f.pc == Create(0) && f.wf == w
      modifies this
      ensures Follows(old(Now()), f, Now(), g)
      ensures if ok then g.pc == Remember else Ended(g.pc) && !g.pc.Returned?
    {
      hide Drive;
      ok, g := MakeStage(w, 0, "check_tools", f);
      if !ok {
        return;
      }
      ok, g := MakeStage(w, 1, "capture", g);
      if !ok {
        return;
      }
      if !skipRender {
        ok, g := MakeStage(w, 2, "render_mp4", g);
        if !ok {
          return;
        }
      }
      ok, g := MakeStage(w, 3, "manifest", g);
    }

    method ApproveStage(w: nat, ghost f: Frame) returns (approval: Option<nat>, ghost g: Frame)
      requires f.prog.Demo? && f.pc == Create(4) && f.wf == w
      modifies this
      ensures Follows(old(Now()), f, Now(), g)
      ensures if approval.Some? then g.pc == ReadEnd && g.appr == approval.value
        else Ended(g.pc) && !g.pc.Returned?
    {
      hide Drive;
      var tid, ok;
      tid, g := CreateTask(w, "approve", f);
      if tid.None? {
        return None, g;
      }
      approval, g := Send(w, tid.value, g);
      if approval.None? {
        return;
      }
      ok, g := CompleteTask(w, tid.value, approval, g);
      if !ok {
        approval := None;
      }
    }

    /** _run_steps. */
    method RunSteps(w: nat, p: Prog, ghost f: Frame) returns (approval: Option<nat>, ghost g: Frame)
      requires p.Demo? && f.prog == p && f.pc == Create(0) && f.wf == w
      modifies this
      ensures Follows(old(Now()), f, Now(), g) && Ended(g.pc)
      ensures approval == if g.pc.Returned? then Some(g.appr) else None
    {
      hide Drive;
      var ok, memory, content;
      ok, g := MakeStages(w, p.skipRender, f);
      if !ok {
        return None, g;
      }
      memory, content, g := InsertMemory(w, p, g);
      if memory.None? {
        return None, g;
      }
      approval, g := ApproveStage(w, g);
      if approval.None? {
        return;
      }
      ok, g := AppendLog(w, WorkflowDone, Some(Completed), g);
      if !ok {
        approval := None;
      }
    }

    /** A demo job. Nothing is written for an unknown scenario or when demo-forge has
        no Makefile. */
    method RunDemoForgeRequest(payload: RedisQueue.Payload, makefile: bool, insert: Outcome, now: nat) returns (r: Ending)
      modifies this
      ensures payload.scenario !in {"001", "002", "003"} || !makefile || insert != Ok ==>
        r == Raised && Now() == old(Now())
      ensures payload.scenario in {"001", "002", "003"} && makefile && insert == Ok ==>
        var p := Demo(payload.scenario, payload.skipRender);
        var (y, g) := Drive(Inserted(old(Now()), p, now), NewFrame(p, old(serial)));
        Now() == y && r == if g.pc.Returned? then Done(old(serial), g.appr) else Raised
    {
      hide Drive;
      if payload.scenario !in {"001", "002", "003"} || !makefile || insert != Ok {
        return Raised;
      }
      var p := Demo(payload.scenario, payload.skipRender);
      var w := InsertWorkflowRow(p, now);
      var approval;
      ghost var g;
      approval, g := RunSteps(w, p, NewFrame(p, w));
      EndedIsEnd(Now(), g);
      r := if approval.Some? then Done(w, approval.value) else Raised;
    }
  }

  lemma EndedIsEnd(x: World, f: Frame)
    requires ValidPc(f.prog, f.pc) && Ended(f.pc)
    ensures Drive(x, f) == (x, f)
  {
  }
}
