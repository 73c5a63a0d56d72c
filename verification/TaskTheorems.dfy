/** What becomes of a completed task: over every safe run, exactly when it is turned
    into a failed one. */
module TaskTheorems {
  import opened Common
  import opened Programs
  import opened ProgramProofs
  import opened Tables
  import opened TablesProofs
  import opened Runtime
  import opened RuntimeClaims
  import opened RuntimeOwners
  import opened RuntimeRows
  import opened RowTheorems
  import opened Interference
  import UnsafeStarts

  predicate AtTask(s: State, x: nat, t: nat) {
    Busy(s, x) && s.workers[x].act.frame.tid == t
  }

  /** The except block of a handler fails its task `t`. */
  predicate Undoes(s: State, l: Label, t: nat) {
    l.Work? && l.out == Ok && AtTask(s, l.x, t) && s.workers[l.x].act.frame.pc.FailTask?
  }

  /** The log append after the completion of task `t` raises. */
  predicate AppendRaises(s: State, l: Label, t: nat) {
    l.Work? && l.out != Ok && AtTask(s, l.x, t)
    && (s.workers[l.x].act.frame.pc.ReadLog? || s.workers[l.x].act.frame.pc.WriteLog?)
  }

  // --------------------------------------------------------------------------
  // One step
  // --------------------------------------------------------------------------

  lemma ExecTask(db: Db, f: Frame, id: nat, text: string, t: nat)
    requires t in db.tasks && FreshFor(db, f.pc, id)
    ensures var db' := Exec(db, f, id, text);
      && t in db'.tasks && db'.tasks[t].wf == db.tasks[t].wf
      && db'.tasks[t].status ==
           if f.pc.FailTask? && f.tid == t then Failed
           else if f.pc.Complete? && f.tid == t then Completed
           else db.tasks[t].status
  {
    match f.pc
    case Create(_) =>
    case Complete(_) =>
    case FailTask(_) =>
    case _ =>
      hide Exec;
      OneTable(db, f, id, text);
  }

  /** The status a task has after a step. */
  function StatusAfter(s: State, l: Label, t: nat, reaped: bool): Status
    requires t in s.db.tasks
  {
    if reaped && s.db.tasks[t].status == Running then Interrupted
    else if Undoes(s, l, t) then Failed
    else if l.Work? && l.out == Ok && AtTask(s, l.x, t) && s.workers[l.x].act.frame.pc.Complete? then Completed
    else s.db.tasks[t].status
  }

  lemma TaskStep(cfg: Config, s: State, l: Label, t: nat)
    requires RowsOk(s) && Enabled(s, l) && t in s.db.tasks
    ensures var db' := Step(cfg, s, l).db;
      && t in db'.tasks && db'.tasks[t].wf == s.db.tasks[t].wf
      && db'.tasks[t].status
         == StatusAfter(s, l, t, l.Start? && Stale(s.db, s.db.tasks[t].wf, s.claims.now, cfg.maxAge))
  {
    hide PipeStep, DispatchStep, WonStep, MissedStep, PushStep, RowsOk, Exec;
    if l.Work? {
      if Busy(s, l.x) {
        HandlerIsKnown(s, l.x);
        PipeTask(cfg, s, l.x, l.out, l.id, l.text, t);
      } else {
        WorkEarly(cfg, s, l);
      }
    }
  }

  lemma HandlerIsKnown(s: State, x: nat)
    requires RowsOk(s) && Busy(s, x)
    ensures s.workers[x].act.frame.wf in s.ledgers
  {
    assert HandlerOk(s, x);
  }

  lemma PipeTask(cfg: Config, s: State, x: nat, out: Outcome, id: nat, text: string, t: nat)
    requires Busy(s, x) && x in s.jobs.hands && t in s.db.tasks && s.workers[x].act.frame.wf in s.ledgers
    requires FreshFor(s.db, s.workers[x].act.frame.pc, id)
    ensures var InPipe(f, win, att) := s.workers[x].act;
      var db' := PipeStep(cfg, s, x, f, win, att, out, id, text).db;
      && t in db'.tasks && db'.tasks[t].wf == s.db.tasks[t].wf
      && db'.tasks[t].status ==
           if out == Ok && f.pc.FailTask? && f.tid == t then Failed
           else if out == Ok && f.pc.Complete? && f.tid == t then Completed
           else s.db.tasks[t].status
  {
    var InPipe(f, win, att) := s.workers[x].act;
    PipeTables(cfg, s, x, f, win, att, out, id, text);
    ExecTask(s.db, f, id, text, t);
    hide PipeStep, Exec;
  }

  /** A task that its handler is about to complete is running, one that it is about to
      fail is running or completed, one whose completion it is logging is completed. */
  lemma LastTask(s: State, x: nat)
    requires RowsOk(s) && Busy(s, x)
    ensures var f := s.workers[x].act.frame;
      var stage := StageAt(f.prog, f.pc);
      && ValidPc(f.prog, f.pc) && !Ended(f.pc)
      && (stage.last.Some? ==>
            f.tid in s.db.tasks && s.db.tasks[f.tid].wf == f.wf && s.db.tasks[f.tid].status in stage.last.value)
  {
    HandlerOwns(s, x);
    var f := s.workers[x].act.frame;
    var l := s.ledgers[f.wf].led;
    assert l.pc == f.pc && l.prog == f.prog;
    LastRow(s.db, f, l);
  }

  lemma LastRow(db: Db, f: Frame, l: Ledger)
    requires LedgerInv(l) && Owns(db, f, l)
    ensures var stage := StageAt(f.prog, f.pc);
      stage.last.Some? ==>
        f.tid in db.tasks && db.tasks[f.tid].wf == f.wf && db.tasks[f.tid].status in stage.last.value
  {
    hide StageAt, Ready, ValidPc;
    var stage := StageAt(f.prog, f.pc);
    if stage.last.Some? {
      assert l.rows.tasks[stage.n - 1].status in stage.last.value;
      assert db.tasks[l.rows.tids[stage.n - 1]] == l.rows.tasks[stage.n - 1];
    }
  }

  /** A completed task is completed after a safe step, unless it is the step of its
      handler's except block that fails it. */
  lemma CompletedStep(cfg: Config, s: State, l: Label, t: nat)
    requires RowsGood(cfg, s) && Enabled(s, l) && t in s.db.tasks && s.db.tasks[t].status == Completed
    ensures var db' := Step(cfg, s, l).db;
      && t in db'.tasks
      && (db'.tasks[t].status != Completed <==> Undoes(s, l, t))
      && (Undoes(s, l, t) ==> db'.tasks[t].status == Failed)
  {
    hide Step, Enabled, Stale;
    TaskStep(cfg, s, l, t);
  }

  /** A failed task stays failed. */
  lemma FailedStep(cfg: Config, s: State, l: Label, t: nat)
    requires RowsGood(cfg, s) && Enabled(s, l) && t in s.db.tasks && s.db.tasks[t].status == Failed
    ensures var db' := Step(cfg, s, l).db; t in db'.tasks && db'.tasks[t].status == Failed
  {
    hide Step, Enabled, Stale, Owners, RowsOk, StageAt;
    TaskStep(cfg, s, l, t);
    if l.Work? && AtTask(s, l.x, t) && s.workers[l.x].act.frame.pc.Complete? {
      LastTask(s, l.x);
      CompletesRunning(s.workers[l.x].act.frame.prog, s.workers[l.x].act.frame.pc);
    }
  }

  lemma CompletesRunning(p: Prog, pc: Pc)
    requires pc.Complete?
    ensures StageAt(p, pc).last == Some({Running})
  {
  }

  lemma WorkIsPipe(cfg: Config, s: State, l: Label)
    requires Enabled(s, l) && l.Work? && Busy(s, l.x)
    ensures l.x in s.jobs.hands
    ensures var InPipe(f, win, att) := s.workers[l.x].act;
      Step(cfg, s, l) == PipeStep(cfg, s, l.x, f, win, att, l.out, l.id, l.text)
  {
    hide PipeStep;
  }

  // --------------------------------------------------------------------------
  // How a handler gets to fail a completed task
  // --------------------------------------------------------------------------

  /** A handler is about to fail the completed task `t`. */
  ghost predicate Doomed(s: State, t: nat) {
    t in s.db.tasks && s.db.tasks[t].status == Completed
    && exists x :: AtTask(s, x, t) && s.workers[x].act.frame.pc.FailTask?
  }

  /** An except block is entered with the task completed only from the log append. */
  lemma EntersFailTask(p: Prog, pc: Pc, out: Outcome)
    requires ValidPc(p, pc) && !Ended(pc) && Next(p, pc, out).FailTask?
    ensures out != Ok
    ensures StageAt(p, pc).last == Some(if pc.ReadLog? || pc.WriteLog? then {Completed} else {Running})
  {
  }

  lemma AppendGoesToFail(p: Prog, pc: Pc, out: Outcome)
    requires ValidPc(p, pc) && (pc.ReadLog? || pc.WriteLog?) && out != Ok
    ensures p.Commit? && Next(p, pc, out).FailTask? && StageAt(p, pc).last == Some({Completed})
  {
  }

  lemma FailedStepKeepsFrame(cfg: Config, s: State, x: nat, out: Outcome, id: nat, text: string)
    requires Busy(s, x) && x in s.jobs.hands
    ensures var InPipe(f, win, att) := s.workers[x].act;
      var s' := PipeStep(cfg, s, x, f, win, att, out, id, text);
      && (Busy(s', x) ==> s'.workers[x].act.frame.pc == Next(f.prog, f.pc, out))
      && (out != Ok ==> s'.db == s.db && (Busy(s', x) ==> s'.workers[x].act.frame.tid == f.tid))
      && (!Ended(Next(f.prog, f.pc, out)) ==> Busy(s', x) && s'.jobs == s.jobs)
  {
    hide Exec, Next, PipeClaims;
  }

  /** A completed task comes into danger by a raise of its log append, and by nothing
      else; and by every such raise. */
  lemma DoomStep(cfg: Config, s: State, l: Label, t: nat)
    requires RowsGood(cfg, s) && Enabled(s, l)
    ensures Doomed(Step(cfg, s, l), t) ==> Doomed(s, t) || AppendRaises(s, l, t)
    ensures AppendRaises(s, l, t) ==> t in s.db.tasks && s.db.tasks[t].status == Completed && Doomed(Step(cfg, s, l), t)
  {
    GoodIsOk(cfg, s);
    hide Step, Enabled, RowsGood, RowsOk, Apart, Doomed;
    if Doomed(Step(cfg, s, l), t) {
      var x := DoomedHandler(Step(cfg, s, l), t);
      if l.Work? && l.x == x {
        OwnDoom(cfg, s, l, t);
      } else {
        OtherDoom(cfg, s, l, x, t);
      }
    }
    if AppendRaises(s, l, t) {
      RaiseDooms(cfg, s, l, t);
    }
  }

  lemma GoodIsOk(cfg: Config, s: State)
    requires RowsGood(cfg, s)
    ensures RowsOk(s) && Apart(s) && forall x | Busy(s, x) :: x in s.jobs.hands
  {
    OwnersApart(cfg, s);
  }

  lemma DoomedHandler(s: State, t: nat) returns (x: nat)
    requires Doomed(s, t)
    ensures AtTask(s, x, t) && s.workers[x].act.frame.pc.FailTask?
    ensures t in s.db.tasks && s.db.tasks[t].status == Completed
  {
    x :| AtTask(s, x, t) && s.workers[x].act.frame.pc.FailTask?;
  }

  lemma OwnDoom(cfg: Config, s: State, l: Label, t: nat)
    requires RowsOk(s) && Enabled(s, l) && l.Work?
    requires var s' := Step(cfg, s, l);
      && AtTask(s', l.x, t) && s'.workers[l.x].act.frame.pc.FailTask?
      && t in s'.db.tasks && s'.db.tasks[t].status == Completed
    ensures AppendRaises(s, l, t)
  {
    hide Step, Enabled, PipeStep, StageAt, Next, RowsOk;
    if Busy(s, l.x) {
      WorkIsPipe(cfg, s, l);
      var f := s.workers[l.x].act.frame;
      FailedStepKeepsFrame(cfg, s, l.x, l.out, l.id, l.text);
      LastTask(s, l.x);
      EntersFailTask(f.prog, f.pc, l.out);
    } else {
      StartsAtEntry(cfg, s, l);
    }
  }

  lemma StartsAtEntry(cfg: Config, s: State, l: Label)
    requires Enabled(s, l) && l.Work? && !Busy(s, l.x) && Busy(Step(cfg, s, l), l.x)
    ensures Step(cfg, s, l).workers[l.x].act.frame.pc in {Attach, Create(0)}
  {
    WorkEarly(cfg, s, l);
    hide Step, Enabled;
  }

  lemma OtherDoom(cfg: Config, s: State, l: Label, x: nat, t: nat)
    requires RowsOk(s) && Apart(s) && Enabled(s, l) && !(l.Work? && l.x == x)
    requires var s' := Step(cfg, s, l);
      && AtTask(s', x, t) && s'.workers[x].act.frame.pc.FailTask?
      && t in s'.db.tasks && s'.db.tasks[t].status == Completed
    ensures Doomed(s, t)
  {
    hide Step, Enabled, Stale, StageAt, RowsOk;
    OtherIsKept(cfg, s, l, x);
    LastTask(s, x);
    FailsLast(s.workers[x].act.frame.prog, s.workers[x].act.frame.pc);
    TaskStep(cfg, s, l, t);
    if s.db.tasks[t].status != Completed {
      // Only the completion of `t` by another handler could have done it.
      LastTask(s, l.x);
      CompletesRunning(s.workers[l.x].act.frame.prog, s.workers[l.x].act.frame.pc);
    }
  }

  lemma FailsLast(p: Prog, pc: Pc)
    requires pc.FailTask?
    ensures StageAt(p, pc).last == Some({Running, Completed})
  {
  }

  lemma OtherIsKept(cfg: Config, s: State, l: Label, x: nat)
    requires Enabled(s, l) && !(l.Work? && l.x == x) && Busy(Step(cfg, s, l), x)
    ensures Busy(s, x) && Step(cfg, s, l).workers[x] == s.workers[x]
  {
    hide PipeStep, DispatchStep, WonStep, MissedStep, PushStep;
    if l.Work? {
      WorkOnlyWorker(cfg, s, l);
    }
  }

  lemma RaiseDooms(cfg: Config, s: State, l: Label, t: nat)
    requires RowsOk(s) && Enabled(s, l) && AppendRaises(s, l, t)
    ensures t in s.db.tasks && s.db.tasks[t].status == Completed && Doomed(Step(cfg, s, l), t)
    ensures AtTask(Step(cfg, s, l), l.x, t) && Step(cfg, s, l).workers[l.x].act.frame.pc.FailTask?
    ensures Step(cfg, s, l).jobs == s.jobs
  {
    hide Step, Enabled, PipeStep, StageAt, Next, RowsOk;
    var f := s.workers[l.x].act.frame;
    WorkIsPipe(cfg, s, l);
    LastTask(s, l.x);
    AppendGoesToFail(f.prog, f.pc, l.out);
    FailedStepKeepsFrame(cfg, s, l.x, l.out, l.id, l.text);
  }

  // --------------------------------------------------------------------------
  // Runs
  // --------------------------------------------------------------------------

  /** Some step of the run fails the task `t` in an except block. */
  ghost predicate UndoneIn(cfg: Config, s: State, ls: seq<Label>, t: nat)
    requires Possible(cfg, s, ls)
    decreases |ls|
  {
    ls != [] && (Undoes(s, ls[0], t) || UndoneIn(cfg, Step(cfg, s, ls[0]), ls[1..], t))
  }

  /** Some step of the run is a log append of `t` that raises. */
  ghost predicate RaisesIn(cfg: Config, s: State, ls: seq<Label>, t: nat)
    requires Possible(cfg, s, ls)
    decreases |ls|
  {
    ls != [] && (AppendRaises(s, ls[0], t) || RaisesIn(cfg, Step(cfg, s, ls[0]), ls[1..], t))
  }

  lemma {:induction false} FailedStays(cfg: Config, s: State, ls: seq<Label>, t: nat)
    requires Possible(cfg, s, ls) && SafeRun(cfg, s, ls) && RowsGood(cfg, s)
    requires t in s.db.tasks && s.db.tasks[t].status == Failed
    ensures t in Run(cfg, s, ls).db.tasks && Run(cfg, s, ls).db.tasks[t].status == Failed
    decreases |ls|
  {
    if ls != [] {
      hide Step, Enabled, Safe, RowsGood;
      FailedStep(cfg, s, ls[0], t);
      RowsGoodKept(cfg, s, ls[0]);
      FailedStays(cfg, Step(cfg, s, ls[0]), ls[1..], t);
    }
  }

  lemma {:induction false} CompletedRun(cfg: Config, s: State, ls: seq<Label>, t: nat)
    requires Possible(cfg, s, ls) && SafeRun(cfg, s, ls) && RowsGood(cfg, s)
    requires t in s.db.tasks && s.db.tasks[t].status == Completed
    ensures var db' := Run(cfg, s, ls).db;
      t in db'.tasks && db'.tasks[t].status == if UndoneIn(cfg, s, ls, t) then Failed else Completed
    ensures UndoneIn(cfg, s, ls, t) ==> Doomed(s, t) || RaisesIn(cfg, s, ls, t)
    decreases |ls|
  {
    if ls != [] {
      hide Step, Enabled, Safe, RowsGood, Doomed, Undoes, AppendRaises;
      CompletedStep(cfg, s, ls[0], t);
      DoomStep(cfg, s, ls[0], t);
      RowsGoodKept(cfg, s, ls[0]);
      if Undoes(s, ls[0], t) {
        FailedStays(cfg, Step(cfg, s, ls[0]), ls[1..], t);
      } else {
        CompletedRun(cfg, Step(cfg, s, ls[0]), ls[1..], t);
      }
    }
  }

  lemma {:induction false} DoomHasACause(cfg: Config, s: State, ls: seq<Label>, t: nat)
    requires Possible(cfg, s, ls) && SafeRun(cfg, s, ls) && RowsGood(cfg, s) && Doomed(Run(cfg, s, ls), t)
    ensures Doomed(s, t) || RaisesIn(cfg, s, ls, t)
    decreases |ls|
  {
    if ls != [] {
      hide Step, Enabled, Safe, RowsGood, Doomed;
      RowsGoodKept(cfg, s, ls[0]);
      DoomHasACause(cfg, Step(cfg, s, ls[0]), ls[1..], t);
      DoomStep(cfg, s, ls[0], t);
    }
  }

  /** A task once completed is completed or failed ever after, and failed if and only
      if its handler's except block came to fail it; which takes a raise, before or
      after, of the log append that follows the completion. So in every safe
      continuation without such a raise it stays completed. */
  lemma CompletedIsUndoneWhen(cfg: Config, before: seq<Label>, after: seq<Label>, t: nat)
    requires Possible(cfg, INIT, before) && SafeRun(cfg, INIT, before)
    requires var s := Run(cfg, INIT, before);
      && Possible(cfg, s, after) && SafeRun(cfg, s, after)
      && t in s.db.tasks && s.db.tasks[t].status == Completed
    ensures var s := Run(cfg, INIT, before);
      var db' := Run(cfg, s, after).db;
      && t in db'.tasks && db'.tasks[t].status == (if UndoneIn(cfg, s, after, t) then Failed else Completed)
      && (UndoneIn(cfg, s, after, t) ==> RaisesIn(cfg, INIT, before, t) || RaisesIn(cfg, s, after, t))
  {
    hide RowsGood, Run, RaisesIn, UndoneIn, SafeRun;
    ReachableIsRowsGood(cfg, before);
    var s := Run(cfg, INIT, before);
    CompletedRun(cfg, s, after, t);
    if Doomed(s, t) {
      UnsafeInit(cfg);
      DoomHasACause(cfg, INIT, before, t);
      NothingDoomed(t);
    }
  }

  lemma UnsafeInit(cfg: Config)
    ensures RowsGood(cfg, INIT)
  {
    InitOwners(cfg);
  }

  lemma NothingDoomed(t: nat)
    ensures !Doomed(INIT, t)
  {
  }

  /** And every such raise is enough: if the handler's next step goes through, the task
      it had completed is failed. */
  lemma RaiseUndoes(cfg: Config, s: State, x: nat) returns (ls: seq<Label>)
    requires RowsGood(cfg, s) && Busy(s, x) && x in s.jobs.hands
    requires s.workers[x].act.frame.pc.ReadLog? || s.workers[x].act.frame.pc.WriteLog?
    ensures var t := s.workers[x].act.frame.tid;
      && Possible(cfg, s, ls) && SafeRun(cfg, s, ls)
      && t in s.db.tasks && s.db.tasks[t].status == Completed
      && t in Run(cfg, s, ls).db.tasks && Run(cfg, s, ls).db.tasks[t].status == Failed
  {
    hide Step, Enabled, RowsGood, RowsOk, Safe, Apart, Doomed, Possible, SafeRun, Run;
    var t := s.workers[x].act.frame.tid;
    var raise, fail := Work(x, Raise, 0, ""), Work(x, Ok, 0, "");
    ls := [raise, fail];
    GoodIsOk(cfg, s);
    WorkIsEnabled(s, x, Raise);
    RaiseDooms(cfg, s, raise, t);
    var s1 := Step(cfg, s, raise);
    var y := DoomedHandler(s1, t);
    NoStartIsSafe(cfg, s, raise);
    NoStartIsSafe(cfg, s1, fail);
    WorkIsEnabled(s1, x, Ok);
    RowsGoodKept(cfg, s, raise);
    CompletedStep(cfg, s1, fail, t);
    NothingMore(cfg, Step(cfg, s1, fail));
    UnsafeStarts.OneMore(cfg, s1, fail, []);
    UnsafeStarts.OneMore(cfg, s, raise, [fail] + []);
    assert [raise] + ([fail] + []) == ls;
  }

  lemma NothingMore(cfg: Config, s: State)
    ensures Possible(cfg, s, []) && SafeRun(cfg, s, []) && Run(cfg, s, []) == s
  {
  }

  lemma NoStartIsSafe(cfg: Config, s: State, l: Label)
    requires !l.Start?
    ensures Safe(cfg, s, l)
  {
  }

  lemma WorkIsEnabled(s: State, x: nat, out: Outcome)
    requires Busy(s, x) && x in s.jobs.hands
    requires var pc := s.workers[x].act.frame.pc; pc.ReadLog? || pc.WriteLog? || pc.FailTask?
    ensures Enabled(s, Work(x, out, 0, ""))
  {
  }
}
