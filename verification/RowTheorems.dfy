/** The rows of workflows, tasks, memories and approvals: theorems over every run
    whose starts are safe, crashes and restarts included. */
module RowTheorems {
  import opened Common
  import opened Programs
  import opened ProgramProofs
  import opened Tables
  import opened TablesProofs
  import opened Runtime
  import opened RuntimeClaims
  import opened RuntimeOwners
  import opened RuntimeRows
  import RuntimeAnswers

  ghost predicate RowsGood(cfg: Config, s: State) {
    Owners(cfg, s) && RowsOk(s)
  }

  lemma RowsGoodKept(cfg: Config, s: State, l: Label)
    requires Enabled(s, l) && Safe(cfg, s, l) && RowsGood(cfg, s)
    ensures RowsGood(cfg, Step(cfg, s, l))
  {
    OwnersKept(cfg, s, l);
    OwnersApart(cfg, s);
    RowsKept(cfg, s, l);
  }

  lemma {:induction false} SafeRunIsGood(cfg: Config, s: State, ls: seq<Label>)
    requires Possible(cfg, s, ls) && SafeRun(cfg, s, ls) && RowsGood(cfg, s)
    ensures RowsGood(cfg, Run(cfg, s, ls))
    decreases |ls|
  {
    if ls != [] {
      RowsGoodKept(cfg, s, ls[0]);
      SafeRunIsGood(cfg, Step(cfg, s, ls[0]), ls[1..]);
    }
  }

  lemma ReachableIsRowsGood(cfg: Config, ls: seq<Label>)
    requires Possible(cfg, INIT, ls) && SafeRun(cfg, INIT, ls)
    ensures RowsGood(cfg, Run(cfg, INIT, ls))
  {
    InitOwners(cfg);
    SafeRunIsGood(cfg, INIT, ls);
  }

  /** One process at a time, as the integration guide asks: whenever a process starts,
      no worker of another one is left. */
  ghost predicate OneProcess(cfg: Config, s: State, ls: seq<Label>)
    requires Possible(cfg, s, ls)
    decreases |ls|
  {
    ls == [] || ((ls[0].Start? ==> s.workers == map[]) && OneProcess(cfg, Step(cfg, s, ls[0]), ls[1..]))
  }

  lemma {:induction false} OneProcessIsSafe(cfg: Config, s: State, ls: seq<Label>)
    requires Possible(cfg, s, ls) && OneProcess(cfg, s, ls)
    ensures SafeRun(cfg, s, ls)
    decreases |ls|
  {
    if ls != [] {
      OneProcessIsSafe(cfg, Step(cfg, s, ls[0]), ls[1..]);
    }
  }

  // --------------------------------------------------------------------------
  // Joint row invariant and logs
  // --------------------------------------------------------------------------

  lemma RowIsLawful(s: State, w: nat)
    requires RowsOk(s) && w in s.db.wfs
    ensures var e := s.ledgers[w];
      Agrees(s.db, w, Expected(e)) && Lawful(e.led.prog, w, Expected(e))
  {
    assert RowOk(s, w);
    var e := s.ledgers[w];
    LedgerIsLawful(e.led);
    if e.reaped {
      ReapedIsLawful(e.led);
    }
  }

  /** Joint row invariant. At every moment of every run, crashes included, the
      tables hold for each workflow exactly some lawful set of rows: the log is what
      its owner wrote, entry by entry, and the reaper's at most; the tasks follow the
      plan, every one but the last done; completed means all of them done with one
      memory and one approval; an approval implies all tasks before the last done. */
  lemma JointRows(cfg: Config, ls: seq<Label>, w: nat) returns (p: Prog, r: Rows)
    requires Possible(cfg, INIT, ls) && SafeRun(cfg, INIT, ls) && w in Run(cfg, INIT, ls).db.wfs
    ensures Agrees(Run(cfg, INIT, ls).db, w, r) && Lawful(p, w, r)
    ensures Run(cfg, INIT, ls).db.wfs[w].log[0] == Started(p)
  {
    ReachableIsRowsGood(cfg, ls);
    var s := Run(cfg, INIT, ls);
    RowIsLawful(s, w);
    p, r := s.ledgers[w].led.prog, Expected(s.ledgers[w]);
    LawfulHead(p, r);
  }

  lemma LawfulHead(p: Prog, r: Rows)
    requires LogLawful(p, r)
    ensures r.log[0] == Started(p)
  {
    assert FullLog(p)[0] == Started(p) && LogAt(p, 4)[0] == Started(p);
  }

  /** No log update is lost: the log column is the sequence of entries the single
      owner of the workflow emitted, in order, closed by the reaper's if it took the
      workflow. The owner's entries are accumulated step by step, while the column is
      read and written back in separate interleaved steps. */
  lemma LogsLoseNothing(cfg: Config, ls: seq<Label>, w: nat)
    requires Possible(cfg, INIT, ls) && SafeRun(cfg, INIT, ls) && w in Run(cfg, INIT, ls).db.wfs
    ensures var s := Run(cfg, INIT, ls);
      && w in s.ledgers && LogLawful(s.ledgers[w].led.prog, Expected(s.ledgers[w]))
      && s.db.wfs[w].log
         == s.ledgers[w].led.rows.log + (if s.ledgers[w].reaped then [WorkflowInterrupted] else [])
  {
    hide Owners, Possible, SafeRun, LogLawful, LedgerInv, TasksAgree;
    ReachableIsRowsGood(cfg, ls);
    RowIsLawful(Run(cfg, INIT, ls), w);
  }

  /** A completed commit workflow has exactly four tasks, all completed, in the
      order of its chain; one memory row and one approval; and the approval points at
      the workflow and its fourth task. */
  lemma CompletedCommit(cfg: Config, ls: seq<Label>, w: nat, k: Key)
    returns (t: seq<nat>, m: nat, a: nat)
    requires Possible(cfg, INIT, ls) && SafeRun(cfg, INIT, ls)
    requires var db := Run(cfg, INIT, ls).db;
      w in db.wfs && db.wfs[w].status == Completed && db.wfs[w].log != [] && db.wfs[w].log[0] == Started(Commit(k))
    ensures var db := Run(cfg, INIT, ls).db;
      && |t| == 4 && t[0] < t[1] < t[2] < t[3]
      && (forall i | 0 <= i < 4 :: t[i] in db.tasks && db.tasks[t[i]].wf == w && db.tasks[t[i]].status == Completed
            && db.tasks[t[i]].kind == ["summarize", "draft_social", "save", "request_approval"][i])
      && (forall x | x in db.tasks && db.tasks[x].wf == w :: x in t)
      && m in db.mems && db.tasks[t[2]].result == Some(m)
      && (forall x | x in db.mems :: db.mems[x].owner == w <==> x == m)
      && a in db.apprs && db.apprs[a].task == t[3] && db.tasks[t[3]].result == Some(a)
      && (forall x | x in db.apprs :: db.apprs[x].wf == w <==> x == a)
      && db.wfs[w].log == [Started(Commit(k)), SummaryDone, SocialDone, ApprovalSent, WorkflowDone]
  {
    hide Agrees, Lawful, Run, SafeRun, Possible;
    var p, r := JointRows(cfg, ls, w);
    t, m, a := CompletedRows(Run(cfg, INIT, ls).db, w, k, r);
  }

  lemma CompletedRows(db: Db, w: nat, k: Key, r: Rows) returns (t: seq<nat>, m: nat, a: nat)
    requires Agrees(db, w, r) && Lawful(Commit(k), w, r) && db.wfs[w].status == Completed
    ensures && |t| == 4 && t[0] < t[1] < t[2] < t[3]
      && (forall i | 0 <= i < 4 :: t[i] in db.tasks && db.tasks[t[i]].wf == w && db.tasks[t[i]].status == Completed
            && db.tasks[t[i]].kind == ["summarize", "draft_social", "save", "request_approval"][i])
      && (forall x | x in db.tasks && db.tasks[x].wf == w :: x in t)
      && m in db.mems && db.tasks[t[2]].result == Some(m)
      && (forall x | x in db.mems :: db.mems[x].owner == w <==> x == m)
      && a in db.apprs && db.apprs[a].task == t[3] && db.tasks[t[3]].result == Some(a)
      && (forall x | x in db.apprs :: db.apprs[x].wf == w <==> x == a)
      && db.wfs[w].log == [Started(Commit(k)), SummaryDone, SocialDone, ApprovalSent, WorkflowDone]
  {
    t, m, a := r.tids, r.mem.value, r.appr.value;
    forall i | 0 <= i < 4
      ensures t[i] in db.tasks && db.tasks[t[i]] == r.tasks[i] && r.tasks[i].status == Completed
    {
      assert Done(r.tasks[i]) && r.tasks[i].kind == Plan(Commit(k))[i];
    }
  }

  /** The tasks of a demo that completed. */
  function DemoTasks(skipRender: bool): seq<string> {
    if skipRender then ["check_tools", "capture", "manifest", "approve"]
    else ["check_tools", "capture", "render_mp4", "manifest", "approve"]
  }

  /** A completed demo workflow has exactly the tasks of its stages in order, the MP4
      render among them unless it was skipped; all completed but possibly that one;
      one memory row and one approval, which points at the last task. */
  lemma CompletedDemo(cfg: Config, ls: seq<Label>, w: nat, scenario: string, skipRender: bool)
    returns (t: seq<nat>, m: nat, a: nat)
    requires Possible(cfg, INIT, ls) && SafeRun(cfg, INIT, ls)
    requires var db := Run(cfg, INIT, ls).db;
      && w in db.wfs && db.wfs[w].status == Completed
      && db.wfs[w].log != [] && db.wfs[w].log[0] == Started(Demo(scenario, skipRender))
    ensures var db := Run(cfg, INIT, ls).db;
      var kinds := DemoTasks(skipRender);
      && |t| == |kinds| && (forall i, j | 0 <= i < j < |t| :: t[i] < t[j])
      && (forall i | 0 <= i < |t| :: t[i] in db.tasks && db.tasks[t[i]].wf == w && db.tasks[t[i]].kind == kinds[i]
            && (db.tasks[t[i]].status == Completed || (!skipRender && i == 2 && db.tasks[t[i]].status == Failed)))
      && (forall x | x in db.tasks && db.tasks[x].wf == w :: x in t)
      && (forall x | x in db.mems :: db.mems[x].owner == w <==> x == m)
      && a in db.apprs && db.apprs[a].task == t[|t| - 1] && db.tasks[t[|t| - 1]].result == Some(a)
      && (forall x | x in db.apprs :: db.apprs[x].wf == w <==> x == a)
      && db.wfs[w].log == [Started(Demo(scenario, skipRender)), WorkflowDone]
  {
    hide Agrees, Lawful, Run, SafeRun, Possible;
    var p, r := JointRows(cfg, ls, w);
    t, m, a := CompletedDemoRows(Run(cfg, INIT, ls).db, w, scenario, skipRender, r);
  }

  lemma CompletedDemoRows(db: Db, w: nat, scenario: string, skipRender: bool, r: Rows) returns (t: seq<nat>, m: nat, a: nat)
    requires Agrees(db, w, r) && Lawful(Demo(scenario, skipRender), w, r) && db.wfs[w].status == Completed
    ensures
      var kinds := DemoTasks(skipRender);
      && |t| == |kinds| && (forall i, j | 0 <= i < j < |t| :: t[i] < t[j])
      && (forall i | 0 <= i < |t| :: t[i] in db.tasks && db.tasks[t[i]].wf == w && db.tasks[t[i]].kind == kinds[i]
            && (db.tasks[t[i]].status == Completed || (!skipRender && i == 2 && db.tasks[t[i]].status == Failed)))
      && (forall x | x in db.tasks && db.tasks[x].wf == w :: x in t)
      && (forall x | x in db.mems :: db.mems[x].owner == w <==> x == m)
      && a in db.apprs && db.apprs[a].task == t[|t| - 1] && db.tasks[t[|t| - 1]].result == Some(a)
      && (forall x | x in db.apprs :: db.apprs[x].wf == w <==> x == a)
      && db.wfs[w].log == [Started(Demo(scenario, skipRender)), WorkflowDone]
  {
    t, m, a := r.tids, r.mem.value, r.appr.value;
    var kinds := DemoTasks(skipRender);
    assert kinds == Plan(Demo(scenario, skipRender));
    forall i | 0 <= i < |t|
      ensures t[i] in db.tasks && db.tasks[t[i]] == r.tasks[i]
      ensures r.tasks[i].status == Completed || (!skipRender && i == 2 && r.tasks[i].status == Failed)
    {
      assert Done(r.tasks[i]) && r.tasks[i].kind == kinds[i];
      assert |kinds[i]| == |"render_mp4"| ==> !skipRender && i == 2;
    }
  }

  /** The two together for one process at a time, however often it is killed and
      started again: each workflow's rows are lawful, and its log is what its owner
      emitted with the reaper's entry at most. */
  lemma OneProcessRows(cfg: Config, ls: seq<Label>, w: nat) returns (p: Prog, r: Rows)
    requires Possible(cfg, INIT, ls) && OneProcess(cfg, INIT, ls) && w in Run(cfg, INIT, ls).db.wfs
    ensures var s := Run(cfg, INIT, ls);
      && Agrees(s.db, w, r) && Lawful(p, w, r) && s.db.wfs[w].log[0] == Started(p)
      && w in s.ledgers
      && s.db.wfs[w].log == s.ledgers[w].led.rows.log + (if s.ledgers[w].reaped then [WorkflowInterrupted] else [])
  {
    hide Agrees, Lawful, LogLawful;
    OneProcessIsSafe(cfg, INIT, ls);
    p, r := JointRows(cfg, ls, w);
    LogsLoseNothing(cfg, ls, w);
  }

  // --------------------------------------------------------------------------
  // Across tables
  // --------------------------------------------------------------------------

  /** For both pipelines and at every intermediate point: a running task belongs to
      a running workflow, an interrupted task to an interrupted one, and an approval
      to a workflow all of whose tasks before the last are done. */
  lemma CrossTable(cfg: Config, ls: seq<Label>, t: nat)
    requires Possible(cfg, INIT, ls) && SafeRun(cfg, INIT, ls) && t in Run(cfg, INIT, ls).db.tasks
    ensures var db := Run(cfg, INIT, ls).db;
      var task := db.tasks[t];
      && task.wf in db.wfs
      && (task.status == Running ==> db.wfs[task.wf].status == Running)
      && (task.status == Interrupted ==> db.wfs[task.wf].status == Interrupted)
      && (db.wfs[task.wf].status == Completed ==> Done(task))
  {
    ReachableIsRowsGood(cfg, ls);
    var s := Run(cfg, INIT, ls);
    var w := s.db.tasks[t].wf;
    RowIsLawful(s, w);
    var r := Expected(s.ledgers[w]);
    var i :| 0 <= i < |r.tids| && r.tids[i] == t;
    assert r.tasks[i] == s.db.tasks[t];
  }

  /** Approval `a` rests on the tasks `t` and the memory row `m` of its workflow: they
      are all its tasks, those of the plan in order; it points at the last, and the
      others are done, completed in a commit's case. */
  ghost predicate RestsOn(db: Db, a: nat, p: Prog, t: seq<nat>, m: nat)
    requires a in db.apprs
  {
    var w := db.apprs[a].wf;
    && |t| == |Plan(p)| && db.apprs[a].task == t[|t| - 1]
    && (forall i, j | 0 <= i < j < |t| :: t[i] < t[j])
    && (forall i | 0 <= i < |t| :: t[i] in db.tasks && db.tasks[t[i]].wf == w && db.tasks[t[i]].kind == Plan(p)[i])
    && (forall i | 0 <= i < |t| - 1 :: if p.Commit? then db.tasks[t[i]].status == Completed else Done(db.tasks[t[i]]))
    && (forall x | x in db.tasks && db.tasks[x].wf == w :: x in t)
    && m in db.mems && db.mems[m].owner == w
  }

  /** Any approval row, at any moment, implies every task of its workflow's plan: it
      points at the last of them, and the others came before it and are done; of a
      commit's four, the first three are completed. The memory row is there too. */
  lemma ApprovalImpliesTasks(cfg: Config, ls: seq<Label>, a: nat) returns (p: Prog, t: seq<nat>, m: nat)
    requires Possible(cfg, INIT, ls) && SafeRun(cfg, INIT, ls) && a in Run(cfg, INIT, ls).db.apprs
    ensures var db := Run(cfg, INIT, ls).db;
      var w := db.apprs[a].wf;
      && w in db.wfs && db.wfs[w].log != [] && db.wfs[w].log[0] == Started(p)
      && RestsOn(db, a, p, t, m) && (p.Commit? ==> |t| == 4)
  {
    hide RestsOn, Owners, LedgerInv, TasksAgree;
    ReachableIsRowsGood(cfg, ls);
    var s := Run(cfg, INIT, ls);
    var w := s.db.apprs[a].wf;
    assert w in s.db.wfs;
    RowIsLawful(s, w);
    p := s.ledgers[w].led.prog;
    var r := Expected(s.ledgers[w]);
    LawfulHead(p, r);
    t, m := ApprovalRows(s.db, a, p, r);
  }

  lemma ApprovalRows(db: Db, a: nat, p: Prog, r: Rows) returns (t: seq<nat>, m: nat)
    requires a in db.apprs && Agrees(db, db.apprs[a].wf, r) && Lawful(p, db.apprs[a].wf, r)
    ensures RestsOn(db, a, p, t, m) && |t| == |Plan(p)|
  {
    t, m := r.tids, r.mem.value;
    forall i | 0 <= i < |t| - 1
      ensures if p.Commit? then db.tasks[t[i]].status == Completed else Done(db.tasks[t[i]])
    {
      assert Done(r.tasks[i]) && r.tasks[i].kind == Plan(p)[i];
    }
  }

  // --------------------------------------------------------------------------
  // Status over runs
  // --------------------------------------------------------------------------

  /** A row that a step may change: its status leaves only running, its log only
      grows. */
  predicate Evolves(db: Db, db': Db, w: nat)
    requires w in db.wfs
  {
    && w in db'.wfs
    && (db.wfs[w].status != Running ==> db'.wfs[w] == db.wfs[w])
    && db.wfs[w].log <= db'.wfs[w].log
    && db'.wfs[w].created == db.wfs[w].created
  }

  /** One step changes a status only from running, and a log only by appending. */
  lemma StatusStep(cfg: Config, s: State, l: Label, w: nat)
    requires Enabled(s, l) && Safe(cfg, s, l) && RowsOk(s) && w in s.db.wfs
    ensures Evolves(s.db, Step(cfg, s, l).db, w)
  {
    hide PipeStep, DispatchStep, WonStep, MissedStep, PushStep, StartStep, DecideStep, RowsOk;
    if !l.Work? {
      OutsideStatus(cfg, s, l, w);
    } else if s.workers[l.x].act.InPipe? {
      PipeStatus(cfg, s, l.x, l.out, l.id, l.text, w);
    } else {
      WorkEarly(cfg, s, l);
    }
  }

  lemma OutsideStatus(cfg: Config, s: State, l: Label, w: nat)
    requires Enabled(s, l) && !l.Work? && w in s.db.wfs
    ensures Evolves(s.db, Step(cfg, s, l).db, w)
  {
  }

  lemma PipeStatus(cfg: Config, s: State, x: nat, out: Outcome, id: nat, text: string, w: nat)
    requires RowsOk(s) && w in s.db.wfs && x in s.workers && s.workers[x].act.InPipe? && x in s.jobs.hands
    ensures var InPipe(f, win, att) := s.workers[x].act;
      var db' := PipeStep(cfg, s, x, f, win, att, out, id, text).db;
      Evolves(s.db, db', w) && (w != f.wf ==> db'.wfs[w] == s.db.wfs[w])
  {
    var InPipe(f, win, att) := s.workers[x].act;
    HandlerOwns(s, x);
    PipeTables(cfg, s, x, f, win, att, out, id, text);
    LiveIsRunning(f.prog, f.pc);
    FrameWrites(s.db, f, out, id, text, w);
  }

  lemma FrameWrites(db: Db, f: Frame, out: Outcome, id: nat, text: string, w: nat)
    requires w in db.wfs && f.wf in db.wfs
    requires f.pc.WriteLog? || f.pc.WriteFail? || f.pc.WriteEnd? ==> f.snap == db.wfs[f.wf].log
    ensures var db' := StepDb(db, f, out, id, text);
      && w in db'.wfs && (w != f.wf ==> db'.wfs[w] == db.wfs[w])
      && db.wfs[w].log <= db'.wfs[w].log && db'.wfs[w].created == db.wfs[w].created
  {
    OneTable(db, f, id, text);
  }

  lemma {:induction false} TerminalStays(cfg: Config, s: State, ls: seq<Label>, w: nat)
    requires Possible(cfg, s, ls) && SafeRun(cfg, s, ls) && RowsGood(cfg, s)
    requires w in s.db.wfs && s.db.wfs[w].status != Running
    ensures var db' := Run(cfg, s, ls).db; w in db'.wfs && db'.wfs[w] == s.db.wfs[w]
    decreases |ls|
  {
    if ls != [] {
      StatusStep(cfg, s, ls[0], w);
      RowsGoodKept(cfg, s, ls[0]);
      TerminalStays(cfg, Step(cfg, s, ls[0]), ls[1..], w);
    }
  }

  /** Status safety: once completed, failed or interrupted, a workflow row never
      changes again, through crashes and restarts. */
  lemma TerminalForever(cfg: Config, before: seq<Label>, after: seq<Label>, w: nat)
    requires Possible(cfg, INIT, before) && SafeRun(cfg, INIT, before)
    requires var s := Run(cfg, INIT, before);
      Possible(cfg, s, after) && SafeRun(cfg, s, after) && w in s.db.wfs && s.db.wfs[w].status != Running
    ensures var s := Run(cfg, INIT, before);
      var db' := Run(cfg, s, after).db;
      w in db'.wfs && db'.wfs[w] == s.db.wfs[w]
  {
    ReachableIsRowsGood(cfg, before);
    TerminalStays(cfg, Run(cfg, INIT, before), after, w);
  }

  /** The same for one process at a time. */
  lemma OneProcessTerminal(cfg: Config, before: seq<Label>, after: seq<Label>, w: nat)
    requires Possible(cfg, INIT, before) && OneProcess(cfg, INIT, before)
    requires var s := Run(cfg, INIT, before);
      Possible(cfg, s, after) && OneProcess(cfg, s, after) && w in s.db.wfs && s.db.wfs[w].status != Running
    ensures var s := Run(cfg, INIT, before);
      var db' := Run(cfg, s, after).db;
      w in db'.wfs && db'.wfs[w] == s.db.wfs[w]
  {
    OneProcessIsSafe(cfg, INIT, before);
    OneProcessIsSafe(cfg, Run(cfg, INIT, before), after);
    TerminalForever(cfg, before, after, w);
  }

  // --------------------------------------------------------------------------
  // Crash recovery
  // --------------------------------------------------------------------------

  /** The reaper changes exactly the running rows created before the cutoff, and of
      their tasks exactly the running ones; everything else is untouched. */
  lemma ReapIsExact(db: Db, now: nat, maxAge: nat)
    ensures var db' := Reap(db, now, maxAge);
      && db'.(wfs := db.wfs, tasks := db.tasks) == db
      && db'.wfs.Keys == db.wfs.Keys && db'.tasks.Keys == db.tasks.Keys
      && (forall w | w in db.wfs ::
            && (db'.wfs[w] != db.wfs[w] <==> db.wfs[w].status == Running && db.wfs[w].created + maxAge < now)
            && (db'.wfs[w] != db.wfs[w] ==>
                  db'.wfs[w] == Workflow(Interrupted, db.wfs[w].log + [WorkflowInterrupted], db.wfs[w].created)))
      && (forall t | t in db.tasks ::
            && (db'.tasks[t] != db.tasks[t] <==>
                  db.tasks[t].status == Running && Stale(db, db.tasks[t].wf, now, maxAge))
            && (db'.tasks[t] != db.tasks[t] ==> db'.tasks[t] == db.tasks[t].(status := Interrupted)))
  {
  }

  /** A second pass at the same cutoff finds nothing to do, and after a pass every
      running workflow was created at or after the cutoff. */
  lemma ReapIsIdempotent(db: Db, now: nat, maxAge: nat)
    ensures var db' := Reap(db, now, maxAge);
      && Reap(db', now, maxAge) == db'
      && forall w | w in db'.wfs && db'.wfs[w].status == Running :: now <= db'.wfs[w].created + maxAge
  {
    var db' := Reap(db, now, maxAge);
    assert forall w :: !Stale(db', w, now, maxAge);
    var db2 := Reap(db', now, maxAge);
    assert db2.wfs == db'.wfs && db2.tasks == db'.tasks;
  }

  /** No live handler works on `w`. */
  predicate Orphan(s: State, w: nat) {
    forall x | x in s.workers && s.workers[x].act.InPipe? :: s.workers[x].act.frame.wf != w
  }

  /** Row `w` is as before, unless a start past its age interrupts it. */
  predicate OrphanRow(cfg: Config, s: State, l: Label, db': Db, w: nat)
    requires w in s.db.wfs
  {
    && w in db'.wfs
    && if l.Start? && s.db.wfs[w].status == Running && s.db.wfs[w].created + cfg.maxAge < s.claims.now
       then db'.wfs[w].status == Interrupted
       else db'.wfs[w] == s.db.wfs[w]
  }

  /** An orphan stays one, and its row stays as it is until a start more than
      max_age after its creation, which interrupts it. */
  lemma OrphanStep(cfg: Config, s: State, l: Label, w: nat)
    requires Enabled(s, l) && RowsOk(s) && w in s.db.wfs && Orphan(s, w)
    ensures Orphan(Step(cfg, s, l), w) && OrphanRow(cfg, s, l, Step(cfg, s, l).db, w)
  {
    hide PipeStep, DispatchStep, WonStep, MissedStep, PushStep, StartStep, DecideStep, RowsOk, Orphan;
    if !l.Work? {
      OutsideOrphan(cfg, s, l, w);
    } else if s.workers[l.x].act.InPipe? {
      PipeOrphan(cfg, s, l.x, l.out, l.id, l.text, w);
    } else {
      WorkEarly(cfg, s, l);
      EarlyOrphan(cfg, s, l, w);
    }
  }

  lemma OutsideOrphan(cfg: Config, s: State, l: Label, w: nat)
    requires Enabled(s, l) && !l.Work? && w in s.db.wfs && Orphan(s, w)
    ensures Orphan(Step(cfg, s, l), w) && OrphanRow(cfg, s, l, Step(cfg, s, l).db, w)
  {
  }

  lemma PipeOrphan(cfg: Config, s: State, x: nat, out: Outcome, id: nat, text: string, w: nat)
    requires RowsOk(s) && w in s.db.wfs && x in s.workers && s.workers[x].act.InPipe? && x in s.jobs.hands
    requires Orphan(s, w)
    ensures var InPipe(f, win, att) := s.workers[x].act;
      var s' := PipeStep(cfg, s, x, f, win, att, out, id, text);
      Orphan(s', w) && w in s'.db.wfs && s'.db.wfs[w] == s.db.wfs[w]
  {
    var InPipe(f, win, att) := s.workers[x].act;
    PipeStatus(cfg, s, x, out, id, text, w);
    RuntimeAnswers.PipeWorkers(cfg, s, x, f, win, att, out, id, text);
    FramesKeepIdentity(s.db, f, out, id, text);
  }

  lemma EarlyOrphan(cfg: Config, s: State, l: Label, w: nat)
    requires Enabled(s, l) && w in s.db.wfs && Orphan(s, w) && l.Work? && !s.workers[l.x].act.InPipe?
    ensures Orphan(Step(cfg, s, l), w)
  {
  }

  lemma {:induction false} OrphanStays(cfg: Config, s: State, ls: seq<Label>, w: nat)
    requires Possible(cfg, s, ls) && SafeRun(cfg, s, ls) && RowsGood(cfg, s)
    requires w in s.db.wfs && Orphan(s, w) && s.db.wfs[w].status == Running
    requires NoLateStart(cfg, s, ls, s.db.wfs[w].created)
    ensures var s' := Run(cfg, s, ls);
      RowsGood(cfg, s') && Orphan(s', w) && w in s'.db.wfs && s'.db.wfs[w] == s.db.wfs[w]
    decreases |ls|
  {
    if ls != [] {
      OrphanStep(cfg, s, ls[0], w);
      RowsGoodKept(cfg, s, ls[0]);
      OrphanStays(cfg, Step(cfg, s, ls[0]), ls[1..], w);
    }
  }

  /** An ownerless running workflow is interrupted by the first start more than
      max_age after its creation: through any run without such a start it stays
      exactly as it is, and that start ends it. */
  lemma OrphanIsReaped(cfg: Config, before: seq<Label>, after: seq<Label>, w: nat, start: Label)
    requires Possible(cfg, INIT, before) && SafeRun(cfg, INIT, before)
    requires var s := Run(cfg, INIT, before);
      && Possible(cfg, s, after) && SafeRun(cfg, s, after)
      && w in s.db.wfs && Orphan(s, w) && s.db.wfs[w].status == Running
      && NoLateStart(cfg, s, after, s.db.wfs[w].created)
      && var s' := Run(cfg, s, after);
        start.Start? && Enabled(s', start) && Safe(cfg, s', start) && s.db.wfs[w].created + cfg.maxAge < s'.claims.now
    ensures var s := Run(cfg, INIT, before);
      var s' := Run(cfg, s, after);
      && w in s'.db.wfs && s'.db.wfs[w] == s.db.wfs[w]
      && w in Step(cfg, s', start).db.wfs && Step(cfg, s', start).db.wfs[w].status == Interrupted
  {
    ReachableIsRowsGood(cfg, before);
    var s := Run(cfg, INIT, before);
    OrphanStays(cfg, s, after, w);
    OrphanStep(cfg, Run(cfg, s, after), start, w);
  }

  /** No process starts in the run at a time past `created + max_age`. */
  ghost predicate NoLateStart(cfg: Config, s: State, ls: seq<Label>, created: nat)
    requires Possible(cfg, s, ls)
    decreases |ls|
  {
    ls == []
    || ((ls[0].Start? ==> s.claims.now <= created + cfg.maxAge)
        && NoLateStart(cfg, Step(cfg, s, ls[0]), ls[1..], created))
  }
}
