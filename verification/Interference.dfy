/** The handlers of Handlers inside the runtime: a worker's step is the code's step, and
    what every other step does to it in between is fair. */
module Interference {
  import opened Common
  import opened Programs
  import opened Tables
  import opened TablesProofs
  import opened Handlers
  import opened Runtime
  import opened RuntimeClaims
  import opened RuntimeOwners
  import opened RowTheorems
  import opened RuntimeRows
  import RedisQueue

  /** A handler that returned has finished its job and is idle; one that raised has yet
      to push it onto the dead-letter lane. */
  predicate EndsAs(s: State, s': State, x: nat, g: Frame) {
    && x in s'.workers && x in s.jobs.hands
    && if g.pc.Returned? then
         && s'.workers[x].act == Idle && x !in s'.jobs.hands
         && s.jobs.hands[x].id in s'.jobs.where && s'.jobs.where[s.jobs.hands[x].id] == RedisQueue.Finished
       else s'.workers[x].act == Pushing && s'.jobs == s.jobs
  }

  /** When a worker inside a handler takes a step, the tables and its locals change
      exactly as the code's next step changes them from there. */
  lemma WorkIsTheCodesStep(cfg: Config, s: State, x: nat, out: Outcome, id: nat, text: string, before: World)
    requires RowsOk(s) && x in s.workers && s.workers[x].act.InPipe? && x in s.jobs.hands
    requires before.tape != [] && before.tape[0] == Fate(s.db, id, out, text)
    ensures var InPipe(f, win, att) := s.workers[x].act;
      var (after, g) := One(before, f);
      var s' := PipeStep(cfg, s, x, f, win, att, out, id, text);
      && s'.db == after.db && after.tape == before.tape[1..] && x in s'.workers
      && (s'.workers[x].act.InPipe? <==> !Ended(g.pc))
      && (!Ended(g.pc) ==> s'.workers[x].act.frame == g)
      && (Ended(g.pc) ==> EndsAs(s, s', x, g))
  {
    hide One, StepDb, StepFrame, Missing, RowsOk, PipeStep, EndsAs, Ended;
    NothingMissingHere(s, x);
    var InPipe(f, win, att) := s.workers[x].act;
    OneIsTheStep(s.db, f, out, id, text, before);
    PipeGoesTo(cfg, s, x, f, win, att, out, id, text);
  }

  lemma PipeGoesTo(cfg: Config, s: State, x: nat, f: Frame, win: nat, att: Option<nat>, out: Outcome, id: nat, text: string)
    requires x in s.workers && x in s.jobs.hands
    ensures var g := StepFrame(s.db, f, out, id, text);
      var s' := PipeStep(cfg, s, x, f, win, att, out, id, text);
      && s'.db == StepDb(s.db, f, out, id, text) && x in s'.workers
      && (s'.workers[x].act.InPipe? <==> !Ended(g.pc))
      && (!Ended(g.pc) ==> s'.workers[x].act.frame == g)
      && (Ended(g.pc) ==> EndsAs(s, s', x, g))
  {
    hide StepDb, StepFrame, PipeClaims;
  }

  lemma OneIsTheStep(db: Db, f: Frame, out: Outcome, id: nat, text: string, before: World)
    requires !Missing(db, f) && before.tape != [] && before.tape[0] == Fate(db, id, out, text)
    ensures var (after, g) := One(before, f);
      after.db == StepDb(db, f, out, id, text) && g == StepFrame(db, f, out, id, text) && after.tape == before.tape[1..]
  {
  }

  lemma NothingMissingHere(s: State, x: nat)
    requires RowsOk(s) && x in s.workers && s.workers[x].act.InPipe?
    ensures !Missing(s.db, s.workers[x].act.frame)
  {
    HandlerOwns(s, x);
    var f := s.workers[x].act.frame;
    var r := s.ledgers[f.wf].led.rows;
    if f.pc.Complete? || f.pc.FailTask? {
      assert r.tids[|r.tids| - 1] in s.db.tasks;
    }
  }

  lemma OtherTasksLeft(db: Db, f: Frame, l: Ledger, id: nat, text: string, w: nat)
    requires Owns(db, f, l) && FreshFor(db, f.pc, id) && w != f.wf
    ensures var db' := Exec(db, f, id, text);
      && (forall t | t in db.tasks && db.tasks[t].wf == w :: t in db'.tasks && db'.tasks[t] == db.tasks[t])
      && (forall t | t in db'.tasks && db'.tasks[t].wf == w :: t in db.tasks && db.tasks[t].wf == w)
  {
    OneTable(db, f, id, text);
    if f.pc.Complete? || f.pc.FailTask? {
      assert f.tid == l.rows.tids[|l.rows.tids| - 1];
    }
  }

  lemma OtherMemoriesLeft(db: Db, f: Frame, l: Ledger, id: nat, text: string, w: nat)
    requires Owns(db, f, l) && FreshFor(db, f.pc, id) && w != f.wf
    ensures var db' := Exec(db, f, id, text);
      && (forall m | m in db.mems && db.mems[m].owner == w :: m in db'.mems && db'.mems[m] == db.mems[m])
      && (forall m | m in db'.mems && db'.mems[m].owner == w :: m in db.mems && db.mems[m].owner == w)
  {
    OneTable(db, f, id, text);
  }

  lemma OtherApprovalsLeft(db: Db, f: Frame, l: Ledger, id: nat, text: string, w: nat)
    requires Owns(db, f, l) && FreshFor(db, f.pc, id) && w != f.wf
    ensures var db' := Exec(db, f, id, text);
      && (forall a | a in db.apprs && db.apprs[a].wf == w :: a in db'.apprs && db'.apprs[a] == db.apprs[a])
      && (forall a | a in db'.apprs && db'.apprs[a].wf == w :: a in db.apprs && db.apprs[a].wf == w)
  {
    OneTable(db, f, id, text);
  }

  lemma OtherWorkflowLeft(db: Db, f: Frame, id: nat, text: string, w: nat)
    requires w in db.wfs && w != f.wf
    ensures var db' := Exec(db, f, id, text); w in db'.wfs && db'.wfs[w] == db.wfs[w]
  {
    match f.pc
    case WriteLog(_) =>
    case WriteFail(_) =>
    case WriteEnd =>
    case _ =>
      hide Exec;
      OneTable(db, f, id, text);
  }

  lemma AnotherHandlerLeaves(db: Db, f: Frame, l: Ledger, out: Outcome, id: nat, text: string, w: nat)
    requires Owns(db, f, l) && FreshFor(db, f.pc, id) && w != f.wf && w in db.wfs
    ensures Leaves(db, StepDb(db, f, out, id, text), w)
  {
    StepKeepsAnchors(db, f, l, out, id, text);
    if out == Ok {
      OtherTasksLeft(db, f, l, id, text, w);
      OtherMemoriesLeft(db, f, l, id, text, w);
      OtherApprovalsLeft(db, f, l, id, text, w);
      OtherWorkflowLeft(db, f, id, text, w);
    }
  }

  lemma ReaperLeaves(db: Db, now: nat, maxAge: nat, w: nat)
    requires Anchored(db) && w in db.wfs && !Stale(db, w, now, maxAge)
    ensures Leaves(db, Reap(db, now, maxAge), w)
  {
  }

  lemma OperatorLeaves(db: Db, a: nat, decision: string, w: nat)
    requires Anchored(db) && w in db.wfs
    ensures Leaves(db, DecideStep(db, a, decision), w)
  {
  }

  lemma InsertLeaves(db: Db, v: nat, p: Prog, now: nat, w: nat)
    requires Anchored(db) && w in db.wfs && v !in db.wfs
    ensures Leaves(db, InsertWorkflow(db, v, p, now), w)
  {
  }

  /** Rely and guarantee meet: in a safe run no step but a handler's own touches the
      rows of its workflow. Kills, starts, operators and every other worker included. */
  lemma OthersAreFair(cfg: Config, s: State, l: Label, x: nat)
    requires RowsOk(s) && Apart(s) && Enabled(s, l) && Safe(cfg, s, l)
    requires x in s.workers && s.workers[x].act.InPipe? && !(l.Work? && l.x == x)
    ensures Leaves(s.db, Step(cfg, s, l).db, s.workers[x].act.frame.wf)
  {
    HandlerOwns(s, x);
    var w := s.workers[x].act.frame.wf;
    if l.Work? {
      assert s.workers[l.x].act.InPipe? ==> s.workers[l.x].act.frame.wf != w;
      WorkIsFair(cfg, s, l, w);
    } else {
      OutsideIsFair(cfg, s, l, w);
    }
  }

  lemma OutsideIsFair(cfg: Config, s: State, l: Label, w: nat)
    requires Enabled(s, l) && !l.Work? && Anchored(s.db) && w in s.db.wfs
    requires l.Start? ==> !Stale(s.db, w, s.claims.now, cfg.maxAge)
    ensures Leaves(s.db, Step(cfg, s, l).db, w)
  {
    if l.Start? {
      ReaperLeaves(s.db, s.claims.now, cfg.maxAge, w);
    } else if l.Decide? {
      OperatorLeaves(s.db, l.approval, l.decision, w);
    }
  }

  lemma WorkIsFair(cfg: Config, s: State, l: Label, w: nat)
    requires RowsOk(s) && l.Work? && w in s.db.wfs && l.x in s.workers && l.x in s.jobs.hands
    requires FreshId(s, s.workers[l.x].act, l.id)
    requires s.workers[l.x].act.InPipe? ==> s.workers[l.x].act.frame.wf != w
    ensures Leaves(s.db, WorkStep(cfg, s, l).db, w)
  {
    if s.workers[l.x].act.InPipe? {
      PipeIsFair(cfg, s, l.x, l.out, l.id, l.text, w);
    } else {
      HandIsFair(cfg, s, l, w);
    }
  }

  lemma PipeIsFair(cfg: Config, s: State, x: nat, out: Outcome, id: nat, text: string, w: nat)
    requires RowsOk(s) && x in s.workers && s.workers[x].act.InPipe? && x in s.jobs.hands
    requires w in s.db.wfs && s.workers[x].act.frame.wf != w && FreshFor(s.db, s.workers[x].act.frame.pc, id)
    ensures var InPipe(f, win, att) := s.workers[x].act;
      Leaves(s.db, PipeStep(cfg, s, x, f, win, att, out, id, text).db, w)
  {
    var InPipe(f, win, att) := s.workers[x].act;
    HandlerOwns(s, x);
    PipeTables(cfg, s, x, f, win, att, out, id, text);
    AnotherHandlerLeaves(s.db, f, s.ledgers[f.wf].led, out, id, text, w);
  }

  lemma HandIsFair(cfg: Config, s: State, l: Label, w: nat)
    requires Anchored(s.db) && l.Work? && w in s.db.wfs && l.x in s.workers && l.x in s.jobs.hands
    requires !s.workers[l.x].act.InPipe? && FreshId(s, s.workers[l.x].act, l.id)
    ensures Leaves(s.db, WorkStep(cfg, s, l).db, w)
  {
    var act := s.workers[l.x].act;
    var h := Handler(s.jobs.hands[l.x]);
    if act.Dispatch? && h.Some? && h.value.Demo? && l.out == Ok {
      InsertLeaves(s.db, l.id, h.value, s.claims.now, w);
    } else if act.Won? && l.out == Ok {
      InsertLeaves(s.db, l.id, Commit(act.key), s.claims.now, w);
    } else {
      HandLeavesTables(cfg, s, l);
    }
  }

  lemma HandLeavesTables(cfg: Config, s: State, l: Label)
    requires l.Work? && l.x in s.workers && l.x in s.jobs.hands && !s.workers[l.x].act.InPipe?
    requires var h := Handler(s.jobs.hands[l.x]);
      !(l.out == Ok && (s.workers[l.x].act.Won? || (s.workers[l.x].act.Dispatch? && h.Some? && h.value.Demo?)))
    ensures WorkStep(cfg, s, l).db == s.db
  {
  }

  // --------------------------------------------------------------------------
  // A handler's part of a run
  // --------------------------------------------------------------------------

  lemma LeavesItself(db: Db, w: nat)
    requires Anchored(db) && w in db.wfs
    ensures Leaves(db, db, w)
  {
  }

  lemma LeavesOn(a: Db, b: Db, c: Db, w: nat)
    requires Leaves(a, b, w) && Leaves(b, c, w)
    ensures Leaves(a, c, w)
  {
    assert forall t | t in a.apprs && a.apprs[t].wf == w :: b.apprs[t].wf == w by {
      forall t | t in a.apprs && a.apprs[t].wf == w ensures b.apprs[t].wf == w {
        assert Undecided(b.apprs[t]) == Undecided(a.apprs[t]);
      }
    }
  }

  predicate Busy(s: State, x: nat) {
    x in s.workers && s.workers[x].act.InPipe?
  }

  /** The fates that the handler of worker `x` meets in the run: at each of its steps,
      the tables as they are then, its key, its outcome and its text. */
  ghost function Fates(cfg: Config, s: State, ls: seq<Label>, x: nat): seq<Fate>
    requires Possible(cfg, s, ls)
    decreases |ls|
  {
    if ls == [] || !Busy(s, x) then []
    else
      var rest := Fates(cfg, Step(cfg, s, ls[0]), ls[1..], x);
      if ls[0].Work? && ls[0].x == x then [Fate(s.db, ls[0].id, ls[0].out, ls[0].text)] + rest else rest
  }

  /** The handler of worker `x` comes to its end in the run. */
  ghost predicate Finishes(cfg: Config, s: State, ls: seq<Label>, x: nat)
    requires Possible(cfg, s, ls)
    decreases |ls|
  {
    && ls != [] && Busy(s, x)
    && var s' := Step(cfg, s, ls[0]);
      if ls[0].Work? && ls[0].x == x && !Busy(s', x) then true else Finishes(cfg, s', ls[1..], x)
  }

  /** The state in which the handler of worker `x` takes its last step, and that step. */
  ghost function LastStep(cfg: Config, s: State, ls: seq<Label>, x: nat): (r: (State, Label))
    requires Possible(cfg, s, ls) && Finishes(cfg, s, ls, x)
    ensures Enabled(r.0, r.1) && r.1.Work? && r.1.x == x
    decreases |ls|
  {
    if ls[0].Work? && ls[0].x == x && !Busy(Step(cfg, s, ls[0]), x) then (s, ls[0])
    else LastStep(cfg, Step(cfg, s, ls[0]), ls[1..], x)
  }

  /** The handler of worker `x` is still at work after the run. */
  ghost predicate Persists(cfg: Config, s: State, ls: seq<Label>, x: nat)
    requires Possible(cfg, s, ls)
    decreases |ls|
  {
    Busy(s, x) && (ls == [] || Persists(cfg, Step(cfg, s, ls[0]), ls[1..], x))
  }

  lemma OthersKeepWorker(cfg: Config, s: State, l: Label, x: nat)
    requires Enabled(s, l) && Busy(s, x) && !(l.Work? && l.x == x)
    ensures var s' := Step(cfg, s, l); x in s'.workers ==> s'.workers[x] == s.workers[x]
  {
    if l.Work? {
      WorkOnlyWorker(cfg, s, l);
    }
  }

  /** The tables and locals of worker `x` agree with the walk's. */
  ghost predicate Matches(y: World, g: Frame, s: State, x: nat) {
    Busy(s, x) && s.workers[x].act.frame == g && !Ended(g.pc) && Leaves(y.db, s.db, g.wf)
  }

  /** What the walk of one handler says of the run. */
  ghost predicate Told(cfg: Config, s: State, ls: seq<Label>, x: nat, x0: World, f: Frame)
    requires Possible(cfg, s, ls)
  {
    && ValidPc(f.prog, f.pc) && FairWalk(x0, f)
    && var (y, g) := Walk(x0, f);
      && y.tape == []
      && (Finishes(cfg, s, ls, x) ==>
            && Ended(g.pc)
            && var (before, l) := LastStep(cfg, s, ls, x);
              y.db == Step(cfg, before, l).db && EndsAs(before, Step(cfg, before, l), x, g))
      && (Persists(cfg, s, ls, x) ==> Matches(y, g, Run(cfg, s, ls), x))
  }

  /** In a safe run, what one handler does, cut out of everything around it, is a fair
      walk of its code on the fates it met: it takes every step the code takes, ends
      where the code ends, and while it is at work its locals and its rows are the
      code's. */
  lemma {:induction false} HandlerIsAWalk(cfg: Config, s: State, ls: seq<Label>, x: nat, x0: World)
    requires Possible(cfg, s, ls) && SafeRun(cfg, s, ls) && RowsGood(cfg, s) && Busy(s, x)
    requires x0.tape == Fates(cfg, s, ls, x) && Leaves(x0.db, s.db, s.workers[x].act.frame.wf)
    ensures Told(cfg, s, ls, x, x0, s.workers[x].act.frame)
    decreases |ls|
  {
    hide Step, Enabled, Told, Fates, Leaves, RowsGood;
    BusyIsValid(cfg, s, x);
    if ls == [] {
      NothingTold(cfg, s, x, x0);
    } else {
      RowsGoodKept(cfg, s, ls[0]);
      var s' := Step(cfg, s, ls[0]);
      if ls[0].Work? && ls[0].x == x {
        OwnStepTold(cfg, s, ls, x, x0);
        var next := One(x0, s.workers[x].act.frame).0;
        if Busy(s', x) {
          HandlerIsAWalk(cfg, s', ls[1..], x, next);
        }
        OwnStepIsAWalk(cfg, s, ls, x, x0);
      } else {
        OtherStepTold(cfg, s, ls, x, x0);
        if Busy(s', x) {
          HandlerIsAWalk(cfg, s', ls[1..], x, x0);
        }
        OtherStepIsAWalk(cfg, s, ls, x, x0);
      }
    }
  }

  lemma NothingTold(cfg: Config, s: State, x: nat, x0: World)
    requires Busy(s, x) && x0.tape == Fates(cfg, s, [], x)
    requires var f := s.workers[x].act.frame; ValidPc(f.prog, f.pc) && !Ended(f.pc) && Leaves(x0.db, s.db, f.wf)
    ensures Told(cfg, s, [], x, x0, s.workers[x].act.frame)
  {
  }

  lemma OwnStepIsAWalk(cfg: Config, s: State, ls: seq<Label>, x: nat, x0: World)
    requires Possible(cfg, s, ls) && ls != [] && ls[0].Work? && ls[0].x == x && Busy(s, x) && x0.tape != []
    requires var f := s.workers[x].act.frame;
      var s' := Step(cfg, s, ls[0]);
      var (y, g) := One(x0, f);
      && ValidPc(f.prog, f.pc) && !Ended(f.pc) && FairStep(x0, f)
      && (Busy(s', x) <==> !Ended(g.pc)) && (!Busy(s', x) ==> y.tape == [] && y.db == s'.db && EndsAs(s, s', x, g))
      && (Busy(s', x) ==> s'.workers[x].act.frame == g && Told(cfg, s', ls[1..], x, y, g))
    ensures Told(cfg, s, ls, x, x0, s.workers[x].act.frame)
  {
    hide Step, Enabled, One, FairStep, Leaves;
    var f := s.workers[x].act.frame;
    var s' := Step(cfg, s, ls[0]);
    OneIsValid(x0, f);
    var (y, g) := One(x0, f);
    assert Walk(x0, f) == Walk(y, g) && (FairWalk(x0, f) <==> FairWalk(y, g));
    if !Busy(s', x) {
      assert !Persists(cfg, s', ls[1..], x);
    }
  }

  lemma OtherStepIsAWalk(cfg: Config, s: State, ls: seq<Label>, x: nat, x0: World)
    requires Possible(cfg, s, ls) && ls != [] && !(ls[0].Work? && ls[0].x == x) && Busy(s, x)
    requires var f := s.workers[x].act.frame;
      var s' := Step(cfg, s, ls[0]);
      && ValidPc(f.prog, f.pc) && (!Busy(s', x) ==> x0.tape == [])
      && (Busy(s', x) ==> Told(cfg, s', ls[1..], x, x0, f))
    ensures Told(cfg, s, ls, x, x0, s.workers[x].act.frame)
  {
    hide Step, Enabled, One, FairStep, Leaves;
    var s' := Step(cfg, s, ls[0]);
    if !Busy(s', x) {
      assert !Persists(cfg, s', ls[1..], x) && !Finishes(cfg, s', ls[1..], x);
    }
  }

  lemma BusyIsValid(cfg: Config, s: State, x: nat)
    requires RowsGood(cfg, s) && Busy(s, x)
    ensures var f := s.workers[x].act.frame; ValidPc(f.prog, f.pc) && !Ended(f.pc)
  {
    HandlerOwns(s, x);
  }

  lemma OwnStepTold(cfg: Config, s: State, ls: seq<Label>, x: nat, x0: World)
    requires Possible(cfg, s, ls) && ls != [] && ls[0].Work? && ls[0].x == x && RowsGood(cfg, s) && Busy(s, x)
    requires RowsGood(cfg, Step(cfg, s, ls[0]))
    requires x0.tape == Fates(cfg, s, ls, x) && Leaves(x0.db, s.db, s.workers[x].act.frame.wf)
    ensures var f := s.workers[x].act.frame;
      var s' := Step(cfg, s, ls[0]);
      var (y, g) := One(x0, f);
      && FairStep(x0, f) && x0.tape != [] && y.tape == Fates(cfg, s', ls[1..], x)
      && (Busy(s', x) <==> !Ended(g.pc)) && (!Busy(s', x) ==> y.tape == [] && y.db == s'.db && EndsAs(s, s', x, g))
      && (Busy(s', x) ==> s'.workers[x].act.frame == g && Leaves(y.db, s'.db, g.wf))
  {
    var InPipe(f, win, att) := s.workers[x].act;
    var l := ls[0];
    WorkIsTheCodesStep(cfg, s, x, l.out, l.id, l.text, x0);
    var s' := Step(cfg, s, l);
    if Busy(s', x) {
      HandlerOwns(s', x);
      LeavesItself(s'.db, s'.workers[x].act.frame.wf);
    }
  }

  lemma OtherStepTold(cfg: Config, s: State, ls: seq<Label>, x: nat, x0: World)
    requires Possible(cfg, s, ls) && ls != [] && !(ls[0].Work? && ls[0].x == x) && RowsGood(cfg, s) && Busy(s, x)
    requires Safe(cfg, s, ls[0])
    requires x0.tape == Fates(cfg, s, ls, x) && Leaves(x0.db, s.db, s.workers[x].act.frame.wf)
    ensures var s' := Step(cfg, s, ls[0]);
      && x0.tape == Fates(cfg, s', ls[1..], x) && (!Busy(s', x) ==> x0.tape == [])
      && (Busy(s', x) ==> s'.workers[x] == s.workers[x] && Leaves(x0.db, s'.db, s.workers[x].act.frame.wf))
  {
    OwnersApart(cfg, s);
    OthersKeepWorker(cfg, s, ls[0], x);
    OthersAreFair(cfg, s, ls[0], x);
    LeavesOn(x0.db, s.db, Step(cfg, s, ls[0]).db, s.workers[x].act.frame.wf);
  }

  /** So a handler that comes to its end in a safe run is a fair drive of its code: the
      tables after its last step are the drive's, and it finishes its job exactly if
      the drive returns. */
  lemma FinishedHandlerIsADrive(cfg: Config, before: seq<Label>, ls: seq<Label>, x: nat, serial: nat)
    requires Possible(cfg, INIT, before) && SafeRun(cfg, INIT, before)
    requires var s := Run(cfg, INIT, before);
      Possible(cfg, s, ls) && SafeRun(cfg, s, ls) && Busy(s, x) && Finishes(cfg, s, ls, x)
    ensures var s := Run(cfg, INIT, before);
      var f := s.workers[x].act.frame;
      var x0 := World(s.db, serial, Fates(cfg, s, ls, x));
      && ValidPc(f.prog, f.pc) && Fair(x0, f)
      && var (y, g) := Drive(x0, f);
        var (last, l) := LastStep(cfg, s, ls, x);
        && y.tape == [] && y.db == Step(cfg, last, l).db && EndsAs(last, Step(cfg, last, l), x, g)
  {
    ReachableIsRowsGood(cfg, before);
    var s := Run(cfg, INIT, before);
    var f := s.workers[x].act.frame;
    var x0 := World(s.db, serial, Fates(cfg, s, ls, x));
    HandlerOwns(s, x);
    LeavesItself(s.db, f.wf);
    HandlerIsAWalk(cfg, s, ls, x, x0);
    WalkThenDrive(x0, f);
  }
}
