/** Failures over every safe run: which endings a handler's failing steps allow. */
module Faults {
  import opened Common
  import opened Programs
  import opened ProgramProofs
  import opened Tables
  import opened Runtime
  import opened RuntimeOwners
  import opened RuntimeRows
  import opened RowTheorems
  import opened Interference
  import opened Orphans
  import opened FailurePaths
  import Handlers
  import TaskTheorems
  import UnsafeStarts

  /** A step of the handler of `w` ends in a way that its run does not tolerate. */
  predicate Falters(s: State, l: Label, w: nat) {
    Moves(s, l, w) && !Tolerated(s.workers[l.x].act.frame.prog, s.workers[l.x].act.frame.pc, l.out)
  }

  ghost predicate FaltersIn(cfg: Config, s: State, ls: seq<Label>, w: nat)
    requires Possible(cfg, s, ls)
    decreases |ls|
  {
    ls != [] && (Falters(s, ls[0], w) || FaltersIn(cfg, Step(cfg, s, ls[0]), ls[1..], w))
  }

  /** A failure in stage `k` that the handler of `w` catches. */
  predicate Catches(s: State, l: Label, w: nat, k: nat) {
    Moves(s, l, w) && Caught(s.workers[l.x].act.frame.prog, s.workers[l.x].act.frame.pc, l.out, k)
  }

  ghost predicate CatchesIn(cfg: Config, s: State, ls: seq<Label>, w: nat, k: nat)
    requires Possible(cfg, s, ls)
    decreases |ls|
  {
    ls != [] && (Catches(s, ls[0], w, k) || CatchesIn(cfg, Step(cfg, s, ls[0]), ls[1..], w, k))
  }

  // --------------------------------------------------------------------------
  // One step
  // --------------------------------------------------------------------------

  /** The history of row `w` says that its run cannot return any more. */
  predicate LostAt(s: State, w: nat) {
    w in s.ledgers && Lost(s.ledgers[w].led.prog, s.ledgers[w].led.pc)
  }

  lemma LedgerIsValid(s: State, w: nat)
    requires RowsOk(s) && w in s.ledgers
    ensures ValidPc(s.ledgers[w].led.prog, s.ledgers[w].led.pc)
  {
    assert RowOk(s, w);
  }

  lemma FaultStep(cfg: Config, s: State, l: Label, w: nat)
    requires RowsGood(cfg, s) && Enabled(s, l) && Safe(cfg, s, l)
    ensures LostAt(Step(cfg, s, l), w) <==> LostAt(s, w) || Falters(s, l, w)
  {
    hide Step, Enabled, Safe, RowsGood, RowsOk, Lost, Tolerated, ValidPc, Next;
    GoodRows(cfg, s);
    if w in s.ledgers {
      var led := s.ledgers[w].led;
      LedgerStep(cfg, s, l, w);
      LedgerIsValid(s, w);
      if Moves(s, l, w) {
        if Lost(led.prog, led.pc) {
          LostForGood(led.prog, led.pc, l.out);
        } else if Tolerated(led.prog, led.pc, l.out) {
          ToleratedKeeps(led.prog, led.pc, l.out);
        } else {
          FaultLoses(led.prog, led.pc, l.out);
        }
      }
    } else {
      NoRowNoFault(cfg, s, l, w);
      NotLostYet(s, Step(cfg, s, l), w);
    }
  }

  lemma NotLostYet(s: State, s': State, w: nat)
    requires w !in s.ledgers && (w in s'.ledgers ==> s'.ledgers[w].led.pc in {Attach, Create(0)})
    ensures !LostAt(s, w) && !LostAt(s', w)
  {
  }

  lemma NoRowNoFault(cfg: Config, s: State, l: Label, w: nat)
    requires RowsGood(cfg, s) && Enabled(s, l) && Safe(cfg, s, l) && w !in s.ledgers
    ensures !Moves(s, l, w)
    ensures w in Step(cfg, s, l).ledgers ==> Step(cfg, s, l).ledgers[w].led.pc in {Attach, Create(0)}
  {
    hide Step, Enabled, Safe, RowsGood, RowsOk;
    GoodRows(cfg, s);
    if Moves(s, l, w) {
      HandlerLedger(s, l.x);
    }
    if w in Step(cfg, s, l).ledgers {
      NewLedger(cfg, s, l, w);
      RowsGoodKept(cfg, s, l);
      GoodRows(cfg, Step(cfg, s, l));
      TaskTheorems.StartsAtEntry(cfg, s, l);
      HandlerLedger(Step(cfg, s, l), l.x);
    }
  }

  // --------------------------------------------------------------------------
  // Completed means no failure
  // --------------------------------------------------------------------------

  lemma {:induction false} FaultsAreLost(cfg: Config, s: State, ls: seq<Label>, w: nat)
    requires Possible(cfg, s, ls) && SafeRun(cfg, s, ls) && RowsGood(cfg, s)
    ensures LostAt(Run(cfg, s, ls), w) <==> LostAt(s, w) || FaltersIn(cfg, s, ls, w)
    decreases |ls|
  {
    hide Step, Enabled, Safe, RowsGood, LostAt, Falters;
    if ls != [] {
      FaultStep(cfg, s, ls[0], w);
      RowsGoodKept(cfg, s, ls[0]);
      FaultsAreLost(cfg, Step(cfg, s, ls[0]), ls[1..], w);
    }
  }

  lemma EndOfRow(s: State, w: nat)
    requires RowsOk(s) && w in s.db.wfs
    ensures w in s.ledgers
    ensures s.db.wfs[w].status == Completed <==> Ended(s.ledgers[w].led.pc) && !LostAt(s, w)
    ensures s.db.wfs[w].status == Failed <==> s.ledgers[w].led.pc.Broken?
  {
    assert RowOk(s, w);
    var e := s.ledgers[w];
    assert s.db.wfs[w].status == Expected(e).status;
    hide RowOk, Agrees, LedgerInv, Lost;
    EndOfLedger(e.led);
  }

  lemma EndOfLedger(l: Ledger)
    requires LedgerInv(l)
    ensures l.rows.status == Completed <==> Ended(l.pc) && !Lost(l.prog, l.pc)
    ensures l.rows.status == Failed <==> l.pc.Broken?
    ensures l.rows.status != Interrupted
  {
    EndedStatus(l);
    StageIsSane(l.prog, l.pc);
    hide StageAt, ValidPc;
    if Ended(l.pc) {
      Handlers.EndingShows(l);
    }
  }

  /** In every safe run, a workflow row is completed if and only if its handler has come
      to its end and met no failure on the way: every LLM call, subprocess, transaction
      and log append of its went through, but for the two indexing steps and the exit
      of the MP4 render. */
  lemma CompletedMeansNoFault(cfg: Config, ls: seq<Label>, w: nat)
    requires Possible(cfg, INIT, ls) && SafeRun(cfg, INIT, ls) && w in Run(cfg, INIT, ls).db.wfs
    ensures var s := Run(cfg, INIT, ls);
      && w in s.ledgers
      && (s.db.wfs[w].status == Completed <==> Ended(s.ledgers[w].led.pc) && !FaltersIn(cfg, INIT, ls, w))
  {
    hide RowsGood, RowsOk, Run, FaltersIn, SafeRun, Possible, LostAt;
    Nothing(cfg, w);
    ReachableIsRowsGood(cfg, ls);
    FaultsAreLost(cfg, INIT, ls, w);
    GoodRows(cfg, Run(cfg, INIT, ls));
    EndOfRow(Run(cfg, INIT, ls), w);
  }

  lemma Nothing(cfg: Config, w: nat)
    ensures RowsGood(cfg, INIT) && !LostAt(INIT, w)
  {
    InitOwners(cfg);
  }

  // --------------------------------------------------------------------------
  // Failed has its failure
  // --------------------------------------------------------------------------

  /** The stage whose except block is failing the workflow, or has failed it. */
  function FailingStage(p: Prog, pc: Pc): Option<nat> {
    match pc
    case FailTask(k) => if p.Demo? && k == 2 then None else Some(k)
    case ReadFail(k) => Some(k)
    case WriteFail(k) => Some(k)
    case Broken(k) => Some(k)
    case _ => None
  }

  predicate FailingAt(s: State, w: nat, k: nat) {
    w in s.ledgers && FailingStage(s.ledgers[w].led.prog, s.ledgers[w].led.pc) == Some(k)
  }

  lemma FailingFrom(p: Prog, pc: Pc, out: Outcome, k: nat)
    requires ValidPc(p, pc) && !Ended(pc) && FailingStage(p, Next(p, pc, out)) == Some(k)
    ensures FailingStage(p, pc) == Some(k) || Caught(p, pc, out, k)
  {
  }

  lemma FailingStep(cfg: Config, s: State, l: Label, w: nat, k: nat)
    requires RowsGood(cfg, s) && Enabled(s, l) && Safe(cfg, s, l) && FailingAt(Step(cfg, s, l), w, k)
    ensures FailingAt(s, w, k) || Catches(s, l, w, k)
  {
    hide Step, Enabled, Safe, RowsGood, RowsOk, Caught, ValidPc, Next;
    GoodRows(cfg, s);
    if w in s.ledgers {
      LedgerStep(cfg, s, l, w);
      LedgerIsValid(s, w);
      if Moves(s, l, w) {
        FailingFrom(s.ledgers[w].led.prog, s.ledgers[w].led.pc, l.out, k);
      }
    } else {
      NoRowNoFault(cfg, s, l, w);
    }
  }

  lemma {:induction false} FailingHasItsFault(cfg: Config, s: State, ls: seq<Label>, w: nat, k: nat)
    requires Possible(cfg, s, ls) && SafeRun(cfg, s, ls) && RowsGood(cfg, s) && FailingAt(Run(cfg, s, ls), w, k)
    ensures FailingAt(s, w, k) || CatchesIn(cfg, s, ls, w, k)
    decreases |ls|
  {
    hide Step, Enabled, Safe, RowsGood, FailingAt, Catches;
    if ls != [] {
      RowsGoodKept(cfg, s, ls[0]);
      FailingHasItsFault(cfg, Step(cfg, s, ls[0]), ls[1..], w, k);
      if FailingAt(Step(cfg, s, ls[0]), w, k) {
        FailingStep(cfg, s, ls[0], w, k);
      }
    }
  }

  /** A failed row of program `p` with a failure in stage `k`: its last task is that
      stage's and failed, and the failed entry closes the log. */
  ghost predicate FailedIn(db: Db, w: nat, p: Prog, k: nat, t: nat) {
    && w in db.wfs && |db.wfs[w].log| > 1
    && db.wfs[w].log[0] == Started(p) && db.wfs[w].log[|db.wfs[w].log| - 1] == WorkflowFailed
    && k < 4 && t in db.tasks
    && db.tasks[t] == Task(w, StageName(p, k), Failed, db.tasks[t].result)
    && forall x | x in db.tasks && db.tasks[x].wf == w :: x <= t
  }

  /** In every safe run, a failed workflow row has a failure that its handler caught in
      some stage, and the task of that stage, its last, is failed with it. */
  lemma FailedHasItsFault(cfg: Config, ls: seq<Label>, w: nat) returns (p: Prog, k: nat, t: nat)
    requires Possible(cfg, INIT, ls) && SafeRun(cfg, INIT, ls)
    requires w in Run(cfg, INIT, ls).db.wfs && Run(cfg, INIT, ls).db.wfs[w].status == Failed
    ensures CatchesIn(cfg, INIT, ls, w, k) && FailedIn(Run(cfg, INIT, ls).db, w, p, k, t)
  {
    hide RowsGood, RowsOk, Run, CatchesIn, SafeRun, Possible, FailedIn;
    ReachableIsRowsGood(cfg, ls);
    var s := Run(cfg, INIT, ls);
    GoodRows(cfg, s);
    EndOfRow(s, w);
    p, k := s.ledgers[w].led.prog, s.ledgers[w].led.pc.k;
    t := BrokenRows(s, w);
    NothingFails(cfg, w, k);
    FailingHasItsFault(cfg, INIT, ls, w, k);
  }

  lemma NothingFails(cfg: Config, w: nat, k: nat)
    ensures RowsGood(cfg, INIT) && !FailingAt(INIT, w, k)
  {
    InitOwners(cfg);
  }

  lemma BrokenRows(s: State, w: nat) returns (t: nat)
    requires RowsOk(s) && w in s.ledgers && s.ledgers[w].led.pc.Broken? && s.db.wfs[w].status == Failed
    ensures FailedIn(s.db, w, s.ledgers[w].led.prog, s.ledgers[w].led.pc.k, t)
  {
    assert RowOk(s, w);
    var e := s.ledgers[w];
    assert !e.reaped;
    t := LastFailed(s.db, e.led);
  }

  lemma LastFailed(db: Db, l: Ledger) returns (t: nat)
    requires LedgerInv(l) && l.pc.Broken? && Agrees(db, l.wf, l.rows)
    ensures FailedIn(db, l.wf, l.prog, l.pc.k, t)
  {
    var n := |l.rows.tids| - 1;
    t := l.rows.tids[n];
    assert db.tasks[t] == l.rows.tasks[n];
    assert l.rows.log == LogAt(l.prog, l.pc.k) + [WorkflowFailed];
    forall x | x in db.tasks && db.tasks[x].wf == l.wf ensures x <= t {
      assert x in l.rows.tids;
    }
  }

  // --------------------------------------------------------------------------
  // From any state of a safe run
  // --------------------------------------------------------------------------

  /** The next step of the handler of `x`, seen in the history of its row. */
  lemma OwnAdvance(cfg: Config, s: State, x: nat, out: Outcome, id: nat)
    requires RowsGood(cfg, s) && Busy(s, x) && FreshFor(s.db, s.workers[x].act.frame.pc, id)
    ensures var l := Work(x, out, id, "");
      var w := s.workers[x].act.frame.wf;
      && Enabled(s, l) && Safe(cfg, s, l) && w in s.ledgers && Here(s, x, w)
      && var s' := Step(cfg, s, l);
        && RowsGood(cfg, s') && w in s'.ledgers && s'.ledgers[w].led == Advance(s.ledgers[w].led, out, id)
        && (!Ended(s'.ledgers[w].led.pc) ==> Handles(s', x, w))
  {
    hide Advance, Next, StepFrame, StepDb, RowsOk, RowsGood, PipeStep;
    var l := Work(x, out, id, "");
    GoodRows(cfg, s);
    TaskTheorems.GoodIsOk(cfg, s);
    HandlerLedger(s, x);
    RowsGoodKept(cfg, s, l);
    TaskTheorems.WorkIsPipe(cfg, s, l);
    var InPipe(f, win, att) := s.workers[x].act;
    PipeTables(cfg, s, x, f, win, att, out, id, "");
    HandlerGoesOn(cfg, s, x, out, id, "");
    AdvancePc(s.ledgers[f.wf].led, out, id);
  }

  lemma AdvancePc(l: Ledger, out: Outcome, id: nat)
    ensures Advance(l, out, id).pc == Next(l.prog, l.pc, out)
  {
  }

  lemma FailsNext(l: Ledger, id: nat, k: nat)
    requires l.pc in {FailTask(k), ReadFail(k), WriteFail(k)} && (l.prog.Commit? || k != 2)
    ensures Advance(l, Ok, id).pc
         == if l.pc == FailTask(k) then ReadFail(k) else if l.pc == ReadFail(k) then WriteFail(k) else Broken(k)
    ensures Advance(l, Ok, id).prog == l.prog
  {
  }

  /** One step of the except block. */
  lemma FailStep(cfg: Config, s: State, x: nat, w: nat, k: nat)
    requires RowsGood(cfg, s) && Handles(s, x, w) && w in s.ledgers
    requires var led := s.ledgers[w].led; led.pc in {FailTask(k), ReadFail(k), WriteFail(k)} && (led.prog.Commit? || k != 2)
    ensures var l := Work(x, Ok, 0, "");
      && Enabled(s, l) && Safe(cfg, s, l)
      && var s' := Step(cfg, s, l);
        && RowsGood(cfg, s') && w in s'.ledgers && s'.ledgers[w].led == Advance(s.ledgers[w].led, Ok, 0)
        && (s.ledgers[w].led.pc != WriteFail(k) ==> Handles(s', x, w))
  {
    hide RowsGood, RowsOk, Advance, Step, Enabled, Safe, FreshFor, ValidPc, Next, FreshId, Here;
    GoodRows(cfg, s);
    HandlerLedger(s, x);
    NoKeyNeeded(s.db, s.workers[x].act.frame.pc, k);
    OwnAdvance(cfg, s, x, Ok, 0);
    FailsNext(s.ledgers[w].led, 0, k);
  }

  lemma NoKeyNeeded(db: Db, pc: Pc, k: nat)
    requires pc in {FailTask(k), ReadFail(k), WriteFail(k)}
    ensures FreshFor(db, pc, 0)
  {
  }

  /** A live handler's row holds what its history says, and its locals name the last task. */
  lemma RowOfHandler(s: State, x: nat)
    requires RowsOk(s) && Busy(s, x)
    ensures var f := s.workers[x].act.frame;
      && f.wf in s.db.wfs && f.wf in s.ledgers && LedgerInv(s.ledgers[f.wf].led) && !Ended(f.pc)
      && s.ledgers[f.wf].led.pc == f.pc && s.ledgers[f.wf].led.prog == f.prog
      && s.db.wfs[f.wf].log == s.ledgers[f.wf].led.rows.log
      && var tids := s.ledgers[f.wf].led.rows.tids;
        |tids| == |s.ledgers[f.wf].led.rows.tasks| && (tids != [] ==> f.tid == tids[|tids| - 1])
  {
    assert HandlerOk(s, x);
    assert RowOk(s, s.workers[x].act.frame.wf);
  }

  lemma RowAtTheEnd(s: State, w: nat)
    requires RowsOk(s) && w in s.ledgers && s.ledgers[w].led.rows.status == Failed
    ensures var r := s.ledgers[w].led.rows;
      && w in s.db.wfs && s.db.wfs[w].status == Failed && s.db.wfs[w].log == r.log && |r.tids| == |r.tasks|
      && forall i | 0 <= i < |r.tids| :: r.tids[i] in s.db.tasks && s.db.tasks[r.tids[i]] == r.tasks[i] && r.tasks[i].wf == w
  {
    assert RowOk(s, w);
  }

  /** In any state of a safe run, a caught failure in stage `k` of a live handler and the
      handler's next three steps going through leave its row failed, its log closed by
      the failed entry, and the stage's task, its last, failed. */
  lemma FaultEndsFailed(cfg: Config, s: State, x: nat, out: Outcome, id: nat, k: nat) returns (ls: seq<Label>)
    requires RowsGood(cfg, s) && Busy(s, x) && FreshFor(s.db, s.workers[x].act.frame.pc, id)
    requires var f := s.workers[x].act.frame; Caught(f.prog, f.pc, out, k) && (f.prog.Commit? || k != 2)
    ensures ls == [Work(x, out, id, ""), Work(x, Ok, 0, ""), Work(x, Ok, 0, ""), Work(x, Ok, 0, "")]
    ensures Possible(cfg, s, ls) && SafeRun(cfg, s, ls)
    ensures var f := s.workers[x].act.frame; f.wf in s.db.wfs && EndsFailed(s.db, Run(cfg, s, ls).db, f, k)
  {
    hide RowsGood, Advance, Step, Enabled, Safe, FreshFor, Possible, SafeRun, Run, EndsFailed, Caught;
    var s4 := FaultChain(cfg, s, x, out, id, k);
    FailedAtTheEnd(cfg, s, x, out, id, k, s4);
    ls := [Work(x, out, id, ""), Work(x, Ok, 0, ""), Work(x, Ok, 0, ""), Work(x, Ok, 0, "")];
  }

  /** The failing step and the three of the except block. */
  lemma FaultChain(cfg: Config, s: State, x: nat, out: Outcome, id: nat, k: nat) returns (s4: State)
    requires RowsGood(cfg, s) && Busy(s, x) && FreshFor(s.db, s.workers[x].act.frame.pc, id)
    requires var f := s.workers[x].act.frame; Caught(f.prog, f.pc, out, k) && (f.prog.Commit? || k != 2)
    ensures RowsGood(cfg, s4)
    ensures var w := s.workers[x].act.frame.wf;
      w in s.ledgers && w in s4.ledgers && s4.ledgers[w].led == AfterFault(s.ledgers[w].led, out, id)
    ensures var ls := [Work(x, out, id, ""), Work(x, Ok, 0, ""), Work(x, Ok, 0, ""), Work(x, Ok, 0, "")];
      Possible(cfg, s, ls) && SafeRun(cfg, s, ls) && Run(cfg, s, ls) == s4
  {
    hide RowsGood, RowsOk, Advance, Step, Enabled, Safe, FreshFor, ValidPc, Next, Here, Possible, SafeRun, Run, LedgerInv,
      Caught;
    GoodRows(cfg, s);
    RowOfHandler(s, x);
    var w := s.workers[x].act.frame.wf;
    FaultRows(s.ledgers[w].led, out, id, k);
    var first, next := Work(x, out, id, ""), Work(x, Ok, 0, "");
    OwnAdvance(cfg, s, x, out, id);
    var s1 := Step(cfg, s, first);
    FailStep(cfg, s1, x, w, k);
    FailsNext(s1.ledgers[w].led, 0, k);
    var s2 := Step(cfg, s1, next);
    FailStep(cfg, s2, x, w, k);
    FailsNext(s2.ledgers[w].led, 0, k);
    var s3 := Step(cfg, s2, next);
    FailStep(cfg, s3, x, w, k);
    s4 := Step(cfg, s3, next);
    FourSteps(cfg, s, first, next);
  }

  lemma FourSteps(cfg: Config, s: State, first: Label, next: Label)
    requires Enabled(s, first) && Safe(cfg, s, first)
    requires var s1 := Step(cfg, s, first); Enabled(s1, next) && Safe(cfg, s1, next)
    requires var s2 := Step(cfg, Step(cfg, s, first), next); Enabled(s2, next) && Safe(cfg, s2, next)
    requires var s3 := Step(cfg, Step(cfg, Step(cfg, s, first), next), next); Enabled(s3, next) && Safe(cfg, s3, next)
    ensures var ls := [first, next, next, next];
      && Possible(cfg, s, ls) && SafeRun(cfg, s, ls)
      && Run(cfg, s, ls) == Step(cfg, Step(cfg, Step(cfg, Step(cfg, s, first), next), next), next)
  {
    hide Step, Enabled, Safe, Possible, SafeRun, Run;
    var s1 := Step(cfg, s, first);
    var s2 := Step(cfg, s1, next);
    var s3 := Step(cfg, s2, next);
    TaskTheorems.NothingMore(cfg, Step(cfg, s3, next));
    UnsafeStarts.OneMore(cfg, s3, next, []);
    UnsafeStarts.OneMore(cfg, s2, next, [next] + []);
    UnsafeStarts.OneMore(cfg, s1, next, [next] + ([next] + []));
    UnsafeStarts.OneMore(cfg, s, first, [next] + ([next] + ([next] + [])));
    assert [first] + ([next] + ([next] + ([next] + []))) == [first, next, next, next];
  }

  /** The row of a handler with locals `f` before its failure in stage `k`, and after. */
  ghost predicate EndsFailed(db: Db, db': Db, f: Frame, k: nat)
    requires f.wf in db.wfs
  {
    && f.wf in db'.wfs && db'.wfs[f.wf].status == Failed && db'.wfs[f.wf].log == db.wfs[f.wf].log + [WorkflowFailed]
    && k < 4 && f.tid in db'.tasks && db'.tasks[f.tid].wf == f.wf
    && db'.tasks[f.tid].status == Failed && db'.tasks[f.tid].kind == StageName(f.prog, k)
  }

  lemma FailedAtTheEnd(cfg: Config, s: State, x: nat, out: Outcome, id: nat, k: nat, s': State)
    requires RowsGood(cfg, s) && Busy(s, x) && RowsGood(cfg, s')
    requires var f := s.workers[x].act.frame;
      && Caught(f.prog, f.pc, out, k) && (f.prog.Commit? || k != 2) && f.wf in s.ledgers && f.wf in s'.ledgers
      && s'.ledgers[f.wf].led == AfterFault(s.ledgers[f.wf].led, out, id)
    ensures var f := s.workers[x].act.frame; f.wf in s.db.wfs && EndsFailed(s.db, s'.db, f, k)
  {
    hide RowsGood, RowsOk, AfterFault, LedgerInv, Caught, StageName;
    GoodRows(cfg, s);
    GoodRows(cfg, s');
    RowOfHandler(s, x);
    var w := s.workers[x].act.frame.wf;
    FaultFailsTheWorkflow(s.ledgers[w].led, out, id, k);
    RowAtTheEnd(s', w);
    SameTids(s.ledgers[w].led, out, id, k);
  }

  lemma SameTids(l: Ledger, out: Outcome, id: nat, k: nat)
    requires LedgerInv(l) && !Ended(l.pc) && Caught(l.prog, l.pc, out, k) && (l.prog.Commit? || k != 2)
    ensures AfterFault(l, out, id).rows.tids == l.rows.tids
  {
    FaultRows(l, out, id, k);
    ExceptBlock(Advance(l, out, id), k);
    hide LedgerInv, Caught, Effect, Next, StageName;
  }
}
