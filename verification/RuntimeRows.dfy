/** The rows of every workflow, over every run whose starts are safe. */
module RuntimeRows {
  import opened Common
  import opened Programs
  import opened ProgramProofs
  import opened Tables
  import opened TablesProofs
  import opened Runtime
  import opened RuntimeOwners
  import Dedup
  import RuntimeAnswers

  /** What the tables must hold for a workflow: what its owner wrote, or that and
      the reaper's entry on top. */
  function Expected(e: Entry): Rows {
    if e.reaped then ReapRows(e.led.rows) else e.led.rows
  }

  ghost predicate RowOk(s: State, w: nat)
    requires w in s.ledgers
  {
    var e := s.ledgers[w];
    && LedgerInv(e.led) && e.led.wf == w
    && (e.reaped ==> e.led.rows.status == Running)
    && Agrees(s.db, w, Expected(e))
  }

  /** A live handler and its ledger are at the same point, and no reaper took its
      workflow. */
  ghost predicate HandlerOk(s: State, x: nat)
    requires x in s.workers && s.workers[x].act.InPipe?
  {
    var f := s.workers[x].act.frame;
    && f.wf in s.ledgers
    && var e := s.ledgers[f.wf];
      !e.reaped && e.led.pc == f.pc && e.led.prog == f.prog && !Ended(f.pc) && FrameOk(f, e.led.rows)
  }

  ghost predicate RowsOk(s: State) {
    && Anchored(s.db) && s.ledgers.Keys == s.db.wfs.Keys
    && (forall w | w in s.ledgers :: RowOk(s, w))
    && (forall x | x in s.workers && s.workers[x].act.InPipe? :: HandlerOk(s, x))
  }

  /** Two handlers never work on one row. */
  ghost predicate Apart(s: State) {
    forall x, y | x in s.workers && y in s.workers && x != y && s.workers[x].act.InPipe? && s.workers[y].act.InPipe? ::
      s.workers[x].act.frame.wf != s.workers[y].act.frame.wf
  }

  lemma OwnersApart(cfg: Config, s: State)
    requires Owners(cfg, s)
    ensures Apart(s)
  {
    forall x, y | x in s.workers && y in s.workers && x != y && s.workers[x].act.InPipe? && s.workers[y].act.InPipe?
      ensures s.workers[x].act.frame.wf != s.workers[y].act.frame.wf
    {
      assert WorkerOk(s, x) && WorkerOk(s, y);
      HandIsRecorded(s.jobs, x);
      HandIsRecorded(s.jobs, y);
    }
  }

  // --------------------------------------------------------------------------
  // A handler's step
  // --------------------------------------------------------------------------

  lemma HandlerOwns(s: State, x: nat)
    requires RowsOk(s) && x in s.workers && s.workers[x].act.InPipe?
    ensures var f := s.workers[x].act.frame;
      f.wf in s.ledgers && LedgerInv(s.ledgers[f.wf].led) && Owns(s.db, f, s.ledgers[f.wf].led)
  {
    assert HandlerOk(s, x);
    var f := s.workers[x].act.frame;
    assert RowOk(s, f.wf);
    FitsIsReady(s.ledgers[f.wf].led);
  }

  lemma PipeOwnRow(cfg: Config, s: State, x: nat, out: Outcome, id: nat, text: string)
    requires RowsOk(s) && x in s.workers && s.workers[x].act.InPipe? && x in s.jobs.hands
    requires FreshFor(s.db, s.workers[x].act.frame.pc, id)
    ensures var InPipe(f, win, att) := s.workers[x].act;
      var s' := PipeStep(cfg, s, x, f, win, att, out, id, text);
      && f.wf in s'.ledgers && RowOk(s', f.wf) && Anchored(s'.db)
      && FrameOk(StepFrame(s.db, f, out, id, text), s'.ledgers[f.wf].led.rows)
      && s'.ledgers[f.wf].led.pc == Next(f.prog, f.pc, out) && !s'.ledgers[f.wf].reaped
  {
    var InPipe(f, win, att) := s.workers[x].act;
    HandlerOwns(s, x);
    var l := s.ledgers[f.wf].led;
    assert HandlerOk(s, x);
    PipeTables(cfg, s, x, f, win, att, out, id, text);
    OwnStep(s.db, f, l, out, id, text);
    AdvanceFits(l, out, id);
    StepKeepsAnchors(s.db, f, l, out, id, text);
  }

  lemma PipeOtherRow(cfg: Config, s: State, x: nat, out: Outcome, id: nat, text: string, v: nat)
    requires RowsOk(s) && x in s.workers && s.workers[x].act.InPipe? && x in s.jobs.hands
    requires FreshFor(s.db, s.workers[x].act.frame.pc, id)
    requires v in s.ledgers && v != s.workers[x].act.frame.wf
    ensures var InPipe(f, win, att) := s.workers[x].act;
      var s' := PipeStep(cfg, s, x, f, win, att, out, id, text);
      v in s'.ledgers && s'.ledgers[v] == s.ledgers[v] && RowOk(s', v)
  {
    hide PipeStep, StepDb, StepFrame, Agrees, LedgerInv, Anchored, FreshFor, HandlerOk, FrameOk;
    var InPipe(f, win, att) := s.workers[x].act;
    HandlerOwns(s, x);
    assert RowOk(s, v);
    PipeTables(cfg, s, x, f, win, att, out, id, text);
    OtherStep(s.db, f, s.ledgers[f.wf].led, out, id, text, v, Expected(s.ledgers[v]));
  }

  lemma PipeAllRows(cfg: Config, s: State, x: nat, out: Outcome, id: nat, text: string)
    requires RowsOk(s) && x in s.workers && s.workers[x].act.InPipe? && x in s.jobs.hands
    requires FreshFor(s.db, s.workers[x].act.frame.pc, id)
    ensures var InPipe(f, win, att) := s.workers[x].act;
      var s' := PipeStep(cfg, s, x, f, win, att, out, id, text);
      && Anchored(s'.db) && s'.ledgers.Keys == s.ledgers.Keys
      && forall v | v in s.ledgers :: RowOk(s', v)
  {
    hide RowOk, PipeStep, LedgerInv, Agrees, Anchored;
    var InPipe(f, win, att) := s.workers[x].act;
    PipeOwnRow(cfg, s, x, out, id, text);
    PipeTables(cfg, s, x, f, win, att, out, id, text);
    PipeOtherRows(cfg, s, x, out, id, text);
  }

  lemma PipeOtherRows(cfg: Config, s: State, x: nat, out: Outcome, id: nat, text: string)
    requires RowsOk(s) && x in s.workers && s.workers[x].act.InPipe? && x in s.jobs.hands
    requires FreshFor(s.db, s.workers[x].act.frame.pc, id)
    ensures var InPipe(f, win, att) := s.workers[x].act;
      var s' := PipeStep(cfg, s, x, f, win, att, out, id, text);
      forall v | v in s.ledgers && v != f.wf :: v in s'.ledgers && RowOk(s', v)
  {
    var InPipe(f, win, att) := s.workers[x].act;
    var s' := PipeStep(cfg, s, x, f, win, att, out, id, text);
    forall v | v in s.ledgers && v != f.wf ensures v in s'.ledgers && RowOk(s', v) {
      PipeOtherRow(cfg, s, x, out, id, text, v);
    }
  }

  lemma PipeRows(cfg: Config, s: State, x: nat, out: Outcome, id: nat, text: string)
    requires RowsOk(s) && Apart(s) && x in s.workers && s.workers[x].act.InPipe? && x in s.jobs.hands
    requires FreshFor(s.db, s.workers[x].act.frame.pc, id)
    ensures var InPipe(f, win, att) := s.workers[x].act;
      RowsOk(PipeStep(cfg, s, x, f, win, att, out, id, text))
  {
    var InPipe(f, win, att) := s.workers[x].act;
    assert HandlerOk(s, x);
    PipeEntries(cfg, s, x, f, win, att, out, id, text);
    PipeAllRows(cfg, s, x, out, id, text);
    PipeHandlers(cfg, s, x, out, id, text);
  }

  lemma PipeHandlers(cfg: Config, s: State, x: nat, out: Outcome, id: nat, text: string)
    requires RowsOk(s) && Apart(s) && x in s.workers && s.workers[x].act.InPipe? && x in s.jobs.hands
    requires FreshFor(s.db, s.workers[x].act.frame.pc, id)
    ensures var InPipe(f, win, att) := s.workers[x].act;
      var s' := PipeStep(cfg, s, x, f, win, att, out, id, text);
      forall y | y in s'.workers && s'.workers[y].act.InPipe? :: HandlerOk(s', y)
  {
    hide PipeStep, StepDb, StepFrame, Next, Anchored, LedgerInv, Agrees;
    var InPipe(f, win, att) := s.workers[x].act;
    var s' := PipeStep(cfg, s, x, f, win, att, out, id, text);
    assert HandlerOk(s, x);
    PipeOwnRow(cfg, s, x, out, id, text);
    RuntimeAnswers.PipeWorkers(cfg, s, x, f, win, att, out, id, text);
    FramesKeepIdentity(s.db, f, out, id, text);
    PipeTables(cfg, s, x, f, win, att, out, id, text);
    PipeGoesOn(cfg, s, x, f, win, att, out, id, text);
    forall y | y in s'.workers && s'.workers[y].act.InPipe? ensures HandlerOk(s', y) {
      if y != x {
        assert HandlerOk(s, y);
        assert s'.workers[y] == s.workers[y];
      }
    }
  }

  /** A handler that goes on has not ended. */
  lemma PipeGoesOn(cfg: Config, s: State, x: nat, f: Frame, win: nat, att: Option<nat>, out: Outcome, id: nat, text: string)
    requires x in s.workers && x in s.jobs.hands
    ensures var s' := PipeStep(cfg, s, x, f, win, att, out, id, text);
      s'.workers[x].act.InPipe? ==> !Ended(s'.workers[x].act.frame.pc)
  {
  }

  // --------------------------------------------------------------------------
  // Every other step
  // --------------------------------------------------------------------------

  lemma InsertRow(s: State, x: nat, p: Prog, w: nat, win: Option<nat>, v: nat)
    requires Anchored(s.db) && x in s.workers && x in s.jobs.hands && w !in s.db.wfs
    requires v == w || (v in s.ledgers && RowOk(s, v))
    ensures RowOk(Insert(s, x, p, w, win), v)
  {
    InsertAgrees(s.db, w, p, s.claims.now);
    BeginFits(p, w);
    if v != w {
      InsertLeavesOthers(s.db, w, p, s.claims.now, v, Expected(s.ledgers[v]));
    }
  }

  lemma InsertRows(s: State, x: nat, p: Prog, w: nat, win: Option<nat>)
    requires RowsOk(s) && x in s.workers && x in s.jobs.hands && w !in s.db.wfs
    ensures RowsOk(Insert(s, x, p, w, win))
  {
    var s' := Insert(s, x, p, w, win);
    forall v | v in s'.ledgers ensures RowOk(s', v) { InsertRow(s, x, p, w, win, v); }
    InsertAgrees(s.db, w, p, s.claims.now);
    InsertHandlers(s, x, p, w, win);
  }

  lemma InsertHandlers(s: State, x: nat, p: Prog, w: nat, win: Option<nat>)
    requires RowsOk(s) && x in s.workers && x in s.jobs.hands && w !in s.db.wfs
    ensures var s' := Insert(s, x, p, w, win);
      forall y | y in s'.workers && s'.workers[y].act.InPipe? :: HandlerOk(s', y)
  {
    hide Anchored, LedgerInv, Agrees;
    var s' := Insert(s, x, p, w, win);
    forall y | y in s'.workers && s'.workers[y].act.InPipe? ensures HandlerOk(s', y) {
      if y != x {
        assert HandlerOk(s, y);
      }
    }
  }

  /** The reaper marks exactly the stale rows; when the start is safe none of them
      has a live handler. */
  lemma StartRows(cfg: Config, s: State, proc: nat, ids: set<nat>)
    requires RowsOk(s) && Safe(cfg, s, Start(proc, ids)) && ids !! s.workers.Keys
    ensures RowsOk(StartStep(cfg, s, proc, ids))
  {
    hide RowOk, HandlerOk, StartStep, Anchored, Safe;
    var s' := StartStep(cfg, s, proc, ids);
    StartKeepsTables(cfg, s, proc, ids);
    StartHandlers(cfg, s, proc, ids);
    forall w | w in s'.ledgers ensures RowOk(s', w) {
      StartRow(cfg, s, proc, ids, w);
    }
  }

  lemma StartKeepsTables(cfg: Config, s: State, proc: nat, ids: set<nat>)
    requires Anchored(s.db)
    ensures var s' := StartStep(cfg, s, proc, ids);
      Anchored(s'.db) && s'.ledgers.Keys == s.ledgers.Keys && s'.db.wfs.Keys == s.db.wfs.Keys
  {
  }

  lemma StartHandlers(cfg: Config, s: State, proc: nat, ids: set<nat>)
    requires RowsOk(s) && Safe(cfg, s, Start(proc, ids)) && ids !! s.workers.Keys
    ensures var s' := StartStep(cfg, s, proc, ids);
      forall y | y in s'.workers && s'.workers[y].act.InPipe? :: HandlerOk(s', y)
  {
    hide RowOk, Anchored, Reap;
    var s' := StartStep(cfg, s, proc, ids);
    forall y | y in s'.workers && s'.workers[y].act.InPipe? ensures HandlerOk(s', y) {
      assert HandlerOk(s, y);
    }
  }

  lemma StartRow(cfg: Config, s: State, proc: nat, ids: set<nat>, w: nat)
    requires w in s.ledgers && RowOk(s, w)
    ensures RowOk(StartStep(cfg, s, proc, ids), w)
  {
    ReapTasks(s.db, s.claims.now, cfg.maxAge, w, Expected(s.ledgers[w]));
  }

  lemma DecideRows(s: State, s': State, a: nat, decision: string)
    requires RowsOk(s) && s' == s.(db := DecideStep(s.db, a, decision))
    ensures RowsOk(s')
  {
    assert Anchored(s'.db) && s'.db.wfs == s.db.wfs;
    forall w | w in s'.ledgers ensures RowOk(s', w) { DecideRow(s, s', a, decision, w); }
    forall y | y in s'.workers && s'.workers[y].act.InPipe? ensures HandlerOk(s', y) {
      assert HandlerOk(s, y);
    }
  }

  lemma DecideRow(s: State, s': State, a: nat, decision: string, w: nat)
    requires w in s.ledgers && RowOk(s, w) && s' == s.(db := DecideStep(s.db, a, decision))
    ensures RowOk(s', w)
  {
    DecideAgrees(s.db, a, decision, w, Expected(s.ledgers[w]));
  }

  lemma DecideAgrees(db: Db, a: nat, decision: string, w: nat, r: Rows)
    requires Agrees(db, w, r)
    ensures Agrees(DecideStep(db, a, decision), w, r)
  {
  }

  /** Steps that leave tables and handlers alone. */
  lemma StillRows(s: State, s': State)
    requires RowsOk(s) && s'.db == s.db && s'.ledgers == s.ledgers
    requires forall x | x in s'.workers && s'.workers[x].act.InPipe? :: x in s.workers && s'.workers[x].act == s.workers[x].act
    ensures RowsOk(s')
  {
    forall w | w in s'.ledgers ensures RowOk(s', w) {
      assert RowOk(s, w);
    }
    forall y | y in s'.workers && s'.workers[y].act.InPipe? ensures HandlerOk(s', y) {
      assert HandlerOk(s, y);
    }
  }

  lemma HandRows(cfg: Config, s: State, l: Label)
    requires Enabled(s, l) && RowsOk(s) && l.Work? && !s.workers[l.x].act.InPipe?
    ensures RowsOk(Step(cfg, s, l))
  {
    hide PipeStep, MissedStep, PushStep, RowOk, HandlerOk, Anchored, Insert;
    var act := s.workers[l.x].act;
    var h := Handler(s.jobs.hands[l.x]);
    if act.Dispatch? && h.Some? && h.value.Demo? && l.out == Ok {
      InsertRows(s, l.x, h.value, l.id, None);
    } else if act.Won? && l.out == Ok {
      InsertRows(s, l.x, Commit(act.key), l.id, Some(act.win));
    } else {
      HandLeavesRows(cfg, s, l);
      StillRows(s, Step(cfg, s, l));
    }
  }

  lemma HandLeavesRows(cfg: Config, s: State, l: Label)
    requires l.Work? && l.x in s.workers && l.x in s.jobs.hands && !s.workers[l.x].act.InPipe?
    requires var h := Handler(s.jobs.hands[l.x]);
      !(l.out == Ok && (s.workers[l.x].act.Won? || (s.workers[l.x].act.Dispatch? && h.Some? && h.value.Demo?)))
    ensures var s' := WorkStep(cfg, s, l);
      && s'.db == s.db && s'.ledgers == s.ledgers
      && forall x | x in s'.workers && s'.workers[x].act.InPipe? :: x in s.workers && s'.workers[x].act == s.workers[x].act
  {
    hide PipeStep, DispatchStep, WonStep, MissedStep, PushStep;
    match s.workers[l.x].act
    case Dispatch => DispatchLeavesRows(cfg, s, l.x, l.out, l.id);
    case Won(k, win) => WonLeavesRows(s, l.x, k, win, l.out, l.id);
    case Missed(k) => LetGoLeavesRows(s, l.x, k, l.out, l.text);
    case Pushing => LetGoLeavesRows(s, l.x, Key("", ""), l.out, l.text);
    case _ =>
  }

  /** Tables, histories and handlers stay. */
  predicate RowsLeft(s: State, s': State) {
    && s'.db == s.db && s'.ledgers == s.ledgers
    && forall x | x in s'.workers && s'.workers[x].act.InPipe? :: x in s.workers && s'.workers[x].act == s.workers[x].act
  }

  lemma DispatchLeavesRows(cfg: Config, s: State, x: nat, out: Outcome, id: nat)
    requires x in s.workers && x in s.jobs.hands
    requires var h := Handler(s.jobs.hands[x]); !(out == Ok && h.Some? && h.value.Demo?)
    ensures RowsLeft(s, DispatchStep(cfg, s, x, out, id))
  {
    hide Dedup.Apply, Insert;
  }

  lemma WonLeavesRows(s: State, x: nat, k: Key, win: nat, out: Outcome, id: nat)
    requires x in s.workers && x in s.jobs.hands && out != Ok
    ensures RowsLeft(s, WonStep(s, x, k, win, out, id))
  {
  }

  lemma LetGoLeavesRows(s: State, x: nat, k: Key, out: Outcome, text: string)
    requires x in s.workers && x in s.jobs.hands
    ensures RowsLeft(s, MissedStep(s, x, k, out)) && RowsLeft(s, PushStep(s, x, out, text))
  {
    hide SkipAnswer;
  }

  /** Every step keeps every workflow's rows equal to what its owner wrote. */
  lemma RowsKept(cfg: Config, s: State, l: Label)
    requires Enabled(s, l) && Safe(cfg, s, l) && RowsOk(s) && Apart(s)
    ensures RowsOk(Step(cfg, s, l))
  {
    if l.Start? {
      StartRows(cfg, s, l.proc, l.ids);
    } else if l.Decide? {
      DecideRows(s, Step(cfg, s, l), l.approval, l.decision);
    } else if l.Work? {
      WorkRows(cfg, s, l);
    } else {
      StillRows(s, Step(cfg, s, l));
    }
  }

  lemma WorkRows(cfg: Config, s: State, l: Label)
    requires Enabled(s, l) && RowsOk(s) && Apart(s) && l.Work?
    ensures RowsOk(Step(cfg, s, l))
  {
    hide PipeStep, DispatchStep, WonStep, MissedStep, PushStep, RowsOk, Apart;
    if s.workers[l.x].act.InPipe? {
      PipeRows(cfg, s, l.x, l.out, l.id, l.text);
    } else {
      HandRows(cfg, s, l);
    }
  }
}
