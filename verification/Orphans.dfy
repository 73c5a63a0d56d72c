/** Where ownerless running rows come from: over every safe run, exactly which running
    workflow rows have no live handler. */
module Orphans {
  import opened Common
  import opened Programs
  import opened ProgramProofs
  import opened Tables
  import opened Runtime
  import opened RuntimeClaims
  import opened RuntimeOwners
  import opened RuntimeRows
  import opened RowTheorems
  import opened Interference
  import RedisQueue

  /** The rows whose handlers a kill of the process takes away. */
  ghost function TakenBy(s: State, proc: nat): set<nat> {
    set x | x in s.workers && s.workers[x].proc == proc && s.workers[x].act.InPipe? :: s.workers[x].act.frame.wf
  }

  /** The rows whose handlers were killed in the run. */
  ghost function Taken(cfg: Config, s: State, ls: seq<Label>): set<nat>
    requires Possible(cfg, s, ls)
    decreases |ls|
  {
    if ls == [] then {}
    else (if ls[0].Kill? then TakenBy(s, ls[0].proc) else {}) + Taken(cfg, Step(cfg, s, ls[0]), ls[1..])
  }

  predicate Handles(s: State, x: nat, w: nat) {
    Busy(s, x) && s.workers[x].act.frame.wf == w
  }

  /** A workflow that has not ended has a live handler, or its handler was killed. */
  ghost predicate Tended(s: State, taken: set<nat>) {
    && (forall w | w in s.ledgers && !Ended(s.ledgers[w].led.pc) && w !in taken :: exists x :: Handles(s, x, w))
    && (forall w | w in taken :: w in s.ledgers && !Ended(s.ledgers[w].led.pc) && Orphan(s, w))
  }

  /** The step at which the handler of `w` moves on. */
  predicate Moves(s: State, l: Label, w: nat) {
    l.Work? && Handles(s, l.x, w)
  }

  /** The handler of worker `x` stands where the history of row `w` says. */
  predicate Here(s: State, x: nat, w: nat)
    requires w in s.ledgers
  {
    Handles(s, x, w) && s.workers[x].act.frame.pc == s.ledgers[w].led.pc && s.workers[x].act.frame.prog == s.ledgers[w].led.prog
  }

  lemma LedgerStep(cfg: Config, s: State, l: Label, w: nat)
    requires RowsOk(s) && Enabled(s, l) && w in s.ledgers
    ensures var s' := Step(cfg, s, l);
      w in s'.ledgers
      && s'.ledgers[w].led.pc
         == (if Moves(s, l, w) then Next(s.ledgers[w].led.prog, s.ledgers[w].led.pc, l.out) else s.ledgers[w].led.pc)
      && s'.ledgers[w].led.prog == s.ledgers[w].led.prog
      && (Moves(s, l, w) ==> Here(s, l.x, w) && !Ended(s.ledgers[w].led.pc))
  {
    hide PipeStep, DispatchStep, WonStep, MissedStep, PushStep, RowOk;
    if l.Work? {
      if Busy(s, l.x) {
        HandlerLedger(s, l.x);
        PipeLedger(cfg, s, l.x, l.out, l.id, l.text, w);
      } else {
        KeysOfRows(s);
        WorkEarly(cfg, s, l);
      }
    }
  }

  lemma KeysOfRows(s: State)
    requires RowsOk(s)
    ensures s.ledgers.Keys == s.db.wfs.Keys
  {
  }

  lemma HandlerLedger(s: State, x: nat)
    requires RowsOk(s) && Busy(s, x)
    ensures var f := s.workers[x].act.frame;
      f.wf in s.ledgers && s.ledgers[f.wf].led.pc == f.pc && s.ledgers[f.wf].led.prog == f.prog && !Ended(f.pc)
  {
    assert HandlerOk(s, x);
  }

  lemma PipeLedger(cfg: Config, s: State, x: nat, out: Outcome, id: nat, text: string, w: nat)
    requires Busy(s, x) && x in s.jobs.hands && w in s.ledgers
    requires var f := s.workers[x].act.frame;
      f.wf in s.ledgers && s.ledgers[f.wf].led.pc == f.pc && s.ledgers[f.wf].led.prog == f.prog
    ensures var InPipe(f, win, att) := s.workers[x].act;
      var s' := PipeStep(cfg, s, x, f, win, att, out, id, text);
      w in s'.ledgers
      && s'.ledgers[w].led.pc == (if f.wf == w then Next(f.prog, f.pc, out) else s.ledgers[w].led.pc)
      && s'.ledgers[w].led.prog == s.ledgers[w].led.prog
  {
    hide StepDb, StepFrame, Next, Effect, PipeClaims;
  }

  /** A row that was not there before belongs to the worker that inserted it. */
  lemma NewLedger(cfg: Config, s: State, l: Label, w: nat)
    requires RowsOk(s) && Enabled(s, l) && w !in s.ledgers && w in Step(cfg, s, l).ledgers
    ensures l.Work? && Handles(Step(cfg, s, l), l.x, w) && !Busy(s, l.x)
  {
    hide PipeStep, DispatchStep, WonStep, MissedStep, PushStep, RowOk;
    if l.Work? {
      match s.workers[l.x].act
      case InPipe(_, _, _) =>
        HandlerLedger(s, l.x);
        PipeKeys(cfg, s, l.x, l.out, l.id, l.text);
      case Dispatch => HandLedgers(cfg, s, l.x, Key("", ""), 0, l.out, l.id, l.text);
      case Won(k, win) => HandLedgers(cfg, s, l.x, k, win, l.out, l.id, l.text);
      case Missed(k) => HandLedgers(cfg, s, l.x, k, 0, l.out, l.id, l.text);
      case Pushing => HandLedgers(cfg, s, l.x, Key("", ""), 0, l.out, l.id, l.text);
    }
  }

  /** Every row of `s'` was there, or is worker `x`'s. */
  predicate OnlyAdds(s: State, s': State, x: nat) {
    forall w | w in s'.ledgers :: w in s.ledgers || Handles(s', x, w)
  }

  lemma HandLedgers(cfg: Config, s: State, x: nat, k: Key, win: nat, out: Outcome, id: nat, text: string)
    requires x in s.workers && x in s.jobs.hands
    ensures OnlyAdds(s, DispatchStep(cfg, s, x, out, id), x) && OnlyAdds(s, WonStep(s, x, k, win, out, id), x)
    ensures OnlyAdds(s, MissedStep(s, x, k, out), x) && OnlyAdds(s, PushStep(s, x, out, text), x)
  {
    hide SkipAnswer, InsertWorkflow;
  }

  lemma PipeKeys(cfg: Config, s: State, x: nat, out: Outcome, id: nat, text: string)
    requires Busy(s, x) && x in s.jobs.hands && s.workers[x].act.frame.wf in s.ledgers
    ensures var InPipe(f, win, att) := s.workers[x].act;
      PipeStep(cfg, s, x, f, win, att, out, id, text).ledgers.Keys == s.ledgers.Keys
  {
    hide StepDb, StepFrame, Next, Effect, PipeClaims;
  }

  /** A handler that takes a step goes on with its row, or has ended. */
  lemma HandlerGoesOn(cfg: Config, s: State, x: nat, out: Outcome, id: nat, text: string)
    requires Busy(s, x) && x in s.jobs.hands
    ensures var InPipe(f, win, att) := s.workers[x].act;
      var s' := PipeStep(cfg, s, x, f, win, att, out, id, text);
      Handles(s', x, f.wf) || Ended(Next(f.prog, f.pc, out))
  {
    var InPipe(f, win, att) := s.workers[x].act;
    FramesKeepIdentity(s.db, f, out, id, text);
    hide StepDb, StepFrame, Next, PipeClaims;
  }

  /** Only its own last step or a kill parts a handler from its row. */
  lemma HandlerStays(cfg: Config, s: State, l: Label, x: nat, w: nat)
    requires Enabled(s, l) && Handles(s, x, w)
    ensures var f := s.workers[x].act.frame;
      || Handles(Step(cfg, s, l), x, w)
      || (l.Kill? && w in TakenBy(s, l.proc))
      || (l.Work? && l.x == x && Ended(Next(f.prog, f.pc, l.out)))
  {
    hide PipeStep, DispatchStep, WonStep, MissedStep, PushStep;
    if l.Work? && l.x == x {
      HandlerGoesOn(cfg, s, x, l.out, l.id, l.text);
    } else if l.Kill? {
    } else {
      OthersKeepWorker(cfg, s, l, x);
      OnlyKillsKill(cfg, s, l, x);
    }
  }

  lemma OnlyKillsKill(cfg: Config, s: State, l: Label, x: nat)
    requires Enabled(s, l) && Busy(s, x) && !l.Kill? && !(l.Work? && l.x == x)
    ensures x in Step(cfg, s, l).workers
  {
    if l.Work? {
      WorkOnlyWorker(cfg, s, l);
    }
  }

  lemma KilledIsOrphan(s: State, s': State, proc: nat, w: nat)
    requires RowsOk(s) && Apart(s) && w in TakenBy(s, proc)
    requires s'.workers == s.workers - WorkersOf(s, proc) && s'.ledgers == s.ledgers
    ensures w in s'.ledgers && !Ended(s'.ledgers[w].led.pc) && Orphan(s', w)
  {
    var x :| x in s.workers && s.workers[x].proc == proc && s.workers[x].act.InPipe? && s.workers[x].act.frame.wf == w;
    HandlerLedger(s, x);
    hide RowsOk;
  }

  lemma KillMakesOrphan(cfg: Config, s: State, l: Label, w: nat)
    requires RowsOk(s) && Apart(s) && Enabled(s, l) && l.Kill? && w in TakenBy(s, l.proc)
    ensures var s' := Step(cfg, s, l); w in s'.ledgers && !Ended(s'.ledgers[w].led.pc) && Orphan(s', w)
  {
    hide Step, Enabled, RowsOk, Apart, TakenBy, Orphan;
    KillEffect(cfg, s, l);
    KilledIsOrphan(s, Step(cfg, s, l), l.proc, w);
  }

  lemma KillEffect(cfg: Config, s: State, l: Label)
    requires Enabled(s, l) && l.Kill?
    ensures var s' := Step(cfg, s, l);
      s'.workers == s.workers - WorkersOf(s, l.proc) && s'.ledgers == s.ledgers
  {
    hide RedisQueue.Apply;
  }

  /** The rows taken so far, and by this step. */
  ghost function TakenNow(s: State, l: Label, taken: set<nat>): set<nat> {
    taken + (if l.Kill? then TakenBy(s, l.proc) else {})
  }

  lemma StepTended(cfg: Config, s: State, l: Label, taken: set<nat>)
    requires Enabled(s, l) && Safe(cfg, s, l) && RowsGood(cfg, s) && Tended(s, taken)
    ensures Tended(Step(cfg, s, l), taken + (if l.Kill? then TakenBy(s, l.proc) else {}))
  {
    hide Step, Enabled, Safe, RowsGood, RowsOk, Apart, TakenBy, Handles, Orphan, Ended, Tended;
    GoodRows(cfg, s);
    StepTends(cfg, s, l, taken);
    StepTakes(cfg, s, l, taken);
    TendedFrom(Step(cfg, s, l), TakenNow(s, l, taken));
  }

  lemma TendedFrom(s: State, taken: set<nat>)
    requires forall w | w in s.ledgers && !Ended(s.ledgers[w].led.pc) && w !in taken :: exists x :: Handles(s, x, w)
    requires forall w | w in taken :: w in s.ledgers && !Ended(s.ledgers[w].led.pc) && Orphan(s, w)
    ensures Tended(s, taken)
  {
  }

  lemma StepTends(cfg: Config, s: State, l: Label, taken: set<nat>)
    requires Enabled(s, l) && RowsOk(s) && Tended(s, taken)
    ensures var s' := Step(cfg, s, l);
      forall w | w in s'.ledgers && !Ended(s'.ledgers[w].led.pc) && w !in TakenNow(s, l, taken) ::
        exists x :: Handles(s', x, w)
  {
    hide Step, Enabled, RowsOk, TakenBy, Tended;
    var s' := Step(cfg, s, l);
    forall w | w in s'.ledgers && !Ended(s'.ledgers[w].led.pc) && w !in TakenNow(s, l, taken)
      ensures exists x :: Handles(s', x, w)
    {
      RowIsTended(cfg, s, l, taken, w);
    }
  }

  lemma StepTakes(cfg: Config, s: State, l: Label, taken: set<nat>)
    requires Enabled(s, l) && RowsOk(s) && Apart(s) && Tended(s, taken)
    ensures var s' := Step(cfg, s, l);
      forall w | w in TakenNow(s, l, taken) :: w in s'.ledgers && !Ended(s'.ledgers[w].led.pc) && Orphan(s', w)
  {
    hide Step, Enabled, RowsOk, Apart, TakenBy;
    var s' := Step(cfg, s, l);
    forall w | w in TakenNow(s, l, taken) ensures w in s'.ledgers && !Ended(s'.ledgers[w].led.pc) && Orphan(s', w) {
      if w in taken {
        OrphanRowStays(cfg, s, l, w);
      } else {
        KillMakesOrphan(cfg, s, l, w);
      }
    }
  }

  lemma RowIsTended(cfg: Config, s: State, l: Label, taken: set<nat>, w: nat)
    requires Enabled(s, l) && RowsOk(s) && Tended(s, taken)
    requires w in Step(cfg, s, l).ledgers && !Ended(Step(cfg, s, l).ledgers[w].led.pc)
    requires w !in taken && (l.Kill? ==> w !in TakenBy(s, l.proc))
    ensures exists x :: Handles(Step(cfg, s, l), x, w)
  {
    hide Step, Enabled, RowsOk, TakenBy, Next;
    if w !in s.ledgers {
      NewLedger(cfg, s, l, w);
    } else {
      LedgerStep(cfg, s, l, w);
      if Moves(s, l, w) {
        HandlerStays(cfg, s, l, l.x, w);
      } else {
        var x :| Handles(s, x, w);
        HandlerStays(cfg, s, l, x, w);
      }
    }
  }

  lemma OrphanRowStays(cfg: Config, s: State, l: Label, w: nat)
    requires Enabled(s, l) && RowsOk(s) && w in s.ledgers && !Ended(s.ledgers[w].led.pc) && Orphan(s, w)
    ensures var s' := Step(cfg, s, l); w in s'.ledgers && !Ended(s'.ledgers[w].led.pc) && Orphan(s', w)
  {
    KeysOfRows(s);
    hide Step, Enabled, RowsOk;
    LedgerStep(cfg, s, l, w);
    OrphanStep(cfg, s, l, w);
  }

  lemma {:induction false} RunTended(cfg: Config, s: State, ls: seq<Label>, taken: set<nat>)
    requires Possible(cfg, s, ls) && SafeRun(cfg, s, ls) && RowsGood(cfg, s) && Tended(s, taken)
    ensures Tended(Run(cfg, s, ls), taken + Taken(cfg, s, ls))
    decreases |ls|
  {
    hide Step, Enabled, Safe, RowsGood, Tended, TakenBy;
    if ls == [] {
      assert taken + Taken(cfg, s, ls) == taken;
    } else {
      var now := if ls[0].Kill? then TakenBy(s, ls[0].proc) else {};
      StepTended(cfg, s, ls[0], taken);
      RowsGoodKept(cfg, s, ls[0]);
      RunTended(cfg, Step(cfg, s, ls[0]), ls[1..], taken + now);
      assert taken + Taken(cfg, s, ls) == (taken + now) + Taken(cfg, Step(cfg, s, ls[0]), ls[1..]);
    }
  }

  lemma {:induction false} EndedStatus(l: Ledger)
    requires LedgerInv(l)
    ensures l.rows.status == Running <==> !Ended(l.pc) || l.pc.Stuck?
  {
    if !Ended(l.pc) {
      LiveIsRunning(l.prog, l.pc);
    } else if l.pc.Stuck? {
      LiveIsRunning(l.prog, l.pc.from);
    }
  }

  lemma OrphanStatus(s: State, taken: set<nat>, w: nat)
    requires RowsOk(s) && Tended(s, taken) && w in s.db.wfs
    ensures w in s.ledgers
    ensures s.db.wfs[w].status == Running && Orphan(s, w)
      <==> !s.ledgers[w].reaped && (s.ledgers[w].led.pc.Stuck? || w in taken)
  {
    assert RowOk(s, w);
    var e := s.ledgers[w];
    EndedStatus(e.led);
    assert s.db.wfs[w].status == Expected(e).status;
    hide RowOk, LedgerInv, Agrees;
    if e.led.pc.Stuck? {
      forall x | x in s.workers && s.workers[x].act.InPipe? ensures s.workers[x].act.frame.wf != w {
        HandlerLedger(s, x);
      }
    }
  }

  /** In every safe run, a workflow row is running without a live handler if and only
      if no reaper took it and its handler either raised outside its guarded steps or
      was killed. */
  lemma RunningOrphans(cfg: Config, ls: seq<Label>, w: nat)
    requires Possible(cfg, INIT, ls) && SafeRun(cfg, INIT, ls) && w in Run(cfg, INIT, ls).db.wfs
    ensures var s := Run(cfg, INIT, ls);
      && w in s.ledgers
      && (s.db.wfs[w].status == Running && Orphan(s, w)
          <==> !s.ledgers[w].reaped && (s.ledgers[w].led.pc.Stuck? || w in Taken(cfg, INIT, ls)))
  {
    hide RowsGood, Tended, Taken, INIT, Run;
    NothingToTend(cfg);
    ReachableIsRowsGood(cfg, ls);
    RunTended(cfg, INIT, ls, {});
    assert {} + Taken(cfg, INIT, ls) == Taken(cfg, INIT, ls);
    GoodRows(cfg, Run(cfg, INIT, ls));
    OrphanStatus(Run(cfg, INIT, ls), Taken(cfg, INIT, ls), w);
  }

  lemma NothingToTend(cfg: Config)
    ensures RowsGood(cfg, INIT) && Tended(INIT, {})
  {
    InitOwners(cfg);
  }

  lemma GoodRows(cfg: Config, s: State)
    requires RowsGood(cfg, s)
    ensures RowsOk(s) && Apart(s)
  {
    OwnersApart(cfg, s);
  }

  lemma {:induction false} NoKillTakesNothing(cfg: Config, s: State, ls: seq<Label>)
    requires Possible(cfg, s, ls) && forall i | 0 <= i < |ls| :: !ls[i].Kill?
    ensures Taken(cfg, s, ls) == {}
    decreases |ls|
  {
    if ls != [] {
      hide Step, Enabled;
      NoKillTakesNothing(cfg, Step(cfg, s, ls[0]), ls[1..]);
    }
  }

  /** Without a kill, graceful stops included, a row is left running only by a handler
      that raised outside its guarded steps: a stop waits for the handlers. */
  lemma StopsLeaveNothing(cfg: Config, ls: seq<Label>, w: nat)
    requires Possible(cfg, INIT, ls) && SafeRun(cfg, INIT, ls) && w in Run(cfg, INIT, ls).db.wfs
    requires forall i | 0 <= i < |ls| :: !ls[i].Kill?
    ensures var s := Run(cfg, INIT, ls);
      && w in s.ledgers
      && (s.db.wfs[w].status == Running && Orphan(s, w) <==> !s.ledgers[w].reaped && s.ledgers[w].led.pc.Stuck?)
  {
    RunningOrphans(cfg, ls, w);
    NoKillTakesNothing(cfg, INIT, ls);
  }
}
