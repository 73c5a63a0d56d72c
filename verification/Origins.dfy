/** Where workflow rows come from: over every run, which job made a row, when, and what
    the reaper may conclude from that. */
module Origins {
  import opened Common
  import opened Programs
  import opened Tables
  import opened Runtime
  import opened RuntimeClaims
  import opened RuntimeOwners
  import opened RowTheorems
  import RedisQueue
  import TablesProofs

  /** What a job asks for: a commit's pair, or a demo's scenario and whether to render. */
  predicate Asks(b: RedisQueue.Blob, p: Prog) {
    match p
    case Commit(k) => b.kind == "commit_pipeline" && b.payload.repo == Some(k.repo) && b.payload.sha == Some(k.sha)
    case Demo(scenario, skip) =>
      && b.kind == "demo_request" && (scenario == "001" || scenario == "002" || scenario == "003")
      && b.payload.scenario == scenario && b.payload.skipRender == skip
  }

  // --------------------------------------------------------------------------
  // The step that inserts a row
  // --------------------------------------------------------------------------

  /** Worker `x` of `s` inserts row `w` for `p`, as its handler's first row; nothing else
      in the tables changes. */
  ghost predicate Births(s: State, s': State, x: nat, w: nat, p: Prog) {
    && x in s.workers && x in s.jobs.hands && w in s'.db.wfs && w in s'.ledgers
    && s'.db == s.db.(wfs := s.db.wfs[w := Workflow(Running, [Started(p)], s.claims.now)])
    && s'.ledgers == s.ledgers[w := s'.ledgers[w]]
    && s'.ledgers[w].led.prog == p && s'.ledgers[w].job == s.jobs.hands[x].id
    && x in s'.workers && s'.workers[x].act.InPipe? && s'.workers[x].act.frame == NewFrame(p, w)
    && s'.jobs == s.jobs
    && ((s.workers[x].act == Dispatch && Asks(s.jobs.hands[x], p))
        || (s.workers[x].act.Won? && p == Commit(s.workers[x].act.key)))
  }

  lemma DispatchBirth(cfg: Config, s: State, x: nat, out: Outcome, id: nat, w: nat) returns (p: Prog)
    requires x in s.workers && x in s.jobs.hands && s.workers[x].act == Dispatch
    requires w !in s.db.wfs && w in DispatchStep(cfg, s, x, out, id).db.wfs
    ensures Births(s, DispatchStep(cfg, s, x, out, id), x, w, p)
  {
    p := Handler(s.jobs.hands[x]).value;
  }

  lemma WonBirth(s: State, x: nat, k: Key, win: nat, out: Outcome, id: nat, w: nat)
    requires x in s.workers && x in s.jobs.hands && s.workers[x].act == Won(k, win)
    requires w !in s.db.wfs && w in WonStep(s, x, k, win, out, id).db.wfs
    ensures Births(s, WonStep(s, x, k, win, out, id), x, w, Commit(k))
  {
  }

  lemma NoBirth(cfg: Config, s: State, l: Label)
    requires Enabled(s, l) && !(l.Work? && (s.workers[l.x].act == Dispatch || s.workers[l.x].act.Won?))
    ensures Step(cfg, s, l).db.wfs.Keys == s.db.wfs.Keys
  {
    hide PipeStep, RedisQueue.Apply;
    if l.Work? && s.workers[l.x].act.InPipe? {
      var InPipe(f, win, att) := s.workers[l.x].act;
      PipeDb(cfg, s, l.x, f, win, att, l.out, l.id, l.text);
      TablesKeepWorkflows(s.db, f, l.out, l.id, l.text);
    }
  }

  lemma PipeDb(cfg: Config, s: State, x: nat, f: Frame, win: nat, att: Option<nat>, out: Outcome, id: nat, text: string)
    requires x in s.workers && x in s.jobs.hands
    ensures PipeStep(cfg, s, x, f, win, att, out, id, text).db == StepDb(s.db, f, out, id, text)
  {
    hide StepDb, StepFrame, PipeClaims;
  }

  /** Every row that comes into the table is a worker's insert: running, its log the one
      entry that says what it is for, created now. */
  lemma InsertStep(cfg: Config, s: State, l: Label, w: nat) returns (p: Prog)
    requires Enabled(s, l) && w !in s.db.wfs && w in Step(cfg, s, l).db.wfs
    ensures l.Work? && Births(s, Step(cfg, s, l), l.x, w, p)
    ensures Step(cfg, s, l).db.wfs[w] == Workflow(Running, [Started(p)], s.claims.now)
  {
    hide PipeStep, DispatchStep, WonStep, MissedStep, PushStep, StartStep, DecideStep, Births;
    if l.Work? && s.workers[l.x].act == Dispatch {
      p := DispatchBirth(cfg, s, l.x, l.out, l.id, w);
      BirthRow(s, Step(cfg, s, l), l.x, w, p);
    } else if l.Work? && s.workers[l.x].act.Won? {
      var Won(k, win) := s.workers[l.x].act;
      p := Commit(k);
      WonBirth(s, l.x, k, win, l.out, l.id, w);
      BirthRow(s, Step(cfg, s, l), l.x, w, p);
    } else {
      p := Commit(Key("", ""));
      NoBirth(cfg, s, l);
    }
  }

  lemma BirthRow(s: State, s': State, x: nat, w: nat, p: Prog)
    requires Births(s, s', x, w, p)
    ensures w in s'.db.wfs && s'.db.wfs[w] == Workflow(Running, [Started(p)], s.claims.now)
  {
  }

  // --------------------------------------------------------------------------
  // When a row was made
  // --------------------------------------------------------------------------

  lemma ExecCreated(db: Db, f: Frame, out: Outcome, id: nat, text: string, w: nat)
    requires w in db.wfs
    ensures var db' := StepDb(db, f, out, id, text);
      w in db'.wfs && db'.wfs[w].created == db.wfs[w].created
      && (db'.wfs[w].status == Interrupted ==> db.wfs[w].status == Interrupted)
  {
    match f.pc
    case WriteLog(_) =>
    case WriteFail(_) =>
    case WriteEnd =>
    case _ =>
      hide Exec;
      TablesProofs.OneTable(db, f, id, text);
  }

  /** No step touches the creation time of a row, and only a start later than max_age
      after it interrupts the row. */
  lemma CreatedStep(cfg: Config, s: State, l: Label, w: nat)
    requires Enabled(s, l) && w in s.db.wfs
    ensures var db' := Step(cfg, s, l).db;
      && w in db'.wfs && db'.wfs[w].created == s.db.wfs[w].created
      && (db'.wfs[w].status == Interrupted && s.db.wfs[w].status != Interrupted ==>
            l.Start? && s.db.wfs[w].created + cfg.maxAge < s.claims.now)
  {
    hide PipeStep, DispatchStep, WonStep, MissedStep, PushStep, StartStep, DecideStep;
    if l.Work? {
      if s.workers[l.x].act.InPipe? {
        var InPipe(f, win, att) := s.workers[l.x].act;
        PipeDb(cfg, s, l.x, f, win, att, l.out, l.id, l.text);
        ExecCreated(s.db, f, l.out, l.id, l.text, w);
      } else {
        WorkEarly(cfg, s, l);
      }
    } else {
      OutsideStatus(cfg, s, l, w);
      if l.Start? {
        StartInterrupts(cfg, s, l.proc, l.ids, w);
      } else {
        RestKeepsStatus(cfg, s, l, w);
      }
    }
  }

  lemma StartInterrupts(cfg: Config, s: State, proc: nat, ids: set<nat>, w: nat)
    requires w in s.db.wfs
    ensures var db' := StartStep(cfg, s, proc, ids).db;
      && w in db'.wfs
      && (!(s.db.wfs[w].created + cfg.maxAge < s.claims.now) ==> db'.wfs[w] == s.db.wfs[w])
  {
  }

  lemma RestKeepsStatus(cfg: Config, s: State, l: Label, w: nat)
    requires Enabled(s, l) && !l.Work? && !l.Start? && w in s.db.wfs
    ensures Step(cfg, s, l).db.wfs == s.db.wfs
  {
    hide RedisQueue.Apply;
  }

  /** The time of the insert of row `w`, if the run makes it. */
  ghost function InsertedAt(cfg: Config, s: State, ls: seq<Label>, w: nat): Option<nat>
    requires Possible(cfg, s, ls)
    decreases |ls|
  {
    if ls == [] then None
    else if w !in s.db.wfs && w in Step(cfg, s, ls[0]).db.wfs then Some(s.claims.now)
    else InsertedAt(cfg, Step(cfg, s, ls[0]), ls[1..], w)
  }

  lemma {:induction false} CreatedForever(cfg: Config, s: State, ls: seq<Label>, w: nat)
    requires Possible(cfg, s, ls) && w in s.db.wfs
    ensures var db' := Run(cfg, s, ls).db; w in db'.wfs && db'.wfs[w].created == s.db.wfs[w].created
    decreases |ls|
  {
    hide Step, Enabled;
    if ls != [] {
      CreatedStep(cfg, s, ls[0], w);
      CreatedForever(cfg, Step(cfg, s, ls[0]), ls[1..], w);
    }
  }

  /** The creation time of a row is the time of its insert, for good. */
  lemma {:induction false} CreatedIsInsertion(cfg: Config, s: State, ls: seq<Label>, w: nat)
    requires Possible(cfg, s, ls) && w !in s.db.wfs && w in Run(cfg, s, ls).db.wfs
    ensures InsertedAt(cfg, s, ls, w) == Some(Run(cfg, s, ls).db.wfs[w].created)
    decreases |ls|
  {
    hide Step, Enabled;
    var s' := Step(cfg, s, ls[0]);
    if w in s'.db.wfs {
      var p := InsertStep(cfg, s, ls[0], w);
      CreatedForever(cfg, s', ls[1..], w);
    } else {
      CreatedIsInsertion(cfg, s', ls[1..], w);
    }
  }

  /** A row inserted at some time is as it was after every start no later than max_age
      after that, whatever happened in between; and so are its tasks. */
  lemma YoungRowStays(cfg: Config, s: State, l: Label, w: nat, ls: seq<Label>, start: Label)
    requires Enabled(s, l) && w !in s.db.wfs && w in Step(cfg, s, l).db.wfs
    requires Possible(cfg, Step(cfg, s, l), ls)
    requires var s' := Run(cfg, Step(cfg, s, l), ls);
      start.Start? && Enabled(s', start) && s'.claims.now <= s.claims.now + cfg.maxAge
    ensures var s' := Run(cfg, Step(cfg, s, l), ls);
      var db' := Step(cfg, s', start).db;
      && w in s'.db.wfs && w in db'.wfs && db'.wfs[w] == s'.db.wfs[w]
      && forall t | t in s'.db.tasks && s'.db.tasks[t].wf == w :: t in db'.tasks && db'.tasks[t] == s'.db.tasks[t]
  {
    hide Step, Enabled, Run;
    var p := InsertStep(cfg, s, l, w);
    CreatedForever(cfg, Step(cfg, s, l), ls, w);
    StartSpares(cfg, Run(cfg, Step(cfg, s, l), ls), start, w);
  }

  lemma StartSpares(cfg: Config, s: State, start: Label, w: nat)
    requires start.Start? && Enabled(s, start) && w in s.db.wfs && s.claims.now <= s.db.wfs[w].created + cfg.maxAge
    ensures var db' := Step(cfg, s, start).db;
      && w in db'.wfs && db'.wfs[w] == s.db.wfs[w]
      && forall t | t in s.db.tasks && s.db.tasks[t].wf == w :: t in db'.tasks && db'.tasks[t] == s.db.tasks[t]
  {
  }

  lemma {:induction false} NotInterrupted(cfg: Config, s: State, ls: seq<Label>, w: nat)
    requires Possible(cfg, s, ls) && w in s.db.wfs && s.db.wfs[w].status != Interrupted
    requires NoLateStart(cfg, s, ls, s.db.wfs[w].created)
    ensures var db' := Run(cfg, s, ls).db; w in db'.wfs && db'.wfs[w].status != Interrupted
    decreases |ls|
  {
    hide Step, Enabled;
    if ls != [] {
      CreatedStep(cfg, s, ls[0], w);
      NotInterrupted(cfg, Step(cfg, s, ls[0]), ls[1..], w);
    }
  }

  lemma {:induction false} InterruptedIsLate(cfg: Config, s: State, ls: seq<Label>, w: nat)
    requires Possible(cfg, s, ls) && w !in s.db.wfs && w in Run(cfg, s, ls).db.wfs
    requires Run(cfg, s, ls).db.wfs[w].status == Interrupted
    ensures InsertedAt(cfg, s, ls, w).Some? && !NoLateStart(cfg, s, ls, InsertedAt(cfg, s, ls, w).value)
    decreases |ls|
  {
    hide Step, Enabled;
    var s' := Step(cfg, s, ls[0]);
    if w in s'.db.wfs {
      var p := InsertStep(cfg, s, ls[0], w);
      if NoLateStart(cfg, s', ls[1..], s.claims.now) {
        NotInterrupted(cfg, s', ls[1..], w);
      }
    } else {
      InterruptedIsLate(cfg, s', ls[1..], w);
    }
  }

  /** In every run, safe or not: an interrupted row was inserted more than max_age before
      some process started. */
  lemma InterruptedIsOld(cfg: Config, ls: seq<Label>, w: nat)
    requires Possible(cfg, INIT, ls) && w in Run(cfg, INIT, ls).db.wfs
    requires Run(cfg, INIT, ls).db.wfs[w].status == Interrupted
    ensures var at := InsertedAt(cfg, INIT, ls, w);
      && at == Some(Run(cfg, INIT, ls).db.wfs[w].created)
      && !NoLateStart(cfg, INIT, ls, at.value)
  {
    hide Run, InsertedAt, NoLateStart;
    CreatedIsInsertion(cfg, INIT, ls, w);
    InterruptedIsLate(cfg, INIT, ls, w);
  }
}
