/** From a job in a worker's hands to the code: the worker's steps up to the workflow row
    are the opening of run_commit_pipeline or run_demo_forge_request on that job's
    payload, and from the row on it is their run. */
module Openings {
  import opened Common
  import opened Programs
  import opened Tables
  import opened Handlers
  import opened Runtime
  import opened RuntimeRows
  import opened RowTheorems
  import opened Interference
  import opened Origins
  import opened Provenance
  import Dedup
  import RedisQueue
  import PipelineCode

  /** The handler raised before it wrote a row. */
  predicate Refuses(s: State, s': State, x: nat) {
    && s'.db == s.db && s'.ledgers == s.ledgers && s'.jobs == s.jobs && s'.answers == s.answers
    && x in s'.workers && s'.workers[x].act == Pushing
  }

  /** The handler goes on from its new row as the code does. */
  ghost predicate Opens(s: State, s': State, x: nat, p: Prog, w: nat, tape: seq<Fate>) {
    && s'.db == PipelineCode.Inserted(World(s.db, w, tape), p, s.claims.now).db
    && s'.claims == s.claims && s'.jobs == s.jobs && s'.answers == s.answers
    && x in s'.workers && s'.workers[x].act.InPipe? && s'.workers[x].act.frame == NewFrame(p, w)
  }

  /** A demo job is refused for an unknown scenario, or when the Makefile is missing or
      the insert raises (`out`); otherwise the demo of its payload starts. */
  lemma DemoOpening(cfg: Config, s: State, x: nat, out: Outcome, id: nat, tape: seq<Fate>)
    requires x in s.workers && x in s.jobs.hands && s.workers[x].act == Dispatch
    requires s.jobs.hands[x].kind == "demo_request"
    ensures var payload := s.jobs.hands[x].payload;
      var s' := DispatchStep(cfg, s, x, out, id);
      if (payload.scenario == "001" || payload.scenario == "002" || payload.scenario == "003") && out == Ok
      then Opens(s, s', x, Demo(payload.scenario, payload.skipRender), id, tape)
      else Refuses(s, s', x) && s'.claims == s.claims
  {
  }

  /** A commit job without its keys, or whose SET NX raises, is refused with the claims
      untouched; otherwise the SET NX is done, and its answer, if it arrives, decides. */
  lemma CommitOpening(cfg: Config, s: State, x: nat, out: Outcome, id: nat)
    requires x in s.workers && x in s.jobs.hands && s.workers[x].act == Dispatch
    requires s.jobs.hands[x].kind == "commit_pipeline"
    ensures var payload := s.jobs.hands[x].payload;
      var s' := DispatchStep(cfg, s, x, out, id);
      if payload.repo.None? || payload.sha.None? || out == Raise then Refuses(s, s', x) && s'.claims == s.claims
      else
        var k := Key(payload.repo.value, payload.sha.value);
        && s'.claims == Dedup.Apply(s.claims, Dedup.SetNx(k), cfg.ttl)
        && s'.db == s.db && s'.jobs == s.jobs && s'.answers == s.answers && x in s'.workers
        && (out == Bad ==> s'.workers[x].act == Pushing)
        && (out == Ok ==>
              s'.workers[x].act == if Dedup.Live(s.claims, k) then Missed(k) else Won(k, |s.claims.touches|))
  {
    hide Dedup.Apply;
  }

  /** A job of another kind reaches no handler. */
  lemma NoHandler(cfg: Config, s: State, x: nat, out: Outcome, id: nat)
    requires x in s.workers && x in s.jobs.hands && s.workers[x].act == Dispatch
    requires s.jobs.hands[x].kind != "commit_pipeline" && s.jobs.hands[x].kind != "demo_request"
    ensures var s' := DispatchStep(cfg, s, x, out, id); Refuses(s, s', x) && s'.claims == s.claims
  {
  }

  /** The key of the commit job that worker `x` holds. */
  function KeyInHand(s: State, x: nat): Key
    requires x in s.jobs.hands && s.jobs.hands[x].payload.repo.Some? && s.jobs.hands[x].payload.sha.Some?
  {
    Key(s.jobs.hands[x].payload.repo.value, s.jobs.hands[x].payload.sha.value)
  }

  /** After a lost claim the GET answers for the pair of the payload, or the job fails. */
  lemma LostOpening(cfg: Config, s: State, x: nat, out: Outcome)
    requires x in s.workers && s.workers[x].act.Missed? && ClaimsKnown(s)
    ensures x in s.jobs.hands && s.jobs.hands[x].kind == "commit_pipeline"
    ensures s.jobs.hands[x].payload.repo.Some? && s.jobs.hands[x].payload.sha.Some?
    ensures var k := KeyInHand(s, x);
      var s' := MissedStep(s, x, s.workers[x].act.key, out);
      && s'.db == s.db && s'.claims == s.claims && x in s'.workers
      && if out == Ok then s'.workers[x].act == Idle && s'.answers == s.answers + [SkipAnswer(k, Dedup.Get(s.claims, k))]
         else Refuses(s, s', x)
  {
    hide SkipAnswer;
  }

  /** After a won one the pipeline of the pair of the payload starts, or the job fails. */
  lemma WonOpening(cfg: Config, s: State, x: nat, out: Outcome, id: nat, tape: seq<Fate>)
    requires x in s.workers && s.workers[x].act.Won? && ClaimsKnown(s)
    ensures x in s.jobs.hands && s.jobs.hands[x].kind == "commit_pipeline"
    ensures s.jobs.hands[x].payload.repo.Some? && s.jobs.hands[x].payload.sha.Some?
    ensures var s' := WonStep(s, x, s.workers[x].act.key, s.workers[x].act.win, out, id);
      if out == Ok then Opens(s, s', x, Commit(KeyInHand(s, x)), id, tape)
      else Refuses(s, s', x) && s'.claims == s.claims
  {
  }

  // --------------------------------------------------------------------------
  // The whole job
  // --------------------------------------------------------------------------

  lemma BirthOpens(cfg: Config, s: State, l: Label, w: nat, tape: seq<Fate>) returns (p: Prog)
    requires Enabled(s, l) && ClaimsKnown(s) && w !in s.db.wfs && w in Step(cfg, s, l).db.wfs
    ensures l.Work? && l.x in s.jobs.hands && Asks(s.jobs.hands[l.x], p)
    ensures var s' := Step(cfg, s, l);
      && s'.db == PipelineCode.Inserted(World(s.db, w, tape), p, s.claims.now).db
      && Busy(s', l.x) && s'.workers[l.x].act.frame == NewFrame(p, w)
  {
    hide Step, Enabled;
    p := InsertStep(cfg, s, l, w);
  }

  /** What a finished handler leaves is the run of its code from the insert of the row,
      for what the job in the worker's hands asks for, on the tables as they were then
      and the fates it met. */
  ghost predicate IsTheCodes(cfg: Config, s: State, l: Label, ls: seq<Label>, w: nat, p: Prog)
    requires Enabled(s, l) && l.Work? && Possible(cfg, Step(cfg, s, l), ls) && Finishes(cfg, Step(cfg, s, l), ls, l.x)
  {
    var s' := Step(cfg, s, l);
    var x0 := PipelineCode.Inserted(World(s.db, w, Fates(cfg, s', ls, l.x)), p, s.claims.now);
    && Fair(x0, NewFrame(p, w))
    && var (y, g) := Drive(x0, NewFrame(p, w));
      var (last, end) := LastStep(cfg, s', ls, l.x);
      y.db == Step(cfg, last, end).db && EndsAs(last, Step(cfg, last, end), l.x, g)
  }

  /** In every safe run: a job whose handler inserts a row and comes to its end was, cut
      out of everything around it, a fair run of the code on its own payload. */
  lemma JobRunsTheCode(cfg: Config, before: seq<Label>, l: Label, ls: seq<Label>, w: nat) returns (p: Prog)
    requires Possible(cfg, INIT, before) && SafeRun(cfg, INIT, before)
    requires var s := Run(cfg, INIT, before);
      && Enabled(s, l) && w !in s.db.wfs && w in Step(cfg, s, l).db.wfs && l.Work?
      && Possible(cfg, Step(cfg, s, l), ls) && SafeRun(cfg, Step(cfg, s, l), ls)
      && Finishes(cfg, Step(cfg, s, l), ls, l.x)
    ensures var s := Run(cfg, INIT, before);
      l.x in s.jobs.hands && Asks(s.jobs.hands[l.x], p) && IsTheCodes(cfg, s, l, ls, w, p)
  {
    hide Step, Enabled, RowsGood, Known, Run, SafeRun, Possible, Finishes, Fates, IsTheCodes, Asks, Safe;
    ReachableIsRowsGood(cfg, before);
    KnownAtFirst(cfg);
    RunIsKnown(cfg, INIT, before, map[]);
    var s := Run(cfg, INIT, before);
    KnownClaims(s, Arrivals(before, map[]));
    NoStart(cfg, s, l);
    RowsGoodKept(cfg, s, l);
    var s' := Step(cfg, s, l);
    p := BirthOpens(cfg, s, l, w, Fates(cfg, s', ls, l.x));
    DriveFromRow(cfg, s, l, ls, w, p);
  }

  lemma KnownClaims(s: State, known: map<nat, RedisQueue.Blob>)
    requires Known(s, known)
    ensures ClaimsKnown(s)
  {
  }

  lemma NoStart(cfg: Config, s: State, l: Label)
    requires l.Work?
    ensures Safe(cfg, s, l)
  {
  }

  lemma DriveFromRow(cfg: Config, s: State, l: Label, ls: seq<Label>, w: nat, p: Prog)
    requires Enabled(s, l) && l.Work? && Possible(cfg, Step(cfg, s, l), ls) && SafeRun(cfg, Step(cfg, s, l), ls)
    requires Finishes(cfg, Step(cfg, s, l), ls, l.x) && RowsGood(cfg, Step(cfg, s, l))
    requires var s' := Step(cfg, s, l);
      var tape := Fates(cfg, s', ls, l.x);
      && s'.db == PipelineCode.Inserted(World(s.db, w, tape), p, s.claims.now).db
      && Busy(s', l.x) && s'.workers[l.x].act.frame == NewFrame(p, w)
    ensures IsTheCodes(cfg, s, l, ls, w, p)
  {
    hide Step, Enabled, SafeRun, Finishes, Fates, RowsGood, Drive, Fair, Walk, FairWalk, EndsAs, Leaves;
    var s' := Step(cfg, s, l);
    var tape := Fates(cfg, s', ls, l.x);
    var x0 := PipelineCode.Inserted(World(s.db, w, tape), p, s.claims.now);
    RowIsAnchored(cfg, s', l.x);
    HandlerIsAWalk(cfg, s', ls, l.x, x0);
    WalkToTheEnd(x0, NewFrame(p, w));
  }

  lemma WalkToTheEnd(x: World, f: Frame)
    requires ValidPc(f.prog, f.pc) && FairWalk(x, f) && Ended(Walk(x, f).1.pc)
    ensures Fair(x, f) && Drive(x, f) == Walk(x, f)
  {
    WalkThenDrive(x, f);
    hide Walk, FairWalk;
  }

  lemma RowIsAnchored(cfg: Config, s: State, x: nat)
    requires RowsGood(cfg, s) && Busy(s, x)
    ensures Leaves(s.db, s.db, s.workers[x].act.frame.wf)
    ensures var f := s.workers[x].act.frame; ValidPc(f.prog, f.pc)
  {
    HandlerOwns(s, x);
    LeavesItself(s.db, s.workers[x].act.frame.wf);
  }
}
