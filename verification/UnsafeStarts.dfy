/** Starts that reap a row some live handler still works on: what they break, that they
    can happen, and that nothing else breaks it. */
module UnsafeStarts {
  import opened Common
  import opened Programs
  import opened Tables
  import opened Runtime
  import opened RuntimeRows
  import opened RowTheorems
  import RedisQueue
  import Timing

  lemma {:induction false} AboveAll(keys: set<nat>) returns (n: nat)
    ensures forall k | k in keys :: k < n
  {
    n := 0;
    if keys != {} {
      var k :| k in keys;
      var m := AboveAll(keys - {k});
      n := if m <= k then k + 1 else m;
      assert forall j | j in keys :: j == k || j in keys - {k};
    }
  }

  lemma FreshKey(db: Db, pc: Pc) returns (id: nat)
    ensures FreshFor(db, pc, id)
  {
    if pc.Create? {
      id := AboveAll(db.tasks.Keys);
    } else if pc.Remember? {
      id := AboveAll(db.mems.Keys);
    } else {
      id := AboveAll(db.apprs.Keys);
    }
  }

  /** Worker `x` is inside a handler for row `w`. */
  ghost predicate Inside(s: State, x: nat, w: nat) {
    && x in s.workers && x in s.jobs.hands && s.workers[x].act.InPipe?
    && var f := s.workers[x].act.frame;
      f.wf == w && w in s.db.wfs && ValidPc(f.prog, f.pc) && !Ended(f.pc)
  }

  ghost predicate OnlyOwnSteps(ls: seq<Label>, x: nat) {
    forall i | 0 <= i < |ls| :: ls[i].Work? && ls[i].x == x && ls[i].out == Ok
  }

  lemma OkStep(cfg: Config, s: State, x: nat, w: nat, id: nat)
    requires Inside(s, x, w)
    ensures var InPipe(f, win, att) := s.workers[x].act;
      var s' := PipeStep(cfg, s, x, f, win, att, Ok, id, "");
      var pc := Next(f.prog, f.pc, Ok);
      && w in s'.db.wfs
      && (Ended(pc) ==> s'.db.wfs[w].status in {Completed, Failed})
      && (!Ended(pc) ==> Inside(s', x, w) && s'.workers[x].act.frame.pc == pc && s'.workers[x].act.frame.prog == f.prog)
  {
    var InPipe(f, win, att) := s.workers[x].act;
    Timing.RankFalls(f.prog, f.pc, Ok);
    if Ended(Next(f.prog, f.pc, Ok)) {
      EndsByWriting(f.prog, f.pc);
    }
  }

  /** Without exceptions a handler ends only by writing a final status. */
  lemma EndsByWriting(p: Prog, pc: Pc)
    requires !Ended(pc) && Ended(Next(p, pc, Ok))
    ensures pc == WriteEnd || pc.WriteFail?
  {
  }

  /** From any program point, a handler whose steps all go through gives its row a
      final status, whatever the row says by then. */
  lemma {:induction false} RunsOn(cfg: Config, s: State, x: nat, w: nat) returns (ls: seq<Label>)
    requires Inside(s, x, w)
    ensures Possible(cfg, s, ls) && OnlyOwnSteps(ls, x)
    ensures w in Run(cfg, s, ls).db.wfs && Run(cfg, s, ls).db.wfs[w].status in {Completed, Failed}
    decreases Timing.Rank(s.workers[x].act.frame.prog, s.workers[x].act.frame.pc)
  {
    var f := s.workers[x].act.frame;
    var id := FreshKey(s.db, f.pc);
    var l := Work(x, Ok, id, "");
    OkStep(cfg, s, x, w, id);
    Timing.RankFalls(f.prog, f.pc, Ok);
    var rest: seq<Label> := [];
    if !Ended(Next(f.prog, f.pc, Ok)) {
      rest := RunsOn(cfg, Step(cfg, s, l), x, w);
    }
    ls := [l] + rest;
    assert ls[1..] == rest;
  }

  lemma {:induction false} OwnStepsAreSafe(cfg: Config, s: State, ls: seq<Label>, x: nat)
    requires Possible(cfg, s, ls) && OnlyOwnSteps(ls, x)
    ensures SafeRun(cfg, s, ls)
    decreases |ls|
  {
    if ls != [] {
      OwnStepsAreSafe(cfg, Step(cfg, s, ls[0]), ls[1..], x);
    }
  }

  lemma HandlerIsInside(cfg: Config, s: State, x: nat)
    requires RowsGood(cfg, s) && x in s.workers && s.workers[x].act.InPipe?
    ensures Inside(s, x, s.workers[x].act.frame.wf)
  {
    HandlerOwns(s, x);
  }

  lemma StartLeavesInside(cfg: Config, s: State, proc: nat, ids: set<nat>, x: nat, w: nat)
    requires Inside(s, x, w)
    ensures var s' := StartStep(cfg, s, proc, ids);
      Inside(s', x, w) && (Stale(s.db, w, s.claims.now, cfg.maxAge) ==> s'.db.wfs[w].status == Interrupted)
  {
  }

  /** What a start does to a live handler, at any program point, whose row is stale:
      the row is interrupted at once, and when the handler goes on without exceptions
      it overwrites that final status with another one. */
  lemma UnsafeStartOverwrites(cfg: Config, s: State, proc: nat, ids: set<nat>, x: nat) returns (ls: seq<Label>)
    requires RowsGood(cfg, s) && Enabled(s, Start(proc, ids)) && x in s.workers && s.workers[x].act.InPipe?
    requires Stale(s.db, s.workers[x].act.frame.wf, s.claims.now, cfg.maxAge)
    ensures var w := s.workers[x].act.frame.wf;
      var s' := Step(cfg, s, Start(proc, ids));
      && w in s'.db.wfs && s'.db.wfs[w].status == Interrupted
      && Possible(cfg, s', ls) && OnlyOwnSteps(ls, x)
      && w in Run(cfg, s', ls).db.wfs && Run(cfg, s', ls).db.wfs[w].status in {Completed, Failed}
  {
    var w := s.workers[x].act.frame.wf;
    HandlerIsInside(cfg, s, x);
    StartLeavesInside(cfg, s, proc, ids, x, w);
    ls := RunsOn(cfg, StartStep(cfg, s, proc, ids), x, w);
  }

  /** If the handler had read its log before the start and writes it after, the
      reaper's entry is gone as well. */
  lemma UnsafeStartLosesEntry(cfg: Config, s: State, x: nat, text: string)
    requires RowsOk(s) && x in s.workers && s.workers[x].act.InPipe?
    requires var pc := s.workers[x].act.frame.pc; pc.WriteLog? || pc.WriteFail? || pc.WriteEnd?
    requires Stale(s.db, s.workers[x].act.frame.wf, s.claims.now, cfg.maxAge)
    ensures var f := s.workers[x].act.frame;
      var log := s.db.wfs[f.wf].log;
      var reaped := Reap(s.db, s.claims.now, cfg.maxAge);
      var written := Exec(reaped, f, 0, text);
      && f.wf in reaped.wfs && reaped.wfs[f.wf].log == log + [WorkflowInterrupted]
      && f.wf in written.wfs && |written.wfs[f.wf].log| == |log| + 1 && log <= written.wfs[f.wf].log
      && written.wfs[f.wf].log[|log|] != WorkflowInterrupted
  {
    var f := s.workers[x].act.frame;
    SnapshotIsCurrent(s, x);
    ReapedLog(s.db, s.claims.now, cfg.maxAge, f, text);
  }

  lemma SnapshotIsCurrent(s: State, x: nat)
    requires RowsOk(s) && x in s.workers && s.workers[x].act.InPipe?
    requires var pc := s.workers[x].act.frame.pc; pc.WriteLog? || pc.WriteFail? || pc.WriteEnd?
    ensures var f := s.workers[x].act.frame; f.wf in s.db.wfs && f.snap == s.db.wfs[f.wf].log
  {
    HandlerOwns(s, x);
  }

  lemma ReapedLog(db: Db, now: nat, maxAge: nat, f: Frame, text: string)
    requires Stale(db, f.wf, now, maxAge) && f.snap == db.wfs[f.wf].log
    requires f.pc.WriteLog? || f.pc.WriteFail? || f.pc.WriteEnd?
    ensures var log := db.wfs[f.wf].log;
      var reaped := Reap(db, now, maxAge);
      var written := Exec(reaped, f, 0, text);
      && f.wf in reaped.wfs && reaped.wfs[f.wf].log == log + [WorkflowInterrupted]
      && f.wf in written.wfs && |written.wfs[f.wf].log| == |log| + 1 && log <= written.wfs[f.wf].log
      && written.wfs[f.wf].log[|log|] != WorkflowInterrupted
  {
  }

  /** No run that is safe from here on changes a row that has its final status. */
  ghost predicate EndingsStay(cfg: Config, s: State) {
    forall ls, w | Possible(cfg, s, ls) && SafeRun(cfg, s, ls) && w in s.db.wfs && s.db.wfs[w].status != Running ::
      w in Run(cfg, s, ls).db.wfs && Run(cfg, s, ls).db.wfs[w] == s.db.wfs[w]
  }

  /** In every state a safe run reaches, a start leaves final statuses final, whatever
      safely follows, if and only if it is safe. */
  lemma SafeStartsKeepEndings(cfg: Config, before: seq<Label>, proc: nat, ids: set<nat>)
    requires Possible(cfg, INIT, before) && SafeRun(cfg, INIT, before)
    requires Enabled(Run(cfg, INIT, before), Start(proc, ids))
    ensures var s := Run(cfg, INIT, before);
      EndingsStay(cfg, Step(cfg, s, Start(proc, ids))) <==> Safe(cfg, s, Start(proc, ids))
  {
    ReachableIsRowsGood(cfg, before);
    var s := Run(cfg, INIT, before);
    if Safe(cfg, s, Start(proc, ids)) {
      SafeStartKeeps(cfg, s, proc, ids);
    } else {
      UnsafeStartBreaks(cfg, s, proc, ids);
    }
  }

  lemma SafeStartKeeps(cfg: Config, s: State, proc: nat, ids: set<nat>)
    requires RowsGood(cfg, s) && Enabled(s, Start(proc, ids)) && Safe(cfg, s, Start(proc, ids))
    ensures EndingsStay(cfg, Step(cfg, s, Start(proc, ids)))
  {
    var s' := Step(cfg, s, Start(proc, ids));
    RowsGoodKept(cfg, s, Start(proc, ids));
    forall ls, w | Possible(cfg, s', ls) && SafeRun(cfg, s', ls) && w in s'.db.wfs && s'.db.wfs[w].status != Running
      ensures w in Run(cfg, s', ls).db.wfs && Run(cfg, s', ls).db.wfs[w] == s'.db.wfs[w]
    {
      TerminalStays(cfg, s', ls, w);
    }
  }

  lemma UnsafeStartBreaks(cfg: Config, s: State, proc: nat, ids: set<nat>)
    requires RowsGood(cfg, s) && Enabled(s, Start(proc, ids)) && !Safe(cfg, s, Start(proc, ids))
    ensures !EndingsStay(cfg, Step(cfg, s, Start(proc, ids)))
  {
    hide Step, Run, RowsGood, SafeRun, Possible;
    var x :| x in s.workers && s.workers[x].act.InPipe?
      && Stale(s.db, s.workers[x].act.frame.wf, s.claims.now, cfg.maxAge);
    var w := s.workers[x].act.frame.wf;
    var ls := UnsafeStartOverwrites(cfg, s, proc, ids, x);
    OwnStepsAreSafe(cfg, Step(cfg, s, Start(proc, ids)), ls, x);
  }

  // --------------------------------------------------------------------------
  // A run that gets there
  // --------------------------------------------------------------------------

  const JOB := RedisQueue.Blob(0, "commit_pipeline", RedisQueue.Payload(Some("r"), Some("s"), "", false), 0, [])

  /** A process starts, a commit arrives and is claimed, its row inserted; max_age
      passes; and a second process is about to start. */
  function Overlap(cfg: Config): seq<Label> {
    [Start(0, {0}), Arrive(RedisQueue.NORMAL, JOB), Fetch(0), Work(0, Ok, 0, ""), Work(0, Ok, 0, ""), Tick(cfg.maxAge + 1)]
  }

  lemma OneMore(cfg: Config, s: State, l: Label, ls: seq<Label>)
    requires Enabled(s, l) && Safe(cfg, s, l)
    requires Possible(cfg, Step(cfg, s, l), ls) && SafeRun(cfg, Step(cfg, s, l), ls)
    ensures Possible(cfg, s, [l] + ls) && SafeRun(cfg, s, [l] + ls)
    ensures Run(cfg, s, [l] + ls) == Run(cfg, Step(cfg, s, l), ls)
  {
    assert ([l] + ls)[1..] == ls;
  }

  /** The first three steps: a worker holds the job. */
  lemma FirstHalf(cfg: Config) returns (s: State)
    ensures Enabled(INIT, Start(0, {0}))
    ensures var s1 := Step(cfg, INIT, Start(0, {0}));
      Enabled(s1, Arrive(RedisQueue.NORMAL, JOB))
      && var s2 := Step(cfg, s1, Arrive(RedisQueue.NORMAL, JOB)); Enabled(s2, Fetch(0)) && s == Step(cfg, s2, Fetch(0))
    ensures 0 in s.workers && s.workers[0].act == Dispatch && 0 in s.jobs.hands && s.jobs.hands[0] == JOB
    ensures s.workers.Keys == {0}
    ensures s.claims.claims == map[] && s.claims.touches == [] && s.db == EMPTY && s.claims.now == 0
  {
    var s1 := Step(cfg, INIT, Start(0, {0}));
    assert s1.db.wfs == map[] && s1.db.tasks == map[] && s1.workers == map[0 := Worker(0, Idle)];
    assert s1.db == EMPTY;
    hide StartStep, Reap;
    var s2 := Step(cfg, s1, Arrive(RedisQueue.NORMAL, JOB));
    assert s2 == s1.(jobs := s2.jobs) && s2.jobs.hands == map[] && s2.jobs.lanes.normal == [JOB] && s2.jobs.lanes.high == [];
    s := Step(cfg, s2, Fetch(0));
  }

  /** The next three: it runs a handler on a row older than max_age. */
  lemma SecondHalf(cfg: Config, s: State) returns (s': State)
    requires 0 in s.workers && s.workers[0].act == Dispatch && 0 in s.jobs.hands && s.jobs.hands[0] == JOB
    requires s.claims.claims == map[] && s.claims.touches == [] && s.db == EMPTY && s.claims.now == 0
    ensures Enabled(s, Work(0, Ok, 0, ""))
    ensures var s1 := Step(cfg, s, Work(0, Ok, 0, ""));
      Enabled(s1, Work(0, Ok, 0, ""))
      && var s2 := Step(cfg, s1, Work(0, Ok, 0, "")); s' == Step(cfg, s2, Tick(cfg.maxAge + 1))
    ensures 0 in s'.workers && s'.workers[0].act.InPipe?
    ensures s'.workers[0].act.frame == NewFrame(Commit(Key("r", "s")), 0)
    ensures Stale(s'.db, 0, s'.claims.now, cfg.maxAge)
    ensures s'.workers.Keys == s.workers.Keys
  {
    var s1 := Step(cfg, s, Work(0, Ok, 0, ""));
    assert s1.workers[0].act == Won(Key("r", "s"), 0);
    var s2 := Step(cfg, s1, Work(0, Ok, 0, ""));
    s' := Step(cfg, s2, Tick(cfg.maxAge + 1));
  }

  /** Unsafe starts do happen once a second process shares the database: from the
      empty system, for every configuration, a safe run leads to one; and after it the
      interrupted row is given another final status. */
  lemma UnsafeStartIsReachable(cfg: Config) returns (after: seq<Label>)
    ensures Possible(cfg, INIT, Overlap(cfg)) && SafeRun(cfg, INIT, Overlap(cfg))
    ensures var s := Run(cfg, INIT, Overlap(cfg));
      && Enabled(s, Start(1, {1})) && !Safe(cfg, s, Start(1, {1}))
      && var s' := Step(cfg, s, Start(1, {1}));
        && 0 in s'.db.wfs && s'.db.wfs[0].status == Interrupted
        && Possible(cfg, s', after) && SafeRun(cfg, s', after)
        && 0 in Run(cfg, s', after).db.wfs && Run(cfg, s', after).db.wfs[0].status in {Completed, Failed}
  {
    hide Overlap, Run, Step, RowsGood, Stale;
    var s := OverlapRuns(cfg);
    ReachableIsRowsGood(cfg, Overlap(cfg));
    assert Enabled(s, Start(1, {1}));
    after := UnsafeStartOverwrites(cfg, s, 1, {1}, 0);
    OwnStepsAreSafe(cfg, Step(cfg, s, Start(1, {1})), after, 0);
  }

  lemma OverlapRuns(cfg: Config) returns (s: State)
    ensures Possible(cfg, INIT, Overlap(cfg)) && SafeRun(cfg, INIT, Overlap(cfg)) && s == Run(cfg, INIT, Overlap(cfg))
    ensures s.workers.Keys == {0} && s.workers[0].act.InPipe?
    ensures s.workers[0].act.frame == NewFrame(Commit(Key("r", "s")), 0)
    ensures Stale(s.db, 0, s.claims.now, cfg.maxAge)
  {
    var s3 := FirstHalf(cfg);
    s := SecondHalf(cfg, s3);
    OverlapIsPossible(cfg, s3, s);
  }

  lemma OverlapIsPossible(cfg: Config, s3: State, s6: State)
    requires Enabled(INIT, Start(0, {0}))
    requires var s1 := Step(cfg, INIT, Start(0, {0}));
      Enabled(s1, Arrive(RedisQueue.NORMAL, JOB))
      && var s2 := Step(cfg, s1, Arrive(RedisQueue.NORMAL, JOB)); Enabled(s2, Fetch(0)) && s3 == Step(cfg, s2, Fetch(0))
    requires Enabled(s3, Work(0, Ok, 0, ""))
    requires var s4 := Step(cfg, s3, Work(0, Ok, 0, ""));
      Enabled(s4, Work(0, Ok, 0, ""))
      && var s5 := Step(cfg, s4, Work(0, Ok, 0, "")); s6 == Step(cfg, s5, Tick(cfg.maxAge + 1))
    ensures Possible(cfg, INIT, Overlap(cfg)) && SafeRun(cfg, INIT, Overlap(cfg)) && s6 == Run(cfg, INIT, Overlap(cfg))
  {
    hide Enabled, Step;
    var s1 := Step(cfg, INIT, Start(0, {0}));
    var s2 := Step(cfg, s1, Arrive(RedisQueue.NORMAL, JOB));
    var s4 := Step(cfg, s3, Work(0, Ok, 0, ""));
    var s5 := Step(cfg, s4, Work(0, Ok, 0, ""));
    var tail := [Work(0, Ok, 0, ""), Work(0, Ok, 0, ""), Tick(cfg.maxAge + 1)];
    assert Enabled(s5, Tick(cfg.maxAge + 1)) by {
      TickEnabled(s5, cfg.maxAge + 1);
    }
    ThreeMore(cfg, s3, s4, s5, s6, tail[0], tail[1], tail[2], []);
    assert tail + [] == tail;
    ThreeMore(cfg, INIT, s1, s2, s3, Start(0, {0}), Arrive(RedisQueue.NORMAL, JOB), Fetch(0), tail);
    assert [Start(0, {0}), Arrive(RedisQueue.NORMAL, JOB), Fetch(0)] + tail == Overlap(cfg);
  }

  lemma TickEnabled(s: State, seconds: nat)
    ensures Enabled(s, Tick(seconds))
  {
  }

  lemma ThreeMore(cfg: Config, s0: State, s1: State, s2: State, s3: State, a: Label, b: Label, c: Label, ls: seq<Label>)
    requires Enabled(s0, a) && s1 == Step(cfg, s0, a) && Enabled(s1, b) && s2 == Step(cfg, s1, b)
    requires Enabled(s2, c) && s3 == Step(cfg, s2, c)
    requires Safe(cfg, s0, a) && Safe(cfg, s1, b) && Safe(cfg, s2, c)
    requires Possible(cfg, s3, ls) && SafeRun(cfg, s3, ls)
    ensures Possible(cfg, s0, [a, b, c] + ls) && SafeRun(cfg, s0, [a, b, c] + ls)
    ensures Run(cfg, s0, [a, b, c] + ls) == Run(cfg, s3, ls)
  {
    hide Step, Enabled, Safe;
    OneMore(cfg, s2, c, ls);
    OneMore(cfg, s1, b, [c] + ls);
    OneMore(cfg, s0, a, [b] + ([c] + ls));
    assert [a] + ([b] + ([c] + ls)) == [a, b, c] + ls;
  }
}
