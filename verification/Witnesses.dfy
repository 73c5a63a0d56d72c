/** Runs from the empty system, for every configuration, that show what can happen. */
module Witnesses {
  import opened Common
  import opened Programs
  import opened Tables
  import opened Runtime
  import opened RowTheorems
  import opened Interference
  import opened UnsafeStarts
  import ClaimTheorems
  import Dedup
  import RedisQueue
  import TaskTheorems

  lemma {:induction false} RunsJoin(cfg: Config, s: State, a: seq<Label>, b: seq<Label>)
    requires Possible(cfg, s, a) && SafeRun(cfg, s, a)
    requires Possible(cfg, Run(cfg, s, a), b) && SafeRun(cfg, Run(cfg, s, a), b)
    ensures Possible(cfg, s, a + b) && SafeRun(cfg, s, a + b) && Run(cfg, s, a + b) == Run(cfg, Run(cfg, s, a), b)
    decreases |a|
  {
    if a == [] {
      assert a + b == b;
    } else {
      hide Step, Enabled, Safe;
      RunsJoin(cfg, Step(cfg, s, a[0]), a[1..], b);
      assert [a[0]] + (a[1..] + b) == a + b;
      OneMore(cfg, s, a[0], a[1..] + b);
    }
  }

  /** The program points of a handler whose steps go through. */
  predicate Path(p: Prog, pcs: seq<Pc>) {
    && pcs != [] && (forall i | 0 <= i < |pcs| :: !Ended(pcs[i]))
    && (forall i | 0 < i < |pcs| :: pcs[i] == Next(p, pcs[i - 1], Ok))
  }

  lemma {:induction false} Follow(cfg: Config, s: State, x: nat, w: nat, pcs: seq<Pc>) returns (ls: seq<Label>)
    requires Inside(s, x, w) && Path(s.workers[x].act.frame.prog, pcs) && pcs[0] == s.workers[x].act.frame.pc
    ensures Possible(cfg, s, ls) && OnlyOwnSteps(ls, x) && Inside(Run(cfg, s, ls), x, w)
    ensures Run(cfg, s, ls).workers[x].act.frame.pc == pcs[|pcs| - 1]
    decreases |pcs|
  {
    ls := [];
    if |pcs| > 1 {
      var f := s.workers[x].act.frame;
      var id := FreshKey(s.db, f.pc);
      var l := Work(x, Ok, id, "");
      assert pcs[1] == Next(f.prog, pcs[0], Ok);
      OkStep(cfg, s, x, w, id);
      var rest := Follow(cfg, Step(cfg, s, l), x, w, pcs[1..]);
      ls := [l] + rest;
      assert ls[1..] == rest;
    }
  }

  /** A completed task does get failed: a commit's handler completes its first task, the
      log append after it raises, and the except block fails the task. */
  lemma CompletedTaskFails(cfg: Config) returns (before: seq<Label>, after: seq<Label>, t: nat)
    ensures Possible(cfg, INIT, before) && SafeRun(cfg, INIT, before)
    ensures var s := Run(cfg, INIT, before);
      && Possible(cfg, s, after) && SafeRun(cfg, s, after)
      && t in s.db.tasks && s.db.tasks[t].status == Completed
      && t in Run(cfg, s, after).db.tasks && Run(cfg, s, after).db.tasks[t].status == Failed
  {
    hide Overlap, Run, Possible, SafeRun, RowsGood, Step, Enabled, Inside;
    var s := OverlapRuns(cfg);
    ReachableIsRowsGood(cfg, Overlap(cfg));
    HandlerIsInside(cfg, s, 0);
    var pcs := [Pc.Attach, Create(0), Body(0), Complete(0), ReadLog(0)];
    ToTheAppend(s.workers[0].act.frame.prog, pcs);
    var path := Follow(cfg, s, 0, 0, pcs);
    OwnStepsAreSafe(cfg, s, path, 0);
    RunsJoin(cfg, INIT, Overlap(cfg), path);
    before := Overlap(cfg) + path;
    ReachableIsRowsGood(cfg, before);
    var s' := Run(cfg, INIT, before);
    InsideIsBusy(s', 0, 0);
    t := s'.workers[0].act.frame.tid;
    after := TaskTheorems.RaiseUndoes(cfg, s', 0);
  }

  lemma InsideIsBusy(s: State, x: nat, w: nat)
    requires Inside(s, x, w)
    ensures Busy(s, x) && x in s.jobs.hands
  {
  }

  lemma ToTheAppend(p: Prog, pcs: seq<Pc>)
    requires p.Commit? && pcs == [Pc.Attach, Create(0), Body(0), Complete(0), ReadLog(0)]
    ensures Path(p, pcs)
  {
  }

  // --------------------------------------------------------------------------
  // Two handlers of one pair
  // --------------------------------------------------------------------------

  const PAIR := Key("r", "s")

  /** A second report of the commit of JOB. */
  const AGAIN := JOB.(id := 1)

  /** Two workers take two jobs of one pair; the first claims it, and a ttl later,
      before it has a row, so does the second. */
  function Late(cfg: Config): seq<Label> {
    [Start(0, {0, 1}), Arrive(RedisQueue.NORMAL, JOB), Arrive(RedisQueue.NORMAL, AGAIN)]
    + ([Fetch(0), Fetch(1), Work(0, Ok, 0, "")] + ([Tick(cfg.ttl), Work(1, Ok, 0, "")]))
  }

  /** Both workers hold a job of the pair, and nothing is claimed. */
  predicate BothDispatch(s: State) {
    && s.workers.Keys == {0, 1} && s.workers[0].act == Dispatch && s.workers[1].act == Dispatch
    && s.jobs.hands.Keys == {0, 1} && s.jobs.hands[0] == JOB && s.jobs.hands[1] == AGAIN
    && s.claims == Dedup.EMPTY && s.db.wfs == map[]
  }

  lemma Queued(cfg: Config) returns (s1: State, s2: State, s3: State)
    ensures Enabled(INIT, Start(0, {0, 1})) && s1 == Step(cfg, INIT, Start(0, {0, 1}))
    ensures Enabled(s1, Arrive(RedisQueue.NORMAL, JOB)) && s2 == Step(cfg, s1, Arrive(RedisQueue.NORMAL, JOB))
    ensures Enabled(s2, Arrive(RedisQueue.NORMAL, AGAIN)) && s3 == Step(cfg, s2, Arrive(RedisQueue.NORMAL, AGAIN))
    ensures s3.workers == map[0 := Worker(0, Idle), 1 := Worker(0, Idle)]
    ensures s3.jobs.lanes.normal == [JOB, AGAIN] && s3.jobs.lanes.high == [] && s3.jobs.hands == map[]
    ensures s3.claims == Dedup.EMPTY && s3.db.wfs == map[]
  {
    s1 := Step(cfg, INIT, Start(0, {0, 1}));
    assert s1.workers == map[0 := Worker(0, Idle), 1 := Worker(0, Idle)] && s1.db.wfs == map[];
    hide StartStep, Reap;
    s2 := Step(cfg, s1, Arrive(RedisQueue.NORMAL, JOB));
    assert s2.jobs.lanes.normal == [JOB] && s2.jobs.where.Keys == {0};
    s3 := Step(cfg, s2, Arrive(RedisQueue.NORMAL, AGAIN));
  }

  lemma Fetched(cfg: Config, s3: State) returns (s4: State, s5: State)
    requires s3.workers == map[0 := Worker(0, Idle), 1 := Worker(0, Idle)]
    requires s3.jobs.lanes.normal == [JOB, AGAIN] && s3.jobs.lanes.high == [] && s3.jobs.hands == map[]
    requires s3.claims == Dedup.EMPTY && s3.db.wfs == map[]
    ensures Enabled(s3, Fetch(0)) && s4 == Step(cfg, s3, Fetch(0))
    ensures Enabled(s4, Fetch(1)) && s5 == Step(cfg, s4, Fetch(1))
    ensures BothDispatch(s5)
  {
    s4 := Step(cfg, s3, Fetch(0));
    assert s4.jobs.lanes.normal == [AGAIN] && s4.workers[1] == Worker(0, Idle);
    s5 := Step(cfg, s4, Fetch(1));
  }

  /** Worker 0 has claimed the pair at time 0, worker 1 has yet to ask; it is `now`. */
  predicate FirstHolds(s: State, ttl: nat, now: nat) {
    && s.workers.Keys == {0, 1} && s.workers[0].act == Won(PAIR, 0) && s.workers[1].act == Dispatch
    && s.jobs.hands.Keys == {0, 1} && s.jobs.hands[0] == JOB && s.jobs.hands[1] == AGAIN && s.db.wfs == map[]
    && s.claims.claims == map[PAIR := Dedup.Claim(Dedup.PENDING, ttl)] && s.claims.now == now
    && s.claims.touches == [Dedup.Touch(PAIR, 0, true, Dedup.PENDING)] && s.claims.released == map[]
  }

  lemma FirstClaims(cfg: Config, s: State)
    requires BothDispatch(s)
    ensures Enabled(s, Work(0, Ok, 0, "")) && FirstHolds(Step(cfg, s, Work(0, Ok, 0, "")), cfg.ttl, 0)
  {
    assert !Dedup.Live(s.claims, PAIR);
  }

  lemma TtlPasses(cfg: Config, s: State)
    requires FirstHolds(s, cfg.ttl, 0)
    ensures Enabled(s, Tick(cfg.ttl)) && FirstHolds(Step(cfg, s, Tick(cfg.ttl)), cfg.ttl, cfg.ttl)
  {
  }

  lemma SecondClaims(cfg: Config, s: State)
    requires FirstHolds(s, cfg.ttl, cfg.ttl)
    ensures Enabled(s, Work(1, Ok, 0, ""))
    ensures var s' := Step(cfg, s, Work(1, Ok, 0, ""));
      && ClaimTheorems.InFlight(s', 0, PAIR) && ClaimTheorems.InFlight(s', 1, PAIR)
      && s'.claims.released == map[] && !ClaimTheorems.OnTime(cfg, s', 0)
  {
    assert !Dedup.Live(s.claims, PAIR);
  }

  /** Being on time is needed: for every ttl, in a run with one process and nothing
      released, two handlers of one pair are in flight together, the first of them a
      ttl past its claim. */
  lemma LateHandlersMeet(cfg: Config)
    ensures Possible(cfg, INIT, Late(cfg)) && OneProcess(cfg, INIT, Late(cfg))
    ensures var s := Run(cfg, INIT, Late(cfg));
      && ClaimTheorems.InFlight(s, 0, PAIR) && ClaimTheorems.InFlight(s, 1, PAIR)
      && s.claims.released == map[] && !ClaimTheorems.OnTime(cfg, s, 0)
  {
    hide Step, Enabled, FirstHolds, BothDispatch, ClaimTheorems.InFlight, ClaimTheorems.OnTime, Run, Possible, OneProcess;
    var s1, s2, s3 := Queued(cfg);
    var s4, s5 := Fetched(cfg, s3);
    FirstClaims(cfg, s5);
    var s6 := Step(cfg, s5, Work(0, Ok, 0, ""));
    TtlPasses(cfg, s6);
    var s7 := Step(cfg, s6, Tick(cfg.ttl));
    SecondClaims(cfg, s7);
    var s8 := Step(cfg, s7, Work(1, Ok, 0, ""));
    NothingLeft(cfg, s8);
    var tail := [Tick(cfg.ttl), Work(1, Ok, 0, "")];
    Prepend(cfg, s7, Work(1, Ok, 0, ""), []);
    Prepend(cfg, s6, Tick(cfg.ttl), [Work(1, Ok, 0, "")] + []);
    assert [Tick(cfg.ttl)] + ([Work(1, Ok, 0, "")] + []) == tail;
    Prepend(cfg, s5, Work(0, Ok, 0, ""), tail);
    Prepend(cfg, s4, Fetch(1), [Work(0, Ok, 0, "")] + tail);
    Prepend(cfg, s3, Fetch(0), [Fetch(1)] + ([Work(0, Ok, 0, "")] + tail));
    var middle := [Fetch(0)] + ([Fetch(1)] + ([Work(0, Ok, 0, "")] + tail));
    assert middle == [Fetch(0), Fetch(1), Work(0, Ok, 0, "")] + tail;
    Prepend(cfg, s2, Arrive(RedisQueue.NORMAL, AGAIN), middle);
    Prepend(cfg, s1, Arrive(RedisQueue.NORMAL, JOB), [Arrive(RedisQueue.NORMAL, AGAIN)] + middle);
    var last := [Arrive(RedisQueue.NORMAL, JOB)] + ([Arrive(RedisQueue.NORMAL, AGAIN)] + middle);
    Prepend(cfg, INIT, Start(0, {0, 1}), last);
    assert [Start(0, {0, 1})] + last == Late(cfg);
  }

  lemma NothingLeft(cfg: Config, s: State)
    ensures Possible(cfg, s, []) && OneProcess(cfg, s, []) && Run(cfg, s, []) == s
  {
  }

  lemma Prepend(cfg: Config, s: State, l: Label, ls: seq<Label>)
    requires Enabled(s, l) && (l.Start? ==> s.workers == map[])
    requires Possible(cfg, Step(cfg, s, l), ls) && OneProcess(cfg, Step(cfg, s, l), ls)
    ensures Possible(cfg, s, [l] + ls) && OneProcess(cfg, s, [l] + ls)
    ensures Run(cfg, s, [l] + ls) == Run(cfg, Step(cfg, s, l), ls)
  {
    assert ([l] + ls)[1..] == ls;
  }
}
