/** The whole runtime as one transition system: any number of orchestrator
    processes with their workers, Redis, Postgres, the vector map and the clock,
    interleaved one atomic step at a time. */
module Runtime {
  import opened Common
  import opened Programs
  import opened Tables
  import Dedup
  import RedisQueue
  import Decimal

  datatype Config = Config(ttl: nat, maxAge: nat)

  /** What a worker coroutine is about to do. A commit handler holds the index of
      the winning write of its claim, and after attaching that of the attach. */
  datatype Act =
    | Idle
    | Dispatch                                            // a job in hand, its handler not yet entered
    | Missed(key: Key)                                    // SET NX lost, the GET still to come
    | Won(key: Key, win: nat)                             // SET NX won, no workflow row yet
    | InPipe(frame: Frame, win: nat, att: Option<nat>)
    | Pushing                                             // the handler raised, q.fail still to come

  datatype Worker = Worker(proc: nat, act: Act)

  /** History of one workflow row: its run as its owner performed it, whether a
      reaper took it, the job that made it and the claim behind it. */
  datatype Entry = Entry(led: Ledger, reaped: bool, job: nat, win: Option<nat>)

  datatype Answer = Answer(key: Key, workflow: Option<nat>, inFlight: bool)

  datatype State = State(
    claims: Dedup.Store, jobs: RedisQueue.Store, db: Db, workers: map<nat, Worker>, stopping: set<nat>,
    ledgers: map<nat, Entry>, answers: seq<Answer>, indexed: map<string, nat>)

  const INIT := State(Dedup.EMPTY, RedisQueue.EMPTY, EMPTY, map[], {}, map[], [], map[])

  datatype Label =
    | Tick(seconds: nat)
    | Arrive(lane: RedisQueue.Lane, job: RedisQueue.Blob)   // watcher or POST /trigger
    | Release(key: Key)                                     // operator
    | Decide(approval: nat, decision: string)               // operator
    | Start(proc: nat, ids: set<nat>)                       // reap, then spawn the workers
    | Stop(proc: nat)                                       // graceful: workers leave when idle
    | Exit(x: nat)
    | Kill(proc: nat)                                       // crash
    | Fetch(x: nat)                                         // BLPOP served to worker x
    | FetchLost(x: nat)                                     // BLPOP served, reply lost
    | Work(x: nat, out: Outcome, id: nat, text: string)     // worker x's next atomic step

  /** The handler a job reaches, if it gets past the handler table and the payload
      checks; otherwise the job is failed before anything is written. */
  function Handler(b: RedisQueue.Blob): Option<Prog> {
    if b.kind == "commit_pipeline" then
      if b.payload.repo.Some? && b.payload.sha.Some?
      then Some(Commit(Key(b.payload.repo.value, b.payload.sha.value)))
      else None
    else if b.kind == "demo_request" then
      if b.payload.scenario in {"001", "002", "003"}
      then Some(Demo(b.payload.scenario, b.payload.skipRender))
      else None
    else None
  }

  /** The answer of a skipped run: `existing_value or "unknown"`, an integer id only
      when it is all digits, and the reason. */
  function SkipAnswer(k: Key, existing: Option<string>): Answer {
    var v := if existing.Some? && existing.value != "" then existing.value else "unknown";
    Answer(k, if Decimal.IsDigits(v) then Some(Decimal.Parse(v)) else None, v == Dedup.PENDING)
  }

  function Become(s: State, x: nat, act: Act): State
    requires x in s.workers
  {
    s.(workers := s.workers[x := s.workers[x].(act := act)])
  }

  function Finished(s: State, x: nat): State
    requires x in s.workers && x in s.jobs.hands
  {
    Become(s, x, Idle).(jobs := RedisQueue.Apply(s.jobs, RedisQueue.Finish(x)))
  }

  /** INSERT of a workflow row by worker x, with its history entry. */
  function Insert(s: State, x: nat, p: Prog, w: nat, win: Option<nat>): State
    requires x in s.workers && x in s.jobs.hands
  {
    Become(s, x, InPipe(NewFrame(p, w), if win.Some? then win.value else 0, None)).(
      db := InsertWorkflow(s.db, w, p, s.claims.now),
      ledgers := s.ledgers[w := Entry(Begin(p, w), false, s.jobs.hands[x].id, win)])
  }

  function DispatchStep(cfg: Config, s: State, x: nat, out: Outcome, id: nat): State
    requires x in s.workers && x in s.jobs.hands
  {
    match Handler(s.jobs.hands[x])
    case None => Become(s, x, Pushing)
    case Some(Demo(sc, skip)) => if out == Ok then Insert(s, x, Demo(sc, skip), id, None) else Become(s, x, Pushing)
    case Some(Commit(k)) =>
      if out == Raise then Become(s, x, Pushing)
      else
        var s1 := s.(claims := Dedup.Apply(s.claims, Dedup.SetNx(k), cfg.ttl));
        if out == Bad then Become(s1, x, Pushing)
        else if Dedup.Live(s.claims, k) then Become(s1, x, Missed(k))
        else Become(s1, x, Won(k, |s.claims.touches|))
  }

  function MissedStep(s: State, x: nat, k: Key, out: Outcome): State
    requires x in s.workers && x in s.jobs.hands
  {
    if out != Ok then Become(s, x, Pushing)
    else Finished(s, x).(answers := s.answers + [SkipAnswer(k, Dedup.Get(s.claims, k))])
  }

  function WonStep(s: State, x: nat, k: Key, win: nat, out: Outcome, id: nat): State
    requires x in s.workers && x in s.jobs.hands
  {
    if out != Ok then Become(s, x, Pushing) else Insert(s, x, Commit(k), id, Some(win))
  }

  function PipeClaims(cfg: Config, s: State, f: Frame, out: Outcome): Dedup.Store {
    if f.pc == Attach && out != Raise && f.prog.Commit?
    then Dedup.Apply(s.claims, Dedup.Attach(f.prog.key, Decimal.Show(f.wf)), cfg.ttl)
    else s.claims
  }

  /** One step inside a handler: on the tables, on the handler's locals, and on the
      history of its workflow. */
  function PipeStep(cfg: Config, s: State, x: nat, f: Frame, win: nat, att: Option<nat>, out: Outcome, id: nat, text: string): State
    requires x in s.workers && x in s.jobs.hands
  {
    var f' := StepFrame(s.db, f, out, id, text);
    var s1 := s.(
      claims := PipeClaims(cfg, s, f, out),
      db := StepDb(s.db, f, out, id, text),
      ledgers := if f.wf in s.ledgers
                 then s.ledgers[f.wf := s.ledgers[f.wf].(led := Advance(s.ledgers[f.wf].led, out, id))]
                 else s.ledgers,
      indexed := if f.pc == Upsert && out == Ok then s.indexed[VectorId(f.prog) := f.mem] else s.indexed);
    if f'.pc == Returned then Finished(s1, x)
    else if Ended(f'.pc) then Become(s1, x, Pushing)
    else Become(s1, x, InPipe(f', win, if f.pc == Attach then Some(|s.claims.touches|) else att))
  }

  /** q.fail; if its RPUSH raises, the job is gone and the worker with it. */
  function PushStep(s: State, x: nat, out: Outcome, text: string): State
    requires x in s.workers && x in s.jobs.hands
  {
    if out == Ok then Become(s, x, Idle).(jobs := RedisQueue.Apply(s.jobs, RedisQueue.Fail(x, text)))
    else s.(workers := s.workers - {x}, jobs := RedisQueue.Apply(s.jobs, RedisQueue.FailLost(x)))
  }

  function WorkStep(cfg: Config, s: State, l: Label): State
    requires l.Work? && l.x in s.workers && l.x in s.jobs.hands
  {
    match s.workers[l.x].act
    case Idle => s
    case Dispatch => DispatchStep(cfg, s, l.x, l.out, l.id)
    case Missed(k) => MissedStep(s, l.x, k, l.out)
    case Won(k, win) => WonStep(s, l.x, k, win, l.out, l.id)
    case InPipe(f, win, att) => PipeStep(cfg, s, l.x, f, win, att, l.out, l.id, l.text)
    case Pushing => PushStep(s, l.x, l.out, l.text)
  }

  predicate FreshWorkflow(db: Db, id: nat) {
    forall w | w in db.wfs :: w < id
  }

  /** The fresh primary keys a worker's next insert may be given. */
  predicate FreshId(s: State, act: Act, id: nat) {
    match act
    case Dispatch => FreshWorkflow(s.db, id)
    case Won(_, _) => FreshWorkflow(s.db, id)
    case InPipe(f, _, _) => FreshFor(s.db, f.pc, id)
    case _ => true
  }

  predicate Enabled(s: State, l: Label) {
    match l
    case Tick(_) => true
    case Arrive(lane, b) => RedisQueue.Enabled(s.jobs, RedisQueue.Enqueue(lane, b))
    case Release(_) => true
    case Decide(a, _) => true
    case Start(_, ids) => ids !! s.workers.Keys
    case Stop(_) => true
    case Exit(x) => x in s.workers && s.workers[x].act == Idle && s.workers[x].proc in s.stopping
    case Kill(_) => true
    case Fetch(x) =>
      x in s.workers && s.workers[x].act == Idle && RedisQueue.Enabled(s.jobs, RedisQueue.Pop(x))
    case FetchLost(x) =>
      x in s.workers && s.workers[x].act == Idle && RedisQueue.Enabled(s.jobs, RedisQueue.PopLost)
    case Work(x, _, id, _) =>
      x in s.workers && s.workers[x].act != Idle && x in s.jobs.hands && FreshId(s, s.workers[x].act, id)
  }

  function WorkersOf(s: State, proc: nat): set<nat> {
    set x | x in s.workers && s.workers[x].proc == proc
  }

  function StartStep(cfg: Config, s: State, proc: nat, ids: set<nat>): State {
    s.(db := Reap(s.db, s.claims.now, cfg.maxAge),
       ledgers := map w | w in s.ledgers ::
         if Stale(s.db, w, s.claims.now, cfg.maxAge) then s.ledgers[w].(reaped := true) else s.ledgers[w],
       workers := map x | x in s.workers.Keys + ids :: if x in s.workers then s.workers[x] else Worker(proc, Idle),
       stopping := s.stopping - {proc})
  }

  function DecideStep(db: Db, a: nat, decision: string): Db {
    if a in db.apprs && decision in {"approved", "rejected"}
    then db.(apprs := db.apprs[a := db.apprs[a].(decision := Some(decision))])
    else db
  }

  function Step(cfg: Config, s: State, l: Label): State
    requires Enabled(s, l)
  {
    match l
    case Tick(d) => s.(claims := Dedup.Apply(s.claims, Dedup.Wait(d), cfg.ttl))
    case Arrive(lane, b) => s.(jobs := RedisQueue.Apply(s.jobs, RedisQueue.Enqueue(lane, b)))
    case Release(k) => s.(claims := Dedup.Apply(s.claims, Dedup.Delete(k), cfg.ttl))
    case Decide(a, d) => s.(db := DecideStep(s.db, a, d))
    case Start(proc, ids) => StartStep(cfg, s, proc, ids)
    case Stop(proc) => s.(stopping := s.stopping + {proc})
    case Exit(x) => s.(workers := s.workers - {x})
    case Kill(proc) =>
      s.(workers := s.workers - WorkersOf(s, proc),
         jobs := RedisQueue.Apply(s.jobs, RedisQueue.Crash(WorkersOf(s, proc))))
    case Fetch(x) => Become(s, x, Dispatch).(jobs := RedisQueue.Apply(s.jobs, RedisQueue.Pop(x)))
    case FetchLost(x) => s.(jobs := RedisQueue.Apply(s.jobs, RedisQueue.PopLost))
    case Work(_, _, _, _) => WorkStep(cfg, s, l)
  }

  ghost predicate Possible(cfg: Config, s: State, ls: seq<Label>)
    decreases |ls|
  {
    ls == [] || (Enabled(s, ls[0]) && Possible(cfg, Step(cfg, s, ls[0]), ls[1..]))
  }

  ghost function Run(cfg: Config, s: State, ls: seq<Label>): State
    requires Possible(cfg, s, ls)
    decreases |ls|
  {
    if ls == [] then s else Run(cfg, Step(cfg, s, ls[0]), ls[1..])
  }

  /** A start that finds no live handler on a stale row. The row theorems need this
      and nothing else: one process at a time gives it, and so does any number of
      processes whose handlers end within max_age. */
  predicate Safe(cfg: Config, s: State, l: Label) {
    l.Start? ==>
      forall x | x in s.workers && s.workers[x].act.InPipe? ::
        !Stale(s.db, s.workers[x].act.frame.wf, s.claims.now, cfg.maxAge)
  }

  ghost predicate SafeRun(cfg: Config, s: State, ls: seq<Label>)
    requires Possible(cfg, s, ls)
    decreases |ls|
  {
    ls == [] || (Safe(cfg, s, ls[0]) && SafeRun(cfg, Step(cfg, s, ls[0]), ls[1..]))
  }
}
