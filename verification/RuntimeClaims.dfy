/** Claims, jobs and skip answers: theorems over every run, with any number of
    processes starting, crashing and stopping. */
module RuntimeClaims {
  import opened Common
  import opened Programs
  import opened Tables
  import opened Runtime
  import Dedup
  import RedisQueue
  import QueueProofs = RedisQueueProofs
  import Decimal

  // --------------------------------------------------------------------------
  // The component machines
  // --------------------------------------------------------------------------

  /** A worker holds a job exactly while it is busy. */
  ghost predicate HandsMatch(s: State) {
    && s.jobs.hands.Keys <= s.workers.Keys
    && forall x | x in s.workers :: s.workers[x].act != Idle <==> x in s.jobs.hands
  }

  ghost predicate Parts(cfg: Config, s: State) {
    Dedup.Inv(s.claims, cfg.ttl) && RedisQueue.Inv(s.jobs) && HandsMatch(s)
  }

  /** Every step acts on the claim store by at most one Redis command. */
  lemma StepClaims(cfg: Config, s: State, l: Label) returns (c: Dedup.Cmd)
    requires Enabled(s, l)
    ensures Step(cfg, s, l).claims in {s.claims, Dedup.Apply(s.claims, c, cfg.ttl)}
    ensures c.Delete? ==> l == Release(c.key)
    ensures c.Wait? ==> c.seconds == (if l.Tick? then l.seconds else 0)
    ensures c.Attach? ==>
      (l.Work? && s.workers[l.x].act.InPipe?
       && var f := s.workers[l.x].act.frame; f.prog == Commit(c.key) && c.value == Decimal.Show(f.wf))
  {
    c := Dedup.Wait(0);
    match l
    case Tick(d) => c := Dedup.Wait(d);
    case Release(k) => c := Dedup.Delete(k);
    case Work(x, out, id, text) =>
      var h := Handler(s.jobs.hands[x]);
      match s.workers[x].act {
        case Dispatch => c := if h.Some? && h.value.Commit? then Dedup.SetNx(h.value.key) else c;
        case InPipe(f, _, _) => c := if f.prog.Commit? then Dedup.Attach(f.prog.key, Decimal.Show(f.wf)) else c;
        case _ =>
      }
    case _ =>
  }

  /** ... and on the queue by at most one command. */
  lemma StepJobs(cfg: Config, s: State, l: Label) returns (c: RedisQueue.Cmd)
    requires Enabled(s, l) && HandsMatch(s)
    ensures RedisQueue.Enabled(s.jobs, c)
    ensures c.Crash? ==> c.workers == {} || l.Kill?
    ensures c.PopLost? ==> l.FetchLost?
    ensures (c.Pop? ==> l.Fetch?) && (c.Enqueue? ==> l.Arrive?)
    ensures c.FailLost? ==> l.Work? && l.out != Ok && s.workers[l.x].act == Pushing
    ensures Step(cfg, s, l).jobs in {s.jobs, RedisQueue.Apply(s.jobs, c)}
  {
    c := RedisQueue.Crash({});
    match l
    case Arrive(lane, b) => c := RedisQueue.Enqueue(lane, b);
    case Kill(p) => c := RedisQueue.Crash(WorkersOf(s, p));
    case Fetch(x) => c := RedisQueue.Pop(x);
    case FetchLost(x) => c := RedisQueue.PopLost;
    case Work(x, out, id, text) =>
      var pushing := s.workers[x].act == Pushing;
      c := if !pushing then RedisQueue.Finish(x)
           else if out == Ok then RedisQueue.Fail(x, text) else RedisQueue.FailLost(x);
    case _ =>
  }

  /** A worker's step changes that worker only: it stays busy with its job, or it
      lets the job go and is idle or dead. */
  ghost predicate OnlyWorker(s: State, s': State, x: nat)
    requires x in s.workers
  {
    if x !in s'.workers then
      s'.workers == s.workers - {x} && s'.jobs.hands == s.jobs.hands - {x}
    else
      && s'.workers == s.workers[x := s.workers[x].(act := s'.workers[x].act)]
      && (if s'.workers[x].act == Idle then s'.jobs.hands == s.jobs.hands - {x} else s'.jobs == s.jobs)
  }

  lemma PipeOnlyWorker(cfg: Config, s: State, x: nat, f: Frame, win: nat, att: Option<nat>, out: Outcome, id: nat, text: string)
    requires x in s.workers && x in s.jobs.hands
    ensures OnlyWorker(s, PipeStep(cfg, s, x, f, win, att, out, id, text), x)
  {
  }

  lemma WorkOnlyWorker(cfg: Config, s: State, l: Label)
    requires Enabled(s, l) && l.Work?
    ensures OnlyWorker(s, Step(cfg, s, l), l.x)
  {
    hide PipeStep, DispatchStep, WonStep, MissedStep, PushStep;
    match s.workers[l.x].act
    case InPipe(f, win, att) => PipeOnlyWorker(cfg, s, l.x, f, win, att, l.out, l.id, l.text);
    case Dispatch => DispatchOnlyWorker(cfg, s, l.x, l.out, l.id);
    case Won(k, win) => LetGoOnlyWorker(s, l.x, k, win, l.out, l.id, l.text);
    case Missed(k) => LetGoOnlyWorker(s, l.x, k, 0, l.out, l.id, l.text);
    case Pushing => LetGoOnlyWorker(s, l.x, Key("", ""), 0, l.out, l.id, l.text);
  }

  lemma DispatchOnlyWorker(cfg: Config, s: State, x: nat, out: Outcome, id: nat)
    requires x in s.workers && x in s.jobs.hands
    ensures OnlyWorker(s, DispatchStep(cfg, s, x, out, id), x)
  {
    hide Dedup.Apply, InsertWorkflow;
  }

  lemma LetGoOnlyWorker(s: State, x: nat, k: Key, win: nat, out: Outcome, id: nat, text: string)
    requires x in s.workers && x in s.jobs.hands
    ensures OnlyWorker(s, WonStep(s, x, k, win, out, id), x)
    ensures OnlyWorker(s, MissedStep(s, x, k, out), x) && OnlyWorker(s, PushStep(s, x, out, text), x)
  {
    hide SkipAnswer, InsertWorkflow;
  }

  /** What a worker does before it has a workflow, and after its handler raised:
      rows only get inserted, and a new handler is at its entry. */
  ghost predicate Early(s: State, s': State) {
    && s'.db.(wfs := s.db.wfs) == s.db && s'.indexed == s.indexed
    && (forall w | w in s.db.wfs :: w in s'.db.wfs && s'.db.wfs[w] == s.db.wfs[w])
    && (forall w | w in s.ledgers && w in s.db.wfs :: w in s'.ledgers && s'.ledgers[w] == s.ledgers[w])
    && (forall x | x in s'.workers && s'.workers[x].act.InPipe? ::
          || (x in s.workers && s'.workers[x] == s.workers[x])
          || s'.workers[x].act.frame.pc in {Attach, Create(0)})
  }

  lemma InsertEarly(s: State, x: nat, p: Prog, w: nat, win: Option<nat>)
    requires x in s.workers && x in s.jobs.hands && w !in s.db.wfs
    ensures Early(s, Insert(s, x, p, w, win))
  {
  }

  lemma DispatchEarly(cfg: Config, s: State, x: nat, out: Outcome, id: nat)
    requires x in s.workers && x in s.jobs.hands && id !in s.db.wfs
    ensures Early(s, DispatchStep(cfg, s, x, out, id))
  {
    hide Dedup.Apply, Insert;
    var h := Handler(s.jobs.hands[x]);
    if h.Some? && h.value.Demo? && out == Ok {
      InsertEarly(s, x, h.value, id, None);
    }
  }

  lemma WonEarly(s: State, x: nat, k: Key, win: nat, out: Outcome, id: nat)
    requires x in s.workers && x in s.jobs.hands && id !in s.db.wfs
    ensures Early(s, WonStep(s, x, k, win, out, id))
  {
    if out == Ok {
      InsertEarly(s, x, Commit(k), id, Some(win));
    }
  }

  lemma LetGoEarly(s: State, x: nat, k: Key, out: Outcome, text: string)
    requires x in s.workers && x in s.jobs.hands
    ensures Early(s, MissedStep(s, x, k, out)) && Early(s, PushStep(s, x, out, text))
  {
  }

  lemma WorkEarly(cfg: Config, s: State, l: Label)
    requires Enabled(s, l) && l.Work? && !s.workers[l.x].act.InPipe?
    ensures Early(s, Step(cfg, s, l))
  {
    match s.workers[l.x].act
    case Dispatch => DispatchEarly(cfg, s, l.x, l.out, l.id);
    case Missed(k) => LetGoEarly(s, l.x, k, l.out, l.text);
    case Won(k, win) => WonEarly(s, l.x, k, win, l.out, l.id);
    case Pushing => LetGoEarly(s, l.x, Key("", ""), l.out, l.text);
  }

  lemma HandsKept(cfg: Config, s: State, l: Label)
    requires Enabled(s, l) && HandsMatch(s)
    ensures HandsMatch(Step(cfg, s, l))
  {
    if l.Work? {
      WorkOnlyWorker(cfg, s, l);
    }
  }

  lemma PartsKept(cfg: Config, s: State, l: Label)
    requires Enabled(s, l) && Parts(cfg, s)
    ensures Parts(cfg, Step(cfg, s, l))
    ensures RedisQueue.Forward(s.jobs, Step(cfg, s, l).jobs)
    ensures s.claims.touches <= Step(cfg, s, l).claims.touches
  {
    var c := StepClaims(cfg, s, l);
    Dedup.ApplyKeepsInv(s.claims, c, cfg.ttl);
    var d := StepJobs(cfg, s, l);
    QueueProofs.ApplyKeepsInv(s.jobs, d);
    HandsKept(cfg, s, l);
  }
}
