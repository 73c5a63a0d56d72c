/** Priority and waiting seen from the runtime: how long a queued job waits in any run,
    with any number of processes, workers that crash and replies that are lost. */
module JobTheorems {
  import opened Runtime
  import opened RuntimeClaims
  import ClaimTheorems
  import Queue = RedisQueue
  import QueueProofs = RedisQueueProofs

  /** BLPOPs served, replies lost included. */
  function Fetches(ls: seq<Label>): nat {
    if ls == [] then 0 else (if ls[0].Fetch? || ls[0].FetchLost? then 1 else 0) + Fetches(ls[1..])
  }

  /** Jobs that arrived in the HIGH lane. */
  function HighArrivals(ls: seq<Label>): nat {
    if ls == [] then 0
    else (if ls[0].Arrive? && ls[0].lane == Queue.HIGH then 1 else 0) + HighArrivals(ls[1..])
  }

  /** A step is at most one queue command, and the same kind of one. */
  lemma StepCommand(cfg: Config, s: State, l: Label) returns (cs: seq<Queue.Cmd>)
    requires Enabled(s, l) && HandsMatch(s)
    ensures |cs| <= 1 && (|cs| == 0 ==> Step(cfg, s, l).jobs == s.jobs)
    ensures |cs| == 1 ==> Queue.Enabled(s.jobs, cs[0]) && Step(cfg, s, l).jobs == Queue.Apply(s.jobs, cs[0])
    ensures |cs| == 1 ==> (cs[0].Pop? <==> l.Fetch?) && (cs[0].PopLost? <==> l.FetchLost?)
    ensures |cs| == 1 ==> (cs[0].Enqueue? <==> l.Arrive?) && (l.Arrive? ==> cs[0].lane == l.lane)
    ensures |cs| == 0 ==> !l.Fetch? && !l.FetchLost? && !l.Arrive?
  {
    if l.Arrive? || l.Kill? || l.Fetch? || l.FetchLost? {
      var c := StepJobs(cfg, s, l);
      cs := [if l.Arrive? then Queue.Enqueue(l.lane, l.job)
             else if l.Kill? then Queue.Crash(WorkersOf(s, l.proc))
             else if l.Fetch? then Queue.Pop(l.x) else Queue.PopLost];
    } else if Step(cfg, s, l).jobs == s.jobs {
      cs := [];
    } else {
      cs := WorkCommand(cfg, s, l);
    }
  }

  lemma WorkCommand(cfg: Config, s: State, l: Label) returns (cs: seq<Queue.Cmd>)
    requires Enabled(s, l) && HandsMatch(s) && Step(cfg, s, l).jobs != s.jobs
    requires !l.Arrive? && !l.Kill? && !l.Fetch? && !l.FetchLost?
    ensures |cs| == 1 && Queue.Enabled(s.jobs, cs[0]) && Step(cfg, s, l).jobs == Queue.Apply(s.jobs, cs[0])
    ensures !cs[0].Pop? && !cs[0].PopLost? && !cs[0].Enqueue?
  {
    hide Step, Enabled, HandsMatch;
    var c := StepJobs(cfg, s, l);
    cs := [c];
  }

  lemma OneCommand(st: Queue.Store, c: Queue.Cmd, cs: seq<Queue.Cmd>)
    requires Queue.Enabled(st, c) && QueueProofs.Possible(Queue.Apply(st, c), cs)
    ensures QueueProofs.Possible(st, [c] + cs)
    ensures QueueProofs.Run(st, [c] + cs) == QueueProofs.Run(Queue.Apply(st, c), cs)
    ensures QueueProofs.Pops([c] + cs) == (if c.Pop? || c.PopLost? then 1 else 0) + QueueProofs.Pops(cs)
    ensures QueueProofs.HighArrivals([c] + cs)
         == (if c.Enqueue? && c.lane == Queue.HIGH then 1 else 0) + QueueProofs.HighArrivals(cs)
  {
    assert ([c] + cs)[1..] == cs;
  }

  /** A run of the system is a run of the queue, with the same dequeues and arrivals. */
  lemma {:induction false} RunCommands(cfg: Config, s: State, ls: seq<Label>) returns (cs: seq<Queue.Cmd>)
    requires Possible(cfg, s, ls) && HandsMatch(s)
    ensures QueueProofs.Possible(s.jobs, cs) && QueueProofs.Run(s.jobs, cs) == Run(cfg, s, ls).jobs
    ensures QueueProofs.Pops(cs) == Fetches(ls) && QueueProofs.HighArrivals(cs) == HighArrivals(ls)
    ensures HandsMatch(Run(cfg, s, ls))
    decreases |ls|
  {
    cs := [];
    if ls != [] {
      hide Step, HandsMatch, Enabled, Queue.Apply;
      var first := StepCommand(cfg, s, ls[0]);
      HandsKept(cfg, s, ls[0]);
      cs := RunCommands(cfg, Step(cfg, s, ls[0]), ls[1..]);
      if first != [] {
        OneCommand(s.jobs, first[0], cs);
        cs := [first[0]] + cs;
      }
    }
  }

  /** In any run, a NORMAL job leaves its lane only to a dequeue that finds HIGH empty,
      and that dequeue comes after exactly k + h + a others: k NORMAL jobs ahead of it
      and h HIGH jobs there when we start to count, a HIGH arrivals since. */
  lemma NormalWaits(cfg: Config, before: seq<Label>, after: seq<Label>, l: Label, k: nat)
    requires Possible(cfg, INIT, before)
    requires var s := Run(cfg, INIT, before);
      && Possible(cfg, s, after) && k < |s.jobs.lanes.normal|
      && var s' := Run(cfg, s, after);
        && Enabled(s', l) && Queue.Holds(s'.jobs.lanes.normal, s.jobs.lanes.normal[k].id)
        && !Queue.Holds(Step(cfg, s', l).jobs.lanes.normal, s.jobs.lanes.normal[k].id)
    ensures var s := Run(cfg, INIT, before);
      var s' := Run(cfg, s, after);
      && (l.Fetch? || l.FetchLost?)
      && s'.jobs.lanes.high == [] && s'.jobs.lanes.normal != []
      && s'.jobs.lanes.normal[0].id == s.jobs.lanes.normal[k].id
      && Fetches(after) == k + |s.jobs.lanes.high| + HighArrivals(after)
  {
    hide Step, HandsMatch, Queue.Apply, Queue.Inv, Enabled;
    JobsAreReachable(cfg, before);
    var s := Run(cfg, INIT, before);
    var cs := RunCommands(cfg, s, after);
    var last := StepCommand(cfg, Run(cfg, s, after), l);
    QueueProofs.NormalWait(s.jobs, cs, last[0], k);
  }

  /** In any run, a HIGH job at index k is taken by the dequeue after exactly k others. */
  lemma HighWaits(cfg: Config, before: seq<Label>, after: seq<Label>, l: Label, k: nat)
    requires Possible(cfg, INIT, before)
    requires var s := Run(cfg, INIT, before);
      && Possible(cfg, s, after) && k < |s.jobs.lanes.high|
      && var s' := Run(cfg, s, after);
        && Enabled(s', l) && Queue.Holds(s'.jobs.lanes.high, s.jobs.lanes.high[k].id)
        && !Queue.Holds(Step(cfg, s', l).jobs.lanes.high, s.jobs.lanes.high[k].id)
    ensures (l.Fetch? || l.FetchLost?) && Fetches(after) == k
  {
    hide Step, HandsMatch, Queue.Apply, Queue.Inv, Enabled;
    JobsAreReachable(cfg, before);
    var s := Run(cfg, INIT, before);
    var cs := RunCommands(cfg, s, after);
    var last := StepCommand(cfg, Run(cfg, s, after), l);
    QueueProofs.HighWait(s.jobs, cs, last[0], k);
  }

  lemma JobsAreReachable(cfg: Config, ls: seq<Label>)
    requires Possible(cfg, INIT, ls)
    ensures Queue.Inv(Run(cfg, INIT, ls).jobs) && HandsMatch(Run(cfg, INIT, ls))
  {
    ClaimTheorems.ReachableIsGood(cfg, ls);
  }
}
