/** What a job asks for and what its handler runs: over every run, from the job that
    arrived to the row it makes; and what a worker does from taking it to that row. */
module Provenance {
  import opened Common
  import opened Programs
  import opened Tables
  import opened Runtime
  import opened RuntimeClaims
  import opened RuntimeOwners
  import opened Origins
  import Dedup
  import RedisQueue
  import RuntimeAnswers
  import ClaimTheorems

  /** The jobs that arrived, by their ids, on top of `known`. */
  function Arrivals(ls: seq<Label>, known: map<nat, RedisQueue.Blob>): map<nat, RedisQueue.Blob> {
    if ls == [] then known else Arrivals(ls[1..], Noted(ls[0], known))
  }

  function Noted(l: Label, known: map<nat, RedisQueue.Blob>): map<nat, RedisQueue.Blob> {
    if l.Arrive? then known[l.job.id := l.job] else known
  }

  predicate IsKnown(b: RedisQueue.Blob, known: map<nat, RedisQueue.Blob>) {
    b.id in known && known[b.id] == b
  }

  /** Jobs wait and are handled as they arrived. */
  ghost predicate JobsKnown(st: RedisQueue.Store, known: map<nat, RedisQueue.Blob>) {
    && (forall b | b in st.lanes.high :: IsKnown(b, known))
    && (forall b | b in st.lanes.normal :: IsKnown(b, known))
    && (forall x | x in st.hands :: IsKnown(st.hands[x], known))
    && known.Keys <= st.where.Keys
  }

  /** A worker that claimed, or tried to, claimed the pair of the job in its hands. */
  ghost predicate ClaimsKnown(s: State) {
    forall x | x in s.workers && (s.workers[x].act.Missed? || s.workers[x].act.Won?) ::
      x in s.jobs.hands && Asks(s.jobs.hands[x], Commit(s.workers[x].act.key))
  }

  /** A row's handler runs what the job behind it asks for. */
  ghost predicate RowsKnown(s: State, known: map<nat, RedisQueue.Blob>) {
    forall w | w in s.ledgers ::
      s.ledgers[w].job in known && Asks(known[s.ledgers[w].job], s.ledgers[w].led.prog)
  }

  ghost predicate Known(s: State, known: map<nat, RedisQueue.Blob>) {
    JobsKnown(s.jobs, known) && ClaimsKnown(s) && RowsKnown(s, known)
  }

  // --------------------------------------------------------------------------
  // One step
  // --------------------------------------------------------------------------

  lemma CommandKnown(st: RedisQueue.Store, c: RedisQueue.Cmd, known: map<nat, RedisQueue.Blob>)
    requires RedisQueue.Enabled(st, c) && JobsKnown(st, known)
    ensures JobsKnown(RedisQueue.Apply(st, c), if c.Enqueue? then known[c.job.id := c.job] else known)
  {
  }

  lemma JobsStayKnown(cfg: Config, s: State, l: Label, known: map<nat, RedisQueue.Blob>)
    requires Enabled(s, l) && HandsMatch(s) && JobsKnown(s.jobs, known)
    ensures JobsKnown(Step(cfg, s, l).jobs, Noted(l, known))
  {
    if l.Arrive? {
      CommandKnown(s.jobs, RedisQueue.Enqueue(l.lane, l.job), known);
    } else {
      hide Step, Enabled;
      var c := StepJobs(cfg, s, l);
      CommandKnown(s.jobs, c, known);
    }
  }

  /** A worker about to insert a row, or to answer, was so before with the same job. */
  ghost predicate ClaimsStay(s: State, s': State, x: nat) {
    forall y | y != x && y in s'.workers && (s'.workers[y].act.Missed? || s'.workers[y].act.Won?) ::
      && y in s.workers && s'.workers[y].act == s.workers[y].act
      && (y in s.jobs.hands ==> y in s'.jobs.hands && s'.jobs.hands[y] == s.jobs.hands[y])
  }

  lemma OutsideClaims(cfg: Config, s: State, l: Label, x: nat)
    requires Enabled(s, l) && !l.Work? && HandsMatch(s)
    ensures ClaimsStay(s, Step(cfg, s, l), x)
  {
  }

  lemma WorkClaims(cfg: Config, s: State, l: Label)
    requires Enabled(s, l) && l.Work?
    ensures ClaimsStay(s, Step(cfg, s, l), l.x)
  {
    hide Step, Enabled;
    WorkOnlyWorker(cfg, s, l);
  }

  lemma DispatchClaims(cfg: Config, s: State, x: nat, out: Outcome, id: nat)
    requires x in s.workers && x in s.jobs.hands
    ensures var s' := DispatchStep(cfg, s, x, out, id);
      && s'.jobs == s.jobs && x in s'.workers
      && (s'.workers[x].act.Missed? || s'.workers[x].act.Won? ==> Asks(s.jobs.hands[x], Commit(s'.workers[x].act.key)))
  {
    hide Dedup.Apply, InsertWorkflow;
  }

  lemma LaterClaims(cfg: Config, s: State, l: Label)
    requires Enabled(s, l) && l.Work? && s.workers[l.x].act != Dispatch
    ensures var s' := Step(cfg, s, l);
      l.x in s'.workers ==> !s'.workers[l.x].act.Missed? && !s'.workers[l.x].act.Won?
  {
    hide Dedup.Apply, InsertWorkflow, SkipAnswer, StepFrame, StepDb, PipeClaims;
  }

  lemma ClaimsStayKnown(cfg: Config, s: State, l: Label)
    requires Enabled(s, l) && HandsMatch(s) && ClaimsKnown(s)
    ensures ClaimsKnown(Step(cfg, s, l))
  {
    var s' := Step(cfg, s, l);
    hide Enabled, DispatchStep, PipeStep, WonStep, MissedStep, PushStep;
    if !l.Work? {
      OutsideClaims(cfg, s, l, 0);
      OutsideClaims(cfg, s, l, 1);
    } else {
      WorkClaims(cfg, s, l);
      if s.workers[l.x].act == Dispatch {
        DispatchClaims(cfg, s, l.x, l.out, l.id);
      } else {
        LaterClaims(cfg, s, l);
      }
    }
    hide Step, Asks;
  }

  /** Old rows keep the job and the program they came with. */
  ghost predicate EntriesStay(s: State, s': State) {
    forall w | w in s.ledgers ::
      && w in s'.ledgers
      && s'.ledgers[w].job == s.ledgers[w].job && s'.ledgers[w].led.prog == s.ledgers[w].led.prog
  }

  lemma OutsideEntries(cfg: Config, s: State, l: Label)
    requires Enabled(s, l) && !l.Work?
    ensures EntriesStay(s, Step(cfg, s, l)) && Step(cfg, s, l).ledgers.Keys == s.ledgers.Keys
  {
    hide RedisQueue.Apply, Reap;
  }

  lemma WorkEntries(cfg: Config, s: State, l: Label)
    requires Enabled(s, l) && l.Work? && Owned(s)
    ensures EntriesStay(s, Step(cfg, s, l))
  {
    hide PipeStep, DispatchStep, WonStep, MissedStep, PushStep, Unshared, Home;
    if s.workers[l.x].act.InPipe? {
      var InPipe(f, win, att) := s.workers[l.x].act;
      assert WorkerOk(s, l.x);
      PipeEntries(cfg, s, l.x, f, win, att, l.out, l.id, l.text);
    } else {
      WorkEarly(cfg, s, l);
    }
  }

  lemma RowStaysKnown(cfg: Config, s: State, l: Label, known: map<nat, RedisQueue.Blob>, w: nat)
    requires Enabled(s, l) && Owners(cfg, s) && Known(s, known) && w in Step(cfg, s, l).ledgers && w !in s.ledgers
    ensures var e := Step(cfg, s, l).ledgers[w]; e.job in known && Asks(known[e.job], e.led.prog)
  {
    OwnersKept(cfg, s, l);
    hide Step, Enabled, Asks, EntryOk, WorkerOk, Unshared, Parts;
    assert Owned(Step(cfg, s, l));
    var p := InsertStep(cfg, s, l, w);
    assert IsKnown(s.jobs.hands[l.x], known);
  }

  lemma RowsStayKnown(cfg: Config, s: State, l: Label, known: map<nat, RedisQueue.Blob>)
    requires Enabled(s, l) && Owners(cfg, s) && Known(s, known)
    ensures RowsKnown(Step(cfg, s, l), Noted(l, known))
  {
    var s' := Step(cfg, s, l);
    if l.Work? {
      WorkEntries(cfg, s, l);
      forall w | w in s'.ledgers && w !in s.ledgers
        ensures s'.ledgers[w].job in known && Asks(known[s'.ledgers[w].job], s'.ledgers[w].led.prog)
      {
        RowStaysKnown(cfg, s, l, known, w);
      }
    } else {
      OutsideEntries(cfg, s, l);
      ArrivalIsNew(s, l, known);
    }
    hide Step, Enabled, Asks, Owners;
  }

  /** An arrival takes no id that a job had. */
  lemma ArrivalIsNew(s: State, l: Label, known: map<nat, RedisQueue.Blob>)
    requires Enabled(s, l) && known.Keys <= s.jobs.where.Keys
    ensures forall id | id in known :: id in Noted(l, known) && Noted(l, known)[id] == known[id]
  {
  }

  lemma KnownKept(cfg: Config, s: State, l: Label, known: map<nat, RedisQueue.Blob>)
    requires Enabled(s, l) && Owners(cfg, s) && Known(s, known)
    ensures Known(Step(cfg, s, l), Noted(l, known))
  {
    JobsStayKnown(cfg, s, l, known);
    ClaimsStayKnown(cfg, s, l);
    RowsStayKnown(cfg, s, l, known);
    hide Step, Enabled, Owned, JobsKnown, ClaimsKnown, RowsKnown;
  }

  // --------------------------------------------------------------------------
  // Runs
  // --------------------------------------------------------------------------

  lemma {:induction false} RunIsKnown(cfg: Config, s: State, ls: seq<Label>, known: map<nat, RedisQueue.Blob>)
    requires Possible(cfg, s, ls) && Owners(cfg, s) && Known(s, known)
    ensures Known(Run(cfg, s, ls), Arrivals(ls, known))
    decreases |ls|
  {
    hide Step, Enabled, Owners, Known, Noted;
    if ls != [] {
      KnownKept(cfg, s, ls[0], known);
      OwnersKept(cfg, s, ls[0]);
      RunIsKnown(cfg, Step(cfg, s, ls[0]), ls[1..], Noted(ls[0], known));
    }
  }

  /** Job `b` arrived at step `i` of the run. */
  predicate ArrivedAt(ls: seq<Label>, i: nat, b: RedisQueue.Blob) {
    i < |ls| && ls[i].Arrive? && ls[i].job == b
  }

  lemma {:induction false} ArrivalsArrived(ls: seq<Label>, known: map<nat, RedisQueue.Blob>, id: nat) returns (i: nat)
    requires id in Arrivals(ls, known)
    ensures ArrivedAt(ls, i, Arrivals(ls, known)[id]) || (id in known && known[id] == Arrivals(ls, known)[id])
    ensures (forall k | k in known :: known[k].id == k) ==> Arrivals(ls, known)[id].id == id
  {
    i := 0;
    if ls != [] {
      var j := ArrivalsArrived(ls[1..], Noted(ls[0], known), id);
      i := if ArrivedAt(ls[1..], j, Arrivals(ls, known)[id]) then j + 1 else 0;
    }
  }

  /** What is on record stays there, and so does a job that arrives. */
  lemma OnRecord(cfg: Config, s: State, l: Label)
    requires Enabled(s, l) && Owners(cfg, s)
    ensures s.jobs.where.Keys <= Step(cfg, s, l).jobs.where.Keys
    ensures Owners(cfg, Step(cfg, s, l))
    ensures l.Arrive? ==> l.job.id !in s.jobs.where && l.job.id in Step(cfg, s, l).jobs.where
  {
    PartsKept(cfg, s, l);
    OwnersKept(cfg, s, l);
    if l.Arrive? {
      ArrivalIsNoted(cfg, s, l);
    }
    hide Step, Owned, Parts;
  }

  lemma {:induction false} ArrivesOnce(cfg: Config, s: State, ls: seq<Label>, id: nat)
    requires Possible(cfg, s, ls) && Owners(cfg, s) && id in s.jobs.where
    ensures forall i | 0 <= i < |ls| && ls[i].Arrive? :: ls[i].job.id != id
    decreases |ls|
  {
    hide Step, Owners, Enabled;
    if ls != [] {
      OnRecord(cfg, s, ls[0]);
      ArrivesOnce(cfg, Step(cfg, s, ls[0]), ls[1..], id);
    }
  }

  lemma {:induction false} OneArrival(cfg: Config, s: State, ls: seq<Label>, i: nat, j: nat)
    requires Possible(cfg, s, ls) && Owners(cfg, s)
    requires i < |ls| && j < |ls| && ls[i].Arrive? && ls[j].Arrive? && ls[i].job.id == ls[j].job.id
    ensures i == j
    decreases |ls|
  {
    hide Step, Owners, Enabled;
    OnRecord(cfg, s, ls[0]);
    var rest := ls[1..];
    if i > 0 && j > 0 {
      OneArrival(cfg, Step(cfg, s, ls[0]), rest, i - 1, j - 1);
    } else if i > 0 || j > 0 {
      ArrivesOnce(cfg, Step(cfg, s, ls[0]), rest, ls[0].job.id);
      assert false;
    }
  }

  lemma ArrivalIsNoted(cfg: Config, s: State, l: Label)
    requires Enabled(s, l) && l.Arrive?
    ensures l.job.id !in s.jobs.where && l.job.id in Step(cfg, s, l).jobs.where
  {
  }

  /** The job behind a row, as it arrived. */
  ghost predicate MadeBy(s: State, w: nat, b: RedisQueue.Blob) {
    w in s.ledgers && s.ledgers[w].job == b.id
  }

  /** In every run each workflow row comes from one job that arrived, and its log says
      that it is for what that job asked for: the pair in a commit job's payload, or
      the scenario and skip_render of a demo job's. */
  lemma RowIsAsked(cfg: Config, ls: seq<Label>, w: nat) returns (i: nat, p: Prog)
    requires Possible(cfg, INIT, ls) && w in Run(cfg, INIT, ls).db.wfs
    ensures var s := Run(cfg, INIT, ls);
      && i < |ls| && ls[i].Arrive? && MadeBy(s, w, ls[i].job)
      && s.db.wfs[w].log != [] && s.db.wfs[w].log[0] == Started(p)
      && (match p
          case Commit(k) =>
            && ls[i].job.kind == "commit_pipeline"
            && ls[i].job.payload.repo == Some(k.repo) && ls[i].job.payload.sha == Some(k.sha)
          case Demo(scenario, skip) =>
            && ls[i].job.kind == "demo_request" && scenario in {"001", "002", "003"}
            && ls[i].job.payload.scenario == scenario && ls[i].job.payload.skipRender == skip)
    ensures forall j | 0 <= j < |ls| && ls[j].Arrive? && ls[j].job.id == ls[i].job.id :: j == i
  {
    hide Run, Possible, Enabled, Step, Owners;
    KnownAtFirst(cfg);
    RunIsKnown(cfg, INIT, ls, map[]);
    var s := Run(cfg, INIT, ls);
    RowHead(cfg, ls, w);
    p := s.ledgers[w].led.prog;
    var known := Arrivals(ls, map[]);
    i := ArrivalsArrived(ls, map[], s.ledgers[w].job);
    forall j | 0 <= j < |ls| && ls[j].Arrive? && ls[j].job.id == ls[i].job.id ensures j == i {
      OneArrival(cfg, INIT, ls, j, i);
    }
  }

  lemma RowHead(cfg: Config, ls: seq<Label>, w: nat)
    requires Possible(cfg, INIT, ls) && w in Run(cfg, INIT, ls).db.wfs
    ensures var s := Run(cfg, INIT, ls);
      w in s.ledgers && s.db.wfs[w].log != [] && s.db.wfs[w].log[0] == Started(s.ledgers[w].led.prog)
  {
    hide Run, Possible, Owners, RuntimeAnswers.Sound;
    ClaimTheorems.ReachableIsGood(cfg, ls);
  }

  lemma KnownAtFirst(cfg: Config)
    ensures Owners(cfg, INIT) && Known(INIT, map[])
  {
    InitOwners(cfg);
  }
}
