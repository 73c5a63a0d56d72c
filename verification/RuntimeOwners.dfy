/** Who owns what: each workflow row comes from one job and, for a commit, from one
    win of its claim; each handler works on the row it inserted. */
module RuntimeOwners {
  import opened Common
  import opened Programs
  import opened Tables
  import opened Runtime
  import opened RuntimeClaims
  import Dedup
  import RedisQueue
  import TablesProofs

  predicate IsWin(touches: seq<Dedup.Touch>, k: Key, i: nat) {
    i < |touches| && touches[i].win && touches[i].key == k
  }

  /** The job behind a workflow row is with the worker running it, or is done. */
  predicate Home(s: State, w: nat, job: nat) {
    && job in s.jobs.where
    && (RedisQueue.Terminal(s.jobs.where[job])
        || (s.jobs.where[job].InHand?
            && var x := s.jobs.where[job].worker;
              x in s.workers
              && (s.workers[x].act.Pushing? || (s.workers[x].act.InPipe? && s.workers[x].act.frame.wf == w))))
  }

  predicate EntryOk(s: State, w: nat)
    requires w in s.ledgers
  {
    var e := s.ledgers[w];
    && e.led.wf == w && w in s.db.wfs
    && (e.led.prog.Commit? ==> e.win.Some? && IsWin(s.claims.touches, e.led.prog.key, e.win.value))
    && (e.led.prog.Demo? ==> e.win.None?)
    && Home(s, w, e.job)
  }

  predicate PipeOk(s: State, x: nat, f: Frame, win: nat, att: Option<nat>) {
    && !Ended(f.pc)
    && f.wf in s.ledgers && x in s.jobs.hands
    && s.ledgers[f.wf].job == s.jobs.hands[x].id
    && s.ledgers[f.wf].led.prog == f.prog
    && (f.prog.Commit? ==>
          && s.ledgers[f.wf].win == Some(win)
          && (f.pc == Attach <==> att.None?)
          && (att.Some? ==>
                && win < att.value < |s.claims.touches|
                && s.claims.touches[att.value].key == f.prog.key))
  }

  predicate WonOk(s: State, k: Key, win: nat) {
    IsWin(s.claims.touches, k, win) && forall w | w in s.ledgers :: s.ledgers[w].win != Some(win)
  }

  predicate WorkerOk(s: State, x: nat)
    requires x in s.workers
  {
    match s.workers[x].act
    case Won(k, win) => WonOk(s, k, win)
    case InPipe(f, win, att) => PipeOk(s, x, f, win, att)
    case _ => true
  }

  ghost predicate Unshared(s: State) {
    && (forall v, w | v in s.ledgers && w in s.ledgers && v != w ::
          && s.ledgers[v].job != s.ledgers[w].job
          && (s.ledgers[v].win.Some? ==> s.ledgers[v].win != s.ledgers[w].win))
    && (forall x, y | x in s.workers && y in s.workers && x != y && s.workers[x].act.Won? && s.workers[y].act.Won? ::
          s.workers[x].act.win != s.workers[y].act.win)
  }

  ghost predicate Owned(s: State) {
    && s.ledgers.Keys == s.db.wfs.Keys
    && (forall w | w in s.ledgers :: EntryOk(s, w))
    && (forall x | x in s.workers :: WorkerOk(s, x))
    && Unshared(s)
  }

  ghost predicate Owners(cfg: Config, s: State) {
    Parts(cfg, s) && Owned(s)
  }

  lemma InitOwners(cfg: Config)
    ensures Owners(cfg, INIT)
  {
  }

  // --------------------------------------------------------------------------
  // Steps that no worker takes
  // --------------------------------------------------------------------------

  /** Ledger entries keep what they were made from. */
  ghost predicate SameEntries(s: State, s': State) {
    && s.ledgers.Keys == s'.ledgers.Keys && s.db.wfs.Keys == s'.db.wfs.Keys
    && (forall w | w in s.ledgers ::
          && s'.ledgers[w].led.wf == s.ledgers[w].led.wf && s'.ledgers[w].led.prog == s.ledgers[w].led.prog
          && s'.ledgers[w].win == s.ledgers[w].win && s'.ledgers[w].job == s.ledgers[w].job)
  }

  /** Workers keep what they do, come fresh, or are gone together with their job. */
  ghost predicate SameWork(s: State, s': State) {
    && (forall x | x in s'.workers ::
          || s'.workers[x].act in {Idle, Dispatch}
          || (x in s.workers && s'.workers[x].act == s.workers[x].act
              && x in s.jobs.hands && x in s'.jobs.hands && s'.jobs.hands[x] == s.jobs.hands[x]))
    && (forall id | id in s.jobs.where ::
          && id in s'.jobs.where
          && (RedisQueue.Terminal(s.jobs.where[id]) ==> RedisQueue.Terminal(s'.jobs.where[id]))
          && (s.jobs.where[id].InHand? ==>
                || RedisQueue.Terminal(s'.jobs.where[id])
                || (s'.jobs.where[id] == s.jobs.where[id]
                    && var x := s.jobs.where[id].worker;
                      x in s.workers ==> x in s'.workers && s'.workers[x].act == s.workers[x].act)))
  }

  ghost predicate Quiet(s: State, s': State) {
    SameEntries(s, s') && SameWork(s, s') && s.claims.touches <= s'.claims.touches
  }

  lemma QuietEntry(s: State, s': State, w: nat)
    requires w in s.ledgers && EntryOk(s, w) && Quiet(s, s')
    ensures EntryOk(s', w)
  {
  }

  lemma QuietWorker(s: State, s': State, x: nat)
    requires x in s'.workers && (x in s.workers ==> WorkerOk(s, x)) && Quiet(s, s')
    ensures WorkerOk(s', x)
  {
  }

  lemma QuietUnshared(s: State, s': State)
    requires Unshared(s) && Quiet(s, s')
    ensures Unshared(s')
  {
  }

  lemma QuietKeeps(s: State, s': State)
    requires Owned(s) && Quiet(s, s')
    ensures Owned(s')
  {
    forall w | w in s'.ledgers ensures EntryOk(s', w) { QuietEntry(s, s', w); }
    forall x | x in s'.workers ensures WorkerOk(s', x) { QuietWorker(s, s', x); }
    QuietUnshared(s, s');
  }

  lemma HeadIsQueued(st: RedisQueue.Store)
    requires RedisQueue.Inv(st) && !RedisQueue.Empty(st.lanes)
    ensures var id := RedisQueue.Head(st.lanes).id;
      id in st.where && st.where[id] in {RedisQueue.InHigh, RedisQueue.InNormal}
  {
  }

  /** Only busy workers are recorded as holding a job. */
  lemma HolderIsBusy(s: State, id: nat)
    requires HandsMatch(s) && RedisQueue.Inv(s.jobs) && id in s.jobs.where && s.jobs.where[id].InHand?
    ensures var x := s.jobs.where[id].worker; x in s.workers && s.workers[x].act != Idle
  {
  }

  /** Taking the head of the lanes moves one queued job and nothing else. */
  lemma FetchMoves(cfg: Config, s: State, l: Label)
    requires Enabled(s, l) && Parts(cfg, s) && (l.Fetch? || l.FetchLost?)
    ensures var st := Step(cfg, s, l).jobs;
      && (forall id | id in s.jobs.where && !s.jobs.where[id].InHigh? && !s.jobs.where[id].InNormal? ::
            id in st.where && st.where[id] == s.jobs.where[id])
      && (forall id | id in s.jobs.where :: id in st.where)
      && (forall y | y in s.jobs.hands :: y in st.hands && st.hands[y] == s.jobs.hands[y])
  {
    HeadIsQueued(s.jobs);
  }

  lemma FetchIsQuiet(cfg: Config, s: State, l: Label)
    requires Enabled(s, l) && Parts(cfg, s) && (l.Fetch? || l.FetchLost?)
    ensures Quiet(s, Step(cfg, s, l))
  {
    hide Step, Enabled, RedisQueue.Inv, Dedup.Inv, Quiet;
    FetchMoves(cfg, s, l);
    forall id | id in s.jobs.where && s.jobs.where[id].InHand?
      ensures var x := s.jobs.where[id].worker; x in s.workers && s.workers[x].act != Idle
    {
      HolderIsBusy(s, id);
    }
    FetchKeepsRest(cfg, s, l);
    FetchedQuietly(s, Step(cfg, s, l));
  }

  lemma FetchedQuietly(s: State, s': State)
    requires s'.db == s.db && s'.ledgers == s.ledgers && s'.claims == s.claims && s'.workers.Keys == s.workers.Keys
    requires forall y | y in s.workers ::
      (s'.workers[y].act == s.workers[y].act || (s.workers[y].act == Idle && s'.workers[y].act == Dispatch))
    requires forall id | id in s.jobs.where && !s.jobs.where[id].InHigh? && !s.jobs.where[id].InNormal? ::
      id in s'.jobs.where && s'.jobs.where[id] == s.jobs.where[id]
    requires forall id | id in s.jobs.where :: id in s'.jobs.where
    requires forall y | y in s.jobs.hands :: y in s'.jobs.hands && s'.jobs.hands[y] == s.jobs.hands[y]
    requires forall y | y in s.workers && s.workers[y].act != Idle :: y in s.jobs.hands
    requires forall id | id in s.jobs.where && s.jobs.where[id].InHand? ::
      var x := s.jobs.where[id].worker; x in s.workers && s.workers[x].act != Idle
    ensures Quiet(s, s')
  {
  }

  /** A fetch makes one idle worker a dispatching one, if any. */
  lemma FetchKeepsRest(cfg: Config, s: State, l: Label)
    requires Enabled(s, l) && (l.Fetch? || l.FetchLost?)
    ensures var s' := Step(cfg, s, l);
      && s'.db == s.db && s'.ledgers == s.ledgers && s'.claims == s.claims
      && s'.workers.Keys == s.workers.Keys
      && forall y | y in s.workers ::
           (s'.workers[y].act == s.workers[y].act || (s.workers[y].act == Idle && s'.workers[y].act == Dispatch))
  {
    hide RedisQueue.Apply, RedisQueue.Enabled;
  }


  lemma ArriveIsQuiet(cfg: Config, s: State, l: Label)
    requires Enabled(s, l) && Parts(cfg, s) && l.Arrive?
    ensures Quiet(s, Step(cfg, s, l))
  {
    hide RedisQueue.Inv, Dedup.Inv;
  }

  lemma KillIsQuiet(cfg: Config, s: State, l: Label)
    requires Enabled(s, l) && Parts(cfg, s) && l.Kill?
    ensures Quiet(s, Step(cfg, s, l))
  {
    hide RedisQueue.Inv, Dedup.Inv;
  }

  lemma StartIsQuiet(cfg: Config, s: State, proc: nat, ids: set<nat>)
    requires ids !! s.workers.Keys
    requires forall x | x in s.workers :: s.workers[x].act != Idle <==> x in s.jobs.hands
    ensures Quiet(s, StartStep(cfg, s, proc, ids))
  {
  }

  lemma RestIsQuiet(cfg: Config, s: State, l: Label)
    requires Enabled(s, l) && Parts(cfg, s)
    requires l.Tick? || l.Release? || l.Decide? || l.Start? || l.Stop? || l.Exit?
    ensures Quiet(s, Step(cfg, s, l))
  {
    hide RedisQueue.Inv, Dedup.Inv, StartStep;
    forall id | id in s.jobs.where && s.jobs.where[id].InHand?
      ensures var x := s.jobs.where[id].worker; x in s.workers && s.workers[x].act != Idle
    {
      HolderIsBusy(s, id);
    }
    if l.Start? {
      StartIsQuiet(cfg, s, l.proc, l.ids);
    }
  }

  lemma OutsideKept(cfg: Config, s: State, l: Label)
    requires Enabled(s, l) && Owners(cfg, s) && !l.Work?
    ensures Owners(cfg, Step(cfg, s, l))
  {
    PartsKept(cfg, s, l);
    if l.Fetch? || l.FetchLost? {
      FetchIsQuiet(cfg, s, l);
    } else if l.Arrive? {
      ArriveIsQuiet(cfg, s, l);
    } else if l.Kill? {
      KillIsQuiet(cfg, s, l);
    } else {
      RestIsQuiet(cfg, s, l);
    }
    QuietKeeps(s, Step(cfg, s, l));
  }

  // --------------------------------------------------------------------------
  // A worker's own step
  // --------------------------------------------------------------------------

  /** Everything but worker `x` and its job is as before. */
  ghost predicate Beside(s: State, s': State, x: nat) {
    && s.claims.touches <= s'.claims.touches
    && (forall y | y != x :: y in s.workers <==> y in s'.workers)
    && (forall y | y != x && y in s.workers :: s'.workers[y] == s.workers[y])
    && (forall y | y != x && y in s.jobs.hands :: y in s'.jobs.hands && s'.jobs.hands[y] == s.jobs.hands[y])
    && (forall id | id in s.jobs.where :: id in s'.jobs.where
          && (s'.jobs.where[id] == s.jobs.where[id]
              || (s.jobs.where[id] == RedisQueue.InHand(x) && RedisQueue.Terminal(s'.jobs.where[id]))))
  }

  /** Worker `x` still runs the workflows whose job it holds. */
  ghost predicate HomeKept(s: State, s': State, x: nat) {
    forall w | w in s.ledgers && s.ledgers[w].job in s'.jobs.where
               && s'.jobs.where[s.ledgers[w].job] == RedisQueue.InHand(x) ::
      && x in s'.workers
      && (s'.workers[x].act.Pushing? || (s'.workers[x].act.InPipe? && s'.workers[x].act.frame.wf == w))
  }

  lemma BesideEntry(s: State, s': State, x: nat, w: nat)
    requires w in s.ledgers && EntryOk(s, w) && Beside(s, s', x) && HomeKept(s, s', x)
    requires w in s'.ledgers && w in s'.db.wfs
    requires s'.ledgers[w].led.wf == s.ledgers[w].led.wf && s'.ledgers[w].led.prog == s.ledgers[w].led.prog
    requires s'.ledgers[w].win == s.ledgers[w].win && s'.ledgers[w].job == s.ledgers[w].job
    ensures EntryOk(s', w)
  {
  }

  lemma BesideWorker(s: State, s': State, x: nat, y: nat)
    requires y != x && y in s.workers && WorkerOk(s, y) && Beside(s, s', x) && SameEntries(s, s')
    ensures y in s'.workers && WorkerOk(s', y)
  {
  }

  /** A step of `x` that inserts no workflow keeps the ownership invariant when the
      new activity of `x` is in order. */
  lemma BesideKeeps(s: State, s': State, x: nat)
    requires Owned(s) && Beside(s, s', x) && SameEntries(s, s') && HomeKept(s, s', x)
    requires x in s'.workers ==> WorkerOk(s', x)
    requires x in s'.workers && s'.workers[x].act.Won? ==> s'.workers[x].act.win == |s.claims.touches|
    ensures Owned(s')
  {
    forall w | w in s'.ledgers ensures EntryOk(s', w) { BesideEntry(s, s', x, w); }
    forall y | y in s'.workers ensures WorkerOk(s', y) {
      if y != x {
        BesideWorker(s, s', x, y);
      }
    }
    BesideUnshared(s, s', x);
  }

  lemma BesideUnshared(s: State, s': State, x: nat)
    requires Unshared(s) && Beside(s, s', x) && SameEntries(s, s')
    requires forall y | y in s.workers :: WorkerOk(s, y)
    requires x in s'.workers && s'.workers[x].act.Won? ==> s'.workers[x].act.win == |s.claims.touches|
    ensures Unshared(s')
  {
    forall y | y in s.workers && y != x && s.workers[y].act.Won?
      ensures s.workers[y].act.win < |s.claims.touches|
    {
      assert WorkerOk(s, y);
    }
  }

  /** The job in the hands of `x` is on record as being there. */
  predicate Recorded(s: State, x: nat) {
    && x in s.jobs.hands && s.jobs.hands[x].id in s.jobs.where
    && s.jobs.where[s.jobs.hands[x].id] == RedisQueue.InHand(x)
  }

  /** A worker that has not inserted a row yet runs no workflow. */
  lemma NoWorkflowYet(s: State, x: nat, w: nat)
    requires Owned(s) && x in s.workers && w in s.ledgers && Recorded(s, x)
    requires !s.workers[x].act.Pushing? && !s.workers[x].act.InPipe?
    ensures s.ledgers[w].job in s.jobs.where && s.jobs.where[s.ledgers[w].job] != RedisQueue.InHand(x)
    ensures s.ledgers[w].job != s.jobs.hands[x].id
  {
    assert EntryOk(s, w);
  }

  lemma NoWorkflows(s: State, x: nat)
    requires Owned(s) && x in s.workers && Recorded(s, x)
    requires !s.workers[x].act.Pushing? && !s.workers[x].act.InPipe?
    ensures forall w | w in s.ledgers ::
      s.ledgers[w].job in s.jobs.where && s.jobs.where[s.ledgers[w].job] != RedisQueue.InHand(x)
      && s.ledgers[w].job != s.jobs.hands[x].id
  {
    forall w | w in s.ledgers
      ensures s.ledgers[w].job in s.jobs.where && s.jobs.where[s.ledgers[w].job] != RedisQueue.InHand(x)
      ensures s.ledgers[w].job != s.jobs.hands[x].id
    {
      NoWorkflowYet(s, x, w);
    }
  }

  lemma OldWins(s: State)
    requires Owned(s)
    ensures forall w | w in s.ledgers :: s.ledgers[w].win.Some? ==> s.ledgers[w].win.value < |s.claims.touches|
  {
    forall w | w in s.ledgers ensures s.ledgers[w].win.Some? ==> s.ledgers[w].win.value < |s.claims.touches| {
      assert EntryOk(s, w);
    }
  }

  lemma HandIsRecorded(st: RedisQueue.Store, x: nat)
    requires RedisQueue.Inv(st) && x in st.hands
    ensures st.hands[x].id in st.where && st.where[st.hands[x].id] == RedisQueue.InHand(x)
  {
  }

  /** Entering a handler touches one worker and at most one key. */
  lemma DispatchBeside(cfg: Config, s: State, x: nat, out: Outcome, id: nat)
    requires x in s.workers && x in s.jobs.hands
    requires Handler(s.jobs.hands[x]).None? || Handler(s.jobs.hands[x]).value.Commit? || out != Ok
    ensures var s' := DispatchStep(cfg, s, x, out, id);
      && Beside(s, s', x) && s'.jobs == s.jobs && s'.ledgers == s.ledgers && s'.db == s.db && x in s'.workers
      && (s'.workers[x].act.Pushing? || s'.workers[x].act.Missed?
          || (s'.workers[x].act.Won? && s'.workers[x].act.win == |s.claims.touches|
              && IsWin(s'.claims.touches, s'.workers[x].act.key, |s.claims.touches|)))
  {
  }

  lemma DispatchKept(cfg: Config, s: State, l: Label)
    requires Enabled(s, l) && Owners(cfg, s) && l.Work? && s.workers[l.x].act == Dispatch
    requires Handler(s.jobs.hands[l.x]).None? || Handler(s.jobs.hands[l.x]).value.Commit? || l.out != Ok
    ensures Owners(cfg, Step(cfg, s, l))
  {
    PartsKept(cfg, s, l);
    HandIsRecorded(s.jobs, l.x);
    NoWorkflows(s, l.x);
    OldWins(s);
    DispatchBeside(cfg, s, l.x, l.out, l.id);
    BesideKeeps(s, Step(cfg, s, l), l.x);
  }

  lemma MissedBeside(s: State, x: nat, k: Key, out: Outcome)
    requires x in s.workers && Recorded(s, x)
    ensures var s' := MissedStep(s, x, k, out);
      && Beside(s, s', x) && s'.ledgers == s.ledgers && s'.db == s.db
      && x in s'.workers && s'.workers[x].act in {Pushing, Idle}
  {
  }

  lemma MissedKept(cfg: Config, s: State, l: Label)
    requires Enabled(s, l) && Owners(cfg, s) && l.Work? && s.workers[l.x].act.Missed?
    ensures Owners(cfg, Step(cfg, s, l))
  {
    PartsKept(cfg, s, l);
    HandIsRecorded(s.jobs, l.x);
    NoWorkflows(s, l.x);
    MissedBeside(s, l.x, s.workers[l.x].act.key, l.out);
    BesideKeeps(s, Step(cfg, s, l), l.x);
  }

  lemma PushBeside(s: State, x: nat, out: Outcome, text: string)
    requires x in s.workers && Recorded(s, x)
    ensures var s' := PushStep(s, x, out, text);
      && Beside(s, s', x) && s'.ledgers == s.ledgers && s'.db == s.db
      && (x in s'.workers ==> s'.workers[x].act == Idle)
      && RedisQueue.Terminal(s'.jobs.where[s.jobs.hands[x].id])
  {
  }

  /** The job a worker holds is the only one recorded as in its hands. */
  lemma OneJob(st: RedisQueue.Store, x: nat, id: nat)
    requires RedisQueue.Inv(st) && x in st.hands && id in st.where && st.where[id] == RedisQueue.InHand(x)
    ensures id == st.hands[x].id
  {
  }

  lemma PushKept(cfg: Config, s: State, l: Label)
    requires Enabled(s, l) && Owners(cfg, s) && l.Work? && s.workers[l.x].act.Pushing?
    ensures Owners(cfg, Step(cfg, s, l))
  {
    PartsKept(cfg, s, l);
    HandIsRecorded(s.jobs, l.x);
    PushBeside(s, l.x, l.out, l.text);
    var s' := Step(cfg, s, l);
    forall w | w in s.ledgers && s.ledgers[w].job in s'.jobs.where
      ensures s'.jobs.where[s.ledgers[w].job] != RedisQueue.InHand(l.x)
    {
      assert EntryOk(s, w);
      if s.jobs.where[s.ledgers[w].job] == RedisQueue.InHand(l.x) {
        OneJob(s.jobs, l.x, s.ledgers[w].job);
      }
    }
    BesideKeeps(s, s', l.x);
  }

  // --------------------------------------------------------------------------
  // Inserting a workflow row, and the steps of a handler
  // --------------------------------------------------------------------------

  ghost predicate Inserted(s: State, s': State, x: nat, p: Prog, w: nat, win: Option<nat>) {
    && x in s.workers && x in s.jobs.hands && x in s'.workers && w !in s.ledgers && w in s'.ledgers
    && Beside(s, s', x) && s'.jobs == s.jobs && s'.claims == s.claims
    && s'.ledgers == s.ledgers[w := s'.ledgers[w]]
    && s'.ledgers[w] == Entry(Begin(p, w), false, s.jobs.hands[x].id, win)
    && s'.db.wfs.Keys == s.db.wfs.Keys + {w}
    && s'.workers[x].act == InPipe(NewFrame(p, w), if win.Some? then win.value else 0, None)
  }

  lemma InsertBeside(s: State, x: nat, p: Prog, w: nat, win: Option<nat>)
    requires x in s.workers && x in s.jobs.hands && w !in s.ledgers
    ensures Inserted(s, Insert(s, x, p, w, win), x, p, w, win)
  {
  }

  /** A worker with a job and no workflow yet inserts its row under a fresh key. */
  lemma InsertKeeps(s: State, s': State, x: nat, p: Prog, w: nat, win: Option<nat>)
    requires Owned(s) && Recorded(s, x) && Inserted(s, s', x, p, w, win)
    requires !s.workers[x].act.Pushing? && !s.workers[x].act.InPipe?
    requires p.Demo? ==> win.None?
    requires p.Commit? ==> win.Some? && s.workers[x].act == Won(p.key, win.value)
    ensures Owned(s')
  {
    hide Home, Unshared;
    NoWorkflows(s, x);
    assert WorkerOk(s, x);
    InsertEntry(s, s', x, p, w, win);
    InsertOldEntries(s, s', x, p, w, win);
    InsertWorkers(s, s', x, w, win);
    InsertUnshared(s, s', x, w, win);
    assert forall v | v in s'.ledgers :: EntryOk(s', v);
  }

  lemma InsertOldEntries(s: State, s': State, x: nat, p: Prog, w: nat, win: Option<nat>)
    requires Inserted(s, s', x, p, w, win)
    requires forall v | v in s.ledgers :: v in s.db.wfs && EntryOk(s, v)
    requires forall v | v in s.ledgers ::
      s.ledgers[v].job in s.jobs.where && s.jobs.where[s.ledgers[v].job] != RedisQueue.InHand(x)
    ensures forall v | v in s.ledgers :: EntryOk(s', v)
  {
    forall v | v in s.ledgers ensures EntryOk(s', v) { BesideEntry(s, s', x, v); }
  }

  lemma InsertWorkers(s: State, s': State, x: nat, w: nat, win: Option<nat>)
    requires Beside(s, s', x) && w !in s.ledgers && w in s'.ledgers && Unshared(s) && x in s.workers
    requires s'.ledgers == s.ledgers[w := s'.ledgers[w]] && s'.ledgers[w].win == win
    requires s'.claims == s.claims && (x in s'.workers ==> WorkerOk(s', x))
    requires win.Some? ==> s.workers[x].act.Won? && s.workers[x].act.win == win.value
    requires forall y | y in s.workers :: WorkerOk(s, y)
    ensures forall y | y in s'.workers :: WorkerOk(s', y)
  {
    forall y | y in s'.workers ensures WorkerOk(s', y) {
      if y != x {
        InsertWorker(s, s', x, y, w, win);
      }
    }
  }

  /** The new row and the handler that starts on it. */
  lemma InsertEntry(s: State, s': State, x: nat, p: Prog, w: nat, win: Option<nat>)
    requires Inserted(s, s', x, p, w, win)
    requires Recorded(s, x)
    requires p.Demo? ==> win.None?
    requires p.Commit? ==> win.Some? && IsWin(s.claims.touches, p.key, win.value)
    ensures EntryOk(s', w) && WorkerOk(s', x)
  {
  }

  lemma InsertWorker(s: State, s': State, x: nat, y: nat, w: nat, win: Option<nat>)
    requires y != x && y in s.workers && WorkerOk(s, y) && Beside(s, s', x) && w !in s.ledgers && w in s'.ledgers
    requires s'.ledgers == s.ledgers[w := s'.ledgers[w]] && s'.ledgers[w].win == win
    requires s'.claims == s.claims
    requires win.Some? ==> x in s.workers && s.workers[x].act.Won? && s.workers[x].act.win == win.value
    requires Unshared(s)
    ensures y in s'.workers && WorkerOk(s', y)
  {
  }

  lemma InsertUnshared(s: State, s': State, x: nat, w: nat, win: Option<nat>)
    requires Unshared(s) && Beside(s, s', x) && w !in s.ledgers && w in s'.ledgers
    requires s'.ledgers == s.ledgers[w := s'.ledgers[w]] && s'.ledgers[w].win == win
    requires forall v | v in s.ledgers :: s.ledgers[v].job != s'.ledgers[w].job
    requires win.Some? ==> forall v | v in s.ledgers :: s.ledgers[v].win != win
    requires x in s'.workers && !s'.workers[x].act.Won?
    ensures Unshared(s')
  {
  }

  lemma PipeBeside(cfg: Config, s: State, x: nat, f: Frame, win: nat, att: Option<nat>, out: Outcome, id: nat, text: string)
    requires x in s.workers && Recorded(s, x)
    ensures var s' := PipeStep(cfg, s, x, f, win, att, out, id, text); Beside(s, s', x) && x in s'.workers
  {
    hide StepDb, StepFrame, Next;
    var s' := PipeStep(cfg, s, x, f, win, att, out, id, text);
    assert s'.claims == PipeClaims(cfg, s, f, out);
    assert s'.jobs in {s.jobs, RedisQueue.Apply(s.jobs, RedisQueue.Finish(x))};
  }

  lemma LedgerMoves(s: State, s': State, w: nat, led: Ledger)
    requires w in s.ledgers && led.wf == s.ledgers[w].led.wf && led.prog == s.ledgers[w].led.prog
    requires s'.ledgers == s.ledgers[w := s.ledgers[w].(led := led)] && s'.db.wfs.Keys == s.db.wfs.Keys
    ensures SameEntries(s, s')
  {
  }

  lemma PipeTables(cfg: Config, s: State, x: nat, f: Frame, win: nat, att: Option<nat>, out: Outcome, id: nat, text: string)
    requires x in s.workers && x in s.jobs.hands && f.wf in s.ledgers
    ensures var s' := PipeStep(cfg, s, x, f, win, att, out, id, text);
      && s'.db == StepDb(s.db, f, out, id, text)
      && s'.ledgers == s.ledgers[f.wf := s.ledgers[f.wf].(led := Advance(s.ledgers[f.wf].led, out, id))]
  {
  }

  lemma PipeEntries(cfg: Config, s: State, x: nat, f: Frame, win: nat, att: Option<nat>, out: Outcome, id: nat, text: string)
    requires x in s.workers && x in s.jobs.hands && f.wf in s.ledgers
    ensures SameEntries(s, PipeStep(cfg, s, x, f, win, att, out, id, text))
  {
    TablesKeepWorkflows(s.db, f, out, id, text);
    PipeTables(cfg, s, x, f, win, att, out, id, text);
    LedgerMoves(s, PipeStep(cfg, s, x, f, win, att, out, id, text), f.wf, Advance(s.ledgers[f.wf].led, out, id));
  }

  lemma TablesKeepWorkflows(db: Db, f: Frame, out: Outcome, id: nat, text: string)
    ensures StepDb(db, f, out, id, text).wfs.Keys == db.wfs.Keys
  {
    match f.pc
    case WriteLog(_) =>
    case WriteFail(_) =>
    case WriteEnd =>
    case _ =>
      hide Exec;
      TablesProofs.OneTable(db, f, id, text);
  }

  lemma FramesKeepIdentity(db: Db, f: Frame, out: Outcome, id: nat, text: string)
    ensures var f' := StepFrame(db, f, out, id, text);
      f'.wf == f.wf && f'.prog == f.prog && f'.pc == Next(f.prog, f.pc, out) && f'.pc != Attach
  {
  }

  lemma PipeActs(cfg: Config, s: State, x: nat, f: Frame, win: nat, att: Option<nat>, out: Outcome, id: nat, text: string)
    requires x in s.workers && x in s.jobs.hands && PipeOk(s, x, f, win, att)
    requires Recorded(s, x)
    requires f.prog.Commit? ==> win < |s.claims.touches|
    ensures var s' := PipeStep(cfg, s, x, f, win, att, out, id, text);
      && (s'.workers[x].act == Idle ==> s'.jobs.where[s.jobs.hands[x].id] == RedisQueue.Finished)
      && (s'.workers[x].act.InPipe? ==> s'.workers[x].act.frame.wf == f.wf && PipeOk(s', x, s'.workers[x].act.frame, win, s'.workers[x].act.att) && s'.workers[x].act.win == win)
      && (s'.workers[x].act.Idle? || s'.workers[x].act.Pushing? || s'.workers[x].act.InPipe?)
  {
    FramesKeepIdentity(s.db, f, out, id, text);
  }

  lemma PipeKept(cfg: Config, s: State, l: Label)
    requires Enabled(s, l) && Owners(cfg, s) && l.Work? && s.workers[l.x].act.InPipe?
    ensures Owners(cfg, Step(cfg, s, l))
  {
    var InPipe(f, win, att) := s.workers[l.x].act;
    PartsKept(cfg, s, l);
    HandIsRecorded(s.jobs, l.x);
    assert WorkerOk(s, l.x) && EntryOk(s, f.wf);
    PipeBeside(cfg, s, l.x, f, win, att, l.out, l.id, l.text);
    PipeEntries(cfg, s, l.x, f, win, att, l.out, l.id, l.text);
    PipeActs(cfg, s, l.x, f, win, att, l.out, l.id, l.text);
    var s' := Step(cfg, s, l);
    forall w | w in s.ledgers && s.ledgers[w].job in s'.jobs.where
               && s'.jobs.where[s.ledgers[w].job] == RedisQueue.InHand(l.x)
      ensures w == f.wf && s'.workers[l.x].act != Idle
    {
      assert EntryOk(s, w);
      OneJob(s.jobs, l.x, s.ledgers[w].job);
    }
    BesideKeeps(s, s', l.x);
  }

  /** The ownership invariant, one step at a time, in every run. */
  lemma OwnersKept(cfg: Config, s: State, l: Label)
    requires Enabled(s, l) && Owners(cfg, s)
    ensures Owners(cfg, Step(cfg, s, l))
  {
    hide RedisQueue.Inv, Dedup.Inv, HandsMatch;
    if !l.Work? {
      OutsideKept(cfg, s, l);
    } else {
      PartsKept(cfg, s, l);
      HandIsRecorded(s.jobs, l.x);
      match s.workers[l.x].act
      case Dispatch =>
        var h := Handler(s.jobs.hands[l.x]);
        if h.Some? && h.value.Demo? && l.out == Ok {
          InsertBeside(s, l.x, h.value, l.id, None);
          InsertKeeps(s, Step(cfg, s, l), l.x, h.value, l.id, None);
        } else {
          DispatchKept(cfg, s, l);
        }
      case Missed(_) => MissedKept(cfg, s, l);
      case Won(k, win) =>
        if l.out == Ok {
          InsertBeside(s, l.x, Commit(k), l.id, Some(win));
          InsertKeeps(s, Step(cfg, s, l), l.x, Commit(k), l.id, Some(win));
        } else {
          WonRaises(cfg, s, l);
        }
      case InPipe(_, _, _) => PipeKept(cfg, s, l);
      case Pushing => PushKept(cfg, s, l);
    }
  }

  lemma WonRaises(cfg: Config, s: State, l: Label)
    requires Enabled(s, l) && Owners(cfg, s) && l.Work? && s.workers[l.x].act.Won? && l.out != Ok
    ensures Owners(cfg, Step(cfg, s, l))
  {
    hide RedisQueue.Inv, Dedup.Inv;
    PartsKept(cfg, s, l);
    HandIsRecorded(s.jobs, l.x);
    NoWorkflows(s, l.x);
    BesideKeeps(s, Step(cfg, s, l), l.x);
  }
}
