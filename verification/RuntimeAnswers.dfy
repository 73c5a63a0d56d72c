/** Skip answers are sound, and the vector index agrees with the memory table: over
    every run, with any number of processes. */
module RuntimeAnswers {
  import opened Common
  import opened Programs
  import opened Tables
  import opened Runtime
  import opened RuntimeClaims
  import opened RuntimeOwners
  import Dedup
  import RedisQueue
  import Decimal
  import TablesProofs

  predicate HeadIs(log: seq<Event>, p: Prog) {
    log != [] && log[0] == Started(p)
  }

  predicate Writing(pc: Pc) {
    pc.WriteLog? || pc.WriteFail? || pc.WriteEnd?
  }

  /** Every log starts with what its workflow was created for, and so does every
      copy a handler is about to write back. */
  ghost predicate Headed(s: State) {
    && (forall w | w in s.db.wfs :: w in s.ledgers && HeadIs(s.db.wfs[w].log, s.ledgers[w].led.prog))
    && (forall x | x in s.workers && s.workers[x].act.InPipe? && Writing(s.workers[x].act.frame.pc) ::
          HeadIs(s.workers[x].act.frame.snap, s.workers[x].act.frame.prog))
  }

  /** A workflow row that was created for the pair `k`. */
  predicate RowFor(db: Db, n: nat, k: Key) {
    n in db.wfs && HeadIs(db.wfs[n].log, Commit(k))
  }

  /** A claim holds PENDING or the id of a row of its own pair; so does every answer
      given to a duplicate. */
  ghost predicate Sound(s: State) {
    && (forall k | k in s.claims.claims ::
          var v := s.claims.claims[k].value;
          v == Dedup.PENDING || (Decimal.IsDigits(v) && RowFor(s.db, Decimal.Parse(v), k)))
    && (forall i | 0 <= i < |s.answers| && s.answers[i].workflow.Some? ::
          RowFor(s.db, s.answers[i].workflow.value, s.answers[i].key))
  }

  function Written(pc: Pc): Event {
    match pc
    case WriteLog(k) => Line(k)
    case WriteFail(_) => WorkflowFailed
    case _ => WorkflowDone
  }

  lemma StepLogs(db: Db, f: Frame, out: Outcome, id: nat, text: string)
    requires f.wf in db.wfs
    ensures var db' := StepDb(db, f, out, id, text);
      && db'.wfs.Keys == db.wfs.Keys
      && (forall w | w in db.wfs && w != f.wf :: db'.wfs[w] == db.wfs[w])
      && db'.wfs[f.wf].log == (if Writing(f.pc) && out == Ok then f.snap + [Written(f.pc)] else db.wfs[f.wf].log)
  {
    match f.pc
    case WriteLog(_) =>
    case WriteFail(_) =>
    case WriteEnd =>
    case _ =>
      hide Exec;
      TablesProofs.OneTable(db, f, id, text);
  }

  lemma StepSnap(db: Db, f: Frame, out: Outcome, id: nat, text: string)
    requires f.wf in db.wfs
    ensures var f' := StepFrame(db, f, out, id, text); Writing(f'.pc) ==> f'.snap == db.wfs[f.wf].log
  {
  }

  ghost predicate HeadedRows(s: State) {
    forall w | w in s.db.wfs :: w in s.ledgers && HeadIs(s.db.wfs[w].log, s.ledgers[w].led.prog)
  }

  lemma PipeHeadedRows(s: State, s': State, f: Frame, out: Outcome, id: nat, text: string)
    requires HeadedRows(s) && SameEntries(s, s') && s.ledgers.Keys == s.db.wfs.Keys
    requires f.wf in s.db.wfs && s'.db == StepDb(s.db, f, out, id, text)
    requires f.prog == s.ledgers[f.wf].led.prog && (Writing(f.pc) ==> HeadIs(f.snap, f.prog))
    ensures HeadedRows(s')
  {
    StepLogs(s.db, f, out, id, text);
  }

  lemma PipeHeaded(cfg: Config, s: State, x: nat, f: Frame, win: nat, att: Option<nat>, out: Outcome, id: nat, text: string)
    requires x in s.workers && s.workers[x].act == InPipe(f, win, att) && PipeOk(s, x, f, win, att)
    requires Headed(s) && s.ledgers.Keys == s.db.wfs.Keys
    ensures Headed(PipeStep(cfg, s, x, f, win, att, out, id, text))
  {
    var s' := PipeStep(cfg, s, x, f, win, att, out, id, text);
    PipeTables(cfg, s, x, f, win, att, out, id, text);
    PipeEntries(cfg, s, x, f, win, att, out, id, text);
    PipeHeadedRows(s, s', f, out, id, text);
    PipeHeadedWorkers(cfg, s, x, f, win, att, out, id, text);
  }

  lemma PipeHeadedWorkers(cfg: Config, s: State, x: nat, f: Frame, win: nat, att: Option<nat>, out: Outcome, id: nat, text: string)
    requires x in s.workers && x in s.jobs.hands
    requires Headed(s) && f.wf in s.db.wfs && HeadIs(s.db.wfs[f.wf].log, f.prog)
    ensures var s' := PipeStep(cfg, s, x, f, win, att, out, id, text);
      forall y | y in s'.workers && s'.workers[y].act.InPipe? && Writing(s'.workers[y].act.frame.pc) ::
        HeadIs(s'.workers[y].act.frame.snap, s'.workers[y].act.frame.prog)
  {
    StepSnap(s.db, f, out, id, text);
    FramesKeepIdentity(s.db, f, out, id, text);
    PipeWorkers(cfg, s, x, f, win, att, out, id, text);
  }

  lemma PipeWorkers(cfg: Config, s: State, x: nat, f: Frame, win: nat, att: Option<nat>, out: Outcome, id: nat, text: string)
    requires x in s.workers && x in s.jobs.hands
    ensures var s' := PipeStep(cfg, s, x, f, win, att, out, id, text);
      && s'.workers.Keys == s.workers.Keys
      && (forall y | y in s.workers && y != x :: s'.workers[y] == s.workers[y])
      && (s'.workers[x].act.InPipe? ==> s'.workers[x].act.frame == StepFrame(s.db, f, out, id, text))
  {
  }

  lemma InsertHeaded(s: State, x: nat, p: Prog, w: nat, win: Option<nat>)
    requires Headed(s) && x in s.workers && x in s.jobs.hands && w !in s.db.wfs
    ensures Headed(Insert(s, x, p, w, win))
  {
  }

  lemma StartHeaded(cfg: Config, s: State, proc: nat, ids: set<nat>)
    requires Headed(s) && s.ledgers.Keys == s.db.wfs.Keys
    ensures Headed(StartStep(cfg, s, proc, ids))
  {
  }

  lemma HeadedKept(cfg: Config, s: State, l: Label)
    requires Enabled(s, l) && Owned(s) && Headed(s)
    ensures Headed(Step(cfg, s, l))
  {
    hide Headed, Owned, PipeStep, DispatchStep, WonStep, MissedStep, PushStep, StartStep, DecideStep;
    OwnedKeys(s);
    if l.Start? {
      StartHeaded(cfg, s, l.proc, l.ids);
    } else if !l.Work? {
      OutsideHeaded(cfg, s, l);
    } else {
      match s.workers[l.x].act
      case InPipe(f, win, att) =>
        OwnedPipe(s, l.x);
        PipeHeaded(cfg, s, l.x, f, win, att, l.out, l.id, l.text);
      case Dispatch => DispatchHeaded(cfg, s, l.x, l.out, l.id);
      case Won(k, win) => WonHeaded(s, l.x, k, win, l.out, l.id);
      case Missed(k) => LetGoHeaded(s, l.x, k, l.out, l.text);
      case Pushing => LetGoHeaded(s, l.x, Key("", ""), l.out, l.text);
    }
  }

  lemma OwnedKeys(s: State)
    requires Owned(s)
    ensures s.ledgers.Keys == s.db.wfs.Keys
  {
  }

  lemma OwnedPipe(s: State, x: nat)
    requires Owned(s) && x in s.workers && s.workers[x].act.InPipe?
    ensures var InPipe(f, win, att) := s.workers[x].act; PipeOk(s, x, f, win, att) && EntryOk(s, f.wf)
  {
    assert WorkerOk(s, x);
  }

  lemma OutsideHeaded(cfg: Config, s: State, l: Label)
    requires Enabled(s, l) && Headed(s) && !l.Start? && !l.Work?
    ensures Headed(Step(cfg, s, l))
  {
    hide RedisQueue.Apply, Dedup.Apply;
  }

  lemma DispatchHeaded(cfg: Config, s: State, x: nat, out: Outcome, id: nat)
    requires Headed(s) && x in s.workers && x in s.jobs.hands && id !in s.db.wfs
    ensures Headed(DispatchStep(cfg, s, x, out, id))
  {
    hide Dedup.Apply, Insert;
    var h := Handler(s.jobs.hands[x]);
    if h.Some? && h.value.Demo? && out == Ok {
      InsertHeaded(s, x, h.value, id, None);
    }
  }

  lemma WonHeaded(s: State, x: nat, k: Key, win: nat, out: Outcome, id: nat)
    requires Headed(s) && x in s.workers && x in s.jobs.hands && id !in s.db.wfs
    ensures Headed(WonStep(s, x, k, win, out, id))
  {
    hide Insert;
    if out == Ok {
      InsertHeaded(s, x, Commit(k), id, Some(win));
    }
  }

  lemma LetGoHeaded(s: State, x: nat, k: Key, out: Outcome, text: string)
    requires Headed(s) && x in s.workers && x in s.jobs.hands
    ensures Headed(MissedStep(s, x, k, out)) && Headed(PushStep(s, x, out, text))
  {
    hide SkipAnswer;
  }

  /** What a row was created for never changes. */
  lemma RowsKeepSubject(cfg: Config, s: State, l: Label, n: nat, k: Key)
    requires Enabled(s, l) && Owned(s) && Headed(s) && RowFor(s.db, n, k)
    ensures RowFor(Step(cfg, s, l).db, n, k)
  {
    HeadedKept(cfg, s, l);
    EntriesKeepProg(cfg, s, l, n);
  }

  lemma EntriesKeepProg(cfg: Config, s: State, l: Label, n: nat)
    requires Enabled(s, l) && Owned(s) && n in s.db.wfs
    ensures var s' := Step(cfg, s, l);
      n in s'.db.wfs && n in s'.ledgers && s'.ledgers[n].led.prog == s.ledgers[n].led.prog
  {
    if !l.Work? {
      OutsideKeepsProg(cfg, s, l, n);
    } else if s.workers[l.x].act.InPipe? {
      PipeKeepsProg(cfg, s, l, n);
    } else {
      WorkEarly(cfg, s, l);
    }
  }

  lemma OutsideKeepsProg(cfg: Config, s: State, l: Label, n: nat)
    requires Enabled(s, l) && n in s.ledgers && n in s.db.wfs && !l.Work?
    ensures var s' := Step(cfg, s, l);
      n in s'.db.wfs && n in s'.ledgers && s'.ledgers[n].led.prog == s.ledgers[n].led.prog
  {
  }

  lemma PipeKeepsProg(cfg: Config, s: State, l: Label, n: nat)
    requires Enabled(s, l) && Owned(s) && n in s.db.wfs && l.Work? && s.workers[l.x].act.InPipe?
    ensures var s' := Step(cfg, s, l);
      n in s'.db.wfs && n in s'.ledgers && s'.ledgers[n].led.prog == s.ledgers[n].led.prog
  {
    var InPipe(f, win, att) := s.workers[l.x].act;
    assert WorkerOk(s, l.x);
    PipeEntries(cfg, s, l.x, f, win, att, l.out, l.id, l.text);
  }

  // --------------------------------------------------------------------------
  // Skip answers
  // --------------------------------------------------------------------------

  predicate SoundValue(db: Db, k: Key, v: string) {
    v == Dedup.PENDING || (Decimal.IsDigits(v) && RowFor(db, Decimal.Parse(v), k))
  }

  lemma PendingIsNoNumber()
    ensures !Decimal.IsDigits(Dedup.PENDING) && !Decimal.IsDigits("unknown")
  {
    assert !Decimal.IsDigit(Dedup.PENDING[0]) && !Decimal.IsDigit("unknown"[0]);
  }

  /** An integer in the answer is the id held by the claim; PENDING, an expired key
      or "unknown" never gives one. */
  lemma AnswerIsSound(s: State, k: Key)
    requires Sound(s)
    ensures var a := SkipAnswer(k, Dedup.Get(s.claims, k));
      && (a.workflow.Some? ==> RowFor(s.db, a.workflow.value, k))
      && (a.inFlight <==> Dedup.Get(s.claims, k) == Some(Dedup.PENDING))
      && (a.workflow.None? <==> Dedup.Get(s.claims, k) in {None, Some(Dedup.PENDING)})
  {
    PendingIsNoNumber();
  }

  lemma ClaimsStaySound(cfg: Config, s: State, l: Label)
    requires Enabled(s, l) && Owned(s) && Headed(s) && Sound(s)
    ensures var s' := Step(cfg, s, l);
      forall k | k in s'.claims.claims :: SoundValue(s'.db, k, s'.claims.claims[k].value)
  {
    var s' := Step(cfg, s, l);
    forall k | k in s'.claims.claims ensures SoundValue(s'.db, k, s'.claims.claims[k].value) {
      var v := s'.claims.claims[k].value;
      if k in s.claims.claims && s.claims.claims[k].value == v {
        if v != Dedup.PENDING {
          RowsKeepSubject(cfg, s, l, Decimal.Parse(v), k);
        }
      } else if v != Dedup.PENDING {
        NewValueIsAttached(cfg, s, l, k);
        var f := s.workers[l.x].act.frame;
        assert WorkerOk(s, l.x);
        Decimal.RoundTrip(f.wf);
        RowsKeepSubject(cfg, s, l, f.wf, k);
      }
    }
  }

  /** A value that was not there before is PENDING or an attached workflow id. */
  lemma NewValueIsAttached(cfg: Config, s: State, l: Label, k: Key)
    requires Enabled(s, l)
    requires var c := Step(cfg, s, l).claims.claims;
      k in c && c[k].value != Dedup.PENDING && !(k in s.claims.claims && s.claims.claims[k].value == c[k].value)
    ensures l.Work? && s.workers[l.x].act.InPipe?
    ensures var f := s.workers[l.x].act.frame;
      f.prog == Commit(k) && Step(cfg, s, l).claims.claims[k].value == Decimal.Show(f.wf)
  {
    var c := StepClaims(cfg, s, l);
  }

  /** A step gives at most one answer, about the claim as it is then. */
  lemma NewAnswer(cfg: Config, s: State, l: Label)
    requires Enabled(s, l)
    ensures var s' := Step(cfg, s, l);
      s'.answers == s.answers
      || (l.Work? && s.workers[l.x].act.Missed?
          && var k := s.workers[l.x].act.key; s'.answers == s.answers + [SkipAnswer(k, Dedup.Get(s.claims, k))])
  {
    hide SkipAnswer, Exec, Next, Dedup.Apply, RedisQueue.Apply, Reap;
  }

  /** Skip answers are sound: an integer workflow id given to a duplicate names an
      existing row created for the same pair, whatever expired, was claimed again or
      attached late in between. */
  lemma SoundKept(cfg: Config, s: State, l: Label)
    requires Enabled(s, l) && Owned(s) && Headed(s) && Sound(s)
    ensures Sound(Step(cfg, s, l))
  {
    ClaimsStaySound(cfg, s, l);
    NewAnswer(cfg, s, l);
    hide Step, Enabled, Owned, Headed, RowFor;
    var s' := Step(cfg, s, l);
    forall i | 0 <= i < |s'.answers| && s'.answers[i].workflow.Some?
      ensures RowFor(s'.db, s'.answers[i].workflow.value, s'.answers[i].key)
    {
      var a := s'.answers[i];
      if i >= |s.answers| {
        AnswerIsSound(s, a.key);
      }
      RowsKeepSubject(cfg, s, l, a.workflow.value, a.key);
    }
  }
}
