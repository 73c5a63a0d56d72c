/** What the rows of one workflow look like at each program point of its owner. */
module ProgramProofs {
  import opened Common
  import opened Programs

  datatype Presence = No | Yes | Maybe

  /** `n` tasks; the last one's status lies in `last` and the others are done (all
      `n` are done when `last` is None). `base` is the stage whose log is reached. */
  datatype Stage = Stage(
    status: Status, n: nat, last: Option<set<Status>>, base: nat, mem: Presence, appr: Presence)

  /** Log entries emitted before stage `k` starts. */
  function LogAt(p: Prog, k: nat): seq<Event> {
    [Started(p)] +
    (if p.Demo? || k == 0 then []
     else if k == 1 then [SummaryDone]
     else if k <= 3 then [SummaryDone, SocialDone]
     else [SummaryDone, SocialDone, ApprovalSent])
  }

  function LogOf(p: Prog, k: nat, status: Status): seq<Event> {
    match status
    case Completed => LogAt(p, k) + [WorkflowDone]
    case Failed => LogAt(p, k) + [WorkflowFailed]
    case _ => LogAt(p, k)
  }

  function MemAt(p: Prog, k: nat): Presence {
    if k >= (if p.Commit? then 3 else 4) then Yes else No
  }

  function StageAt(p: Prog, pc: Pc): Stage {
    match pc
    case Attach => Stage(Running, 0, None, 0, No, No)
    case Create(k) => Stage(Running, Before(p, k), None, k, MemAt(p, k), No)
    case Body(k) => Stage(Running, Before(p, k) + 1, Some({Running}), k, MemAt(p, k), No)
    case Remember =>
      if p.Commit? then Stage(Running, 3, Some({Running}), 2, No, No)
      else Stage(Running, Before(p, 4), None, 4, No, No)
    case Upsert => Stage(Running, 3, Some({Running}), 2, Yes, No)
    case Stamp => Stage(Running, 3, Some({Running}), 2, Yes, No)
    case Approve => Stage(Running, |Plan(p)|, Some({Running}), 3, Yes, No)
    case Delivered => Stage(Running, |Plan(p)|, Some({Running}), 3, Yes, Yes)
    case Complete(k) =>
      Stage(Running, Before(p, k) + 1, Some({Running}), k,
            if p.Commit? && k == 2 then Yes else MemAt(p, k), if Before(p, k) + 1 == |Plan(p)| then Yes else No)
    case ReadLog(k) => Stage(Running, k + 1, Some({Completed}), k, MemAt(p, k), if k == 3 then Yes else No)
    case WriteLog(k) => Stage(Running, k + 1, Some({Completed}), k, MemAt(p, k), if k == 3 then Yes else No)
    case FailTask(k) =>
      Stage(Running, Before(p, k) + 1, Some({Running, Completed}), k,
            if p.Commit? && k == 2 then Maybe else MemAt(p, k), if p.Commit? && k == 3 then Maybe else No)
    case ReadFail(k) => FailedStage(p, k)
    case WriteFail(k) => FailedStage(p, k)
    case Broken(k) =>
      FailedStage(p, k).(status := Failed)
    case ReadEnd => Stage(Running, |Plan(p)|, None, 4, Yes, Yes)
    case WriteEnd => Stage(Running, |Plan(p)|, None, 4, Yes, Yes)
    case Returned => Stage(Completed, |Plan(p)|, None, 4, Yes, Yes)
    case Stuck(q) => StageAt(p, q)
  }

  function FailedStage(p: Prog, k: nat): Stage {
    Stage(Running, Before(p, k) + 1, Some({Failed}), k,
          if p.Commit? && k == 2 then Maybe else MemAt(p, k), if p.Commit? && k == 3 then Maybe else No)
  }

  /** A finished task; only the demo's MP4 render may have failed. */
  predicate Done(t: Task) {
    t.status == Completed || (t.kind == "render_mp4" && t.status == Failed)
  }

  predicate Present(x: Option<nat>, p: Presence) {
    (p == Yes ==> x.Some?) && (p == No ==> x.None?)
  }

  ghost predicate TasksFit(p: Prog, w: nat, r: Rows, n: nat, last: Option<set<Status>>) {
    && |r.tids| == |r.tasks| == n <= |Plan(p)|
    && (forall i | 0 <= i < n :: r.tasks[i].wf == w && r.tasks[i].kind == Plan(p)[i])
    && (forall i | 0 <= i < n :: i < n - 1 || last.None? ==> Done(r.tasks[i]))
    && (last.Some? ==> n > 0 && r.tasks[n - 1].status in last.value)
  }

  /** The ids a task's result names: the memory row of `save`, the approval of the
      last stage. */
  ghost predicate ResultsFit(p: Prog, r: Rows) {
    forall i | 0 <= i < |r.tasks| && r.tasks[i].status == Completed ::
      && (p.Commit? && i == 2 ==> r.tasks[i].result == r.mem && r.mem.Some?)
      && (i == |Plan(p)| - 1 ==> r.tasks[i].result == r.appr && r.appr.Some?)
  }

  ghost predicate Fits(p: Prog, w: nat, r: Rows, s: Stage) {
    && r.status == s.status && r.log == LogOf(p, s.base, s.status)
    && TasksFit(p, w, r, s.n, s.last)
    && Present(r.mem, s.mem) && Present(r.appr, s.appr)
    && ResultsFit(p, r)
  }

  ghost predicate LedgerInv(l: Ledger) {
    ValidPc(l.prog, l.pc) && Fits(l.prog, l.wf, l.rows, StageAt(l.prog, l.pc))
  }

  lemma BeginFits(p: Prog, w: nat)
    ensures LedgerInv(Begin(p, w))
  {
  }

  lemma NextIsValid(p: Prog, pc: Pc, out: Outcome)
    requires ValidPc(p, pc) && !Ended(pc)
    ensures ValidPc(p, Next(p, pc, out))
  {
  }

  lemma NoEffectFits(l: Ledger, out: Outcome, id: nat)
    requires LedgerInv(l) && !Ended(l.pc) && out != Ok
    ensures LedgerInv(Advance(l, out, id))
  {
    NextIsValid(l.prog, l.pc, out);
  }

  lemma CreateFits(l: Ledger, id: nat)
    requires LedgerInv(l) && l.pc.Create?
    ensures LedgerInv(Advance(l, Ok, id))
  {
    NextIsValid(l.prog, l.pc, Ok);
  }

  lemma CompleteFits(l: Ledger, id: nat)
    requires LedgerInv(l) && l.pc.Complete?
    ensures LedgerInv(Advance(l, Ok, id))
  {
    NextIsValid(l.prog, l.pc, Ok);
  }

  lemma FailTaskFits(l: Ledger, id: nat)
    requires LedgerInv(l) && l.pc.FailTask?
    ensures LedgerInv(Advance(l, Ok, id))
  {
    NextIsValid(l.prog, l.pc, Ok);
  }

  lemma RowFits(l: Ledger, id: nat)
    requires LedgerInv(l) && !Ended(l.pc) && (l.pc.Remember? || l.pc.Approve?)
    ensures LedgerInv(Advance(l, Ok, id))
  {
    NextIsValid(l.prog, l.pc, Ok);
  }

  lemma LogFits(l: Ledger, id: nat)
    requires LedgerInv(l) && !Ended(l.pc)
    requires l.pc.WriteLog? || l.pc.WriteFail? || l.pc.WriteEnd?
    ensures LedgerInv(Advance(l, Ok, id))
  {
    NextIsValid(l.prog, l.pc, Ok);
  }

  lemma QuietFits(l: Ledger, id: nat)
    requires LedgerInv(l) && !Ended(l.pc)
    requires l.pc.Attach? || l.pc.Body? || l.pc.Upsert? || l.pc.Stamp? || l.pc.Delivered?
      || l.pc.ReadLog? || l.pc.ReadFail? || l.pc.ReadEnd?
    ensures LedgerInv(Advance(l, Ok, id))
  {
    NextIsValid(l.prog, l.pc, Ok);
  }

  /** Every step, whatever its outcome, moves the rows to the shape of the next
      program point. */
  lemma AdvanceFits(l: Ledger, out: Outcome, id: nat)
    requires LedgerInv(l) && !Ended(l.pc)
    ensures LedgerInv(Advance(l, out, id))
  {
    if out != Ok {
      NoEffectFits(l, out, id);
    } else {
      match l.pc
      case Create(_) => CreateFits(l, id);
      case Complete(_) => CompleteFits(l, id);
      case FailTask(_) => FailTaskFits(l, id);
      case Remember => RowFits(l, id);
      case Approve => RowFits(l, id);
      case WriteLog(_) => LogFits(l, id);
      case WriteFail(_) => LogFits(l, id);
      case WriteEnd => LogFits(l, id);
      case _ => QuietFits(l, id);
    }
  }

  /** A handler that has not ended works on a running row. */
  lemma LiveIsRunning(p: Prog, pc: Pc)
    requires ValidPc(p, pc) && !Ended(pc)
    ensures StageAt(p, pc).status == Running
  {
  }

  // --------------------------------------------------------------------------
  // What follows about the rows, at every point and for every ending
  // --------------------------------------------------------------------------

  predicate Closing(e: Event) {
    e == WorkflowFailed || e == WorkflowInterrupted
  }

  function FullLog(p: Prog): seq<Event> {
    LogAt(p, 4) + [WorkflowDone]
  }

  /** The log is a prefix of the full one, or a proper prefix closed by exactly one
      failed or interrupted entry; and the status column says which. */
  ghost predicate LogLawful(p: Prog, r: Rows) {
    && |r.log| > 0
    && var n := |r.log| - 1;
      if Closing(r.log[n]) then
        && r.log[..n] <= LogAt(p, 4) && n > 0
        && r.status == (if r.log[n] == WorkflowFailed then Failed else Interrupted)
      else
        && r.log <= FullLog(p)
        && r.status == (if r.log == FullLog(p) then Completed else Running)
  }

  /** Tasks follow the plan in order; every one but the last is done. */
  ghost predicate TasksLawful(p: Prog, w: nat, r: Rows) {
    && |r.tids| == |r.tasks| <= |Plan(p)|
    && (forall i | 0 <= i < |r.tasks| :: r.tasks[i].wf == w && r.tasks[i].kind == Plan(p)[i])
    && (forall i | 0 <= i < |r.tasks| - 1 :: Done(r.tasks[i]))
  }

  /** A running task belongs to a running workflow, an interrupted task to an
      interrupted one, and nothing runs under a workflow that ended. */
  ghost predicate StatusLawful(r: Rows) {
    forall i | 0 <= i < |r.tasks| ::
      && (r.tasks[i].status == Running ==> r.status == Running)
      && (r.tasks[i].status == Interrupted ==> r.status == Interrupted)
      && (r.tasks[i].status == Failed && r.tasks[i].kind != "render_mp4" ==> r.status != Completed)
  }

  /** Completed means every planned task is there and done, with one memory row
      and one approval, both named by the tasks that made them. */
  ghost predicate CompletionLawful(p: Prog, r: Rows) {
    && (r.status == Completed ==>
          && |r.tasks| == |Plan(p)| && (forall i | 0 <= i < |r.tasks| :: Done(r.tasks[i]))
          && r.mem.Some? && r.appr.Some?
          && r.tasks[|r.tasks| - 1].result == r.appr
          && (p.Commit? ==> r.tasks[2].result == r.mem))
    && (r.appr.Some? ==> |r.tasks| == |Plan(p)| && r.mem.Some?)
  }

  ghost predicate Lawful(p: Prog, w: nat, r: Rows) {
    LogLawful(p, r) && TasksLawful(p, w, r) && StatusLawful(r) && CompletionLawful(p, r)
  }

  /** What every entry of the table of stages guarantees. */
  ghost predicate Sane(p: Prog, s: Stage) {
    && (s.status == Completed ==> s.last.None? && s.n == |Plan(p)| && s.mem == Yes && s.appr == Yes && s.base == 4)
    && (s.status == Failed ==> s.last == Some({Failed}))
    && (s.last.Some? ==> Interrupted !in s.last.value)
    && (s.appr != No ==> s.n == |Plan(p)| && s.mem == Yes)
    && s.status != Interrupted
  }

  lemma {:induction false} StageIsSane(p: Prog, pc: Pc)
    requires ValidPc(p, pc)
    ensures Sane(p, StageAt(p, pc))
  {
    match pc
    case Stuck(q) => StageIsSane(p, q);
    case _ =>
  }

  lemma SaneTasks(p: Prog, w: nat, r: Rows, s: Stage)
    requires Fits(p, w, r, s)
    ensures TasksLawful(p, w, r)
  {
  }

  lemma SaneStatus(p: Prog, w: nat, r: Rows, s: Stage)
    requires Fits(p, w, r, s) && Sane(p, s)
    ensures StatusLawful(r)
  {
  }

  lemma SaneCompletion(p: Prog, w: nat, r: Rows, s: Stage)
    requires Fits(p, w, r, s) && Sane(p, s)
    ensures CompletionLawful(p, r)
  {
    if r.status == Completed {
      assert Done(r.tasks[|r.tasks| - 1]);
      assert p.Commit? ==> Done(r.tasks[2]) && r.tasks[2].kind == "save";
    }
  }

  lemma LedgerIsLawful(l: Ledger)
    requires LedgerInv(l)
    ensures Lawful(l.prog, l.wf, l.rows)
  {
    var s := StageAt(l.prog, l.pc);
    StageIsSane(l.prog, l.pc);
    SaneTasks(l.prog, l.wf, l.rows, s);
    SaneStatus(l.prog, l.wf, l.rows, s);
    SaneCompletion(l.prog, l.wf, l.rows, s);
    LogIsLawful(l);
  }

  lemma LogGrows(p: Prog, k: nat)
    ensures LogAt(p, 0) <= LogAt(p, k) <= LogAt(p, 4) < FullLog(p)
  {
  }

  lemma LogIsLawful(l: Ledger)
    requires LedgerInv(l)
    ensures LogLawful(l.prog, l.rows)
  {
    var s := StageAt(l.prog, l.pc);
    StageIsSane(l.prog, l.pc);
    hide StageAt, ValidPc;
    StageLogIsLawful(l.prog, l.rows, s);
  }

  lemma StageLogIsLawful(p: Prog, r: Rows, s: Stage)
    requires Sane(p, s) && r.status == s.status && r.log == LogOf(p, s.base, s.status)
    ensures LogLawful(p, r)
  {
    LogGrows(p, s.base);
    NeverClosing(p, s.base);
    hide LogAt;
    match s.status
    case Running =>
    case Completed => assert r.log == FullLog(p);
    case Failed => assert r.log[..|r.log| - 1] == LogAt(p, s.base);
  }

  lemma NeverClosing(p: Prog, k: nat)
    ensures var log := LogAt(p, k); log != [] && !Closing(log[|log| - 1])
  {
  }

  lemma ReapedIsLawful(l: Ledger)
    requires LedgerInv(l) && l.rows.status == Running
    ensures Lawful(l.prog, l.wf, ReapRows(l.rows))
  {
    LedgerIsLawful(l);
    var s := StageAt(l.prog, l.pc);
    LogGrows(l.prog, s.base);
    var r := ReapRows(l.rows);
    assert r.log[..|r.log| - 1] == l.rows.log;
  }

  /** The demo's tasks do not follow the task_chain its workflow row declares: they
      agree with it exactly as long as there are at most two of them. */
  lemma DemoLeavesItsChain(l: Ledger)
    requires LedgerInv(l) && l.prog.Demo?
    ensures (forall i | 0 <= i < |l.rows.tasks| ::
               i < |DeclaredChain(l.prog)| && l.rows.tasks[i].kind == DeclaredChain(l.prog)[i])
        <==> |l.rows.tasks| <= 2
  {
    var chain, plan := DeclaredChain(l.prog), Plan(l.prog);
    assert chain[0] == plan[0] && chain[1] == plan[1];
    assert |chain[2]| == |"narrate"| == 7 && |plan[2]| in {8, 10};
    if |l.rows.tasks| > 2 {
      assert l.rows.tasks[2].kind == plan[2] != chain[2];
    }
  }
}
