/** What a handler's steps lead to, program point by program point: the path of a run in
    which everything goes through, and where each failure goes. */
module FailurePaths {
  import opened Common
  import opened Programs
  import opened ProgramProofs
  import Timing

  // --------------------------------------------------------------------------
  // When everything goes through
  // --------------------------------------------------------------------------

  function CommitPath(): seq<Pc> {
    [Attach,
     Create(0), Body(0), Complete(0), ReadLog(0), WriteLog(0),
     Create(1), Body(1), Complete(1), ReadLog(1), WriteLog(1),
     Create(2), Remember, Upsert, Stamp, Complete(2),
     Create(3), Approve, Delivered, Complete(3), ReadLog(3), WriteLog(3),
     ReadEnd, WriteEnd, Returned]
  }

  function DemoPath(skipRender: bool): seq<Pc> {
    [Create(0), Body(0), Complete(0), Create(1), Body(1), Complete(1)]
    + (if skipRender then [] else [Create(2), Body(2), Complete(2)])
    + [Create(3), Body(3), Complete(3), Remember, Create(4), Approve, Delivered, Complete(4), ReadEnd, WriteEnd, Returned]
  }

  function PathOf(p: Prog): seq<Pc> {
    if p.Commit? then CommitPath() else DemoPath(p.skipRender)
  }

  function Oks(n: nat): seq<Outcome> {
    seq(n, _ => Ok)
  }

  lemma CommitPathSteps(key: Key, i: nat)
    requires i + 1 < |CommitPath()|
    ensures !Ended(CommitPath()[i]) && Next(Commit(key), CommitPath()[i], Ok) == CommitPath()[i + 1]
  {
  }

  lemma DemoPathSteps(p: Prog, i: nat)
    requires p.Demo? && i + 1 < |DemoPath(p.skipRender)|
    ensures !Ended(DemoPath(p.skipRender)[i]) && Next(p, DemoPath(p.skipRender)[i], Ok) == DemoPath(p.skipRender)[i + 1]
  {
  }

  lemma PathSteps(p: Prog, i: nat)
    requires i + 1 < |PathOf(p)|
    ensures !Ended(PathOf(p)[i]) && Next(p, PathOf(p)[i], Ok) == PathOf(p)[i + 1]
  {
    hide Next, Ended, CommitPath, DemoPath;
    if p.Commit? {
      CommitPathSteps(p.key, i);
    } else {
      DemoPathSteps(p, i);
    }
  }

  lemma PathStart(p: Prog)
    ensures PathOf(p) != [] && Entry(p) == PathOf(p)[0] == if p.Commit? then Attach else Create(0)
  {
  }

  /** With every step going through, a handler takes exactly these steps and returns. */
  lemma {:induction false} OkPath(p: Prog, n: nat)
    requires n < |PathOf(p)|
    ensures Timing.After(p, Entry(p), Oks(n)) == PathOf(p)[n]
  {
    hide Next, PathOf, Entry;
    if n == 0 {
      PathStart(p);
    } else {
      assert Oks(n)[..n - 1] == Oks(n - 1);
      OkPath(p, n - 1);
      PathSteps(p, n - 1);
    }
  }

  // --------------------------------------------------------------------------
  // Failures
  // --------------------------------------------------------------------------

  /** The outcomes that let a run go on: the two indexing steps may raise, and the
      demo's MP4 render may exit badly. */
  predicate Tolerated(p: Prog, pc: Pc, out: Outcome) {
    out == Ok || pc == Upsert || pc == Stamp || (p.Demo? && pc == Body(2) && out == Bad)
  }

  /** Points from which a run cannot return any more. */
  predicate Lost(p: Prog, pc: Pc) {
    match pc
    case FailTask(k) => p.Commit? || k != 2
    case ReadFail(_) => true
    case WriteFail(_) => true
    case Broken(_) => true
    case Stuck(_) => true
    case _ => false
  }

  lemma FaultLoses(p: Prog, pc: Pc, out: Outcome)
    requires ValidPc(p, pc) && !Ended(pc) && !Tolerated(p, pc, out)
    ensures Lost(p, Next(p, pc, out))
  {
  }

  lemma LostForGood(p: Prog, pc: Pc, out: Outcome)
    requires ValidPc(p, pc) && !Ended(pc) && Lost(p, pc)
    ensures Lost(p, Next(p, pc, out))
  {
  }

  lemma ToleratedKeeps(p: Prog, pc: Pc, out: Outcome)
    requires ValidPc(p, pc) && !Ended(pc) && !Lost(p, pc) && Tolerated(p, pc, out)
    ensures !Lost(p, Next(p, pc, out))
  {
  }

  /** Every step so far ended well, or in a way that the run tolerates. */
  ghost predicate NoFault(p: Prog, outs: seq<Outcome>) {
    forall i | 0 <= i < |outs| :: Tolerated(p, Timing.After(p, Entry(p), outs[..i]), outs[i])
  }

  /** A handler that has come to its end returned if and only if it met no failure but
      tolerated ones. */
  lemma ReturnedMeansNoFault(p: Prog, outs: seq<Outcome>)
    requires Timing.Underway(p, Entry(p), outs) && Ended(Timing.After(p, Entry(p), outs))
    ensures Timing.After(p, Entry(p), outs) == Returned <==> NoFault(p, outs)
  {
    Timing.HandlerEnds(p, outs);
    if NoFault(p, outs) {
      NoFaultKeeps(p, outs);
    } else {
      var i :| 0 <= i < |outs| && !Tolerated(p, Timing.After(p, Entry(p), outs[..i]), outs[i]);
      FaultIsFinal(p, outs, i);
    }
  }

  lemma {:induction false} NoFaultKeeps(p: Prog, outs: seq<Outcome>)
    requires Timing.Underway(p, Entry(p), outs) && NoFault(p, outs)
    ensures !Lost(p, Timing.After(p, Entry(p), outs))
    decreases |outs|
  {
    hide Next, Tolerated, ValidPc, Timing.Rank;
    if outs != [] {
      var n := |outs| - 1;
      var short := outs[..n];
      Timing.Shorter(p, Entry(p), outs);
      Timing.HandlerEnds(p, short);
      assert forall i | 0 <= i < |short| :: short[..i] == outs[..i];
      NoFaultKeeps(p, short);
      ToleratedKeeps(p, Timing.After(p, Entry(p), short), outs[n]);
    }
  }

  lemma {:induction false} FaultIsFinal(p: Prog, outs: seq<Outcome>, i: nat)
    requires Timing.Underway(p, Entry(p), outs) && i < |outs|
    requires !Tolerated(p, Timing.After(p, Entry(p), outs[..i]), outs[i])
    ensures Lost(p, Timing.After(p, Entry(p), outs))
    decreases |outs|
  {
    hide Next, Tolerated, Lost, ValidPc, Timing.Rank, Entry, Ended;
    var n := |outs| - 1;
    var short := outs[..n];
    Timing.Shorter(p, Entry(p), outs);
    Timing.HandlerEnds(p, short);
    if i == n {
      FaultLoses(p, Timing.After(p, Entry(p), short), outs[n]);
    } else {
      assert short[..i] == outs[..i];
      FaultIsFinal(p, short, i);
      LostForGood(p, Timing.After(p, Entry(p), short), outs[n]);
    }
  }

  /** Step `pc` belongs to the try block of stage `k` of the commit pipeline. */
  predicate InTry(pc: Pc, k: nat) {
    match pc
    case Body(j) => j == k
    case Remember => k == 2
    case Approve => k == 3
    case Delivered => k == 3
    case Complete(j) => j == k
    case ReadLog(j) => j == k
    case WriteLog(j) => j == k
    case _ => false
  }

  /** The failures that end in an except block: any in a commit's try block, and a bad
      exit of a demo's make, or of its manifest. */
  predicate Caught(p: Prog, pc: Pc, out: Outcome, k: nat) {
    if p.Commit? then InTry(pc, k) && out != Ok else pc == Body(k) && out == Bad
  }

  /** The task of stage `k`. */
  function StageName(p: Prog, k: nat): string
    requires k < 5 && (p.Commit? ==> k < 4)
  {
    if p.Commit? then ["summarize", "draft_social", "save", "request_approval"][k]
    else ["check_tools", "capture", "render_mp4", "manifest", "approve"][k]
  }

  /** The steps of the except block, one after another. */
  function AfterFault(l: Ledger, out: Outcome, id: nat): Ledger {
    Advance(Advance(Advance(Advance(l, out, id), Ok, 0), Ok, 0), Ok, 0)
  }

  lemma FaultRows(l: Ledger, out: Outcome, id: nat, k: nat)
    requires LedgerInv(l) && !Ended(l.pc) && Caught(l.prog, l.pc, out, k)
    ensures var f := Advance(l, out, id); f.pc == FailTask(k) && f.rows == l.rows && f.prog == l.prog && f.wf == l.wf
    ensures l.rows.tasks != [] && l.rows.status == Running && |l.rows.tasks| == Before(l.prog, k) + 1
    ensures k < 4 && l.rows.tasks[|l.rows.tasks| - 1].kind == StageName(l.prog, k)
  {
    hide Effect;
  }

  lemma ExceptBlock(l: Ledger, k: nat)
    requires l.pc == FailTask(k) && (l.prog.Commit? || k != 2) && l.rows.tasks != []
    ensures var n := |l.rows.tasks| - 1;
      Advance(Advance(Advance(l, Ok, 0), Ok, 0), Ok, 0)
      == l.(pc := Broken(k),
            rows := l.rows.(status := Failed, log := l.rows.log + [WorkflowFailed],
                            tasks := l.rows.tasks[n := l.rows.tasks[n].(status := Failed)]))
  {
  }

  /** A failure in stage `k` of a commit, whatever it is (the LLM call, the memory row,
      the approval, a completion, a log append), and a bad exit in stage `k` of a demo
      other than the render: if the except block's own steps go through, the task of
      the stage is failed, then the workflow, its log closed by the failed entry; every
      other task and log entry stays, and the exception is raised again. */
  lemma FaultFailsTheWorkflow(l: Ledger, out: Outcome, id: nat, k: nat)
    requires LedgerInv(l) && !Ended(l.pc) && Caught(l.prog, l.pc, out, k) && (l.prog.Commit? || k != 2)
    ensures var end := AfterFault(l, out, id);
      var n := |l.rows.tasks| - 1;
      && end.pc == Broken(k) && end.rows.status == Failed && end.rows.log == l.rows.log + [WorkflowFailed]
      && n == (if l.prog.Demo? && l.prog.skipRender && k > 2 then k - 1 else k) && |end.rows.tasks| == n + 1
      && k < 4 && end.rows.tasks[n].kind == StageName(l.prog, k)
      && end.rows.tasks[n] == l.rows.tasks[n].(status := Failed)
      && end.rows.tasks[..n] == l.rows.tasks[..n]
      && end.rows.mem == l.rows.mem && end.rows.appr == l.rows.appr
  {
    FaultRows(l, out, id, k);
    ExceptBlock(Advance(l, out, id), k);
    hide LedgerInv, Caught, Effect, Next, StageName;
  }

  /** A bad exit of the MP4 render fails its task, and the run goes on with the next
      stage, its workflow and log untouched. */
  lemma RenderFaultGoesOn(l: Ledger, id: nat)
    requires LedgerInv(l) && l.prog.Demo? && l.pc == Body(2)
    ensures var end := Advance(Advance(l, Bad, id), Ok, id);
      var n := |l.rows.tasks| - 1;
      && end.pc == Create(3) && end.rows.status == Running && end.rows.log == l.rows.log
      && n == 2 && l.rows.tasks[n].kind == "render_mp4" && |end.rows.tasks| == 3
      && end.rows.tasks[n] == l.rows.tasks[n].(status := Failed) && end.rows.tasks[..n] == l.rows.tasks[..n]
  {
    FaultRows(l, Bad, id, 2);
  }

  /** A failure of the two indexing steps only ends the indexing. */
  lemma IndexingFaultGoesOn(l: Ledger, out: Outcome, id: nat)
    requires l.pc == Stamp || (l.pc == Upsert && out != Ok)
    ensures Advance(l, out, id) == l.(pc := Complete(2))
  {
  }

  lemma NobodyCatches(p: Prog, pc: Pc, out: Outcome)
    requires ValidPc(p, pc) && !Ended(pc) && !Tolerated(p, pc, out)
    requires forall k :: !Caught(p, pc, out, k)
    ensures Next(p, pc, out) == Stuck(pc)
  {
    assert !Caught(p, pc, out, StageOf(pc));
  }

  /** What nothing catches ends the handler there, with its rows as they are. */
  lemma UncaughtStops(l: Ledger, out: Outcome, id: nat)
    requires LedgerInv(l) && !Ended(l.pc) && !Tolerated(l.prog, l.pc, out)
    requires forall k :: !Caught(l.prog, l.pc, out, k)
    ensures var end := Advance(l, out, id); end.pc == Stuck(l.pc) && end.rows == l.rows && end.rows.status == Running
  {
    LiveIsRunning(l.prog, l.pc);
    NobodyCatches(l.prog, l.pc, out);
    hide Next, Caught, StageAt;
  }
}
