/** A handler run to its end on shared tables: the steps of Programs, each preceded
    by whatever the other coroutines do meanwhile. */
module Handlers {
  import opened Common
  import opened Programs
  import opened ProgramProofs
  import opened Tables
  import opened TablesProofs
  import Timing

  /** What a handler meets at its next atomic step: the tables as the others leave
      them, the next unused primary key, how the step ends, and the text it writes (a
      memory's content, the channels that accepted an approval). */
  datatype Fate = Fate(next: Db, serial: nat, out: Outcome, text: string)

  /** The database, its key sequence, and the fates still to come. */
  datatype World = World(db: Db, serial: nat, tape: seq<Fate>)

  function Undecided(a: Approval): Approval {
    a.(decision := None)
  }

  /** What the others may do: anything except touch the rows of workflow `w`; an operator may
      decide its approval. */
  ghost predicate Leaves(db: Db, db': Db, w: nat) {
    && Anchored(db')
    && w in db.wfs && w in db'.wfs && db'.wfs[w] == db.wfs[w]
    && (forall t | t in db.tasks && db.tasks[t].wf == w :: t in db'.tasks && db'.tasks[t] == db.tasks[t])
    && (forall t | t in db'.tasks && db'.tasks[t].wf == w :: t in db.tasks && db.tasks[t].wf == w)
    && (forall m | m in db.mems && db.mems[m].owner == w :: m in db'.mems && db'.mems[m] == db.mems[m])
    && (forall m | m in db'.mems && db'.mems[m].owner == w :: m in db.mems && db.mems[m].owner == w)
    && (forall a | a in db.apprs && db.apprs[a].wf == w ::
          a in db'.apprs && Undecided(db'.apprs[a]) == Undecided(db.apprs[a]))
    && (forall a | a in db'.apprs && db'.apprs[a].wf == w :: a in db.apprs && db.apprs[a].wf == w)
  }

  function Fated(tape: seq<Fate>): Fate {
    if tape == [] then Fate(EMPTY, 0, Ok, "") else tape[0]
  }

  /** The world when the handler is resumed. */
  function Met(x: World): World {
    if x.tape == [] then x else World(x.tape[0].next, x.tape[0].serial, x.tape[1..])
  }

  /** scalar_one finds no row. */
  predicate Missing(db: Db, f: Frame) {
    match f.pc
    case Complete(_) => f.tid !in db.tasks
    case FailTask(_) => f.tid !in db.tasks
    case Stamp => f.mem !in db.mems
    case Delivered => f.appr !in db.apprs
    case ReadLog(_) => f.wf !in db.wfs
    case ReadFail(_) => f.wf !in db.wfs
    case ReadEnd => f.wf !in db.wfs
    case WriteLog(_) => f.wf !in db.wfs
    case WriteFail(_) => f.wf !in db.wfs
    case WriteEnd => f.wf !in db.wfs
    case _ => false
  }

  function Actual(db: Db, f: Frame, out: Outcome): Outcome {
    if Missing(db, f) then Raise else out
  }

  predicate Inserts(pc: Pc) {
    pc.Create? || pc.Remember? || pc.Approve?
  }

  function One(x: World, f: Frame): (World, Frame) {
    var y := Met(x);
    var fate := Fated(x.tape);
    var out := Actual(y.db, f, fate.out);
    (World(StepDb(y.db, f, out, y.serial, fate.text),
           if Inserts(f.pc) && out == Ok then y.serial + 1 else y.serial, y.tape),
     StepFrame(y.db, f, out, y.serial, fate.text))
  }

  lemma OneIsValid(x: World, f: Frame)
    requires ValidPc(f.prog, f.pc) && !Ended(f.pc)
    ensures var g := One(x, f).1;
      && g.prog == f.prog && g.wf == f.wf && ValidPc(g.prog, g.pc)
      && Timing.Rank(g.prog, g.pc) < Timing.Rank(f.prog, f.pc)
  {
    Timing.RankFalls(f.prog, f.pc, Actual(Met(x).db, f, Fated(x.tape).out));
  }

  /** The whole run, from the program point of `f` to the handler's end. */
  function Drive(x: World, f: Frame): (World, Frame)
    requires ValidPc(f.prog, f.pc)
    decreases Timing.Rank(f.prog, f.pc)
  {
    if Ended(f.pc) then (x, f)
    else
      OneIsValid(x, f);
      Drive(One(x, f).0, One(x, f).1)
  }

  /** Running from `f` passes through `g`. */
  ghost predicate Follows(x: World, f: Frame, y: World, g: Frame) {
    && ValidPc(f.prog, f.pc) && ValidPc(g.prog, g.pc)
    && g.prog == f.prog && g.wf == f.wf
    && Drive(y, g) == Drive(x, f)
  }

  lemma OneFollows(x: World, f: Frame)
    requires ValidPc(f.prog, f.pc) && !Ended(f.pc)
    ensures Follows(x, f, One(x, f).0, One(x, f).1)
  {
    OneIsValid(x, f);
  }

  /** What this step relies on: the others left the handler's rows alone, and an
      insert gets a fresh key. */
  ghost predicate FairStep(x: World, f: Frame) {
    && (x.tape != [] ==> Leaves(x.db, x.tape[0].next, f.wf))
    && FreshFor(Met(x).db, f.pc, Met(x).serial)
  }

  /** Every step of the run is fair. */
  ghost predicate Fair(x: World, f: Frame)
    requires ValidPc(f.prog, f.pc)
    decreases Timing.Rank(f.prog, f.pc)
  {
    Ended(f.pc) || (FairStep(x, f) && (OneIsValid(x, f); Fair(One(x, f).0, One(x, f).1)))
  }

  /** The run as far as its tape goes. */
  function Walk(x: World, f: Frame): (World, Frame)
    requires ValidPc(f.prog, f.pc)
    decreases Timing.Rank(f.prog, f.pc)
  {
    if Ended(f.pc) || x.tape == [] then (x, f)
    else
      OneIsValid(x, f);
      Walk(One(x, f).0, One(x, f).1)
  }

  ghost predicate FairWalk(x: World, f: Frame)
    requires ValidPc(f.prog, f.pc)
    decreases Timing.Rank(f.prog, f.pc)
  {
    Ended(f.pc) || x.tape == [] || (FairStep(x, f) && (OneIsValid(x, f); FairWalk(One(x, f).0, One(x, f).1)))
  }

  /** Walking first changes neither where the run ends nor whether it is fair. */
  lemma {:induction false} WalkThenDrive(x: World, f: Frame)
    requires ValidPc(f.prog, f.pc)
    ensures var (y, g) := Walk(x, f);
      ValidPc(g.prog, g.pc) && Drive(y, g) == Drive(x, f) && (Fair(x, f) <==> FairWalk(x, f) && Fair(y, g))
    decreases Timing.Rank(f.prog, f.pc)
  {
    if !Ended(f.pc) && x.tape != [] {
      OneIsValid(x, f);
      WalkThenDrive(One(x, f).0, One(x, f).1);
    }
  }

  // --------------------------------------------------------------------------
  // What a run leaves behind
  // --------------------------------------------------------------------------

  lemma LeavesAgrees(db: Db, db': Db, w: nat, r: Rows)
    requires Leaves(db, db', w) && Agrees(db, w, r)
    ensures Agrees(db', w, r)
  {
    forall t | t in db'.tasks && db'.tasks[t].wf == w ensures t in r.tids {
      assert t in db.tasks && db.tasks[t].wf == w;
    }
    forall m | m in db'.mems && db'.mems[m].owner == w ensures r.mem == Some(m) {
      assert m in db.mems && db.mems[m].owner == w;
    }
    LeavesApproval(db, db', w, r);
  }

  lemma LeavesApproval(db: Db, db': Db, w: nat, r: Rows)
    requires Leaves(db, db', w) && Agrees(db, w, r)
    ensures ApprovalAgrees(db'.apprs, w, r.tids, r.appr)
  {
    forall a | a in db'.apprs && db'.apprs[a].wf == w ensures r.appr == Some(a) {
      assert a in db.apprs && db.apprs[a].wf == w;
    }
    if r.appr.Some? {
      assert Undecided(db'.apprs[r.appr.value]) == Undecided(db.apprs[r.appr.value]);
    }
  }

  /** The handler's hold on its rows, between two steps. */
  ghost predicate Holds(x: World, f: Frame, l: Ledger) {
    && LedgerInv(l) && Anchored(x.db)
    && l.prog == f.prog && l.pc == f.pc && l.wf == f.wf
    && Agrees(x.db, f.wf, l.rows) && FrameOk(f, l.rows)
  }

  lemma MetHolds(x: World, f: Frame, l: Ledger)
    requires Holds(x, f, l) && FairStep(x, f)
    ensures Holds(Met(x), f, l)
  {
    if x.tape != [] {
      LeavesAgrees(x.db, x.tape[0].next, f.wf, l.rows);
    }
  }

  lemma NothingMissing(x: World, f: Frame, l: Ledger)
    requires Holds(x, f, l) && !Ended(f.pc)
    ensures !Missing(x.db, f)
  {
    FitsIsReady(l);
    if f.pc.Complete? || f.pc.FailTask? {
      assert l.rows.tids[|l.rows.tids| - 1] in x.db.tasks;
    }
  }

  lemma OneHolds(x: World, f: Frame, l: Ledger)
    requires Holds(x, f, l) && !Ended(f.pc) && FairStep(x, f)
    ensures var y := Met(x);
      Holds(One(x, f).0, One(x, f).1, Advance(l, Fated(x.tape).out, y.serial))
  {
    var y := Met(x);
    var fate := Fated(x.tape);
    MetHolds(x, f, l);
    NothingMissing(y, f, l);
    StepHolds(y, f, l, fate.out, fate.text);
  }

  lemma StepHolds(y: World, f: Frame, l: Ledger, out: Outcome, text: string)
    requires Holds(y, f, l) && !Ended(f.pc) && FreshFor(y.db, f.pc, y.serial)
    ensures Holds(
      World(StepDb(y.db, f, out, y.serial, text), if Inserts(f.pc) && out == Ok then y.serial + 1 else y.serial, y.tape),
      StepFrame(y.db, f, out, y.serial, text), Advance(l, out, y.serial))
  {
    FitsIsReady(l);
    assert Owns(y.db, f, l);
    OwnStep(y.db, f, l, out, y.serial, text);
    AdvanceFits(l, out, y.serial);
    StepKeepsAnchors(y.db, f, l, out, y.serial, text);
    FramesKeep(y.db, f, out, y.serial, text);
  }

  lemma FramesKeep(db: Db, f: Frame, out: Outcome, id: nat, text: string)
    ensures var g := StepFrame(db, f, out, id, text);
      g.prog == f.prog && g.wf == f.wf && g.pc == Next(f.prog, f.pc, out)
  {
  }

  /** Whatever the others do between any two steps, and wherever steps raise, the
      handler ends, and then the tables hold for its workflow exactly a lawful set of
      rows, those of the program point where it ended. */
  lemma {:induction false} DriveHolds(x: World, f: Frame, l: Ledger) returns (end: Ledger)
    requires Holds(x, f, l) && Fair(x, f)
    ensures Holds(Drive(x, f).0, Drive(x, f).1, end) && Ended(end.pc) && end.prog == l.prog && end.wf == l.wf
    decreases Timing.Rank(f.prog, f.pc)
  {
    if Ended(f.pc) {
      end := l;
    } else {
      OneIsValid(x, f);
      OneHolds(x, f, l);
      end := DriveHolds(One(x, f).0, One(x, f).1, Advance(l, Fated(x.tape).out, Met(x).serial));
    }
  }

  /** A handler started on a fresh workflow row ends in one of three ways, and the
      rows say which: it returned and the workflow is completed; it failed the
      workflow and raised; or a step outside the guarded ones raised and the row is
      still running, for the reaper to find. */
  lemma RunLeavesLawfulRows(db: Db, p: Prog, w: nat, now: nat, tape: seq<Fate>) returns (r: Rows)
    requires Anchored(db) && w !in db.wfs
    requires Fair(World(InsertWorkflow(db, w, p, now), w + 1, tape), NewFrame(p, w))
    ensures var (y, g) := Drive(World(InsertWorkflow(db, w, p, now), w + 1, tape), NewFrame(p, w));
      && Agrees(y.db, w, r) && Lawful(p, w, r)
      && (g.pc.Returned? <==> r.status == Completed) && (g.pc.Broken? <==> r.status == Failed)
      && (g.pc.Stuck? <==> r.status == Running)
      && (g.pc.Returned? ==> r.appr == Some(g.appr))
  {
    var x := World(InsertWorkflow(db, w, p, now), w + 1, tape);
    BeginFits(p, w);
    InsertAgrees(db, w, p, now);
    var end := DriveHolds(x, NewFrame(p, w), Begin(p, w));
    LedgerIsLawful(end);
    EndingShows(end);
    r := end.rows;
  }

  lemma EndingShows(l: Ledger)
    requires LedgerInv(l) && Ended(l.pc)
    ensures l.pc.Returned? <==> l.rows.status == Completed
    ensures l.pc.Broken? <==> l.rows.status == Failed
    ensures l.pc.Stuck? <==> l.rows.status == Running
    ensures l.pc.Returned? ==> l.rows.appr.Some?
  {
    if l.pc.Stuck? {
      LiveIsRunning(l.prog, l.pc.from);
    }
  }
}
