/** The vector index agrees with the memory table, whatever the interleaving and
    whichever indexing attempts fail: over every run, with any number of processes. */
module RuntimeVectors {
  import opened Common
  import opened Programs
  import opened Tables
  import opened Runtime
  import opened RuntimeClaims
  import RuntimeAnswers
  import TablesProofs

  /** Memory row `m` is the one whose content entry `v` of the index holds. */
  predicate Backs(db: Db, m: nat, v: string) {
    && m in db.mems && db.mems[m].prog.Commit? && VectorId(db.mems[m].prog) == v
    && v in db.vectors && db.vectors[v] == db.mems[m].content
  }

  /** Every entry of the index holds the content of the memory row last upserted
      for its id, and every memory row with embedding_id set has that id in it. */
  ghost predicate IndexAgrees(db: Db, indexed: map<string, nat>) {
    && indexed.Keys == db.vectors.Keys
    && (forall v | v in indexed :: Backs(db, indexed[v], v))
    && (forall m | m in db.mems && db.mems[m].embedding.Some? ::
          && db.mems[m].prog.Commit? && db.mems[m].embedding.value == VectorId(db.mems[m].prog)
          && db.mems[m].embedding.value in db.vectors)
  }

  /** A handler between its memory insert and its stamp still names that row. */
  predicate Indexing(db: Db, f: Frame) {
    f.pc in {Upsert, Stamp} ==>
      && f.prog.Commit? && f.mem in db.mems
      && db.mems[f.mem].prog == f.prog && db.mems[f.mem].content == f.content
      && (f.pc == Stamp ==> VectorId(f.prog) in db.vectors)
  }

  ghost predicate VectorsOk(s: State) {
    && IndexAgrees(s.db, s.indexed)
    && (forall x | x in s.workers && s.workers[x].act.InPipe? :: Indexing(s.db, s.workers[x].act.frame))
  }

  /** Memory rows keep their subject and content, index entries keep existing. */
  ghost predicate MemoriesGrow(db: Db, db': Db) {
    && (forall m | m in db.mems ::
          m in db'.mems && db'.mems[m].prog == db.mems[m].prog && db'.mems[m].content == db.mems[m].content)
    && db.vectors.Keys <= db'.vectors.Keys
  }

  lemma StepGrows(db: Db, f: Frame, out: Outcome, id: nat, text: string)
    requires FreshFor(db, f.pc, id)
    ensures MemoriesGrow(db, StepDb(db, f, out, id, text))
  {
    TablesProofs.OneTable(db, f, id, text);
  }

  lemma OwnIndexing(db: Db, f: Frame, out: Outcome, id: nat, text: string)
    requires Indexing(db, f) && FreshFor(db, f.pc, id)
    ensures Indexing(StepDb(db, f, out, id, text), StepFrame(db, f, out, id, text))
  {
    if f.pc == Remember || f.pc == Upsert {
    } else {
      NotIndexingNext(f.prog, f.pc, out);
    }
  }

  lemma NotIndexingNext(p: Prog, pc: Pc, out: Outcome)
    requires pc != Remember && pc != Upsert
    ensures Next(p, pc, out) !in {Upsert, Stamp}
  {
  }

  lemma StepIndex(db: Db, indexed: map<string, nat>, f: Frame, out: Outcome, id: nat, text: string)
    requires IndexAgrees(db, indexed) && Indexing(db, f) && FreshFor(db, f.pc, id)
    ensures IndexAgrees(StepDb(db, f, out, id, text),
      if f.pc == Upsert && out == Ok then indexed[VectorId(f.prog) := f.mem] else indexed)
  {
    if out == Ok {
      if f.pc == Upsert || f.pc == Stamp || f.pc == Remember {
        ExecIndex(db, indexed, f, id, text);
      } else {
        TablesProofs.OneTable(db, f, id, text);
      }
    }
  }

  lemma ExecIndex(db: Db, indexed: map<string, nat>, f: Frame, id: nat, text: string)
    requires IndexAgrees(db, indexed) && Indexing(db, f) && FreshFor(db, f.pc, id)
    requires f.pc == Upsert || f.pc == Stamp || f.pc == Remember
    ensures IndexAgrees(Exec(db, f, id, text),
      if f.pc == Upsert then indexed[VectorId(f.prog) := f.mem] else indexed)
  {
  }

  lemma PipeIndex(cfg: Config, s: State, x: nat, f: Frame, win: nat, att: Option<nat>, out: Outcome, id: nat, text: string)
    requires x in s.workers && x in s.jobs.hands
    ensures var s' := PipeStep(cfg, s, x, f, win, att, out, id, text);
      && s'.db == StepDb(s.db, f, out, id, text)
      && s'.indexed == (if f.pc == Upsert && out == Ok then s.indexed[VectorId(f.prog) := f.mem] else s.indexed)
  {
  }

  lemma IndexingStays(db: Db, db': Db, f: Frame)
    requires Indexing(db, f) && MemoriesGrow(db, db')
    ensures Indexing(db', f)
  {
  }

  lemma PipeVectors(cfg: Config, s: State, x: nat, f: Frame, win: nat, att: Option<nat>, out: Outcome, id: nat, text: string)
    requires x in s.workers && s.workers[x].act == InPipe(f, win, att) && x in s.jobs.hands
    requires VectorsOk(s) && FreshFor(s.db, f.pc, id)
    ensures VectorsOk(PipeStep(cfg, s, x, f, win, att, out, id, text))
  {
    var s' := PipeStep(cfg, s, x, f, win, att, out, id, text);
    RuntimeAnswers.PipeWorkers(cfg, s, x, f, win, att, out, id, text);
    PipeIndex(cfg, s, x, f, win, att, out, id, text);
    StepIndex(s.db, s.indexed, f, out, id, text);
    OwnIndexing(s.db, f, out, id, text);
    StepGrows(s.db, f, out, id, text);
    forall y | y in s'.workers && s'.workers[y].act.InPipe? ensures Indexing(s'.db, s'.workers[y].act.frame) {
      if y != x {
        IndexingStays(s.db, s'.db, s.workers[y].act.frame);
      }
    }
  }

  lemma VectorsKept(cfg: Config, s: State, l: Label)
    requires Enabled(s, l) && VectorsOk(s)
    ensures VectorsOk(Step(cfg, s, l))
  {
    if l.Work? && s.workers[l.x].act.InPipe? {
      var InPipe(f, win, att) := s.workers[l.x].act;
      PipeVectors(cfg, s, l.x, f, win, att, l.out, l.id, l.text);
    } else {
      EarlyVectors(cfg, s, l);
    }
  }

  /** Steps outside a handler leave memories and index alone; a handler they start
      is at its entry. */
  ghost predicate NoIndexing(s: State, s': State) {
    && s'.db.mems == s.db.mems && s'.db.vectors == s.db.vectors && s'.indexed == s.indexed
    && (forall x | x in s'.workers && s'.workers[x].act.InPipe? ::
          || (x in s.workers && s'.workers[x].act == s.workers[x].act)
          || s'.workers[x].act.frame.pc !in {Upsert, Stamp})
  }

  lemma OutsideVectors(cfg: Config, s: State, l: Label)
    requires Enabled(s, l) && !l.Work?
    ensures NoIndexing(s, Step(cfg, s, l))
  {
  }

  lemma EarlyVectors(cfg: Config, s: State, l: Label)
    requires Enabled(s, l) && VectorsOk(s) && !(l.Work? && s.workers[l.x].act.InPipe?)
    ensures VectorsOk(Step(cfg, s, l))
  {
    if l.Work? {
      WorkEarly(cfg, s, l);
    } else {
      OutsideVectors(cfg, s, l);
    }
    assert NoIndexing(s, Step(cfg, s, l));
    QuietVectors(s, Step(cfg, s, l));
  }

  lemma QuietVectors(s: State, s': State)
    requires VectorsOk(s) && NoIndexing(s, s')
    ensures VectorsOk(s')
  {
  }
}
