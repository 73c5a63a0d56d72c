/** The claim protocol seen from the runtime: in every run, with any number of
    processes, crashes, expiries and late attaches. */
module ClaimTheorems {
  import opened Common
  import opened Programs
  import opened Tables
  import opened Runtime
  import opened RuntimeClaims
  import opened RuntimeOwners
  import opened RuntimeAnswers
  import opened RuntimeVectors
  import Decimal
  import Dedup
  import RedisQueue
  import RedisQueueProofs
  import RuntimeRows

  ghost predicate Good(cfg: Config, s: State) {
    Owners(cfg, s) && Headed(s) && Sound(s) && VectorsOk(s)
  }

  lemma GoodKept(cfg: Config, s: State, l: Label)
    requires Enabled(s, l) && Good(cfg, s)
    ensures Good(cfg, Step(cfg, s, l))
  {
    OwnersKept(cfg, s, l);
    HeadedKept(cfg, s, l);
    SoundKept(cfg, s, l);
    VectorsKept(cfg, s, l);
  }

  lemma {:induction false} RunIsGood(cfg: Config, s: State, ls: seq<Label>)
    requires Possible(cfg, s, ls) && Good(cfg, s)
    ensures Good(cfg, Run(cfg, s, ls))
    decreases |ls|
  {
    if ls != [] {
      GoodKept(cfg, s, ls[0]);
      RunIsGood(cfg, Step(cfg, s, ls[0]), ls[1..]);
    }
  }

  lemma ReachableIsGood(cfg: Config, ls: seq<Label>)
    requires Possible(cfg, INIT, ls)
    ensures Good(cfg, Run(cfg, INIT, ls))
  {
    InitOwners(cfg);
    RunIsGood(cfg, INIT, ls);
  }

  // --------------------------------------------------------------------------
  // How many rows one pair can get
  // --------------------------------------------------------------------------

  /** The wins of `k` in the window, write `since` or later, as a set of indices. */
  ghost function WinSet(touches: seq<Dedup.Touch>, since: nat, k: Key, from: nat, width: nat): set<nat> {
    set i: nat | since <= i < |touches| && touches[i].win && touches[i].key == k && from <= touches[i].at <= from + width
  }

  lemma {:induction false} WinSetSize(touches: seq<Dedup.Touch>, since: nat, k: Key, from: nat, width: nat)
    ensures |WinSet(touches, since, k, from, width)| == Dedup.WinsIn(touches, since, k, from, width)
  {
    if touches == [] {
      assert WinSet(touches, since, k, from, width) == {};
    } else {
      var n := |touches| - 1;
      WinSetSize(touches[..n], since, k, from, width);
      WinSetStep(touches, since, k, from, width);
      hide WinSet;
    }
  }

  lemma WinSetStep(touches: seq<Dedup.Touch>, since: nat, k: Key, from: nat, width: nat)
    requires touches != []
    ensures var n := |touches| - 1;
      var t := touches[n];
      var rest := WinSet(touches[..n], since, k, from, width);
      && n !in rest
      && WinSet(touches, since, k, from, width)
         == rest + (if since <= n && t.win && t.key == k && from <= t.at <= from + width then {n as nat} else {})
  {
  }

  lemma {:induction false} Pigeonhole(ws: set<nat>, holes: set<nat>, at: map<nat, nat>)
    requires forall w | w in ws :: w in at && at[w] in holes
    requires forall v, w | v in ws && w in ws && v != w :: at[v] != at[w]
    ensures |ws| <= |holes|
  {
    if ws != {} {
      var w :| w in ws;
      Pigeonhole(ws - {w}, holes - {at[w]}, at);
    }
  }

  /** The first write of `k` after its last release. */
  function Since(s: State, k: Key): nat {
    Dedup.Since(s.claims.released, k)
  }

  /** Workflow row `w` was made for `k` by a claim won in the window, since the last
      release of `k`. */
  predicate FromWindow(s: State, w: nat, k: Key, from: nat, width: nat) {
    && w in s.db.wfs && w in s.ledgers && HeadIs(s.db.wfs[w].log, Commit(k))
    && s.ledgers[w].win.Some? && Since(s, k) <= s.ledgers[w].win.value < |s.claims.touches|
    && from <= s.claims.touches[s.ledgers[w].win.value].at <= from + width
  }

  /** Any closed window of length `width` gives at most floor(width / ttl) + 1
      workflow rows for one pair since its last release, and a window shorter than
      the ttl at most one. */
  lemma RowsPerWindow(cfg: Config, ls: seq<Label>, k: Key, from: nat, width: nat, ws: set<nat>)
    requires cfg.ttl > 0 && Possible(cfg, INIT, ls)
    requires var s := Run(cfg, INIT, ls); forall w | w in ws :: FromWindow(s, w, k, from, width)
    ensures |ws| <= width / cfg.ttl + 1
    ensures width < cfg.ttl ==> |ws| <= 1
  {
    ReachableIsGood(cfg, ls);
    RowsInWindow(cfg, Run(cfg, INIT, ls), k, from, width, ws);
  }

  lemma RowsInWindow(cfg: Config, s: State, k: Key, from: nat, width: nat, ws: set<nat>)
    requires cfg.ttl > 0 && Good(cfg, s)
    requires forall w | w in ws :: FromWindow(s, w, k, from, width)
    ensures |ws| <= width / cfg.ttl + 1
    ensures width < cfg.ttl ==> |ws| <= 1
  {
    hide Dedup.WinsIn, Dedup.Inv, FromWindow;
    WindowRows(cfg, s, k, from, width, ws);
    Dedup.WindowBound(s.claims, k, from, width, cfg.ttl);
  }

  lemma WindowRows(cfg: Config, s: State, k: Key, from: nat, width: nat, ws: set<nat>)
    requires Good(cfg, s) && forall w | w in ws :: FromWindow(s, w, k, from, width)
    ensures |ws| <= Dedup.WinsIn(s.claims.touches, Since(s, k), k, from, width)
  {
    hide Dedup.WinsIn, Since, RedisQueue.Inv, Dedup.Inv, HandsMatch, VectorsOk, Sound;
    var at := map w | w in ws :: s.ledgers[w].win.value;
    forall w | w in ws ensures at[w] in WinSet(s.claims.touches, Since(s, k), k, from, width) {
      WindowRow(cfg, s, k, from, width, w);
    }
    Pigeonhole(ws, WinSet(s.claims.touches, Since(s, k), k, from, width), at);
    WinSetSize(s.claims.touches, Since(s, k), k, from, width);
  }

  lemma WindowRow(cfg: Config, s: State, k: Key, from: nat, width: nat, w: nat)
    requires Good(cfg, s) && FromWindow(s, w, k, from, width)
    ensures s.ledgers[w].win.value in WinSet(s.claims.touches, Since(s, k), k, from, width)
  {
    assert EntryOk(s, w);
  }

  // --------------------------------------------------------------------------
  // Mutual exclusion
  // --------------------------------------------------------------------------

  /** Worker `x` has claimed `k` and not finished with it. */
  predicate InFlight(s: State, x: nat, k: Key) {
    && x in s.workers
    && match s.workers[x].act
       case Won(k', _) => k' == k
       case InPipe(f, _, _) => f.prog == Commit(k)
       case _ => false
  }

  function WonAt(s: State, x: nat): nat
    requires x in s.workers
  {
    match s.workers[x].act
    case Won(_, win) => win
    case InPipe(_, win, _) => win
    case _ => 0
  }

  /** So far worker `x` took less than `ttl` from its claim to its attach and less
      than `ttl` since. */
  predicate OnTime(cfg: Config, s: State, x: nat)
    requires x in s.workers
  {
    var ts := s.claims.touches;
    match s.workers[x].act
    case Won(_, win) => win < |ts| && s.claims.now < ts[win].at + cfg.ttl
    case InPipe(_, win, None) => win < |ts| && s.claims.now < ts[win].at + cfg.ttl
    case InPipe(_, win, Some(a)) =>
      win < |ts| && a < |ts| && ts[a].at < ts[win].at + cfg.ttl && s.claims.now < ts[a].at + cfg.ttl
    case _ => true
  }

  /** A handler that is on time still holds the newest win of its pair. */
  lemma OnTimeIsLast(cfg: Config, s: State, x: nat, k: Key, j: nat)
    requires Owners(cfg, s) && InFlight(s, x, k) && OnTime(cfg, s, x) && Since(s, k) <= WonAt(s, x)
    requires j < |s.claims.touches| && s.claims.touches[j].win && s.claims.touches[j].key == k
    ensures j <= WonAt(s, x)
  {
    hide RedisQueue.Inv, Dedup.Inv;
    assert WorkerOk(s, x);
    var ts := s.claims.touches;
    var i := WonAt(s, x);
    assert IsWin(ts, k, i) by {
      if s.workers[x].act.InPipe? {
        assert EntryOk(s, s.workers[x].act.frame.wf);
      }
    }
    LateWin(cfg, s, i, j);
    match s.workers[x].act
    case InPipe(_, _, Some(a)) => LateWin(cfg, s, a, j);
    case _ =>
  }

  /** A win after write `i` of the same pair comes a full ttl later. */
  lemma LateWin(cfg: Config, s: State, i: nat, j: nat)
    requires Dedup.Inv(s.claims, cfg.ttl) && i < |s.claims.touches| && j < |s.claims.touches|
    ensures var ts := s.claims.touches;
      && ts[j].at <= s.claims.now
      && (i < j && ts[j].win && ts[i].key == ts[j].key && Since(s, ts[j].key) <= i ==>
            ts[i].at + cfg.ttl <= ts[j].at)
      && (j < i ==> ts[j].at <= ts[i].at)
  {
  }

  /** Mutual exclusion: if acquire-to-attach and attach-to-end each stay below the
      ttl, no two handlers that won one pair since its last release are ever in flight
      together. */
  lemma MutualExclusion(cfg: Config, ls: seq<Label>, x: nat, y: nat, k: Key)
    requires Possible(cfg, INIT, ls)
    requires var s := Run(cfg, INIT, ls);
      && InFlight(s, x, k) && InFlight(s, y, k) && Since(s, k) <= WonAt(s, x) && Since(s, k) <= WonAt(s, y)
      && OnTime(cfg, s, x) && OnTime(cfg, s, y)
    ensures x == y
  {
    ReachableIsGood(cfg, ls);
    var s := Run(cfg, INIT, ls);
    InFlightWins(cfg, s, x, k);
    InFlightWins(cfg, s, y, k);
    OnTimeIsLast(cfg, s, x, k, WonAt(s, y));
    OnTimeIsLast(cfg, s, y, k, WonAt(s, x));
    if x != y {
      WinsDiffer(cfg, s, x, y, k);
    }
  }

  lemma InFlightWins(cfg: Config, s: State, x: nat, k: Key)
    requires Owners(cfg, s) && InFlight(s, x, k)
    ensures IsWin(s.claims.touches, k, WonAt(s, x))
  {
    assert WorkerOk(s, x);
    if s.workers[x].act.InPipe? {
      assert EntryOk(s, s.workers[x].act.frame.wf);
    }
  }

  /** Two handlers never hold the same win. */
  lemma WinsDiffer(cfg: Config, s: State, x: nat, y: nat, k: Key)
    requires Owners(cfg, s) && InFlight(s, x, k) && InFlight(s, y, k) && x != y
    ensures WonAt(s, x) != WonAt(s, y)
  {
    assert WorkerOk(s, x) && WorkerOk(s, y);
    RuntimeRows.OwnersApart(cfg, s);
  }

  // --------------------------------------------------------------------------
  // What a duplicate meets
  // --------------------------------------------------------------------------

  lemma {:induction false} RunIsCurrent(cfg: Config, s: State, ls: seq<Label>)
    requires Possible(cfg, s, ls) && Dedup.Current(s.claims, cfg.ttl)
    ensures Dedup.Current(Run(cfg, s, ls).claims, cfg.ttl)
    decreases |ls|
  {
    if ls != [] {
      hide Dedup.Current, Dedup.Apply;
      var c := StepClaims(cfg, s, ls[0]);
      Dedup.ApplyKeepsCurrent(s.claims, c, cfg.ttl);
      RunIsCurrent(cfg, Step(cfg, s, ls[0]), ls[1..]);
    }
  }

  lemma ReachableIsCurrent(cfg: Config, ls: seq<Label>)
    requires Possible(cfg, INIT, ls)
    ensures Dedup.Current(Run(cfg, INIT, ls).claims, cfg.ttl) && Dedup.Inv(Run(cfg, INIT, ls).claims, cfg.ttl)
  {
    RunIsCurrent(cfg, INIT, ls);
    ReachableIsGood(cfg, ls);
  }

  /** Some write of `k`, a win or an attach, is less than a ttl old. */
  ghost predicate Touched(cfg: Config, s: State, k: Key) {
    exists i: nat :: Dedup.Young(s.claims, k, i, cfg.ttl)
  }

  /** Worker `l.x` serves SET NX for a job of the pair `k`. */
  predicate Calls(s: State, l: Label, k: Key) {
    && l.Work? && l.out == Ok && l.x in s.workers && s.workers[l.x].act == Dispatch
    && l.x in s.jobs.hands && Handler(s.jobs.hands[l.x]) == Some(Commit(k))
  }

  /** In every run, a call for a pair is skipped if and only if some win or attach of
      the pair since its last release is less than a ttl old; otherwise it wins the claim
      and runs, whatever workflows of the pair there were and however they ended. */
  lemma CallIsSkipped(cfg: Config, ls: seq<Label>, l: Label, k: Key)
    requires Possible(cfg, INIT, ls)
    requires var s := Run(cfg, INIT, ls); Enabled(s, l) && Calls(s, l, k)
    ensures var s := Run(cfg, INIT, ls);
      var s' := Step(cfg, s, l);
      && l.x in s'.workers
      && (s'.workers[l.x].act == Missed(k) <==> Touched(cfg, s, k))
      && (s'.workers[l.x].act == Won(k, |s.claims.touches|) <==> !Touched(cfg, s, k))
  {
    ReachableIsCurrent(cfg, ls);
    var s := Run(cfg, INIT, ls);
    Dedup.GetIsNewestWrite(s.claims, k, cfg.ttl);
    CallMeets(cfg, s, l.x, l.id, k);
  }

  lemma CallMeets(cfg: Config, s: State, x: nat, id: nat, k: Key)
    requires x in s.workers && x in s.jobs.hands && Handler(s.jobs.hands[x]) == Some(Commit(k))
    ensures var s' := DispatchStep(cfg, s, x, Ok, id);
      && x in s'.workers && s'.db == s.db
      && s'.workers[x].act == if Dedup.Live(s.claims, k) then Missed(k) else Won(k, |s.claims.touches|)
  {
  }

  /** Whatever became of a workflow, a failed one included, calls for its pair are
      skipped for a full ttl after its claim was won: no pipeline step gives the
      claim back. */
  lemma EndedStillBlocks(cfg: Config, ls: seq<Label>, w: nat, k: Key, l: Label)
    requires Possible(cfg, INIT, ls)
    requires var s := Run(cfg, INIT, ls);
      && w in s.ledgers && s.ledgers[w].led.prog == Commit(k)
      && s.ledgers[w].win.Some? && Since(s, k) <= s.ledgers[w].win.value < |s.claims.touches|
      && s.claims.now < s.claims.touches[s.ledgers[w].win.value].at + cfg.ttl
      && Enabled(s, l) && Calls(s, l, k)
    ensures Step(cfg, Run(cfg, INIT, ls), l).workers[l.x].act == Missed(k)
  {
    ReachableIsGood(cfg, ls);
    EntryIsTouched(cfg, Run(cfg, INIT, ls), w, k);
    CallIsSkipped(cfg, ls, l, k);
  }

  lemma EntryIsTouched(cfg: Config, s: State, w: nat, k: Key)
    requires Good(cfg, s) && w in s.ledgers && s.ledgers[w].led.prog == Commit(k)
    requires s.ledgers[w].win.Some? && Since(s, k) <= s.ledgers[w].win.value < |s.claims.touches|
    requires s.claims.now < s.claims.touches[s.ledgers[w].win.value].at + cfg.ttl
    ensures Touched(cfg, s, k)
  {
    assert EntryOk(s, w);
    assert Dedup.Young(s.claims, k, s.ledgers[w].win.value, cfg.ttl);
  }

  /** Write `i` is the attach of workflow `w`, the newest write of the pair `k`, and
      less than a ttl old. */
  predicate AttachedLast(cfg: Config, s: State, k: Key, w: nat, i: nat) {
    && Dedup.IsNewest(s.claims, k, i) && Dedup.Young(s.claims, k, i, cfg.ttl)
    && s.claims.touches[i].value == Decimal.Show(w)
  }

  /** Write `i` is a win, the newest write of the pair `k`, and less than a ttl old. */
  predicate WonLast(cfg: Config, s: State, k: Key, i: nat) {
    && Dedup.IsNewest(s.claims, k, i) && Dedup.Young(s.claims, k, i, cfg.ttl)
    && s.claims.touches[i].win
  }

  /** In every run, the answer to a skipped call for a pair names workflow `w` if and
      only if, when the claim is read, the newest write of the pair since its last
      release is the attach of `w` and is less than a ttl old; so a late attach makes
      it name its own workflow, even over a newer win. It says "in flight" if and
      only if the newest write is a win less than a ttl old. */
  lemma SkipNamesNewestAttach(cfg: Config, ls: seq<Label>, l: Label, k: Key)
    requires Possible(cfg, INIT, ls)
    requires var s := Run(cfg, INIT, ls);
      && Enabled(s, l) && l.Work? && l.out == Ok && s.workers[l.x].act == Missed(k)
    ensures var s := Run(cfg, INIT, ls);
      var a := SkipAnswer(k, Dedup.Get(s.claims, k));
      && Step(cfg, s, l).answers == s.answers + [a]
      && (forall w: nat :: a.workflow == Some(w) <==> exists i: nat :: AttachedLast(cfg, s, k, w, i))
      && (a.inFlight <==> exists i: nat :: WonLast(cfg, s, k, i))
  {
    ReachableIsCurrent(cfg, ls);
    WritesAreWorded(cfg, INIT, ls);
    SkipReads(cfg, Run(cfg, INIT, ls), k);
  }

  /** Every write says PENDING when it is a win, and a workflow id when it is an
      attach. */
  ghost predicate Worded(s: State) {
    forall i | 0 <= i < |s.claims.touches| ::
      if s.claims.touches[i].win then s.claims.touches[i].value == Dedup.PENDING
      else exists w: nat :: s.claims.touches[i].value == Decimal.Show(w)
  }

  lemma {:induction false} WritesAreWorded(cfg: Config, s: State, ls: seq<Label>)
    requires Possible(cfg, s, ls) && Worded(s)
    ensures Worded(Run(cfg, s, ls))
    decreases |ls|
  {
    if ls != [] {
      var c := StepClaims(cfg, s, ls[0]);
      CommandIsWorded(s, Step(cfg, s, ls[0]), c, cfg.ttl);
      WritesAreWorded(cfg, Step(cfg, s, ls[0]), ls[1..]);
    }
  }

  lemma CommandIsWorded(s: State, s': State, c: Dedup.Cmd, ttl: nat)
    requires Worded(s) && s'.claims in {s.claims, Dedup.Apply(s.claims, c, ttl)}
    requires c.Attach? ==> exists w: nat :: c.value == Decimal.Show(w)
    ensures Worded(s')
  {
  }

  lemma SkipReads(cfg: Config, s: State, k: Key)
    requires Dedup.Inv(s.claims, cfg.ttl) && Dedup.Current(s.claims, cfg.ttl) && Worded(s)
    ensures var a := SkipAnswer(k, Dedup.Get(s.claims, k));
      && (forall w: nat :: a.workflow == Some(w) <==> exists i: nat :: AttachedLast(cfg, s, k, w, i))
      && (a.inFlight <==> exists i: nat :: WonLast(cfg, s, k, i))
  {
    hide Dedup.Inv, Dedup.Current, Dedup.Get, Dedup.IsNewest, Decimal.Show, Decimal.IsDigits, Decimal.Parse;
    Dedup.GetIsNewestWrite(s.claims, k, cfg.ttl);
    var v := Dedup.Get(s.claims, k);
    var a := SkipAnswer(k, v);
    PendingIsNoNumber();
    forall w: nat ensures a.workflow == Some(w) <==> exists i: nat :: AttachedLast(cfg, s, k, w, i) {
      Decimal.RoundTrip(w);
      if a.workflow == Some(w) {
        var i: nat :| Dedup.IsNewest(s.claims, k, i) && Dedup.Young(s.claims, k, i, cfg.ttl)
          && s.claims.touches[i].value == v.value;
        var u: nat :| v.value == Decimal.Show(u);
        Decimal.RoundTrip(u);
        assert AttachedLast(cfg, s, k, w, i);
      }
      if i: nat :| AttachedLast(cfg, s, k, w, i) {
        assert v == Some(Decimal.Show(w));
      }
    }
    SkipInFlight(cfg, s, k);
  }

  lemma SkipInFlight(cfg: Config, s: State, k: Key)
    requires Dedup.Inv(s.claims, cfg.ttl) && Dedup.Current(s.claims, cfg.ttl) && Worded(s)
    ensures SkipAnswer(k, Dedup.Get(s.claims, k)).inFlight <==> exists i: nat :: WonLast(cfg, s, k, i)
  {
    hide Dedup.Inv, Dedup.Current, Dedup.Get, Dedup.IsNewest, Decimal.Show, Decimal.IsDigits, Decimal.Parse;
    Dedup.GetIsNewestWrite(s.claims, k, cfg.ttl);
    PendingIsNoNumber();
    var v := Dedup.Get(s.claims, k);
    if v == Some(Dedup.PENDING) {
      var i: nat :| Dedup.IsNewest(s.claims, k, i) && Dedup.Young(s.claims, k, i, cfg.ttl)
        && s.claims.touches[i].value == Dedup.PENDING;
      if !s.claims.touches[i].win {
        var w: nat :| s.claims.touches[i].value == Decimal.Show(w);
        Decimal.RoundTrip(w);
      }
      assert WonLast(cfg, s, k, i);
    }
    if i: nat :| WonLast(cfg, s, k, i) {
      assert v == Some(Dedup.PENDING);
    }
  }

  /** Skip answers are sound in every run. */
  lemma AnswersAreSound(cfg: Config, ls: seq<Label>, i: nat)
    requires Possible(cfg, INIT, ls) && i < |Run(cfg, INIT, ls).answers|
    ensures var a := Run(cfg, INIT, ls).answers[i];
      a.workflow.Some? ==> RowFor(Run(cfg, INIT, ls).db, a.workflow.value, a.key)
  {
    ReachableIsGood(cfg, ls);
  }

  /** The vector index agrees with the memory table in every run. */
  lemma VectorsAgree(cfg: Config, ls: seq<Label>)
    requires Possible(cfg, INIT, ls)
    ensures var s := Run(cfg, INIT, ls);
      && s.db.vectors.Keys == s.indexed.Keys
      && (forall v | v in s.db.vectors :: s.indexed[v] in s.db.mems
            && s.db.vectors[v] == s.db.mems[s.indexed[v]].content
            && s.db.mems[s.indexed[v]].prog.Commit? && v == "commit:" + s.db.mems[s.indexed[v]].prog.key.sha)
      && (forall m | m in s.db.mems && s.db.mems[m].embedding.Some? ::
            && s.db.mems[m].prog.Commit? && s.db.mems[m].embedding.value == "commit:" + s.db.mems[m].prog.key.sha
            && s.db.mems[m].embedding.value in s.db.vectors)
  {
    ReachableIsGood(cfg, ls);
  }

  // --------------------------------------------------------------------------
  // Jobs
  // --------------------------------------------------------------------------

  /** Job conservation in every run, and each job makes at most one workflow row. */
  lemma JobsAreConserved(cfg: Config, ls: seq<Label>)
    requires Possible(cfg, INIT, ls)
    ensures var s := Run(cfg, INIT, ls);
      && RedisQueue.Inv(s.jobs)
      && (forall v, w | v in s.ledgers && w in s.ledgers && v != w :: s.ledgers[v].job != s.ledgers[w].job)
      && (forall w | w in s.ledgers :: s.ledgers[w].job in s.jobs.where
            && !s.jobs.where[s.ledgers[w].job].InHigh? && !s.jobs.where[s.ledgers[w].job].InNormal?)
  {
    hide RedisQueue.Inv, Dedup.Inv, HandsMatch, VectorsOk, Headed, Sound, WorkerOk;
    ReachableIsGood(cfg, ls);
    var s := Run(cfg, INIT, ls);
    forall w | w in s.ledgers
      ensures s.ledgers[w].job in s.jobs.where
      ensures !s.jobs.where[s.ledgers[w].job].InHigh? && !s.jobs.where[s.ledgers[w].job].InNormal?
    {
      assert EntryOk(s, w);
    }
  }

  /** No run takes a job backwards: none leaves the dead-letter lane, the finished or
      the lost, and one that a worker holds never goes back into a lane, so none is
      delivered twice. */
  lemma JobsOnlyMoveForward(cfg: Config, before: seq<Label>, after: seq<Label>)
    requires Possible(cfg, INIT, before) && Possible(cfg, Run(cfg, INIT, before), after)
    ensures var s := Run(cfg, INIT, before); RedisQueue.Forward(s.jobs, Run(cfg, s, after).jobs)
  {
    ReachableIsGood(cfg, before);
    JobsForward(cfg, Run(cfg, INIT, before), after);
  }

  lemma {:induction false} JobsForward(cfg: Config, s: State, ls: seq<Label>)
    requires Possible(cfg, s, ls) && Good(cfg, s)
    ensures RedisQueue.Forward(s.jobs, Run(cfg, s, ls).jobs)
    decreases |ls|
  {
    if ls != [] {
      JobStepForward(cfg, s, ls[0]);
      GoodKept(cfg, s, ls[0]);
      JobsForward(cfg, Step(cfg, s, ls[0]), ls[1..]);
    }
  }

  lemma JobStepForward(cfg: Config, s: State, l: Label)
    requires Enabled(s, l) && Good(cfg, s)
    ensures RedisQueue.Forward(s.jobs, Step(cfg, s, l).jobs)
  {
    var c := StepJobs(cfg, s, l);
    RedisQueueProofs.ApplyKeepsInv(s.jobs, c);
  }

  /** In any run, a job is lost only by a crash, by a BLPOP whose reply is lost, or by
      a failed push onto the dead-letter lane; a graceful stop loses nothing, its
      workers leave only when idle. */
  lemma LossHasACause(cfg: Config, ls: seq<Label>, l: Label, id: nat)
    requires Possible(cfg, INIT, ls)
    requires var s := Run(cfg, INIT, ls);
      && Enabled(s, l) && id in s.jobs.where && !s.jobs.where[id].Lost?
      && id in Step(cfg, s, l).jobs.where && Step(cfg, s, l).jobs.where[id].Lost?
    ensures l.Kill? || l.FetchLost?
      || (l.Work? && l.out != Ok && l.x in Run(cfg, INIT, ls).workers && Run(cfg, INIT, ls).workers[l.x].act == Pushing)
  {
    ReachableIsGood(cfg, ls);
    StepLoss(cfg, Run(cfg, INIT, ls), l, id);
  }

  lemma StepLoss(cfg: Config, s: State, l: Label, id: nat)
    requires Enabled(s, l) && Good(cfg, s) && id in s.jobs.where
    requires !s.jobs.where[id].Lost? && id in Step(cfg, s, l).jobs.where && Step(cfg, s, l).jobs.where[id].Lost?
    ensures l.Kill? || l.FetchLost? || (l.Work? && l.out != Ok && s.workers[l.x].act == Pushing)
  {
    hide Step, Enabled, RedisQueue.Apply;
    var c := StepJobs(cfg, s, l);
    CommandLoss(s.jobs, c, id);
  }

  lemma CommandLoss(st: RedisQueue.Store, c: RedisQueue.Cmd, id: nat)
    requires RedisQueue.Enabled(st, c) && id in st.where && !st.where[id].Lost?
    requires id in RedisQueue.Apply(st, c).where && RedisQueue.Apply(st, c).where[id].Lost?
    ensures (c.Crash? && c.workers != {}) || c.PopLost? || c.FailLost?
  {
  }
}
