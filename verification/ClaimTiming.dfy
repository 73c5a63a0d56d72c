/** Mutual exclusion from bounds on durations: the time a worker spends on its claim,
    read off the ticks of a run, and the retry loop's bound on the part spent in LLM
    calls. */
module ClaimTiming {
  import opened Common
  import opened Programs
  import opened Tables
  import opened Runtime
  import opened RuntimeClaims
  import opened RuntimeOwners
  import opened ClaimTheorems
  import opened Interference
  import Dedup
  import LlmCall
  import RedisQueue
  import Timing

  /** The seconds a worker has spent on its claim: from acquire to attach, at each of
      the two LLM steps, and at every other step since the attach. */
  datatype Spell = Spell(opening: nat, first: nat, second: nat, other: nat)

  const NONE := Spell(0, 0, 0, 0)

  /** Worker `x` has won a claim and not finished with it. */
  predicate Holding(s: State, x: nat) {
    x in s.workers
    && (s.workers[x].act.Won? || (s.workers[x].act.InPipe? && s.workers[x].act.frame.prog.Commit?))
  }

  /** `d` seconds at what the worker is doing. */
  function Spend(sp: Spell, act: Act, d: nat): Spell {
    match act
    case InPipe(f, _, Some(_)) =>
      if f.pc == Body(0) then sp.(first := sp.first + d)
      else if f.pc == Body(1) then sp.(second := sp.second + d)
      else sp.(other := sp.other + d)
    case _ => sp.(opening := sp.opening + d)
  }

  function Clock(sp: Spell, s: State, l: Label, s': State, x: nat): Spell {
    if !Holding(s, x) || !Holding(s', x) then NONE
    else if l.Tick? then Spend(sp, s.workers[x].act, l.seconds)
    else sp
  }

  /** The spell of worker `x` after a run that it entered with `sp`. */
  ghost function Spent(cfg: Config, s: State, ls: seq<Label>, x: nat, sp: Spell): Spell
    requires Possible(cfg, s, ls)
    decreases |ls|
  {
    if ls == [] then sp
    else Spent(cfg, Step(cfg, s, ls[0]), ls[1..], x, Clock(sp, s, ls[0], Step(cfg, s, ls[0]), x))
  }

  /** The spell measures the server's clock: from the win to the attach, and from the
      attach to now. */
  predicate Measures(s: State, x: nat, sp: Spell) {
    var ts := s.claims.touches;
    if !Holding(s, x) then sp == NONE
    else match s.workers[x].act
      case Won(_, win) =>
        win < |ts| && sp.(opening := 0) == NONE && s.claims.now == ts[win].at + sp.opening
      case InPipe(_, win, None) =>
        win < |ts| && sp.(opening := 0) == NONE && s.claims.now == ts[win].at + sp.opening
      case InPipe(_, win, Some(a)) =>
        && win < |ts| && a < |ts| && ts[a].at == ts[win].at + sp.opening
        && s.claims.now == ts[a].at + sp.first + sp.second + sp.other
      case _ => true
  }

  lemma TickMeasures(cfg: Config, s: State, d: nat, x: nat, sp: Spell)
    requires Measures(s, x, sp)
    ensures var s' := Step(cfg, s, Tick(d)); Measures(s', x, Clock(sp, s, Tick(d), s', x))
  {
  }

  lemma WonMeasures(s: State, x: nat, k: Key, win: nat, out: Outcome, id: nat, sp: Spell)
    requires Measures(s, x, sp) && x in s.workers && s.workers[x].act == Won(k, win) && x in s.jobs.hands
    ensures var s' := WonStep(s, x, k, win, out, id);
      Measures(s', x, if Holding(s', x) then sp else NONE)
  {
  }

  lemma PipeMeasures(cfg: Config, s: State, x: nat, out: Outcome, id: nat, text: string, sp: Spell)
    requires Measures(s, x, sp) && x in s.workers && s.workers[x].act.InPipe? && x in s.jobs.hands
    requires WorkerOk(s, x) && Holding(s, x)
    ensures var InPipe(f, win, att) := s.workers[x].act;
      var s' := PipeStep(cfg, s, x, f, win, att, out, id, text);
      Measures(s', x, if Holding(s', x) then sp else NONE)
  {
    var InPipe(f, win, att) := s.workers[x].act;
    PipeClock(cfg, s, x, f, win, att, out, id, text);
  }

  lemma PipeClock(cfg: Config, s: State, x: nat, f: Frame, win: nat, att: Option<nat>, out: Outcome, id: nat, text: string)
    requires x in s.workers && x in s.jobs.hands && f.prog.Commit?
    ensures var s' := PipeStep(cfg, s, x, f, win, att, out, id, text);
      && s'.claims.now == s.claims.now && s.claims.touches <= s'.claims.touches && x in s'.workers
      && (s'.workers[x].act.InPipe? ==>
            && s'.workers[x].act.win == win && s'.workers[x].act.frame.prog == f.prog
            && if f.pc == Attach then
                 && s'.workers[x].act.att == Some(|s.claims.touches|)
                 && |s'.claims.touches| == |s.claims.touches| + 1
                 && s'.claims.touches[|s.claims.touches|].at == s.claims.now
               else s'.workers[x].act.att == att)
      && !s'.workers[x].act.Won?
  {
    FramesKeepIdentity(s.db, f, out, id, text);
    hide StepDb, StepFrame;
  }

  /** A worker that starts to hold a claim has just won it. */
  lemma DispatchMeasures(cfg: Config, s: State, x: nat, out: Outcome, id: nat)
    requires x in s.workers && x in s.jobs.hands && s.workers[x].act == Dispatch
    ensures Measures(DispatchStep(cfg, s, x, out, id), x, NONE)
  {
  }

  lemma OwnMeasures(cfg: Config, s: State, l: Label, x: nat, sp: Spell)
    requires Enabled(s, l) && Owned(s) && l.Work? && l.x == x && Measures(s, x, sp)
    ensures var s' := WorkStep(cfg, s, l); Measures(s', x, Clock(sp, s, l, s', x))
  {
    hide Measures, Owned, PipeStep, DispatchStep, WonStep;
    assert WorkerOk(s, x) by {
      OwnedWorker(s, x);
    }
    if s.workers[x].act.InPipe? {
      if Holding(s, x) {
        PipeMeasures(cfg, s, x, l.out, l.id, l.text, sp);
      } else {
        DemoHoldsNothing(cfg, s, x, l.out, l.id, l.text);
      }
    } else if s.workers[x].act.Won? {
      WonMeasures(s, x, s.workers[x].act.key, s.workers[x].act.win, l.out, l.id, sp);
    } else if s.workers[x].act.Dispatch? {
      DispatchMeasures(cfg, s, x, l.out, l.id);
    } else {
      RestHoldsNothing(cfg, s, l);
    }
  }

  lemma OwnedWorker(s: State, x: nat)
    requires Owned(s) && x in s.workers
    ensures WorkerOk(s, x)
  {
  }

  lemma DemoHoldsNothing(cfg: Config, s: State, x: nat, out: Outcome, id: nat, text: string)
    requires x in s.workers && s.workers[x].act.InPipe? && x in s.jobs.hands && !Holding(s, x)
    ensures var InPipe(f, win, att) := s.workers[x].act;
      Measures(PipeStep(cfg, s, x, f, win, att, out, id, text), x, NONE)
  {
    var InPipe(f, win, att) := s.workers[x].act;
    FramesKeepIdentity(s.db, f, out, id, text);
  }

  lemma RestHoldsNothing(cfg: Config, s: State, l: Label)
    requires Enabled(s, l) && l.Work? && (s.workers[l.x].act.Missed? || s.workers[l.x].act.Pushing?)
    ensures Measures(WorkStep(cfg, s, l), l.x, NONE)
  {
  }

  lemma OthersMeasure(cfg: Config, s: State, l: Label, x: nat, sp: Spell)
    requires Enabled(s, l) && Parts(cfg, s) && !l.Tick? && !(l.Work? && l.x == x) && Measures(s, x, sp)
    ensures var s' := Step(cfg, s, l); Measures(s', x, Clock(sp, s, l, s', x))
  {
    hide Step, Enabled, Parts;
    var s' := Step(cfg, s, l);
    OthersKeepClock(cfg, s, l);
    if Holding(s, x) {
      HolderIsKept(cfg, s, l, x);
    } else {
      NoNewHolder(cfg, s, l, x);
    }
  }

  lemma OthersKeepClock(cfg: Config, s: State, l: Label)
    requires Enabled(s, l) && Parts(cfg, s) && !l.Tick?
    ensures var s' := Step(cfg, s, l); s'.claims.now == s.claims.now && s.claims.touches <= s'.claims.touches
  {
    hide RedisQueue.Inv, Dedup.Inv;
    PartsKept(cfg, s, l);
    OnlyTicksTick(cfg, s, l);
  }

  lemma OnlyTicksTick(cfg: Config, s: State, l: Label)
    requires Enabled(s, l) && !l.Tick?
    ensures Step(cfg, s, l).claims.now == s.claims.now
  {
    hide Step, Enabled;
    var c := StepClaims(cfg, s, l);
  }

  lemma HolderIsKept(cfg: Config, s: State, l: Label, x: nat)
    requires Enabled(s, l) && Holding(s, x) && !(l.Work? && l.x == x)
    ensures var s' := Step(cfg, s, l); x in s'.workers ==> s'.workers[x] == s.workers[x]
  {
    if l.Work? {
      WorkOnlyWorker(cfg, s, l);
    }
  }

  lemma NoNewHolder(cfg: Config, s: State, l: Label, x: nat)
    requires Enabled(s, l) && !Holding(s, x) && !(l.Work? && l.x == x)
    ensures !Holding(Step(cfg, s, l), x)
  {
    if l.Work? {
      WorkOnlyWorker(cfg, s, l);
    }
  }

  lemma StepMeasures(cfg: Config, s: State, l: Label, x: nat, sp: Spell)
    requires Enabled(s, l) && Owners(cfg, s) && Measures(s, x, sp)
    ensures var s' := Step(cfg, s, l); Measures(s', x, Clock(sp, s, l, s', x))
  {
    hide Measures, Clock, Parts, Owned;
    if l.Tick? {
      TickMeasures(cfg, s, l.seconds, x, sp);
    } else if l.Work? && l.x == x {
      OwnMeasures(cfg, s, l, x, sp);
    } else {
      OthersMeasure(cfg, s, l, x, sp);
    }
  }

  lemma {:induction false} RunMeasures(cfg: Config, s: State, ls: seq<Label>, x: nat, sp: Spell)
    requires Possible(cfg, s, ls) && Owners(cfg, s) && Measures(s, x, sp)
    ensures Measures(Run(cfg, s, ls), x, Spent(cfg, s, ls, x, sp))
    decreases |ls|
  {
    if ls != [] {
      hide Measures, Clock, Owners, Step, Enabled;
      OwnersKept(cfg, s, ls[0]);
      StepMeasures(cfg, s, ls[0], x, sp);
      RunMeasures(cfg, Step(cfg, s, ls[0]), ls[1..], x, Clock(sp, s, ls[0], Step(cfg, s, ls[0]), x));
    }
  }

  // --------------------------------------------------------------------------
  // The LLM steps
  // --------------------------------------------------------------------------

  /** Handlers are at points their programs have. */
  ghost predicate OnCourse(s: State) {
    forall x | Busy(s, x) :: var f := s.workers[x].act.frame; ValidPc(f.prog, f.pc) && !Ended(f.pc)
  }

  lemma StepKeepsCourse(cfg: Config, s: State, l: Label)
    requires Enabled(s, l) && OnCourse(s)
    ensures OnCourse(Step(cfg, s, l))
  {
    var s' := Step(cfg, s, l);
    forall y | Busy(s', y) ensures var f := s'.workers[y].act.frame; ValidPc(f.prog, f.pc) && !Ended(f.pc) {
      if l.Work? && l.x == y {
        OwnCourse(cfg, s, l);
      } else {
        OtherCourse(cfg, s, l, y);
      }
    }
  }

  lemma OwnCourse(cfg: Config, s: State, l: Label)
    requires Enabled(s, l) && OnCourse(s) && l.Work? && Busy(WorkStep(cfg, s, l), l.x)
    ensures var f := WorkStep(cfg, s, l).workers[l.x].act.frame; ValidPc(f.prog, f.pc) && !Ended(f.pc)
    ensures Busy(s, l.x) ==>
      var f := s.workers[l.x].act.frame;
      var g := WorkStep(cfg, s, l).workers[l.x].act.frame;
      g.prog == f.prog && Timing.Rank(g.prog, g.pc) < Timing.Rank(f.prog, f.pc)
  {
    if Busy(s, l.x) {
      PipeCourse(cfg, s, l.x, l.out, l.id, l.text);
    } else {
      HandCourse(cfg, s, l);
    }
  }

  lemma PipeCourse(cfg: Config, s: State, x: nat, out: Outcome, id: nat, text: string)
    requires OnCourse(s) && Busy(s, x) && x in s.jobs.hands
    ensures var InPipe(f, win, att) := s.workers[x].act;
      var s' := PipeStep(cfg, s, x, f, win, att, out, id, text);
      Busy(s', x) ==>
        var g := s'.workers[x].act.frame;
        && ValidPc(g.prog, g.pc) && !Ended(g.pc)
        && g.prog == f.prog && Timing.Rank(g.prog, g.pc) < Timing.Rank(f.prog, f.pc)
  {
    var InPipe(f, win, att) := s.workers[x].act;
    Timing.RankFalls(f.prog, f.pc, out);
    FramesKeepIdentity(s.db, f, out, id, text);
    hide StepDb, StepFrame, Next, PipeClaims;
  }

  lemma HandCourse(cfg: Config, s: State, l: Label)
    requires Enabled(s, l) && l.Work? && !Busy(s, l.x) && Busy(WorkStep(cfg, s, l), l.x)
    ensures var f := WorkStep(cfg, s, l).workers[l.x].act.frame; ValidPc(f.prog, f.pc) && !Ended(f.pc)
  {
    hide PipeStep, DispatchStep, WonStep, MissedStep, PushStep;
    match s.workers[l.x].act
    case Dispatch => DispatchCourse(cfg, s, l.x, l.out, l.id);
    case Won(k, win) => WonCourse(s, l.x, k, win, l.out, l.id);
    case Missed(k) => LetGoCourse(s, l.x, k, l.out, l.text);
    case Pushing => LetGoCourse(s, l.x, Key("", ""), l.out, l.text);
  }

  predicate AtEntry(s: State, x: nat) {
    Busy(s, x) ==> var f := s.workers[x].act.frame; f.pc == Programs.Entry(f.prog)
  }

  lemma DispatchCourse(cfg: Config, s: State, x: nat, out: Outcome, id: nat)
    requires x in s.workers && x in s.jobs.hands && !Busy(s, x)
    ensures AtEntry(DispatchStep(cfg, s, x, out, id), x)
  {
    hide Dedup.Apply, InsertWorkflow;
  }

  lemma WonCourse(s: State, x: nat, k: Key, win: nat, out: Outcome, id: nat)
    requires x in s.workers && x in s.jobs.hands && !Busy(s, x)
    ensures AtEntry(WonStep(s, x, k, win, out, id), x)
  {
  }

  lemma LetGoCourse(s: State, x: nat, k: Key, out: Outcome, text: string)
    requires x in s.workers && x in s.jobs.hands && !Busy(s, x)
    ensures AtEntry(MissedStep(s, x, k, out), x) && AtEntry(PushStep(s, x, out, text), x)
  {
    hide SkipAnswer, RedisQueue.Apply;
  }

  lemma OtherCourse(cfg: Config, s: State, l: Label, y: nat)
    requires Enabled(s, l) && !(l.Work? && l.x == y) && Busy(Step(cfg, s, l), y)
    ensures Busy(s, y) && Step(cfg, s, l).workers[y] == s.workers[y]
  {
    if l.Work? {
      WorkOnlyWorker(cfg, s, l);
    }
  }

  lemma {:induction false} RunKeepsCourse(cfg: Config, s: State, ls: seq<Label>)
    requires Possible(cfg, s, ls) && OnCourse(s)
    ensures OnCourse(Run(cfg, s, ls))
    decreases |ls|
  {
    if ls != [] {
      StepKeepsCourse(cfg, s, ls[0]);
      RunKeepsCourse(cfg, Step(cfg, s, ls[0]), ls[1..]);
    }
  }

  function OwnSteps(ls: seq<Label>, x: nat): nat {
    if ls == [] then 0 else (if ls[0].Work? && ls[0].x == x then 1 else 0) + OwnSteps(ls[1..], x)
  }

  lemma {:induction false} StepsSpendRank(cfg: Config, s: State, ls: seq<Label>, x: nat)
    requires Possible(cfg, s, ls) && OnCourse(s) && Persists(cfg, s, ls, x)
    ensures Busy(s, x) && Busy(Run(cfg, s, ls), x)
    ensures var f := s.workers[x].act.frame;
      var g := Run(cfg, s, ls).workers[x].act.frame;
      g.prog == f.prog && Timing.Rank(g.prog, g.pc) + OwnSteps(ls, x) <= Timing.Rank(f.prog, f.pc)
    decreases |ls|
  {
    if ls != [] {
      hide Step, Enabled, Timing.Rank;
      StepKeepsCourse(cfg, s, ls[0]);
      assert Busy(Step(cfg, s, ls[0]), x);
      if ls[0].Work? && ls[0].x == x {
        WorkIsWork(cfg, s, ls[0]);
        OwnCourse(cfg, s, ls[0]);
      } else {
        OtherCourse(cfg, s, ls[0], x);
      }
      StepsSpendRank(cfg, Step(cfg, s, ls[0]), ls[1..], x);
    }
  }

  lemma WorkIsWork(cfg: Config, s: State, l: Label)
    requires Enabled(s, l) && l.Work?
    ensures Step(cfg, s, l) == WorkStep(cfg, s, l)
  {
  }

  /** A commit handler makes at most two stays at LLM steps, one at each: in any run
      it is never at a third such point, and it takes no step between two moments at
      the same one. So the spell's two LLM entries are the lengths of two single calls. */
  lemma TwoStays(cfg: Config, before: seq<Label>, ls: seq<Label>, x: nat)
    requires Possible(cfg, INIT, before) && Possible(cfg, Run(cfg, INIT, before), ls)
    requires var s := Run(cfg, INIT, before);
      Holding(s, x) && s.workers[x].act.InPipe? && s.workers[x].act.frame.pc.Body?
    ensures var s := Run(cfg, INIT, before);
      var pc := s.workers[x].act.frame.pc;
      && pc in {Body(0), Body(1)}
      && (Persists(cfg, s, ls, x) && Busy(Run(cfg, s, ls), x) && Run(cfg, s, ls).workers[x].act.frame.pc == pc ==>
            OwnSteps(ls, x) == 0)
  {
    RunKeepsCourse(cfg, INIT, before);
    var s := Run(cfg, INIT, before);
    assert Busy(s, x);
    if Persists(cfg, s, ls, x) {
      StepsSpendRank(cfg, s, ls, x);
    }
  }

  // --------------------------------------------------------------------------
  // Mutual exclusion
  // --------------------------------------------------------------------------

  /** A spell kept within bounds: acquire to attach below the ttl; each LLM step within
      a call of the retry loop; and everything else since the attach below what two
      worst-case calls leave of the ttl. */
  ghost predicate Prompt(cfg: Config, sp: Spell, timeout: real, maxRetries: int, calls: (nat -> LlmCall.Attempt, nat -> LlmCall.Attempt)) {
    && sp.opening < cfg.ttl
    && LlmCall.WithinCall(calls.0, timeout, maxRetries, sp.first as real)
    && LlmCall.WithinCall(calls.1, timeout, maxRetries, sp.second as real)
    && sp.other as real + 2.0 * LlmCall.WorstCase(timeout, maxRetries) < cfg.ttl as real
  }

  /** The LLM time of a commit handler, in any run and wherever it is: at most two worst
      cases, if each stay lies within a call of the retry loop. */
  lemma LlmTimeBound(cfg: Config, ls: seq<Label>, x: nat, timeout: real, maxRetries: int,
                     calls: (nat -> LlmCall.Attempt, nat -> LlmCall.Attempt))
    requires Possible(cfg, INIT, ls) && Holding(Run(cfg, INIT, ls), x)
    requires var sp := Spent(cfg, INIT, ls, x, NONE);
      && LlmCall.WithinCall(calls.0, timeout, maxRetries, sp.first as real)
      && LlmCall.WithinCall(calls.1, timeout, maxRetries, sp.second as real)
    ensures var sp := Spent(cfg, INIT, ls, x, NONE);
      var s := Run(cfg, INIT, ls);
      var ts := s.claims.touches;
      && (sp.first + sp.second) as real <= 2.0 * LlmCall.WorstCase(timeout, maxRetries)
      && WonAt(s, x) < |ts|
      && s.claims.now == ts[WonAt(s, x)].at + sp.opening + sp.first + sp.second + sp.other
  {
    InitOwners(cfg);
    NothingMeasured();
    RunMeasures(cfg, INIT, ls, x, NONE);
    hide LlmCall.WorstCase;
    var sp := Spent(cfg, INIT, ls, x, NONE);
    LlmCall.CallIsBounded(calls.0, timeout, maxRetries, sp.first as real);
    LlmCall.CallIsBounded(calls.1, timeout, maxRetries, sp.second as real);
  }

  lemma PromptIsOnTime(cfg: Config, s: State, x: nat, k: Key, sp: Spell, timeout: real, maxRetries: int,
                       calls: (nat -> LlmCall.Attempt, nat -> LlmCall.Attempt))
    requires InFlight(s, x, k) && Measures(s, x, sp) && Prompt(cfg, sp, timeout, maxRetries, calls)
    ensures OnTime(cfg, s, x)
  {
    LlmCall.CallIsBounded(calls.0, timeout, maxRetries, sp.first as real);
    LlmCall.CallIsBounded(calls.1, timeout, maxRetries, sp.second as real);
  }

  /** Mutual exclusion from durations: in any run, with any number of processes, two
      workers whose spells are within bounds are never on one pair together. */
  lemma PromptHandlersExclude(cfg: Config, ls: seq<Label>, x: nat, y: nat, k: Key, timeout: real, maxRetries: int,
                              xs: (nat -> LlmCall.Attempt, nat -> LlmCall.Attempt),
                              ys: (nat -> LlmCall.Attempt, nat -> LlmCall.Attempt))
    requires Possible(cfg, INIT, ls)
    requires var s := Run(cfg, INIT, ls); InFlight(s, x, k) && InFlight(s, y, k)
    requires var s := Run(cfg, INIT, ls); Since(s, k) <= WonAt(s, x) && Since(s, k) <= WonAt(s, y)
    requires Prompt(cfg, Spent(cfg, INIT, ls, x, NONE), timeout, maxRetries, xs)
    requires Prompt(cfg, Spent(cfg, INIT, ls, y, NONE), timeout, maxRetries, ys)
    ensures x == y
  {
    hide Prompt, Measures, OnTime;
    InitOwners(cfg);
    NothingMeasured();
    RunMeasures(cfg, INIT, ls, x, NONE);
    RunMeasures(cfg, INIT, ls, y, NONE);
    var s := Run(cfg, INIT, ls);
    PromptIsOnTime(cfg, s, x, k, Spent(cfg, INIT, ls, x, NONE), timeout, maxRetries, xs);
    PromptIsOnTime(cfg, s, y, k, Spent(cfg, INIT, ls, y, NONE), timeout, maxRetries, ys);
    MutualExclusion(cfg, ls, x, y, k);
  }

  lemma NothingMeasured()
    ensures forall x :: Measures(INIT, x, NONE)
  {
  }

  /** At the default settings (60 s, 2 retries, ttl 3600) the steps outside the LLM may
      take up to 3228 seconds. */
  lemma DefaultsAllow(cfg: Config, sp: Spell, calls: (nat -> LlmCall.Attempt, nat -> LlmCall.Attempt))
    requires cfg.ttl == 3600 && sp.opening < 3600 && sp.other < 3228
    requires LlmCall.WithinCall(calls.0, 60.0, 2, sp.first as real)
    requires LlmCall.WithinCall(calls.1, 60.0, 2, sp.second as real)
    ensures Prompt(cfg, sp, 60.0, 2, calls)
  {
    LlmCall.DefaultsBound();
  }
}
