/** Approval rows over every run: what their decision and delivery columns hold. */
module Decisions {
  import opened Common
  import opened Programs
  import opened Tables
  import opened TablesProofs
  import opened Runtime
  import opened RuntimeClaims
  import Interference

  /** A request to decide approval `a` that the gateway takes. */
  predicate Rules(l: Label, a: nat) {
    l.Decide? && l.approval == a && (l.decision == "approved" || l.decision == "rejected")
  }

  predicate Decides(s: State, l: Label, a: nat) {
    Rules(l, a) && a in s.db.apprs
  }

  /** The gateway's second transaction for approval `a` goes through. */
  predicate Delivers(s: State, l: Label, a: nat) {
    && l.Work? && l.out == Ok && a in s.db.apprs && Interference.Busy(s, l.x)
    && s.workers[l.x].act.frame.pc == Delivered && s.workers[l.x].act.frame.appr == a
  }

  /** The row of approval `a` after a step, if it was there before. */
  predicate RowAfter(s: State, l: Label, a: nat, row: Approval)
    requires a in s.db.apprs
  {
    && row.wf == s.db.apprs[a].wf && row.task == s.db.apprs[a].task
    && row.decision == (if Decides(s, l, a) then Some(l.decision) else s.db.apprs[a].decision)
    && row.delivered == (if Delivers(s, l, a) then Channels(l.text) else s.db.apprs[a].delivered)
  }

  /** A step neither loses an approval row nor changes it, but by deciding or delivering
      it; and a new one comes undecided and undelivered. */
  lemma ApprovalStep(cfg: Config, s: State, l: Label, a: nat)
    requires Enabled(s, l)
    ensures var db' := Step(cfg, s, l).db;
      && (a in s.db.apprs ==> a in db'.apprs && RowAfter(s, l, a, db'.apprs[a]))
      && (a !in s.db.apprs && a in db'.apprs ==> db'.apprs[a].decision == None && db'.apprs[a].delivered == None)
  {
    hide PipeStep, DispatchStep, WonStep, MissedStep, PushStep, StartStep;
    if l.Work? {
      if Interference.Busy(s, l.x) {
        var InPipe(f, win, att) := s.workers[l.x].act;
        PipeApprovals(cfg, s, l.x, f, win, att, l.out, l.id, l.text);
        ExecApproval(s.db, f, l.id, l.text, a);
      } else {
        WorkEarly(cfg, s, l);
      }
    } else if l.Start? {
      StartApprovals(cfg, s, l.proc, l.ids);
    }
  }

  /** An operator's request changes the decision of its row and nothing else, or nothing. */
  lemma DecideIsExact(cfg: Config, s: State, l: Label)
    requires Enabled(s, l) && l.Decide?
    ensures var s' := Step(cfg, s, l);
      if Decides(s, l, l.approval) then
        var row := s.db.apprs[l.approval];
        s' == s.(db := s.db.(apprs := s.db.apprs[l.approval := row.(decision := Some(l.decision))]))
      else s' == s
  {
  }

  lemma PipeApprovals(cfg: Config, s: State, x: nat, f: Frame, win: nat, att: Option<nat>, out: Outcome, id: nat, text: string)
    requires x in s.workers && x in s.jobs.hands
    ensures PipeStep(cfg, s, x, f, win, att, out, id, text).db == if out == Ok then Exec(s.db, f, id, text) else s.db
  {
    hide Exec, StepFrame, PipeClaims;
  }

  lemma StartApprovals(cfg: Config, s: State, proc: nat, ids: set<nat>)
    ensures StartStep(cfg, s, proc, ids).db.apprs == s.db.apprs
  {
  }

  lemma ExecApproval(db: Db, f: Frame, id: nat, text: string, a: nat)
    requires FreshFor(db, f.pc, id)
    ensures var db' := Exec(db, f, id, text);
      && (a in db.apprs ==>
            && a in db'.apprs
            && db'.apprs[a] ==
                 if f.pc == Delivered && f.appr == a then db.apprs[a].(delivered := Channels(text)) else db.apprs[a])
      && (a !in db.apprs && a in db'.apprs ==> db'.apprs[a].decision == None && db'.apprs[a].delivered == None)
  {
    if f.pc != Delivered && f.pc != Approve {
      OneTable(db, f, id, text);
      hide Exec;
    }
  }

  // --------------------------------------------------------------------------
  // Runs
  // --------------------------------------------------------------------------

  /** The decision of the last step that decides `a`, or `before` when there is none. */
  ghost function LastDecision(cfg: Config, s: State, ls: seq<Label>, a: nat, before: Option<string>): Option<string>
    requires Possible(cfg, s, ls)
    decreases |ls|
  {
    if ls == [] then before
    else LastDecision(cfg, Step(cfg, s, ls[0]), ls[1..], a, if Decides(s, ls[0], a) then Some(ls[0].decision) else before)
  }

  /** The channels of the last step that delivers `a`, or `before` when there is none. */
  ghost function LastDelivery(cfg: Config, s: State, ls: seq<Label>, a: nat, before: Option<string>): Option<string>
    requires Possible(cfg, s, ls)
    decreases |ls|
  {
    if ls == [] then before
    else LastDelivery(cfg, Step(cfg, s, ls[0]), ls[1..], a, if Delivers(s, ls[0], a) then Channels(ls[0].text) else before)
  }

  function DecisionOf(db: Db, a: nat): Option<string> {
    if a in db.apprs then db.apprs[a].decision else None
  }

  function DeliveryOf(db: Db, a: nat): Option<string> {
    if a in db.apprs then db.apprs[a].delivered else None
  }

  lemma {:induction false} RunDecides(cfg: Config, s: State, ls: seq<Label>, a: nat)
    requires Possible(cfg, s, ls)
    ensures DecisionOf(Run(cfg, s, ls).db, a) == LastDecision(cfg, s, ls, a, DecisionOf(s.db, a))
    decreases |ls|
  {
    hide Step, Enabled, Delivers;
    if ls != [] {
      ApprovalStep(cfg, s, ls[0], a);
      RunDecides(cfg, Step(cfg, s, ls[0]), ls[1..], a);
    }
  }

  /** In every run an approval is undecided until an operator decides it, and from then
      on it holds the decision of whoever decided it last. */
  lemma DecisionIsTheLast(cfg: Config, ls: seq<Label>, a: nat)
    requires Possible(cfg, INIT, ls) && a in Run(cfg, INIT, ls).db.apprs
    ensures Run(cfg, INIT, ls).db.apprs[a].decision == LastDecision(cfg, INIT, ls, a, None)
  {
    RunDecides(cfg, INIT, ls, a);
  }

  lemma {:induction false} RunDelivers(cfg: Config, s: State, ls: seq<Label>, a: nat)
    requires Possible(cfg, s, ls)
    ensures DeliveryOf(Run(cfg, s, ls).db, a) == LastDelivery(cfg, s, ls, a, DeliveryOf(s.db, a))
    decreases |ls|
  {
    hide Step, Enabled, Decides;
    if ls != [] {
      ApprovalStep(cfg, s, ls[0], a);
      RunDelivers(cfg, Step(cfg, s, ls[0]), ls[1..], a);
    }
  }

  /** ... and its channels are those of the gateway's update after the delivery, none
      before it. */
  lemma DeliveryIsTheLast(cfg: Config, ls: seq<Label>, a: nat)
    requires Possible(cfg, INIT, ls) && a in Run(cfg, INIT, ls).db.apprs
    ensures Run(cfg, INIT, ls).db.apprs[a].delivered == LastDelivery(cfg, INIT, ls, a, None)
  {
    RunDelivers(cfg, INIT, ls, a);
  }

  /** Told step by step: what an operator decides about a known approval is what its row
      holds through any run without another decision about it. */
  lemma DecisionHolds(cfg: Config, ls: seq<Label>, a: nat, l: Label, rest: seq<Label>)
    requires Possible(cfg, INIT, ls)
    requires var s := Run(cfg, INIT, ls); a in s.db.apprs && Rules(l, a) && Possible(cfg, Step(cfg, s, l), rest)
    requires forall i | 0 <= i < |rest| :: !Rules(rest[i], a)
    ensures var s' := Run(cfg, Step(cfg, Run(cfg, INIT, ls), l), rest);
      a in s'.db.apprs && s'.db.apprs[a].decision == Some(l.decision)
  {
    var s := Run(cfg, INIT, ls);
    ApprovalStep(cfg, s, l, a);
    hide Step, Enabled;
    DecisionStays(cfg, Step(cfg, s, l), rest, a);
  }

  lemma {:induction false} DecisionStays(cfg: Config, s: State, ls: seq<Label>, a: nat)
    requires Possible(cfg, s, ls) && a in s.db.apprs && forall i | 0 <= i < |ls| :: !Rules(ls[i], a)
    ensures var db' := Run(cfg, s, ls).db; a in db'.apprs && db'.apprs[a].decision == s.db.apprs[a].decision
    decreases |ls|
  {
    hide Step, Enabled;
    if ls != [] {
      ApprovalStep(cfg, s, ls[0], a);
      DecisionStays(cfg, Step(cfg, s, ls[0]), ls[1..], a);
    }
  }
}
