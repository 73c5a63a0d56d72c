/** Every handler ends: a bound on its steps that every step brings down. */
module Timing {
  import opened Common
  import opened Programs

  /** The program point after steps that end as `outs` says. */
  function After(p: Prog, pc: Pc, outs: seq<Outcome>): Pc {
    if outs == [] then pc else Next(p, After(p, pc, outs[..|outs| - 1]), outs[|outs| - 1])
  }

  /** No step is taken after the handler has ended. */
  ghost predicate Underway(p: Prog, pc: Pc, outs: seq<Outcome>) {
    forall i | 0 <= i < |outs| :: !Ended(After(p, pc, outs[..i]))
  }

  /** An upper bound on the steps still to come; every step brings it down. */
  function Rank(p: Prog, pc: Pc): nat {
    match pc
    case Attach => 70
    case Create(k) => Level(k) + 10
    case Body(k) => Level(k) + 9
    case Remember => if p.Commit? then 38 else 22
    case Upsert => 37
    case Stamp => 36
    case Approve => if p.Commit? then 29 else 19
    case Delivered => if p.Commit? then 28 else 18
    case Complete(k) => Level(k) + 5
    case ReadLog(k) => Level(k) + 4
    case WriteLog(k) => Level(k) + 3
    case FailTask(k) => Level(k) + 2
    case ReadFail(k) => 4
    case WriteFail(k) => 3
    case ReadEnd => 2
    case WriteEnd => 1
    case _ => 0
  }

  function Level(k: nat): nat {
    if k <= 5 then 50 - 10 * k else 0
  }

  lemma RankFalls(p: Prog, pc: Pc, out: Outcome)
    requires ValidPc(p, pc) && !Ended(pc)
    ensures ValidPc(p, Next(p, pc, out)) && Rank(p, Next(p, pc, out)) < Rank(p, pc)
  {
  }

  /** Every handler ends: a run has at most as many steps as its start's rank, 70 for
      a commit. */
  lemma {:induction false} HandlerEnds(p: Prog, outs: seq<Outcome>)
    requires Underway(p, Entry(p), outs)
    ensures ValidPc(p, After(p, Entry(p), outs))
    ensures |outs| + Rank(p, After(p, Entry(p), outs)) <= Rank(p, Entry(p)) <= 70
  {
    if outs != [] {
      var n := |outs| - 1;
      Shorter(p, Entry(p), outs);
      HandlerEnds(p, outs[..n]);
      RankFalls(p, After(p, Entry(p), outs[..n]), outs[n]);
    }
  }

  lemma Shorter(p: Prog, pc: Pc, outs: seq<Outcome>)
    requires outs != [] && Underway(p, pc, outs)
    ensures Underway(p, pc, outs[..|outs| - 1]) && !Ended(After(p, pc, outs[..|outs| - 1]))
  {
    var short := outs[..|outs| - 1];
    forall i | 0 <= i < |short| ensures !Ended(After(p, pc, short[..i])) {
      assert short[..i] == outs[..i];
    }
  }
}
