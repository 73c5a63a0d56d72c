/** The queue object and the worker loop as the program writes them, proved against
    the lane functions of RedisQueue. */
module QueueCode {
  import opened Common
  import opened RedisQueue

  class Job {
    const id: nat
    const kind: string
    const payload: Payload
    var attempt: nat
    var notes: seq<string>

    /** from_json */
    constructor (b: Blob)
      ensures ToBlob() == b
    {
      id, kind, payload, attempt, notes := b.id, b.kind, b.payload, b.attempt, b.notes;
    }

    /** to_json */
    function ToBlob(): Blob
      reads this
    {
      Blob(id, kind, payload, attempt, notes)
    }
  }

  /** How a BLPOP ends: served, raising before anything was popped, or popped with
      the reply lost. */
  datatype Reply = Served | Refused | Dropped

  class Queue {
    var lanes: Lanes

    constructor ()
      ensures lanes == Lanes([], [], [])
    {
      lanes := Lanes([], [], []);
    }

    method Enqueue(job: Job, lane: Lane)
      modifies this
      ensures lanes == Push(old(lanes), lane, job.ToBlob())
    {
      if lane == HIGH {
        lanes := lanes.(high := lanes.high + [job.ToBlob()]);
      } else {
        lanes := lanes.(normal := lanes.normal + [job.ToBlob()]);
      }
    }

    /** BLPOP on both lanes; no job when both stay empty until the timeout. It may
        raise without popping, or pop and lose the reply. */
    method Dequeue(pop: Reply) returns (raises: bool, job: Job?)
      modifies this
      ensures raises <==> pop == Refused || (pop == Dropped && !Empty(old(lanes)))
      ensures job != null <==> pop == Served && !Empty(old(lanes))
      ensures lanes == if pop == Refused || Empty(old(lanes)) then old(lanes) else Rest(old(lanes))
      ensures job != null ==> fresh(job) && job.ToBlob() == Head(old(lanes))
    {
      if pop == Refused {
        return true, null;
      }
      var b;
      if lanes.high != [] {
        b := lanes.high[0];
        lanes := lanes.(high := lanes.high[1..]);
      } else if lanes.normal != [] {
        b := lanes.normal[0];
        lanes := lanes.(normal := lanes.normal[1..]);
      } else {
        return false, null;
      }
      raises, job := pop == Dropped, null;
      if !raises {
        job := new Job(b);
      }
    }

    /** The job is counted and noted before the push, which may raise. */
    method Fail(job: Job, error: string, pushed: bool)
      modifies this, job
      ensures job.ToBlob() == Failed(old(job.ToBlob()), error)
      ensures job.attempt == old(job.attempt) + 1 && job.notes == old(job.notes) + [error]
      ensures lanes == if pushed then old(lanes).(failed := old(lanes).failed + [job.ToBlob()]) else old(lanes)
    {
      job.attempt := job.attempt + 1;
      job.notes := job.notes + [error];
      if pushed {
        lanes := lanes.(failed := lanes.failed + [job.ToBlob()]);
      }
    }

    /** LRANGE 0 (limit - 1), whose end counts from the back when it is negative: a
        limit of 0 gives the whole lane, not nothing. */
    method PeekFailed(limit: int) returns (jobs: seq<Blob>)
      ensures jobs <= lanes.failed
      ensures 0 < limit ==> |jobs| == if limit < |lanes.failed| then limit else |lanes.failed|
      ensures limit <= 0 ==> |jobs| == if |lanes.failed| + limit < 0 then 0 else |lanes.failed| + limit
    {
      var stop := limit - 1;
      if stop < 0 {
        stop := stop + |lanes.failed|;
      }
      var n := if stop + 1 < |lanes.failed| then stop + 1 else |lanes.failed|;
      jobs := if n > 0 then lanes.failed[..n] else [];
    }
  }

  /** What one turn of the worker loop meets: how BLPOP ends, the handler's exception
      if it raises, and whether a push onto the dead-letter lane goes through. */
  datatype Turn = Turn(pop: Reply, raised: Option<string>, pushed: bool)

  const NO_HANDLER := "no handler for type"

  /** The lanes after some turns, the jobs done and lost in them, and whether the
      worker died of a push that raised. */
  datatype Tally = Tally(lanes: Lanes, done: seq<nat>, lost: seq<nat>, died: bool)

  /** One turn on the lanes: at most one job leaves them, and it is done, failed onto
      the dead-letter lane, or lost. */
  function AfterTurn(ls: Lanes, handlers: set<string>, t: Turn): Tally {
    if t.pop == Refused || Empty(ls) then Tally(ls, [], [], false)
    else
      var b := Head(ls);
      if t.pop == Dropped then Tally(Rest(ls), [], [b.id], false)
      else if b.kind in handlers && t.raised.None? then Tally(Rest(ls), [b.id], [], false)
      else if !t.pushed then Tally(Rest(ls), [], [b.id], true)
      else Tally(Dead(Rest(ls), Failed(b, if b.kind in handlers then t.raised.value else NO_HANDLER)), [], [], false)
  }

  function Dead(ls: Lanes, b: Blob): Lanes {
    ls.(failed := ls.failed + [b])
  }

  /** The turns one after another, as long as the worker lives. */
  function AfterTurns(ls: Lanes, handlers: set<string>, turns: seq<Turn>): Tally {
    if turns == [] then Tally(ls, [], [], false)
    else
      var before := AfterTurns(ls, handlers, turns[..|turns| - 1]);
      if before.died then before
      else
        var t := AfterTurn(before.lanes, handlers, turns[|turns| - 1]);
        Tally(t.lanes, before.done + t.done, before.lost + t.lost, t.died)
  }

  lemma {:induction false} DeadStayDead(ls: Lanes, handlers: set<string>, turns: seq<Turn>, n: nat)
    requires n <= |turns| && AfterTurns(ls, handlers, turns[..n]).died
    ensures AfterTurns(ls, handlers, turns) == AfterTurns(ls, handlers, turns[..n])
    decreases |turns|
  {
    if n < |turns| {
      assert turns[..|turns| - 1][..n] == turns[..n];
      DeadStayDead(ls, handlers, turns[..|turns| - 1], n);
    } else {
      assert turns[..n] == turns;
    }
  }

  /** A turn takes nothing out of the lanes but the job it finishes or loses. */
  lemma TurnConserves(ls: Lanes, handlers: set<string>, t: Turn)
    ensures var end := AfterTurn(ls, handlers, t);
      multiset(end.done) + multiset(end.lost) + Ids(end.lanes) == Ids(ls)
  {
    hide Ids, Head, Rest;
    if t.pop != Refused && !Empty(ls) {
      HeadAndRest(ls);
      var b := Head(ls);
      DeadCounts(Rest(ls), Failed(b, if b.kind in handlers && t.raised.Some? then t.raised.value else NO_HANDLER));
    }
  }

  /** No job disappears unaccounted for, whatever raises: with multiplicity, the jobs
      there were are those done, those lost and those still in some lane. */
  lemma {:induction false} TurnsConserve(ls: Lanes, handlers: set<string>, turns: seq<Turn>)
    ensures var end := AfterTurns(ls, handlers, turns);
      multiset(end.done) + multiset(end.lost) + Ids(end.lanes) == Ids(ls)
  {
    if turns != [] {
      var n := |turns| - 1;
      TurnsConserve(ls, handlers, turns[..n]);
      TurnConserves(AfterTurns(ls, handlers, turns[..n]).lanes, handlers, turns[n]);
    }
  }

  /** Jobs are lost only by a reply that was lost or a push that raised, and of the
      latter at most one per worker, which dies of it. */
  lemma {:induction false} LossesAreCounted(ls: Lanes, handlers: set<string>, turns: seq<Turn>)
    ensures var end := AfterTurns(ls, handlers, turns);
      |end.lost| <= |set i | 0 <= i < |turns| && turns[i].pop == Dropped| + (if end.died then 1 else 0)
  {
    if turns != [] {
      var n := |turns| - 1;
      LossesAreCounted(ls, handlers, turns[..n]);
      hide AfterTurns, AfterTurn;
      var short := set i | 0 <= i < |turns[..n]| && turns[..n][i].pop == Dropped;
      var all := set i | 0 <= i < |turns| && turns[i].pop == Dropped;
      assert all == short + (if turns[n].pop == Dropped then {n} else {});
      LastTurnLoses(ls, handlers, turns);
    }
  }

  lemma LastTurnLoses(ls: Lanes, handlers: set<string>, turns: seq<Turn>)
    requires turns != []
    ensures var n := |turns| - 1;
      var before, end := AfterTurns(ls, handlers, turns[..n]), AfterTurns(ls, handlers, turns);
      if before.died then end == before
      else |end.lost| <= |before.lost| + (if turns[n].pop == Dropped then 1 else 0) + (if end.died then 1 else 0)
  {
  }

  class Orchestrator {
    const handlers: set<string>
    const queue: Queue

    constructor (handlers: set<string>, queue: Queue)
      ensures this.handlers == handlers && this.queue == queue
    {
      this.handlers, this.queue := handlers, queue;
    }

    /** `escapes`: the push raised, and the exception leaves _run_job. */
    method RunJob(job: Job, raised: Option<string>, pushed: bool) returns (done: bool, escapes: bool)
      modifies queue, job
      ensures done <==> job.kind in handlers && raised.None?
      ensures escapes <==> !done && !pushed
      ensures done || escapes ==> queue.lanes == old(queue.lanes)
      ensures !done && pushed ==> queue.lanes == Dead(old(queue.lanes),
        Failed(old(job.ToBlob()), if job.kind in handlers then raised.value else NO_HANDLER))
    {
      if job.kind !in handlers {
        queue.Fail(job, NO_HANDLER, pushed);
        return false, !pushed;
      }
      if raised.Some? {
        queue.Fail(job, raised.value, pushed);
        return false, !pushed;
      }
      done, escapes := true, false;
    }

    /** What becomes of the job `b` that a turn serves: done if its handler returned;
        otherwise on the dead-letter lane, with the exception noted, or lost with the
        worker if the push raised. */
    predicate Told(b: Blob, before: Lanes, t: Turn, after: Lanes, done: seq<nat>, lost: seq<nat>, died: bool) {
      if b.kind in handlers && t.raised.None? then
        done == [b.id] && lost == [] && !died && after.failed == before.failed
      else if t.pushed then
        && done == [] && lost == [] && !died
        && after.failed == before.failed + [Blob(b.id, b.kind, b.payload, b.attempt + 1,
             b.notes + [if b.kind in handlers then t.raised.value else "no handler for type"])]
      else
        done == [] && lost == [b.id] && died && after.failed == before.failed
    }

    /** One turn of _worker's loop. */
    method RunTurn(t: Turn) returns (done: seq<nat>, ghost lost: seq<nat>, died: bool)
      modifies queue
      ensures Tally(queue.lanes, done, lost, died) == AfterTurn(old(queue.lanes), handlers, t)
      ensures t.pop == Served && !Empty(old(queue.lanes)) ==> Told(Head(old(queue.lanes)), old(queue.lanes), t, queue.lanes, done, lost, died)
    {
      done, lost, died := [], [], false;
      ghost var before := queue.lanes;
      var raises, job := queue.Dequeue(t.pop);
      if raises {
        lost := if t.pop == Dropped then [Head(before).id] else [];
        return;
      }
      if job != null {
        var ok;
        ok, died := RunJob(job, t.raised, t.pushed);
        if ok {
          done := [job.id];
        }
        lost := if died then [job.id] else [];
      }
    }

    /** _worker, from its start to the stop event or its death: nothing catches what
        escapes from _run_job. */
    method Worker(turns: seq<Turn>) returns (done: seq<nat>, ghost lost: seq<nat>, died: bool)
      modifies queue
      ensures Tally(queue.lanes, done, lost, died) == AfterTurns(old(queue.lanes), handlers, turns)
      ensures multiset(done) + multiset(lost) + Ids(queue.lanes) == Ids(old(queue.lanes))
    {
      ghost var before := queue.lanes;
      done, lost, died := [], [], false;
      var n := 0;
      assert turns[..0] == [];
      while n < |turns| && !died
        invariant n <= |turns|
        invariant Tally(queue.lanes, done, lost, died) == AfterTurns(before, handlers, turns[..n])
      {
        assert turns[..n + 1][..n] == turns[..n];
        ghost var gone;
        var more;
        more, gone, died := RunTurn(turns[n]);
        done, lost := done + more, lost + gone;
        n := n + 1;
      }
      if died {
        DeadStayDead(before, handlers, turns, n);
      } else {
        assert turns[..n] == turns;
      }
      TurnsConserve(before, handlers, turns);
    }
  }

  function IdsOf(bs: seq<Blob>): multiset<nat> {
    if bs == [] then multiset{} else IdsOf(bs[..|bs| - 1]) + multiset{bs[|bs| - 1].id}
  }

  function Ids(ls: Lanes): multiset<nat> {
    IdsOf(ls.high) + IdsOf(ls.normal) + IdsOf(ls.failed)
  }

  lemma {:induction false} IdsOfTail(bs: seq<Blob>)
    requires bs != []
    ensures IdsOf(bs) == multiset{bs[0].id} + IdsOf(bs[1..])
  {
    var n := |bs| - 1;
    if n > 0 {
      IdsOfTail(bs[..n]);
      assert bs[..n][1..] == bs[1..][..n - 1];
    }
  }

  lemma HeadAndRest(ls: Lanes)
    requires !Empty(ls)
    ensures Ids(ls) == multiset{Head(ls).id} + Ids(Rest(ls))
  {
    if ls.high != [] {
      IdsOfTail(ls.high);
    } else {
      IdsOfTail(ls.normal);
    }
  }

  lemma DeadCounts(ls: Lanes, b: Blob)
    ensures Ids(Dead(ls, b)) == Ids(ls) + multiset{b.id}
  {
    assert (ls.failed + [b])[..|ls.failed|] == ls.failed;
  }
}
