/** Job conservation, priority and exact waiting time. */
module RedisQueueProofs {
  import opened RedisQueue

  lemma PushKeepsInv(st: Store, lane: Lane, b: Blob)
    requires Inv(st) && Enabled(st, Enqueue(lane, b))
    ensures Inv(Apply(st, Enqueue(lane, b))) && Forward(st, Apply(st, Enqueue(lane, b)))
  {
    var st' := Apply(st, Enqueue(lane, b));
    LaneInserts(st, st', st.lanes.high, st'.lanes.high, b, InHigh);
    LaneInserts(st, st', st.lanes.normal, st'.lanes.normal, b, InNormal);
    LaneInserts(st, st', st.lanes.failed, st'.lanes.failed, b, InFailed);
  }

  /** A new job is recorded at one place and appended to that lane only. */
  lemma LaneInserts(st: Store, st': Store, lane: seq<Blob>, lane': seq<Blob>, b: Blob, place: Place)
    requires LaneInv(st, lane, place) && b.id !in st.where
    requires b.id in st'.where && st'.where == st.where[b.id := st'.where[b.id]]
    requires lane' == if st'.where[b.id] == place then lane + [b] else lane
    ensures LaneInv(st', lane', place)
  {
    forall id | id in st'.where && st'.where[id] == place ensures Holds(lane', id) {
      LaneGrows(lane, b, id, st, place);
    }
  }

  lemma LaneGrows(lane: seq<Blob>, b: Blob, id: nat, st: Store, place: Place)
    requires LaneInv(st, lane, place)
    ensures id in st.where && st.where[id] == place ==> Holds(lane, id) && Holds(lane + [b], id)
    ensures id == b.id ==> Holds(lane + [b], id)
  {
    if id in st.where && st.where[id] == place {
      var i :| 0 <= i < |lane| && lane[i].id == id;
      assert (lane + [b])[i].id == id;
    }
    if id == b.id {
      assert (lane + [b])[|lane|].id == id;
    }
  }

  lemma LaneShrinks(lane: seq<Blob>, id: nat, st: Store, place: Place)
    requires LaneInv(st, lane, place) && lane != []
    ensures id in st.where && st.where[id] == place && id != lane[0].id ==> Holds(lane[1..], id)
  {
    if id in st.where && st.where[id] == place && id != lane[0].id {
      var i :| 0 <= i < |lane| && lane[i].id == id;
      assert lane[1..][i - 1].id == id;
    }
  }

  lemma PopKeepsQueued(st: Store, c: Cmd)
    requires Inv(st) && Enabled(st, c) && (c.Pop? || c.PopLost?)
    ensures var st' := Apply(st, c);
      forall b | b in st'.lanes.high + st'.lanes.normal :: b.attempt == 0 && b.notes == []
    ensures Head(st.lanes) in st.lanes.high + st.lanes.normal
  {
    var st' := Apply(st, c);
    assert forall b | b in st'.lanes.high + st'.lanes.normal :: b in st.lanes.high + st.lanes.normal;
  }

  lemma PopKeepsHigh(st: Store, c: Cmd)
    requires Inv(st) && Enabled(st, c) && (c.Pop? || c.PopLost?)
    ensures LaneInv(Apply(st, c), Apply(st, c).lanes.high, InHigh)
  {
    var st' := Apply(st, c);
    forall id | id in st'.where && st'.where[id] == InHigh ensures Holds(st'.lanes.high, id) {
      if st.lanes.high != [] {
        LaneShrinks(st.lanes.high, id, st, InHigh);
      }
    }
  }

  lemma PopKeepsNormal(st: Store, c: Cmd)
    requires Inv(st) && Enabled(st, c) && (c.Pop? || c.PopLost?)
    ensures LaneInv(Apply(st, c), Apply(st, c).lanes.normal, InNormal)
    ensures LaneInv(Apply(st, c), Apply(st, c).lanes.failed, InFailed)
  {
    var st' := Apply(st, c);
    forall id | id in st'.where && st'.where[id] == InNormal ensures Holds(st'.lanes.normal, id) {
      if st.lanes.high == [] {
        LaneShrinks(st.lanes.normal, id, st, InNormal);
      }
    }
  }

  lemma PopKeepsInv(st: Store, c: Cmd)
    requires Inv(st) && Enabled(st, c) && (c.Pop? || c.PopLost?)
    ensures Inv(Apply(st, c)) && Forward(st, Apply(st, c))
  {
    hide LaneInv, Apply, Enabled;
    PopKeepsQueued(st, c);
    PopKeepsHigh(st, c);
    PopKeepsNormal(st, c);
    PopKeepsHands(st, c);
  }

  lemma PopKeepsHands(st: Store, c: Cmd)
    requires Inv(st) && Enabled(st, c) && (c.Pop? || c.PopLost?)
    ensures var st' := Apply(st, c); HandsAgree(st') && Counted(st') && Forward(st, st')
  {
    var b := Head(st.lanes);
    assert b.id in st.where && st.where[b.id] in {InHigh, InNormal};
    PopKeepsQueued(st, c);
    hide LaneInv;
    var st' := Apply(st, c);
    HandTaken(st, st', c, b);
  }

  /** A queued job goes into a free hand, or is lost. */
  lemma HandTaken(st: Store, st': Store, c: Cmd, b: Blob)
    requires HandsAgree(st) && b.id in st.where && st.where[b.id] in {InHigh, InNormal}
    requires if c.Pop? then
      && c.worker !in st.hands && st'.hands == st.hands[c.worker := b] && st'.where == st.where[b.id := InHand(c.worker)]
      else st'.hands == st.hands && st'.where == st.where[b.id := Lost]
    requires st'.lanes.failed == st.lanes.failed
    ensures HandsAgree(st') && Forward(st, st')
  {
  }

  /** A job in a hand comes to its last place. */
  lemma HandDrops(st: Store, st': Store, x: nat, p: Place)
    requires HandsAgree(st) && x in st.hands && Terminal(p) && st.lanes.failed <= st'.lanes.failed
    requires st'.hands == st.hands - {x} && st'.where == st.where[st.hands[x].id := p]
    ensures HandsAgree(st') && Forward(st, st')
  {
  }

  /** A lane nobody touched stays right when the job that moved was elsewhere. */
  lemma LaneUntouched(st: Store, st': Store, lane: seq<Blob>, place: Place)
    requires LaneInv(st, lane, place) && st.where.Keys == st'.where.Keys
    requires forall id | id in st.where :: st.where[id] == place <==> st'.where[id] == place
    ensures LaneInv(st', lane, place)
  {
  }

  lemma DropKeepsInv(st: Store, c: Cmd)
    requires Inv(st) && Enabled(st, c) && (c.Finish? || c.FailLost?)
    ensures Inv(Apply(st, c)) && Forward(st, Apply(st, c))
  {
    var st' := Apply(st, c);
    assert st.where[st.hands[c.worker].id] == InHand(c.worker);
    assert st.where.Keys == st'.where.Keys;
    LaneUntouched(st, st', st.lanes.high, InHigh);
    LaneUntouched(st, st', st.lanes.normal, InNormal);
    LaneUntouched(st, st', st.lanes.failed, InFailed);
    hide LaneInv;
    HandDrops(st, st', c.worker, if c.Finish? then Finished else Lost);
  }

  lemma CrashKeepsInv(st: Store, xs: set<nat>)
    requires Inv(st)
    ensures Inv(Apply(st, Crash(xs))) && Forward(st, Apply(st, Crash(xs)))
  {
  }

  lemma FailKeepsInv(st: Store, x: nat, error: string)
    requires Inv(st) && Enabled(st, Fail(x, error))
    ensures Inv(Apply(st, Fail(x, error))) && Forward(st, Apply(st, Fail(x, error)))
  {
    var st' := Apply(st, Fail(x, error));
    assert st.where[st.hands[x].id] == InHand(x) && st.where.Keys == st'.where.Keys;
    LaneUntouched(st, st', st.lanes.high, InHigh);
    LaneUntouched(st, st', st.lanes.normal, InNormal);
    FailKeepsFailed(st, x, error);
    hide LaneInv;
    HandDrops(st, st', x, InFailed);
  }

  lemma FailKeepsFailed(st: Store, x: nat, error: string)
    requires Inv(st) && Enabled(st, Fail(x, error))
    ensures var st' := Apply(st, Fail(x, error)); LaneInv(st', st'.lanes.failed, InFailed)
  {
    var b := Failed(st.hands[x], error);
    var st' := Apply(st, Fail(x, error));
    assert st.where[st.hands[x].id] == InHand(x);
    forall id | id in st'.where && st'.where[id] == InFailed ensures Holds(st'.lanes.failed, id) {
      LaneGrows(st.lanes.failed, b, id, st, InFailed);
    }
  }

  /** Job conservation, one command at a time. */
  lemma ApplyKeepsInv(st: Store, c: Cmd)
    requires Inv(st) && Enabled(st, c)
    ensures Inv(Apply(st, c)) && Forward(st, Apply(st, c))
  {
    match c
    case Enqueue(lane, b) => PushKeepsInv(st, lane, b);
    case Fail(x, error) => FailKeepsInv(st, x, error);
    case Pop(_) => PopKeepsInv(st, c);
    case PopLost => PopKeepsInv(st, c);
    case Crash(xs) => CrashKeepsInv(st, xs);
    case _ => DropKeepsInv(st, c);
  }

  ghost predicate Possible(st: Store, cmds: seq<Cmd>)
    decreases |cmds|
  {
    cmds == [] || (Enabled(st, cmds[0]) && Possible(Apply(st, cmds[0]), cmds[1..]))
  }

  ghost function Run(st: Store, cmds: seq<Cmd>): Store
    requires Possible(st, cmds)
    decreases |cmds|
  {
    if cmds == [] then st else Run(Apply(st, cmds[0]), cmds[1..])
  }

  /** Job conservation over every run. */
  lemma {:induction false} RunKeepsInv(st: Store, cmds: seq<Cmd>)
    requires Inv(st) && Possible(st, cmds)
    ensures Inv(Run(st, cmds)) && Forward(st, Run(st, cmds))
    decreases |cmds|
  {
    if cmds != [] {
      ApplyKeepsInv(st, cmds[0]);
      RunKeepsInv(Apply(st, cmds[0]), cmds[1..]);
    }
  }

  function Pops(cmds: seq<Cmd>): nat {
    if cmds == [] then 0 else (if cmds[0].Pop? || cmds[0].PopLost? then 1 else 0) + Pops(cmds[1..])
  }

  function HighArrivals(cmds: seq<Cmd>): nat {
    if cmds == [] then 0 else (if cmds[0].Enqueue? && cmds[0].lane == HIGH then 1 else 0) + HighArrivals(cmds[1..])
  }

  predicate Serves(c: Cmd) {
    c.Pop? || c.PopLost?
  }

  /** One command moves a waiting NORMAL job at most one place, and the count with it. */
  lemma NormalMoves(st: Store, c: Cmd, k: nat)
    requires Enabled(st, c) && k < |st.lanes.normal| && !(Serves(c) && st.lanes.high == [] && k == 0)
    ensures var next := Apply(st, c).lanes;
      var k' := if Serves(c) && st.lanes.high == [] then k - 1 else k;
      && k' < |next.normal| && next.normal[k'].id == st.lanes.normal[k].id
      && (if Serves(c) then 1 else 0) + |next.high| + k'
           == |st.lanes.high| + k + (if c.Enqueue? && c.lane == HIGH then 1 else 0)
  {
  }

  /** A job that has been served does not come back. */
  lemma ServedIsGone(st: Store, c: Cmd, rest: seq<Cmd>)
    requires Inv(st) && Enabled(st, c) && Serves(c) && Possible(Apply(st, c), rest)
    ensures var end := Run(Apply(st, c), rest).lanes;
      !Holds(end.normal, Head(st.lanes).id) && !Holds(end.high, Head(st.lanes).id)
  {
    ApplyKeepsInv(st, c);
    RunKeepsInv(Apply(st, c), rest);
    PopKeepsQueued(st, c);
    var id := Head(st.lanes).id;
    assert id in Apply(st, c).where && (Apply(st, c).where[id].InHand? || Apply(st, c).where[id].Lost?);
  }

  /** While a NORMAL job waits, dequeues served so far plus jobs still ahead of it
      equal the jobs ahead at the start plus the HIGH arrivals since. */
  lemma {:induction false} NormalProgress(st: Store, cmds: seq<Cmd>, k: nat) returns (k': nat)
    requires Inv(st) && Possible(st, cmds) && k < |st.lanes.normal|
    requires Holds(Run(st, cmds).lanes.normal, st.lanes.normal[k].id)
    ensures var end := Run(st, cmds);
      && k' < |end.lanes.normal| && end.lanes.normal[k'].id == st.lanes.normal[k].id
      && Pops(cmds) + |end.lanes.high| + k' == |st.lanes.high| + k + HighArrivals(cmds)
    decreases |cmds|
  {
    k' := k;
    if cmds != [] {
      hide Inv, Apply, Enabled, Holds;
      ApplyKeepsInv(st, cmds[0]);
      var served := Serves(cmds[0]) && st.lanes.high == [];
      if served && k == 0 {
        ServedIsGone(st, cmds[0], cmds[1..]);
      } else {
        NormalMoves(st, cmds[0], k);
        k' := NormalProgress(Apply(st, cmds[0]), cmds[1..], if served then k - 1 else k);
      }
    }
  }

  lemma NormalStays(st: Store, c: Cmd, k: nat)
    requires Enabled(st, c) && k < |st.lanes.normal|
    ensures ((c.Pop? || c.PopLost?) && st.lanes.high == [] && k == 0)
         || Holds(Apply(st, c).lanes.normal, st.lanes.normal[k].id)
  {
    var served := (c.Pop? || c.PopLost?) && st.lanes.high == [];
    if !served {
      assert Apply(st, c).lanes.normal[k].id == st.lanes.normal[k].id;
    } else if k > 0 {
      assert Apply(st, c).lanes.normal[k - 1].id == st.lanes.normal[k].id;
    }
  }

  lemma HighStays(st: Store, c: Cmd, k: nat)
    requires Enabled(st, c) && k < |st.lanes.high|
    ensures ((c.Pop? || c.PopLost?) && k == 0) || Holds(Apply(st, c).lanes.high, st.lanes.high[k].id)
  {
    if !(c.Pop? || c.PopLost?) {
      assert Apply(st, c).lanes.high[k].id == st.lanes.high[k].id;
    } else if k > 0 {
      assert Apply(st, c).lanes.high[k - 1].id == st.lanes.high[k].id;
    }
  }

  /** Priority and exact waiting time. A NORMAL job at index k with h HIGH jobs
      present is served by a dequeue that finds HIGH empty, and before that dequeue
      exactly k + h + a others were served, a being the HIGH arrivals meanwhile. */
  lemma NormalWait(st: Store, cmds: seq<Cmd>, c: Cmd, k: nat)
    requires Inv(st) && Possible(st, cmds) && k < |st.lanes.normal|
    requires Enabled(Run(st, cmds), c)
    requires Holds(Run(st, cmds).lanes.normal, st.lanes.normal[k].id)
    requires !Holds(Apply(Run(st, cmds), c).lanes.normal, st.lanes.normal[k].id)
    ensures (c.Pop? || c.PopLost?) && Run(st, cmds).lanes.high == []
    ensures Head(Run(st, cmds).lanes).id == st.lanes.normal[k].id
    ensures Pops(cmds) == |st.lanes.high| + k + HighArrivals(cmds)
  {
    var k' := NormalProgress(st, cmds, k);
    NormalStays(Run(st, cmds), c, k');
  }

  /** HIGH is first in, first out, whatever waits in NORMAL. */
  lemma {:induction false} HighProgress(st: Store, cmds: seq<Cmd>, k: nat) returns (k': nat)
    requires Inv(st) && Possible(st, cmds) && k < |st.lanes.high|
    requires Holds(Run(st, cmds).lanes.high, st.lanes.high[k].id)
    ensures var end := Run(st, cmds);
      k' < |end.lanes.high| && end.lanes.high[k'].id == st.lanes.high[k].id && Pops(cmds) + k' == k
    decreases |cmds|
  {
    k' := k;
    if cmds != [] {
      hide Inv, Apply, Enabled, Holds;
      ApplyKeepsInv(st, cmds[0]);
      if Serves(cmds[0]) && k == 0 {
        ServedIsGone(st, cmds[0], cmds[1..]);
      } else {
        HighMoves(st, cmds[0], k);
        k' := HighProgress(Apply(st, cmds[0]), cmds[1..], if Serves(cmds[0]) then k - 1 else k);
      }
    }
  }

  lemma HighMoves(st: Store, c: Cmd, k: nat)
    requires Enabled(st, c) && k < |st.lanes.high| && !(Serves(c) && k == 0)
    ensures var next := Apply(st, c).lanes;
      var k' := if Serves(c) then k - 1 else k;
      k' < |next.high| && next.high[k'].id == st.lanes.high[k].id
  {
  }

  lemma HighWait(st: Store, cmds: seq<Cmd>, c: Cmd, k: nat)
    requires Inv(st) && Possible(st, cmds) && k < |st.lanes.high|
    requires Enabled(Run(st, cmds), c)
    requires Holds(Run(st, cmds).lanes.high, st.lanes.high[k].id)
    requires !Holds(Apply(Run(st, cmds), c).lanes.high, st.lanes.high[k].id)
    ensures (c.Pop? || c.PopLost?) && Pops(cmds) == k && Head(Run(st, cmds).lanes).id == st.lanes.high[k].id
  {
    var k' := HighProgress(st, cmds, k);
    HighStays(Run(st, cmds), c, k');
  }
}
