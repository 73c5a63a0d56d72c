/** core/queues/redis_queue.py and the worker loop of core/orchestrator/main.py:
    two priority lanes, a dead-letter lane, and the jobs taken out of them. */
module RedisQueue {
  import opened Common

  /** What a handler reads of a job's payload: commit keys and demo keys. */
  datatype Payload = Payload(repo: Option<string>, sha: Option<string>, scenario: string, skipRender: bool)

  /** A job as stored in Redis (the JSON round trip is taken as exact). */
  datatype Blob = Blob(id: nat, kind: string, payload: Payload, attempt: nat, notes: seq<string>)

  datatype Lane = HIGH | NORMAL

  datatype Lanes = Lanes(high: seq<Blob>, normal: seq<Blob>, failed: seq<Blob>)

  function Push(ls: Lanes, lane: Lane, b: Blob): Lanes {
    match lane
    case HIGH => ls.(high := ls.high + [b])
    case NORMAL => ls.(normal := ls.normal + [b])
  }

  predicate Empty(ls: Lanes) {
    ls.high == [] && ls.normal == []
  }

  /** BLPOP on [HIGH, NORMAL] serves the first lane that is not empty. */
  function Head(ls: Lanes): Blob
    requires !Empty(ls)
  {
    if ls.high != [] then ls.high[0] else ls.normal[0]
  }

  function Rest(ls: Lanes): Lanes
    requires !Empty(ls)
  {
    if ls.high != [] then ls.(high := ls.high[1..]) else ls.(normal := ls.normal[1..])
  }

  function Failed(b: Blob, error: string): Blob {
    b.(attempt := b.attempt + 1, notes := b.notes + [error])
  }

  // --------------------------------------------------------------------------
  // The life of jobs over whole runs
  // --------------------------------------------------------------------------

  datatype Place = InHigh | InNormal | InFailed | InHand(worker: nat) | Finished | Lost

  /** The lanes, the job each busy worker holds, and as history where every job
      ever enqueued is now. */
  datatype Store = Store(lanes: Lanes, hands: map<nat, Blob>, where: map<nat, Place>)

  const EMPTY := Store(Lanes([], [], []), map[], map[])

  datatype Cmd =
    | Enqueue(lane: Lane, job: Blob)
    | Pop(worker: nat)
    | PopLost                              // BLPOP popped, the reply never arrived
    | Finish(worker: nat)
    | Fail(worker: nat, error: string)
    | FailLost(worker: nat)                // the RPUSH onto FAILED raised
    | Crash(workers: set<nat>)

  predicate Enabled(st: Store, c: Cmd) {
    match c
    case Enqueue(_, b) => b.id !in st.where && b.attempt == 0 && b.notes == []
    case Pop(x) => x !in st.hands && !Empty(st.lanes)
    case PopLost => !Empty(st.lanes)
    case Finish(x) => x in st.hands
    case Fail(x, _) => x in st.hands
    case FailLost(x) => x in st.hands
    case Crash(xs) => true
  }

  function Apply(st: Store, c: Cmd): Store
    requires Enabled(st, c)
  {
    match c
    case Enqueue(lane, b) =>
      st.(lanes := Push(st.lanes, lane, b), where := st.where[b.id := if lane == HIGH then InHigh else InNormal])
    case Pop(x) =>
      var b := Head(st.lanes);
      Store(Rest(st.lanes), st.hands[x := b], st.where[b.id := InHand(x)])
    case PopLost =>
      st.(lanes := Rest(st.lanes), where := st.where[Head(st.lanes).id := Lost])
    case Finish(x) =>
      st.(hands := st.hands - {x}, where := st.where[st.hands[x].id := Finished])
    case Fail(x, error) =>
      Store(st.lanes.(failed := st.lanes.failed + [Failed(st.hands[x], error)]),
            st.hands - {x}, st.where[st.hands[x].id := InFailed])
    case FailLost(x) =>
      st.(hands := st.hands - {x}, where := st.where[st.hands[x].id := Lost])
    case Crash(xs) =>
      st.(hands := st.hands - xs,
          where := map id | id in st.where ::
            if st.where[id].InHand? && st.where[id].worker in xs then Lost else st.where[id])
  }

  predicate Holds(lane: seq<Blob>, id: nat) {
    exists i | 0 <= i < |lane| :: lane[i].id == id
  }

  ghost predicate LaneInv(st: Store, lane: seq<Blob>, place: Place) {
    && (forall i | 0 <= i < |lane| :: lane[i].id in st.where && st.where[lane[i].id] == place)
    && (forall i, j | 0 <= i < j < |lane| :: lane[i].id != lane[j].id)
    && (forall id | id in st.where && st.where[id] == place :: Holds(lane, id))
  }

  /** The workers' hands and the places agree. */
  ghost predicate HandsAgree(st: Store) {
    && (forall x | x in st.hands :: st.hands[x].id in st.where && st.where[st.hands[x].id] == InHand(x))
    && (forall id | id in st.where && st.where[id].InHand? ::
          st.where[id].worker in st.hands && st.hands[st.where[id].worker].id == id)
  }

  /** The attempt counter is the number of notes: 0 until a job fails, 1 from then on. */
  ghost predicate Counted(st: Store) {
    && (forall b | b in st.lanes.high + st.lanes.normal :: b.attempt == 0 && b.notes == [])
    && (forall x | x in st.hands :: st.hands[x].attempt == 0 && st.hands[x].notes == [])
    && (forall b | b in st.lanes.failed :: b.attempt == 1 && |b.notes| == 1)
  }

  /** Conservation: every enqueued job is in exactly one place, the lanes and the
      workers' hands hold exactly the jobs recorded there, nothing twice; and a
      job's attempt counter equals the number of its notes, 0 until it fails and 1
      in the dead-letter lane. */
  ghost predicate Inv(st: Store) {
    && LaneInv(st, st.lanes.high, InHigh)
    && LaneInv(st, st.lanes.normal, InNormal)
    && LaneInv(st, st.lanes.failed, InFailed)
    && HandsAgree(st) && Counted(st)
  }

  predicate Terminal(p: Place) {
    p.InFailed? || p.Finished? || p.Lost?
  }

  /** A job never goes backwards: not out of a terminal place, and not from a
      worker back into a lane, so nothing is delivered twice. */
  ghost predicate Forward(a: Store, b: Store) {
    && a.where.Keys <= b.where.Keys
    && a.lanes.failed <= b.lanes.failed
    && (forall id | id in a.where && Terminal(a.where[id]) :: b.where[id] == a.where[id])
    && (forall id | id in a.where && a.where[id].InHand? :: b.where[id] == a.where[id] || Terminal(b.where[id]))
  }
}
