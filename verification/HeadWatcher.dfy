/** core/events/watcher.py: turning observations of HEAD into commit events. */
module HeadWatcher {
  import opened Common

  datatype Event = Event(prev: Option<string>, sha: string)

  /** One look at HEAD: what `git rev-parse` said (None when it failed), and whether
      the event loop could still be scheduled on. */
  datatype Look = Look(seen: Option<string>, loopOpen: bool)

  /** A handler's `_last_sha` and the events it scheduled. */
  datatype View = View(last: Option<string>, scheduled: seq<Event>)

  /** A look that moves the head: a non-empty sha other than the last one. */
  predicate Moves(last: Option<string>, seen: Option<string>) {
    seen.Some? && seen.value != "" && seen != last
  }

  function Observe(v: View, look: Look): View {
    if !Moves(v.last, look.seen) then v
    else View(look.seen, if look.loopOpen then v.scheduled + [Event(v.last, look.seen.value)] else v.scheduled)
  }

  function Watch(v: View, looks: seq<Look>): View {
    if looks == [] then v else Observe(Watch(v, looks[..|looks| - 1]), looks[|looks| - 1])
  }

  // --------------------------------------------------------------------------
  // Reference: the observed heads, without failures and repetitions
  // --------------------------------------------------------------------------

  /** The shas observed, failed looks left out. */
  function Shas(looks: seq<Look>): seq<string> {
    if looks == [] then []
    else
      var seen := looks[|looks| - 1].seen;
      Shas(looks[..|looks| - 1]) + (if seen.Some? && seen.value != "" then [seen.value] else [])
  }

  function LastSha(init: Option<string>, shas: seq<string>): Option<string> {
    if shas == [] then init else Some(shas[|shas| - 1])
  }

  /** `shas` without those equal to their predecessor, the first one being compared
      with `init`. */
  function StutterFree(init: Option<string>, shas: seq<string>): seq<string> {
    if shas == [] then []
    else
      var rest := shas[..|shas| - 1];
      var s := shas[|shas| - 1];
      StutterFree(init, rest) + (if Some(s) == LastSha(init, rest) then [] else [s])
  }

  function News(events: seq<Event>): seq<string> {
    seq(|events|, i requires 0 <= i < |events| => events[i].sha)
  }

  /** Each event starts where the one before it ended, the first at `init`. */
  ghost predicate Chained(init: Option<string>, events: seq<Event>) {
    && (events != [] ==> events[0].prev == init)
    && (forall i | 0 < i < |events| :: events[i].prev == Some(events[i - 1].sha))
  }

  /** Some look moved the head while the loop was closed. */
  predicate Missed(v: View, looks: seq<Look>) {
    looks != []
    && var n := |looks| - 1;
      Missed(v, looks[..n]) || (!looks[n].loopOpen && Moves(Watch(v, looks[..n]).last, looks[n].seen))
  }

  lemma {:induction false} LastIsCurrent(init: Option<string>, looks: seq<Look>)
    ensures Watch(View(init, []), looks).last == LastSha(init, Shas(looks))
  {
    if looks != [] {
      LastIsCurrent(init, looks[..|looks| - 1]);
      var rest := Shas(looks[..|looks| - 1]);
      var seen := looks[|looks| - 1].seen;
      if seen.Some? && seen.value != "" {
        assert (rest + [seen.value])[|rest|] == seen.value;
      } else {
        assert rest + [] == rest;
      }
    }
  }

  lemma {:induction false} StutterFreeStep(init: Option<string>, looks: seq<Look>)
    requires looks != []
    ensures var n := |looks| - 1;
      StutterFree(init, Shas(looks))
      == StutterFree(init, Shas(looks[..n]))
         + (if Moves(LastSha(init, Shas(looks[..n])), looks[n].seen) then [looks[n].seen.value] else [])
  {
    var rest := Shas(looks[..|looks| - 1]);
    var seen := looks[|looks| - 1].seen;
    if seen.Some? && seen.value != "" {
      assert (rest + [seen.value])[..|rest|] == rest;
    } else {
      assert rest + [] == rest;
    }
  }

  lemma ChainGrows(init: Option<string>, events: seq<Event>, e: Event)
    requires Chained(init, events)
    requires e.prev == if events == [] then init else Some(events[|events| - 1].sha)
    ensures Chained(init, events + [e])
  {
  }

  /** Completeness. The scheduled events form an unbroken chain from the initial head
      whose shas are exactly the observed heads without repetitions, if and only if
      no head moved while the loop was closed. */
  lemma {:induction false} WatcherIsComplete(init: Option<string>, looks: seq<Look>)
    ensures var v := Watch(View(init, []), looks);
      && |v.scheduled| <= |StutterFree(init, Shas(looks))|
      && (!Missed(View(init, []), looks) <==> News(v.scheduled) == StutterFree(init, Shas(looks)))
      && (!Missed(View(init, []), looks) ==> Chained(init, v.scheduled))
      && (!Missed(View(init, []), looks) && v.scheduled != [] ==> v.last == Some(v.scheduled[|v.scheduled| - 1].sha))
      && (v.scheduled == [] && !Missed(View(init, []), looks) ==> v.last == init)
      && (Missed(View(init, []), looks) ==> |v.scheduled| < |StutterFree(init, Shas(looks))|)
  {
    if looks != [] {
      var n := |looks| - 1;
      WatcherIsComplete(init, looks[..n]);
      LastIsCurrent(init, looks[..n]);
      StutterFreeStep(init, looks);
      var v := Watch(View(init, []), looks[..n]);
      var v' := Watch(View(init, []), looks);
      assert Moves(v.last, looks[n].seen) && looks[n].loopOpen ==>
        News(v'.scheduled) == News(v.scheduled) + [looks[n].seen.value];
      if Moves(v.last, looks[n].seen) && !Missed(View(init, []), looks) {
        ChainGrows(init, v.scheduled, Event(v.last, looks[n].seen.value));
      }
      assert !Moves(v.last, looks[n].seen) ==>
        StutterFree(init, Shas(looks)) == StutterFree(init, Shas(looks[..n]));
    }
  }

  // --------------------------------------------------------------------------
  // The code
  // --------------------------------------------------------------------------

  class GitHeadHandler {
    var lastSha: Option<string>
    var scheduled: seq<Event>

    function State(): View
      reads this
    {
      View(lastSha, scheduled)
    }

    constructor (head: Option<string>)
      ensures State() == View(head, [])
    {
      lastSha, scheduled := head, [];
    }

    /** on_any_event: events on paths other than HEAD and refs are dropped before
        HEAD is looked at. */
    method OnAnyEvent(relevant: bool, look: Look)
      modifies this
      ensures State() == if relevant then Observe(old(State()), look) else old(State())
    {
      if !relevant {
        return;
      }
      if Moves(lastSha, look.seen) {
        var prev := lastSha;
        lastSha := look.seen;
        if look.loopOpen {
          scheduled := scheduled + [Event(prev, look.seen.value)];
        }
      }
    }
  }

  class EventWatcher {
    var handlers: seq<GitHeadHandler>
    var hasLoop: bool

    constructor ()
      ensures handlers == [] && !hasLoop
    {
      handlers, hasLoop := [], false;
    }

    /** _reconcile_after_start: every handler looks once more at its own HEAD. */
    method ReconcileAfterStart(looks: seq<Look>)
      requires |looks| == |handlers|
      requires forall i, j | 0 <= i < j < |handlers| :: handlers[i] != handlers[j]
      modifies handlers
      ensures forall i | 0 <= i < |handlers| ::
        handlers[i].State() == if hasLoop then Observe(old(handlers[i].State()), looks[i]) else old(handlers[i].State())
    {
      if !hasLoop {
        return;
      }
      for n := 0 to |handlers|
        invariant forall i | 0 <= i < |handlers| ::
          handlers[i].State() == if i < n then Observe(old(handlers[i].State()), looks[i]) else old(handlers[i].State())
      {
        var h := handlers[n];
        if Moves(h.lastSha, looks[n].seen) {
          var prev := h.lastSha;
          h.lastSha := looks[n].seen;
          if looks[n].loopOpen {
            h.scheduled := h.scheduled + [Event(prev, looks[n].seen.value)];
          }
        }
      }
    }
  }
}
