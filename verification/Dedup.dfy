/** core/queues/dedup.py: the Redis claim on a (repo, sha) pair. */
module Dedup {
  import opened Common

  const PENDING := "PENDING"

  const NUL := 0 as char

  /** The text whose SHA-256 names the claim. */
  function KeyText(k: Key): string {
    k.repo + [NUL] + k.sha
  }

  /** Two pairs have the same text only if they are the same, as long as no sha holds
      a NUL; without that they need not be. */
  lemma KeyTextIsInjective(a: Key, b: Key)
    requires NUL !in a.sha && NUL !in b.sha
    ensures KeyText(a) == KeyText(b) <==> a == b
    ensures KeyText(Key("r" + [NUL], "s")) == KeyText(Key("r", [NUL] + "s"))
  {
    if KeyText(a) == KeyText(b) {
      NulIsLast(a);
      NulIsLast(b);
      assert |a.repo| == |b.repo|;
      assert KeyText(a)[..|a.repo|] == a.repo && KeyText(b)[..|b.repo|] == b.repo;
      assert KeyText(a)[|a.repo| + 1..] == a.sha && KeyText(b)[|b.repo| + 1..] == b.sha;
    }
  }

  lemma NulIsLast(k: Key)
    requires NUL !in k.sha
    ensures KeyText(k)[|k.repo|] == NUL && forall x | |k.repo| < x < |KeyText(k)| :: KeyText(k)[x] != NUL
  {
    forall x | |k.repo| < x < |KeyText(k)| ensures KeyText(k)[x] != NUL {
      assert KeyText(k)[x] == k.sha[x - |k.repo| - 1];
    }
  }

  datatype Claim = Claim(value: string, expiry: nat)

  /** One write that (re)starts the lifetime of a key: a won SET NX EX, or the
      SET EX of an attach. */
  datatype Touch = Touch(key: Key, at: nat, win: bool, value: string)

  /** The server: its clock, its keys, and as history the writes so far and, for
      each key an operator released, how many writes there were at its last release.
      Expired keys stay in `claims`; they are simply not `Live`. */
  datatype Store = Store(now: nat, claims: map<Key, Claim>, touches: seq<Touch>, released: map<Key, nat>)

  datatype Cmd = SetNx(key: Key) | Attach(key: Key, value: string) | Delete(key: Key) | Wait(seconds: nat)

  const EMPTY := Store(0, map[], [], map[])

  /** The first write that comes after the last release of `k`. */
  function Since(released: map<Key, nat>, k: Key): nat {
    if k in released then released[k] else 0
  }

  predicate Live(st: Store, k: Key) {
    k in st.claims && st.now < st.claims[k].expiry
  }

  function Get(st: Store, k: Key): Option<string> {
    if Live(st, k) then Some(st.claims[k].value) else None
  }

  function Write(st: Store, k: Key, value: string, win: bool, ttl: nat): Store {
    st.(claims := st.claims[k := Claim(value, st.now + ttl)],
        touches := st.touches + [Touch(k, st.now, win, value)])
  }

  function Apply(st: Store, c: Cmd, ttl: nat): Store {
    match c
    case SetNx(k) => if Live(st, k) then st else Write(st, k, PENDING, true, ttl)
    case Attach(k, v) => Write(st, k, v, false, ttl)
    case Delete(k) => st.(claims := st.claims - {k}, released := st.released[k := |st.touches|])
    case Wait(d) => st.(now := st.now + d)
  }

  function Run(st: Store, cmds: seq<Cmd>, ttl: nat): Store
    decreases |cmds|
  {
    if cmds == [] then st else Run(Apply(st, cmds[0], ttl), cmds[1..], ttl)
  }

  // --------------------------------------------------------------------------
  // The claim protocol over whole runs
  // --------------------------------------------------------------------------

  /** Every win comes at least `ttl` after every earlier write to its key, win or
      attach, since the key's last release. */
  ghost predicate Spaced(touches: seq<Touch>, released: map<Key, nat>, ttl: nat) {
    forall i, j | 0 <= i < j < |touches| && touches[j].win && touches[i].key == touches[j].key
                  && Since(released, touches[j].key) <= i ::
      touches[i].at + ttl <= touches[j].at
  }

  ghost predicate Ordered(touches: seq<Touch>, now: nat) {
    && (forall i | 0 <= i < |touches| :: touches[i].at <= now)
    && (forall i, j | 0 <= i < j < |touches| :: touches[i].at <= touches[j].at)
  }

  ghost predicate Inv(st: Store, ttl: nat) {
    && Ordered(st.touches, st.now)
    && Spaced(st.touches, st.released, ttl)
    && (forall k | k in st.released :: st.released[k] <= |st.touches|)
    && (forall i | 0 <= i < |st.touches| && Since(st.released, st.touches[i].key) <= i ::
          && st.touches[i].key in st.claims
          && st.touches[i].at + ttl <= st.claims[st.touches[i].key].expiry)
  }

  lemma ApplyKeepsInv(st: Store, c: Cmd, ttl: nat)
    requires Inv(st, ttl)
    ensures Inv(Apply(st, c, ttl), ttl)
    ensures st.touches <= Apply(st, c, ttl).touches && st.now <= Apply(st, c, ttl).now
  {
    match c
    case SetNx(k) =>
      if !Live(st, k) {
        WriteKeepsInv(st, k, PENDING, true, ttl);
      }
    case Attach(k, v) => WriteKeepsInv(st, k, v, false, ttl);
    case Delete(k) => DeleteKeepsInv(st, k, ttl);
    case Wait(_) =>
  }

  lemma DeleteKeepsInv(st: Store, k: Key, ttl: nat)
    requires Inv(st, ttl)
    ensures Inv(Apply(st, Delete(k), ttl), ttl)
  {
  }

  /** A write may come at any time; a win only when the key is not live. */
  lemma WriteKeepsInv(st: Store, k: Key, value: string, win: bool, ttl: nat)
    requires Inv(st, ttl) && (win ==> !Live(st, k))
    ensures Inv(Write(st, k, value, win, ttl), ttl)
  {
  }

  lemma {:induction false} RunKeepsInv(st: Store, cmds: seq<Cmd>, ttl: nat)
    requires Inv(st, ttl)
    ensures Inv(Run(st, cmds, ttl), ttl)
    decreases |cmds|
  {
    if cmds != [] {
      ApplyKeepsInv(st, cmds[0], ttl);
      RunKeepsInv(Apply(st, cmds[0], ttl), cmds[1..], ttl);
    }
  }

  /** Claim spacing. In every sequence of commands, issued by any number of
      processes that may crash, expire or attach late, two wins of one pair since its
      last release are at least `ttl` apart. */
  lemma ClaimSpacing(cmds: seq<Cmd>, ttl: nat, i: nat, j: nat)
    requires var st := Run(EMPTY, cmds, ttl);
      && i < j < |st.touches| && st.touches[j].win
      && st.touches[i].key == st.touches[j].key && Since(st.released, st.touches[i].key) <= i
    ensures var st := Run(EMPTY, cmds, ttl); st.touches[i].at + ttl <= st.touches[j].at
  {
    RunKeepsInv(EMPTY, cmds, ttl);
  }

  // --------------------------------------------------------------------------
  // What the server holds, told by the writes alone
  // --------------------------------------------------------------------------

  /** Write `i` is the newest one of `k`, and nobody released `k` since. */
  predicate IsNewest(st: Store, k: Key, i: nat) {
    && Since(st.released, k) <= i < |st.touches| && st.touches[i].key == k
    && forall j | i < j < |st.touches| :: st.touches[j].key != k
  }

  /** Write `i` of `k` is less than a ttl old, and nobody released `k` since. */
  predicate Young(st: Store, k: Key, i: nat, ttl: nat) {
    Since(st.released, k) <= i < |st.touches| && st.touches[i].key == k && st.now < st.touches[i].at + ttl
  }

  /** A key holds its newest write since its last release, from which its lifetime
      runs; without one it holds nothing. */
  ghost predicate Current(st: Store, ttl: nat) {
    && (forall k, i: nat | IsNewest(st, k, i) ::
          k in st.claims && st.claims[k] == Claim(st.touches[i].value, st.touches[i].at + ttl))
    && (forall k | k in st.claims :: exists i: nat :: IsNewest(st, k, i))
    && (forall i | 0 <= i < |st.touches| && st.touches[i].win :: st.touches[i].value == PENDING)
    && (forall k | k in st.released :: st.released[k] <= |st.touches|)
  }

  lemma WriteKeepsCurrent(st: Store, k: Key, value: string, win: bool, ttl: nat)
    requires Current(st, ttl) && (win ==> value == PENDING)
    ensures Current(Write(st, k, value, win, ttl), ttl)
  {
    var st' := Write(st, k, value, win, ttl);
    var n := |st.touches|;
    forall k', i: nat ensures IsNewest(st', k', i) <==> (if k' == k then i == n else IsNewest(st, k', i)) {
      WriteNewest(st, k, value, win, ttl, k', i);
    }
    hide IsNewest, Since;
    forall k', i: nat | IsNewest(st', k', i)
      ensures k' in st'.claims && st'.claims[k'] == Claim(st'.touches[i].value, st'.touches[i].at + ttl)
    {
      assert k' != k ==> IsNewest(st, k', i) && i < n;
    }
    forall k' | k' in st'.claims ensures exists i: nat :: IsNewest(st', k', i) {
      assert k' == k ==> IsNewest(st', k', n);
    }
  }

  lemma WriteNewest(st: Store, k: Key, value: string, win: bool, ttl: nat, k': Key, i: nat)
    requires Since(st.released, k) <= |st.touches|
    ensures IsNewest(Write(st, k, value, win, ttl), k', i) <==> (if k' == k then i == |st.touches| else IsNewest(st, k', i))
  {
    var st' := Write(st, k, value, win, ttl);
    assert st'.touches[|st.touches|].key == k;
    forall j | 0 <= j < |st.touches| ensures st'.touches[j] == st.touches[j] {
    }
  }

  lemma DeleteKeepsCurrent(st: Store, k: Key, ttl: nat)
    requires Current(st, ttl)
    ensures Current(Apply(st, Delete(k), ttl), ttl)
  {
    var st' := Apply(st, Delete(k), ttl);
    forall k', i: nat ensures IsNewest(st', k', i) <==> k' != k && IsNewest(st, k', i) {
      DeleteNewest(st, k, k', i, ttl);
    }
    hide IsNewest, Since;
    assert st'.touches == st.touches && st'.claims == st.claims - {k};
  }

  lemma DeleteNewest(st: Store, k: Key, k': Key, i: nat, ttl: nat)
    ensures IsNewest(Apply(st, Delete(k), ttl), k', i) <==> k' != k && IsNewest(st, k', i)
  {
  }

  lemma WaitKeepsCurrent(st: Store, d: nat, ttl: nat)
    requires Current(st, ttl)
    ensures Current(Apply(st, Wait(d), ttl), ttl)
  {
    var st' := Apply(st, Wait(d), ttl);
    assert forall k, i: nat :: IsNewest(st', k, i) <==> IsNewest(st, k, i);
    hide IsNewest, Since;
  }

  lemma ApplyKeepsCurrent(st: Store, c: Cmd, ttl: nat)
    requires Current(st, ttl)
    ensures Current(Apply(st, c, ttl), ttl)
  {
    match c
    case SetNx(k) => WriteKeepsCurrent(st, k, PENDING, true, ttl);
    case Attach(k, v) => WriteKeepsCurrent(st, k, v, false, ttl);
    case Delete(k) => DeleteKeepsCurrent(st, k, ttl);
    case Wait(d) => WaitKeepsCurrent(st, d, ttl);
  }

  /** A key is live exactly while some write of it since its last release, win or
      attach, is less than a ttl old; it then holds what its newest write wrote. */
  lemma GetIsNewestWrite(st: Store, k: Key, ttl: nat)
    requires Inv(st, ttl) && Current(st, ttl)
    ensures Live(st, k) <==> exists i: nat :: Young(st, k, i, ttl)
    ensures forall v :: Get(st, k) == Some(v) <==>
      exists i: nat :: IsNewest(st, k, i) && Young(st, k, i, ttl) && st.touches[i].value == v
  {
    if i: nat :| Young(st, k, i, ttl) {
      assert st.touches[i].at + ttl <= st.claims[k].expiry;
    }
    if k in st.claims {
      var i: nat :| IsNewest(st, k, i);
      assert Live(st, k) <==> Young(st, k, i, ttl);
    }
  }

  /** The number of wins of `k`, write `since` or later, in the closed window
      [from, from + width]. */
  function WinsIn(touches: seq<Touch>, since: nat, k: Key, from: nat, width: nat): nat {
    if touches == [] then 0
    else
      var t := touches[|touches| - 1];
      WinsIn(touches[..|touches| - 1], since, k, from, width)
      + (if since < |touches| && t.win && t.key == k && from <= t.at <= from + width then 1 else 0)
  }

  /** If there are `c` wins in the window then the last of them is at least
      `(c - 1) * ttl` after its start. */
  lemma {:induction false} LastWinIsLate(touches: seq<Touch>, k: Key, from: nat, width: nat, ttl: nat, released: map<Key, nat>)
    returns (last: nat)
    requires Spaced(touches, released, ttl)
    ensures var c := WinsIn(touches, Since(released, k), k, from, width);
      c > 0 ==>
        && Since(released, k) <= last < |touches| && touches[last].win && touches[last].key == k
        && from + (c - 1) * ttl <= touches[last].at <= from + width
  {
    last := 0;
    if touches != [] {
      var n := |touches| - 1;
      var rest := touches[..n];
      last := LastWinIsLate(rest, k, from, width, ttl, released);
      hide Since;
      var t := touches[n];
      if Since(released, k) <= n && t.win && t.key == k && from <= t.at <= from + width {
        var c := WinsIn(rest, Since(released, k), k, from, width);
        if c > 0 {
          assert touches[last].at + ttl <= t.at;
          OneMoreTtl(c, ttl);
        }
        last := n;
      }
    }
  }

  lemma OneMoreTtl(c: nat, ttl: nat)
    requires c > 0
    ensures (c - 1) * ttl + ttl == c * ttl
  {
  }

  /** At most floor(width / ttl) + 1 wins of one pair since its last release fall in
      any closed window. */
  lemma WindowBound(st: Store, k: Key, from: nat, width: nat, ttl: nat)
    requires ttl > 0 && Inv(st, ttl)
    ensures WinsIn(st.touches, Since(st.released, k), k, from, width) <= width / ttl + 1
    ensures width < ttl ==> WinsIn(st.touches, Since(st.released, k), k, from, width) <= 1
  {
    var c := WinsIn(st.touches, Since(st.released, k), k, from, width);
    var last := LastWinIsLate(st.touches, k, from, width, ttl, st.released);
    if c > 0 {
      DivideBound(c - 1, ttl, width);
      ShortWindow(c - 1, ttl, width);
    }
  }

  lemma ScaleMonotone(a: nat, b: nat, t: nat)
    requires a <= b
    ensures a * t <= b * t
  {
    assert b * t == a * t + (b - a) * t;
  }

  lemma ShortWindow(c: nat, ttl: nat, width: nat)
    requires c * ttl <= width
    ensures width < ttl ==> c == 0
  {
    if c > 0 {
      ScaleMonotone(1, c, ttl);
    }
  }

  lemma DivideBound(c: nat, ttl: nat, width: nat)
    requires ttl > 0 && c * ttl <= width
    ensures c <= width / ttl
  {
    var q := width / ttl;
    assert width < (q + 1) * ttl by {
      assert width == q * ttl + width % ttl;
    }
    if q < c {
      ScaleMonotone(q + 1, c, ttl);
    }
  }

  /** The window bound is reached: a claimant that comes back every `ttl` seconds
      wins every time. */
  function Hammer(k: Key, ttl: nat, n: nat): seq<Cmd> {
    if n == 0 then [] else Hammer(k, ttl, n - 1) + [SetNx(k), Wait(ttl)]
  }

  lemma {:induction false} RunAppend(st: Store, a: seq<Cmd>, b: seq<Cmd>, ttl: nat)
    ensures Run(st, a + b, ttl) == Run(Run(st, a, ttl), b, ttl)
    decreases |a|
  {
    if a == [] {
      assert a + b == b;
    } else {
      assert (a + b)[1..] == a[1..] + b;
      RunAppend(Apply(st, a[0], ttl), a[1..], b, ttl);
    }
  }

  lemma RunTwo(st: Store, a: Cmd, b: Cmd, ttl: nat)
    ensures Run(st, [a, b], ttl) == Apply(Apply(st, a, ttl), b, ttl)
  {
    assert [a, b][1..] == [b];
    assert Run(Apply(st, a, ttl), [b], ttl) == Run(Apply(Apply(st, a, ttl), b, ttl), [], ttl);
  }

  /** One round: the key is free, so the claim is won, and it has just expired
      when the round ends. */
  lemma HammerRound(st: Store, k: Key, ttl: nat, width: nat)
    requires ttl > 0 && !Live(st, k)
    ensures var st' := Run(st, [SetNx(k), Wait(ttl)], ttl);
      && !Live(st', k) && st'.now == st.now + ttl && st'.released == st.released
      && WinsIn(st'.touches, 0, k, 0, width)
           == WinsIn(st.touches, 0, k, 0, width) + (if st.now <= width then 1 else 0)
  {
    RunTwo(st, SetNx(k), Wait(ttl), ttl);
    var st' := Run(st, [SetNx(k), Wait(ttl)], ttl);
    assert st'.touches[..|st'.touches| - 1] == st.touches;
  }

  lemma {:induction false} HammerWins(k: Key, ttl: nat, m: nat, width: nat)
    requires ttl > 0 && (m > 0 ==> (m - 1) * ttl <= width)
    ensures var st := Run(EMPTY, Hammer(k, ttl, m), ttl);
      st.released == map[] && st.now == m * ttl && !Live(st, k) && WinsIn(st.touches, 0, k, 0, width) == m
    decreases m
  {
    if m > 0 {
      if m > 1 {
        ScaleMonotone(m - 2, m - 1, ttl);
      }
      HammerWins(k, ttl, m - 1, width);
      hide Live, WinsIn, Run, Since;
      assert (m - 1) * ttl + ttl == m * ttl;
      RunAppend(EMPTY, Hammer(k, ttl, m - 1), [SetNx(k), Wait(ttl)], ttl);
      HammerRound(Run(EMPTY, Hammer(k, ttl, m - 1), ttl), k, ttl, width);
    }
  }

  lemma WindowBoundIsTight(k: Key, ttl: nat, width: nat)
    requires ttl > 0
    ensures var n := width / ttl + 1;
      WinsIn(Run(EMPTY, Hammer(k, ttl, n), ttl).touches, 0, k, 0, width) == n
  {
    assert width / ttl * ttl <= width by {
      assert width == width / ttl * ttl + width % ttl;
    }
    HammerWins(k, ttl, width / ttl + 1, width);
  }

  /** The docstring of attach_workflow_id says the claim's lifetime is not
      extended. It is, unless the attach happens in the very second of the claim:
      the claim made at `won` still ends at `won + ttl` after the attach if and
      only if no time passed in between. */
  lemma AttachKeepsLifetime(st: Store, k: Key, value: string, ttl: nat, delay: nat)
    requires ttl > 0 && !Live(st, k)
    ensures var claimed := Apply(Apply(st, SetNx(k), ttl), Wait(delay), ttl);
      var attached := Apply(claimed, Attach(k, value), ttl);
      && claimed.claims[k].expiry == st.now + ttl
      && Live(attached, k) && Get(attached, k) == Some(value)
      && (attached.claims[k].expiry == claimed.claims[k].expiry <==> delay == 0)
      && (Live(claimed, k) <==> delay < ttl)
  {
  }

  // --------------------------------------------------------------------------
  // The code
  // --------------------------------------------------------------------------

  datatype ClaimResult = ClaimResult(acquired: bool, existing: Option<string>)

  /** The connection to the server, as dedup.py uses it. */
  class Guard {
    var store: Store
    const ttl: nat

    constructor (ttl: nat)
      ensures store == EMPTY && this.ttl == ttl
    {
      this.ttl := ttl;
      store := EMPTY;
    }

    /** acquire: one atomic SET NX EX, then a separate GET. `between` is whatever
        the other clients and the clock do before the GET is served; it is not
        reached when the claim is won. */
    method Acquire(k: Key, between: seq<Cmd>) returns (r: ClaimResult)
      modifies this`store
      ensures r.acquired <==> !Live(old(store), k)
      ensures r.acquired ==> r.existing == None && store == Apply(old(store), SetNx(k), ttl)
      ensures !r.acquired ==> store == Run(old(store), between, ttl) && r.existing == Get(store, k)
    {
      var won := !Live(store, k);
      if won {
        store := Write(store, k, PENDING, true, ttl);
        return ClaimResult(true, None);
      }
      store := Run(store, between, ttl);
      r := ClaimResult(false, Get(store, k));
    }

    method AttachWorkflowId(k: Key, value: string)
      modifies this`store
      ensures store == Apply(old(store), Attach(k, value), ttl)
      ensures ttl > 0 ==> Get(store, k) == Some(value)
    {
      store := Write(store, k, value, false, ttl);
    }

    method Release(k: Key)
      modifies this`store
      ensures store == Apply(old(store), Delete(k), ttl)
      ensures !Live(store, k)
    {
      store := store.(claims := store.claims - {k}, released := store.released[k := |store.touches|]);
    }

    method Peek(k: Key) returns (value: Option<string>)
      ensures value.Some? <==> Live(store, k)
      ensures value.Some? ==> value.value == store.claims[k].value && store.now < store.claims[k].expiry
    {
      value := Get(store, k);
    }
  }
}
