/** core/watchers: flaky-run detection and the bounded histories. */
module Watchers {
  import opened Common

  datatype WorkflowRun = WorkflowRun(name: string, status: string, conclusion: string, sha: string)

  predicate Concluded(r: WorkflowRun) {
    r.status == "completed" && r.conclusion != ""
  }

  /** The same workflow on the same commit both failed and succeeded. */
  ghost predicate IsFlaky(runs: seq<WorkflowRun>, name: string) {
    exists r, t :: r in runs && t in runs && r.name == name && t.name == name && r.sha == t.sha
      && r.status == "completed" && t.status == "completed" && r.conclusion == "failure" && t.conclusion == "success"
  }

  // --------------------------------------------------------------------------
  // The order of sorted(): strings by code point
  // --------------------------------------------------------------------------

  predicate Less(a: string, b: string) {
    b != "" && (a == "" || a[0] < b[0] || (a[0] == b[0] && Less(a[1..], b[1..])))
  }

  /** Up to position `n` the two agree, and there `a` ends or has the smaller character. */
  predicate DiffersAt(a: string, b: string, n: nat) {
    n <= |a| && n < |b| && a[..n] == b[..n] && (n == |a| || a[n] < b[n])
  }

  /** The lexicographic order: a proper prefix, or smaller at the first difference. */
  lemma {:induction false} LessIsLexicographic(a: string, b: string)
    ensures Less(a, b) <==> exists n: nat :: DiffersAt(a, b, n)
  {
    if b != "" && a != "" && a[0] == b[0] {
      LessIsLexicographic(a[1..], b[1..]);
      assert a == [a[0]] + a[1..] && b == [b[0]] + b[1..];
      if m: nat :| DiffersAt(a[1..], b[1..], m) {
        assert DiffersAt(a, b, m + 1);
      }
      if n: nat :| DiffersAt(a, b, n) {
        assert a[..n][1..] == a[1..][..n - 1] && b[..n][1..] == b[1..][..n - 1];
        assert DiffersAt(a[1..], b[1..], n - 1);
      }
    } else if Less(a, b) {
      assert DiffersAt(a, b, 0);
    }
  }

  lemma {:induction false} LessIsTotal(a: string, b: string)
    ensures a == b || Less(a, b) || Less(b, a)
    ensures !(Less(a, b) && Less(b, a)) && (Less(a, b) ==> a != b)
  {
    if a != "" && b != "" {
      LessIsTotal(a[1..], b[1..]);
      assert a == [a[0]] + a[1..] && b == [b[0]] + b[1..];
    }
  }

  lemma {:induction false} LessIsTransitive(a: string, b: string, c: string)
    requires Less(a, b) && Less(b, c)
    ensures Less(a, c)
  {
    if a != "" {
      if a[0] == b[0] == c[0] {
        LessIsTransitive(a[1..], b[1..], c[1..]);
      }
    }
  }

  ghost predicate Ascending(xs: seq<string>) {
    forall i, j | 0 <= i < j < |xs| :: Less(xs[i], xs[j])
  }

  function Insert(xs: seq<string>, x: string): seq<string> {
    if xs == [] then [x]
    else if Less(x, xs[0]) then [x] + xs
    else [xs[0]] + Insert(xs[1..], x)
  }

  lemma {:induction false} InsertKeepsOrder(xs: seq<string>, x: string)
    requires Ascending(xs) && x !in xs
    ensures Ascending(Insert(xs, x))
    ensures forall y :: y in Insert(xs, x) <==> y in xs || y == x
  {
    if xs == [] {
    } else if Less(x, xs[0]) {
      forall j | 0 < j < |xs| ensures Less(x, xs[j]) {
        LessIsTransitive(x, xs[0], xs[j]);
      }
    } else {
      LessIsTotal(x, xs[0]);
      InsertKeepsOrder(xs[1..], x);
      var rest := Insert(xs[1..], x);
      assert forall y :: y in xs <==> y == xs[0] || y in xs[1..];
      forall j | 0 <= j < |rest| ensures Less(xs[0], rest[j]) {
        assert rest[j] in rest;
      }
    }
  }

  /** Two ascending lists with the same members are the same list. */
  lemma {:induction false} AscendingIsUnique(xs: seq<string>, ys: seq<string>)
    requires Ascending(xs) && Ascending(ys) && forall z :: z in xs <==> z in ys
    ensures xs == ys
  {
    if xs == [] {
      assert forall i | 0 <= i < |ys| :: ys[i] in ys;
    } else {
      assert xs[0] in xs && xs[0] in ys;
      assert ys[0] in ys && ys[0] in xs;
      FirstIsLeast(xs, ys[0]);
      FirstIsLeast(ys, xs[0]);
      LessIsTotal(xs[0], ys[0]);
      TailMembers(xs);
      TailMembers(ys);
      AscendingIsUnique(xs[1..], ys[1..]);
    }
  }

  lemma FirstIsLeast(xs: seq<string>, z: string)
    requires Ascending(xs) && z in xs
    ensures z == xs[0] || Less(xs[0], z)
  {
  }

  lemma TailMembers(xs: seq<string>)
    requires Ascending(xs) && xs != []
    ensures forall z :: z in xs[1..] <==> z in xs && z != xs[0]
  {
    forall z | z in xs[1..] ensures z != xs[0] {
      LessIsTotal(xs[0], z);
    }
    assert xs == [xs[0]] + xs[1..];
  }

  // --------------------------------------------------------------------------
  // _detect_flaky_workflows
  // --------------------------------------------------------------------------

  ghost function Conclusions(runs: seq<WorkflowRun>, name: string, sha: string): set<string> {
    set r | r in runs && Concluded(r) && r.name == name && r.sha == sha :: r.conclusion
  }

  method DetectFlaky(runs: seq<WorkflowRun>) returns (flaky: seq<string>)
    ensures Ascending(flaky)
    ensures forall name :: name in flaky <==> IsFlaky(runs, name)
  {
    var seen: map<(string, string), set<string>> := map[];
    for n := 0 to |runs|
      invariant forall name, sha ::
        Conclusions(runs[..n], name, sha) == if (name, sha) in seen then seen[(name, sha)] else {}
    {
      var r := runs[n];
      assert forall t :: t in runs[..n + 1] <==> t in runs[..n] || t == r;
      if Concluded(r) {
        var key := (r.name, r.sha);
        seen := seen[key := (if key in seen then seen[key] else {}) + {r.conclusion}];
      }
    }
    assert runs[..|runs|] == runs;
    flaky := [];
    var todo := seen.Keys;
    while todo != {}
      invariant todo <= seen.Keys && Ascending(flaky)
      invariant forall name :: name in flaky <==>
        exists sha :: (name, sha) in seen.Keys - todo && "failure" in seen[(name, sha)] && "success" in seen[(name, sha)]
      decreases todo
    {
      var key :| key in todo;
      ghost var before := todo;
      todo := todo - {key};
      if "failure" in seen[key] && "success" in seen[key] && key.0 !in flaky {
        InsertKeepsOrder(flaky, key.0);
        flaky := Insert(flaky, key.0);
      }
      assert seen.Keys - todo == (seen.Keys - before) + {key};
      assert (key.0, key.1) == key;
    }
    forall name ensures name in flaky <==> IsFlaky(runs, name) {
      FlakyPairs(runs, seen, name);
    }
  }

  lemma FlakyPairs(runs: seq<WorkflowRun>, seen: map<(string, string), set<string>>, name: string)
    requires forall name, sha :: Conclusions(runs, name, sha) == if (name, sha) in seen then seen[(name, sha)] else {}
    ensures IsFlaky(runs, name) <==>
      exists sha :: (name, sha) in seen && "failure" in seen[(name, sha)] && "success" in seen[(name, sha)]
  {
    if IsFlaky(runs, name) {
      var r, t :| r in runs && t in runs && r.name == name && t.name == name && r.sha == t.sha
        && r.status == "completed" && t.status == "completed" && r.conclusion == "failure" && t.conclusion == "success";
      assert "failure" in Conclusions(runs, name, r.sha) && "success" in Conclusions(runs, name, r.sha);
    }
    if sha :| (name, sha) in seen && "failure" in seen[(name, sha)] && "success" in seen[(name, sha)] {
      assert "failure" in Conclusions(runs, name, sha) && "success" in Conclusions(runs, name, sha);
    }
  }

  /** The order of the runs does not matter: the result is the one ascending list of
      the flaky names. */
  lemma FlakyIgnoresOrder(runs: seq<WorkflowRun>, runs': seq<WorkflowRun>, flaky: seq<string>, flaky': seq<string>)
    requires multiset(runs) == multiset(runs')
    requires Ascending(flaky) && forall name :: name in flaky <==> IsFlaky(runs, name)
    requires Ascending(flaky') && forall name :: name in flaky' <==> IsFlaky(runs', name)
    ensures flaky == flaky'
  {
    assert forall r :: r in runs <==> r in multiset(runs);
    assert forall r :: r in runs' <==> r in multiset(runs');
    AscendingIsUnique(flaky, flaky');
  }

  // --------------------------------------------------------------------------
  // Bounded histories
  // --------------------------------------------------------------------------

  function LastN<T>(xs: seq<T>, n: nat): (r: seq<T>)
    ensures |r| == (if |xs| < n then |xs| else n) && r == xs[|xs| - |r|..]
  {
    if |xs| <= n then xs else xs[|xs| - n..]
  }

  datatype Check = Check(status: string, head: Option<string>)

  /** The head of the latest check that verified and had one. */
  function LatestHead(checks: seq<Check>): Option<string> {
    if checks == [] then None
    else
      var c := checks[|checks| - 1];
      if c.status == "CHAIN_VALID" && c.head.Some? then c.head else LatestHead(checks[..|checks| - 1])
  }

  /** Check i found the chain valid, and no later one did; both with a head. */
  predicate NewestValid(checks: seq<Check>, i: nat) {
    && i < |checks| && checks[i].status == "CHAIN_VALID" && checks[i].head.Some?
    && forall j | i < j < |checks| && checks[j].status == "CHAIN_VALID" :: checks[j].head.None?
  }

  lemma {:induction false} LatestHeadIs(checks: seq<Check>)
    ensures forall i: nat | NewestValid(checks, i) :: LatestHead(checks) == checks[i].head
    ensures LatestHead(checks).Some? <==> exists i: nat :: NewestValid(checks, i)
  {
    if checks != [] {
      var n := |checks| - 1;
      LatestHeadIs(checks[..n]);
      if checks[n].status == "CHAIN_VALID" && checks[n].head.Some? {
        assert NewestValid(checks, n);
      } else {
        forall i: nat | i < n ensures NewestValid(checks, i) <==> NewestValid(checks[..n], i) {
          assert forall j | 0 <= j < n :: checks[..n][j] == checks[j];
        }
      }
    }
  }

  class IntegrityWatcher {
    var history: seq<Check>
    var lastHead: Option<string>
    ghost var all: seq<Check>

    /** The ring is the last 100 of all checks ever made, and the last head that of
        the latest valid one, however far back. */
    ghost predicate Valid()
      reads this
    {
      history == LastN(all, 100) && lastHead == LatestHead(all)
    }

    constructor ()
      ensures Valid() && all == []
    {
      history, lastHead, all := [], None, [];
    }

    method CheckOnce(check: Check)
      requires Valid()
      modifies this
      ensures Valid() && all == old(all) + [check]
    {
      history := history + [check];
      if |history| > 100 {
        history := history[|history| - 100..];
      }
      if check.head != lastHead && check.head.Some? && check.status == "CHAIN_VALID" {
        lastHead := check.head;
      }
      assert (all + [check])[..|all|] == all;
      all := all + [check];
    }
  }
}
