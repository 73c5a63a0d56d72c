/** agents/engineering/summarizer.py, _parse_json: which part of a reply is taken for
    JSON. Two regular expressions are tried: a fenced object (leftmost, its body as
    short as possible), then the first brace to the last brace. */
module ParseJson {
  import opened Common

  /** What \s matches in a Python str pattern. */
  predicate IsSpace(c: char) {
    var n := c as int;
    || 0x09 <= n <= 0x0D || 0x1C <= n <= 0x20 || n == 0x85 || n == 0xA0 || n == 0x1680
    || 0x2000 <= n <= 0x200A || n == 0x2028 || n == 0x2029 || n == 0x202F || n == 0x205F || n == 0x3000
  }

  /** Among the ASCII characters: tab to carriage return, the four separators, space. */
  lemma AsciiSpaces(c: char)
    requires c as int < 128
    ensures IsSpace(c) <==> c as int in {9, 10, 11, 12, 13, 28, 29, 30, 31, 32}
    ensures IsSpace('\n') && IsSpace('\t') && IsSpace(' ')
  {
  }

  predicate AllSpace(s: string, i: nat, j: nat)
    requires i <= j <= |s|
  {
    forall x | i <= x < j :: IsSpace(s[x])
  }

  predicate TicksAt(s: string, i: nat) {
    i + 3 <= |s| && s[i] == '`' && s[i + 1] == '`' && s[i + 2] == '`'
  }

  predicate JsonAt(s: string, i: nat) {
    i + 4 <= |s| && s[i] == 'j' && s[i + 1] == 's' && s[i + 2] == 'o' && s[i + 3] == 'n'
  }

  /** The end of the whitespace that starts at `i`. */
  function SkipSpaces(s: string, i: nat): (r: nat)
    requires i <= |s|
    ensures i <= r <= |s| && AllSpace(s, i, r) && (r < |s| ==> !IsSpace(s[r]))
    decreases |s| - i
  {
    if i < |s| && IsSpace(s[i]) then SkipSpaces(s, i + 1) else i
  }

  /** The brace that the opening of the fenced pattern reaches from `i`. */
  function OpensAt(s: string, i: nat): Option<nat> {
    if !TicksAt(s, i) then None
    else
      var b := SkipSpaces(s, if JsonAt(s, i + 3) then i + 7 else i + 3);
      if b < |s| && s[b] == '{' then Some(b) else None
  }

  /** The brace at `e` can end the fenced pattern. */
  predicate ClosesAt(s: string, e: nat) {
    e < |s| && s[e] == '}' && TicksAt(s, SkipSpaces(s, e + 1))
  }

  function FirstClose(s: string, from: nat): Option<nat>
    decreases |s| - from
  {
    if from >= |s| then None else if ClosesAt(s, from) then Some(from) else FirstClose(s, from + 1)
  }

  /** The fenced match that starts at `i`, if there is one. */
  function MatchAt(s: string, i: nat): Option<(nat, nat)> {
    match OpensAt(s, i)
    case None => None
    case Some(b) =>
      match FirstClose(s, b + 1)
      case None => None
      case Some(e) => Some((b, e))
  }

  /** The fenced match that starts at `i` or later: where its braces are. */
  function Search(s: string, i: nat): Option<(nat, nat)>
    decreases |s| - i
  {
    if i >= |s| then None
    else
      var m := MatchAt(s, i);
      if m.Some? then m else Search(s, i + 1)
  }

  function FirstOf(s: string, c: char): nat {
    if s == "" || s[0] == c then 0 else 1 + FirstOf(s[1..], c)
  }

  /** One past the last `c`, or 0. */
  function EndOf(s: string, c: char): nat {
    if s == "" then 0 else if s[|s| - 1] == c then |s| else EndOf(s[..|s| - 1], c)
  }

  function Braced(s: string): string {
    var a, z := FirstOf(s, '{'), EndOf(s, '}');
    if a < z <= |s| then s[a..z] else s
  }

  function Extract(s: string): string {
    match Search(s, 0)
    case Some((b, e)) => if b <= e < |s| then s[b..e + 1] else s
    case None => Braced(s)
  }

  // --------------------------------------------------------------------------
  // The search against the pattern's own definition
  // --------------------------------------------------------------------------

  /** The pattern as a relation: three backticks at `i`, `json` or nothing, spaces, a
      brace at `b`, anything, a brace at `e`, spaces, three backticks. */
  ghost predicate Opening(s: string, i: nat, b: nat) {
    && TicksAt(s, i) && b < |s| && s[b] == '{'
    && ((i + 3 <= b && AllSpace(s, i + 3, b)) || (JsonAt(s, i + 3) && i + 7 <= b && AllSpace(s, i + 7, b)))
  }

  ghost predicate Closing(s: string, e: nat) {
    e < |s| && s[e] == '}' && exists z :: e < z <= |s| && AllSpace(s, e + 1, z) && TicksAt(s, z)
  }

  ghost predicate FenceMatch(s: string, i: nat, b: nat, e: nat) {
    Opening(s, i, b) && b < e && Closing(s, e)
  }

  lemma SkipIs(s: string, i: nat, r: nat)
    requires i <= r <= |s| && AllSpace(s, i, r) && (r < |s| ==> !IsSpace(s[r]))
    ensures SkipSpaces(s, i) == r
  {
    var k := SkipSpaces(s, i);
    assert k < |s| ==> !IsSpace(s[k]);
    assert r < |s| ==> !IsSpace(s[r]);
  }

  lemma OpensIsOpening(s: string, i: nat, b: nat)
    ensures OpensAt(s, i) == Some(b) <==> Opening(s, i, b)
  {
    if Opening(s, i, b) {
      if i + 3 <= b && AllSpace(s, i + 3, b) {
        assert s[i + 3] == '{' || IsSpace(s[i + 3]);
        SkipIs(s, i + 3, b);
      } else {
        SkipIs(s, i + 7, b);
      }
    }
  }

  lemma ClosesIsClosing(s: string, e: nat)
    ensures ClosesAt(s, e) <==> Closing(s, e)
  {
    if Closing(s, e) {
      var z :| e < z <= |s| && AllSpace(s, e + 1, z) && TicksAt(s, z);
      SkipIs(s, e + 1, z);
    }
  }

  lemma {:induction false} FirstCloseIsFirst(s: string, from: nat)
    ensures match FirstClose(s, from)
      case Some(e) => from <= e && ClosesAt(s, e) && forall x | from <= x < e :: !ClosesAt(s, x)
      case None => forall x | from <= x :: !ClosesAt(s, x)
    decreases |s| - from
  {
    if from < |s| && !ClosesAt(s, from) {
      FirstCloseIsFirst(s, from + 1);
    }
  }

  lemma MatchAtIsShortest(s: string, i: nat)
    ensures match MatchAt(s, i)
      case Some((b, e)) => FenceMatch(s, i, b, e) && forall b': nat, e': nat | FenceMatch(s, i, b', e') :: b' == b && e <= e'
      case None => forall b': nat, e': nat :: !FenceMatch(s, i, b', e')
  {
    hide Opening, Closing, OpensAt, ClosesAt;
    var b := OpensAt(s, i);
    if b.Some? {
      FirstCloseIsFirst(s, b.value + 1);
      OpensIsOpening(s, i, b.value);
      if FirstClose(s, b.value + 1).Some? {
        ClosesIsClosing(s, FirstClose(s, b.value + 1).value);
      }
    }
    forall b': nat, e': nat | FenceMatch(s, i, b', e') ensures b == Some(b') && ClosesAt(s, e') {
      OpensIsOpening(s, i, b');
      ClosesIsClosing(s, e');
    }
  }

  lemma NoMatchPastEnd(s: string, i: nat, b: nat, e: nat)
    requires i >= |s|
    ensures !FenceMatch(s, i, b, e)
  {
  }

  /** The search finds the leftmost match, and of those the one with the shortest
      body; it finds nothing only when nothing matches. */
  lemma {:induction false} SearchIsLeftmostLazy(s: string, i: nat) returns (start: nat)
    ensures match Search(s, i)
      case Some((b, e)) =>
        && i <= start && FenceMatch(s, start, b, e)
        && (forall i': nat, b': nat, e': nat | i <= i' && FenceMatch(s, i', b', e') ::
              start <= i' && (start == i' ==> b' == b && e <= e'))
      case None => forall i': nat, b': nat, e': nat | i <= i' :: !FenceMatch(s, i', b', e')
    decreases |s| - i
  {
    hide FenceMatch, OpensAt, FirstClose;
    start := i;
    if i < |s| {
      MatchAtIsShortest(s, i);
      if MatchAt(s, i).None? {
        start := SearchIsLeftmostLazy(s, i + 1);
      }
    } else {
      forall i': nat, b': nat, e': nat | i <= i' ensures !FenceMatch(s, i', b', e') {
        NoMatchPastEnd(s, i', b', e');
      }
    }
  }

  /** No part of `s` matches the fenced pattern. */
  ghost predicate NoFence(s: string) {
    forall i: nat, b: nat, e: nat :: !FenceMatch(s, i, b, e)
  }

  lemma NoFenceIsNone(s: string)
    ensures NoFence(s) <==> Search(s, 0).None?
  {
    var start := SearchIsLeftmostLazy(s, 0);
  }

  // --------------------------------------------------------------------------
  // Idempotence
  // --------------------------------------------------------------------------

  /** A match inside a piece of `s` is a match of `s`, shifted. */
  lemma MatchInPiece(s: string, lo: nat, hi: nat, i: nat, b: nat, e: nat)
    requires lo <= hi <= |s| && FenceMatch(s[lo..hi], i, b, e)
    ensures FenceMatch(s, lo + i, lo + b, lo + e) && lo + e + 1 < hi
  {
    var t := s[lo..hi];
    assert forall x | 0 <= x < |t| :: t[x] == s[lo + x];
    var z :| e < z <= |t| && AllSpace(t, e + 1, z) && TicksAt(t, z);
    assert AllSpace(s, lo + e + 1, lo + z);
    assert TicksAt(s, lo + z);
    if i + 3 <= b && AllSpace(t, i + 3, b) {
      assert AllSpace(s, lo + i + 3, lo + b);
    } else {
      assert AllSpace(s, lo + i + 7, lo + b);
    }
  }

  lemma {:induction false} FirstOfIsFirst(s: string, c: char)
    ensures var a := FirstOf(s, c);
      a <= |s| && (a < |s| ==> s[a] == c) && forall x | 0 <= x < a :: s[x] != c
  {
    if s != "" && s[0] != c {
      FirstOfIsFirst(s[1..], c);
      assert forall x | 1 <= x < |s| :: s[x] == s[1..][x - 1];
    }
  }

  lemma {:induction false} EndOfIsLast(s: string, c: char)
    ensures var z := EndOf(s, c);
      z <= |s| && (z > 0 ==> s[z - 1] == c) && forall x | z <= x < |s| :: s[x] != c
  {
    if s != "" && s[|s| - 1] != c {
      EndOfIsLast(s[..|s| - 1], c);
    }
  }

  /** Text from an opening to a closing brace is already its own brace match. */
  lemma BracedWhole(o: string)
    requires |o| >= 2 && o[0] == '{' && o[|o| - 1] == '}'
    ensures Braced(o) == o
  {
    FirstOfIsFirst(o, '{');
    EndOfIsLast(o, '}');
    assert o[0..|o|] == o;
  }

  /** Extracting from an extraction returns it unchanged. */
  lemma ExtractIsIdempotent(s: string)
    ensures Extract(Extract(s)) == Extract(s)
  {
    var start := SearchIsLeftmostLazy(s, 0);
    match Search(s, 0)
    case Some((b, e)) => FencedIsFixed(s, start, b, e);
    case None => BracedIsFixed(s);
  }

  lemma FencedIsFixed(s: string, start: nat, b: nat, e: nat)
    requires Search(s, 0) == Some((b, e)) && FenceMatch(s, start, b, e)
    requires forall i': nat, b': nat, e': nat | FenceMatch(s, i', b', e') ::
      start <= i' && (start == i' ==> b' == b && e <= e')
    ensures Extract(s[b..e + 1]) == s[b..e + 1]
  {
    var o := s[b..e + 1];
    forall i: nat, b1: nat, e1: nat ensures !FenceMatch(o, i, b1, e1) {
      if FenceMatch(o, i, b1, e1) {
        // Its closing brace would have ended the match of s earlier.
        MatchInPiece(s, b, e + 1, i, b1, e1);
        assert FenceMatch(s, start, b, b + e1);
      }
    }
    NoFenceIsNone(o);
    BracedWhole(o);
  }

  lemma BracedIsFixed(s: string)
    requires Search(s, 0).None?
    ensures Extract(Braced(s)) == Braced(s)
  {
    NoFenceIsNone(s);
    FirstOfIsFirst(s, '{');
    EndOfIsLast(s, '}');
    var a, z := FirstOf(s, '{'), EndOf(s, '}');
    if a < z {
      var o := s[a..z];
      forall i: nat, b1: nat, e1: nat ensures !FenceMatch(o, i, b1, e1) {
        if FenceMatch(o, i, b1, e1) {
          MatchInPiece(s, a, z, i, b1, e1);
        }
      }
      NoFenceIsNone(o);
      assert s[a] == '{' && s[z - 1] == '}';
      BracedWhole(o);
    }
  }

  // --------------------------------------------------------------------------
  // Recovery
  // --------------------------------------------------------------------------

  ghost predicate BraceFree(s: string) {
    forall x | 0 <= x < |s| :: s[x] != '{' && s[x] != '}'
  }

  predicate IsObjectText(o: string) {
    |o| >= 2 && o[0] == '{' && o[|o| - 1] == '}'
  }

  /** Every match of the fenced pattern ends at `last`, and one of them begins at
      `first`. */
  ghost predicate FencesOnly(s: string, first: nat, last: nat) {
    && (exists i: nat :: FenceMatch(s, i, first, last))
    && (forall i: nat, b: nat, e: nat | FenceMatch(s, i, b, e) :: e == last)
  }

  /** An object text in brace-free prose is recovered exactly if nothing in the whole
      input matches the fenced pattern, or the prose itself fences the object and
      nothing closes inside it. */
  lemma ProseRecovery(p: string, o: string, q: string)
    requires BraceFree(p) && BraceFree(q) && IsObjectText(o)
    ensures var s := p + o + q;
      Extract(s) == o <==> NoFence(s) || FencesOnly(s, |p|, |p| + |o| - 1)
  {
    var s := p + o + q;
    ProseBraces(p, o, q);
    NoFenceIsNone(s);
    if NoFence(s) {
      BracedObject(s, |p|, o);
    } else {
      ProseFenced(s, |p|, o);
    }
  }

  /** Where the braces of the input are. */
  ghost predicate BracesWithin(s: string, lo: nat, o: string) {
    && lo + |o| <= |s| && s[lo..lo + |o|] == o
    && forall x | 0 <= x < |s| && (s[x] == '{' || s[x] == '}') :: lo <= x < lo + |o|
  }

  lemma ProseBraces(p: string, o: string, q: string)
    requires BraceFree(p) && BraceFree(q)
    ensures BracesWithin(p + o + q, |p|, o)
  {
    assert (p + o + q)[|p|..|p| + |o|] == o;
  }

  lemma BracedObject(s: string, lo: nat, o: string)
    requires BracesWithin(s, lo, o) && IsObjectText(o)
    ensures Braced(s) == o
  {
    FirstOfIsFirst(s, '{');
    EndOfIsLast(s, '}');
    assert s[lo] == o[0] && s[lo + |o| - 1] == o[|o| - 1];
    assert FirstOf(s, '{') == lo && EndOf(s, '}') == lo + |o|;
  }

  lemma ProseFenced(s: string, lo: nat, o: string)
    requires BracesWithin(s, lo, o) && IsObjectText(o) && Search(s, 0).Some?
    ensures Extract(s) == o <==> FencesOnly(s, lo, lo + |o| - 1)
  {
    var start := SearchIsLeftmostLazy(s, 0);
    var (b, e) := Search(s, 0).value;
    assert s[b] == '{' && s[e] == '}' && s[lo] == o[0];
    WholeMatch(s, lo, o, b, e);
    WholeFence(s, lo, lo + |o| - 1, start, b, e);
  }

  lemma WholeMatch(s: string, lo: nat, o: string, b: nat, e: nat)
    requires lo + |o| <= |s| && s[lo..lo + |o|] == o && |o| > 0
    requires lo <= b < e < lo + |o|
    ensures s[b..e + 1] == o <==> b == lo && e == lo + |o| - 1
  {
    assert |s[b..e + 1]| == e + 1 - b;
  }

  /** The leftmost lazy match is the whole object exactly when FencesOnly says so. */
  lemma WholeFence(s: string, first: nat, last: nat, start: nat, b: nat, e: nat)
    requires first < last < |s| && s[first] == '{'
    requires forall x | 0 <= x < |s| && (s[x] == '{' || s[x] == '}') :: first <= x <= last
    requires FenceMatch(s, start, b, e)
    requires forall i': nat, b': nat, e': nat | FenceMatch(s, i', b', e') ::
      start <= i' && (start == i' ==> b' == b && e <= e')
    ensures b == first && e == last <==> FencesOnly(s, first, last)
  {
    if b == first && e == last {
      forall i': nat, b': nat, e': nat | FenceMatch(s, i', b', e') ensures e' == last {
        assert s[b'] == '{' && s[e'] == '}';
        assert FenceMatch(s, start, b, e');
      }
    }
    if FencesOnly(s, first, last) {
      var i: nat :| FenceMatch(s, i, first, last);
      assert s[b] == '{';
      if start < i {
        OpeningStopsAtBrace(s, start, b, first);
      }
    }
  }

  /** The brace an opening reaches is the first one after its backticks. */
  lemma OpeningStopsAtBrace(s: string, i: nat, b: nat, x: nat)
    requires Opening(s, i, b) && i + 3 <= x < |s| && s[x] == '{'
    ensures b <= x
  {
    assert !IsSpace('{');
  }

  const TICKS := "```"

  predicate Blank(s: string) {
    forall x | 0 <= x < |s| :: IsSpace(s[x])
  }

  function Fenced(p: string, tag: string, ws: string, o: string, ws2: string, q: string): string {
    p + TICKS + tag + ws + o + ws2 + TICKS + q
  }

  predicate PieceAt(s: string, lo: nat, t: string) {
    lo + |t| <= |s| && forall x | lo <= x < lo + |t| :: s[x] == t[x - lo]
  }

  lemma FencedPieces(p: string, tag: string, ws: string, o: string, ws2: string, q: string)
    ensures var s := Fenced(p, tag, ws, o, ws2, q);
      var f, b := |p|, |p| + 3 + |tag| + |ws|;
      && PieceAt(s, 0, p) && PieceAt(s, f, TICKS) && PieceAt(s, f + 3, tag) && PieceAt(s, f + 3 + |tag|, ws)
      && PieceAt(s, b, o) && PieceAt(s, b + |o|, ws2) && PieceAt(s, b + |o| + |ws2|, TICKS)
  {
  }

  /** Where the parts of the pattern lie in a fenced reply. */
  lemma FencedLayout(p: string, tag: string, ws: string, o: string, ws2: string, q: string)
    requires tag in {"", "json"} && Blank(ws) && Blank(ws2) && IsObjectText(o)
    ensures var s := Fenced(p, tag, ws, o, ws2, q);
      var b := |p| + 3 + |tag| + |ws|;
      b + |o| <= |s| && s[b..b + |o|] == o && Opening(s, |p|, b) && Closing(s, b + |o| - 1)
  {
    var s := Fenced(p, tag, ws, o, ws2, q);
    var b := |p| + 3 + |tag| + |ws|;
    FencedPieces(p, tag, ws, o, ws2, q);
    assert AllSpace(s, |p| + 3 + |tag|, b);
    assert TicksAt(s, |p|) && s[b] == o[0];
    assert tag == "json" ==> JsonAt(s, |p| + 3);
    var z := b + |o| + |ws2|;
    assert AllSpace(s, b + |o|, z) && TicksAt(s, z);
    assert s[b + |o| - 1] == o[|o| - 1];
  }

  /** The pattern cannot open in `s` before `f`. */
  ghost predicate OpensNowhereBefore(s: string, f: nat) {
    forall i: nat, b: nat | i < f :: !Opening(s, i, b)
  }

  /** Text without `{` before the fence opens nothing. */
  lemma BraceFreeLead(p: string, tag: string, ws: string, o: string, ws2: string, q: string)
    requires tag in {"", "json"} && Blank(ws) && (forall x | 0 <= x < |p| :: p[x] != '{')
    ensures OpensNowhereBefore(Fenced(p, tag, ws, o, ws2, q), |p|)
  {
    var s := Fenced(p, tag, ws, o, ws2, q);
    FencedPieces(p, tag, ws, o, ws2, q);
    assert forall x | 0 <= x < |p| + 3 :: s[x] != '{';
    forall i: nat, b: nat | i < |p| ensures !Opening(s, i, b) {
      NoEarlierOpening(s, i, |p|, b);
    }
  }

  /** No opening before the fence: a `{`-free text between three backticks at `i` and
      a brace past `f` would have to be blank, but there are backticks at `f`. */
  lemma NoEarlierOpening(s: string, i: nat, f: nat, b: nat)
    requires i < f && TicksAt(s, f) && (forall x | 0 <= x < f + 3 :: s[x] != '{')
    ensures !Opening(s, i, b)
  {
    assert !IsSpace('`');
    assert s[f + 2] == '`' && s[f + 1] == '`' && s[f] == '`';
    assert b < f + 3 && b < |s| ==> s[b] != '{';
  }

  /** A closing brace before the last one of `o` closes in `s` exactly when it does
      within `o`. */
  lemma CloseIsLocal(s: string, b: nat, o: string, e: nat)
    requires IsObjectText(o) && b + |o| <= |s| && s[b..b + |o|] == o && e < |o| - 1
    ensures ClosesAt(s, b + e) <==> ClosesAt(o, e)
  {
    assert forall x | 0 <= x < |o| :: o[x] == s[b + x];
    var r := SkipSpaces(o, e + 1);
    assert !IsSpace('}');
    assert r <= |o| - 1;
    assert AllSpace(s, b + e + 1, b + r);
    SkipIs(s, b + e + 1, b + r);
    assert TicksAt(s, b + r) ==> r + 3 <= |o|;
  }

  /** A fenced object is recovered exactly when no earlier `}` in it is followed by
      optional whitespace and three backticks, unless the pattern already opens before
      the fence; braces there that no backticks lead to do no harm. */
  lemma FenceRecovery(p: string, tag: string, ws: string, o: string, ws2: string, q: string)
    requires tag in {"", "json"} && Blank(ws) && Blank(ws2) && IsObjectText(o)
    requires OpensNowhereBefore(Fenced(p, tag, ws, o, ws2, q), |p|)
    ensures Extract(Fenced(p, tag, ws, o, ws2, q)) == o
      <==> forall e | 0 <= e < |o| - 1 :: !ClosesAt(o, e)
  {
    hide Fenced, Opening, Closing, ClosesAt, FirstClose, Search, Blank;
    var s := Fenced(p, tag, ws, o, ws2, q);
    var b := |p| + 3 + |tag| + |ws|;
    FencedLayout(p, tag, ws, o, ws2, q);
    FenceFound(s, |p|, b, b + |o| - 1);
    FirstCloseDecides(s, b, o, FirstClose(s, b + 1).value);
  }

  /** In particular when no `{` at all comes before the fence. */
  lemma PlainFenceRecovery(p: string, tag: string, ws: string, o: string, ws2: string, q: string)
    requires tag in {"", "json"} && Blank(ws) && Blank(ws2) && IsObjectText(o)
    requires forall x | 0 <= x < |p| :: p[x] != '{'
    ensures Extract(Fenced(p, tag, ws, o, ws2, q)) == o
      <==> forall e | 0 <= e < |o| - 1 :: !ClosesAt(o, e)
  {
    BraceFreeLead(p, tag, ws, o, ws2, q);
    FenceRecovery(p, tag, ws, o, ws2, q);
  }

  /** And for the usual reply: the object on its own lines between the fences. */
  lemma FenceOnItsLines(tag: string, o: string)
    requires tag in {"", "json"} && IsObjectText(o)
    ensures Extract("```" + tag + "\n" + o + "\n```") == o <==> forall e | 0 <= e < |o| - 1 :: !ClosesAt(o, e)
  {
    assert Blank("\n");
    PlainFenceRecovery("", tag, "\n", o, "\n", "");
    assert Fenced("", tag, "\n", o, "\n", "") == "```" + tag + "\n" + o + "\n```";
  }

  /** If the pattern does open before the fence, the first opening takes the text from
      its own brace to the first brace that closes, whatever the fence holds; so the
      object is recovered exactly if that text happens to be the same. */
  lemma EarlierOpeningWins(p: string, tag: string, ws: string, o: string, ws2: string, q: string, i: nat, b: nat)
    returns (e: nat)
    requires tag in {"", "json"} && Blank(ws) && Blank(ws2) && IsObjectText(o) && i < |p|
    requires var s := Fenced(p, tag, ws, o, ws2, q); Opening(s, i, b) && OpensNowhereBefore(s, i)
    ensures var s := Fenced(p, tag, ws, o, ws2, q);
      b < e < |s| && Extract(s) == s[b..e + 1] && ClosesAt(s, e) && forall x | b < x < e :: !ClosesAt(s, x)
  {
    hide Fenced, Opening, Closing, ClosesAt, FirstClose, Search, Blank, OpensNowhereBefore, IsSpace;
    var s := Fenced(p, tag, ws, o, ws2, q);
    var z := |p| + 3 + |tag| + |ws| + |o| - 1;
    FencedLayout(p, tag, ws, o, ws2, q);
    var x := z + 1 - |o|;
    assert s[x] == s[x..x + |o|][0] == '{';
    OpeningStopsAtBrace(s, i, b, x);
    FenceFound(s, i, b, z);
    e := FirstClose(s, b + 1).value;
  }

  /** The first close after the object's own opening brace is its last brace exactly
      when none of its earlier braces can close. */
  lemma FirstCloseDecides(s: string, b: nat, o: string, e: nat)
    requires IsObjectText(o) && b + |o| <= |s| && s[b..b + |o|] == o
    requires b < e < b + |o| && ClosesAt(s, e) && forall x | b < x < e :: !ClosesAt(s, x)
    ensures s[b..e + 1] == o <==> forall x | 0 <= x < |o| - 1 :: !ClosesAt(o, x)
  {
    assert |s[b..e + 1]| == e + 1 - b;
    NoBraceAtStart(o);
    forall x | 0 <= x < |o| - 1 ensures ClosesAt(s, b + x) <==> ClosesAt(o, x) {
      CloseIsLocal(s, b, o, x);
    }
    if e < b + |o| - 1 {
      assert ClosesAt(o, e - b);
    } else {
      forall x | 0 < x < |o| - 1 ensures !ClosesAt(o, x) {
        assert !ClosesAt(s, b + x);
      }
    }
  }

  lemma NoBraceAtStart(o: string)
    requires IsObjectText(o)
    ensures !ClosesAt(o, 0)
  {
  }

  /** With an opening at `f` and nothing before it, the search takes the first close. */
  lemma FenceFound(s: string, f: nat, b: nat, z: nat)
    requires Opening(s, f, b) && Closing(s, z) && b < z && OpensNowhereBefore(s, f)
    ensures var e := FirstClose(s, b + 1);
      && e.Some? && Search(s, 0) == Some((b, e.value)) && b < e.value <= z && ClosesAt(s, e.value)
      && forall x | b < x < e.value :: !ClosesAt(s, x)
  {
    OpensIsOpening(s, f, b);
    ClosesIsClosing(s, z);
    FirstCloseIsFirst(s, b + 1);
    SearchSkips(s, 0, f);
  }

  lemma {:induction false} SearchSkips(s: string, i: nat, f: nat)
    requires i <= f <= |s| && OpensNowhereBefore(s, f)
    ensures Search(s, i) == Search(s, f)
    decreases f - i
  {
    hide Opening;
    if i < f {
      if OpensAt(s, i).Some? {
        OpensIsOpening(s, i, OpensAt(s, i).value);
      }
      SearchSkips(s, i + 1, f);
    }
  }
}
