/** Text operations shared by both programs: substring search, JavaScript's
    `replace` with a string pattern, Python's `str.split`/`str.strip`, and the
    code-unit order that JavaScript's default `Array.prototype.sort` uses. */
module Strings {
  import opened Wrappers

  // ---------------------------------------------------------------- search

  predicate OccursAt(s: string, pat: string, i: nat)
  {
    i + |pat| <= |s| && forall j :: 0 <= j < |pat| ==> s[i + j] == pat[j]
  }

  /** Index of the first occurrence of `pat` in `s`. */
  function IndexOf(s: string, pat: string): (r: Option<nat>)
    ensures r.Some? ==> OccursAt(s, pat, r.value)
  {
    IndexFrom(s, pat, 0)
  }

  /** The search from `from` on. */
  function IndexFrom(s: string, pat: string, from: nat): (r: Option<nat>)
    ensures r.Some? ==> from <= r.value && OccursAt(s, pat, r.value)
    decreases |s| - from
  {
    if from + |pat| > |s| then None
    else if OccursAt(s, pat, from) then Some(from)
    else IndexFrom(s, pat, from + 1)
  }

  /** The search from `from` finds the first occurrence at or after `from`,
      and finds nothing only when there is none there. */
  lemma {:induction false} IndexFromMeaning(s: string, pat: string, from: nat)
    requires forall j :: 0 <= j < from ==> !OccursAt(s, pat, j)
    ensures var r := IndexFrom(s, pat, from);
      && (r.Some? ==> forall j :: 0 <= j < r.value ==> !OccursAt(s, pat, j))
      && (r.None? ==> forall j: nat :: !OccursAt(s, pat, j))
    decreases |s| - from
  {
    if from + |pat| <= |s| && !OccursAt(s, pat, from) {
      IndexFromMeaning(s, pat, from + 1);
    }
  }

  /** `IndexOf` finds the first occurrence, and nothing only when there is none. */
  lemma IndexOfMeaning(s: string, pat: string)
    ensures IndexOf(s, pat).Some? ==> forall j :: 0 <= j < IndexOf(s, pat).value ==> !OccursAt(s, pat, j)
    ensures IndexOf(s, pat).None? ==> forall j: nat :: !OccursAt(s, pat, j)
  {
    IndexFromMeaning(s, pat, 0);
  }

  lemma OccursInPrefix(s: string, pat: string, i: nat, j: nat)
    requires i <= |s| && OccursAt(s[..i], pat, j)
    ensures OccursAt(s, pat, j)
  {
    assert s[..i][j..j + |pat|] == s[j..j + |pat|];
  }

  /** JavaScript `s.replace(pat, "")` for a string pattern: only the first occurrence goes. */
  function RemoveFirst(s: string, pat: string): (r: string)
    ensures |r| <= |s|
  {
    match IndexOf(s, pat)
    case None => s
    case Some(i) => s[..i] + s[i + |pat|..]
  }

  /** What `replace` leaves: the text itself when the pattern is absent, else
      a text into which putting the pattern back at its first index restores
      the original. */
  lemma RemoveFirstMeaning(s: string, pat: string)
    ensures IndexOf(s, pat).None? ==> RemoveFirst(s, pat) == s
    ensures IndexOf(s, pat).Some? ==>
              var i, r := IndexOf(s, pat).value, RemoveFirst(s, pat);
              i + |pat| <= |s| && |r| == |s| - |pat| && s == r[..i] + pat + r[i..]
  {
    if IndexOf(s, pat).Some? {
      var i, r := IndexOf(s, pat).value, RemoveFirst(s, pat);
      assert r[..i] == s[..i] && r[i..] == s[i + |pat|..];
      assert s == s[..i] + s[i..i + |pat|] + s[i + |pat|..];
    }
  }

  // ---------------------------------------------------------------- Python split

  /** Python `s.split(sep)` for a non-empty separator. */
  function Split(s: string, sep: string): (parts: seq<string>)
    requires |sep| > 0
    ensures |parts| >= 1
    decreases |s|
  {
    match IndexOf(s, sep)
    case None => [s]
    case Some(i) => [s[..i]] + Split(s[i + |sep|..], sep)
  }

  /** The text before the first occurrence of a pattern does not contain it. */
  lemma HeadFree(s: string, pat: string)
    requires |pat| > 0 && IndexOf(s, pat).Some?
    ensures IndexOf(s[..IndexOf(s, pat).value], pat).None?
  {
    var i := IndexOf(s, pat).value;
    IndexOfMeaning(s, pat);
    forall j: nat | OccursAt(s[..i], pat, j) ensures false {
      OccursInPrefix(s, pat, i, j);
    }
  }

  /** Where the separator occurs, the split is the text before it followed
      by the split of the text after it. */
  lemma SplitCons(s: string, sep: string, i: nat)
    requires |sep| > 0 && IndexOf(s, sep) == Some(i)
    ensures i + |sep| <= |s| && Split(s, sep) == [s[..i]] + Split(s[i + |sep|..], sep)
  {
  }

  /** No part of a split contains the separator. */
  lemma SplitPartsFree(s: string, sep: string)
    requires |sep| > 0
    ensures forall k :: 0 <= k < |Split(s, sep)| ==> IndexOf(Split(s, sep)[k], sep).None?
  {
    forall k | 0 <= k < |Split(s, sep)| ensures IndexOf(Split(s, sep)[k], sep).None? {
      SplitPartFree(s, sep, k);
    }
  }

  lemma {:induction false} SplitPartFree(s: string, sep: string, k: nat)
    requires |sep| > 0 && k < |Split(s, sep)|
    ensures IndexOf(Split(s, sep)[k], sep).None?
    decreases |s|
  {
    if k == 0 {
      SplitHeadFree(s, sep);
    } else {
      var i := IndexOf(s, sep).value;
      SplitCons(s, sep, i);
      ConsIndex(Split(s, sep), s[..i], Split(s[i + |sep|..], sep), k);
      SplitPartFree(s[i + |sep|..], sep, k - 1);
    }
  }

  lemma ConsIndex<T>(xs: seq<T>, head: T, tail: seq<T>, k: nat)
    requires xs == [head] + tail && 0 < k < |xs|
    ensures k - 1 < |tail| && xs[k] == tail[k - 1]
  {
  }

  /** Python `sep.join(parts)`. */
  function Join(parts: seq<string>, sep: string): string
  {
    if parts == [] then ""
    else if |parts| == 1 then parts[0]
    else parts[0] + sep + Join(parts[1..], sep)
  }

  /** Splitting loses nothing: joining the parts with the separator gives the text back. */
  lemma {:induction false} SplitJoin(s: string, sep: string)
    requires |sep| > 0
    ensures Join(Split(s, sep), sep) == s
    decreases |s|
  {
    var r := IndexOf(s, sep);
    if r.Some? {
      var i := r.value;
      var rest := s[i + |sep|..];
      SplitJoin(rest, sep);
      JoinCons(s[..i], Split(rest, sep), sep);
      Reassemble(s, sep, i);
    }
  }

  lemma JoinCons(head: string, tail: seq<string>, sep: string)
    requires |tail| >= 1
    ensures Join([head] + tail, sep) == head + sep + Join(tail, sep)
  {
    assert ([head] + tail)[1..] == tail;
  }

  lemma Reassemble(s: string, pat: string, i: nat)
    requires OccursAt(s, pat, i)
    ensures s == s[..i] + pat + s[i + |pat|..]
  {
    assert s == s[..i] + s[i..i + |pat|] + s[i + |pat|..];
  }

  /** `s.split(open)[1].split(close)[0]`: the text after the first `open`, cut at the
      next `close` or the next `open`; `None` where Python raises IndexError. */
  function Between(s: string, open: string, close: string): (r: Option<string>)
    requires |open| > 0 && |close| > 0
    ensures r.None? <==> IndexOf(s, open).None?
  {
    var parts := Split(s, open);
    if |parts| < 2 then None else Some(Split(parts[1], close)[0])
  }

  /** What `Between` finds lies after the first `open` and holds neither
      `open` nor `close`. */
  lemma BetweenMeaning(s: string, open: string, close: string)
    requires |open| > 0 && |close| > 0
    ensures var r := Between(s, open, close);
      r.Some? ==>
        var start := IndexOf(s, open).value + |open|;
        start <= |s| && r.value <= s[start..]
        && IndexOf(r.value, open).None? && IndexOf(r.value, close).None?
        && var e := start + |r.value|;
           e == |s| || OccursAt(s, close, e) || OccursAt(s, open, e)
  {
    if IndexOf(s, open).Some? {
      var i := IndexOf(s, open).value;
      var after := s[i + |open|..];
      SplitCons(s, open, i);
      var middle := Split(after, open)[0];
      assert Split(s, open)[1] == middle;
      var r := Split(middle, close)[0];
      assert Between(s, open, close) == Some(r);
      SplitHeadFree(after, open);
      SplitHeadFree(middle, close);
      PrefixFree(middle, r, open);
      PrefixTrans(r, middle, after);
      SplitHeadEnds(after, open);
      SplitHeadEnds(middle, close);
      StopsAt(s, i + |open|, middle, r, open, close);
    }
  }

  /** The first part of a split is the whole text, or it ends where the
      separator occurs. */
  lemma SplitHeadEnds(s: string, sep: string)
    requires |sep| > 0
    ensures var h := Split(s, sep)[0];
      h == s || (h <= s && OccursAt(s, sep, |h|))
  {
    if IndexOf(s, sep).Some? {
      var i := IndexOf(s, sep).value;
      SplitCons(s, sep, i);
      assert Split(s, sep)[0] == s[..i];
    }
  }

  /** A text cut at `close` inside a text cut at `open`, both from `start`,
      ends at the end of `s` or where `close` or `open` occurs. */
  lemma StopsAt(s: string, start: nat, middle: string, r: string, open: string, close: string)
    requires start <= |s|
    requires middle == s[start..] || (middle <= s[start..] && OccursAt(s[start..], open, |middle|))
    requires r == middle || (r <= middle && OccursAt(middle, close, |r|))
    ensures start + |r| == |s| || OccursAt(s, close, start + |r|) || OccursAt(s, open, start + |r|)
  {
    var after := s[start..];
    if r != middle {
      assert after[..|middle|] == middle;
      OccursInPrefix(after, close, |middle|, |r|);
      OccursAfter(s, start, close, |r|);
    } else if middle != after {
      OccursAfter(s, start, open, |middle|);
    }
  }

  /** An occurrence in a suffix is an occurrence in the text, shifted. */
  lemma OccursAfter(s: string, start: nat, pat: string, j: nat)
    requires start <= |s| && OccursAt(s[start..], pat, j)
    ensures OccursAt(s, pat, start + j)
  {
    forall k | 0 <= k < |pat| ensures s[start + j + k] == pat[k] {
      assert s[start..][j + k] == s[start + j + k];
    }
  }

  lemma PrefixTrans(a: string, b: string, c: string)
    requires a <= b && b <= c
    ensures a <= c
  {
  }

  /** The first part of a split is a prefix of the text without the separator. */
  lemma SplitHeadFree(s: string, sep: string)
    requires |sep| > 0
    ensures Split(s, sep)[0] <= s && IndexOf(Split(s, sep)[0], sep).None?
  {
    if IndexOf(s, sep).Some? { HeadFree(s, sep); }
  }

  /** A prefix of a text without a pattern is without it too. */
  lemma PrefixFree(s: string, t: string, pat: string)
    requires t <= s && IndexOf(s, pat).None?
    ensures IndexOf(t, pat).None?
  {
    IndexOfMeaning(s, pat);
    forall j: nat | OccursAt(t, pat, j) ensures false {
      OccursInPrefix(s, pat, |t|, j);
    }
  }

  // ---------------------------------------------------------------- Python strip

  /** Characters Python's `str.isspace` accepts (and `str.strip()` removes). */
  predicate IsSpace(c: char)
  {
    c == ' ' || '\t' <= c <= '\r' || '\U{1c}' <= c <= '\U{1f}' || c == '\U{85}' || c == '\U{a0}'
    || c == '\U{1680}' || '\U{2000}' <= c <= '\U{200a}' || c == '\U{2028}' || c == '\U{2029}'
    || c == '\U{202f}' || c == '\U{205f}' || c == '\U{3000}'
  }

  function StripStart(s: string): (r: string)
    ensures |r| <= |s| && r == s[|s| - |r|..]
    ensures r == [] || !IsSpace(r[0])
  {
    if s != [] && IsSpace(s[0]) then StripStart(s[1..]) else s
  }

  /** `lstrip` drops only whitespace. */
  lemma {:induction false} StripStartDropsSpace(s: string)
    ensures forall k :: 0 <= k < |s| - |StripStart(s)| ==> IsSpace(s[k])
  {
    if s != [] && IsSpace(s[0]) {
      StripStartDropsSpace(s[1..]);
      forall k | 1 <= k < |s| - |StripStart(s)| ensures IsSpace(s[k]) {
        assert s[k] == s[1..][k - 1];
      }
    }
  }

  function StripEnd(s: string): (r: string)
    ensures |r| <= |s| && r == s[..|r|]
    ensures r == [] || !IsSpace(r[|r| - 1])
  {
    if s != [] && IsSpace(s[|s| - 1]) then StripEnd(s[..|s| - 1]) else s
  }

  /** `rstrip` drops only whitespace. */
  lemma {:induction false} StripEndDropsSpace(s: string)
    ensures forall k :: |StripEnd(s)| <= k < |s| ==> IsSpace(s[k])
  {
    if s != [] && IsSpace(s[|s| - 1]) {
      StripEndDropsSpace(s[..|s| - 1]);
    }
  }

  /** Python `s.strip()`: the text without its leading and trailing whitespace. */
  function Strip(s: string): (r: string)
    ensures r == [] || (!IsSpace(r[0]) && !IsSpace(r[|r| - 1]))
  {
    StripEnd(StripStart(s))
  }

  /** What `Strip` keeps starts at `StripOffset(s)`; everything it drops is whitespace. */
  lemma StripMeaning(s: string)
    ensures var r := Strip(s);
      && StripOffset(s) + |r| <= |s| && r == s[StripOffset(s)..StripOffset(s) + |r|]
      && (forall k :: 0 <= k < StripOffset(s) ==> IsSpace(s[k]))
      && (forall k :: StripOffset(s) + |r| <= k < |s| ==> IsSpace(s[k]))
  {
    StripKeepsSlice(s);
    StripStartDropsSpace(s);
    StripDropsTrailingSpace(s);
  }

  lemma StripKeepsSlice(s: string)
    ensures StripOffset(s) + |Strip(s)| <= |s| && Strip(s) == s[StripOffset(s)..StripOffset(s) + |Strip(s)|]
  {
    var a := StripStart(s);
    var r := StripEnd(a);
    var off := |s| - |a|;
    assert a == s[off..];
    assert r == a[..|r|];
  }

  lemma StripDropsTrailingSpace(s: string)
    ensures forall k :: StripOffset(s) + |Strip(s)| <= k < |s| ==> IsSpace(s[k])
  {
    var a := StripStart(s);
    StripEndDropsSpace(a);
    ShiftedSpace(s, a, |StripEnd(a)|);
  }

  /** Whitespace at the end of a suffix is whitespace at the end of the text. */
  lemma ShiftedSpace(s: string, a: string, n: nat)
    requires |a| <= |s| && a == s[|s| - |a|..]
    requires forall k :: n <= k < |a| ==> IsSpace(a[k])
    ensures forall k :: |s| - |a| + n <= k < |s| ==> IsSpace(s[k])
  {
    forall k | |s| - |a| + n <= k < |s| ensures IsSpace(s[k]) {
      assert s[k] == a[k - (|s| - |a|)];
    }
  }

  function StripOffset(s: string): nat
  {
    |s| - |StripStart(s)|
  }

  lemma StripIdempotent(s: string)
    ensures Strip(Strip(s)) == Strip(s)
  {
  }

  // ---------------------------------------------------------------- ordering

  /** The order JavaScript's default `sort` puts strings in (code unit by code unit;
      the model compares characters, which agrees on the text this model sorts). */
  predicate LexLess(a: string, b: string)
  {
    if a == [] then b != []
    else b != [] && (if a[0] == b[0] then LexLess(a[1..], b[1..]) else a[0] < b[0])
  }

  lemma {:induction false} LexLessIrreflexive(a: string)
    ensures !LexLess(a, a)
  {
    if a != [] { LexLessIrreflexive(a[1..]); }
  }

  lemma {:induction false} LexLessTransitive(a: string, b: string, c: string)
    requires LexLess(a, b) && LexLess(b, c)
    ensures LexLess(a, c)
  {
    if a != [] && a[0] == b[0] && b[0] == c[0] {
      LexLessTransitive(a[1..], b[1..], c[1..]);
    }
  }

  lemma {:induction false} LexLessTotal(a: string, b: string)
    requires a != b
    ensures LexLess(a, b) != LexLess(b, a)
  {
    if a != [] && b != [] && a[0] == b[0] {
      assert a == [a[0]] + a[1..] && b == [b[0]] + b[1..];
      LexLessTotal(a[1..], b[1..]);
    }
  }

  /** Comparing two texts that start with equal-length heads: the heads decide,
      unless they are equal. */
  lemma {:induction false} LexLessAfterEqualLengths(a: string, b: string, c: string, d: string)
    requires |a| == |b|
    ensures LexLess(a + c, b + d) <==> LexLess(a, b) || (a == b && LexLess(c, d))
  {
    if a == [] {
      assert a + c == c && b + d == d;
    } else {
      assert (a + c)[1..] == a[1..] + c && (b + d)[1..] == b[1..] + d;
      LexLessAfterEqualLengths(a[1..], b[1..], c, d);
      if a[0] == b[0] && a[1..] == b[1..] {
        assert a == b;
      }
    }
  }

  /** `s` is in strictly ascending order of the texts `key` gives its elements. */
  predicate StrictlySortedBy(s: seq<string>, key: string -> string)
  {
    forall i, j :: 0 <= i < j < |s| ==> LexLess(key(s[i]), key(s[j]))
  }

  ghost predicate Injective(key: string -> string)
  {
    forall x, y :: key(x) == key(y) ==> x == y
  }

  /** Insert a new element at its place in a strictly sorted sequence. */
  function InsertSortedBy(s: seq<string>, k: string, key: string -> string): (r: seq<string>)
    requires Injective(key) && StrictlySortedBy(s, key) && k !in s
    ensures StrictlySortedBy(r, key) && |r| == |s| + 1
    ensures forall x :: x in r <==> x in s || x == k
  {
    if s == [] then [k]
    else if LexLess(key(k), key(s[0])) then
      assert forall j :: 0 <= j < |s| ==> LexLess(key(k), key(s[j])) by {
        forall j | 0 < j < |s| ensures LexLess(key(k), key(s[j])) {
          LexLessTransitive(key(k), key(s[0]), key(s[j]));
        }
      }
      [k] + s
    else
      var tail := InsertSortedBy(s[1..], k, key);
      LexLessTotal(key(k), key(s[0]));
      assert forall x :: x in tail ==> LexLess(key(s[0]), key(x));
      [s[0]] + tail
  }

  /** A strictly sorted sequence is determined by its elements. */
  lemma {:induction false} StrictlySortedUnique(a: seq<string>, b: seq<string>, key: string -> string)
    requires Injective(key) && StrictlySortedBy(a, key) && StrictlySortedBy(b, key)
    requires forall x :: x in a <==> x in b
    ensures a == b
  {
    if a != [] { assert a[0] in b; }
    if b != [] { assert b[0] in a; }
    if a != [] && b != [] {
      if a[0] != b[0] {
        var i :| 0 <= i < |a| && a[i] == b[0];
        var j :| 0 <= j < |b| && b[j] == a[0];
        LexLessTotal(key(a[0]), key(b[0]));
        assert false;
      }
      forall x ensures x in a[1..] <==> x in b[1..] {
        if x in a[1..] {
          var i :| 1 <= i < |a| && a[i] == x;
          LexLessIrreflexive(key(a[0]));
          assert x != a[0];
          assert x in b;
        }
        if x in b[1..] {
          var j :| 1 <= j < |b| && b[j] == x;
          LexLessIrreflexive(key(b[0]));
          assert x != b[0];
          assert x in a;
        }
      }
      StrictlySortedUnique(a[1..], b[1..], key);
    }
  }

  /** The elements of a finite set, in ascending order of their key texts. */
  ghost function SortedSeqBy(s: set<string>, key: string -> string): (r: seq<string>)
    requires Injective(key)
    ensures StrictlySortedBy(r, key)
    ensures forall x :: x in r <==> x in s
    decreases s
  {
    if s == {} then []
    else
      var k :| k in s;
      InsertSortedBy(SortedSeqBy(s - {k}, key), k, key)
  }
}
