/**
 * The JavaScript string built-ins the connector relies on, written out:
 * `indexOf`, `split`, `join` and a global single-character `replace`.
 */
module JsStrings {
  import opened Wrappers

  /** `p` occurs in `s` starting at index `k`. */
  predicate OccursAt(s: string, p: string, k: nat) {
    k + |p| <= |s| && s[k..k + |p|] == p
  }

  /** `s.indexOf(p, from)`: the first index at or after `from` where `p` occurs, or -1. */
  function IndexOfFrom(s: string, p: string, from: nat): (r: int)
    decreases |s| - from
    ensures r == -1 || (from <= r && OccursAt(s, p, r))
    ensures r == -1 ==> forall k :: from <= k ==> !OccursAt(s, p, k)
    ensures r >= 0 ==> forall k :: from <= k < r ==> !OccursAt(s, p, k)
  {
    if from + |p| > |s| then -1
    else if s[from..from + |p|] == p then from
    else IndexOfFrom(s, p, from + 1)
  }

  /** `s.indexOf(p)`. */
  function IndexOf(s: string, p: string): int {
    IndexOfFrom(s, p, 0)
  }

  /** `s.indexOf(p) > -1`, which is also what `s.match(p)` tests for a pattern without metacharacters. */
  predicate Contains(s: string, p: string) {
    IndexOf(s, p) >= 0
  }

  lemma ContainsIff(s: string, p: string)
    ensures Contains(s, p) <==> exists k: nat :: OccursAt(s, p, k)
  {
    if !Contains(s, p) {
      assert forall k :: 0 <= k ==> !OccursAt(s, p, k);
    }
  }

  lemma ContainsAt(s: string, p: string, k: nat)
    requires OccursAt(s, p, k)
    ensures Contains(s, p)
  {
    ContainsIff(s, p);
  }

  /** A string with no two adjacent underscores, stated character by character. */
  predicate NoDoubleUnderscore(s: string) {
    forall k :: 0 <= k < |s| - 1 ==> !(s[k] == '_' && s[k + 1] == '_')
  }

  lemma NoDoubleUnderscoreIff(s: string)
    ensures NoDoubleUnderscore(s) <==> !Contains(s, "__")
  {
    ContainsIff(s, "__");
    if !NoDoubleUnderscore(s) {
      var k :| 0 <= k < |s| - 1 && s[k] == '_' && s[k + 1] == '_';
      assert s[k..k + 2] == "__";
      assert OccursAt(s, "__", k);
    }
    if Contains(s, "__") {
      var k: nat :| OccursAt(s, "__", k);
      assert s[k..k + 2][0] == '_' && s[k..k + 2][1] == '_';
    }
  }

  /** Two pieces free of "__" stay free of it when the seam does not join two '_'. */
  lemma NoDoubleUnderscoreConcat(a: string, b: string)
    requires NoDoubleUnderscore(a) && NoDoubleUnderscore(b)
    requires a == "" || b == "" || a[|a| - 1] != '_' || b[0] != '_'
    ensures NoDoubleUnderscore(a + b)
  {
    var s := a + b;
    forall k | 0 <= k < |s| - 1 ensures !(s[k] == '_' && s[k + 1] == '_') {
      if k + 1 < |a| {
        assert s[k] == a[k] && s[k + 1] == a[k + 1];
      } else if k >= |a| {
        assert s[k] == b[k - |a|] && s[k + 1] == b[k + 1 - |a|];
      }
    }
  }

  /**
   * `const [a, b] = s.split(d)`: the text before the first `d`, and the text
   * between the first and the second `d` (or to the end), which is `undefined`
   * when `d` does not occur. Matches are found left to right without overlap.
   */
  function SplitPair(s: string, d: string): (r: (string, Option<string>))
    requires |d| > 0
  {
    var i := IndexOf(s, d);
    if i < 0 then (s, None)
    else
      var j := IndexOfFrom(s, d, i + |d|);
      var hi := if j < 0 then |s| else j;
      (s[..i], Some(s[i + |d|..hi]))
  }

  /**
   * Neither piece of `split(d)` holds `d`, and the second is absent exactly
   * when `d` does not occur.
   */
  lemma SplitPairPieces(s: string, d: string)
    requires |d| > 0
    ensures SplitPair(s, d).1.None? <==> !Contains(s, d)
    ensures !Contains(SplitPair(s, d).0, d)
    ensures SplitPair(s, d).1.Some? ==> !Contains(SplitPair(s, d).1.value, d)
  {
    var i := IndexOf(s, d);
    if i >= 0 {
      var j := IndexOfFrom(s, d, i + |d|);
      var hi := if j < 0 then |s| else j;
      assert SplitPair(s, d) == (s[..i], Some(s[i + |d|..hi]));
      SliceWithout(s, d, 0, i);
      assert s[0..i] == s[..i];
      SliceWithout(s, d, i + |d|, hi);
    }
  }

  /** A slice holds no occurrence that the whole string does not hold at the same place. */
  lemma SliceWithout(s: string, p: string, lo: nat, hi: nat)
    requires lo <= hi <= |s|
    requires forall k :: lo <= k && k + |p| <= hi ==> !OccursAt(s, p, k)
    ensures !Contains(s[lo..hi], p)
  {
    ContainsIff(s[lo..hi], p);
    forall k: nat | OccursAt(s[lo..hi], p, k) ensures false {
      forall m | 0 <= m < |p| ensures s[lo + k + m] == p[m] {
        assert s[lo..hi][k..k + |p|][m] == p[m];
      }
      assert s[lo + k..lo + k + |p|] == p;
      assert OccursAt(s, p, lo + k);
    }
  }

  /** Deleting a character distributes over concatenation. */
  lemma {:induction false} RemoveAllAppend(a: string, b: string, x: char)
    ensures RemoveAll(a + b, x) == RemoveAll(a, x) + RemoveAll(b, x)
    decreases |a|
  {
    if |a| > 0 {
      RemoveAllAppend(a[1..], b, x);
      assert (a + b)[1..] == a[1..] + b;
    } else {
      assert a + b == b;
    }
  }

  /** A string without the character is left as it is. */
  lemma {:induction false} RemoveAllWithout(s: string, x: char)
    requires x !in s
    ensures RemoveAll(s, x) == s
    decreases |s|
  {
    if |s| > 0 {
      RemoveAllWithout(s[1..], x);
      assert s == [s[0]] + s[1..];
    }
  }

  /** `s.split(c)` for a one-character separator: every piece, in order. */
  function Split(s: string, c: char): (r: seq<string>)
    decreases |s|
    ensures |r| >= 1
  {
    if |s| == 0 then [""]
    else
      var rest := Split(s[1..], c);
      if s[0] == c then [""] + rest
      else [[s[0]] + rest[0]] + rest[1..]
  }

  /** `xs.join(sep)`. */
  function Join(xs: seq<string>, sep: string): string
    decreases |xs|
  {
    if |xs| == 0 then ""
    else if |xs| == 1 then xs[0]
    else xs[0] + sep + Join(xs[1..], sep)
  }

  /** `s.replace(/x/g, y)` for single characters `x` and `y`. */
  function ReplaceAll(s: string, x: char, y: char): (r: string)
    decreases |s|
    ensures |r| == |s|
    ensures forall k :: 0 <= k < |s| ==> r[k] == (if s[k] == x then y else s[k])
  {
    if |s| == 0 then ""
    else [if s[0] == x then y else s[0]] + ReplaceAll(s[1..], x, y)
  }

  /** Deleting every occurrence of a character: `s.replace(/x/g, "")`. */
  function RemoveAll(s: string, x: char): (r: string)
    decreases |s|
    ensures x !in r
    ensures |r| <= |s|
    ensures forall c :: c != x ==> (c in r <==> c in s)
  {
    if |s| == 0 then ""
    else if s[0] == x then RemoveAll(s[1..], x)
    else [s[0]] + RemoveAll(s[1..], x)
  }

  lemma {:induction false} SplitWithoutSeparator(s: string, c: char)
    requires c !in s
    ensures Split(s, c) == [s]
    decreases |s|
  {
    if |s| > 0 {
      SplitWithoutSeparator(s[1..], c);
      assert [s[0]] + s[1..] == s;
    }
  }

  /** One unfolding of `Split` on a string that starts with the separator. */
  lemma SplitConsSeparator(s: string, c: char)
    ensures Split([c] + s, c) == [""] + Split(s, c)
  {
    assert ([c] + s)[1..] == s;
  }

  /** One unfolding of `Split` on a string that starts with another character. */
  lemma SplitConsOther(x: char, s: string, c: char)
    requires x != c
    ensures Split([x] + s, c) == [[x] + Split(s, c)[0]] + Split(s, c)[1..]
  {
    assert ([x] + s)[1..] == s;
  }

  /** Splitting distributes over a separator placed between two strings. */
  lemma {:induction false} SplitAppend(a: string, b: string, c: char)
    ensures Split(a + [c] + b, c) == Split(a, c) + Split(b, c)
    decreases |a|
  {
    if |a| == 0 {
      assert a + [c] + b == [c] + b;
      SplitConsSeparator(b, c);
    } else {
      var tail := a[1..];
      SplitAppend(tail, b, c);
      SplitAppendStep(a[0], tail, b, c);
      assert a == [a[0]] + tail;
      assert a + [c] + b == [a[0]] + (tail + [c] + b);
    }
  }

  /** The inductive step of `SplitAppend`: one more character in front. */
  lemma SplitAppendStep(x: char, tail: string, b: string, c: char)
    requires Split(tail + [c] + b, c) == Split(tail, c) + Split(b, c)
    ensures Split([x] + (tail + [c] + b), c) == Split([x] + tail, c) + Split(b, c)
  {
    if x == c {
      SplitConsSeparator(tail, c);
      SplitConsSeparator(tail + [c] + b, c);
    } else {
      SplitConsOther(x, tail, c);
      SplitConsOther(x, tail + [c] + b, c);
      ExtendFirstPiece([x], Split(tail, c), Split(b, c));
    }
  }

  /** Prefixing the first piece of `left + right` only touches `left`'s first piece. */
  lemma ExtendFirstPiece(p: string, left: seq<string>, right: seq<string>)
    requires |left| >= 1
    ensures [p + (left + right)[0]] + (left + right)[1..] == ([p + left[0]] + left[1..]) + right
  {
    assert (left + right)[1..] == left[1..] + right;
  }

  /** `join` then `split` with the same separator gives the pieces back, when no piece holds it. */
  lemma {:induction false} SplitJoin(xs: seq<string>, c: char)
    requires |xs| >= 1
    requires forall i :: 0 <= i < |xs| ==> c !in xs[i]
    ensures Split(Join(xs, [c]), c) == xs
    decreases |xs|
  {
    if |xs| == 1 {
      SplitWithoutSeparator(xs[0], c);
    } else {
      SplitJoin(xs[1..], c);
      SplitWithoutSeparator(xs[0], c);
      SplitAppend(xs[0], Join(xs[1..], [c]), c);
      assert [xs[0]] + xs[1..] == xs;
    }
  }

  /** `split` then `join` restores the string. */
  lemma {:induction false} JoinSplit(s: string, c: char)
    ensures Join(Split(s, c), [c]) == s
    decreases |s|
  {
    if |s| > 0 {
      JoinSplit(s[1..], c);
      var rest := Split(s[1..], c);
      if s[0] == c {
        assert ([""] + rest)[1..] == rest;
        assert |[""] + rest| > 1;
      } else {
        var r := [[s[0]] + rest[0]] + rest[1..];
        assert r[1..] == rest[1..];
        if |rest| == 1 {
          assert s == [s[0]] + rest[0];
        } else {
          assert Join(rest, [c]) == rest[0] + [c] + Join(rest[1..], [c]);
          assert s == [s[0]] + s[1..];
        }
      }
    }
  }

  /** No piece of a split holds the separator. */
  lemma {:induction false} SplitPiecesFree(s: string, c: char)
    ensures forall i :: 0 <= i < |Split(s, c)| ==> c !in Split(s, c)[i]
    decreases |s|
  {
    if |s| > 0 {
      SplitPiecesFree(s[1..], c);
    }
  }

  /** An occurrence that straddles index |a| of `a + [c] + b` has `c` inside it. */
  lemma StraddleChar(a: string, b: string, c: char, p: string, k: nat)
    requires OccursAt(a + [c] + b, p, k)
    ensures k <= |a| < k + |p| ==> p[|a| - k] == c
  {
  }

  lemma OccursAround(a: string, b: string, c: char, p: string, k: nat)
    requires c !in p
    requires OccursAt(a + [c] + b, p, k)
    ensures Contains(a, p) || Contains(b, p)
  {
    var s := a + [c] + b;
    StraddleChar(a, b, c, p, k);
    if k + |p| <= |a| {
      assert s[k..k + |p|] == a[k..k + |p|];
      ContainsAt(a, p, k);
    } else {
      assert s[k..k + |p|] == b[k - |a| - 1..k - |a| - 1 + |p|];
      ContainsAt(b, p, k - |a| - 1);
    }
  }

  lemma OccursLeft(a: string, b: string, c: char, p: string, k: nat)
    requires OccursAt(a, p, k)
    ensures Contains(a + [c] + b, p)
  {
    var s := a + [c] + b;
    assert s[k..k + |p|] == a[k..k + |p|];
    ContainsAt(s, p, k);
  }

  lemma OccursRight(a: string, b: string, c: char, p: string, k: nat)
    requires OccursAt(b, p, k)
    ensures Contains(a + [c] + b, p)
  {
    var s := a + [c] + b;
    var m := k + |a| + 1;
    assert s[m..m + |p|] == b[k..k + |p|];
    ContainsAt(s, p, m);
  }

  /** An occurrence of a pattern free of `c` in `a + [c] + b` lies wholly in `a` or wholly in `b`. */
  lemma ContainsAround(a: string, b: string, c: char, p: string)
    requires c !in p
    ensures Contains(a + [c] + b, p) <==> Contains(a, p) || Contains(b, p)
  {
    ContainsIff(a + [c] + b, p);
    ContainsIff(a, p);
    ContainsIff(b, p);
    if Contains(a + [c] + b, p) {
      var k: nat :| OccursAt(a + [c] + b, p, k);
      OccursAround(a, b, c, p, k);
    }
    if Contains(a, p) {
      var k: nat :| OccursAt(a, p, k);
      OccursLeft(a, b, c, p, k);
    }
    if Contains(b, p) {
      var k: nat :| OccursAt(b, p, k);
      OccursRight(a, b, c, p, k);
    }
  }

  /** A pattern free of the separator occurs in a joined list exactly when it occurs in one of the pieces. */
  lemma {:induction false} ContainsJoin(xs: seq<string>, c: char, p: string)
    requires c !in p
    requires |p| > 0
    ensures Contains(Join(xs, [c]), p) <==> exists i :: 0 <= i < |xs| && Contains(xs[i], p)
    decreases |xs|
  {
    if |xs| == 0 {
      ContainsIff("", p);
    } else if |xs| > 1 {
      ContainsJoin(xs[1..], c, p);
      ContainsAround(xs[0], Join(xs[1..], [c]), c, p);
      if exists i :: 0 <= i < |xs| && Contains(xs[i], p) {
        var i :| 0 <= i < |xs| && Contains(xs[i], p);
        if i > 0 {
          assert xs[1..][i - 1] == xs[i];
        }
      }
      if exists i :: 0 <= i < |xs[1..]| && Contains(xs[1..][i], p) {
        var i :| 0 <= i < |xs[1..]| && Contains(xs[1..][i], p);
        assert xs[i + 1] == xs[1..][i];
      }
    }
  }

  lemma DelimiterChars(s: string, k: nat)
    ensures OccursAt(s, "__", k) ==> s[k] == '_' && s[k + 1] == '_'
  {
    if OccursAt(s, "__", k) {
      assert s[k..k + 2][0] == s[k] && s[k..k + 2][1] == s[k + 1];
    }
  }

  /** The first `__` of `prefix + "__" + rest` is the one after `prefix`, whatever `rest` is. */
  lemma FirstDelimiterAfter(prefix: string, rest: string)
    requires NoDoubleUnderscore(prefix)
    requires prefix == "" || prefix[|prefix| - 1] != '_'
    ensures IndexOf(prefix + "__" + rest, "__") == |prefix|
  {
    var s := prefix + "__" + rest;
    assert s[|prefix|..|prefix| + 2] == "__";
    assert OccursAt(s, "__", |prefix|);
    forall k: nat | k < |prefix| ensures !OccursAt(s, "__", k) {
      DelimiterChars(s, k);
      assert s[k] == prefix[k];
      if k + 1 < |prefix| {
        assert s[k + 1] == prefix[k + 1];
      }
    }
  }

  /** No `__` starts at or after `from` when the tail beginning there has none. */
  lemma NoDelimiterIn(s: string, from: nat)
    requires from <= |s|
    requires NoDoubleUnderscore(s[from..])
    ensures IndexOfFrom(s, "__", from) == -1
  {
    forall k: nat | from <= k ensures !OccursAt(s, "__", k) {
      DelimiterChars(s, k);
      if k + 1 < |s| {
        assert s[from..][k - from] == s[k] && s[from..][k - from + 1] == s[k + 1];
      }
    }
  }

  /** `(prefix + "__" + key).split("__")` gives back `prefix` and `key`. */
  lemma SplitPairJoined(prefix: string, key: string)
    requires NoDoubleUnderscore(prefix)
    requires prefix == "" || prefix[|prefix| - 1] != '_'
    requires NoDoubleUnderscore(key)
    ensures SplitPair(prefix + "__" + key, "__") == (prefix, Some(key))
  {
    var s := prefix + "__" + key;
    FirstDelimiterAfter(prefix, key);
    assert s[|prefix| + 2..|s|] == key;
    NoDelimiterIn(s, |prefix| + 2);
    assert s[..|prefix|] == prefix;
  }
}
