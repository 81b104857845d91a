/** The helpers of the `Utils` namespace: `querystring` and `toTitleCase`. */
module Utils {
  import opened JsStrings

  /**
   * One `key=value` segment of a query string. `enc` stands for
   * `encodeURIComponent`, which the model treats as an opaque function.
   */
  function Segment(entry: (string, string), enc: string -> string): string {
    enc(entry.0) + "=" + enc(entry.1)
  }

  /** The segments of an object's entries, in `Object.keys` order. */
  function Segments(obj: seq<(string, string)>, enc: string -> string): (r: seq<string>)
    ensures |r| == |obj|
    ensures forall i :: 0 <= i < |obj| ==> r[i] == Segment(obj[i], enc)
  {
    seq(|obj|, i requires 0 <= i < |obj| => Segment(obj[i], enc))
  }

  /**
   * `querystring(obj)`: the encoded entries joined with '&'. An object is its
   * list of entries in key order; a number value is given already rendered.
   */
  method Querystring(obj: seq<(string, string)>, enc: string -> string) returns (r: string)
    ensures r == Join(Segments(obj, enc), "&")
    ensures |obj| == 0 ==> r == ""
  {
    var str: seq<string> := [];
    for i := 0 to |obj|
      invariant str == Segments(obj[..i], enc)
    {
      assert obj[..i + 1] == obj[..i] + [obj[i]];
      str := str + [Segment(obj[i], enc)];
    }
    assert obj[..|obj|] == obj;
    r := Join(str, "&");
  }

  /** With an encoder that never produces '&', the query string splits back into one segment per key. */
  lemma QuerystringSegments(obj: seq<(string, string)>, enc: string -> string)
    requires |obj| > 0
    requires forall x :: '&' !in enc(x)
    ensures Split(Join(Segments(obj, enc), "&"), '&') == Segments(obj, enc)
    ensures |Split(Join(Segments(obj, enc), "&"), '&')| == |obj|
  {
    var segs := Segments(obj, enc);
    forall i | 0 <= i < |segs| ensures '&' !in segs[i] {
      assert segs[i] == enc(obj[i].0) + "=" + enc(obj[i].1);
    }
    SplitJoin(segs, '&');
  }

  /** The letters `[a-z]` of the regular expression. */
  predicate IsLower(c: char) {
    'a' <= c <= 'z'
  }

  /** `toUpperCase` on a letter of `[a-z]`. */
  function ToUpper(c: char): (u: char)
    requires IsLower(c)
    ensures 'A' <= u <= 'Z'
  {
    (c as int - 32) as char
  }

  /** The characters matched by `\s` in a JavaScript regular expression. */
  const Whitespace: set<char> := {
    '\t', '\n', '\U{000B}', '\U{000C}', '\r', ' ', '\U{00A0}', '\U{1680}',
    '\U{2000}', '\U{2001}', '\U{2002}', '\U{2003}', '\U{2004}', '\U{2005}',
    '\U{2006}', '\U{2007}', '\U{2008}', '\U{2009}', '\U{200A}',
    '\U{2028}', '\U{2029}', '\U{202F}', '\U{205F}', '\U{3000}', '\U{FEFF}'
  }

  predicate IsSpace(c: char) {
    c in Whitespace
  }

  /** Position `k` is where `(^|\s)` can end: the start of the string, or right after whitespace. */
  predicate AtWordStart(s: string, k: nat)
    requires k < |s|
  {
    k == 0 || IsSpace(s[k - 1])
  }

  /** What `toTitleCase` is meant to do at one position. */
  function TitleChar(s: string, k: nat): char
    requires k < |s|
  {
    if IsLower(s[k]) && AtWordStart(s, k) then ToUpper(s[k]) else s[k]
  }

  /**
   * The global replace of `/(^|\s)([a-z])/g` by `p1 + p2.toUpperCase()`,
   * as the regular-expression engine runs it: scanning left to right from `i`,
   * trying `^` before `\s`, and resuming after each match.
   */
  function TitleScan(s: string, i: nat): (r: string)
    requires i <= |s|
    decreases |s| - i
    ensures |r| == |s| - i
  {
    if i == |s| then ""
    else if i == 0 && IsLower(s[0]) then [ToUpper(s[0])] + TitleScan(s, 1)
    else if IsSpace(s[i]) && i + 1 < |s| && IsLower(s[i + 1]) then [s[i], ToUpper(s[i + 1])] + TitleScan(s, i + 2)
    else [s[i]] + TitleScan(s, i + 1)
  }

  /** `toTitleCase(str)`. */
  function ToTitleCase(s: string): (r: string)
    ensures |r| == |s|
  {
    TitleScan(s, 0)
  }

  /** A position where the scan may resume: no match of the regular expression begins one earlier. */
  predicate Resumable(s: string, i: nat)
    requires i <= |s|
  {
    i == 0 || i == |s| || !(IsSpace(s[i - 1]) && IsLower(s[i]))
  }

  /** A letter `[a-z]` is not whitespace. */
  lemma LowerIsNotSpace(c: char)
    ensures IsLower(c) ==> !IsSpace(c)
  {
  }

  /** From a resumable position, the scan writes at `k` what `TitleChar` says. */
  lemma {:induction false} TitleScanAt(s: string, i: nat, k: nat)
    requires i <= k < |s|
    requires Resumable(s, i)
    ensures TitleScan(s, i)[k - i] == TitleChar(s, k)
    decreases |s| - i, 1
  {
    if i == 0 && IsLower(s[0]) {
      TitleScanAtStart(s, k);
    } else if IsSpace(s[i]) && i + 1 < |s| && IsLower(s[i + 1]) {
      TitleScanAtMatch(s, i, k);
    } else {
      TitleScanAtPlain(s, i, k);
    }
  }

  /** The scan at position 0 matches `^` followed by a letter. */
  lemma {:induction false} TitleScanAtStart(s: string, k: nat)
    requires k < |s| && IsLower(s[0])
    ensures TitleScan(s, 0)[k] == TitleChar(s, k)
    decreases |s|, 0
  {
    LowerIsNotSpace(s[0]);
    assert TitleScan(s, 0) == [ToUpper(s[0])] + TitleScan(s, 1);
    if k > 0 {
      TitleScanAt(s, 1, k);
    }
  }

  /** The scan at `i` matches whitespace followed by a letter. */
  lemma {:induction false} TitleScanAtMatch(s: string, i: nat, k: nat)
    requires i <= k < |s| && i + 1 < |s|
    requires Resumable(s, i) && !(i == 0 && IsLower(s[0]))
    requires IsSpace(s[i]) && IsLower(s[i + 1])
    ensures TitleScan(s, i)[k - i] == TitleChar(s, k)
    decreases |s| - i, 0
  {
    LowerIsNotSpace(s[i]);
    LowerIsNotSpace(s[i + 1]);
    TitleScanMatchStep(s, i);
    if k == i {
      assert TitleScan(s, i)[0] == s[i];
      assert !IsLower(s[i]);
    } else if k == i + 1 {
      assert TitleScan(s, i)[1] == ToUpper(s[i + 1]);
      assert AtWordStart(s, i + 1);
    } else {
      assert TitleScan(s, i)[k - i] == TitleScan(s, i + 2)[k - (i + 2)];
      TitleScanAt(s, i + 2, k);
    }
  }

  /** One step of the scan over whitespace followed by a letter. */
  lemma TitleScanMatchStep(s: string, i: nat)
    requires i + 1 < |s| && !(i == 0 && IsLower(s[0]))
    requires IsSpace(s[i]) && IsLower(s[i + 1])
    ensures TitleScan(s, i) == [s[i], ToUpper(s[i + 1])] + TitleScan(s, i + 2)
  {
  }

  /** The scan at `i` matches nothing and copies one character. */
  lemma {:induction false} TitleScanAtPlain(s: string, i: nat, k: nat)
    requires i <= k < |s|
    requires Resumable(s, i) && !(i == 0 && IsLower(s[0]))
    requires !(IsSpace(s[i]) && i + 1 < |s| && IsLower(s[i + 1]))
    ensures TitleScan(s, i)[k - i] == TitleChar(s, k)
    decreases |s| - i, 0
  {
    TitleScanPlainStep(s, i);
    if k == i {
      assert TitleScan(s, i)[0] == s[i];
      assert !(IsLower(s[i]) && AtWordStart(s, i));
    } else {
      assert TitleScan(s, i)[k - i] == TitleScan(s, i + 1)[k - (i + 1)];
      TitleScanAt(s, i + 1, k);
    }
  }

  /** One step of the scan where neither alternative of the regular expression matches. */
  lemma TitleScanPlainStep(s: string, i: nat)
    requires i < |s| && !(i == 0 && IsLower(s[0]))
    requires !(IsSpace(s[i]) && i + 1 < |s| && IsLower(s[i + 1]))
    ensures TitleScan(s, i) == [s[i]] + TitleScan(s, i + 1)
  {
  }

  /** `toTitleCase` upper-cases exactly the `[a-z]` letters that begin the string or follow whitespace. */
  lemma TitleCaseAt(s: string, k: nat)
    requires k < |s|
    ensures ToTitleCase(s)[k] == TitleChar(s, k)
  {
    TitleScanAt(s, 0, k);
  }

  /** Applying `toTitleCase` twice is the same as applying it once. */
  lemma TitleCaseIdempotent(s: string)
    ensures ToTitleCase(ToTitleCase(s)) == ToTitleCase(s)
  {
    var t := ToTitleCase(s);
    forall k | 0 <= k < |t| ensures ToTitleCase(t)[k] == t[k] {
      TitleCaseAt(s, k);
      TitleCaseAt(t, k);
      if k > 0 {
        TitleCaseAt(s, k - 1);
      }
    }
  }
}
