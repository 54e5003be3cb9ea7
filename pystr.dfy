/**
 * The parts of Python's `str` behaviour the workflow relies on: `isspace`,
 * `strip`, `lower`, `find`, `join`, slicing, and truthiness of optional strings.
 * Strings are sequences of Unicode scalar values, as Python's are of code points.
 */
module PyStr {
  import opened Wrappers

  /** Python's `str.isspace` for one character. */
  predicate IsSpace(c: char) {
    || ('\U{0009}' <= c <= '\U{000D}')
    || ('\U{001C}' <= c <= '\U{0020}')
    || c == '\U{0085}' || c == '\U{00A0}' || c == '\U{1680}'
    || ('\U{2000}' <= c <= '\U{200A}')
    || c == '\U{2028}' || c == '\U{2029}' || c == '\U{202F}'
    || c == '\U{205F}' || c == '\U{3000}'
  }

  predicate AllSpace(s: string) {
    forall i :: 0 <= i < |s| ==> IsSpace(s[i])
  }

  /** A string with no whitespace at either end. */
  predicate Trimmed(s: string) {
    s == [] || (!IsSpace(s[0]) && !IsSpace(s[|s| - 1]))
  }

  /** Python truthiness of an optional string: present and not empty. */
  predicate Truthy(o: Option<string>) {
    o.Some? && o.value != ""
  }

  /** `s.lstrip()`: `s` without its leading whitespace. */
  function TrimLeft(s: string): string
    decreases |s|
  {
    if s != [] && IsSpace(s[0]) then TrimLeft(s[1..]) else s
  }

  /** `s.rstrip()`: `s` without its trailing whitespace. */
  function TrimRight(s: string): string
    decreases |s|
  {
    if s != [] && IsSpace(s[|s| - 1]) then TrimRight(s[..|s| - 1]) else s
  }

  /** `s.strip()`: `s` without its leading and trailing whitespace. */
  function Strip(s: string): string {
    TrimRight(TrimLeft(s))
  }

  /** What `lstrip` leaves is a suffix of `s`. */
  lemma {:induction false} TrimLeftSuffix(s: string)
    ensures |TrimLeft(s)| <= |s| && TrimLeft(s) == s[|s| - |TrimLeft(s)|..]
    decreases |s|
  {
    if s != [] && IsSpace(s[0]) {
      TrimLeftSuffix(s[1..]);
      var r := TrimLeft(s[1..]);
      assert s[1..][|s| - 1 - |r|..] == s[|s| - |r|..];
    }
  }

  /** What `lstrip` drops is whitespace. */
  lemma {:induction false} TrimLeftDropsSpace(s: string)
    ensures |TrimLeft(s)| <= |s| && AllSpace(s[..|s| - |TrimLeft(s)|])
    decreases |s|
  {
    if s != [] && IsSpace(s[0]) {
      var r := TrimLeft(s[1..]);
      TrimLeftDropsSpace(s[1..]);
      assert s[..|s| - |r|] == [s[0]] + s[1..][..|s| - 1 - |r|];
    }
  }

  /** What `lstrip` leaves starts with a non-space. */
  lemma {:induction false} TrimLeftStart(s: string)
    ensures TrimLeft(s) == [] || !IsSpace(TrimLeft(s)[0])
    decreases |s|
  {
    if s != [] && IsSpace(s[0]) {
      TrimLeftStart(s[1..]);
    }
  }

  /** `lstrip` drops leading whitespace and keeps the rest, which starts with a non-space. */
  lemma TrimLeftShape(s: string)
    ensures |TrimLeft(s)| <= |s| && TrimLeft(s) == s[|s| - |TrimLeft(s)|..]
    ensures AllSpace(s[..|s| - |TrimLeft(s)|])
    ensures TrimLeft(s) == [] || !IsSpace(TrimLeft(s)[0])
  {
    TrimLeftSuffix(s);
    TrimLeftDropsSpace(s);
    TrimLeftStart(s);
  }

  /** What `rstrip` leaves is a prefix of `s`. */
  lemma {:induction false} TrimRightPrefix(s: string)
    ensures |TrimRight(s)| <= |s| && TrimRight(s) == s[..|TrimRight(s)|]
    decreases |s|
  {
    if s != [] && IsSpace(s[|s| - 1]) {
      TrimRightPrefix(s[..|s| - 1]);
    }
  }

  /** What `rstrip` drops is whitespace. */
  lemma {:induction false} TrimRightDropsSpace(s: string)
    ensures |TrimRight(s)| <= |s| && AllSpace(s[|TrimRight(s)|..])
    decreases |s|
  {
    if s != [] && IsSpace(s[|s| - 1]) {
      var r := TrimRight(s[..|s| - 1]);
      TrimRightDropsSpace(s[..|s| - 1]);
      assert s[|r|..] == s[..|s| - 1][|r|..] + [s[|s| - 1]];
    }
  }

  /** What `rstrip` leaves ends with a non-space. */
  lemma {:induction false} TrimRightEnd(s: string)
    ensures TrimRight(s) == [] || !IsSpace(TrimRight(s)[|TrimRight(s)| - 1])
    decreases |s|
  {
    if s != [] && IsSpace(s[|s| - 1]) {
      TrimRightEnd(s[..|s| - 1]);
    }
  }

  /** `rstrip` drops trailing whitespace and keeps the rest, which ends with a non-space. */
  lemma TrimRightShape(s: string)
    ensures |TrimRight(s)| <= |s| && TrimRight(s) == s[..|TrimRight(s)|]
    ensures AllSpace(s[|TrimRight(s)|..])
    ensures TrimRight(s) == [] || !IsSpace(TrimRight(s)[|TrimRight(s)| - 1])
  {
    TrimRightPrefix(s);
    TrimRightDropsSpace(s);
    TrimRightEnd(s);
  }

  /**
   * `strip` keeps one slice of its argument with only whitespace around it,
   * leaves no whitespace at either end, and empties exactly the blank strings.
   */
  lemma StripShape(s: string)
    ensures |Strip(s)| <= |s|
    ensures exists k :: (0 <= k && k + |Strip(s)| <= |s| && Strip(s) == s[k..k + |Strip(s)|]
                         && AllSpace(s[..k]) && AllSpace(s[k + |Strip(s)|..]))
    ensures Trimmed(Strip(s))
    ensures Strip(s) == [] <==> AllSpace(s)
  {
    var l := TrimLeft(s);
    TrimLeftShape(s);
    TrimRightShape(l);
    var k := |s| - |l|;
    assert s == s[..k] + l;
    var r := TrimRight(l);
    assert r == s[k..k + |r|];
    assert s[k + |r|..] == l[|r|..];
    if TrimRight(l) == [] {
      assert l[0..] == l;
      AllSpaceAppend(s[..k], l);
    }
    if AllSpace(s) {
      if l != [] {
        assert l[0] == s[k];
      }
    }
  }

  lemma AllSpaceAppend(a: string, b: string)
    requires AllSpace(a) && AllSpace(b)
    ensures AllSpace(a + b)
  {
    forall i | 0 <= i < |a + b| ensures IsSpace((a + b)[i]) {
      if i >= |a| { assert (a + b)[i] == b[i - |a|]; }
    }
  }

  /** `strip` leaves a string without surrounding whitespace as it is. */
  lemma StripKeepsTrimmed(s: string)
    requires Trimmed(s)
    ensures Strip(s) == s
  {
  }

  /** Removing whitespace-only padding never changes what `strip` returns. */
  lemma {:induction false} StripIgnoresPadding(a: string, s: string, b: string)
    requires AllSpace(a) && AllSpace(b)
    ensures Strip(a + s + b) == Strip(s)
  {
    TrimLeftSkipsSpace(a, s + b);
    assert a + s + b == a + (s + b);
    var l := TrimLeft(s);
    TrimLeftShape(s);
    if l == [] {
      assert s[..|s|] == s;
      TrimLeftSkipsSpace(s, b);
      TrimLeftSkipsSpace(b, []);
      assert b + [] == b;
    } else {
      TrimLeftKeepsTail(s, b);
      TrimRightSkipsSpace(l, b);
    }
  }

  /** Leading whitespace is exactly what `lstrip` drops. */
  lemma {:induction false} TrimLeftSkipsSpace(a: string, s: string)
    requires AllSpace(a)
    ensures TrimLeft(a + s) == TrimLeft(s)
    decreases |a|
  {
    if a != [] {
      assert (a + s)[1..] == a[1..] + s;
      TrimLeftSkipsSpace(a[1..], s);
    } else {
      assert a + s == s;
    }
  }

  /** Once the first non-space character is reached, whatever follows is kept. */
  lemma {:induction false} TrimLeftKeepsTail(s: string, b: string)
    requires TrimLeft(s) != []
    ensures TrimLeft(s + b) == TrimLeft(s) + b
    decreases |s|
  {
    if IsSpace(s[0]) {
      assert (s + b)[1..] == s[1..] + b;
      TrimLeftKeepsTail(s[1..], b);
    }
  }

  /** Trailing whitespace is exactly what `rstrip` drops. */
  lemma {:induction false} TrimRightSkipsSpace(s: string, b: string)
    requires AllSpace(b)
    ensures TrimRight(s + b) == TrimRight(s)
    decreases |b|
  {
    if b != [] {
      assert (s + b)[..|s + b| - 1] == s + b[..|b| - 1];
      TrimRightSkipsSpace(s, b[..|b| - 1]);
    } else {
      assert s + b == s;
    }
  }

  /** `str.lower` for a character whose lowercase is a single character (ASCII A-Z). */
  function LowerChar(c: char): char {
    if 'A' <= c <= 'Z' then ((c as int) + 32) as char else c
  }

  /** Case folding that keeps every index: each character lowered on its own. */
  function FoldCase(s: string): (r: string)
    ensures |r| == |s|
  {
    seq(|s|, i requires 0 <= i < |s| => LowerChar(s[i]))
  }

  /** A string with no ASCII capital letters is its own case fold. */
  lemma FoldCaseNoCapitals(s: string)
    requires forall i :: 0 <= i < |s| ==> !('A' <= s[i] <= 'Z')
    ensures FoldCase(s) == s
  {
  }

  const DottedCapitalI: char := '\U{0130}'

  /**
   * Python's `str.lower` as far as the workflow can observe it: ASCII letters
   * are lowered, and U+0130 (capital I with dot above) becomes the two
   * characters "i" and U+0307, the one character whose lowercase is longer.
   */
  function PyLower(s: string): (r: string)
    ensures |r| >= |s|
    decreases |s|
  {
    if s == [] then []
    else (if s[0] == DottedCapitalI then "i\U{0307}" else [LowerChar(s[0])]) + PyLower(s[1..])
  }

  /** Without U+0130, Python's `lower` keeps every index, like `FoldCase`. */
  lemma {:induction false} PyLowerKeepsIndices(s: string)
    requires DottedCapitalI !in s
    ensures PyLower(s) == FoldCase(s)
    decreases |s|
  {
    if s != [] {
      assert DottedCapitalI !in s[1..];
      PyLowerKeepsIndices(s[1..]);
      assert FoldCase(s) == [LowerChar(s[0])] + FoldCase(s[1..]);
    }
  }

  /** `pat` occurs in `s` starting at index `i`. */
  predicate OccursAt(s: string, pat: string, i: int) {
    0 <= i && i + |pat| <= |s| && s[i..i + |pat|] == pat
  }

  /** An occurrence starts with the pattern's first character. */
  lemma OccursAtHead(s: string, pat: string, i: int)
    requires pat != []
    ensures OccursAt(s, pat, i) ==> s[i] == pat[0]
  {
    if OccursAt(s, pat, i) { assert s[i..i + |pat|][0] == s[i]; }
  }

  /** `i` is the first occurrence of `pat` in `s` at or after `from`. */
  predicate FirstAt(s: string, pat: string, from: int, i: int) {
    from <= i && OccursAt(s, pat, i) && forall k :: from <= k < i ==> !OccursAt(s, pat, k)
  }

  /** Python's `s.find(pat, from)` for a non-negative start: the first index, or -1. */
  function Find(s: string, pat: string, from: nat): (r: int)
    ensures r == -1 || FirstAt(s, pat, from, r)
    decreases |s| - from
  {
    if from + |pat| > |s| then -1
    else if s[from..from + |pat|] == pat then from
    else Find(s, pat, from + 1)
  }

  /** There is one first occurrence. */
  lemma FirstAtUnique(s: string, pat: string, from: int, i: int, j: int)
    requires FirstAt(s, pat, from, i) && FirstAt(s, pat, from, j)
    ensures i == j
  {
  }

  /** `find` returns the first occurrence whenever there is one. */
  lemma FindIs(s: string, pat: string, from: nat, i: int)
    requires FirstAt(s, pat, from, i)
    ensures Find(s, pat, from) == i
  {
    FindFound(s, pat, from, i);
    FirstAtUnique(s, pat, from, Find(s, pat, from), i);
  }

  /** `find` does not return -1 when the pattern occurs at or after the start. */
  lemma {:induction false} FindFound(s: string, pat: string, from: nat, i: int)
    requires from <= i && OccursAt(s, pat, i)
    ensures Find(s, pat, from) != -1
    decreases |s| - from
  {
    if from < i && s[from..from + |pat|] != pat {
      FindFound(s, pat, from + 1, i);
    }
  }

  /** Python's `sep.join(parts)`. */
  function Join(sep: string, parts: seq<string>): string
    decreases |parts|
  {
    if parts == [] then ""
    else if |parts| == 1 then parts[0]
    else Join(sep, parts[..|parts| - 1]) + sep + parts[|parts| - 1]
  }

  /** Joining two parts puts the separator between them. */
  lemma JoinTwo(sep: string, a: string, b: string)
    ensures Join(sep, [a, b]) == a + sep + b
  {
    assert [a, b][..1] == [a];
  }

  /** Joining three parts puts the separator between each neighbouring pair. */
  lemma JoinThree(sep: string, a: string, b: string, c: string)
    ensures Join(sep, [a, b, c]) == a + sep + b + sep + c
  {
    assert [a, b, c][..2] == [a, b];
    JoinTwo(sep, a, b);
  }

  /** `strip` leaves text between two non-empty trimmed strings as it is. */
  lemma StripKeepsEnds(a: string, mid: string, b: string)
    requires a != "" && b != "" && Trimmed(a) && Trimmed(b)
    ensures Strip(a + mid + b) == a + mid + b
  {
    var s := a + mid + b;
    assert s[0] == a[0];
    assert s[|s| - 1] == b[|b| - 1];
    StripKeepsTrimmed(s);
  }

  /** Joining with a space gives only whitespace exactly when every part is whitespace. */
  lemma {:induction false} JoinAllSpace(parts: seq<string>)
    ensures AllSpace(Join(" ", parts)) <==> forall i :: 0 <= i < |parts| ==> AllSpace(parts[i])
    decreases |parts|
  {
    if |parts| > 1 {
      var init := parts[..|parts| - 1];
      var j := Join(" ", init);
      JoinAllSpace(init);
      var whole := j + " " + parts[|parts| - 1];
      assert Join(" ", parts) == whole;
      if AllSpace(whole) {
        assert AllSpace(j) by {
          forall i | 0 <= i < |j| ensures IsSpace(j[i]) { assert j[i] == whole[i]; }
        }
        assert AllSpace(parts[|parts| - 1]) by {
          var p := parts[|parts| - 1];
          forall i | 0 <= i < |p| ensures IsSpace(p[i]) { assert p[i] == whole[|j| + 1 + i]; }
        }
        forall i | 0 <= i < |parts| ensures AllSpace(parts[i]) {
          if i < |parts| - 1 { assert parts[i] == init[i]; }
        }
      }
    }
  }

  /** Python's `s[a:b]` for non-negative bounds: both ends are clipped to the string. */
  function Slice(s: string, a: nat, b: nat): (r: string)
    ensures |r| <= |s|
  {
    var lo := if a < |s| then a else |s|;
    var hi := if b < |s| then b else |s|;
    if hi <= lo then "" else s[lo..hi]
  }

  /** Python's `s[:n]` for a non-negative `n`. */
  function Take(s: string, n: nat): (r: string)
    ensures |r| == (if |s| < n then |s| else n)
    ensures r <= s
  {
    if |s| < n then s else s[..n]
  }
}
