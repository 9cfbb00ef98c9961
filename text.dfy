/**
 * The Python string operations the core relies on: `str.strip`, `str.lower`,
 * the substring test `p in s`, `str.replace`, `sep.join` and `str.split`.
 */
module Text {

  /** Python's `str.isspace` for one character. */
  predicate IsSpace(c: char) {
    c == ' ' || ('\t' <= c <= '\r') || ('\U{1c}' <= c <= '\U{1f}')
    || c == '\U{85}' || c == '\U{a0}' || c == '\U{1680}'
    || ('\U{2000}' <= c <= '\U{200a}') || c == '\U{2028}' || c == '\U{2029}'
    || c == '\U{202f}' || c == '\U{205f}' || c == '\U{3000}'
  }

  /** A string made of whitespace only (Python: `not s.strip()`). */
  predicate IsBlank(s: string) {
    forall k :: 0 <= k < |s| ==> IsSpace(s[k])
  }

  /** `s.lstrip()`: drops the leading whitespace. */
  function TrimStart(s: string): (r: string)
    ensures |r| <= |s| && r == s[|s| - |r|..]
    ensures forall k :: 0 <= k < |s| - |r| ==> IsSpace(s[k])
    ensures r != [] ==> !IsSpace(r[0])
  {
    if s != [] && IsSpace(s[0]) then TrimStart(s[1..]) else s
  }

  /** `s.rstrip()`: drops the trailing whitespace. */
  function TrimEnd(s: string): (r: string)
    ensures |r| <= |s| && r == s[..|r|]
    ensures forall k :: |r| <= k < |s| ==> IsSpace(s[k])
    ensures r != [] ==> !IsSpace(r[|r| - 1])
  {
    if s != [] && IsSpace(s[|s| - 1]) then TrimEnd(s[..|s| - 1]) else s
  }

  /**
   * `s.strip()`: the infix of `s` left after removing whitespace at both ends;
   * it neither starts nor ends with whitespace.
   */
  function Strip(s: string): (r: string)
    ensures exists i, j ::
      && 0 <= i <= j <= |s| && r == s[i..j]
      && (forall k :: 0 <= k < i ==> IsSpace(s[k]))
      && (forall k :: j <= k < |s| ==> IsSpace(s[k]))
    ensures r != [] ==> !IsSpace(r[0]) && !IsSpace(r[|r| - 1])
  {
    var t := TrimStart(s);
    var r := TrimEnd(t);
    assert r == s[|s| - |t|..|s| - |t| + |r|];
    r
  }

  /** Stripping yields the empty string exactly for blank strings. */
  lemma StripEmptyIffBlank(s: string)
    ensures Strip(s) == [] <==> IsBlank(s)
  {

  }

  /** Stripping twice changes nothing. */
  lemma StripIdempotent(s: string)
    ensures Strip(Strip(s)) == Strip(s)
  {
    var r := Strip(s);
    var t := TrimStart(r);
    if r != [] {
      assert !IsSpace(r[0]);
      assert t == r;
      assert TrimEnd(r) == r;
    }
  }

  /** ASCII lower-casing of one character. */
  function LowerChar(c: char): char {
    if 'A' <= c <= 'Z' then (c as int + 32) as char else c
  }

  /**
   * `s.lower()`, restricted to ASCII letters: the same length, no upper-case
   * letter left, and every other character kept.
   */
  function Lower(s: string): (r: string)
    ensures |r| == |s|
    ensures forall k :: 0 <= k < |r| ==> !('A' <= r[k] <= 'Z')
    ensures forall k :: 0 <= k < |r| && !('A' <= s[k] <= 'Z') ==> r[k] == s[k]
  {
    seq(|s|, k requires 0 <= k < |s| => LowerChar(s[k]))
  }

  predicate StartsWith(s: string, p: string) {
    |p| <= |s| && s[..|p|] == p
  }

  /** The pattern `p` occurs in `s` at index `i`. */
  predicate OccursAt(s: string, p: string, i: int) {
    0 <= i && i + |p| <= |s| && s[i..i + |p|] == p
  }

  /** The substring test `p in s`: `p` occurs somewhere in `s`. */
  function Contains(s: string, p: string): (r: bool)
    ensures r <==> exists i :: OccursAt(s, p, i)
    decreases |s|
  {
    if StartsWith(s, p) then
      assert OccursAt(s, p, 0);
      true
    else if s == [] then
      false
    else
      var r := Contains(s[1..], p);
      assert r ==> exists i :: OccursAt(s, p, i) by {
        if r {
          var i :| OccursAt(s[1..], p, i);
          assert s[1..][i..i + |p|] == s[i + 1..i + 1 + |p|];
          assert OccursAt(s, p, i + 1);
        }
      }
      assert (exists i :: OccursAt(s, p, i)) ==> r by {
        if exists i :: OccursAt(s, p, i) {
          var i :| OccursAt(s, p, i);
          assert i != 0;
          assert s[1..][i - 1..i - 1 + |p|] == s[i..i + |p|];
          assert OccursAt(s[1..], p, i - 1);
        }
      }
      r
  }

  /**
   * `s.replace(p, v)`: scans left to right and rewrites every non-overlapping
   * occurrence of the non-empty pattern `p` into `v`.
   */
  function Replace(s: string, p: string, v: string): string
    requires p != []
    decreases |s|
  {
    if StartsWith(s, p) then v + Replace(s[|p|..], p, v)
    else if s == [] then []
    else [s[0]] + Replace(s[1..], p, v)
  }

  /** Text without an occurrence of the pattern is left as it is. */
  lemma {:induction false} ReplaceAbsent(s: string, p: string, v: string)
    requires p != [] && !Contains(s, p)
    ensures Replace(s, p, v) == s
    decreases |s|
  {
    if s != [] {
      ReplaceAbsent(s[1..], p, v);
      assert s == [s[0]] + s[1..];
    }
  }

  /** An occurrence at the front is rewritten and scanning resumes after it. */
  lemma ReplaceAtFront(p: string, v: string, b: string)
    requires p != []
    ensures Replace(p + b, p, v) == v + Replace(b, p, v)
  {
    assert StartsWith(p + b, p) by { assert (p + b)[..|p|] == p; }
    assert (p + b)[|p|..] == b;
  }

  /** A prefix holding no first character of the pattern passes through verbatim. */
  lemma {:induction false} ReplaceAfterPlain(a: string, b: string, p: string, v: string)
    requires p != [] && p[0] !in a
    ensures Replace(a + b, p, v) == a + Replace(b, p, v)
    decreases |a|
  {
    if a != [] {
      var s := a + b;
      assert !StartsWith(s, p) by { assert s[0] == a[0]; }
      assert s[0] == a[0] && s[1..] == a[1..] + b;
      ReplaceAfterPlain(a[1..], b, p, v);
      calc {
        Replace(s, p, v);
        [a[0]] + Replace(a[1..] + b, p, v);
        [a[0]] + (a[1..] + Replace(b, p, v));
        { assert a == [a[0]] + a[1..]; }
        a + Replace(b, p, v);
      }
    } else {
      assert a + b == b;
    }
  }

  /**
   * Every occurrence is rewritten: a text made of parts holding no first
   * character of the pattern, with the pattern between them, becomes those
   * parts with the value between them.
   */
  lemma {:induction false} ReplaceJoin(parts: seq<string>, p: string, v: string)
    requires p != [] && forall k :: 0 <= k < |parts| ==> p[0] !in parts[k]
    ensures Replace(Join(p, parts), p, v) == Join(v, parts)
    decreases |parts|
  {
    if |parts| == 1 {
      ReplaceAfterPlain(parts[0], [], p, v);
      assert parts[0] + [] == parts[0];
    } else if |parts| > 1 {
      var rest := Join(p, parts[1..]);
      assert forall k :: 0 <= k < |parts[1..]| ==> p[0] !in parts[1..][k] by {
        forall k | 0 <= k < |parts[1..]| ensures p[0] !in parts[1..][k] {
          assert parts[1..][k] == parts[k + 1];
        }
      }
      ReplaceJoin(parts[1..], p, v);
      assert p[0] !in parts[0];
      calc {
        Replace(Join(p, parts), p, v);
        { assert Join(p, parts) == parts[0] + (p + rest); }
        Replace(parts[0] + (p + rest), p, v);
        { ReplaceAfterPlain(parts[0], p + rest, p, v); }
        parts[0] + Replace(p + rest, p, v);
        { ReplaceAtFront(p, v, rest); }
        parts[0] + (v + Replace(rest, p, v));
        parts[0] + (v + Join(v, parts[1..]));
        { assert Join(v, parts) == parts[0] + v + Join(v, parts[1..]); }
        Join(v, parts);
      }
    }
  }

  /** Python's `sep.join(parts)`. */
  function Join(sep: string, parts: seq<string>): string
    decreases |parts|
  {
    if parts == [] then []
    else if |parts| == 1 then parts[0]
    else parts[0] + sep + Join(sep, parts[1..])
  }

  /** A joined text holds a character only if the separator or one of the parts does. */
  lemma {:induction false} JoinAvoids(sep: string, parts: seq<string>, c: char)
    requires c !in sep && forall k :: 0 <= k < |parts| ==> c !in parts[k]
    ensures c !in Join(sep, parts)
    decreases |parts|
  {
    if |parts| > 1 {
      JoinAvoids(sep, parts[1..], c);
    }
  }

  /** Python's `s.split(c)` for a one-character separator: always at least one piece. */
  function Split(s: string, c: char): (r: seq<string>)
    ensures |r| >= 1
    decreases |s|
  {
    if s == [] then [[]]
    else
      var rest := Split(s[1..], c);
      if s[0] == c then [[]] + rest
      else [[s[0]] + rest[0]] + rest[1..]
  }

  /** Text without the separator is a single piece. */
  lemma {:induction false} SplitPlain(s: string, c: char)
    requires c !in s
    ensures Split(s, c) == [s]
    decreases |s|
  {
    if s != [] {
      SplitPlain(s[1..], c);
      assert s == [s[0]] + s[1..];
    }
  }

  /** Splitting distributes over a separator occurrence. */
  lemma {:induction false} SplitAtSeparator(a: string, b: string, c: char)
    ensures Split(a + [c] + b, c) == Split(a, c) + Split(b, c)
    decreases |a|
  {
    if a == [] {
      assert a + [c] + b == [c] + b;
      assert ([c] + b)[1..] == b;
    } else {
      assert (a + [c] + b)[1..] == a[1..] + [c] + b;
      SplitAtSeparator(a[1..], b, c);
    }
  }

  /**
   * Splitting a joined list on its separator gives the list back, provided no
   * part contains the separator (the empty list joins to "", which splits to [""]).
   */
  lemma {:induction false} SplitJoin(parts: seq<string>, c: char)
    requires forall k :: 0 <= k < |parts| ==> c !in parts[k]
    ensures Split(Join([c], parts), c) == if parts == [] then [[]] else parts
    decreases |parts|
  {
    if |parts| == 1 {
      SplitPlain(parts[0], c);
    } else if |parts| > 1 {
      SplitPlain(parts[0], c);
      SplitJoin(parts[1..], c);
      SplitAtSeparator(parts[0], Join([c], parts[1..]), c);
      assert parts == [parts[0]] + parts[1..];
    }
  }
}
