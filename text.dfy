/**
  The JavaScript string built-ins the studio core relies on, written out:
  `String.prototype.trim`, `split(':')`, `Array.prototype.join` and, in place of
  `localeCompare`, a fixed total order on strings (lexicographic by code point).
*/
module Text {

  /** ECMAScript WhiteSpace and LineTerminator code points: what `trim` removes. */
  predicate IsWhitespace(c: char) {
    || c == ' ' || c == '\t' || c == '\n' || c == '\r'
    || c == '\U{000B}' || c == '\U{000C}' || c == '\U{00A0}' || c == '\U{1680}'
    || ('\U{2000}' <= c <= '\U{200A}')
    || c == '\U{2028}' || c == '\U{2029}' || c == '\U{202F}' || c == '\U{205F}'
    || c == '\U{3000}' || c == '\U{FEFF}'
  }

  predicate AllWhitespace(s: string) {
    forall i :: 0 <= i < |s| ==> IsWhitespace(s[i])
  }

  /** Drops leading whitespace: the result is a suffix of `s` and everything dropped is whitespace. */
  function TrimStart(s: string): (r: string)
    ensures |r| <= |s| && r == s[|s| - |r|..]
    ensures r == [] || !IsWhitespace(r[0])
    ensures AllWhitespace(s[..|s| - |r|])
    ensures r == [] <==> AllWhitespace(s)
    decreases |s|
  {
    if |s| > 0 && IsWhitespace(s[0]) then TrimStart(s[1..]) else s
  }

  /** Drops trailing whitespace: the result is a prefix of `s` and everything dropped is whitespace. */
  function TrimEnd(s: string): (r: string)
    ensures |r| <= |s| && r == s[..|r|]
    ensures r == [] || !IsWhitespace(r[|r| - 1])
    ensures AllWhitespace(s[|r|..])
    ensures r == [] <==> AllWhitespace(s)
    decreases |s|
  {
    if |s| > 0 && IsWhitespace(s[|s| - 1]) then TrimEnd(s[..|s| - 1]) else s
  }

  /**
    `s.trim()`: empty exactly when `s` is all whitespace (this is the test `!s.trim()`),
    and otherwise neither starting nor ending with whitespace; `TrimIsSlice` shows it is
    a slice of `s` with only whitespace cut off at either end.
  */
  function Trim(s: string): (r: string)
    ensures |r| <= |s|
    ensures r == [] <==> AllWhitespace(s)
    ensures r == [] || (!IsWhitespace(r[0]) && !IsWhitespace(r[|r| - 1]))
  {
    var t := TrimStart(s);
    var r := TrimEnd(t);
    assert r != [] ==> r[0] == t[0];
    r
  }

  /** What `trim` returns is a slice of its input with only whitespace cut off around it. */
  lemma TrimIsSlice(s: string)
    ensures WhitespaceAround(s, Trim(s))
  {
    TrimmedSlice(s, TrimStart(s), TrimEnd(TrimStart(s)));
  }

  /** `r` is a slice of `s` with nothing but whitespace before and after it. */
  predicate WhitespaceAround(s: string, r: string) {
    exists i, j :: 0 <= i <= j <= |s| && r == s[i..j] && AllWhitespace(s[..i]) && AllWhitespace(s[j..])
  }

  /** A prefix `r` of a suffix `t` of `s`, with whitespace around, is a slice of `s` with whitespace around. */
  lemma TrimmedSlice(s: string, t: string, r: string)
    requires |t| <= |s| && t == s[|s| - |t|..] && AllWhitespace(s[..|s| - |t|])
    requires |r| <= |t| && r == t[..|r|] && AllWhitespace(t[|r|..])
    ensures WhitespaceAround(s, r)
  {
    var i := |s| - |t|;
    var j := i + |r|;
    assert r == s[i..j] by {
      assert s[i..j] == t[..|r|];
    }
    assert AllWhitespace(s[j..]) by {
      assert s[j..] == t[|r|..];
    }
  }

  /** Trimming is idempotent. */
  lemma TrimIdempotent(s: string)
    ensures Trim(Trim(s)) == Trim(s)
  {
    var r := Trim(s);
    if r != [] {
      assert TrimStart(r) == r;
      assert TrimEnd(r) == r;
    }
  }

  /**
    `s.split(c)`: the pieces between occurrences of `c`, always at least one
    (`"".split(c)` is `[""]`), none containing `c`.
  */
  function SplitOn(s: string, c: char): (parts: seq<string>)
    ensures |parts| >= 1
    ensures forall i :: 0 <= i < |parts| ==> c !in parts[i]
    ensures |parts| == 1 <==> c !in s
  {
    if |s| == 0 then [""]
    else
      var rest := SplitOn(s[1..], c);
      if s[0] == c then [""] + rest
      else [[s[0]] + rest[0]] + rest[1..]
  }

  /** `parts.join(sep)`. */
  function Join(parts: seq<string>, sep: string): (r: string)
    decreases |parts|
  {
    if |parts| == 0 then ""
    else if |parts| == 1 then parts[0]
    else parts[0] + sep + Join(parts[1..], sep)
  }

  /** Splitting and joining back with the same separator gives the string back. */
  lemma {:induction false} JoinSplit(s: string, c: char)
    ensures Join(SplitOn(s, c), [c]) == s
  {
    if |s| > 0 {
      var rest := SplitOn(s[1..], c);
      JoinSplit(s[1..], c);
      if s[0] == c {
        assert SplitOn(s, c) == [""] + rest;
        assert ([""] + rest)[1..] == rest;
      } else {
        var parts := [[s[0]] + rest[0]] + rest[1..];
        assert SplitOn(s, c) == parts;
        if |rest| == 1 {
          assert Join(rest, [c]) == rest[0];
        } else {
          assert Join(rest, [c]) == rest[0] + [c] + Join(rest[1..], [c]);
          assert parts[1..] == rest[1..];
        }
      }
    }
  }

  /** Joining pieces that do not contain `c` and splitting again gives the pieces back. */
  lemma {:induction false} SplitJoin(parts: seq<string>, c: char)
    requires |parts| >= 1
    requires forall i :: 0 <= i < |parts| ==> c !in parts[i]
    ensures SplitOn(Join(parts, [c]), c) == parts
  {
    if |parts| == 1 {
      SplitPiece(parts[0], c);
    } else {
      SplitJoin(parts[1..], c);
      assert Join(parts, [c]) == parts[0] + ([c] + Join(parts[1..], [c]));
      SplitPrefix(parts[0], [c] + Join(parts[1..], [c]), c);
      assert ([c] + Join(parts[1..], [c]))[1..] == Join(parts[1..], [c]);
      assert [parts[0]] + parts[1..] == parts;
    }
  }

  /** A piece without `c` splits to itself. */
  lemma {:induction false} SplitPiece(w: string, c: char)
    requires c !in w
    ensures SplitOn(w, c) == [w]
  {
    if |w| > 0 {
      SplitPiece(w[1..], c);
      assert [w[0]] + w[1..] == w;
    }
  }

  /** Splitting `w + t`, where `t` starts with `c` and `w` has none, puts `w` first. */
  lemma {:induction false} SplitPrefix(w: string, t: string, c: char)
    requires c !in w
    requires |t| > 0 && t[0] == c
    ensures SplitOn(w + t, c) == [w] + SplitOn(t[1..], c)
  {
    if |w| == 0 {
      assert w + t == t;
    } else {
      SplitPrefix(w[1..], t, c);
      assert (w + t)[1..] == w[1..] + t;
      assert [w[0]] + w[1..] == w;
    }
  }

  /**
    The order used for `a.localeCompare(b)`: negative, zero or positive as `a` sorts
    before, equal to or after `b`, comparing characters (Unicode code points) from the left.
  */
  function CompareStrings(a: string, b: string): (r: int)
    ensures -1 <= r <= 1
    ensures r == 0 <==> a == b
  {
    if |a| == 0 && |b| == 0 then 0
    else if |a| == 0 then -1
    else if |b| == 0 then 1
    else if a[0] < b[0] then -1
    else if a[0] > b[0] then 1
    else
      var r := CompareStrings(a[1..], b[1..]);
      assert r == 0 ==> a == [a[0]] + a[1..] == [b[0]] + b[1..] == b;
      r
  }

  /** Swapping the arguments flips the sign. */
  lemma {:induction false} CompareAntisymmetric(a: string, b: string)
    ensures CompareStrings(a, b) == -CompareStrings(b, a)
  {
    if |a| > 0 && |b| > 0 && a[0] == b[0] {
      CompareAntisymmetric(a[1..], b[1..]);
    }
  }

  /** "Sorts no later than" is transitive. */
  lemma {:induction false} CompareTransitive(a: string, b: string, c: string)
    requires CompareStrings(a, b) <= 0 && CompareStrings(b, c) <= 0
    ensures CompareStrings(a, c) <= 0
  {
    if |a| > 0 && |b| > 0 && |c| > 0 && a[0] == b[0] == c[0] {
      CompareTransitive(a[1..], b[1..], c[1..]);
    }
  }
}
