/**
  The string operations the scripts borrow from Python: the substring test `needle in s`,
  `sep.join(parts)`, `s.lower()` and `str(n)` for a natural number.
 */
module Text {

  /** `needle` occurs in `s` starting at index `i`. */
  ghost predicate OccursAt(needle: string, s: string, i: nat) {
    i + |needle| <= |s| && s[i..i + |needle|] == needle
  }

  /** Python's `needle in s`, stated as the existence of a position. */
  ghost predicate IsSubstring(needle: string, s: string) {
    exists i: nat :: OccursAt(needle, s, i)
  }

  /** Python's `s.startswith(prefix)`. */
  predicate StartsWith(s: string, prefix: string) {
    |prefix| <= |s| && s[..|prefix|] == prefix
  }

  lemma OccursShift(needle: string, s: string, i: nat)
    requires |s| > 0
    ensures OccursAt(needle, s[1..], i) <==> OccursAt(needle, s, i + 1)
  {
    if i + |needle| <= |s[1..]| {
      assert s[1..][i..i + |needle|] == s[i + 1..i + 1 + |needle|];
    }
  }

  /** When `needle` is not a prefix of `s`, it occurs in `s` exactly when it occurs in `s[1..]`. */
  lemma SubstringOfTail(needle: string, s: string)
    requires |s| > 0 && !StartsWith(s, needle)
    ensures IsSubstring(needle, s) <==> IsSubstring(needle, s[1..])
  {
    if IsSubstring(needle, s) {
      var i: nat :| OccursAt(needle, s, i);
      assert s[..|needle|] == s[0..|needle|];
      assert i != 0;
      OccursShift(needle, s, i - 1);
    }
    if IsSubstring(needle, s[1..]) {
      var i: nat :| OccursAt(needle, s[1..], i);
      OccursShift(needle, s, i);
    }
  }

  /** The executable substring test: try each starting position from the left. */
  function Contains(s: string, needle: string): (b: bool)
    ensures b <==> IsSubstring(needle, s)
    decreases |s|
  {
    if StartsWith(s, needle) then
      assert OccursAt(needle, s, 0) by { assert s[..|needle|] == s[0..|needle|]; }
      true
    else if |s| == 0 then
      false
    else
      SubstringOfTail(needle, s);
      Contains(s[1..], needle)
  }

  /** The middle of a concatenation occurs in it. */
  lemma SubstringOfConcat(a: string, b: string, c: string)
    ensures IsSubstring(b, a + b + c)
  {
    assert (a + b + c)[|a|..|a| + |b|] == b;
    assert OccursAt(b, a + b + c, |a|);
  }

  /** Occurrence is transitive: a substring of a substring is a substring. */
  lemma SubstringTransitive(x: string, y: string, z: string)
    requires IsSubstring(x, y) && IsSubstring(y, z)
    ensures IsSubstring(x, z)
  {
    var i: nat :| OccursAt(x, y, i);
    var j: nat :| OccursAt(y, z, j);
    assert forall k | 0 <= k < |y| :: y[k] == z[j..j + |y|][k];
    var inZ, inY := z[j + i..j + i + |x|], y[i..i + |x|];
    assert forall k | 0 <= k < |x| :: inZ[k] == inY[k];
    assert OccursAt(x, z, j + i);
  }

  /** Surrounding a string with more text keeps every occurrence inside it. */
  lemma SubstringExtend(x: string, a: string, y: string, c: string)
    requires IsSubstring(x, y)
    ensures IsSubstring(x, a + y + c)
  {
    SubstringOfConcat(a, y, c);
    SubstringTransitive(x, y, a + y + c);
  }

  /** Appending text keeps every occurrence. */
  lemma SubstringAppend(x: string, y: string, c: string)
    requires IsSubstring(x, y)
    ensures IsSubstring(x, y + c)
  {
    var i: nat :| OccursAt(x, y, i);
    assert (y + c)[i..i + |x|] == y[i..i + |x|];
    assert OccursAt(x, y + c, i);
  }

  /** A string occurs at the end of anything it is appended to. */
  lemma SubstringAtEnd(a: string, x: string)
    ensures IsSubstring(x, a + x)
  {
    assert (a + x)[|a|..|a| + |x|] == x;
    assert OccursAt(x, a + x, |a|);
  }

  /** The three inner pieces of a five-piece concatenation occur in it. */
  lemma PiecesOfConcat(a: string, b: string, c: string, d: string, e: string)
    ensures IsSubstring(b, a + b + c + d + e)
    ensures IsSubstring(c, a + b + c + d + e)
    ensures IsSubstring(d, a + b + c + d + e)
  {
    SubstringOfConcat(a, b, c + d + e);
    assert a + b + (c + d + e) == a + b + c + d + e;
    SubstringOfConcat(a + b, c, d + e);
    assert a + b + c + (d + e) == a + b + c + d + e;
    SubstringOfConcat(a + b + c, d, e);
  }

  /** Python's `sep.join(parts)`. */
  function Join(sep: string, parts: seq<string>): string
    decreases |parts|
  {
    if |parts| == 0 then ""
    else if |parts| == 1 then parts[0]
    else parts[0] + sep + Join(sep, parts[1..])
  }

  /** Joining one more part adds the separator and that part at the end. */
  lemma {:induction false} JoinSnoc(sep: string, parts: seq<string>, last: string)
    requires |parts| > 0
    ensures Join(sep, parts + [last]) == Join(sep, parts) + sep + last
    decreases |parts|
  {
    if |parts| == 1 {
      assert (parts + [last])[1..] == [last];
    } else {
      assert (parts + [last])[1..] == parts[1..] + [last];
      JoinSnoc(sep, parts[1..], last);
    }
  }

  /** Every part appears verbatim in the joined string. */
  lemma {:induction false} JoinContainsParts(sep: string, parts: seq<string>, i: nat)
    requires i < |parts|
    ensures IsSubstring(parts[i], Join(sep, parts))
    decreases |parts|
  {
    if |parts| == 1 {
      SubstringOfConcat("", parts[0], "");
      assert "" + parts[0] + "" == parts[0];
    } else if i == 0 {
      SubstringOfConcat("", parts[0], sep + Join(sep, parts[1..]));
      assert "" + parts[0] + (sep + Join(sep, parts[1..])) == Join(sep, parts);
    } else {
      JoinContainsParts(sep, parts[1..], i - 1);
      SubstringExtend(parts[i], parts[0] + sep, Join(sep, parts[1..]), "");
      assert parts[0] + sep + Join(sep, parts[1..]) + "" == Join(sep, parts);
    }
  }

  /** Python's `c.lower()` on one character, restricted to ASCII letters. */
  function LowerChar(c: char): char {
    if 'A' <= c <= 'Z' then (c as int - 'A' as int + 'a' as int) as char else c
  }

  /** Python's `s.lower()`, restricted to ASCII letters. */
  function Lower(s: string): (r: string)
    ensures |r| == |s|
    ensures forall i :: 0 <= i < |s| ==> r[i] == LowerChar(s[i])
  {
    seq(|s|, i requires 0 <= i < |s| => LowerChar(s[i]))
  }

  /** Lower-casing distributes over concatenation. */
  lemma LowerConcat(a: string, b: string)
    ensures Lower(a + b) == Lower(a) + Lower(b)
  {
    assert forall i | 0 <= i < |a + b| :: Lower(a + b)[i] == (Lower(a) + Lower(b))[i];
  }

  /** Lower-casing twice is lower-casing once. */
  lemma LowerIdempotent(s: string)
    ensures Lower(Lower(s)) == Lower(s)
  {
    assert forall i | 0 <= i < |s| :: LowerChar(LowerChar(s[i])) == LowerChar(s[i]);
  }

  function DigitChar(d: nat): (c: char)
    requires d < 10
    ensures '0' <= c <= '9' && c as int - '0' as int == d
  {
    ('0' as int + d) as char
  }

  /** Python's `str(n)` for a natural number. */
  function NatToString(n: nat): (r: string)
    ensures |r| > 0 && forall i | 0 <= i < |r| :: '0' <= r[i] <= '9'
  {
    if n < 10 then [DigitChar(n)] else NatToString(n / 10) + [DigitChar(n % 10)]
  }

  /** Python's `int(s)` on a string of decimal digits. */
  function ParseNat(s: string): nat
    requires forall i | 0 <= i < |s| :: '0' <= s[i] <= '9'
  {
    if |s| == 0 then 0
    else ParseNat(s[..|s| - 1]) * 10 + (s[|s| - 1] as int - '0' as int)
  }

  /** `int(str(n)) == n`: the rendering loses nothing. */
  lemma {:induction false} ParseNatToString(n: nat)
    ensures ParseNat(NatToString(n)) == n
  {
    var r := NatToString(n);
    if n >= 10 {
      ParseNatToString(n / 10);
      assert r[..|r| - 1] == NatToString(n / 10);
    }
  }
}
