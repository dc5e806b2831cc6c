/**
 * The few Python string operations the modelled code relies on:
 * substring tests, prefix/suffix tests, `str.isspace`, `str.strip`,
 * whitespace removal (`"".join(s.split())`), ASCII `upper`, `sep.join`
 * and `str(int)`.
 */
module Strings {

  predicate IsPrefix(p: string, s: string) {
    |p| <= |s| && s[..|p|] == p
  }

  predicate IsSuffix(p: string, s: string) {
    |p| <= |s| && s[|s| - |p|..] == p
  }

  /** `sub` occurs in `s` starting at index `i`. */
  predicate OccursAt(s: string, sub: string, i: int) {
    0 <= i && i + |sub| <= |s| && s[i..i + |sub|] == sub
  }

  /** Python's `sub in s`. */
  predicate Contains(s: string, sub: string) {
    exists i | 0 <= i <= |s| - |sub| :: OccursAt(s, sub, i)
  }

  lemma ContainsWitness(s: string, sub: string, i: int)
    requires OccursAt(s, sub, i)
    ensures Contains(s, sub)
  {
  }

  /** A string contains every one of its slices. */
  lemma SliceContained(s: string, i: int, j: int)
    requires 0 <= i <= j <= |s|
    ensures Contains(s, s[i..j])
  {
    assert OccursAt(s, s[i..j], i);
  }

  /** If `sub` starts with a character that never occurs in `s`, `sub` is not in `s`. */
  lemma AbsentFirstChar(s: string, sub: string)
    requires |sub| > 0
    requires forall k | 0 <= k < |s| :: s[k] != sub[0]
    ensures !Contains(s, sub)
  {
    forall i | 0 <= i <= |s| - |sub|
      ensures !OccursAt(s, sub, i)
    {
      assert s[i..i + |sub|][0] == s[i];
    }
  }

  /** Containment is transitive through slices: a slice of a slice is a slice. */
  lemma ContainsInSlice(s: string, i: int, j: int, sub: string)
    requires 0 <= i <= j <= |s|
    requires Contains(s[i..j], sub)
    ensures Contains(s, sub)
  {
    var k :| 0 <= k <= |s[i..j]| - |sub| && OccursAt(s[i..j], sub, k);
    forall t | 0 <= t < |sub|
      ensures s[i + k + t] == sub[t]
    {
      assert sub[t] == s[i..j][k..k + |sub|][t];
    }
    assert s[i + k..i + k + |sub|] == sub;
    assert OccursAt(s, sub, i + k);
  }

  /** Python's `str.isspace` for one character (the Unicode whitespace set). */
  predicate IsSpace(c: char) {
    var n := c as int;
    (9 <= n <= 13) || (28 <= n <= 32) || n == 0x85 || n == 0xA0 || n == 0x1680
    || (0x2000 <= n <= 0x200A) || n == 0x2028 || n == 0x2029 || n == 0x202F
    || n == 0x205F || n == 0x3000
  }

  predicate NoSpace(s: string) {
    forall k | 0 <= k < |s| :: !IsSpace(s[k])
  }

  /** `"".join(s.split())`: every whitespace character removed, the rest kept in order. */
  function RemoveWhitespace(s: string): (r: string)
    ensures NoSpace(r)
    ensures |r| <= |s|
  {
    if s == [] then []
    else if IsSpace(s[0]) then RemoveWhitespace(s[1..])
    else [s[0]] + RemoveWhitespace(s[1..])
  }

  lemma {:induction false} RemoveWhitespaceConcat(a: string, b: string)
    ensures RemoveWhitespace(a + b) == RemoveWhitespace(a) + RemoveWhitespace(b)
  {
    if a == [] {
      assert a + b == b;
    } else {
      assert (a + b)[0] == a[0];
      assert (a + b)[1..] == a[1..] + b;
      RemoveWhitespaceConcat(a[1..], b);
    }
  }

  /** Removing whitespace from text that has none changes nothing. */
  lemma {:induction false} RemoveWhitespaceFixes(s: string)
    requires NoSpace(s)
    ensures RemoveWhitespace(s) == s
  {
    if s != [] {
      RemoveWhitespaceFixes(s[1..]);
    }
  }

  lemma {:induction false} RemoveAllSpace(s: string)
    requires forall k | 0 <= k < |s| :: IsSpace(s[k])
    ensures RemoveWhitespace(s) == []
  {
    if s != [] {
      RemoveAllSpace(s[1..]);
    }
  }

  function StripLeft(s: string): (r: string)
    ensures |r| <= |s| && r == s[|s| - |r|..]
    ensures r == [] || !IsSpace(r[0])
  {
    if s != [] && IsSpace(s[0]) then
      var t := StripLeft(s[1..]);
      assert s[1..][|s| - 1 - |t|..] == s[|s| - |t|..];
      t
    else s
  }

  function StripRight(s: string): (r: string)
    ensures |r| <= |s| && r == s[..|r|]
    ensures r == [] || !IsSpace(r[|r| - 1])
  {
    if s != [] && IsSpace(s[|s| - 1]) then StripRight(s[..|s| - 1]) else s
  }

  /** Python's `s.strip()`. */
  function Strip(s: string): (r: string)
  {
    StripRight(StripLeft(s))
  }

  /** `s.strip()` is a slice of `s` with no whitespace at either end. */
  lemma StripIsSlice(s: string)
    ensures exists i, j | 0 <= i <= j <= |s| :: Strip(s) == s[i..j]
    ensures Strip(s) == [] || (!IsSpace(Strip(s)[0]) && !IsSpace(Strip(s)[|Strip(s)| - 1]))
  {
    var l := StripLeft(s);
    var i := |s| - |l|;
    var r := StripRight(l);
    assert l == s[i..];
    assert r == l[..|r|] == s[i..i + |r|];
  }

  /** `s.strip()` is a substring of `s`. */
  lemma StripContained(s: string)
    ensures Contains(s, Strip(s))
  {
    StripIsSlice(s);
    var i, j :| 0 <= i <= j <= |s| && Strip(s) == s[i..j];
    SliceContained(s, i, j);
  }

  /** Stripping the leading whitespace first does not change which characters survive. */
  lemma {:induction false} StripLeftThenRemove(s: string)
    ensures RemoveWhitespace(StripLeft(s)) == RemoveWhitespace(s)
  {
    if s != [] && IsSpace(s[0]) {
      StripLeftThenRemove(s[1..]);
    }
  }

  lemma {:induction false} StripRightThenRemove(s: string)
    ensures RemoveWhitespace(StripRight(s)) == RemoveWhitespace(s)
  {
    if s != [] && IsSpace(s[|s| - 1]) {
      var init := s[..|s| - 1];
      assert s == init + [s[|s| - 1]];
      RemoveWhitespaceConcat(init, [s[|s| - 1]]);
      assert RemoveWhitespace([s[|s| - 1]]) == [];
      StripRightThenRemove(init);
    }
  }

  /** `"".join(s.strip().split()) == "".join(s.split())`. */
  lemma StripThenRemove(s: string)
    ensures RemoveWhitespace(Strip(s)) == RemoveWhitespace(s)
  {
    StripRightThenRemove(StripLeft(s));
    StripLeftThenRemove(s);
  }

  /** Python's `c.upper()` restricted to ASCII letters. */
  function UpperChar(c: char): char {
    if 'a' <= c <= 'z' then (c as int - 32) as char else c
  }

  function Upper(s: string): (r: string)
    ensures |r| == |s|
    ensures forall k | 0 <= k < |s| :: r[k] == UpperChar(s[k])
  {
    if s == [] then [] else [UpperChar(s[0])] + Upper(s[1..])
  }

  /** `sep.join(parts)`. */
  function Join(parts: seq<string>, sep: string): string {
    if parts == [] then []
    else if |parts| == 1 then parts[0]
    else Join(parts[..|parts| - 1], sep) + sep + parts[|parts| - 1]
  }

  /** Joining keeps the parts in order: the joined text splits at any part boundary into the two joined halves. */
  lemma {:induction false} JoinSplit(parts: seq<string>, sep: string, k: nat)
    requires 0 < k < |parts|
    ensures Join(parts, sep) == Join(parts[..k], sep) + sep + Join(parts[k..], sep)
    decreases |parts|
  {
    var n := |parts|;
    if k < n - 1 {
      var init := parts[..n - 1];
      JoinSplit(init, sep, k);
      assert init[..k] == parts[..k];
      assert init[k..] == parts[k..n - 1];
      assert parts[k..][..|parts[k..]| - 1] == parts[k..n - 1];
    } else {
      assert parts[k..] == [parts[n - 1]];
      assert parts[..k] == parts[..n - 1];
    }
  }

  function DigitChar(d: nat): char
    requires d < 10
  {
    ('0' as int + d) as char
  }

  function NatToString(n: nat): (r: string)
    ensures |r| > 0
  {
    if n < 10 then [DigitChar(n)] else NatToString(n / 10) + [DigitChar(n % 10)]
  }

  /** `str(n)` for a Python int. */
  function IntToString(n: int): string {
    if n < 0 then "-" + NatToString(-n) else NatToString(n)
  }
}
