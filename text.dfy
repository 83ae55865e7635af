/**
 * String helpers shared by the classifier, the fetchers and the query
 * filters: ASCII lower-casing (JavaScript's `toLowerCase` and Prisma's
 * `mode: 'insensitive'`, restricted to ASCII), substring search
 * (`String.prototype.includes`), `Array.prototype.join`, prefix truncation
 * (`slice(0, n)`) and decimal rendering of integers (template literals).
 */
module Text {

  /** ASCII lower-casing of one character. */
  function LowerChar(c: char): (d: char)
    ensures 'A' <= c <= 'Z' ==> d as int == c as int + 32
    ensures !('A' <= c <= 'Z') ==> d == c
    ensures !('A' <= d <= 'Z')
  {
    if 'A' <= c <= 'Z' then (c as int + 32) as char else c
  }

  /** ASCII lower-casing of a string, character by character. */
  function Lower(s: string): (r: string)
    ensures |r| == |s|
    ensures forall i :: 0 <= i < |s| ==> r[i] == LowerChar(s[i])
  {
    if s == [] then [] else [LowerChar(s[0])] + Lower(s[1..])
  }

  /** Lower-casing distributes over concatenation. */
  lemma LowerConcat(a: string, b: string)
    ensures Lower(a + b) == Lower(a) + Lower(b)
  {
  }

  /** `s.includes(sub)`: `sub` occurs in `s` as a contiguous block. */
  function Contains(s: string, sub: string): (b: bool)
    ensures b ==> |sub| <= |s|
    decreases |s|
  {
    |sub| <= |s| && (s[..|sub|] == sub || Contains(s[1..], sub))
  }

  /** An occurrence at position `i` makes `Contains` true. */
  lemma {:induction false} ContainsAt(s: string, sub: string, i: nat)
    requires i + |sub| <= |s| && s[i..i + |sub|] == sub
    ensures Contains(s, sub)
    decreases i
  {
    if i > 0 {
      assert s[1..][i - 1..i - 1 + |sub|] == s[i..i + |sub|];
      ContainsAt(s[1..], sub, i - 1);
    }
  }

  /** `Contains` is witnessed by a position. */
  lemma {:induction false} ContainsWitness(s: string, sub: string) returns (i: nat)
    requires Contains(s, sub)
    ensures i + |sub| <= |s| && s[i..i + |sub|] == sub
    decreases |s|
  {
    if s[..|sub|] == sub {
      i := 0;
    } else {
      var j := ContainsWitness(s[1..], sub);
      assert s[1..][j..j + |sub|] == s[j + 1..j + 1 + |sub|];
      i := j + 1;
    }
  }

  /** A character of `sub` that never occurs in `s` rules out an occurrence. */
  lemma {:induction false} AbsentCharRulesOut(s: string, sub: string, c: char)
    requires c in sub && c !in s
    ensures !Contains(s, sub)
    decreases |s|
  {
    if |sub| <= |s| {
      var j :| 0 <= j < |sub| && sub[j] == c;
      assert s[..|sub|][j] == s[j] != c;
      assert c !in s[1..];
      AbsentCharRulesOut(s[1..], sub, c);
    }
  }

  /** A lower-case letter absent from `s` in both cases is absent from `Lower(s)`. */
  lemma LowerAvoids(s: string, lower: char, upper: char)
    requires 'A' <= upper <= 'Z' && lower as int == upper as int + 32
    requires lower !in s && upper !in s
    ensures lower !in Lower(s)
  {
  }

  /** An occurrence of an occurrence is an occurrence. */
  lemma ContainsTransitive(s: string, t: string, u: string)
    requires Contains(s, t) && Contains(t, u)
    ensures Contains(s, u)
  {
  }

  /** An occurrence in either half is an occurrence in the concatenation. */
  lemma ContainsInConcat(a: string, b: string, sub: string)
    requires Contains(a, sub) || Contains(b, sub)
    ensures Contains(a + b, sub)
  {
    if Contains(a, sub) {
      var i := ContainsWitness(a, sub);
      assert (a + b)[i..i + |sub|] == a[i..i + |sub|];
      ContainsAt(a + b, sub, i);
    } else {
      var i := ContainsWitness(b, sub);
      assert (a + b)[|a| + i..|a| + i + |sub|] == b[i..i + |sub|];
      ContainsAt(a + b, sub, |a| + i);
    }
  }

  /** `parts.join(sep)`. */
  function Join(parts: seq<string>, sep: string): (r: string)
    ensures |parts| == 1 ==> r == parts[0]
  {
    if |parts| == 0 then ""
    else if |parts| == 1 then parts[0]
    else parts[0] + sep + Join(parts[1..], sep)
  }

  /** `parts.map(p => p.toLowerCase())`. */
  function LowerAll(parts: seq<string>): (r: seq<string>)
    ensures |r| == |parts|
    ensures forall i :: 0 <= i < |parts| ==> r[i] == Lower(parts[i])
  {
    if parts == [] then [] else [Lower(parts[0])] + LowerAll(parts[1..])
  }

  /** Lower-casing each part and then joining equals joining and then lower-casing. */
  lemma {:induction false} JoinLowerAll(parts: seq<string>, sep: string)
    ensures Join(LowerAll(parts), Lower(sep)) == Lower(Join(parts, sep))
    decreases |parts|
  {
    if |parts| > 1 {
      JoinLowerAll(parts[1..], sep);
      assert LowerAll(parts)[1..] == LowerAll(parts[1..]);
      LowerConcat(parts[0], sep);
      LowerConcat(parts[0] + sep, Join(parts[1..], sep));
    }
  }

  /** A non-empty sequence is its prefix without the last element, followed by that element. */
  lemma ButLastThenLast<T>(s: seq<T>)
    requires |s| > 0
    ensures s[..|s| - 1] + [s[|s| - 1]] == s
  {
  }

  /** `s.slice(0, n)` for a non-negative `n`: the longest prefix of length at most `n`. */
  function Take<T>(s: seq<T>, n: nat): (r: seq<T>)
    ensures |r| <= n && |r| <= |s|
    ensures |r| == if |s| <= n then |s| else n
    ensures r == s[..|r|]
  {
    if |s| <= n then s else s[..n]
  }

  /** The decimal digit for `d`. */
  function DigitChar(d: nat): (c: char)
    requires d < 10
    ensures '0' <= c <= '9'
  {
    ('0' as int + d) as char
  }

  /** Decimal rendering of a natural number, as a template literal prints it. */
  function NatToString(n: nat): (r: string)
    ensures |r| >= 1
    ensures forall i :: 0 <= i < |r| ==> '0' <= r[i] <= '9'
    decreases n
  {
    if n < 10 then [DigitChar(n)] else NatToString(n / 10) + [DigitChar(n % 10)]
  }

  /** Decimal rendering of an integer, with a leading '-' when negative. */
  function IntToString(n: int): (r: string)
    ensures |r| >= 1
    ensures (r[0] == '-') <==> n < 0
  {
    if n < 0 then "-" + NatToString(-n) else NatToString(n)
  }
}
