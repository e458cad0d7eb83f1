/** Character and string primitives that the itinerary parser relies on:
    JavaScript's `trim` and the regex class `\s`, `startsWith`, `includes`,
    an ASCII `toLowerCase`, and the regex class `\d`. */
module Text {

  /** The characters matched by the regex class `\s` and removed by `String.prototype.trim`:
      white space (tab, vertical tab, form feed, space, no-break space, byte order mark and
      the Unicode space separators) and the line terminators. */
  predicate IsSpace(c: char) {
    var n := c as int;
    n == 0x09 || n == 0x0A || n == 0x0B || n == 0x0C || n == 0x0D || n == 0x20 ||
    n == 0xA0 || n == 0x1680 || (0x2000 <= n <= 0x200A) || n == 0x2028 || n == 0x2029 ||
    n == 0x202F || n == 0x205F || n == 0x3000 || n == 0xFEFF
  }

  /** The regex class `\d`: ASCII digits only. */
  predicate IsDigit(c: char) {
    '0' <= c <= '9'
  }

  predicate AllSpace(s: string) {
    forall i :: 0 <= i < |s| ==> IsSpace(s[i])
  }

  /** Neither the first nor the last character is white space. */
  predicate IsTrimmed(s: string) {
    s == [] || (!IsSpace(s[0]) && !IsSpace(s[|s| - 1]))
  }

  predicate StartsWith(s: string, prefix: string) {
    |prefix| <= |s| && s[..|prefix|] == prefix
  }

  predicate EndsWith(s: string, suffix: string) {
    |suffix| <= |s| && s[|s| - |suffix|..] == suffix
  }

  /** Dropping the same number of leading characters from a string and from its prefix
      leaves a prefix. */
  lemma StartsWithDrop(s: string, prefix: string, k: nat)
    requires StartsWith(s, prefix) && k <= |prefix|
    ensures StartsWith(s[k..], prefix[k..])
  {
    assert s[k..][..|prefix| - k] == s[..|prefix|][k..];
  }

  /** A prefix of a prefix is a prefix. */
  lemma StartsWithShorter(s: string, prefix: string, k: nat)
    requires StartsWith(s, prefix) && k <= |prefix|
    ensures StartsWith(s, prefix[..k])
  {
    assert s[..k] == s[..|prefix|][..k];
  }

  /** A string does not start with a prefix whose first character differs from its own. */
  lemma FirstCharMismatch(s: string, prefix: string)
    requires s != [] && prefix != [] && s[0] != prefix[0]
    ensures !StartsWith(s, prefix)
  {
  }

  /** Removes the leading white space. */
  function TrimStart(s: string): (r: string)
    ensures |r| <= |s|
    ensures r == [] || !IsSpace(r[0])
  {
    if s != [] && IsSpace(s[0]) then TrimStart(s[1..]) else s
  }

  /** What `TrimStart` keeps is a suffix of its input, and what it drops is white space. */
  lemma {:induction false} TrimStartDropsSpace(s: string)
    ensures var r := TrimStart(s);
            r == s[|s| - |r|..] && AllSpace(s[..|s| - |r|])
  {
    if s != [] && IsSpace(s[0]) {
      TrimStartDropsSpace(s[1..]);
      var r := TrimStart(s);
      assert s[1..][|s| - 1 - |r|..] == s[|s| - |r|..];
      assert forall i :: 1 <= i < |s| - |r| ==> s[i] == s[1..][..|s| - 1 - |r|][i - 1];
    }
  }

  /** A single space in front of text that does not start with white space is all that
      TrimStart removes. */
  lemma TrimStartOneSpace(s: string)
    requires s != [] && IsSpace(s[0]) && (|s| == 1 || !IsSpace(s[1]))
    ensures TrimStart(s) == s[1..]
  {
    assert TrimStart(s) == TrimStart(s[1..]);
  }

  /** TrimStart removes a run of white space and stops at the first other character. */
  lemma {:induction false} TrimStartSpaces(w: string, x: string)
    requires AllSpace(w) && (x == [] || !IsSpace(x[0]))
    ensures TrimStart(w + x) == x
    decreases |w|
  {
    if w == [] {
      assert w + x == x;
    } else {
      assert (w + x)[0] == w[0] && (w + x)[1..] == w[1..] + x;
      TrimStartSpaces(w[1..], x);
    }
  }

  /** Removes the trailing white space. */
  function TrimEnd(s: string): (r: string)
    ensures |r| <= |s|
    ensures r == [] || !IsSpace(r[|r| - 1])
  {
    if s != [] && IsSpace(s[|s| - 1]) then TrimEnd(s[..|s| - 1]) else s
  }

  /** What `TrimEnd` keeps is a prefix of its input, and what it drops is white space. */
  lemma {:induction false} TrimEndDropsSpace(s: string)
    ensures var r := TrimEnd(s);
            r == s[..|r|] && AllSpace(s[|r|..])
  {
    if s != [] && IsSpace(s[|s| - 1]) {
      var p := s[..|s| - 1];
      TrimEndDropsSpace(p);
      var r := TrimEnd(s);
      assert p[..|r|] == s[..|r|];
      assert forall i :: |r| <= i < |s| - 1 ==> s[i] == p[|r|..][i - |r|];
    }
  }

  /** `String.prototype.trim`: white space removed from both ends. */
  function Trim(s: string): (r: string)
    ensures IsTrimmed(r) && |r| <= |s|
  {
    var a := TrimStart(s);
    TrimEndDropsSpace(a);
    TrimEnd(a)
  }

  /** What `Trim` keeps is a substring of its input with only white space on either side. */
  lemma TrimKeepsMiddle(s: string)
    ensures var r := Trim(s);
            exists k :: 0 <= k <= |s| - |r| && s[k..k + |r|] == r && AllSpace(s[..k]) && AllSpace(s[k + |r|..])
  {
    var a := TrimStart(s);
    var r := TrimEnd(a);
    var k := |s| - |a|;
    TrimStartDropsSpace(s);
    TrimEndDropsSpace(a);
    assert s[k..k + |r|] == r;
    assert s[k + |r|..] == a[|r|..];
  }

  lemma TrimOfTrimmed(s: string)
    requires IsTrimmed(s)
    ensures TrimStart(s) == s && TrimEnd(s) == s && Trim(s) == s
  {
  }

  /** Stripping leading white space leaves nothing exactly when there was nothing else. */
  lemma {:induction false} TrimStartEmptyIffAllSpace(s: string)
    ensures TrimStart(s) == [] <==> AllSpace(s)
  {
    if s != [] && IsSpace(s[0]) {
      TrimStartEmptyIffAllSpace(s[1..]);
      assert AllSpace(s) <==> AllSpace(s[1..]) by {
        assert forall i :: 0 < i < |s| ==> s[i] == s[1..][i - 1];
      }
    }
  }

  /** A trimmed string is empty exactly when the input held nothing but white space. */
  lemma TrimEmptyIffAllSpace(s: string)
    ensures Trim(s) == [] <==> AllSpace(s)
  {
    TrimStartEmptyIffAllSpace(s);
    var a := TrimStart(s);
    TrimEndDropsSpace(a);
    assert TrimEnd(a) == [] ==> a == [] by {
      assert a == [] || !IsSpace(a[0]);
      assert a[|TrimEnd(a)|..] == a[|TrimEnd(a)|..];
    }
  }

  /** Trimming twice is trimming once. */
  lemma TrimIdempotent(s: string)
    ensures Trim(Trim(s)) == Trim(s)
  {
    TrimOfTrimmed(Trim(s));
  }

  /** `String.prototype.includes`, by scanning from the left. */
  predicate Contains(s: string, sub: string)
    decreases |s|
  {
    StartsWith(s, sub) || (s != [] && Contains(s[1..], sub))
  }

  /** `sub` occurs in `s` starting at position `i`. */
  predicate OccursAt(s: string, sub: string, i: int) {
    0 <= i <= |s| - |sub| && s[i..i + |sub|] == sub
  }

  /** The scan finds `sub` exactly when it occurs at some position of `s`. */
  lemma {:induction false} ContainsIffOccurs(s: string, sub: string)
    ensures Contains(s, sub) <==> exists i :: OccursAt(s, sub, i)
    decreases |s|
  {
    if StartsWith(s, sub) {
      assert OccursAt(s, sub, 0);
    } else if s != [] {
      ContainsIffOccurs(s[1..], sub);
      if Contains(s[1..], sub) {
        var i :| OccursAt(s[1..], sub, i);
        assert s[i + 1..i + 1 + |sub|] == s[1..][i..i + |sub|];
        assert OccursAt(s, sub, i + 1);
      }
      if exists i :: OccursAt(s, sub, i) {
        var i :| OccursAt(s, sub, i);
        assert i != 0;
        assert s[1..][i - 1..i - 1 + |sub|] == s[i..i + |sub|];
        assert OccursAt(s[1..], sub, i - 1);
      }
    }
  }

  /** An occurrence is found by the scan. */
  lemma OccursThenContains(s: string, sub: string, i: int)
    requires OccursAt(s, sub, i)
    ensures Contains(s, sub)
  {
    ContainsIffOccurs(s, sub);
  }

  /** The character `c` does not occur in `s`. */
  predicate Lacks(s: string, c: char) {
    forall j :: 0 <= j < |s| ==> s[j] != c
  }

  /** The character `b` never directly follows the character `a` in `s`. */
  predicate LacksPair(s: string, a: char, b: char) {
    forall j :: 0 <= j < |s| - 1 ==> !(s[j] == a && s[j + 1] == b)
  }

  lemma LacksAppend(a: string, b: string, c: char)
    requires Lacks(a, c) && Lacks(b, c)
    ensures Lacks(a + b, c)
  {
    assert forall j :: |a| <= j < |a + b| ==> (a + b)[j] == b[j - |a|];
  }

  /** Two strings without the pair, joined where the pair does not form either, lack it. */
  lemma LacksPairAppend(x: string, y: string, a: char, b: char)
    requires LacksPair(x, a, b) && LacksPair(y, a, b)
    requires x == [] || y == [] || !(x[|x| - 1] == a && y[0] == b)
    ensures LacksPair(x + y, a, b)
  {
    var s := x + y;
    forall j | 0 <= j < |s| - 1
      ensures !(s[j] == a && s[j + 1] == b)
    {
      if j + 1 < |x| {
        assert s[j] == x[j] && s[j + 1] == x[j + 1];
      } else if j >= |x| {
        assert s[j] == y[j - |x|] && s[j + 1] == y[j - |x| + 1];
      }
    }
  }

  /** A string that lacks one of the characters of `sub` does not contain `sub`. */
  lemma MissingCharNotContained(s: string, sub: string, k: int)
    requires 0 <= k < |sub| && Lacks(s, sub[k])
    ensures !Contains(s, sub)
  {
    ContainsIffOccurs(s, sub);
  }

  /** A string in which two adjacent characters of `sub` never stand side by side does not
      contain `sub`. */
  lemma MissingPairNotContained(s: string, sub: string, k: int)
    requires 0 <= k < |sub| - 1 && LacksPair(s, sub[k], sub[k + 1])
    ensures !Contains(s, sub)
  {
    ContainsIffOccurs(s, sub);
  }

  /** `toLowerCase` on one character, for the characters it maps to a single ASCII letter:
      `A`-`Z`, and the Kelvin sign U+212A, which becomes `k`. */
  function LowerChar(c: char): (d: char)
    ensures 'A' <= c <= 'Z' ==> d as int == c as int + 32
    ensures c == '\U{212A}' ==> d == 'k'
    ensures !('A' <= c <= 'Z') && c != '\U{212A}' ==> d == c
  {
    if 'A' <= c <= 'Z' then (c as int + 32) as char
    else if c == '\U{212A}' then 'k'
    else c
  }

  /** `String.prototype.toLowerCase`, for the characters `LowerChar` covers. */
  function ToLower(s: string): (r: string)
    ensures |r| == |s|
    ensures forall i :: 0 <= i < |s| ==> r[i] == LowerChar(s[i])
  {
    if s == [] then [] else [LowerChar(s[0])] + ToLower(s[1..])
  }

  /** A string that agrees with `s` lower-cased character by character is `ToLower(s)`. */
  lemma ToLowerByChars(s: string, r: string)
    requires |s| == |r| && forall i :: 0 <= i < |s| ==> r[i] == LowerChar(s[i])
    ensures ToLower(s) == r
  {
  }

  /** Lower-casing works piece by piece. */
  lemma ToLowerAppend(a: string, b: string)
    ensures ToLower(a + b) == ToLower(a) + ToLower(b)
  {
    ToLowerByChars(a + b, ToLower(a) + ToLower(b));
  }

  /** Lower-casing twice is lower-casing once. */
  lemma ToLowerIdempotent(s: string)
    ensures ToLower(ToLower(s)) == ToLower(s)
  {
    assert forall i :: 0 <= i < |s| ==> LowerChar(LowerChar(s[i])) == LowerChar(s[i]);
  }

  /** The length of the longest prefix of `s` made of digits (what a greedy `\d*` consumes). */
  function DigitRun(s: string): (n: nat)
    ensures n <= |s|
    ensures forall i :: 0 <= i < n ==> IsDigit(s[i])
    ensures n == |s| || !IsDigit(s[n])
  {
    if s != [] && IsDigit(s[0]) then 1 + DigitRun(s[1..]) else 0
  }
}
