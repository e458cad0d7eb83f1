/** How a parsed section is shown: the icon picked from keywords in its title, and the
    title as displayed, with a leading ordinal and every `**` bold marker removed. */
module Presentation {
  import opened Text
  import opened Itinerary

  /** The five section icons, each shown in its own colour (ticket blue, cake orange,
      people purple, building green, truck red). */
  datatype Icon = Ticket | Cake | UserGroup | BuildingOffice | Truck

  /** The title, lower-cased, contains `word` at some position. */
  ghost predicate Mentions(title: string, word: string) {
    exists i :: OccursAt(ToLower(title), word, i)
  }

  /** The icon for a section title: the first keyword group, in a fixed priority order, with
      a keyword in the lower-cased title decides; a title with none has no icon. */
  function SectionIcon(title: string): (r: Option<Icon>)
    ensures r.None? ==> !Contains(ToLower(title), "transportation")
  {
    var lower := ToLower(title);
    if Contains(lower, "attractions") || Contains(lower, "landmarks") then Some(Ticket)
    else if Contains(lower, "food") || Contains(lower, "restaurants") then Some(Cake)
    else if Contains(lower, "cultural") || Contains(lower, "activities") then Some(UserGroup)
    else if Contains(lower, "areas") || Contains(lower, "stay") then Some(BuildingOffice)
    else if Contains(lower, "transportation") then Some(Truck)
    else None
  }

  /** The icon as a decision on where the keywords occur, group by group in priority order. */
  lemma SectionIconByKeywords(title: string)
    ensures SectionIcon(title) ==
      if Mentions(title, "attractions") || Mentions(title, "landmarks") then Some(Ticket)
      else if Mentions(title, "food") || Mentions(title, "restaurants") then Some(Cake)
      else if Mentions(title, "cultural") || Mentions(title, "activities") then Some(UserGroup)
      else if Mentions(title, "areas") || Mentions(title, "stay") then Some(BuildingOffice)
      else if Mentions(title, "transportation") then Some(Truck)
      else None
  {
    var lower := ToLower(title);
    ContainsIffOccurs(lower, "attractions");
    ContainsIffOccurs(lower, "landmarks");
    ContainsIffOccurs(lower, "food");
    ContainsIffOccurs(lower, "restaurants");
    ContainsIffOccurs(lower, "cultural");
    ContainsIffOccurs(lower, "activities");
    ContainsIffOccurs(lower, "areas");
    ContainsIffOccurs(lower, "stay");
    ContainsIffOccurs(lower, "transportation");
  }

  /** The icon does not depend on the case of the title's letters. */
  lemma SectionIconIgnoresCase(title: string)
    ensures SectionIcon(ToLower(title)) == SectionIcon(title)
  {
    ToLowerIdempotent(title);
  }

  /** `attractions` or `landmarks` anywhere wins over every other keyword. */
  lemma AttractionsWin(title: string, i: int)
    requires OccursAt(ToLower(title), "attractions", i) || OccursAt(ToLower(title), "landmarks", i)
    ensures SectionIcon(title) == Some(Ticket)
  {
    SectionIconByKeywords(title);
  }

  /** A title with none of the nine keywords has no icon. */
  lemma NoKeywordNoIcon(title: string)
    requires forall i :: !OccursAt(ToLower(title), "attractions", i) && !OccursAt(ToLower(title), "landmarks", i) &&
                         !OccursAt(ToLower(title), "food", i) && !OccursAt(ToLower(title), "restaurants", i) &&
                         !OccursAt(ToLower(title), "cultural", i) && !OccursAt(ToLower(title), "activities", i) &&
                         !OccursAt(ToLower(title), "areas", i) && !OccursAt(ToLower(title), "stay", i) &&
                         !OccursAt(ToLower(title), "transportation", i)
    ensures SectionIcon(title).None?
  {
    SectionIconByKeywords(title);
  }

  /** `t` starts with `/\d+\./`: `k` digits, then a full stop at position `k`. */
  predicate OrdinalAt(t: string, k: int) {
    1 <= k < |t| && (forall i :: 0 <= i < k ==> IsDigit(t[i])) && t[k] == '.'
  }

  /** The pattern `^\d+\.\s*` replaced by nothing: a leading number, its full stop and the
      white space after it are removed; a title without one is kept. */
  function StripOrdinal(t: string): (r: string)
    ensures |r| <= |t|
  {
    var n := DigitRun(t);
    if 1 <= n < |t| && t[n] == '.' then TrimStart(t[n + 1..]) else t
  }

  /** Wherever the ordinal's full stop is, the text after it, without its leading white
      space, is what remains; the greedy digit run finds the only possible match. */
  lemma StripOrdinalOfNumbered(t: string, k: int)
    requires OrdinalAt(t, k)
    ensures StripOrdinal(t) == TrimStart(t[k + 1..])
  {
    assert DigitRun(t) == k;
  }

  /** A title that does not start with a number and a full stop is shown unchanged. */
  lemma StripOrdinalOfUnnumbered(t: string)
    requires forall k :: !OrdinalAt(t, k)
    ensures StripOrdinal(t) == t
  {
    var n := DigitRun(t);
    if 1 <= n < |t| && t[n] == '.' {
      assert OrdinalAt(t, n);
    }
  }

  /** No two adjacent `*` characters. */
  predicate NoDoubleStar(s: string) {
    forall i :: 0 <= i < |s| - 1 ==> !(s[i] == '*' && s[i + 1] == '*')
  }

  /** The characters other than `*`, in order. */
  function NonStars(s: string): seq<char> {
    if s == [] then [] else (if s[0] == '*' then [] else [s[0]]) + NonStars(s[1..])
  }

  /** The regex `/\*\*` with the global flag, replaced by nothing: scanning left to right,
      each `**` pair is removed and every other character kept. */
  function RemoveBold(s: string): (r: string)
    ensures |r| <= |s|
    ensures NoDoubleStar(r)
    ensures s != [] && s[0] != '*' ==> r != [] && r[0] == s[0]
    ensures |s| == 1 ==> r == s
  {
    if |s| >= 2 && s[0] == '*' && s[1] == '*' then RemoveBold(s[2..])
    else if s == [] then []
    else [s[0]] + RemoveBold(s[1..])
  }

  /** Only `*` characters are removed. */
  lemma {:induction false} RemoveBoldKeepsText(s: string)
    ensures NonStars(RemoveBold(s)) == NonStars(s)
  {
    if |s| >= 2 && s[0] == '*' && s[1] == '*' {
      RemoveBoldKeepsText(s[2..]);
      assert NonStars(s) == NonStars(s[1..]);
      assert s[1..][1..] == s[2..];
    } else if s != [] {
      RemoveBoldKeepsText(s[1..]);
      var r := RemoveBold(s);
      assert r[1..] == RemoveBold(s[1..]);
    }
  }

  /** A title with no `**` is shown as it is; one with a `**` is changed. */
  lemma {:induction false} RemoveBoldIdentityIff(s: string)
    ensures RemoveBold(s) == s <==> NoDoubleStar(s)
  {
    if |s| >= 2 && s[0] == '*' && s[1] == '*' {
      assert !NoDoubleStar(s);
    } else if s != [] {
      RemoveBoldIdentityIff(s[1..]);
      var r := RemoveBold(s);
      assert r[1..] == RemoveBold(s[1..]);
      assert NoDoubleStar(s) <==> NoDoubleStar(s[1..]) by {
        if NoDoubleStar(s[1..]) && |s| >= 2 {
          assert !(s[0] == '*' && s[1] == '*');
          assert forall i :: 1 <= i < |s| - 1 ==> s[i] == s[1..][i - 1] && s[i + 1] == s[1..][i];
        }
      }
      assert r == s <==> r[1..] == s[1..];
    }
  }

  /** One step of `RemoveBoldConcat`: a leading `**` pair of `a` is dropped on both sides. */
  lemma RemoveBoldConcatPair(a: string, b: string)
    requires |a| >= 2 && a[0] == '*' && a[1] == '*'
    requires RemoveBold(a[2..] + b) == RemoveBold(a[2..]) + RemoveBold(b)
    ensures RemoveBold(a + b) == RemoveBold(a) + RemoveBold(b)
  {
    var ab := a + b;
    assert ab[0] == '*' && ab[1] == '*' && ab[2..] == a[2..] + b;
    assert RemoveBold(ab) == RemoveBold(ab[2..]);
    assert RemoveBold(a) == RemoveBold(a[2..]);
  }

  /** Associativity of `+` behind one leading character, stated apart so that the proof of
      `RemoveBoldConcatOther` stays cheap. */
  lemma ConsAppend(c: char, x: string, y: string)
    ensures [c] + (x + y) == ([c] + x) + y
  {
  }

  /** One step of `RemoveBoldConcat`: a leading character of `a` that does not open a pair,
      even with the first character of `b`, is kept on both sides. */
  lemma RemoveBoldConcatOther(a: string, b: string)
    requires a != [] && !(|a| >= 2 && a[0] == '*' && a[1] == '*') && (|a| >= 2 || a[0] != '*')
    requires RemoveBold(a[1..] + b) == RemoveBold(a[1..]) + RemoveBold(b)
    ensures RemoveBold(a + b) == RemoveBold(a) + RemoveBold(b)
  {
    var ab := a + b;
    assert ab[0] == a[0] && ab[1..] == a[1..] + b;
    assert !(|ab| >= 2 && ab[0] == '*' && ab[1] == '*') by {
      if |a| >= 2 { assert ab[1] == a[1]; }
    }
    assert RemoveBold(ab) == [a[0]] + RemoveBold(ab[1..]);
    assert RemoveBold(a) == [a[0]] + RemoveBold(a[1..]);
    ConsAppend(a[0], RemoveBold(a[1..]), RemoveBold(b));
  }

  /** A split after a character other than `*` cannot cut a `**` pair, so the two sides
      lose their markers separately. */
  lemma {:induction false} RemoveBoldConcat(a: string, b: string)
    requires a == [] || a[|a| - 1] != '*'
    ensures RemoveBold(a + b) == RemoveBold(a) + RemoveBold(b)
  {
    if a == [] {
      assert a + b == b;
    } else if |a| >= 2 && a[0] == '*' && a[1] == '*' {
      RemoveBoldConcat(a[2..], b);
      RemoveBoldConcatPair(a, b);
    } else {
      RemoveBoldConcat(a[1..], b);
      RemoveBoldConcatOther(a, b);
    }
  }

  /** A title wrapped in a pair of bold markers, with none inside, is shown without them. */
  lemma RemoveBoldOfWrapped(x: string)
    requires x != [] && x[|x| - 1] != '*' && NoDoubleStar(x)
    ensures RemoveBold("**" + x + "**") == x
  {
    var a := "**" + x;
    assert a[2..] == x && a[|a| - 1] == x[|x| - 1];
    RemoveBoldConcat(a, "**");
    RemoveBoldIdentityIff(x);
    assert RemoveBold("**") == RemoveBold("");
  }

  /** A single bold marker between two pieces of plain text is removed and the pieces kept. */
  lemma RemoveBoldOfInner(a: string, c: string)
    requires a != [] && a[|a| - 1] != '*' && NoDoubleStar(a) && NoDoubleStar(c)
    ensures RemoveBold(a + "**" + c) == a + c
  {
    var b := "**" + c;
    assert a + "**" + c == a + b;
    RemoveBoldConcat(a, b);
    RemoveBoldIdentityIff(a);
    RemoveBoldIdentityIff(c);
    assert b[0] == '*' && b[1] == '*' && b[2..] == c;
    assert RemoveBold(b) == RemoveBold(c) == c;
    assert RemoveBold(a) == a;
  }

  /** Removing the bold markers twice is removing them once. */
  lemma RemoveBoldIdempotent(s: string)
    ensures RemoveBold(RemoveBold(s)) == RemoveBold(s)
  {
    RemoveBoldIdentityIff(RemoveBold(s));
  }

  /** The title as displayed: the leading ordinal removed, then the bold markers. */
  function DisplayTitle(title: string): (r: string)
    ensures NoDoubleStar(r) && |r| <= |title|
  {
    RemoveBold(StripOrdinal(title))
  }

  /** The displayed title keeps every character other than `*` of the title after its
      ordinal, and no other. */
  lemma DisplayTitleKeepsText(title: string)
    ensures NonStars(DisplayTitle(title)) == NonStars(StripOrdinal(title))
  {
    RemoveBoldKeepsText(StripOrdinal(title));
  }

  /** A plain title, with no ordinal and no `**`, is displayed unchanged. */
  lemma DisplayTitleOfPlain(title: string)
    requires (forall k :: !OrdinalAt(title, k)) && NoDoubleStar(title)
    ensures DisplayTitle(title) == title
  {
    StripOrdinalOfUnnumbered(title);
    RemoveBoldIdentityIff(title);
  }

  /** The ordinal and the one space after it are stripped from `<n>. **<x>**`. */
  lemma StripOrdinalOfNumberedBold(n: string, x: string)
    requires n != [] && forall i :: 0 <= i < |n| ==> IsDigit(n[i])
    ensures StripOrdinal(n + ". **" + x + "**") == "**" + x + "**"
  {
    var w := "**" + x + "**";
    var t := n + ". **" + x + "**";
    assert t == n + ". " + w;
    assert OrdinalAt(t, |n|) by {
      assert forall i :: 0 <= i < |n| ==> t[i] == n[i];
    }
    StripOrdinalOfNumbered(t, |n|);
    var u := t[|n| + 1..];
    assert u == " " + w;
    TrimStartOneSpace(u);
  }

  /** A numbered title in bold, `<n>. **<x>**`, is displayed as the bare `<x>`. */
  lemma DisplayTitleOfNumberedBold(n: string, x: string)
    requires n != [] && forall i :: 0 <= i < |n| ==> IsDigit(n[i])
    requires x != [] && x[|x| - 1] != '*' && NoDoubleStar(x)
    ensures DisplayTitle(n + ". **" + x + "**") == x
  {
    StripOrdinalOfNumberedBold(n, x);
    RemoveBoldOfWrapped(x);
  }
}
