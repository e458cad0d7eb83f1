/** The section titles of the prompt layout with the icon each one gets, and titles written
    with an ordinal or bold markers as they are displayed. Each icon proof lower-cases the
    title, finds its keyword, and shows that no keyword of a group with higher priority
    occurs: such a keyword is missing one of its letters from the title, or two of its
    adjacent letters never stand side by side there. The `Lower...` lemmas lower-case a title
    literal passed in as a parameter, one piece at a time: the same facts about a literal
    written inline cost the solver far more. */
module PresentationScenarios {
  import opened Text
  import opened Itinerary
  import opened Presentation

  lemma LowerMustVisit(a: string)
    requires a == "Must-Visit Attractions"
    ensures ToLower(a) == "must-visit attractions"
  {
    ToLowerByChars(a, "must-visit attractions");
  }

  lemma LowerLandmarks(b: string)
    requires b == " and Landmarks"
    ensures ToLower(b) == " and landmarks"
  {
    ToLowerByChars(b, " and landmarks");
  }

  lemma LowerAttractions(t: string, a: string, b: string)
    requires a == "Must-Visit Attractions" && b == " and Landmarks" && t == a + b
    ensures ToLower(t) == "must-visit attractions" + " and landmarks"
  {
    LowerMustVisit(a);
    LowerLandmarks(b);
    ToLowerAppend(a, b);
  }

  lemma AttractionsAt(l: string)
    requires l == "must-visit attractions" + " and landmarks"
    ensures OccursAt(l, "attractions", 11)
  {
    var a := "must-visit attractions";
    assert l[..22] == a;
    assert forall i :: 0 <= i < 11 ==> a[11 + i] == "attractions"[i];
    assert l[11..22] == a[11..22] == "attractions";
  }

  /** The first section of each day gets the ticket icon. */
  lemma IconOfAttractions(t: string)
    requires t == "Must-Visit Attractions" + " and Landmarks"
    ensures SectionIcon(t) == Some(Ticket)
  {
    LowerAttractions(t, "Must-Visit Attractions", " and Landmarks");
    AttractionsAt(ToLower(t));
    AttractionsWin(t, 11);
  }

  lemma LowerFood(t: string)
    requires t == "Local Food and Restaurants"
    ensures ToLower(t) == "local food and restaurants"
  {
    ToLowerByChars(t, "local food and restaurants");
  }

  lemma FoodFound(l: string)
    requires l == "local food and restaurants"
    ensures Contains(l, "food")
  {
    assert forall i :: 0 <= i < 4 ==> l[6 + i] == "food"[i];
    assert l[6..10] == "food";
    OccursThenContains(l, "food", 6);
  }

  lemma FoodLetters(l: string)
    requires l == "local food and restaurants"
    ensures Lacks(l, 'i') && Lacks(l, 'm')
  {
    assert forall j :: 0 <= j < 9 ==> l[j] != 'i' && l[j] != 'm';
    assert forall j :: 9 <= j < 18 ==> l[j] != 'i' && l[j] != 'm';
    assert forall j :: 18 <= j < |l| ==> l[j] != 'i' && l[j] != 'm';
  }

  /** Without `i` and `m` there is no `attractions` and no `landmarks`. */
  lemma NoTicketWord(l: string)
    requires Lacks(l, 'i') && Lacks(l, 'm')
    ensures !Contains(l, "attractions") && !Contains(l, "landmarks")
  {
    MissingCharNotContained(l, "attractions", 7);
    MissingCharNotContained(l, "landmarks", 4);
  }

  /** The food section gets the cake icon. */
  lemma IconOfFood(t: string)
    requires t == "Local Food and Restaurants"
    ensures SectionIcon(t) == Some(Cake)
  {
    LowerFood(t);
    FoodFound(ToLower(t));
    FoodLetters(ToLower(t));
    NoTicketWord(ToLower(t));
  }

  lemma LowerCultural(a: string)
    requires a == "Cultural Experiences"
    ensures ToLower(a) == "cultural experiences"
  {
    ToLowerByChars(a, "cultural experiences");
  }

  lemma LowerActivities(b: string)
    requires b == " and Activities"
    ensures ToLower(b) == " and activities"
  {
    ToLowerByChars(b, " and activities");
  }

  lemma CultureFound(x: string, y: string)
    requires x == "cultural experiences"
    ensures Contains(x + y, "cultural")
  {
    assert (x + y)[..8] == x[..8] == "cultural";
    assert StartsWith(x + y, "cultural");
  }

  lemma CultureLetters(x: string, y: string)
    requires x == "cultural experiences" && y == " and activities"
    ensures Lacks(x + y, 'k') && Lacks(x + y, 'f')
  {
    assert forall j :: 0 <= j < 10 ==> x[j] != 'k' && x[j] != 'f';
    assert forall j :: 10 <= j < |x| ==> x[j] != 'k' && x[j] != 'f';
    assert forall j :: 0 <= j < |y| ==> y[j] != 'k' && y[j] != 'f';
    LacksAppend(x, y, 'k');
    LacksAppend(x, y, 'f');
  }

  /** The characters `a` and `b` stand side by side at position `j` of `s`. */
  predicate PairAt(s: string, j: int, a: char, b: char)
    requires 0 <= j < |s| - 1
  {
    s[j] == a && s[j + 1] == b
  }

  lemma CulturePairs(x: string, y: string)
    requires x == "cultural experiences" && y == " and activities"
    ensures LacksPair(x + y, 'a', 't') && LacksPair(x + y, 'r', 'e')
  {
    assert forall j :: 0 <= j < 10 ==> !PairAt(x, j, 'a', 't') && !PairAt(x, j, 'r', 'e');
    assert forall j :: 10 <= j < |x| - 1 ==> !PairAt(x, j, 'a', 't') && !PairAt(x, j, 'r', 'e');
    assert forall j :: 0 <= j < |y| - 1 ==> !PairAt(y, j, 'a', 't') && !PairAt(y, j, 'r', 'e');
    LacksPairAppend(x, y, 'a', 't');
    LacksPairAppend(x, y, 'r', 'e');
  }

  lemma CultureOutranks(l: string)
    requires Lacks(l, 'k') && Lacks(l, 'f') && LacksPair(l, 'a', 't') && LacksPair(l, 'r', 'e')
    ensures !Contains(l, "attractions") && !Contains(l, "landmarks")
    ensures !Contains(l, "food") && !Contains(l, "restaurants")
  {
    MissingPairNotContained(l, "attractions", 0);
    MissingCharNotContained(l, "landmarks", 7);
    MissingCharNotContained(l, "food", 0);
    MissingPairNotContained(l, "restaurants", 0);
  }

  lemma IconOfCultureParts(t: string, a: string, b: string)
    requires a == "Cultural Experiences" && b == " and Activities" && t == a + b
    ensures SectionIcon(t) == Some(UserGroup)
  {
    LowerCultural(a);
    LowerActivities(b);
    ToLowerAppend(a, b);
    var x, y := ToLower(a), ToLower(b);
    CultureFound(x, y);
    CultureLetters(x, y);
    CulturePairs(x, y);
    CultureOutranks(x + y);
  }

  /** The cultural section gets the people icon, although its title holds every letter of
      `restaurants`. */
  lemma IconOfCulture(t: string)
    requires t == "Cultural Experiences" + " and Activities"
    ensures SectionIcon(t) == Some(UserGroup)
  {
    IconOfCultureParts(t, "Cultural Experiences", " and Activities");
  }

  lemma LowerAreas(t: string)
    requires t == "Best Areas to Stay"
    ensures ToLower(t) == "best areas to stay"
  {
    ToLowerByChars(t, "best areas to stay");
  }

  lemma AreasFound(l: string)
    requires l == "best areas to stay"
    ensures Contains(l, "areas")
  {
    assert forall i :: 0 <= i < 5 ==> l[5 + i] == "areas"[i];
    assert l[5..10] == "areas";
    OccursThenContains(l, "areas", 5);
  }

  lemma AreasLetters(l: string)
    requires l == "best areas to stay"
    ensures Lacks(l, 'c') && Lacks(l, 'l') && Lacks(l, 'f') && Lacks(l, 'u')
  {
    assert forall j :: 0 <= j < 9 ==> l[j] != 'c' && l[j] != 'l' && l[j] != 'f' && l[j] != 'u';
    assert forall j :: 9 <= j < |l| ==> l[j] != 'c' && l[j] != 'l' && l[j] != 'f' && l[j] != 'u';
  }

  lemma AreasOutranked(l: string)
    requires Lacks(l, 'c') && Lacks(l, 'l') && Lacks(l, 'f') && Lacks(l, 'u')
    ensures !Contains(l, "attractions") && !Contains(l, "landmarks")
    ensures !Contains(l, "food") && !Contains(l, "restaurants")
    ensures !Contains(l, "cultural") && !Contains(l, "activities")
  {
    MissingCharNotContained(l, "attractions", 5);
    MissingCharNotContained(l, "landmarks", 0);
    MissingCharNotContained(l, "food", 0);
    MissingCharNotContained(l, "restaurants", 5);
    MissingCharNotContained(l, "cultural", 0);
    MissingCharNotContained(l, "activities", 1);
  }

  /** The accommodation section gets the building icon. */
  lemma IconOfAreas(t: string)
    requires t == "Best Areas to Stay"
    ensures SectionIcon(t) == Some(BuildingOffice)
  {
    LowerAreas(t);
    AreasFound(ToLower(t));
    AreasLetters(ToLower(t));
    AreasOutranked(ToLower(t));
  }

  lemma LowerTransport(t: string)
    requires t == "Transportation Tips"
    ensures ToLower(t) == "transportation tips"
  {
    ToLowerByChars(t, "transportation tips");
  }

  lemma TransportFound(l: string)
    requires l == "transportation tips"
    ensures Contains(l, "transportation")
  {
    assert l[..14] == "transportation";
    assert StartsWith(l, "transportation");
  }

  lemma TransportLetters(l: string)
    requires l == "transportation tips"
    ensures Lacks(l, 'c') && Lacks(l, 'l') && Lacks(l, 'f') && Lacks(l, 'e') && Lacks(l, 'y')
  {
    assert forall j :: 0 <= j < 10 ==> l[j] != 'c' && l[j] != 'l' && l[j] != 'f' && l[j] != 'e' && l[j] != 'y';
    assert forall j :: 10 <= j < |l| ==> l[j] != 'c' && l[j] != 'l' && l[j] != 'f' && l[j] != 'e' && l[j] != 'y';
  }

  lemma TransportOutranked(l: string)
    requires Lacks(l, 'c') && Lacks(l, 'l') && Lacks(l, 'f') && Lacks(l, 'e') && Lacks(l, 'y')
    ensures !Contains(l, "attractions") && !Contains(l, "landmarks")
    ensures !Contains(l, "food") && !Contains(l, "restaurants")
    ensures !Contains(l, "cultural") && !Contains(l, "activities")
    ensures !Contains(l, "areas") && !Contains(l, "stay")
  {
    MissingCharNotContained(l, "attractions", 5);
    MissingCharNotContained(l, "landmarks", 0);
    MissingCharNotContained(l, "food", 0);
    MissingCharNotContained(l, "restaurants", 1);
    MissingCharNotContained(l, "cultural", 0);
    MissingCharNotContained(l, "activities", 1);
    MissingCharNotContained(l, "areas", 2);
    MissingCharNotContained(l, "stay", 3);
  }

  /** The transport section gets the truck icon. */
  lemma IconOfTransport(t: string)
    requires t == "Transportation Tips"
    ensures SectionIcon(t) == Some(Truck)
  {
    LowerTransport(t);
    TransportFound(ToLower(t));
    TransportLetters(ToLower(t));
    TransportOutranked(ToLower(t));
  }

  lemma MorningUnnumbered(t: string)
    requires t == "Morning:** Visit museum"
    ensures StripOrdinal(t) == t
  {
    assert !IsDigit(t[0]);
    StripOrdinalOfUnnumbered(t);
  }

  lemma MorningPieces(t: string, a: string, c: string)
    requires t == "Morning:** Visit museum" && a == t[..8] && c == t[10..]
    ensures t == a + "**" + c && a + c == "Morning: Visit museum"
    ensures a != [] && a[|a| - 1] != '*' && NoDoubleStar(a) && NoDoubleStar(c)
  {
    assert a == "Morning:" && c == " Visit museum";
  }

  /** A time-of-day title whose closing bold marker follows the colon is displayed with the
      marker removed and nothing else changed. */
  lemma DisplayOfTimeOfDay(t: string)
    requires t == "Morning:** Visit museum"
    ensures DisplayTitle(t) == "Morning: Visit museum"
  {
    MorningUnnumbered(t);
    var a, c := t[..8], t[10..];
    MorningPieces(t, a, c);
    RemoveBoldOfInner(a, c);
  }

  /** The Kelvin sign lower-cases to `k`, so a title spelled with it in place of `K` still
      names the landmarks. */
  lemma IconOfKelvinLandmarks(t: string, l: string)
    requires t == "LANDMAR\U{212A}S" && l == "landmarks"
    ensures SectionIcon(t) == Some(Ticket)
  {
    assert forall i :: 0 <= i < |t| ==> l[i] == LowerChar(t[i]);
    ToLowerByChars(t, l);
    assert OccursAt(ToLower(t), "landmarks", 0) by { assert ToLower(t)[0..9] == l; }
    AttractionsWin(t, 0);
  }
}
