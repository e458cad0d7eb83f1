/** What the itinerary parser guarantees, and what it does not: blank lines, the effect of
    each kind of line, the list of days it produces, where items end up, and which items the
    final flush loses. Most facts are stated on lines already read by `Lines.Read`; the facts
    about raw input follow through `ReadAll`. */
module ItineraryFacts {
  import opened Text
  import opened Lines
  import opened Itinerary

  /** The titles of the days, in order. */
  function Titles(days: seq<Day>): (r: seq<string>)
    ensures |r| == |days|
    ensures forall i :: 0 <= i < |days| ==> r[i] == days[i].title
  {
    if days == [] then [] else Titles(days[..|days| - 1]) + [days[|days| - 1].title]
  }

  /** All the items of some sections, in document order. */
  function SectionItems(sections: seq<Section>): seq<string> {
    if sections == [] then [] else SectionItems(sections[..|sections| - 1]) + sections[|sections| - 1].items
  }

  /** All the items of some days, in document order. */
  function AllItems(days: seq<Day>): seq<string> {
    if days == [] then [] else AllItems(days[..|days| - 1]) + SectionItems(days[|days| - 1].sections)
  }

  /** The titles of the day-header lines, in input order. */
  function DayHeaderTitles(ls: seq<Line>): seq<string> {
    if ls == [] then []
    else DayHeaderTitles(ls[..|ls| - 1]) + if ls[|ls| - 1].DayLine? then [ls[|ls| - 1].title] else []
  }

  /** Some section header comes before every day header (there may be no day header at all). */
  predicate SectionBeforeAnyDay(ls: seq<Line>) {
    if ls == [] then false
    else SectionBeforeAnyDay(ls[..|ls| - 1]) || (ls[|ls| - 1].SectionLine? && DayHeaderTitles(ls[..|ls| - 1]) == [])
  }

  /** The items of the content lines, in input order. */
  function ContentItems(ls: seq<Line>): seq<string> {
    if ls == [] then []
    else ContentItems(ls[..|ls| - 1]) + if ls[|ls| - 1].ContentLine? then [ls[|ls| - 1].item] else []
  }

  // ----- Single lines -----

  /** A line that is empty after trimming changes nothing: not the days, not the cursors,
      not the buffer. */
  lemma BlankLineChangesNothing(st: State, line: string)
    requires Valid(st) && AllSpace(line)
    ensures Step(st, Read(line)) == st
  {
    ReadBlank(line);
  }

  /** Empty input, or input made only of blank lines, yields no days. */
  lemma {:induction false} BlankInputYieldsNoDays(lines: seq<string>)
    requires forall i :: 0 <= i < |lines| ==> AllSpace(lines[i])
    ensures Scan(ReadAll(lines)) == Init && Parse(lines) == []
  {
    if lines != [] {
      var init := lines[..|lines| - 1];
      assert forall i :: 0 <= i < |init| ==> init[i] == lines[i];
      BlankInputYieldsNoDays(init);
      assert ReadAll(lines)[..|lines| - 1] == ReadAll(init);
      BlankLineChangesNothing(Scan(ReadAll(init)), lines[|lines| - 1]);
    }
  }

  /** A day header appends exactly one day, with the line's title and no sections, at the end
      of the list. Afterwards no section is open. The days before it are unchanged, except
      that the buffer is first flushed into the open section of the previous day, if a
      section is open. */
  lemma DayHeaderAppendsOneDay(st: State, title: string)
    requires Valid(st)
    ensures var r := Step(st, DayLine(title));
            |r.days| == |st.days| + 1 &&
            r.days[|st.days|] == Day(title, []) &&
            r.day == Some(|st.days|) && r.section.None? &&
            (forall k :: 0 <= k < |st.days| - 1 ==> r.days[k] == st.days[k]) &&
            (st.section.None? ==> r.days[..|st.days|] == st.days && r.buffer == st.buffer) &&
            (st.section.Some? ==>
               r.days[..|st.days|] == AppendItems(st.days, |st.days| - 1, st.section.value, st.buffer) &&
               r.buffer == [])
  {
    var r := Step(st, DayLine(title));
    assert r.days[..|st.days|] == Flush(st).days;
    if st.section.Some? && st.buffer == [] {
      AppendNothing(st.days, |st.days| - 1, st.section.value);
    }
  }

  /** A section header appends one new, empty section to the end of the current day's sections
      and makes it current. With no day open it first creates the day `Day Information`, which
      is then the only day. An open section first receives the buffer; with no section open the
      buffer is kept, and is not moved into the new section. */
  lemma SectionHeaderAppendsOneSection(st: State, title: string)
    requires Valid(st)
    ensures var r := Step(st, SectionLine(title));
            r.section.Some? && r.day.Some? &&
            (st.day.None? ==> r.days == [Day(SyntheticDayTitle, [Section(title, [])])]) &&
            (st.day.Some? ==>
               var d := |st.days| - 1;
               |r.days| == |st.days| && r.days[..d] == st.days[..d] && r.days[d].title == st.days[d].title &&
               r.days[d].sections == Flush(st).days[d].sections + [Section(title, [])]) &&
            r.buffer == (if st.section.Some? then [] else st.buffer)
  {
    var f := Flush(st);
    if st.day.Some? {
      var d := |st.days| - 1;
      assert f.days[..d] == st.days[..d];
      assert f.days[d].title == st.days[d].title;
    }
  }

  /** A content line becomes one item: the end of the open section receives it, or, with no
      section open, the end of the buffer; nothing else changes. */
  lemma ContentLineAddsOneItem(st: State, item: string)
    requires Valid(st)
    ensures var r := Step(st, ContentLine(item));
            (st.section.None? ==> r == st.(buffer := st.buffer + [item])) &&
            (st.section.Some? ==>
               r.buffer == st.buffer && r.day == st.day && r.section == st.section &&
               r.days == AppendItems(st.days, |st.days| - 1, st.section.value, [item]))
  {
  }

  /** The final flush on its own: the buffer goes after the items of the open section, and
      with no section open the days are left as they are. */
  lemma FlushDays(s: State)
    requires Valid(s)
    ensures s.section.Some? ==> Flush(s).days == AppendItems(s.days, |s.days| - 1, s.section.value, s.buffer)
    ensures s.section.None? ==> Flush(s).days == s.days
  {
    if s.section.Some? && s.buffer == [] {
      AppendNothing(s.days, |s.days| - 1, s.section.value);
    }
  }

  /** At the end of input the buffer goes after the items of the open section; when no section
      is open the buffered items are not placed anywhere. */
  lemma EndOfInputFlush(lines: seq<string>)
    ensures var s := Scan(ReadAll(lines));
            (s.section.Some? ==> Parse(lines) == AppendItems(s.days, |s.days| - 1, s.section.value, s.buffer)) &&
            (s.section.None? ==> Parse(lines) == s.days)
  {
    FlushDays(Scan(ReadAll(lines)));
  }

  // ----- The days -----

  lemma TitlesOfAppend(days: seq<Day>, d: nat, s: nat, items: seq<string>)
    requires d < |days| && s < |days[d].sections|
    ensures Titles(AppendItems(days, d, s, items)) == Titles(days)
  {
  }

  lemma TitlesOfFlush(st: State)
    requires Valid(st)
    ensures Titles(Flush(st).days) == Titles(st.days)
  {
    if st.section.Some? && st.buffer != [] {
      TitlesOfAppend(st.days, st.day.value, st.section.value, st.buffer);
    }
  }

  lemma TitlesOfOpenDay(st: State, title: string)
    requires Valid(st)
    ensures Titles(OpenDay(st, title).days) == Titles(st.days) + [title]
  {
    var r := OpenDay(st, title);
    assert r.days[..|st.days|] == st.days;
  }

  lemma TitlesOfOpenSection(st: State, title: string)
    requires Valid(st)
    ensures Titles(OpenSection(st, title).days) == Titles(st.days) + if st.days == [] then [SyntheticDayTitle] else []
  {
    var r := OpenSection(st, title);
    if st.day.Some? {
      var d := |st.days| - 1;
      assert r.days == r.days[..d] + [r.days[d]];
      assert st.days == st.days[..d] + [st.days[d]];
    }
  }

  lemma TitlesOfAddItem(st: State, item: string)
    requires Valid(st)
    ensures Titles(AddItem(st, item).days) == Titles(st.days)
  {
    if st.section.Some? {
      TitlesOfAppend(st.days, st.day.value, st.section.value, [item]);
    }
  }

  /** One step keeps the titles or adds exactly the one its line calls for. */
  lemma StepTitles(st: State, l: Line)
    requires Valid(st)
    ensures Titles(Step(st, l).days) ==
              Titles(st.days) +
              (if l.DayLine? then [l.title]
               else if l.SectionLine? && st.days == [] then [SyntheticDayTitle]
               else [])
  {
    match l
    case BlankLine =>
      assert Step(st, l) == st;
    case DayLine(title) =>
      TitlesOfFlush(st);
      TitlesOfOpenDay(Flush(st), title);
      assert Step(st, l) == OpenDay(Flush(st), title);
    case SectionLine(title) =>
      TitlesOfFlush(st);
      TitlesOfOpenSection(Flush(st), title);
      assert Flush(st).days == [] <==> st.days == [];
      assert Step(st, l) == OpenSection(Flush(st), title);
    case ContentLine(item) =>
      TitlesOfAddItem(st, item);
      assert Step(st, l) == AddItem(st, item);
  }

  /** `Day Information`, when a section header comes before every day header. */
  function SyntheticPart(ls: seq<Line>): seq<string> {
    if SectionBeforeAnyDay(ls) then [SyntheticDayTitle] else []
  }

  /** `Day Information` is called for by the last line exactly when it is a section header
      and no earlier line is a day header or a section header. */
  lemma SyntheticPartOfLast(ls: seq<Line>)
    requires ls != []
    ensures var init := ls[..|ls| - 1];
            SyntheticPart(ls) ==
              SyntheticPart(init) +
              if ls[|ls| - 1].SectionLine? && SyntheticPart(init) == [] && DayHeaderTitles(init) == []
              then [SyntheticDayTitle] else []
  {
  }

  /** The title bookkeeping of one step, as sequence algebra: `t0` split into the synthetic
      part `sp` and the day-header part `dh`, and `t` the titles after the step. */
  lemma TitlesSplitAlgebra(t0: seq<string>, t: seq<string>, sp: seq<string>, dh: seq<string>, l: Line)
    requires t0 == sp + dh
    requires t == t0 + (if l.DayLine? then [l.title]
                        else if l.SectionLine? && t0 == [] then [SyntheticDayTitle]
                        else [])
    ensures t == (sp + if l.SectionLine? && sp == [] && dh == [] then [SyntheticDayTitle] else []) +
                 (dh + if l.DayLine? then [l.title] else [])
  {
    if l.DayLine? {
      assert sp + dh + [l.title] == sp + (dh + [l.title]);
    } else if l.SectionLine? && t0 == [] {
      assert sp == [] && dh == [];
    } else {
      assert sp + [] == sp && dh + [] == dh;
    }
  }

  /** The days come out in the order of their headers: `Day Information` first when some
      section header precedes every day header, then one day per day-header line, titled
      from that line. */
  lemma {:induction false} DaysFollowHeaders(ls: seq<Line>)
    ensures Titles(Scan(ls).days) == SyntheticPart(ls) + DayHeaderTitles(ls)
  {
    if ls != [] {
      var init := ls[..|ls| - 1];
      var l := ls[|ls| - 1];
      DaysFollowHeaders(init);
      StepTitles(Scan(init), l);
      TitlesSplitAlgebra(Titles(Scan(init).days), Titles(Scan(ls).days), SyntheticPart(init), DayHeaderTitles(init), l);
      SyntheticPartOfLast(ls);
    }
  }

  /** The parser's days, by title: `Day Information` first when some section header precedes
      every day header, then one day per day-header line, in input order. */
  lemma ParsedDayTitles(lines: seq<string>)
    ensures var ls := ReadAll(lines);
            Titles(Parse(lines)) == SyntheticPart(ls) + DayHeaderTitles(ls)
  {
    var s := Scan(ReadAll(lines));
    if s.section.Some? && s.buffer != [] {
      TitlesOfAppend(s.days, s.day.value, s.section.value, s.buffer);
    }
    DaysFollowHeaders(ReadAll(lines));
  }

  /** The number of days is the number of day-header lines, plus one when some section header
      precedes every day header. */
  lemma DayCount(lines: seq<string>)
    ensures var ls := ReadAll(lines);
            |Parse(lines)| == |DayHeaderTitles(ls)| + if SectionBeforeAnyDay(ls) then 1 else 0
  {
    ParsedDayTitles(lines);
  }

  /** `Day Information` is created only as the first day, and only when a section header
      comes before every day header. */
  lemma SyntheticDayComesFirst(lines: seq<string>)
    requires SectionBeforeAnyDay(ReadAll(lines))
    ensures |Parse(lines)| > 0 && Parse(lines)[0].title == SyntheticDayTitle
  {
    ParsedDayTitles(lines);
    assert Titles(Parse(lines))[0] == SyntheticDayTitle;
  }

  /** The day-header titles are empty exactly when no line is a day header. */
  lemma {:induction false} NoDayHeaderTitles(ls: seq<Line>)
    ensures DayHeaderTitles(ls) == [] <==> forall j :: 0 <= j < |ls| ==> !ls[j].DayLine?
  {
    if ls != [] {
      var init := ls[..|ls| - 1];
      NoDayHeaderTitles(init);
      assert forall j :: 0 <= j < |init| ==> init[j] == ls[j];
    }
  }

  /** Line `i` is a section header and no line before it is a day header. */
  predicate SectionOpensBeforeAnyDay(ls: seq<Line>, i: int) {
    0 <= i < |ls| && ls[i].SectionLine? && forall j :: 0 <= j < i ==> !ls[j].DayLine?
  }

  /** The recursive reading of "a section header precedes every day header" agrees with the
      direct one: some line is a section header and no earlier line is a day header. */
  lemma {:induction false} SectionBeforeAnyDayIffSomeLine(ls: seq<Line>)
    ensures SectionBeforeAnyDay(ls) <==> exists i :: SectionOpensBeforeAnyDay(ls, i)
  {
    if ls != [] {
      var n := |ls| - 1;
      var init := ls[..n];
      SectionBeforeAnyDayIffSomeLine(init);
      NoDayHeaderTitles(init);
      assert forall j :: 0 <= j < n ==> init[j] == ls[j];
      if SectionBeforeAnyDay(ls) {
        if SectionBeforeAnyDay(init) {
          var i :| SectionOpensBeforeAnyDay(init, i);
          assert SectionOpensBeforeAnyDay(ls, i);
        } else {
          assert SectionOpensBeforeAnyDay(ls, n);
        }
      }
      if exists i :: SectionOpensBeforeAnyDay(ls, i) {
        var i :| SectionOpensBeforeAnyDay(ls, i);
        if i < n {
          assert SectionOpensBeforeAnyDay(init, i);
        } else {
          assert DayHeaderTitles(init) == [];
        }
      }
    }
  }

  /** One step never shortens the list of days and never changes a day before the current
      one. */
  lemma StepKeepsEarlierDays(st: State, l: Line)
    requires Valid(st)
    ensures |Step(st, l).days| >= |st.days|
    ensures forall k :: 0 <= k < |st.days| - 1 ==> Step(st, l).days[k] == st.days[k]
  {
    var r := Step(st, l);
    match l
    case BlankLine =>
    case DayLine(_) =>
    case SectionLine(_) =>
      if st.day.Some? {
        var d := |st.days| - 1;
        assert forall k :: 0 <= k < d ==> r.days[k] == r.days[..d][k];
      }
    case ContentLine(_) =>
  }

  /** Once a later day has been opened, a day is final: what it holds after the first `k`
      lines is what it holds after all of them. */
  lemma {:induction false} EarlierDaysAreFinal(ls: seq<Line>, k: nat, i: nat)
    requires k <= |ls| && i + 1 < |Scan(ls[..k]).days|
    ensures i + 1 < |Scan(ls).days| && Scan(ls).days[i] == Scan(ls[..k]).days[i]
  {
    if k < |ls| {
      var init := ls[..|ls| - 1];
      assert init[..k] == ls[..k];
      EarlierDaysAreFinal(init, k, i);
      StepKeepsEarlierDays(Scan(init), ls[|ls| - 1]);
    } else {
      assert ls[..k] == ls;
    }
  }

  /** The final flush changes only the last day. */
  lemma FlushKeepsEarlierDays(st: State)
    requires Valid(st)
    ensures forall k :: 0 <= k < |st.days| - 1 ==> Flush(st).days[k] == st.days[k]
  {
  }

  /** The parser returns every day that a later day followed exactly as it was when that
      later day was opened. */
  lemma ReturnedEarlierDays(lines: seq<string>, k: nat, i: nat)
    requires k <= |lines| && i + 1 < |Scan(ReadAll(lines)[..k]).days|
    ensures i + 1 < |Parse(lines)| && Parse(lines)[i] == Scan(ReadAll(lines)[..k]).days[i]
  {
    var ls := ReadAll(lines);
    EarlierDaysAreFinal(ls, k, i);
    FlushKeepsEarlierDays(Scan(ls));
  }

  // ----- The items -----

  lemma SectionItemsOfLast(sections: seq<Section>, items: seq<string>)
    requires sections != []
    ensures var s := |sections| - 1;
            SectionItems(sections[s := sections[s].(items := sections[s].items + items)]) == SectionItems(sections) + items
  {
    var s := |sections| - 1;
    var ss := sections[s := sections[s].(items := sections[s].items + items)];
    assert ss[..s] == sections[..s];
  }

  /** The items of one more day follow those of the days before it. */
  lemma AllItemsSnoc(days: seq<Day>, x: Day)
    ensures AllItems(days + [x]) == AllItems(days) + SectionItems(x.sections)
  {
    assert (days + [x])[..|days|] == days;
  }

  /** Appending to the last section of the last day appends to the document's items. */
  lemma AllItemsOfAppend(days: seq<Day>, s: nat, items: seq<string>)
    requires days != [] && s + 1 == |days[|days| - 1].sections|
    ensures AllItems(AppendItems(days, |days| - 1, s, items)) == AllItems(days) + items
  {
    var d := |days| - 1;
    var r := AppendItems(days, d, s, items);
    var front := days[..d];
    assert r == front + [r[d]];
    assert days == front + [days[d]];
    AllItemsSnoc(front, r[d]);
    AllItemsSnoc(front, days[d]);
    var sections := days[d].sections;
    assert r[d].sections == sections[s := sections[s].(items := sections[s].items + items)];
    SectionItemsOfLast(sections, items);
    assert AllItems(front) + (SectionItems(sections) + items) == AllItems(front) + SectionItems(sections) + items;
  }

  /** The items placed in the days, followed by those still in the buffer. */
  function Placed(st: State): seq<string> {
    AllItems(st.days) + st.buffer
  }

  /** The flush moves items from the buffer into the days, and places nothing new. */
  lemma FlushPlacesNothing(st: State)
    requires Valid(st)
    ensures multiset(Placed(Flush(st))) == multiset(Placed(st))
  {
    if st.section.Some? && st.buffer != [] {
      AllItemsOfAppend(st.days, st.section.value, st.buffer);
    }
  }

  /** A new day, with no sections, holds no items. */
  lemma OpenDayPlacesNothing(st: State, title: string)
    requires Valid(st)
    ensures Placed(OpenDay(st, title)) == Placed(st)
  {
    var r := OpenDay(st, title);
    assert r.days[..|st.days|] == st.days;
  }

  /** A new section, with no items, holds no items. */
  lemma OpenSectionPlacesNothing(st: State, title: string)
    requires Valid(st)
    ensures Placed(OpenSection(st, title)) == Placed(st)
  {
    var r := OpenSection(st, title);
    var d := |r.days| - 1;
    assert r.days[..d] + [r.days[d]] == r.days;
    var ss := r.days[d].sections;
    if st.day.Some? {
      assert st.days == st.days[..d] + [st.days[d]];
      assert ss[..|ss| - 1] == st.days[d].sections;
    } else {
      assert ss == [Section(title, [])] && ss[..0] == [];
      assert SectionItems(ss) == [];
      assert r.days[..d] == [];
      assert AllItems(r.days) == [];
    }
  }

  /** A content line places its item: in the open section, or in the buffer. */
  lemma AddItemPlacesItem(st: State, item: string)
    requires Valid(st)
    ensures multiset(Placed(AddItem(st, item))) == multiset(Placed(st)) + multiset{item}
  {
    if st.section.Some? {
      AllItemsOfAppend(st.days, st.section.value, [item]);
    } else {
      assert Placed(AddItem(st, item)) == Placed(st) + [item];
    }
  }

  /** One step places the item of a content line and nothing else. */
  lemma StepPlacesItem(st: State, l: Line)
    requires Valid(st)
    ensures multiset(Placed(Step(st, l))) == multiset(Placed(st)) + if l.ContentLine? then multiset{l.item} else multiset{}
  {
    match l
    case BlankLine =>
      assert Step(st, l) == st;
    case DayLine(title) =>
      FlushPlacesNothing(st);
      OpenDayPlacesNothing(Flush(st), title);
      assert Step(st, l) == OpenDay(Flush(st), title);
    case SectionLine(title) =>
      FlushPlacesNothing(st);
      OpenSectionPlacesNothing(Flush(st), title);
      assert Step(st, l) == OpenSection(Flush(st), title);
    case ContentLine(item) =>
      AddItemPlacesItem(st, item);
      assert Step(st, l) == AddItem(st, item);
  }

  /** Every content line's item is placed exactly once: in some section or in the buffer. */
  lemma {:induction false} EveryItemPlacedOnce(ls: seq<Line>)
    ensures multiset(Placed(Scan(ls))) == multiset(ContentItems(ls))
  {
    if ls != [] {
      var init := ls[..|ls| - 1];
      EveryItemPlacedOnce(init);
      StepPlacesItem(Scan(init), ls[|ls| - 1]);
    }
  }

  /** The items the parser returns are those of the content lines, less the items left in the
      buffer when input ends with no section open: those are lost. */
  lemma ReturnedItems(lines: seq<string>)
    ensures var s := Scan(ReadAll(lines));
            multiset(AllItems(Parse(lines))) + (if s.section.None? then multiset(s.buffer) else multiset{})
            == multiset(ContentItems(ReadAll(lines)))
  {
    EveryItemPlacedOnce(ReadAll(lines));
    EndOfInputFlush(lines);
    var s := Scan(ReadAll(lines));
    if s.section.Some? {
      AllItemsOfAppend(s.days, s.section.value, s.buffer);
    }
  }
}
