/** Concrete itineraries run through the parser and the display helpers. */
module Scenarios {
  import opened Text
  import opened Lines
  import opened Itinerary
  import opened Presentation
  import opened RoundTrip

  /** Reading one more line is one more step. */
  lemma ScanSnoc(ls: seq<Line>, l: Line)
    ensures Scan(ls + [l]) == Step(Scan(ls), l)
  {
    assert (ls + [l])[..|ls|] == ls;
  }

  lemma ReadIntro(t: string)
    requires t == "Some intro text"
    ensures Read(t) == ContentLine(t)
  {
    assert IsTrimmed(t) && t[0] == 'S';
    FirstCharMismatch(t, "### Day");
    FirstCharMismatch(t, "Day ");
    FirstCharMismatch(t, "# ");
    FirstCharMismatch(t, "**");
    FirstCharMismatch(t, "Morning:");
    FirstCharMismatch(t, "Afternoon:");
    FirstCharMismatch(t, "Evening:");
    FirstCharMismatch(t, "-");
    ReadPlainText(t);
  }

  lemma ReadTips(t: string)
    requires t == "# Tips"
    ensures Read(t) == SectionLine("Tips")
  {
    var x := t[2..];
    assert IsTrimmed(x) && x[0] == 'T' && x != [];
    FirstCharMismatch(x, "**");
    assert !EndsWith(x, "**") by { assert x[2..] != "**"; }
    assert t == "# " + x;
    ReadHashedSection(x);
  }

  lemma DashedCoat(t: string, x: string)
    requires t == "- Bring a coat" && x == "Bring a coat"
    ensures t == "- " + x && IsTrimmed(x) && x != []
  {
    assert forall i :: 0 <= i < |x| ==> t[i + 2] == x[i];
  }

  lemma ReadCoat(t: string)
    requires t == "- Bring a coat"
    ensures Read(t) == ContentLine("Bring a coat")
  {
    DashedCoat(t, "Bring a coat");
    ReadListItem("Bring a coat");
  }

  lemma ScanOrphan(ls: seq<Line>)
    requires |ls| == 3 && ls[0] == ContentLine("Some intro text") && ls[1] == SectionLine("Tips")
    requires ls[2] == ContentLine("Bring a coat")
    ensures Scan(ls) == State([Day(SyntheticDayTitle, [Section("Tips", ["Bring a coat"])])], Some(0), Some(0), ["Some intro text"])
  {
    ScanSnoc([], ls[0]);
    assert ls[..1] == [] + [ls[0]];
    var s1 := Scan(ls[..1]);
    assert s1 == Step(Init, ls[0]) == Init.(buffer := [] + ["Some intro text"]);
    assert [] + ["Some intro text"] == ["Some intro text"];
    assert s1 == State([], None, None, ["Some intro text"]);
    assert ls[..2][..1] == ls[..1] && ls[..2][1] == ls[1];
    var s2 := Scan(ls[..2]);
    assert s2 == State([Day(SyntheticDayTitle, [Section("Tips", [])])], Some(0), Some(0), ["Some intro text"]);
    assert ls[..2] == ls[..|ls| - 1];
    var r := AppendItems(s2.days, 0, 0, ["Bring a coat"]);
    assert r[0].sections[0] == Section("Tips", [] + ["Bring a coat"]);
    assert [] + ["Bring a coat"] == ["Bring a coat"];
    assert r[0].sections == [r[0].sections[0]];
    assert r == [r[0]];
  }

  lemma ReadOrphan(lines: seq<string>)
    requires lines == ["Some intro text", "# Tips", "- Bring a coat"]
    ensures var ls := ReadAll(lines);
            |ls| == 3 && ls[0] == ContentLine("Some intro text") && ls[1] == SectionLine("Tips") &&
            ls[2] == ContentLine("Bring a coat")
  {
    ReadIntro(lines[0]);
    ReadTips(lines[1]);
    ReadCoat(lines[2]);
  }

  lemma FlushOrphan(st: State)
    requires st == State([Day(SyntheticDayTitle, [Section("Tips", ["Bring a coat"])])], Some(0), Some(0), ["Some intro text"])
    ensures Flush(st).days == [Day(SyntheticDayTitle, [Section("Tips", ["Bring a coat", "Some intro text"])])]
  {
    var r := AppendItems(st.days, 0, 0, st.buffer);
    assert Flush(st).days == r;
    assert r[0].sections[0] == Section("Tips", ["Bring a coat"] + ["Some intro text"]);
    assert ["Bring a coat"] + ["Some intro text"] == ["Bring a coat", "Some intro text"];
    assert r[0].sections == [r[0].sections[0]];
    assert r == [r[0]];
  }

  /** Text that arrives before any section waits in the buffer; the section header creates
      `Day Information` and `Tips` but does not take the buffer, which reaches `Tips` only at
      the end of input, after the item added directly. */
  lemma OrphanBeforeSection(lines: seq<string>)
    requires lines == ["Some intro text", "# Tips", "- Bring a coat"]
    ensures Parse(lines) == [Day(SyntheticDayTitle, [Section("Tips", ["Bring a coat", "Some intro text"])])]
  {
    ReadOrphan(lines);
    ScanOrphan(ReadAll(lines));
    FlushOrphan(Scan(ReadAll(lines)));
  }

  /** A short itinerary in the prompt's layout, as the parser should return it. */
  const ArrivalDay: Day :=
    Day("Day 1: Arrival", [
      Section("Must-Visit Attractions and Landmarks",
              ["Old Town: old walls", "Harbor: sunsets"]),
      Section("Local Food and Restaurants", ["Café Luna: pastries"])])

  lemma ItemsOkOne(a: string)
    requires ItemOk(a)
    ensures ItemsOk([a])
  {
    assert [a][..0] == [];
  }

  lemma ItemsOkTwo(a: string, b: string)
    requires ItemOk(a) && ItemOk(b)
    ensures ItemsOk([a, b])
  {
    ItemsOkOne(a);
    assert [a, b][..1] == [a];
  }

  lemma SectionsOkTwo(a: Section, b: Section)
    requires SectionOk(a) && SectionOk(b)
    ensures SectionsOk([a, b])
  {
    assert [a][..0] == [];
    assert [a, b][..1] == [a];
  }

  lemma DaysOkOne(a: Day)
    requires DayOk(a)
    ensures DaysOk([a])
  {
    assert [a][..0] == [];
  }

  lemma SectionTitleOkByEnds(x: string)
    requires |x| >= 2 && !IsSpace(x[0]) && !IsSpace(x[|x| - 1]) && x[0] != '*' && x[|x| - 1] != '*'
    ensures SectionTitleOk(x)
  {
    FirstCharMismatch(x, "**");
  }

  lemma ArrivalTitleOk(x: string)
    requires x == "Day 1: Arrival"
    ensures DayTitleOk(x)
  {
    assert x[..3] == "Day";
  }

  lemma SightsOk(s: Section)
    requires s == Section("Must-Visit Attractions and Landmarks", ["Old Town: old walls", "Harbor: sunsets"])
    ensures SectionOk(s)
  {
    SectionTitleOkByEnds(s.title);
    ItemsOkTwo(s.items[0], s.items[1]);
  }

  lemma FoodOk(s: Section)
    requires s == Section("Local Food and Restaurants", ["Café Luna: pastries"])
    ensures SectionOk(s)
  {
    SectionTitleOkByEnds(s.title);
    ItemsOkOne(s.items[0]);
  }

  lemma ArrivalDayOk(d: Day)
    requires d == ArrivalDay
    ensures DaysOk([d])
  {
    var s0 := d.sections[0];
    var s1 := d.sections[1];
    assert d.sections == [s0, s1];
    ArrivalTitleOk(d.title);
    SightsOk(s0);
    FoodOk(s1);
    SectionsOkTwo(s0, s1);
    DaysOkOne(d);
  }

  lemma ItemLinesOne(a: string)
    ensures ItemLines([a]) == ["- " + a]
  {
    assert [a][..0] == [];
  }

  lemma ItemLinesTwo(a: string, b: string)
    ensures ItemLines([a, b]) == ["- " + a, "- " + b]
  {
    ItemLinesOne(a);
    assert [a, b][..1] == [a];
  }

  lemma SectionsLinesTwo(a: Section, b: Section)
    ensures SectionsLines([a, b]) == SectionLines(a) + SectionLines(b)
  {
    assert [a][..0] == [];
    assert SectionsLines([a]) == SectionLines(a);
    assert [a, b][..1] == [a];
  }

  lemma RenderOne(d: Day)
    ensures Render([d]) == DayLines(d)
  {
    assert [d][..0] == [];
  }

  // The `Marked...` lemmas state single lines of the rendered layout. Each takes its text as
  // a parameter fixed by a `requires`, rather than as a literal in a larger proof; this keeps
  // every comparison of string literals small enough for the solver.

  lemma MarkedDayLine(title: string)
    requires title == "Day 1: Arrival"
    ensures "### " + title == "### Day 1: Arrival"
  {
  }

  lemma MarkedFirstSection(title: string)
    requires title == "Must-Visit Attractions and Landmarks"
    ensures "# " + title == "# Must-Visit Attractions and Landmarks"
  {
  }

  lemma MarkedFirstItem(item: string)
    requires item == "Old Town: old walls"
    ensures "- " + item == "- Old Town: old walls"
  {
  }

  lemma MarkedSecondItem(item: string)
    requires item == "Harbor: sunsets"
    ensures "- " + item == "- Harbor: sunsets"
  {
  }

  lemma MarkedSecondSection(title: string)
    requires title == "Local Food and Restaurants"
    ensures "# " + title == "# Local Food and Restaurants"
  {
  }

  lemma MarkedThirdItem(item: string)
    requires item == "Café Luna: pastries"
    ensures "- " + item == "- Café Luna: pastries"
  {
  }

  lemma RenderArrival(d: Day)
    requires d == ArrivalDay
    ensures Render([d]) == ["### Day 1: Arrival",
                            "# Must-Visit Attractions and Landmarks",
                            "- Old Town: old walls",
                            "- Harbor: sunsets",
                            "# Local Food and Restaurants",
                            "- Café Luna: pastries"]
  {
    var s0 := d.sections[0];
    var s1 := d.sections[1];
    RenderOne(d);
    ItemLinesTwo(s0.items[0], s0.items[1]);
    assert s0.items == [s0.items[0], s0.items[1]];
    ItemLinesOne(s1.items[0]);
    assert s1.items == [s1.items[0]];
    SectionsLinesTwo(s0, s1);
    assert d.sections == [s0, s1];
    var l0 := SectionLines(s0);
    var l1 := SectionLines(s1);
    assert l0 == ["# " + s0.title, "- " + s0.items[0], "- " + s0.items[1]];
    assert l1 == ["# " + s1.title, "- " + s1.items[0]];
    assert DayLines(d) == ["### " + d.title] + l0 + l1;
    MarkedDayLine(d.title);
    MarkedFirstSection(s0.title);
    MarkedFirstItem(s0.items[0]);
    MarkedSecondItem(s0.items[1]);
    MarkedSecondSection(s1.title);
    MarkedThirdItem(s1.items[0]);
  }

  /** A short itinerary in the prompt's layout: one day header, two section headers, three
      items. */
  lemma PromptLayoutItinerary(lines: seq<string>)
    requires lines == ["### Day 1: Arrival",
                       "# Must-Visit Attractions and Landmarks",
                       "- Old Town: old walls",
                       "- Harbor: sunsets",
                       "# Local Food and Restaurants",
                       "- Café Luna: pastries"]
    ensures Parse(lines) == [ArrivalDay]
  {
    ArrivalDayOk(ArrivalDay);
    RenderArrival(ArrivalDay);
    ParseRender([ArrivalDay]);
  }

  /** Two lines are read one by one. */
  lemma ReadTwo(lines: seq<string>, x: Line, y: Line)
    requires |lines| == 2 && Read(lines[0]) == x && Read(lines[1]) == y
    ensures ReadAll(lines) == [x, y]
  {
    var r := ReadAll(lines);
    assert r[0] == x && r[1] == y;
  }

  lemma ReadDayOne(t: string)
    requires t == "### Day 1"
    ensures Read(t) == DayLine("Day 1")
  {
    var x := t[4..];
    assert x == "Day 1" && x[..3] == "Day";
    assert IsTrimmed(x) && StartsWith(x, "Day");
    assert t == "### " + x;
    ReadMarkedDay(x);
  }

  lemma ReadHello(t: string)
    requires t == "Hello"
    ensures Read(t) == ContentLine(t)
  {
    assert IsTrimmed(t) && t[0] == 'H';
    FirstCharMismatch(t, "### Day");
    FirstCharMismatch(t, "Day ");
    FirstCharMismatch(t, "# ");
    FirstCharMismatch(t, "**");
    FirstCharMismatch(t, "Morning:");
    FirstCharMismatch(t, "Afternoon:");
    FirstCharMismatch(t, "Evening:");
    FirstCharMismatch(t, "-");
    ReadPlainText(t);
  }

  lemma ScanDayThenText(ls: seq<Line>, title: string, item: string)
    requires ls == [DayLine(title), ContentLine(item)]
    ensures Scan(ls) == State([Day(title, [])], Some(0), None, [item])
  {
    ScanOneDay([ls[0]], title);
    ScanSnoc([ls[0]], ls[1]);
    assert ls == [ls[0]] + [ls[1]];
  }

  /** Text under a day header but before any section of that day is kept in the buffer,
      and at the end of input, with no section open, it is dropped: the day is returned with
      no sections and the text appears nowhere. */
  lemma TextWithoutSectionIsDropped(lines: seq<string>)
    requires lines == ["### Day 1", "Hello"]
    ensures Parse(lines) == [Day("Day 1", [])]
  {
    ReadDayOne(lines[0]);
    ReadHello(lines[1]);
    ReadTwo(lines, DayLine("Day 1"), ContentLine("Hello"));
    ScanDayThenText(ReadAll(lines), "Day 1", "Hello");
  }

  lemma ReadDashedDay(t: string)
    requires t == "Day 2-Exploring"
    ensures Read(t) == DayLine(t)
  {
    var u := t[4..];
    assert t[..4] == "Day " && u[0] == '2' && u[1] == '-';
    assert DigitRun(u) == 1 + DigitRun(u[1..]);
    assert DigitRun(u) == 1;
    assert DayNumberForm(t);
    assert IsTrimmed(t);
    TrimOfTrimmed(t);
    FirstCharMismatch(t, "###");
    ReadDayHeader(t);
  }

  lemma MorningSlice(t: string, u: string)
    requires t == "**Morning:** Visit museum" && u == "Morning:** Visit museum"
    ensures t[2..] == u
  {
    assert forall i :: 0 <= i < |u| ==> t[i + 2] == u[i];
  }

  lemma ReadBoldMorning(t: string)
    requires t == "**Morning:** Visit museum"
    ensures Read(t) == SectionLine("Morning:** Visit museum")
  {
    var u := t[2..];
    assert t[..2] == "**" && IsTrimmed(t) && IsTrimmed(u);
    TrimOfTrimmed(t);
    TrimOfTrimmed(u);
    FirstCharMismatch(t, "#");
    assert u[|u| - 2..] != "**";
    ReadSectionHeader(t);
    MorningSlice(t, "Morning:** Visit museum");
  }

  /** The first line of the input is a day header. */
  lemma ScanOneDay(ls: seq<Line>, day: string)
    requires ls == [DayLine(day)]
    ensures Scan(ls) == State([Day(day, [])], Some(0), None, [])
  {
    ScanSnoc([], ls[0]);
    assert ls == [] + [ls[0]];
  }

  /** A section header right after the first day header opens the day's first section. */
  lemma SectionOnFreshDay(st: State, day: string, section: string)
    requires st == State([Day(day, [])], Some(0), None, [])
    ensures Step(st, SectionLine(section)) == State([Day(day, [Section(section, [])])], Some(0), Some(0), [])
  {
    var r := OpenSection(st, section);
    assert Flush(st) == st;
    assert |r.days| == 1 && r.days[0].title == day && r.days[0].sections == [] + [Section(section, [])];
    assert [] + [Section(section, [])] == [Section(section, [])];
    assert r.days[0] == Day(day, [Section(section, [])]);
    assert r.days == [Day(day, [Section(section, [])])];
  }

  lemma ScanDayThenSection(ls: seq<Line>, day: string, section: string)
    requires ls == [DayLine(day), SectionLine(section)]
    ensures Scan(ls) == State([Day(day, [Section(section, [])])], Some(0), Some(0), [])
  {
    ScanOneDay([ls[0]], day);
    ScanSnoc([ls[0]], ls[1]);
    assert ls == [ls[0]] + [ls[1]];
    SectionOnFreshDay(Scan([ls[0]]), day, section);
  }

  lemma ReadDialect(lines: seq<string>)
    requires |lines| == 2 && lines[0] == "Day 2-Exploring" && lines[1] == "**Morning:** Visit museum"
    ensures ReadAll(lines) == [DayLine("Day 2-Exploring"), SectionLine("Morning:** Visit museum")]
  {
    ReadDashedDay(lines[0]);
    ReadBoldMorning(lines[1]);
    ReadTwo(lines, DayLine("Day 2-Exploring"), SectionLine("Morning:** Visit museum"));
  }

  /** The `Day <n>-` and `**Morning:` dialect: the day header keeps its whole text as the
      title, and the bold time-of-day line becomes a section whose title loses only the
      leading `**`, the marker after the colon staying in the title (the display removes
      it, see DisplayOfTimeOfDay). */
  lemma DashedDayAndBoldTime(lines: seq<string>)
    requires lines == ["Day 2-Exploring", "**Morning:** Visit museum"]
    ensures Parse(lines) == [Day("Day 2-Exploring", [Section("Morning:** Visit museum", [])])]
  {
    ReadDialect(lines);
    ScanDayThenSection(ReadAll(lines), "Day 2-Exploring", "Morning:** Visit museum");
  }
}
