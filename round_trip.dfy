/** The layout the itinerary prompt asks the language model to follow: a `### ` line per
    day, a `# ` line per section under it, and a `- ` line per item under that. The parser
    returns exactly the days written in this layout. */
module RoundTrip {
  import opened Text
  import opened Lines
  import opened Itinerary

  /** A non-empty sequence is its front followed by its last element. */
  lemma FrontAndLast<T>(s: seq<T>)
    requires s != []
    ensures s[..|s| - 1] + [s[|s| - 1]] == s
  {
  }

  /** A day title the layout can carry: trimmed, and starting with `Day`. */
  predicate DayTitleOk(x: string) {
    IsTrimmed(x) && StartsWith(x, "Day")
  }

  /** A section title the layout can carry: non-empty, trimmed, and not bold-marked. */
  predicate SectionTitleOk(x: string) {
    x != [] && IsTrimmed(x) && !StartsWith(x, "**") && !EndsWith(x, "**")
  }

  /** An item the layout can carry: trimmed (a bare `- ` line is the empty item). */
  predicate ItemOk(x: string) {
    IsTrimmed(x)
  }

  predicate ItemsOk(items: seq<string>) {
    items == [] || (ItemsOk(items[..|items| - 1]) && ItemOk(items[|items| - 1]))
  }

  predicate SectionOk(s: Section) {
    SectionTitleOk(s.title) && ItemsOk(s.items)
  }

  predicate SectionsOk(ss: seq<Section>) {
    ss == [] || (SectionsOk(ss[..|ss| - 1]) && SectionOk(ss[|ss| - 1]))
  }

  predicate DayOk(d: Day) {
    DayTitleOk(d.title) && SectionsOk(d.sections)
  }

  /** Every day, section and item can be written in the layout. */
  predicate DaysOk(days: seq<Day>) {
    days == [] || (DaysOk(days[..|days| - 1]) && DayOk(days[|days| - 1]))
  }

  function ItemLines(items: seq<string>): seq<string> {
    if items == [] then [] else ItemLines(items[..|items| - 1]) + ["- " + items[|items| - 1]]
  }

  function SectionLines(s: Section): seq<string> {
    ["# " + s.title] + ItemLines(s.items)
  }

  function SectionsLines(sections: seq<Section>): seq<string> {
    if sections == [] then [] else SectionsLines(sections[..|sections| - 1]) + SectionLines(sections[|sections| - 1])
  }

  function DayLines(d: Day): seq<string> {
    ["### " + d.title] + SectionsLines(d.sections)
  }

  /** The itinerary written out in the prompt's layout, one string per line. */
  function Render(days: seq<Day>): seq<string> {
    if days == [] then [] else Render(days[..|days| - 1]) + DayLines(days[|days| - 1])
  }

  /** The states after the given lines, taken left to right from `st`. */
  function Run(st: State, ls: seq<Line>): (r: State)
    requires Valid(st)
    ensures Valid(r)
  {
    if ls == [] then st else Step(Run(st, ls[..|ls| - 1]), ls[|ls| - 1])
  }

  lemma {:induction false} RunAppend(st: State, a: seq<Line>, b: seq<Line>)
    requires Valid(st)
    ensures Run(st, a + b) == Run(Run(st, a), b)
  {
    if b == [] {
      assert a + b == a;
    } else {
      var b0 := b[..|b| - 1];
      RunAppend(st, a, b0);
      assert (a + b)[..|a + b| - 1] == a + b0;
    }
  }

  lemma RunOne(st: State, l: Line)
    requires Valid(st)
    ensures Run(st, [l]) == Step(st, l)
  {
    assert [l][..0] == [];
    assert Run(st, [l][..0]) == st;
  }

  lemma {:induction false} ScanIsRun(ls: seq<Line>)
    ensures Scan(ls) == Run(Init, ls)
  {
    if ls != [] {
      ScanIsRun(ls[..|ls| - 1]);
    }
  }

  lemma ReadAllAppend(a: seq<string>, b: seq<string>)
    ensures ReadAll(a + b) == ReadAll(a) + ReadAll(b)
  {
    assert forall i :: 0 <= i < |b| ==> (a + b)[|a| + i] == b[i];
  }

  /** Reading two blocks of lines is reading the first, then the second. */
  lemma RunLinesAppend(st: State, a: seq<string>, b: seq<string>)
    requires Valid(st)
    ensures Run(st, ReadAll(a + b)) == Run(Run(st, ReadAll(a)), ReadAll(b))
  {
    ReadAllAppend(a, b);
    RunAppend(st, ReadAll(a), ReadAll(b));
  }

  /** The state with `items` appended to the current section. */
  function WithItems(st: State, items: seq<string>): State
    requires Valid(st) && st.section.Some?
  {
    st.(days := AppendItems(st.days, |st.days| - 1, st.section.value, items))
  }

  /** An item line, read under an open section, appends its item to that section. */
  lemma RunItemLine(st: State, x: string)
    requires Valid(st) && st.section.Some? && ItemOk(x)
    ensures Run(st, ReadAll(["- " + x])) == WithItems(st, [x])
  {
    ReadListItem(x);
    assert ReadAll(["- " + x]) == [ContentLine(x)];
    RunOne(st, ContentLine(x));
  }

  /** Item lines, read under an open section with an empty buffer, append their items to
      that section. */
  lemma {:induction false} RunItems(st: State, items: seq<string>)
    requires Valid(st) && st.section.Some? && st.buffer == []
    requires ItemsOk(items)
    ensures Run(st, ReadAll(ItemLines(items))) == WithItems(st, items)
  {
    var d := |st.days| - 1;
    if items == [] {
      AppendNothing(st.days, d, st.section.value);
    } else {
      var init := items[..|items| - 1];
      var x := items[|items| - 1];
      FrontAndLast(items);
      RunItems(st, init);
      RunLinesAppend(st, ItemLines(init), ["- " + x]);
      RunItemLine(Run(st, ReadAll(ItemLines(init))), x);
      AppendTwice(st.days, d, st.section.value, init, [x]);
    }
  }

  /** With a day open, a new section is an update of the last day. */
  lemma OpenSectionOnDay(st: State, title: string)
    requires Valid(st) && st.day.Some?
    ensures var d := |st.days| - 1;
            OpenSection(st, title).days == st.days[d := st.days[d].(sections := st.days[d].sections + [Section(title, [])])]
  {
    var d := |st.days| - 1;
    var r := OpenSection(st, title);
    var want := st.days[d := st.days[d].(sections := st.days[d].sections + [Section(title, [])])];
    assert forall k :: 0 <= k < d ==> r.days[k] == r.days[..d][k];
    assert r.days[d] == want[d];
  }

  /** Items appended to a section just added to the last day are that section's items. */
  lemma ItemsOfNewSection(days: seq<Day>, title: string, items: seq<string>)
    requires days != []
    ensures var d := |days| - 1;
            var sections := days[d].sections;
            AppendItems(days[d := days[d].(sections := sections + [Section(title, [])])], d, |sections|, items)
            == days[d := days[d].(sections := sections + [Section(title, items)])]
  {
    var d := |days| - 1;
    var sections := days[d].sections;
    var r := AppendItems(days[d := days[d].(sections := sections + [Section(title, [])])], d, |sections|, items);
    assert [] + items == items;
    assert r[d].sections == sections + [Section(title, items)];
  }

  /** A section header line, read with a day open and an empty buffer, opens a section. */
  lemma RunSectionHeader(st: State, title: string)
    requires Valid(st) && st.day.Some? && st.buffer == [] && SectionTitleOk(title)
    ensures Run(st, ReadAll(["# " + title])) == OpenSection(st, title)
  {
    ReadHashedSection(title);
    assert ReadAll(["# " + title]) == [SectionLine(title)];
    RunOne(st, SectionLine(title));
  }

  /** A section's lines, read with a day open and an empty buffer, append that section to
      the current day. */
  lemma RunSection(st: State, s: Section)
    requires Valid(st) && st.day.Some? && st.buffer == [] && SectionOk(s)
    ensures var d := |st.days| - 1;
            var r := Run(st, ReadAll(SectionLines(s)));
            r.days == st.days[d := st.days[d].(sections := st.days[d].sections + [s])] &&
            r.day == st.day && r.section.Some? && r.buffer == []
  {
    var d := |st.days| - 1;
    RunLinesAppend(st, ["# " + s.title], ItemLines(s.items));
    RunSectionHeader(st, s.title);
    var mid := OpenSection(st, s.title);
    OpenSectionOnDay(st, s.title);
    RunItems(mid, s.items);
    ItemsOfNewSection(st.days, s.title, s.items);
  }

  /** Adding sections to one day twice is adding both runs at once. */
  lemma AddSectionsTwice(days: seq<Day>, d: nat, a: seq<Section>, b: seq<Section>)
    requires d < |days|
    ensures var m := days[d := days[d].(sections := days[d].sections + a)];
            m[d := m[d].(sections := m[d].sections + b)] == days[d := days[d].(sections := days[d].sections + (a + b))]
  {
    assert days[d].sections + a + b == days[d].sections + (a + b);
  }

  /** The lines of several sections append those sections to the current day. */
  lemma {:induction false} RunSections(st: State, ss: seq<Section>)
    requires Valid(st) && st.day.Some? && st.buffer == []
    requires SectionsOk(ss)
    ensures var d := |st.days| - 1;
            var r := Run(st, ReadAll(SectionsLines(ss)));
            r.days == st.days[d := st.days[d].(sections := st.days[d].sections + ss)] &&
            r.day == st.day && r.buffer == []
  {
    var d := |st.days| - 1;
    if ss == [] {
      assert ReadAll(SectionsLines(ss)) == [];
      assert st.days[d].sections + ss == st.days[d].sections;
      assert st.days[d := st.days[d]] == st.days;
    } else {
      var init := ss[..|ss| - 1];
      var s := ss[|ss| - 1];
      FrontAndLast(ss);
      RunSections(st, init);
      RunSectionsLast(st, ss);
      var mid := Run(st, ReadAll(SectionsLines(init)));
      assert |mid.days| == |st.days|;
      RunSection(mid, s);
      AddSectionsTwice(st.days, d, init, [s]);
    }
  }

  /** Reading several sections is reading all but the last, then the last. */
  lemma RunSectionsLast(st: State, ss: seq<Section>)
    requires Valid(st) && ss != []
    ensures Run(st, ReadAll(SectionsLines(ss))) ==
            Run(Run(st, ReadAll(SectionsLines(ss[..|ss| - 1]))), ReadAll(SectionLines(ss[|ss| - 1])))
  {
    RunLinesAppend(st, SectionsLines(ss[..|ss| - 1]), SectionLines(ss[|ss| - 1]));
  }

  /** A day header line, read with an empty buffer, opens a day. */
  lemma RunDayHeader(st: State, title: string)
    requires Valid(st) && st.buffer == [] && DayTitleOk(title)
    ensures Run(st, ReadAll(["### " + title])) == OpenDay(st, title)
  {
    ReadMarkedDay(title);
    assert ReadAll(["### " + title]) == [DayLine(title)];
    RunOne(st, DayLine(title));
  }

  /** A new, empty day given the sections of `day` is `day`. */
  lemma FillNewDay(days: seq<Day>, m: seq<Day>, day: Day)
    requires m == days + [Day(day.title, [])]
    ensures m[|days| := m[|days|].(sections := m[|days|].sections + day.sections)] == days + [day]
  {
    assert [] + day.sections == day.sections;
  }

  /** A day's lines, read with an empty buffer, append that day. */
  lemma RunDay(st: State, day: Day)
    requires Valid(st) && st.buffer == [] && DayOk(day)
    ensures var r := Run(st, ReadAll(DayLines(day)));
            r.days == st.days + [day] && r.buffer == []
  {
    RunLinesAppend(st, ["### " + day.title], SectionsLines(day.sections));
    RunDayHeader(st, day.title);
    var mid := OpenDay(st, day.title);
    RunSections(mid, day.sections);
    FillNewDay(st.days, mid.days, day);
  }

  /** Reading a rendered itinerary is reading all but its last day, then its last day. */
  lemma RunRenderLast(days: seq<Day>)
    requires days != []
    ensures Run(Init, ReadAll(Render(days))) ==
            Run(Run(Init, ReadAll(Render(days[..|days| - 1]))), ReadAll(DayLines(days[|days| - 1])))
  {
    RunLinesAppend(Init, Render(days[..|days| - 1]), DayLines(days[|days| - 1]));
  }

  /** Reading the layout from the start builds exactly the days written, with nothing left
      in the buffer. */
  lemma {:induction false} ScanRender(days: seq<Day>)
    requires DaysOk(days)
    ensures Run(Init, ReadAll(Render(days))).days == days
    ensures Run(Init, ReadAll(Render(days))).buffer == []
  {
    if days == [] {
      assert ReadAll(Render(days)) == [];
    } else {
      var init := days[..|days| - 1];
      var day := days[|days| - 1];
      FrontAndLast(days);
      ScanRender(init);
      RunRenderLast(days);
      var mid := Run(Init, ReadAll(Render(init)));
      RunDay(mid, day);
    }
  }

  /** The parser inverts the prompt's layout: any itinerary whose titles and items the layout
      can carry is returned exactly as written, its trailing sections included. */
  lemma ParseRender(days: seq<Day>)
    requires DaysOk(days)
    ensures Parse(Render(days)) == days
  {
    ScanRender(days);
    ScanIsRun(ReadAll(Render(days)));
  }
}
