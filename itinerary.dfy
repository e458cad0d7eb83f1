/** The itinerary line parser: one left-to-right pass over the lines of a generated
    itinerary that builds an ordered list of days, each an ordered list of sections, each an
    ordered list of items.

    The parser keeps a "current day" cursor, a "current section" cursor and a buffer of items
    seen while no section is open. The cursors alias entries of the growing day list; here
    they are indices into it. `Step` and `Parse` specify the pass one line at a time, on
    lines already read by `Lines.Read`; `ProcessRawSuggestions` is the pass itself and is
    proved to compute `Parse`. */
module Itinerary {
  import opened Text
  import opened Lines

  datatype Option<T> = None | Some(value: T)

  datatype Section = Section(title: string, items: seq<string>)

  datatype Day = Day(title: string, sections: seq<Section>)

  /** The title of the day created when a section header arrives before any day header. */
  const SyntheticDayTitle: string := "Day Information"

  /** The parser's state between two lines: the days built so far, the cursors and the
      buffer of items that arrived while no section was open. */
  datatype State = State(days: seq<Day>, day: Option<nat>, section: Option<nat>, buffer: seq<string>)

  /** The state before the first line. */
  const Init: State := State([], None, None, [])

  /** The current day, when there is one, is the last day; the current section, when there
      is one, is the last section of the current day. No day is current only before any day
      has been created. */
  predicate Valid(st: State) {
    (st.day.None? ==> st.days == [] && st.section.None?) &&
    (st.day.Some? ==> st.day.value + 1 == |st.days|) &&
    (st.section.Some? ==> st.day.Some? && st.section.value + 1 == |st.days[|st.days| - 1].sections|)
  }

  /** Appends `items` to the items of section `s` of day `d`; nothing else changes. */
  function AppendItems(days: seq<Day>, d: nat, s: nat, items: seq<string>): (r: seq<Day>)
    requires d < |days| && s < |days[d].sections|
    ensures |r| == |days|
    ensures forall k :: 0 <= k < |days| && k != d ==> r[k] == days[k]
    ensures r[d].title == days[d].title && |r[d].sections| == |days[d].sections|
    ensures forall j :: 0 <= j < |days[d].sections| && j != s ==> r[d].sections[j] == days[d].sections[j]
    ensures r[d].sections[s] == Section(days[d].sections[s].title, days[d].sections[s].items + items)
  {
    var day := days[d];
    var sec := day.sections[s];
    days[d := day.(sections := day.sections[s := sec.(items := sec.items + items)])]
  }

  /** Moves the buffer into the current section, but only when a section is open and the
      buffer is not empty; otherwise the state is left as it is. */
  function Flush(st: State): (r: State)
    requires Valid(st)
    ensures Valid(r) && r.day == st.day && r.section == st.section
    ensures |r.days| == |st.days|
    ensures st.section.Some? ==> r.buffer == []
    ensures st.section.None? ==> r == st
  {
    if st.section.Some? && |st.buffer| > 0 then
      st.(days := AppendItems(st.days, st.day.value, st.section.value, st.buffer), buffer := [])
    else
      st
  }

  /** A day header's effect once the buffer has been flushed: a new day with no sections
      goes at the end of the list and becomes current, no section is open, and the buffer is
      kept. */
  function OpenDay(st: State, title: string): (r: State)
    requires Valid(st)
    ensures Valid(r)
    ensures r.days == st.days + [Day(title, [])]
    ensures r.day == Some(|st.days|) && r.section.None? && r.buffer == st.buffer
  {
    State(st.days + [Day(title, [])], Some(|st.days|), None, st.buffer)
  }

  /** A section header's effect once the buffer has been flushed: when no day is open, a
      day titled `Day Information` is created first; a new, empty section then goes at the end
      of the current day's sections and becomes current. The buffer is kept. */
  function OpenSection(st: State, title: string): (r: State)
    requires Valid(st)
    ensures Valid(r) && r.day.Some? && r.section.Some? && r.buffer == st.buffer
    ensures st.day.None? ==> r.days == [Day(SyntheticDayTitle, [Section(title, [])])]
    ensures st.day.Some? ==>
              var d := |st.days| - 1;
              |r.days| == |st.days| && r.days[..d] == st.days[..d] && r.days[d].title == st.days[d].title &&
              r.days[d].sections == st.days[d].sections + [Section(title, [])]
  {
    var days := if st.day.None? then st.days + [Day(SyntheticDayTitle, [])] else st.days;
    var d := |days| - 1;
    var sections := days[d].sections + [Section(title, [])];
    var r := State(days[d := days[d].(sections := sections)], Some(d), Some(|sections| - 1), st.buffer);
    assert st.day.Some? ==> r.days[..d] == st.days[..d];
    assert st.day.None? ==> days == [Day(SyntheticDayTitle, [])] && sections == [Section(title, [])];
    r
  }

  /** A content line's effect: the item goes at the end of the open section, or at the end
      of the buffer when no section is open. */
  function AddItem(st: State, item: string): (r: State)
    requires Valid(st)
    ensures Valid(r) && r.day == st.day && r.section == st.section
    ensures st.section.None? ==> r == st.(buffer := st.buffer + [item])
    ensures st.section.Some? ==>
              r.buffer == st.buffer && r.days == AppendItems(st.days, st.day.value, st.section.value, [item])
  {
    if st.section.Some? then
      st.(days := AppendItems(st.days, st.day.value, st.section.value, [item]))
    else
      st.(buffer := st.buffer + [item])
  }

  /** The effect of one line, already read: a day or section header flushes the buffer
      before it takes effect; a blank line changes nothing. */
  function Step(st: State, l: Line): (r: State)
    requires Valid(st)
    ensures Valid(r)
  {
    match l
    case BlankLine => st
    case DayLine(title) => OpenDay(Flush(st), title)
    case SectionLine(title) => OpenSection(Flush(st), title)
    case ContentLine(item) => AddItem(st, item)
  }

  /** The state after the given lines, taken left to right from `Init`. */
  function Scan(ls: seq<Line>): (r: State)
    ensures Valid(r)
  {
    if ls == [] then Init else Step(Scan(ls[..|ls| - 1]), ls[|ls| - 1])
  }

  /** Every raw line, read. */
  function ReadAll(lines: seq<string>): (ls: seq<Line>)
    ensures |ls| == |lines|
    ensures forall i :: 0 <= i < |lines| ==> ls[i] == Read(lines[i])
  {
    seq(|lines|, i requires 0 <= i < |lines| => Read(lines[i]))
  }

  /** The days the parser returns: the state after every line, with one last flush. */
  function Parse(lines: seq<string>): (r: seq<Day>)
    ensures var s := Scan(ReadAll(lines));
            |r| == |s.days| && forall k :: 0 <= k < |r| - 1 ==> r[k] == s.days[k]
  {
    Flush(Scan(ReadAll(lines))).days
  }

  /** Appending nothing changes nothing. */
  lemma AppendNothing(days: seq<Day>, d: nat, s: nat)
    requires d < |days| && s < |days[d].sections|
    ensures AppendItems(days, d, s, []) == days
  {
    var day := days[d];
    assert day.sections[s].items + [] == day.sections[s].items;
    assert day.sections[s := day.sections[s]] == day.sections;
    assert days[d := day] == days;
  }

  /** Appending in two goes is appending the concatenation. */
  lemma AppendTwice(days: seq<Day>, d: nat, s: nat, a: seq<string>, b: seq<string>)
    requires d < |days| && s < |days[d].sections|
    ensures AppendItems(AppendItems(days, d, s, a), d, s, b) == AppendItems(days, d, s, a + b)
  {
    var sec := days[d].sections[s];
    assert sec.items + a + b == sec.items + (a + b);
    var lhs := AppendItems(AppendItems(days, d, s, a), d, s, b);
    var rhs := AppendItems(days, d, s, a + b);
    assert lhs[d].sections == rhs[d].sections;
    assert lhs[d] == rhs[d];
    assert forall k :: 0 <= k < |lhs| ==> lhs[k] == rhs[k];
  }

  /** Appends the items one at a time, as the source's `forEach` over the buffer does. */
  method PushEach(days: seq<Day>, d: nat, s: nat, items: seq<string>) returns (r: seq<Day>)
    requires d < |days| && s < |days[d].sections|
    ensures r == AppendItems(days, d, s, items)
  {
    r := days;
    AppendNothing(days, d, s);
    var j := 0;
    while j < |items|
      invariant 0 <= j <= |items|
      invariant r == AppendItems(days, d, s, items[..j])
    {
      var section := r[d].sections[s];
      r := r[d := r[d].(sections := r[d].sections[s := section.(items := section.items + [items[j]])])];
      AppendTwice(days, d, s, items[..j], [items[j]]);
      assert items[..j + 1] == items[..j] + [items[j]];
      j := j + 1;
    }
    assert items[..j] == items;
  }

  /** The flush at a day header, a section header and the end of input: the buffer is moved
      into the current section only when one is open and the buffer is not empty. */
  method FlushBuffer(days0: seq<Day>, currentDay: Option<nat>, currentSection: Option<nat>, contentBuffer0: seq<string>)
    returns (days: seq<Day>, contentBuffer: seq<string>)
    requires Valid(State(days0, currentDay, currentSection, contentBuffer0))
    ensures State(days, currentDay, currentSection, contentBuffer) == Flush(State(days0, currentDay, currentSection, contentBuffer0))
  {
    days, contentBuffer := days0, contentBuffer0;
    if currentSection.Some? && |contentBuffer| > 0 {
      days := PushEach(days, currentDay.value, currentSection.value, contentBuffer);
      contentBuffer := [];
    }
  }

  /** The day-header branch of the per-line callback. */
  method OnDayHeader(days0: seq<Day>, currentDay0: Option<nat>, currentSection0: Option<nat>,
                     contentBuffer0: seq<string>, title: string)
    returns (days: seq<Day>, currentDay: Option<nat>, currentSection: Option<nat>, contentBuffer: seq<string>)
    requires Valid(State(days0, currentDay0, currentSection0, contentBuffer0))
    ensures State(days, currentDay, currentSection, contentBuffer)
         == OpenDay(Flush(State(days0, currentDay0, currentSection0, contentBuffer0)), title)
  {
    days, contentBuffer := FlushBuffer(days0, currentDay0, currentSection0, contentBuffer0);
    days := days + [Day(title, [])];
    currentDay := Some(|days| - 1);
    currentSection := None;
  }

  /** The section-header branch of the per-line callback. */
  method OnSectionHeader(days0: seq<Day>, currentDay0: Option<nat>, currentSection0: Option<nat>,
                         contentBuffer0: seq<string>, title: string)
    returns (days: seq<Day>, currentDay: Option<nat>, currentSection: Option<nat>, contentBuffer: seq<string>)
    requires Valid(State(days0, currentDay0, currentSection0, contentBuffer0))
    ensures State(days, currentDay, currentSection, contentBuffer)
         == OpenSection(Flush(State(days0, currentDay0, currentSection0, contentBuffer0)), title)
  {
    days, contentBuffer := FlushBuffer(days0, currentDay0, currentSection0, contentBuffer0);
    currentDay := currentDay0;
    if currentDay.None? {
      days := days + [Day(SyntheticDayTitle, [])];
      currentDay := Some(|days| - 1);
    }
    var d := currentDay.value;
    days := days[d := days[d].(sections := days[d].sections + [Section(title, [])])];
    currentSection := Some(|days[d].sections| - 1);
  }

  /** The content branch of the per-line callback. */
  method OnContent(days0: seq<Day>, currentDay: Option<nat>, currentSection: Option<nat>,
                   contentBuffer0: seq<string>, item: string)
    returns (days: seq<Day>, contentBuffer: seq<string>)
    requires Valid(State(days0, currentDay, currentSection, contentBuffer0))
    ensures State(days, currentDay, currentSection, contentBuffer)
         == AddItem(State(days0, currentDay, currentSection, contentBuffer0), item)
  {
    days, contentBuffer := days0, contentBuffer0;
    if currentSection.Some? {
      days := PushEach(days, currentDay.value, currentSection.value, [item]);
    } else {
      contentBuffer := contentBuffer + [item];
    }
  }

  /** The handling of one line: the body of the source's `forEach` callback. */
  method HandleLine(days0: seq<Day>, currentDay0: Option<nat>, currentSection0: Option<nat>,
                    contentBuffer0: seq<string>, line: string)
    returns (days: seq<Day>, currentDay: Option<nat>, currentSection: Option<nat>, contentBuffer: seq<string>)
    requires Valid(State(days0, currentDay0, currentSection0, contentBuffer0))
    ensures State(days, currentDay, currentSection, contentBuffer)
         == Step(State(days0, currentDay0, currentSection0, contentBuffer0), Read(line))
  {
    days, currentDay, currentSection, contentBuffer := days0, currentDay0, currentSection0, contentBuffer0;
    var trimmedLine := Trim(line);
    if trimmedLine == [] {
      assert Classify(trimmedLine) == Blank;
    } else if IsDayHeader(trimmedLine) {
      assert Classify(trimmedLine) == DayHeader;
      days, currentDay, currentSection, contentBuffer :=
        OnDayHeader(days, currentDay, currentSection, contentBuffer, DayTitle(trimmedLine));
    } else if IsSectionHeader(trimmedLine) {
      assert Classify(trimmedLine) == SectionHeader;
      days, currentDay, currentSection, contentBuffer :=
        OnSectionHeader(days, currentDay, currentSection, contentBuffer, SectionTitle(trimmedLine));
    } else {
      assert Classify(trimmedLine) == Content;
      days, contentBuffer := OnContent(days, currentDay, currentSection, contentBuffer, ItemText(trimmedLine));
    }
  }

  /** The parser's single pass over the lines, with the final flush of the buffer. */
  method ProcessRawSuggestions(suggestions: seq<string>) returns (days: seq<Day>)
    ensures days == Parse(suggestions)
  {
    days := [];
    var currentDay: Option<nat> := None;
    var currentSection: Option<nat> := None;
    var contentBuffer: seq<string> := [];
    var i := 0;
    while i < |suggestions|
      invariant 0 <= i <= |suggestions|
      invariant State(days, currentDay, currentSection, contentBuffer) == Scan(ReadAll(suggestions)[..i])
    {
      assert ReadAll(suggestions)[..i + 1][..i] == ReadAll(suggestions)[..i];
      days, currentDay, currentSection, contentBuffer :=
        HandleLine(days, currentDay, currentSection, contentBuffer, suggestions[i]);
      i := i + 1;
    }
    assert ReadAll(suggestions)[..i] == ReadAll(suggestions);
    days, contentBuffer := FlushBuffer(days, currentDay, currentSection, contentBuffer);
  }
}
