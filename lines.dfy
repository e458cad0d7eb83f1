/** Classification of one trimmed itinerary line (day header, section header, content or
    blank) and the normalisation of header titles and item text. */
module Lines {
  import opened Text

  /** The regex `/^Day \d+:/`: the word `Day`, a space, one or more digits, then `:`. */
  predicate DayColonForm(t: string) {
    StartsWith(t, "Day ") &&
    var n := DigitRun(t[4..]);
    1 <= n && 4 + n < |t| && t[4 + n] == ':'
  }

  /** The regex `/^Day \d+[-:]/`: the word `Day`, a space, one or more digits, then `-` or `:`.
      The digit run is taken greedily; since neither `-` nor `:` is a digit, backtracking
      could not find another match (see DayNumberFormIffSomeRun). */
  predicate DayNumberForm(t: string) {
    StartsWith(t, "Day ") &&
    var n := DigitRun(t[4..]);
    1 <= n && 4 + n < |t| && (t[4 + n] == '-' || t[4 + n] == ':')
  }

  /** The characters `t[lo..hi]` are all digits. */
  predicate DigitsBetween(t: string, lo: int, hi: int)
    requires 0 <= lo <= hi <= |t|
  {
    forall i :: lo <= i < hi ==> IsDigit(t[i])
  }

  /** `t` matches `/^Day \d+[-:]/` with the digit run `t[4..4 + k]`. */
  predicate DayNumberMatch(t: string, k: int) {
    StartsWith(t, "Day ") && 1 <= k && 4 + k < |t| && DigitsBetween(t, 4, 4 + k) &&
    (t[4 + k] == '-' || t[4 + k] == ':')
  }

  /** The greedy reading agrees with the regex reading: some digit run followed by `-` or `:`. */
  lemma DayNumberFormIffSomeRun(t: string)
    ensures DayNumberForm(t) <==> exists k :: DayNumberMatch(t, k)
  {
    if DayNumberForm(t) {
      var n := DigitRun(t[4..]);
      assert forall i :: 4 <= i < 4 + n ==> t[i] == t[4..][i - 4];
      assert DayNumberMatch(t, n);
    }
    if exists k :: DayNumberMatch(t, k) {
      var k :| DayNumberMatch(t, k);
      var n := DigitRun(t[4..]);
      assert forall i :: 0 <= i < k ==> t[4..][i] == t[4 + i];
      assert t[4..][k] == t[4 + k];
      assert n == k;
    }
  }

  /** The first day-header pattern adds nothing to the second: `/^Day \d+:/` is subsumed. */
  lemma DayColonSubsumed(t: string)
    ensures DayColonForm(t) ==> DayNumberForm(t)
  {
  }

  /** A day header: `### Day` at the start, or `Day <digits>` followed by `:` or `-`. */
  predicate IsDayHeader(t: string) {
    StartsWith(t, "### Day") || DayColonForm(t) || DayNumberForm(t)
  }

  /** The regex `/^(Morning|Afternoon|Evening):/`. */
  predicate TimeOfDayForm(t: string) {
    StartsWith(t, "Morning:") || StartsWith(t, "Afternoon:") || StartsWith(t, "Evening:")
  }

  /** The regex `/^\*\*(Morning|Afternoon|Evening):/`. */
  predicate BoldTimeOfDayForm(t: string) {
    StartsWith(t, "**") && TimeOfDayForm(t[2..])
  }

  /** The bold time-of-day pattern adds nothing to the plain `**` prefix test. */
  lemma BoldTimeOfDaySubsumed(t: string)
    ensures BoldTimeOfDayForm(t) ==> StartsWith(t, "**")
  {
  }

  /** A section header: `# `, `**`, `**Morning:` (and the other two) or `Morning:` (and the
      other two) at the start. */
  predicate IsSectionHeader(t: string) {
    StartsWith(t, "# ") || StartsWith(t, "**") || BoldTimeOfDayForm(t) || TimeOfDayForm(t)
  }

  /** No line matches both a day-header and a section-header pattern, so the order in which
      the two tests are made never changes the outcome. */
  lemma HeaderFormsDisjoint(t: string)
    ensures !(IsDayHeader(t) && IsSectionHeader(t))
  {
    if IsDayHeader(t) {
      if StartsWith(t, "### Day") {
        assert t[0] == '#' && t[1] == '#';
      } else {
        assert t[..4] == "Day ";
        assert t[0] == 'D';
      }
    }
  }

  /** The kind of a trimmed line. */
  datatype Tag = Blank | DayHeader | SectionHeader | Content

  /** Classifies a trimmed line; the day-header test comes first, then the section-header
      test, and every other non-empty line is content. */
  function Classify(t: string): (tag: Tag)
    ensures tag == Blank <==> t == []
    ensures tag == DayHeader <==> IsDayHeader(t)
    ensures tag == SectionHeader <==> IsSectionHeader(t)
    ensures tag == Content <==> t != [] && !IsDayHeader(t) && !IsSectionHeader(t)
  {
    HeaderFormsDisjoint(t);
    if t == [] then Blank
    else if IsDayHeader(t) then DayHeader
    else if IsSectionHeader(t) then SectionHeader
    else Content
  }

  /** Removes `prefix` from the start of `s` when it is there. */
  function DropPrefix(s: string, prefix: string): (r: string)
    ensures StartsWith(s, prefix) ==> s == prefix + r
    ensures !StartsWith(s, prefix) ==> r == s
  {
    if StartsWith(s, prefix) then s[|prefix|..] else s
  }

  /** Removes `suffix` from the end of `s` when it is there. */
  function DropSuffix(s: string, suffix: string): (r: string)
    ensures EndsWith(s, suffix) ==> s == r + suffix
    ensures !EndsWith(s, suffix) ==> r == s
  {
    if EndsWith(s, suffix) then s[..|s| - |suffix|] else s
  }

  /** The title of a day: a leading `###` and the white space after it removed, then trimmed. */
  function DayTitle(t: string): (r: string)
    ensures IsTrimmed(r)
  {
    Trim(if StartsWith(t, "###") then TrimStart(t[3..]) else t)
  }

  /** The title of a section: one leading `#` and the white space after it removed, then a
      leading `**`, then a trailing `**`, then trimmed. */
  function SectionTitle(t: string): (r: string)
    ensures IsTrimmed(r)
  {
    var unhashed := if StartsWith(t, "#") then TrimStart(t[1..]) else t;
    Trim(DropSuffix(DropPrefix(unhashed, "**"), "**"))
  }

  /** The text of an item: a leading `-` and the white space after it removed, then trimmed;
      a line without the dash is kept as it is. */
  function ItemText(t: string): (r: string)
    ensures IsTrimmed(t) ==> IsTrimmed(r)
    ensures StartsWith(t, "-") ==> |r| < |t|
  {
    if StartsWith(t, "-") then Trim(TrimStart(t[1..])) else t
  }

  /** A line as the parser sees it: blank, or a header or content line carrying its
      normalised text. */
  datatype Line = BlankLine | DayLine(title: string) | SectionLine(title: string) | ContentLine(item: string)

  /** Trims, classifies and normalises one raw line. */
  function Read(line: string): (l: Line)
    ensures l == BlankLine <==> AllSpace(line)
    ensures l.DayLine? <==> IsDayHeader(Trim(line))
    ensures l.SectionLine? <==> IsSectionHeader(Trim(line))
    ensures l.ContentLine? <==> !AllSpace(line) && !IsDayHeader(Trim(line)) && !IsSectionHeader(Trim(line))
  {
    TrimEmptyIffAllSpace(line);
    var t := Trim(line);
    match Classify(t)
    case Blank => BlankLine
    case DayHeader => DayLine(DayTitle(t))
    case SectionHeader => SectionLine(SectionTitle(t))
    case Content => ContentLine(ItemText(t))
  }

  /** A line is read as blank exactly when it holds nothing but white space. */
  lemma ReadBlank(line: string)
    ensures Read(line) == BlankLine <==> AllSpace(line)
  {
    TrimEmptyIffAllSpace(line);
  }

  /** A day-header pattern always wins: the line is read as a day, titled by `DayTitle`. */
  lemma ReadDayHeader(line: string)
    requires IsDayHeader(Trim(line))
    ensures Read(line) == DayLine(DayTitle(Trim(line)))
  {
  }

  /** A section-header pattern, on a line that is not a day header, is read as a section. */
  lemma ReadSectionHeader(line: string)
    requires IsSectionHeader(Trim(line))
    ensures Read(line) == SectionLine(SectionTitle(Trim(line)))
  {
    HeaderFormsDisjoint(Trim(line));
  }

  /** Every other non-blank line is read as content, with the item text `ItemText` gives. */
  lemma ReadContent(line: string)
    requires !AllSpace(line) && !IsDayHeader(Trim(line)) && !IsSectionHeader(Trim(line))
    ensures Read(line) == ContentLine(ItemText(Trim(line)))
  {
    TrimEmptyIffAllSpace(line);
  }

  /** Every recognised day header yields a title that starts with `Day`. */
  lemma DayTitleStartsWithDay(t: string)
    requires IsTrimmed(t) && IsDayHeader(t)
    ensures StartsWith(DayTitle(t), "Day")
  {
    if StartsWith(t, "### Day") {
      StartsWithDrop(t, "### Day", 3);
      assert "### Day"[3..] == " Day";
      var rest := t[3..];
      assert rest[0] == ' ' && rest[1] == 'D';
      TrimStartOneSpace(rest);
      StartsWithDrop(rest, " Day", 1);
      assert " Day"[1..] == "Day";
      var a := rest[1..];
      assert a[|a| - 1] == t[|t| - 1];
      TrimOfTrimmed(a);
      assert DayTitle(t) == a;
      assert StartsWith(a, "Day");
    } else {
      StartsWithShorter(t, "Day ", 3);
      assert "Day "[..3] == "Day";
      assert t[0] == 'D';
      assert !StartsWith(t, "###");
      TrimOfTrimmed(t);
      assert DayTitle(t) == t;
    }
  }

  /** The day title undoes the `### ` marker the itinerary prompt asks for. */
  lemma DayTitleOfMarked(x: string)
    requires IsTrimmed(x)
    ensures DayTitle("### " + x) == x
  {
    var t := "### " + x;
    assert t[..3] == "###";
    var rest := t[3..];
    assert rest == " " + x;
    assert rest[1..] == x;
    assert TrimStart(rest) == TrimStart(x);
    TrimOfTrimmed(x);
  }

  /** A trimmed day header without the `###` marker is its own title. */
  lemma DayTitleOfUnmarked(t: string)
    requires IsTrimmed(t) && !StartsWith(t, "###")
    ensures DayTitle(t) == t
  {
    TrimOfTrimmed(t);
  }

  /** The section title undoes the `# ` marker. */
  lemma SectionTitleOfHashed(x: string)
    requires IsTrimmed(x) && !StartsWith(x, "**") && !EndsWith(x, "**")
    ensures SectionTitle("# " + x) == x
  {
    var t := "# " + x;
    assert StartsWith(t, "#");
    assert t[1..] == " " + x;
    assert TrimStart(" " + x) == TrimStart(x) by {
      assert (" " + x)[1..] == x;
    }
    TrimOfTrimmed(x);
  }

  /** The section title undoes a pair of `**` bold markers around the whole line. */
  lemma SectionTitleOfBold(x: string)
    ensures SectionTitle("**" + x + "**") == Trim(x)
  {
    var t := "**" + x + "**";
    assert !StartsWith(t, "#") by { assert t[0] == '*'; }
    assert StartsWith(t, "**") && t[2..] == x + "**";
    assert EndsWith(x + "**", "**") && (x + "**")[..|x|] == x;
  }

  /** `#` and any white space after it are dropped before the bold markers are looked at. */
  lemma SectionTitleOfHash(w: string, x: string)
    requires AllSpace(w) && (x == [] || (!IsSpace(x[0]) && x[0] != '#'))
    ensures SectionTitle("#" + w + x) == SectionTitle(x)
  {
    var t := "#" + w + x;
    assert StartsWith(t, "#") && t[1..] == w + x;
    TrimStartSpaces(w, x);
    assert !StartsWith(x, "#");
  }

  /** An opening `**` without a closing one is dropped on its own. */
  lemma SectionTitleOfOpenBold(x: string)
    requires !EndsWith(x, "**")
    ensures SectionTitle("**" + x) == Trim(x)
  {
    var t := "**" + x;
    assert !StartsWith(t, "#") by { assert t[0] == '*'; }
    assert StartsWith(t, "**") && t[2..] == x;
  }

  /** A closing `**` without an opening one is dropped on its own, as in
      `Morning: Visit museum**`. */
  lemma SectionTitleOfClosingBold(x: string)
    requires !StartsWith(x, "#") && !StartsWith(x + "**", "**")
    ensures SectionTitle(x + "**") == Trim(x)
  {
    var t := x + "**";
    assert !StartsWith(t, "#") by { assert x != [] && t[0] == x[0]; }
    assert EndsWith(t, "**") && t[..|x|] == x;
  }

  /** A line with neither `#` nor bold markers, such as `Morning: Visit museum`, is its own
      title once trimmed. */
  lemma SectionTitleOfPlain(t: string)
    requires !StartsWith(t, "#") && !StartsWith(t, "**") && !EndsWith(t, "**")
    ensures SectionTitle(t) == Trim(t)
  {
  }

  /** The item text drops a dash and whatever white space follows it, then trims. */
  lemma ItemTextOfDash(w: string, x: string)
    requires AllSpace(w) && (x == [] || !IsSpace(x[0]))
    ensures ItemText("-" + w + x) == Trim(x)
  {
    var t := "-" + w + x;
    assert StartsWith(t, "-") && t[1..] == w + x;
    TrimStartSpaces(w, x);
  }

  /** The item text undoes a `- ` list marker. */
  lemma ItemTextOfDashed(x: string)
    requires IsTrimmed(x)
    ensures ItemText("- " + x) == x
  {
    var t := "- " + x;
    assert StartsWith(t, "-");
    assert t[1..] == " " + x;
    assert TrimStart(" " + x) == TrimStart(x) by {
      assert (" " + x)[1..] == x;
    }
    TrimOfTrimmed(x);
  }

  /** Reading undoes the `### ` marker the itinerary prompt puts before each day. */
  lemma ReadMarkedDay(x: string)
    requires IsTrimmed(x) && StartsWith(x, "Day")
    ensures Read("### " + x) == DayLine(x)
  {
    var t := "### " + x;
    assert t[..7] == "### Day" by { assert x[..3] == "Day"; }
    assert IsTrimmed(t) by { assert t[|t| - 1] == x[|x| - 1]; }
    TrimOfTrimmed(t);
    ReadDayHeader(t);
    DayTitleOfMarked(x);
  }

  /** Reading undoes the `# ` marker the itinerary prompt puts before each section. */
  lemma ReadHashedSection(x: string)
    requires x != [] && IsTrimmed(x) && !StartsWith(x, "**") && !EndsWith(x, "**")
    ensures Read("# " + x) == SectionLine(x)
  {
    var t := "# " + x;
    assert t[..2] == "# ";
    assert IsTrimmed(t) by { assert t[|t| - 1] == x[|x| - 1]; }
    TrimOfTrimmed(t);
    ReadSectionHeader(t);
    SectionTitleOfHashed(x);
  }

  /** Reading undoes the `- ` marker the itinerary prompt puts before each item. */
  lemma ReadListItem(x: string)
    requires IsTrimmed(x)
    ensures Read("- " + x) == ContentLine(x)
  {
    if x == [] {
      ReadBareDash("- ");
      assert "- " + x == "- ";
      return;
    }
    var t := "- " + x;
    assert t[0] == '-' && t[..1] == "-";
    assert IsTrimmed(t) by { assert t[|t| - 1] == x[|x| - 1]; }
    TrimOfTrimmed(t);
    assert !AllSpace(t) by { assert !IsSpace(t[0]); }
    FirstCharMismatch(t, "### Day");
    FirstCharMismatch(t, "Day ");
    FirstCharMismatch(t, "# ");
    FirstCharMismatch(t, "**");
    FirstCharMismatch(t, "Morning:");
    FirstCharMismatch(t, "Afternoon:");
    FirstCharMismatch(t, "Evening:");
    ReadContent(t);
    ItemTextOfDashed(x);
  }

  /** A dash followed by nothing but a space is read as the empty item. */
  lemma ReadBareDash(line: string)
    requires line == "- "
    ensures Read(line) == ContentLine("")
  {
    var t := "-";
    assert TrimStart(line) == line;
    assert TrimEnd(line) == TrimEnd(line[..1]) && line[..1] == t;
    assert TrimEnd(t) == t;
    assert Trim(line) == t;
    assert !AllSpace(line) by { assert !IsSpace(line[0]); }
    FirstCharMismatch(t, "### Day");
    FirstCharMismatch(t, "Day ");
    FirstCharMismatch(t, "# ");
    FirstCharMismatch(t, "**");
    FirstCharMismatch(t, "Morning:");
    FirstCharMismatch(t, "Afternoon:");
    FirstCharMismatch(t, "Evening:");
    ReadContent(line);
    assert StartsWith(t, "-") && t[1..] == [];
  }

  /** A trimmed line with no marker at all is read as an item holding the whole line. */
  lemma ReadPlainText(t: string)
    requires t != [] && IsTrimmed(t) && !IsDayHeader(t) && !IsSectionHeader(t) && !StartsWith(t, "-")
    ensures Read(t) == ContentLine(t)
  {
    TrimOfTrimmed(t);
    assert !AllSpace(t) by { assert !IsSpace(t[0]); }
    ReadContent(t);
  }
}
