# Itinerary parsing in the trip card

The trip card shows an AI-generated travel itinerary. It gets the itinerary as a list
of raw text lines and groups them with `processRawSuggestions` into days. Each day holds
sections and each section holds items. When a section is shown, `getSectionIcon` picks an
icon from keywords in its title. The title is displayed with a leading ordinal and every
`**` bold marker removed.

This project models those three pieces and proves what they guarantee:

- `text.dfy` (module `Text`) holds the JavaScript string primitives the parser relies on:
  - `trim`, with the `\s` white-space set;
  - `startsWith` and `includes`;
  - `toLowerCase` for `A`–`Z` and the Kelvin sign U+212A;
  - the `\d` digit class.
- `lines.dfy` (module `Lines`) classifies one trimmed line and normalises it:
  - each regex is a predicate;
  - `Classify` decides between blank, day header, section header and content, in the
    source's order;
  - `DayTitle`, `SectionTitle` and `ItemText` do the `replace`/`trim` chains;
  - `Read` is the whole per-line reading.
- `itinerary.dfy` (module `Itinerary`) holds the parser:
  - the state is the day list, the current-day and current-section cursors, and the
    content buffer;
  - `Step`, `Scan` and `Parse` specify one line at a time;
  - `ProcessRawSuggestions` is the imperative pass, a loop over the lines with one method
    per branch, proved to return `Parse(suggestions)`.
- `itinerary_facts.dfy` (module `ItineraryFacts`) holds what the parser guarantees:
  - blank lines;
  - the effect of each kind of line;
  - which days come out, and in which order;
  - that days before the last are final;
  - where every item goes.
- `presentation.dfy` (module `Presentation`) holds the icon choice and the displayed title.
- `round_trip.dfy` (module `RoundTrip`) covers the layout that the suggestions route asks the
  language model for: `### ` day lines, `# ` section lines, `- ` item lines. The parser
  returns exactly the days written in that layout.
- `scenarios.dfy` and `presentation_scenarios.dfy` work through concrete inputs:
  - the prompt's layout;
  - text before any section;
  - text under a day with no section;
  - the `Day 2-…` and `**Morning:**` dialect;
  - the five prompt section titles and their icons.

### The content buffer

The model follows the code of `processRawSuggestions`. Content that arrives while no
section is open goes into a buffer. The buffer is emptied into the section that is *current
at the next flush point*: a day header, a section header, or the end of the input.

- A section header does not move the buffer into the section it opens. If no section was
  open, the buffer stays, and reaches that section at the next flush point while it is
  still open.
- When no section is open, the flush does nothing. In that case a section header does not
  clear the buffer either.
- Buffered items reach the section that is open at the next flush point, after that
  section's own items.
- If no section is open at the end of the input, the buffered items are discarded.

`Scenarios.OrphanBeforeSection` is a concrete case: text that precedes the first section
header ends up *after* the item listed under that section.
`Scenarios.TextWithoutSectionIsDropped` is another: text under the last day, when no
section is opened after it, disappears. Had a section been opened later, even in a later
day, the text would have moved into it. `ItineraryFacts.ReturnedItems` states in general
which items are returned.

## Model

| member | source | states |
|---|---|---|
| Itinerary.ProcessRawSuggestions | src/components/TripCard.tsx:49-143 | The pass over all lines, followed by the final flush, returns exactly `Parse(suggestions)`. |
| Itinerary.HandleLine | src/components/TripCard.tsx:56-133 | One loop iteration leaves the state that `Step` specifies for the line as read. |
| Itinerary.FlushBuffer | src/components/TripCard.tsx:71-75 | Pushes the buffer into the current section and empties the buffer, only when a section is open and the buffer is non-empty. |
| Itinerary.OnDayHeader | src/components/TripCard.tsx:69-83 | Flushes, appends a new empty day, makes it current and clears the section cursor; the buffer is kept when nothing was flushed. |
| Itinerary.OnSectionHeader | src/components/TripCard.tsx:92-115 | Flushes, creates `Day Information` when no day is open, then appends an empty section to the current day and makes it current. |
| Itinerary.OnContent | src/components/TripCard.tsx:117-132 | Appends the item to the current section, or to the buffer when no section is open. |
| Itinerary.PushEach | src/components/TripCard.tsx:73 | Pushing items one at a time appends them all, in order, to that one section. |
| Itinerary.AppendItems | src/components/TripCard.tsx:73 | Only the chosen section of the chosen day changes, and its items gain `items` at the end. |
| Itinerary.AppendTwice | src/components/TripCard.tsx:126 | Appending `a` and then `b` is appending `a + b`. |
| Itinerary.Flush | src/components/TripCard.tsx:136-139 | The cursors stay put, the number of days is unchanged, and the buffer is empty afterwards if a section was open; with no section open nothing changes. |
| Itinerary.OpenDay | src/components/TripCard.tsx:77-80 | Adds exactly one empty day at the end, makes it current, and leaves no section current. |
| Itinerary.OpenSection | src/components/TripCard.tsx:100-112 | With no day open, the only day is `Day Information` holding the new section. Otherwise only the last day changes, by one new empty section at the end. |
| Itinerary.AddItem | src/components/TripCard.tsx:124-131 | The item goes to the end of the current section, or to the end of the buffer when no section is open. |
| Itinerary.Step | src/components/TripCard.tsx:56-133 | Every kind of line keeps the cursor invariant: the cursors point at the last day and at its last section, or are unset. |
| Itinerary.Scan | src/components/TripCard.tsx:56-133 | The state after any prefix of the input satisfies the cursor invariant. |
| Itinerary.Parse | src/components/TripCard.tsx:56-142 | The returned days are the days after the last line, with the same count, and every day but the last unchanged by the final flush. |
| Itinerary.ReadAll | src/components/TripCard.tsx:56-57 | Every raw line is read independently, in order. |
| Lines.Classify | src/components/TripCard.tsx:58-92 | Blank exactly for the empty trimmed line. Day header exactly when a day pattern matches. Section header exactly when no day pattern and some section pattern matches. Content otherwise. |
| Lines.DayNumberFormIffSomeRun | src/components/TripCard.tsx:66 | The greedy digit run matches `/^Day \d+[-:]/` exactly when some digit run followed by `-` or `:` does. |
| Lines.DayColonSubsumed | src/components/TripCard.tsx:65-66 | Every line matching `/^Day \d+:/` also matches `/^Day \d+[-:]/`. |
| Lines.BoldTimeOfDaySubsumed | src/components/TripCard.tsx:88-89 | Every line matching `/^\*\*(Morning\|Afternoon\|Evening):/` already starts with `**`. |
| Lines.HeaderFormsDisjoint | src/components/TripCard.tsx:63-90 | No line is both a day header and a section header, so the order of the two tests does not matter. |
| Lines.DayTitle | src/components/TripCard.tsx:77 | The day title is trimmed. |
| Lines.DayTitleStartsWithDay | src/components/TripCard.tsx:63-77 | Every day title starts with `Day`. |
| Lines.DayTitleOfMarked | src/components/TripCard.tsx:77 | `### x`, with `x` trimmed, has title `x`. |
| Lines.DayTitleOfUnmarked | src/components/TripCard.tsx:77 | A trimmed line not starting with `###` is its own title. |
| Lines.SectionTitle | src/components/TripCard.tsx:105-109 | The section title is trimmed. |
| Lines.SectionTitleOfHashed | src/components/TripCard.tsx:105-109 | `# x` has title `x` when `x` is trimmed and has no bold marker at either end. |
| Lines.SectionTitleOfBold | src/components/TripCard.tsx:105-109 | `**x**` has title `x`, trimmed. |
| Lines.SectionTitleOfHash | src/components/TripCard.tsx:105-109 | `#` and the white space after it are dropped; the rest, unless it starts with another `#`, gets the title it would get on its own. |
| Lines.SectionTitleOfOpenBold | src/components/TripCard.tsx:105-109 | `**x`, with `x` not ending in `**`, has title `x`, trimmed. |
| Lines.SectionTitleOfClosingBold | src/components/TripCard.tsx:105-109 | `x**`, not starting with `#` or `**`, has title `x`, trimmed. |
| Lines.SectionTitleOfPlain | src/components/TripCard.tsx:89-109 | A line with no leading `#`, no leading `**` and no trailing `**`, such as `Morning: Visit museum`, is its own title once trimmed. |
| Lines.ItemText | src/components/TripCard.tsx:120-122 | The item of a trimmed line is trimmed, and a line starting with `-` always loses at least that dash. |
| Lines.ItemTextOfDash | src/components/TripCard.tsx:120-121 | A dash followed by any run of white space and then `x` gives item `x`, trimmed. |
| Lines.ItemTextOfDashed | src/components/TripCard.tsx:120-122 | `- x`, with `x` trimmed, is item `x`. |
| Lines.Read | src/components/TripCard.tsx:57-122 | A line is blank exactly when all white space, a day line exactly when its trimmed form is a day header, a section line exactly when it is a section header, and content otherwise. |
| Lines.ReadBlank | src/components/TripCard.tsx:57-58 | A line is skipped exactly when it holds only white space. |
| Lines.ReadDayHeader | src/components/TripCard.tsx:63-83 | A line whose trimmed form is a day header is read as a day with the normalised title. |
| Lines.ReadSectionHeader | src/components/TripCard.tsx:86-115 | A line whose trimmed form is a section header, and not a day header, is read as a section with the normalised title. |
| Lines.ReadContent | src/components/TripCard.tsx:117-122 | Any other non-blank line is read as content with the normalised item text. |
| Lines.ReadMarkedDay | src/components/TripCard.tsx:63-77 | `### Day…` is read as a day titled by the text after the marker. |
| Lines.ReadHashedSection | src/components/TripCard.tsx:86-109 | `# x` is read as section `x`. |
| Lines.ReadListItem | src/components/TripCard.tsx:117-122 | `- x`, with `x` trimmed and possibly empty, is read as item `x`. |
| Lines.ReadBareDash | src/components/TripCard.tsx:117-122 | The line `- ` is read as the empty item. |
| Lines.ReadPlainText | src/components/TripCard.tsx:117-122 | Plain text that matches no header and has no dash is read as itself. |
| Text.Trim | src/components/TripCard.tsx:57 | The result has no white space at either end. |
| Text.TrimKeepsMiddle | src/components/TripCard.tsx:57 | The result is a substring of the input with only white space on either side. |
| Text.TrimEmptyIffAllSpace | src/components/TripCard.tsx:58 | The trimmed line is empty exactly when the line is all white space. |
| Text.TrimStartSpaces | src/components/TripCard.tsx:121 | The `\s*` after a marker removes a whole run of white space and stops at the first other character. |
| Text.TrimIdempotent | src/components/TripCard.tsx:77 | Trimming an already trimmed title changes nothing. |
| Text.ContainsIffOccurs | src/components/TripCard.tsx:147-160 | `includes` holds exactly when the word occurs at some position. |
| Text.ToLower | src/components/TripCard.tsx:146 | The length is kept and each character is lower-cased on its own. |
| Text.ToLowerIdempotent | src/components/TripCard.tsx:146 | Lower-casing twice is lower-casing once. |
| Text.DigitRun | src/components/TripCard.tsx:65-66 | The greedy `\d+` run consists of digits and is followed by a non-digit or the end. |
| ItineraryFacts.BlankLineChangesNothing | src/components/TripCard.tsx:57-58 | A white-space-only line changes neither the days, nor the cursors, nor the buffer. |
| ItineraryFacts.BlankInputYieldsNoDays | src/components/TripCard.tsx:49-143 | Input of blank lines only returns no days. |
| ItineraryFacts.DayHeaderAppendsOneDay | src/components/TripCard.tsx:69-83 | A day header adds exactly one empty day at the end and leaves earlier days alone, apart from the flush into the last one. |
| ItineraryFacts.SectionHeaderAppendsOneSection | src/components/TripCard.tsx:92-115 | A section header adds exactly one section, to the current day or to a new `Day Information` day. The buffer survives it when no section was open. |
| ItineraryFacts.ContentLineAddsOneItem | src/components/TripCard.tsx:117-132 | A content line adds one item, to the open section or else to the buffer. |
| ItineraryFacts.FlushDays | src/components/TripCard.tsx:71-75 | A flush changes the days only by appending the buffer to the current section. |
| ItineraryFacts.EndOfInputFlush | src/components/TripCard.tsx:135-142 | The returned days are the scanned days plus the buffer in the open section. With no section open, the buffer is dropped. |
| ItineraryFacts.StepTitles | src/components/TripCard.tsx:56-133 | Only a day header, or a section header before any day, adds a day title. |
| ItineraryFacts.DaysFollowHeaders | src/components/TripCard.tsx:56-133 | The day titles after a scan are the day-header titles in input order. They are preceded by `Day Information` exactly when a section header comes before every day header. |
| ItineraryFacts.ParsedDayTitles | src/components/TripCard.tsx:49-143 | The same holds for the days returned. |
| ItineraryFacts.DayCount | src/components/TripCard.tsx:49-143 | One day per day header, plus one when a section comes before any day. |
| ItineraryFacts.SyntheticDayComesFirst | src/components/TripCard.tsx:100-103 | When a section header comes before any day header, the first returned day is `Day Information`. |
| ItineraryFacts.NoDayHeaderTitles | src/components/TripCard.tsx:63-67 | There are no day-header titles exactly when no line is a day header. |
| ItineraryFacts.SectionBeforeAnyDayIffSomeLine | src/components/TripCard.tsx:100-103 | The recursive test agrees with "some section line has no day line before it". |
| ItineraryFacts.StepKeepsEarlierDays | src/components/TripCard.tsx:56-133 | A line never removes a day and never changes any day but the last. |
| ItineraryFacts.EarlierDaysAreFinal | src/components/TripCard.tsx:56-133 | A day that is not the last one after some prefix of the input stays exactly the same until the end. |
| ItineraryFacts.FlushKeepsEarlierDays | src/components/TripCard.tsx:135-139 | The final flush only touches the last day. |
| ItineraryFacts.ReturnedEarlierDays | src/components/TripCard.tsx:49-143 | Every day that is not the last after some prefix is returned exactly as it was then. |
| ItineraryFacts.TitlesOfAppend | src/components/TripCard.tsx:73 | Pushing items leaves every day title unchanged. |
| ItineraryFacts.SectionItemsOfLast | src/components/TripCard.tsx:126 | Appending to the last section appends to the day's items in document order. |
| ItineraryFacts.AllItemsOfAppend | src/components/TripCard.tsx:73 | Appending to the current section appends to the document-order item list. |
| ItineraryFacts.FlushPlacesNothing | src/components/TripCard.tsx:71-75 | A flush moves items from the buffer into the days without creating or losing any. |
| ItineraryFacts.OpenDayPlacesNothing | src/components/TripCard.tsx:77-80 | Opening a day moves no item. |
| ItineraryFacts.OpenSectionPlacesNothing | src/components/TripCard.tsx:100-112 | Opening a section moves no item. |
| ItineraryFacts.AddItemPlacesItem | src/components/TripCard.tsx:124-131 | A content line places exactly its one item. |
| ItineraryFacts.StepPlacesItem | src/components/TripCard.tsx:56-133 | Each line places its item if it is content, and nothing otherwise. |
| ItineraryFacts.EveryItemPlacedOnce | src/components/TripCard.tsx:56-133 | After a scan, the items in the days plus the buffer are exactly the content items, as a multiset. |
| ItineraryFacts.ReturnedItems | src/components/TripCard.tsx:135-142 | The returned items plus the buffer lost at the end (when no section is open) are exactly the content items, as a multiset. |
| Presentation.SectionIcon | src/components/TripCard.tsx:145-163 | With no icon, the title does not contain `transportation`. |
| Presentation.SectionIconByKeywords | src/components/TripCard.tsx:145-163 | The icon is that of the first keyword group, in the fixed priority order, with a keyword in the lower-cased title; there is none when no keyword occurs. |
| Presentation.SectionIconIgnoresCase | src/components/TripCard.tsx:146 | Upper and lower case in the title give the same icon. |
| Presentation.AttractionsWin | src/components/TripCard.tsx:147-149 | `attractions` or `landmarks` anywhere gives the ticket icon, whatever else the title holds. |
| Presentation.NoKeywordNoIcon | src/components/TripCard.tsx:162 | A title with none of the nine keywords gets no icon. |
| Presentation.StripOrdinal | src/components/TripCard.tsx:264 | The result is never longer than the title. |
| Presentation.StripOrdinalOfNumbered | src/components/TripCard.tsx:264 | For `<digits>.` followed by text, what remains is that text without its leading white space. |
| Presentation.StripOrdinalOfUnnumbered | src/components/TripCard.tsx:264 | A title without a leading number and full stop is kept. |
| Presentation.RemoveBold | src/components/TripCard.tsx:264 | The result has no `**` pair. A first character other than `*` is kept. |
| Presentation.RemoveBoldKeepsText | src/components/TripCard.tsx:264 | Every character other than `*` is kept, in order. |
| Presentation.RemoveBoldIdentityIff | src/components/TripCard.tsx:264 | The title is unchanged exactly when it has no `**` pair. |
| Presentation.RemoveBoldConcat | src/components/TripCard.tsx:264 | A split after a character other than `*` cuts no pair. |
| Presentation.RemoveBoldOfWrapped | src/components/TripCard.tsx:264 | `**x**` is shown as `x`. |
| Presentation.RemoveBoldOfInner | src/components/TripCard.tsx:264 | A single inner `**` is removed and the rest kept. |
| Presentation.RemoveBoldIdempotent | src/components/TripCard.tsx:264 | Removing markers twice is removing them once. |
| Presentation.DisplayTitle | src/components/TripCard.tsx:264 | The displayed title has no `**` and is no longer than the title. |
| Presentation.DisplayTitleKeepsText | src/components/TripCard.tsx:264 | The displayed title keeps every character other than `*` of the title after its ordinal. |
| Presentation.DisplayTitleOfPlain | src/components/TripCard.tsx:264 | A title with no ordinal and no `**` is displayed unchanged. |
| Presentation.StripOrdinalOfNumberedBold | src/components/TripCard.tsx:264 | `<digits>. **x**` loses exactly the ordinal and the one space. |
| Presentation.DisplayTitleOfNumberedBold | src/components/TripCard.tsx:264 | `<digits>. **x**` is displayed as `x`. |
| RoundTrip.ParseRender | src/app/api/suggestions/route.ts:23-60 | Days written in the prompt's layout are parsed back to exactly those days, provided titles and items are trimmed and section titles carry no bold marker. |
| RoundTrip.ScanRender | src/app/api/suggestions/route.ts:23-60 | Scanning the rendered days rebuilds them, with an empty buffer. |
| RoundTrip.RunDay | src/app/api/suggestions/route.ts:25-41 | The lines of one day append exactly that day. |
| RoundTrip.RunSections | src/app/api/suggestions/route.ts:27-41 | The lines of a day's sections append exactly those sections to the current day. |
| RoundTrip.RunSection | src/app/api/suggestions/route.ts:27-30 | The lines of one section append exactly that section. |
| RoundTrip.RunItems | src/components/TripCard.tsx:117-131 | `- ` item lines under an open section append exactly those items to it. |
| RoundTrip.RunDayHeader | src/components/TripCard.tsx:69-83 | A `### ` line with an empty buffer opens exactly that day. |
| RoundTrip.RunSectionHeader | src/components/TripCard.tsx:92-115 | A `# ` line with an empty buffer opens exactly that section. |
| RoundTrip.RunAppend | src/components/TripCard.tsx:56 | Running two blocks of lines is running the first, then the second. |
| RoundTrip.ScanIsRun | src/components/TripCard.tsx:56 | Scanning is running from the initial state. |
| Scenarios.PromptLayoutItinerary | src/app/api/suggestions/route.ts:25-36 | One day in the prompt's layout, with two sections and three items, parses to that day. |
| Scenarios.OrphanBeforeSection | src/components/TripCard.tsx:92-139 | Text before the first section lands in that section only at the end of input, after the section's own item, under `Day Information`. |
| Scenarios.TextWithoutSectionIsDropped | src/components/TripCard.tsx:124-139 | Text under a day that opens no section is lost when no section is opened afterwards (here the input ends); otherwise it would move into the next section opened, even in a later day. |
| Scenarios.DashedDayAndBoldTime | src/components/TripCard.tsx:63-109 | `Day 2-Exploring` keeps its whole text as title, and `**Morning:** …` becomes a section titled `Morning:** …`. |
| PresentationScenarios.IconOfAttractions | src/components/TripCard.tsx:147-149 | The prompt's first section gets the ticket icon. |
| PresentationScenarios.IconOfFood | src/components/TripCard.tsx:150-152 | The food section gets the cake icon. |
| PresentationScenarios.IconOfCulture | src/components/TripCard.tsx:153-155 | The cultural section gets the people icon, although its title holds every letter of the higher-priority keyword `restaurants`. |
| PresentationScenarios.IconOfKelvinLandmarks | src/components/TripCard.tsx:146-149 | A title spelling `LANDMARKS` with the Kelvin sign for `K` gets the ticket icon, since that sign lower-cases to `k`. |
| PresentationScenarios.IconOfAreas | src/components/TripCard.tsx:156-158 | The accommodation section gets the building icon. |
| PresentationScenarios.IconOfTransport | src/components/TripCard.tsx:159-161 | The transport section gets the truck icon. |
| PresentationScenarios.DisplayOfTimeOfDay | src/components/TripCard.tsx:264 | `Morning:** Visit museum` is displayed as `Morning: Visit museum`. |

## Left out

- The `console.log` calls in `processRawSuggestions` are output only and are not modelled.
- The React rendering is not modelled: JSX, motion, date formatting and the icon components with their colour classes. Only the icon choice and the displayed title string are modelled.
- The route that produces the lines is treated as the input `suggestions`. Its OpenAI call, its `split("\n")` and its blank-line filter are not modelled.
- The unused `index` argument of the `forEach` callback is not modelled.
- `currentDay` and `currentSection` are object references in the source. Here they are indices into the day list. `Itinerary.Valid` ties them to the last day and to that day's last section, which are the only objects the source ever makes current, so aliasing and in-place mutation through them are not modelled separately.
- Strings are sequences of characters. UTF-16 surrogate pairs are not distinguished.
- `Text.ToLower`: only `A`–`Z` and the Kelvin sign U+212A (which becomes `k`) are lower-cased; other characters are kept. JavaScript's `toLowerCase` also lower-cases other non-ASCII letters, always to non-ASCII text, except U+0130, which becomes `i` followed by U+0307 (two code units, so `|r| == |s|` holds only in the model). Neither kind of text can be part of a match of the nine ASCII keywords, none of which ends in `i`, so the icon is unaffected; the lower-cased string itself is not modelled for those characters.
- `Presentation.SectionIcon`: its own contract states only the `transportation` case of "no icon". The full priority order is stated by `Presentation.SectionIconByKeywords`.
- `Presentation.StripOrdinal`: its own contract only bounds the length. The numbered and unnumbered cases are stated by `Presentation.StripOrdinalOfNumbered` and `Presentation.StripOrdinalOfUnnumbered`.
- `Lines.DayTitle`: its own contract states only that the title is trimmed. The title of each header form is stated by `Lines.DayTitleOfMarked` and `Lines.DayTitleOfUnmarked`.
- `Lines.SectionTitle`: its own contract states only that the title is trimmed. The title is stated by lemmas for each form: `Lines.SectionTitleOfHash` removes `#` and the white space after it, and `Lines.SectionTitleOfBold`, `Lines.SectionTitleOfOpenBold`, `Lines.SectionTitleOfClosingBold` and `Lines.SectionTitleOfPlain` cover the four combinations of a leading and a trailing `**`. No lemma covers a line whose text after `#` and its white space starts with another `#`, such as `# # Tips`.
- `Lines.ItemText`: its own contract states only that the item is trimmed and shorter than a dashed line. The item of every line starting with `-` is stated by `Lines.ItemTextOfDash`, and that of a line without the dash by `Lines.ReadPlainText`.
- `RoundTrip.ParseRender` holds only for itineraries the layout can carry: trimmed titles and items, day titles starting with `Day`, and section titles that are non-empty (a bare `# ` trims to `#`, which is read as content) and have no leading or trailing `**`. Empty items are allowed: `- ` is read back as the empty item. Other titles are changed by the parser's normalisation.
