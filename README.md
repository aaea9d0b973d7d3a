# Coding-Day-Recap core, modelled in Dafny

Coding-Day-Recap turns a day of AI-assisted coding into a one-page HTML recap.
It has three scripts with deterministic logic, and the model covers each:

- **`generate_html.py` (module `DaySummary`)** renders the day's JSON into the page:
  - the stats line, the Day Map lanes and hour axis, the journal cards, the workspace bars and the agent list;
  - then the `{{KEY}}` substitution into the page template.
- **`pre_extract.py` (module `PreExtract`)** builds the text digest of a day's sessions:
  - it keeps the sessions in the requested time range that are not subagent or teammate sessions, sorted by start time;
  - it keeps the meaningful user and assistant messages of each session;
  - it samples START/MIDDLE/END windows from long sessions;
  - it writes one block per session.
- **`browser_history.py` (module `BrowserHistory`)** writes the visits of one day as lines:
  - it converts Chromium timestamps;
  - it labels each visit's duration and sanitises its title and URL;
  - it adds a GAP marker between visits that are 30 minutes or more apart.

`Text` holds the Python string and number behaviour the scripts rely on:
- `str(int)`, `strip`, `rstrip`, `split`, `join` and `replace`;
- clamped slicing, `f"{s:>w}"`/`f"{s:<w}"` padding, and half-even `round`.

`Wrappers` holds `Option`.

How the model represents the data:
- **Units.** Times of day are whole minutes in `DaySummary` and whole microseconds in `BrowserHistory`. Epoch times are integer milliseconds in `PreExtract`. The Python code computes durations in binary floating point; the model computes them exactly (see "## Left out").
- **Percentages.** They are whole hundredths of a percent, rounded half-even from the exact ratio.
- **Parsed data is typed.** Parsed JSON and log entries are datatypes, and a missing optional key is an `Option`.
- **Loops are methods.** Each script loop that appends to a list or string is a method with a loop. Its postcondition ties its result to a specification function, and lemmas about that function state the properties.

Where the specification and the code disagree, the model follows the code:
- **Extra ":" fields.** `parse_time` ignores fields after the second one, so "9:30:15" is 9:30 (`DaySummary.ParseTimeOfThreeFields`). It does not demand exactly one separator.
- **Empty timeline and zero span.** The code has neither the `[0, 23]` default for an empty timeline nor the "extend the end by one hour" guard.
  - `min()` of an empty list raises, and a zero span divides by zero. Both are the precondition `DaySummary.Renderable`.
  - A single item whose start and end are the same full hour does give a zero span (`DaySummary.ZeroSpanExample`).
- **Replacement order.** The replacement loop runs in table order and replaces every occurrence of each placeholder. A placeholder inside an earlier value is filled by a later step (`DaySummary.FillOrderMatters`). The order therefore matters.
- **Sampling threshold.** `sample_entries`'s docstring says "< 20 entries" for a full session, but the code keeps sessions of up to 20 messages whole.
- **Gap threshold.** The comment on the gap threshold says "more than" 30 minutes, but the code tests `>=`.

## Model

| member | source | states |
|---|---|---|
| DaySummary.ResolveColor | scripts/generate_html.py:47-65 | a known key maps to its table entry and an unknown key to `var(--key)`; both are `var(--key)` |
| DaySummary.ResolveBorder | scripts/generate_html.py:56-69 | a known key gives its table entry; the result is `var(--border)` exactly for an unknown key or "text-muted" |
| DaySummary.ParseTimeOfFields | scripts/generate_html.py:72-74 | two digit fields around a colon parse to hours·60 + minutes, with hours not capped at 23 |
| DaySummary.ParseTimeOfThreeFields | scripts/generate_html.py:72-74 | a third ":" field is ignored |
| DaySummary.ParseTimeOfTimeText | scripts/generate_html.py:72-74 | any "H:MM" text with m < 60 parses back to h·60 + m |
| DaySummary.ParseTimeIgnoresPlus | scripts/generate_html.py:73 | any number of trailing '+' leaves the result unchanged |
| DaySummary.ParseTimeNeedsColon | scripts/generate_html.py:73-74 | a string without ':' has no second field and fails (the source raises) |
| DaySummary.RoundQuarters | scripts/generate_html.py:82 | the leftover minutes round to the nearest quarter hour count, never a tie |
| DaySummary.FormatDuration | scripts/generate_html.py:77-90 | the label starts with '~' exactly below ten hours |
| DaySummary.FormatDurationBands | scripts/generate_html.py:77-90 | "all day" exactly from 10 h on; below 1 h it is "~{minutes}min" |
| DaySummary.FormatDurationNearestQuarter | scripts/generate_html.py:80-88 | between 1 h and 10 h the label is that of the quarter-hour count nearest to the duration |
| DaySummary.FormatDurationExamples | scripts/generate_html.py:80-88 | 150 min is "~2.5h" and 119 min is "~2h" |
| DaySummary.SlotOf | scripts/generate_html.py:232-237 | an item's start and end, the end being start + 15 min without `timeEnd`; None exactly when a time fails to parse |
| DaySummary.SlotsOf | scripts/generate_html.py:234-237 | one slot per item |
| DaySummary.SlotsOfEach | scripts/generate_html.py:234-237 | slot i is item i's slot, and a failure comes from some item |
| DaySummary.StartsEndsEach | scripts/generate_html.py:232-237 | the start and end lists hold each slot's start and end, in order |
| DaySummary.MinMaxOf | scripts/generate_html.py:239-240 | `min` and `max` are members of the list and bound every element |
| DaySummary.AxisBounds | scripts/generate_html.py:239-241 | the axis start is the floor of the earliest start and the axis end the ceiling of the latest end, in whole hours |
| DaySummary.AxisSpanAtLeastOneHour | scripts/generate_html.py:239-241 | when some end lies after some start, the span is at least one hour |
| DaySummary.PointEventSpan | scripts/generate_html.py:237-241 | a timeline with a point event has a span of at least one hour |
| DaySummary.ZeroSpanExample | scripts/generate_html.py:239-241 | a single zero-length item at a full hour gives a zero span; the code has no guard |
| DaySummary.OneSlotAxis | scripts/generate_html.py:239-240 | for one slot the axis is its start's floor and its end's ceiling |
| DaySummary.ZeroSpanSlots | scripts/generate_html.py:235-237 | an item whose end equals its start gets a zero-length slot |
| DaySummary.ComputeAxis | scripts/generate_html.py:232-241 | the loop that collects starts and ends yields the axis bounds, and every slot lies within them |
| DaySummary.LaneWithinTrack | scripts/generate_html.py:109-110 | for a slot within a positive axis, left ≥ 0% and left + width ≤ 100.01% after the two roundings |
| DaySummary.LaneOf | scripts/generate_html.py:109-120 | left and width are the rounded ratios; "min-width:14px" exactly when width < 2%; name is shortName or the title's first 15 characters; delay is 0.05·i |
| DaySummary.LanesOnTrack | scripts/generate_html.py:104-120 | on the axis `main` computes, every lane lies on its track |
| DaySummary.BuildLanes | scripts/generate_html.py:104-130 | one lane per item, in input order, never re-sorted |
| DaySummary.TicksShape | scripts/generate_html.py:133-139 | span + 1 ticks from 0% to 100%, tick k labelled with hour start + k zero-padded to two digits |
| DaySummary.BuildAxis | scripts/generate_html.py:133-139 | the loop emits the ticks of `range(axis_start, axis_end + 1)` in order |
| DaySummary.StatPartsShape | scripts/generate_html.py:93-101 | n stats give 2n − 1 parts: stat k at 2k, a separator between each pair, n − 1 separators in all |
| DaySummary.StatGold | scripts/generate_html.py:98-100 | a stat carries the "gold" class exactly when it is highlighted |
| DaySummary.BuildStats | scripts/generate_html.py:93-101 | the loop yields the joined parts |
| DaySummary.CardSpanning | scripts/generate_html.py:147-175 | a card has the " spanning" class exactly when some tag text is "spanned all day" |
| DaySummary.FindSpanning | scripts/generate_html.py:147-151 | the early-exit tag scan finds the spanning class |
| DaySummary.BuildTags | scripts/generate_html.py:168-172 | the tag rows, one per tag, in order |
| DaySummary.BuildCard | scripts/generate_html.py:145-185 | the card loop and branches build the card `CardHtml` specifies, whose spanning class `CardSpanning` characterises |
| DaySummary.BuildJournal | scripts/generate_html.py:142-186 | one card per item, in input order |
| DaySummary.BuildWorkspaces | scripts/generate_html.py:189-201 | one row per workspace, in order, with both colours resolved |
| DaySummary.BuildAgents | scripts/generate_html.py:204-215 | one item per agent, in order |
| DaySummary.FillAllWithoutTokens | scripts/generate_html.py:259-260 | a template holding none of the placeholders comes out unchanged |
| DaySummary.FillStep | scripts/generate_html.py:259-260 | each step replaces every occurrence of its `{{KEY}}` and keeps the text between occurrences, other `{{…}}` text included |
| DaySummary.FillOrderMatters | scripts/generate_html.py:244-260 | a placeholder inside an earlier value is filled by a later step |
| DaySummary.FillTemplate | scripts/generate_html.py:259-260 | the replacement loop applies the table in order |
| DaySummary.TableKeys | scripts/generate_html.py:244-257 | the table names the twelve keys, each once, in the code's order |
| DaySummary.BuildFragments | scripts/generate_html.py:249-254 | the six fragments of the table are the `build_*` outputs |
| DaySummary.Render | scripts/generate_html.py:231-260 | `main` after input: axis, fragments, then substitution, for a renderable timeline |
| PreExtract.SelectedSessionsMembers | scripts/pre_extract.py:64-78 | a session is kept exactly when started_at is in [from, until] inclusive, no path component is "subagents", and the title starts with no skip prefix |
| PreExtract.SortByStartSorted | scripts/pre_extract.py:81 | the sort orders sessions by started_at ascending |
| PreExtract.SortByStartPermutes | scripts/pre_extract.py:81 | the sort is a permutation |
| PreExtract.SortByStartStable | scripts/pre_extract.py:81 | sessions with equal started_at keep their relative order, as `list.sort` promises |
| PreExtract.InsertKeepsSorted | scripts/pre_extract.py:81 | inserting into a sorted list keeps it sorted |
| PreExtract.InsertIsStable | scripts/pre_extract.py:81 | an inserted session goes after those with the same key |
| PreExtract.SortSessions | scripts/pre_extract.py:81 | the insertion loop computes the stable sort |
| PreExtract.DiscoverSessions | scripts/pre_extract.py:44-82 | no listing gives ([], 0); otherwise the sorted kept sessions, and dropped = total − kept |
| PreExtract.DiscoverSessionsSpec | scripts/pre_extract.py:64-82 | the result is sorted, holds exactly the selected sessions, and is no longer than the listing |
| PreExtract.FilterMapFrom | scripts/pre_extract.py:121-154 | the filter keeps at most one output per input, each produced by some input |
| PreExtract.FilterMapEmpty | scripts/pre_extract.py:143-151 | nothing is kept exactly when every input is dropped |
| PreExtract.CollectBlocks | scripts/pre_extract.py:141-149 | the block loop keeps the stripped non-blank text blocks and the tool names (default "unknown"), in block order |
| PreExtract.ExtractMeaningful | scripts/pre_extract.py:118-154 | the entry loop keeps each entry's classification in input order |
| PreExtract.UserEntryKept | scripts/pre_extract.py:128-137 | a user entry with string content is kept exactly when non-blank and its stripped text starts with no system prefix; the text is stripped |
| PreExtract.AssistantEntryKept | scripts/pre_extract.py:139-152 | an assistant entry is kept exactly when some text block is non-blank |
| PreExtract.OtherEntryDropped | scripts/pre_extract.py:128-139 | any other entry type or role is dropped |
| PreExtract.BlockTextsTidy | scripts/pre_extract.py:144-147 | every kept block text is non-empty and has no surrounding whitespace |
| PreExtract.ClassifyTidy | scripts/pre_extract.py:128-152 | a kept message's text is non-empty and stripped at both ends |
| PreExtract.MessagesTidy | scripts/pre_extract.py:118-154 | no more messages than entries, each tidy |
| PreExtract.SliceSize | scripts/pre_extract.py:174 | ss = min(10, max(sample_size, n // 20)) lies in 1..10 |
| PreExtract.SampleEntries | scripts/pre_extract.py:157-199 | the sampling follows the branches for n ≤ 20, ≤ 60, ≤ 150 and larger |
| PreExtract.SampleLarge | scripts/pre_extract.py:193-199 | the loop over the marks n/4, n/2 and 3n/4 adds the EARLY, MIDDLE and LATE windows between START and END |
| PreExtract.SampledCount | scripts/pre_extract.py:170-199 | 1 section for n ≤ 20, 2 for 21–60, 3 for 61–150, 5 beyond |
| PreExtract.SampledShortWhole | scripts/pre_extract.py:170-171 | a short session is one "FULL SESSION" section holding all of it |
| PreExtract.StartEndWindows | scripts/pre_extract.py:176-188 | START is the first ss messages and END the last ss |
| PreExtract.WindowStartsDisjoint | scripts/pre_extract.py:182-198 | the window starts begin at 0 and end at n − ss; windows never overlap or run past the end; MIDDLE starts at ≥ ss |
| PreExtract.SampledWindows | scripts/pre_extract.py:174-199 | every section of a long session is the ss consecutive messages at its window start |
| PreExtract.Truncate | scripts/pre_extract.py:202-206 | unchanged when ≤ max_len; otherwise the right-stripped first max_len characters plus "..." |
| PreExtract.TruncateBound | scripts/pre_extract.py:202-206 | the result is at most max_len + 3 characters |
| PreExtract.FormatEntry | scripts/pre_extract.py:242-252 | 2 lines for a user or a tool-less assistant, 3 with tools; the last line is blank |
| PreExtract.FormatEntryTools | scripts/pre_extract.py:247-251 | the "[used tools: …]" line is present exactly when tools is non-empty |
| PreExtract.ClockTime | scripts/pre_extract.py:255-260 | "??:??" for a missing (zero) time, otherwise the local clock text |
| PreExtract.FormatSession | scripts/pre_extract.py:209-239 | the header, then the notice or every sampled section's lines, joined by newlines |
| PreExtract.WriteSections | scripts/pre_extract.py:233-237 | each section's label, a blank line, then its messages' lines |
| PreExtract.SessionTitleBound | scripts/pre_extract.py:212-221 | the title line holds at most 80 characters of the title |
| PreExtract.SessionNoContent | scripts/pre_extract.py:227-229 | "[NO MEANINGFUL CONTENT]" follows the header exactly when there are no messages |
| PreExtract.WorkspaceOf | scripts/pre_extract.py:263-269 | the first truthy cwd, or "unknown" when there is none |
| PreExtract.WriteOutputLines | scripts/pre_extract.py:272-292 | the digest's header, a block per session written (or the notice), and its closing lines |
| PreExtract.DigestLinesCount | scripts/pre_extract.py:274-292 | 6 + 3 lines plus 3 per session written, or 1 notice line |
| PreExtract.HourOfLabel | scripts/pre_extract.py:346-348 | no hour exactly for a label without a space; an hour field holds no space or colon |
| PreExtract.HourOfLabelReadsHour | scripts/pre_extract.py:346-348 | "DATE HH:MM" gives back HH |
| BrowserHistory.UnixMicros | scripts/browser_history.py:41-49 | converting back to Chromium time returns the timestamp |
| BrowserHistory.ChromiumRoundTrip | scripts/browser_history.py:41-49 | adding and then subtracting the offset returns the Unix microseconds |
| BrowserHistory.ChromiumOffsetInDays | scripts/browser_history.py:20-21 | the offset is 369 years with 89 leap days, in microseconds |
| BrowserHistory.DurationReadingAsWritten | scripts/browser_history.py:56-63 | seconds only below 60 s, minutes and seconds below 60 min, hours and minutes otherwise |
| BrowserHistory.FormatDurationAsWritten | scripts/browser_history.py:52-55 | "0s" for a missing, zero or negative duration |
| BrowserHistory.NinetySecondsAsWritten | scripts/browser_history.py:59-61 | as written, 90 s is labelled 2 m 30 s, which stands for 150 s |
| BrowserHistory.DurationReading | scripts/browser_history.py:52-63 | corrected: the label stands for a duration within half a unit of the real one, with fields below 60 |
| BrowserHistory.ReadingUnits | scripts/browser_history.py:57-63 | corrected: seconds below about a minute, minutes and seconds below about an hour, hours and minutes from an hour on |
| BrowserHistory.NinetySeconds | scripts/browser_history.py:59-61 | corrected: 90 s is 1 m 30 s |
| BrowserHistory.FormatDurationCorrected | scripts/browser_history.py:52-63 | corrected: the intended label, "0s" for a missing, zero or negative duration; its read-back is `FormatDurationReadsBack` |
| BrowserHistory.ParseReadingText | scripts/browser_history.py:57-63 | every label text reads back as its fields |
| BrowserHistory.FormatDurationReadsBack | scripts/browser_history.py:52-63 | corrected: the label reads back as fields within half a unit of the duration |
| BrowserHistory.FormatDurationAsWrittenReadsBack | scripts/browser_history.py:52-63 | as written: the label reads back as the separately rounded fields |
| BrowserHistory.AsWrittenCarries | scripts/browser_history.py:57-61 | as written: 59.6 s gives "60s" and 3599.6 s gives "60m60s" |
| BrowserHistory.ShortReadingsAgree | scripts/browser_history.py:57-58 | below 59.5 s the label as written and the corrected label are the same rounded seconds |
| BrowserHistory.NinetySecondLabels | scripts/browser_history.py:59-61 | 90 s is "2m30s" as written and "1m30s" corrected |
| BrowserHistory.PadFiveToEight | scripts/browser_history.py:137 | `:>8` puts three spaces before a five-character label |
| BrowserHistory.ShortVisitLinesAgree | scripts/browser_history.py:120-137 | a visit under 59.5 s gets the same line from the code as written and from `VisitLineCorrected` |
| BrowserHistory.NinetySecondVisitLines | scripts/browser_history.py:120-137 | a 90-second visit's line shows "   2m30s" in its duration column; `VisitLineCorrected` shows "   1m30s" |
| BrowserHistory.GapLabel | scripts/browser_history.py:126-128 | an hour or more is shown in hours |
| BrowserHistory.GapLabelMinutes | scripts/browser_history.py:126-130 | below an hour, the nearest whole number of minutes, 30 to 60 |
| BrowserHistory.SafeTitle | scripts/browser_history.py:133 | no "\n", no "\r", at most 70 characters |
| BrowserHistory.SafeTitleKeepsCleanTitle | scripts/browser_history.py:133 | a clean title of at most 70 characters is written as it is |
| BrowserHistory.SafeUrl | scripts/browser_history.py:134 | the URL's first 100 characters; "" when missing |
| BrowserHistory.TitleColumnWidth | scripts/browser_history.py:137 | the title column is exactly 70 characters wide |
| BrowserHistory.RowLines | scripts/browser_history.py:122-138 | a row takes 4 lines after a gap of ≥ 30 min from its predecessor, else 1, ending with its visit line, whose duration column is `format_duration` as written |
| BrowserHistory.GapMarkerBefore | scripts/browser_history.py:123-131 | the gap check on the remembered previous time gives the row's gap marker |
| BrowserHistory.EmitRow | scripts/browser_history.py:118-137 | one loop iteration's lines: the gap marker, then the visit line with the as-written duration label |
| BrowserHistory.WriteOutput | scripts/browser_history.py:106-138 | the header, then the no-visits notice or the rows' lines in order, the loop carrying the previous visit time; each visit line carries the as-written duration label |
| BrowserHistory.VisitLinesCount | scripts/browser_history.py:117-138 | the rows take one line each plus three per GAP marker, and no marker comes before the first row |
| BrowserHistory.FirstVisitLine | scripts/browser_history.py:117-123 | the visit lines open with the first row's line, as the code writes it |
| BrowserHistory.NoVisitsOutput | scripts/browser_history.py:109-115 | with no rows, the header and "No visits found for {date}" only |
| Text.SplitJoin | scripts/generate_html.py:73 | joining the fields of `split` with the separator gives back the string |
| Text.StripEmptyIffAllSpace | scripts/pre_extract.py:130 | `strip()` is empty exactly for an all-whitespace string |
| Text.Slice | scripts/pre_extract.py:178-197 | Python's clamped slice: its length bounds, and in-range slices are plain slices |
| Text.PadLeft | scripts/browser_history.py:137 | `:>w` right-aligns in a field of width w and never truncates |
| Text.PadRight | scripts/browser_history.py:137 | `:<w` left-aligns in a field of width w and never truncates |
| Text.ReplaceByPieces | scripts/generate_html.py:260 | `replace` cuts the text at each occurrence and re-joins the pieces with the value |
| Text.ReplaceRemovesChar | scripts/browser_history.py:133 | replacing a character by text without it removes every occurrence |
| Text.RoundHalfEvenNearest | scripts/generate_html.py:109-110 | `round` gives the nearest integer, a tie going to the even one |
| Text.HundredthsTextReadsBack | scripts/generate_html.py:133-139 | the text of a value rounded to two places reads back as that value |

## Left out

- DaySummary.FormatDuration: computes on exact minutes. Float error at spans of exactly 60 or 600 minutes is not modelled. For example, "16:09" − "6:09" is 9.9999999999999982 h in doubles, which the code labels "~10h" where the model gives "all day". Likewise "1:01" − "0:01" gives "~60min" where the model gives "~1h".
- DaySummary.ParseTime: accepts only decimal digit fields. Python's `float()` also takes signs, a decimal point, spaces and exponents; those inputs fail in the model.
- DaySummary: keys the code tests only for truth (`timeEnd`, `shortName`, `messages`) are modelled by their falsy value when absent. JSON `null` and values of unexpected types are not modelled.
- DaySummary.LaneOf, DaySummary.TicksShape: `round(x, 2)` is computed exactly on the ratio of integers. The binary floating-point error of the source's division, which can move a result off a tie, is not modelled.
  - `Text.HundredthsText` gives Python's shortest text for the float nearest n/100. The exponent notation Python would use for very large or very small values is not modelled.
- PreExtract: `run_cass`, the `subprocess` calls, `json.loads` and `parse_jsonl` are I/O. The model takes the parsed session listing and parsed log entries as datatypes.
- PreExtract.UnderSubagents: `Path(source).parts` is modelled as the '/'-separated components of a POSIX path. Windows separators are not modelled.
- PreExtract.SortSessions: `list.sort` is modelled on values, as a stable insertion sort of a sequence, not as an in-place sort.
- PreExtract: `parse_iso_to_epoch_ms`, `format_epoch_ms`'s `datetime.fromtimestamp`/`strftime` and `datetime.now()` depend on the time zone and the wall clock. They are parameters: the epoch bounds, a local-time function and the `generated` text.
- PreExtract: the per-session loop in `main` is not modelled: reading each file, counting skipped sessions, and `gather_stats`'s cass calls and stats JSON. They are file and subprocess glue. The hour-label split inside `gather_stats` is modelled (`HourOfLabel`).
- PreExtract.SessionHeader: `session_meta.get("title", "Untitled")[:80]` raises for a JSON `null` title. The model uses the default for any missing value.
- BrowserHistory: `find_browser_history`, the SQLite copy and query in `extract_history`, and `main`'s file writes are I/O and are left out.
  - The model takes the query's rows, the totals and the browser name as inputs.
  - The output is the list of lines, each of which the code writes followed by a newline.
- BrowserHistory.ChromiumTs: `int(dt.timestamp() * 1_000_000)` is taken as an integer number of Unix microseconds. The float multiplication and truncation are not modelled.
- BrowserHistory.VisitLine: `chromium_to_local` and `strftime("%H:%M:%S")` depend on the local time zone. They are the parameter `localClock`, applied to the Unix microseconds.
- BrowserHistory.GapLabel: the `:.1f` rendering of hours is the parameter `hoursText`; its ties depend on the float's binary value.
  - The minutes label is rounded exactly.
  - The threshold comparisons are exact on integer microseconds, which is where the float division of an integer below 2^53 agrees with the code.
- BrowserHistory.DurationReadingAsWritten: the `.0f` fields are computed exactly on the microsecond count, which is exact wherever the float quotient is. This is so for durations below about 2^53 µs.
- `scripts/calendar_events.py` and `scripts/setup_agent.py` are platform checks, compilation and filesystem plumbing. They are not part of this model.

## Findings

| source | as written | input that shows it | evidently intended | confidence | as-written member | corrected member |
|---|---|---|---|---|---|---|
| scripts/browser_history.py:59-63 | the leading field is `f"{minutes:.0f}"` (and `f"{hours:.0f}"`), which rounds the whole quotient instead of taking the whole minutes (hours) | a 90-second visit (90 000 000 µs) is labelled "2m30s", which stands for 150 s, and the visit line shows "   2m30s"; 119.6 s gives "2m60s" | whole minutes and the seconds past them ("1m30s"); likewise hours and minutes | high, not executed | BrowserHistory.NinetySecondsAsWritten | BrowserHistory.FormatDurationReadsBack |

The output lines (`VisitLine`, `RowLines`, `WriteOutput`) are modelled as written, with `FormatDurationAsWritten`. `VisitLineCorrected` is the intended line, and `NinetySecondVisitLines` sets the two side by side for a 90-second visit.
