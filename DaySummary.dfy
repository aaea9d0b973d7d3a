/**
 * The day-summary renderer: from the day's data (stats, timeline, workspaces,
 * agents) to the HTML fragments of the dashboard, the Day Map time axis and
 * lane geometry, and the `{{KEY}}` substitution into the page template.
 *
 * Times of day are whole minutes since midnight.  The Python code works on
 * fractional hours in binary floating point, where a difference of two times
 * can fall just short of a whole number of hours; the model computes on the
 * exact minutes.
 */
module DaySummary {
  import opened Text
  import opened Wrappers

  // ---------------------------------------------------------------------
  // Data model: the day's JSON document

  datatype Stat = Stat(value: string, unit: string, caption: string, isHighlight: bool)

  datatype Tag = Tag(text: string, color: string)

  /**
   * One timeline entry.  Keys the code reads with `t.get(...)` and only tests
   * for truth are modelled by their falsy value when absent: `timeEnd` and
   * `shortName` are "" and `messages` is 0 when missing, `tags` is [].
   */
  datatype TimelineItem = TimelineItem(
    time: string,
    timeEnd: string,
    messages: int,
    shortName: string,
    title: string,
    description: string,
    color: string,
    tags: seq<Tag>,
    isCommit: bool)

  /** `percent` is the JSON number as Python prints it. */
  datatype Workspace = Workspace(name: string, count: int, percent: string, color: string, colorDim: string)

  datatype Agent = Agent(icon: string, name: string, count: string, unitLabel: string)

  datatype DayData = DayData(
    dateLong: string,
    dateDisplay: string,
    headline: string,
    subtitle: string,
    stats: seq<Stat>,
    timeline: seq<TimelineItem>,
    workspaces: seq<Workspace>,
    agents: seq<Agent>,
    heroNumber: string,
    heroLabel: string)

  const Arrow: string := "\U{2192}"
  const Dot: string := "\U{b7}"

  // ---------------------------------------------------------------------
  // Colour lookups

  /** The keys of the colour table; the table maps each key `k` to `var(--k)`. */
  const ColorKeys: set<string> := {
    "accent", "accent-dim", "warm", "warm-dim", "success", "danger",
    "blue", "cyan", "gold", "gold-dim", "text-muted"}

  const ColorMap: map<string, string> := map k | k in ColorKeys :: CssVar(k)

  const BorderMap: map<string, string> := map[
    "accent" := "var(--accent-dim)", "warm" := "var(--warm-dim)",
    "success" := "rgba(94,194,149,0.3)", "danger" := "rgba(224,84,105,0.3)",
    "blue" := "rgba(91,155,232,0.3)", "cyan" := "rgba(92,206,196,0.3)",
    "gold" := "var(--gold-dim)", "text-muted" := "var(--border)"]

  /** The CSS custom property named by a colour key. */
  function CssVar(key: string): string {
    "var(--" + key + ")"
  }

  /**
   * A colour key as a CSS value: the table's entry, or `var(--key)` for an
   * unknown key.  The result is `CssVar(key)` for every key, so the fragment
   * builders below write `CssVar` where the program calls this lookup.
   */
  function ResolveColor(key: string): (css: string)
    ensures css == CssVar(key)
  {
    if key in ColorMap then ColorMap[key] else CssVar(key)
  }

  /** A colour key as a border colour, `var(--border)` for an unknown key. */
  function ResolveBorder(key: string): (css: string)
    ensures key in BorderMap ==> css == BorderMap[key]
    ensures css == "var(--border)" <==> key !in BorderMap || key == "text-muted"
  {
    if key in BorderMap then BorderMap[key] else "var(--border)"
  }

  // ---------------------------------------------------------------------
  // Time parser

  /**
   * "H:MM" (any number of trailing '+' ignored, extra ":" fields ignored) as
   * minutes since midnight; None where Python's `float()` or the index
   * `parts[1]` raises.  Hours are not capped at 23.
   */
  function ParseTime(s: string): (minutes: Option<nat>)
  {
    var parts := Split(TrimTrailing(s, '+'), ':');
    if |parts| < 2 || parts[0] == "" || parts[1] == "" || !AllDigits(parts[0]) || !AllDigits(parts[1]) then None
    else Some(DigitsValue(parts[0]) * 60 + DigitsValue(parts[1]))
  }

  /** A time whose first two ":" fields are digit strings reads as those hours and minutes. */
  lemma ParseTimeOfParts(s: string, hs: string, ms: string)
    requires hs != [] && ms != [] && AllDigits(hs) && AllDigits(ms)
    requires var parts := Split(TrimTrailing(s, '+'), ':'); |parts| >= 2 && parts[0] == hs && parts[1] == ms
    ensures ParseTime(s) == Some(DigitsValue(hs) * 60 + DigitsValue(ms))
  {
  }

  /** "H:MM" as the source's data writes it. */
  function TimeText(h: nat, m: nat): string
    requires m < 60
  {
    NatToString(h) + ":" + ZeroPad2(m)
  }

  /** Two digit fields joined by a colon read as hours and minutes. */
  lemma ParseTimeOfFields(hs: string, ms: string)
    requires hs != [] && ms != [] && AllDigits(hs) && AllDigits(ms)
    ensures ParseTime(hs + [':'] + ms) == Some(DigitsValue(hs) * 60 + DigitsValue(ms))
  {
    ColonFields(hs, ms);
    var parts := Split(TrimTrailing(hs + [':'] + ms, '+'), ':');
    assert parts[0] == hs && parts[1] == ms;
  }

  /** Splitting two digit fields joined by a colon gives the two fields back. */
  lemma ColonFields(hs: string, ms: string)
    requires hs != [] && ms != [] && AllDigits(hs) && AllDigits(ms)
    ensures Split(TrimTrailing(hs + [':'] + ms, '+'), ':') == [hs, ms]
  {
    var s := hs + [':'] + ms;
    DigitsExclude(hs, ':');
    DigitsExclude(ms, ':');
    assert s[|s| - 1] == ms[|ms| - 1];
    assert TrimTrailing(s, '+') == s;
    SplitCons(hs, ':', ms);
    assert Split(ms, ':') == [ms];
  }

  /** A third digit field (seconds) is ignored rather than rejected. */
  lemma ParseTimeOfThreeFields(s: string, hs: string, ms: string, ss: string)
    requires hs != [] && ms != [] && ss != [] && AllDigits(hs) && AllDigits(ms) && AllDigits(ss)
    requires s == hs + [':'] + ms + [':'] + ss
    ensures ParseTime(s) == Some(DigitsValue(hs) * 60 + DigitsValue(ms))
  {
    var head := hs + [':'] + ms + [':'];
    assert s == head + ss;
    assert s[|s| - 1] == ss[|ss| - 1];
    assert TrimTrailing(s, '+') == s;
    SplitThreeFields(s, hs, ms, ss);
    ParseTimeOfParts(s, hs, ms);
  }

  lemma SplitThreeFields(s: string, hs: string, ms: string, ss: string)
    requires AllDigits(hs) && AllDigits(ms) && AllDigits(ss)
    requires s == hs + [':'] + ms + [':'] + ss
    ensures Split(s, ':') == [hs, ms, ss]
  {
    var rest := ms + [':'] + ss;
    assert s == hs + [':'] + rest;
    DigitsExclude(hs, ':');
    DigitsExclude(ms, ':');
    DigitsExclude(ss, ':');
    SplitCons(hs, ':', rest);
    SplitCons(ms, ':', ss);
    assert Split(ss, ':') == [ss];
  }

  /** Parsing the text of a time gives it back, for every hour, 23 or beyond. */
  lemma ParseTimeOfTimeText(h: nat, m: nat)
    requires m < 60
    ensures ParseTime(TimeText(h, m)) == Some(h * 60 + m)
  {
    assert TimeText(h, m) == NatToString(h) + [':'] + ZeroPad2(m);
    ParseTimeOfFields(NatToString(h), ZeroPad2(m));
    DigitsValueOfNatToString(h);
    assert DigitsValue(ZeroPad2(m)) == m;
  }

  /** Trailing '+' marks (an event running past its end) do not change the time. */
  lemma ParseTimeIgnoresPlus(s: string, k: nat)
    ensures ParseTime(s + Repeat('+', k)) == ParseTime(s)
  {
    TrimTrailingRepeat(s, '+', k);
  }

  /** Without a colon there is no minutes field: the source's index raises. */
  lemma ParseTimeNeedsColon(s: string)
    requires ':' !in s
    ensures ParseTime(s) == None
  {
    var t := TrimTrailing(s, '+');
    assert ':' !in t;
    assert Split(t, ':') == [t];
  }

  // ---------------------------------------------------------------------
  // Duration formatter

  /**
   * `round(r / 15)` for the leftover minutes: the nearest whole number of
   * quarter hours.  For whole minutes there is never a tie, so the rounding
   * rule does not matter.
   */
  function RoundQuarters(r: nat): (q: int)
    ensures -15 < 2 * r - 30 * q < 15
  {
    var q := RoundHalfEven(r, 15);
    RoundHalfEvenNearest(r, 15);
    assert (2 * (r - q * 15)) % 2 == 0;
    q
  }

  const QuarterSuffix: map<int, string> := map[15 := ".25", 30 := ".5", 45 := ".75"]

  /**
   * A span of minutes as a coarse label: "all day" from ten hours on, "~Nmin"
   * under an hour, otherwise hours to the nearest quarter ("~2h", "~2.25h",
   * "~2.5h", "~2.75h").  The quarter lookup is total: the rounded leftover is
   * 0, 15, 30, 45 or 60, and 0 and 60 are handled before it.
   */
  function FormatDuration(d: int): (text: string)
    ensures |text| >= 1
    ensures text[0] == '~' <==> d < 600
  {
    if d >= 600 then "all day"
    else if d >= 60 then
      var h := d / 60;
      var m := RoundQuarters(d % 60) * 15;
      if m == 0 then "~" + NatToString(h) + "h"
      else if m == 60 then "~" + NatToString(h + 1) + "h"
      else "~" + NatToString(h) + QuarterSuffix[m] + "h"
    else "~" + IntToString(d) + "min"
  }

  /** The reference reading of an hour label: `q` quarter hours written as hours. */
  function QuarterHoursLabel(q: nat): string {
    "~" + NatToString(q / 4) + ["", ".25", ".5", ".75"][q % 4] + "h"
  }

  /**
   * Between one and ten hours the label names the number of quarter hours
   * nearest to the span, with a leftover that rounds to 60 carried into the
   * next hour.
   */
  lemma FormatDurationNearestQuarter(d: int, q: nat)
    requires 60 <= d < 600
    requires -15 < 2 * d - 30 * q < 15
    ensures FormatDuration(d) == QuarterHoursLabel(q)
  {
    var h := d / 60;
    var r := d % 60;
    var k := RoundQuarters(r);
    assert d == 60 * h + r;
    assert q == 4 * h + k by {
      assert -30 < 30 * q - 30 * (4 * h + k) < 30;
    }
    if k == 4 {
      assert q / 4 == h + 1 && q % 4 == 0;
    } else {
      assert q / 4 == h && q % 4 == k;
    }
  }

  /** "all day" exactly from ten hours on; below an hour the exact minute count. */
  lemma FormatDurationBands(d: int)
    ensures FormatDuration(d) == "all day" <==> d >= 600
    ensures d < 60 ==> FormatDuration(d) == "~" + IntToString(d) + "min"
  {
  }

  /** An hour and a half past one, and a span just short of two hours. */
  lemma FormatDurationExamples()
    ensures FormatDuration(150) == "~2.5h"
    ensures FormatDuration(119) == "~2h"
  {
    FormatDurationNearestQuarter(150, 10);
    assert NatToString(2) == "2";
    FormatDurationNearestQuarter(119, 8);
  }

  // ---------------------------------------------------------------------
  // Item times

  predicate HasEnd(t: TimelineItem) {
    t.timeEnd != ""
  }

  /** An item's start and end, in minutes since midnight. */
  datatype Slot = Slot(start: nat, end: nat)

  /**
   * The item's times: the end is `timeEnd` when the item has one, otherwise
   * 15 minutes after the start (a point event); None where a time does not
   * parse, and the source raises.
   */
  function SlotOf(t: TimelineItem): (r: Option<Slot>)
    ensures r.Some? <==> ParseTime(t.time).Some? && (HasEnd(t) ==> ParseTime(t.timeEnd).Some?)
    ensures r.Some? ==> Some(r.value.start) == ParseTime(t.time)
    ensures r.Some? && HasEnd(t) ==> Some(r.value.end) == ParseTime(t.timeEnd)
    ensures r.Some? && !HasEnd(t) ==> r.value.end == r.value.start + 15
  {
    match ParseTime(t.time)
    case None => None
    case Some(s) =>
      if !HasEnd(t) then Some(Slot(s, s + 15))
      else (match ParseTime(t.timeEnd)
            case None => None
            case Some(e) => Some(Slot(s, e)))
  }

  /** Every item's slot, in order; None when some item's times do not parse. */
  function SlotsOf(items: seq<TimelineItem>): (r: Option<seq<Slot>>)
    ensures r.Some? ==> |r.value| == |items|
  {
    if items == [] then Some([])
    else
      match SlotOf(items[0])
      case None => None
      case Some(s) =>
        (match SlotsOf(items[1..])
         case None => None
         case Some(ss) => Some([s] + ss))
  }

  /** SlotsOf succeeds exactly when every item has a slot, and keeps them in order. */
  lemma {:induction false} SlotsOfEach(items: seq<TimelineItem>)
    ensures SlotsOf(items).Some? ==> forall i | 0 <= i < |items| :: SlotOf(items[i]) == Some(SlotsOf(items).value[i])
    ensures SlotsOf(items).None? ==> exists i | 0 <= i < |items| :: SlotOf(items[i]).None?
    decreases |items|
  {
    if items != [] {
      SlotsOfEach(items[1..]);
      if SlotOf(items[0]).Some? && SlotsOf(items[1..]).Some? {
        var ss := SlotsOf(items).value;
        forall i | 0 <= i < |items|
          ensures SlotOf(items[i]) == Some(ss[i])
        {
          if i > 0 {
            assert items[i] == items[1..][i - 1];
          }
        }
      } else if SlotOf(items[0]).Some? {
        var j :| 0 <= j < |items[1..]| && SlotOf(items[1..][j]).None?;
        assert items[j + 1] == items[1..][j];
      }
    }
  }

  // ---------------------------------------------------------------------
  // The axis

  /** `all_starts`: every item's start, in order. */
  function Starts(slots: seq<Slot>): (xs: seq<nat>)
    decreases |slots|
  {
    if slots == [] then [] else Starts(slots[..|slots| - 1]) + [slots[|slots| - 1].start]
  }

  /** `all_ends`: every item's end, in order. */
  function Ends(slots: seq<Slot>): (xs: seq<nat>)
    decreases |slots|
  {
    if slots == [] then [] else Ends(slots[..|slots| - 1]) + [slots[|slots| - 1].end]
  }

  lemma {:induction false} StartsEndsEach(slots: seq<Slot>)
    ensures |Starts(slots)| == |slots| && forall i | 0 <= i < |slots| :: Starts(slots)[i] == slots[i].start
    ensures |Ends(slots)| == |slots| && forall i | 0 <= i < |slots| :: Ends(slots)[i] == slots[i].end
    decreases |slots|
  {
    if slots != [] {
      var n := |slots| - 1;
      StartsEndsEach(slots[..n]);
      forall i | 0 <= i < n
        ensures Starts(slots)[i] == slots[i].start && Ends(slots)[i] == slots[i].end
      {
        assert slots[..n][i] == slots[i];
      }
    }
  }

  /** Python's `min` of a non-empty list. */
  function MinOf(xs: seq<nat>): nat
    requires |xs| > 0
  {
    if |xs| == 1 then xs[0]
    else
      var rest := MinOf(xs[1..]);
      if xs[0] <= rest then xs[0] else rest
  }

  /** Python's `max` of a non-empty list. */
  function MaxOf(xs: seq<nat>): nat
    requires |xs| > 0
  {
    if |xs| == 1 then xs[0]
    else
      var rest := MaxOf(xs[1..]);
      if xs[0] >= rest then xs[0] else rest
  }

  /** `min` is an element of the list and no element is smaller; `max` likewise. */
  lemma {:induction false} MinMaxOf(xs: seq<nat>)
    requires |xs| > 0
    ensures MinOf(xs) in xs && forall i | 0 <= i < |xs| :: MinOf(xs) <= xs[i]
    ensures MaxOf(xs) in xs && forall i | 0 <= i < |xs| :: xs[i] <= MaxOf(xs)
    decreases |xs|
  {
    if |xs| > 1 {
      MinMaxOf(xs[1..]);
      forall i | 1 <= i < |xs|
        ensures MinOf(xs[1..]) <= xs[i] && xs[i] <= MaxOf(xs[1..])
      {
        assert xs[i] == xs[1..][i - 1];
      }
    }
  }

  /** `math.floor(min(all_starts))`, in hours. */
  function AxisStart(slots: seq<Slot>): nat
    requires |slots| > 0
  {
    StartsEndsEach(slots);
    MinOf(Starts(slots)) / 60
  }

  /** `math.ceil(max(all_ends))`, in hours. */
  function AxisEnd(slots: seq<Slot>): int
    requires |slots| > 0
  {
    StartsEndsEach(slots);
    (MaxOf(Ends(slots)) + 59) / 60
  }

  /**
   * The axis is the hour grid around the timeline: its start is the latest
   * whole hour at or before every start, its end the earliest whole hour at
   * or after every end.
   */
  lemma AxisBounds(slots: seq<Slot>)
    requires |slots| > 0
    ensures AxisStart(slots) >= 0
    ensures forall i | 0 <= i < |slots| :: 60 * AxisStart(slots) <= slots[i].start
    ensures exists i | 0 <= i < |slots| :: slots[i].start < 60 * (AxisStart(slots) + 1)
    ensures forall i | 0 <= i < |slots| :: slots[i].end <= 60 * AxisEnd(slots)
    ensures exists i | 0 <= i < |slots| :: 60 * (AxisEnd(slots) - 1) < slots[i].end
  {
    StartsEndsEach(slots);
    MinMaxOf(Starts(slots));
    MinMaxOf(Ends(slots));
    var lo := MinOf(Starts(slots));
    var hi := MaxOf(Ends(slots));
    var i :| 0 <= i < |slots| && Starts(slots)[i] == lo;
    var j :| 0 <= j < |slots| && Ends(slots)[j] == hi;
    assert slots[i].start < 60 * (AxisStart(slots) + 1);
    assert 60 * (AxisEnd(slots) - 1) < slots[j].end;
    forall k | 0 <= k < |slots|
      ensures 60 * AxisStart(slots) <= slots[k].start && slots[k].end <= 60 * AxisEnd(slots)
    {
      assert Starts(slots)[k] >= lo && Ends(slots)[k] <= hi;
    }
  }

  /** The span is at least an hour whenever some end lies after some start. */
  lemma AxisSpanAtLeastOneHour(slots: seq<Slot>, i: nat, j: nat)
    requires i < |slots| && j < |slots| && slots[j].end > slots[i].start
    ensures AxisEnd(slots) - AxisStart(slots) >= 1
  {
    AxisBounds(slots);
  }

  /** A timeline with a point event always has a span of at least an hour. */
  lemma PointEventSpan(items: seq<TimelineItem>, i: nat)
    requires SlotsOf(items).Some? && i < |items| && !HasEnd(items[i])
    ensures AxisEnd(SlotsOf(items).value) - AxisStart(SlotsOf(items).value) >= 1
  {
    var slots := SlotsOf(items).value;
    SlotsOfEach(items);
    assert SlotOf(items[i]) == Some(slots[i]);
    AxisSpanAtLeastOneHour(slots, i, i);
  }

  /**
   * The axis span can be zero: a single event whose end equals its start on
   * the hour (ZeroSpanSlots shows an item with such a slot).  The code has
   * no guard for it and divides by the span.
   */
  lemma ZeroSpanExample(slot: Slot)
    requires slot.start == slot.end && slot.start % 60 == 0
    ensures AxisEnd([slot]) - AxisStart([slot]) == 0
  {
    OneSlotAxis(slot);
  }

  /** With a single item the axis is the hours around its start and end. */
  lemma OneSlotAxis(slot: Slot)
    ensures AxisStart([slot]) == slot.start / 60 && AxisEnd([slot]) == (slot.end + 59) / 60
  {
    var slots := [slot];
    assert slots[..0] == [];
    assert Starts(slots) == [slot.start];
    assert Ends(slots) == [slot.end];
  }

  /** An item that ends when it starts has a slot of zero length at that time. */
  lemma ZeroSpanSlots(t: TimelineItem, m: nat)
    requires HasEnd(t) && t.time == t.timeEnd && ParseTime(t.time) == Some(m)
    ensures SlotsOf([t]) == Some([Slot(m, m)])
  {
    assert SlotOf(t) == Some(Slot(m, m));
    var items := [t];
    assert items[0] == t && items[1..] == [];
    assert SlotsOf(items[1..]) == Some([]);
    assert [Slot(m, m)] + [] == [Slot(m, m)];
  }

  /**
   * The axis computation in `main`: collects each item's start and end, then
   * takes the floor of the earliest start and the ceiling of the latest end,
   * in hours.
   */
  method ComputeAxis(slots: seq<Slot>) returns (axisStart: int, axisEnd: int)
    requires |slots| > 0
    ensures axisStart == AxisStart(slots) && axisEnd == AxisEnd(slots)
    ensures forall i | 0 <= i < |slots| :: 60 * axisStart <= slots[i].start && slots[i].end <= 60 * axisEnd
  {
    var allStarts: seq<nat> := [];
    var allEnds: seq<nat> := [];
    var i := 0;
    while i < |slots|
      invariant 0 <= i <= |slots|
      invariant allStarts == Starts(slots[..i])
      invariant allEnds == Ends(slots[..i])
    {
      assert slots[..i + 1][..i] == slots[..i];
      allStarts := allStarts + [slots[i].start];
      allEnds := allEnds + [slots[i].end];
      i := i + 1;
    }
    assert slots[..|slots|] == slots;
    axisStart := MinOf(allStarts) / 60;
    axisEnd := (MaxOf(allEnds) + 59) / 60;
    AxisBounds(slots);
  }

  // ---------------------------------------------------------------------
  // Lane geometry
  //
  // Percentages are whole hundredths of a percent: `round(x, 2)` of the exact
  // ratio that the source's float expression approximates.

  /** `round((start_h - axis_start) / axis_span * 100, 2)`, in hundredths of a percent. */
  function LeftHundredths(slot: Slot, axisStart: int, span: int): int
    requires span != 0
  {
    RoundRatio(10000 * (slot.start - 60 * axisStart), 60 * span)
  }

  /** `round((end_h - start_h) / axis_span * 100, 2)`, in hundredths of a percent. */
  function WidthHundredths(slot: Slot, span: int): int
    requires span != 0
  {
    RoundRatio(10000 * (slot.end - slot.start), 60 * span)
  }

  /**
   * A slot lying within a positive axis starts at or after the track's left
   * edge, and its bar ends by the right edge up to the two roundings: left
   * plus width is at most 100.01%.
   */
  lemma LaneWithinTrack(slot: Slot, axisStart: int, axisEnd: int)
    requires axisStart < axisEnd
    requires 60 * axisStart <= slot.start && slot.end <= 60 * axisEnd
    ensures LeftHundredths(slot, axisStart, axisEnd - axisStart) >= 0
    ensures LeftHundredths(slot, axisStart, axisEnd - axisStart) + WidthHundredths(slot, axisEnd - axisStart) <= 10001
  {
    var q := 60 * (axisEnd - axisStart);
    var p1 := 10000 * (slot.start - 60 * axisStart);
    var p2 := 10000 * (slot.end - slot.start);
    RoundNonnegative(p1, q);
    RoundSumBound(p1, p2, q, 10000);
  }

  datatype WidthStyle = MinWidth | WidthPct(hundredths: int)

  /** What one lane shows, percentages and delay in hundredths; `LaneHtml` renders it. */
  datatype Lane = Lane(
    name: string,
    color: string,
    left: int,
    width: int,
    style: WidthStyle,
    commit: bool,
    delay: int,
    tip: string)

  /** The tooltip: the time range, then the message count when there is one. */
  function TipText(t: TimelineItem): string {
    (if HasEnd(t) then t.time + " " + Arrow + " " + t.timeEnd else t.time)
    + (if t.messages != 0 then " " + Dot + " " + IntToString(t.messages) + " msgs" else "")
  }

  /**
   * The lane of the `index`-th item.  Its animation delay `round(i * 0.05, 2)`
   * is exactly 5i hundredths of a second.
   */
  function LaneOf(t: TimelineItem, slot: Slot, index: nat, axisStart: int, span: int): (lane: Lane)
    requires span != 0
    ensures lane.left == LeftHundredths(slot, axisStart, span)
    ensures lane.width == WidthHundredths(slot, span)
    ensures lane.style == MinWidth <==> lane.width < 200
    ensures lane.style.WidthPct? ==> lane.style.hundredths == lane.width
    ensures lane.name == if t.shortName != "" then t.shortName else Take(t.title, 15)
    ensures |lane.name| <= 15 || lane.name == t.shortName
    ensures lane.delay == 5 * index
  {
    var width := WidthHundredths(slot, span);
    Lane(
      if t.shortName != "" then t.shortName else Take(t.title, 15),
      CssVar(t.color),
      LeftHundredths(slot, axisStart, span),
      width,
      if width < 200 then MinWidth else WidthPct(width),
      t.isCommit,
      5 * index,
      TipText(t))
  }

  function WidthStyleText(style: WidthStyle): string {
    match style
    case MinWidth => "min-width:14px"
    case WidthPct(w) => "width:" + HundredthsText(w) + "%"
  }

  /** The markup of one lane. */
  function LaneHtml(lane: Lane): string {
    "        <div class=\"lane\">\n"
    + "          <div class=\"lane-label\" style=\"color:" + lane.color + "\">" + lane.name + "</div>\n"
    + "          <div class=\"lane-track\">\n"
    + "            <div class=\"lane-bar" + (if lane.commit then " commit-marker" else "") + "\" style=\"left:"
    + HundredthsText(lane.left) + "%;" + WidthStyleText(lane.style) + ";background:" + lane.color
    + ";animation-delay:" + HundredthsText(lane.delay) + "s\" data-tip=\"" + lane.tip + "\"></div>\n"
    + "          </div>\n"
    + "        </div>\n"
  }

  /** The markup of every lane, one per item in input order: what `build_lanes` appends. */
  function LaneMarkup(items: seq<TimelineItem>, slots: seq<Slot>, axisStart: int, span: int): (rows: seq<string>)
    requires |slots| == |items| && span != 0
  {
    seq(|items|, k requires 0 <= k < |items| => LaneHtml(LaneOf(items[k], slots[k], k, axisStart, span)))
  }

  /**
   * On the axis `main` computes, with a positive span, every lane lies on its
   * track: left at least 0%, left plus width at most 100.01%.
   */
  lemma LanesOnTrack(items: seq<TimelineItem>, slots: seq<Slot>, i: nat)
    requires |slots| == |items| > 0 && AxisEnd(slots) - AxisStart(slots) > 0 && i < |items|
    ensures var lane := LaneOf(items[i], slots[i], i, AxisStart(slots), AxisEnd(slots) - AxisStart(slots));
            lane.left >= 0 && lane.left + lane.width <= 10001
  {
    AxisBounds(slots);
    LaneWithinTrack(slots[i], AxisStart(slots), AxisEnd(slots));
  }

  /** `build_lanes`: the markup of every lane, appended in input order. */
  method BuildLanes(items: seq<TimelineItem>, slots: seq<Slot>, axisStart: int, span: int) returns (html: string)
    requires |slots| == |items| && span != 0
    ensures html == Concat(LaneMarkup(items, slots, axisStart, span))
  {
    html := Concatenate(LaneMarkup(items, slots, axisStart, span));
  }

  // ---------------------------------------------------------------------
  // Axis ticks

  datatype Tick = Tick(left: int, hour: string)

  /** The tick `k` hours after the axis start. */
  function TickAt(axisStart: nat, k: nat, span: int): Tick
    requires span != 0
  {
    Tick(RoundRatio(10000 * k, span), ZeroPad2(axisStart + k))
  }

  function TickHtml(tick: Tick): string {
    "        <span style=\"left:" + HundredthsText(tick.left) + "%\">" + tick.hour + "</span>\n"
  }

  /** The first `count` ticks' markup, in order. */
  function TickMarkup(axisStart: nat, count: nat, span: int): (rows: seq<string>)
    requires span != 0
  {
    seq(count, k requires 0 <= k < count => TickHtml(TickAt(axisStart, k, span)))
  }

  /** The number of hours in `range(axis_start, axis_end + 1)`. */
  function TickCount(axisStart: nat, axisEnd: int): nat {
    if axisEnd < axisStart then 0 else axisEnd - axisStart + 1
  }

  /**
   * For a positive span the axis has span + 1 ticks, from 0% to 100%, each
   * within the track, and labelled with its hour as at least two digits.
   */
  lemma TicksShape(axisStart: nat, span: int)
    requires span > 0
    ensures TickCount(axisStart, axisStart + span) == span + 1
    ensures TickAt(axisStart, 0, span).left == 0
    ensures TickAt(axisStart, span, span).left == 10000
    ensures forall k: nat | k <= span :: 0 <= TickAt(axisStart, k, span).left <= 10000
    ensures forall k: nat | k <= span ::
              var hour := TickAt(axisStart, k, span).hour;
              |hour| >= 2 && AllDigits(hour) && DigitsValue(hour) == axisStart + k
  {
    RoundExact(0, span);
    RoundExact(10000, span);
    assert TickAt(axisStart, 0, span).left == RoundHalfEven(0 * span, span);
    assert TickAt(axisStart, span, span).left == RoundHalfEven(10000 * span, span);
    forall k: nat | k <= span ensures 0 <= TickAt(axisStart, k, span).left <= 10000 {
      RoundBetween(10000 * k, span, 0, 10000);
    }
  }

  /** `build_axis`: one tick per hour of `range(axis_start, axis_end + 1)`. */
  method BuildAxis(axisStart: nat, axisEnd: int, span: int) returns (html: string)
    requires span != 0
    ensures html == Concat(TickMarkup(axisStart, TickCount(axisStart, axisEnd), span))
  {
    html := Concatenate(TickMarkup(axisStart, TickCount(axisStart, axisEnd), span));
  }

  // ---------------------------------------------------------------------
  // Stats

  const StatSeparator: string := "<span class=\"stat-sep\">&middot;</span>"

  const GoldOpen: string := "<span><strong class=\"gold\">"

  /** The opening tags of a stat: its value is gold when the stat is highlighted. */
  function StatOpen(isHighlight: bool): string {
    if isHighlight then GoldOpen else "<span><strong>"
  }

  function StatHtml(s: Stat): string {
    StatOpen(s.isHighlight) + s.value + "</strong>" + (if s.unit != "" then " " + s.unit else "") + " " + s.caption + "</span>"
  }

  /** The list `build_stats` fills: each stat, preceded by a separator from the second on. */
  function StatParts(stats: seq<Stat>): seq<string>
    decreases |stats|
  {
    if stats == [] then []
    else
      var init := stats[..|stats| - 1];
      StatParts(init) + (if init == [] then [] else [StatSeparator]) + [StatHtml(stats[|stats| - 1])]
  }

  function CountOf(xs: seq<string>, x: string): nat
    decreases |xs|
  {
    if xs == [] then 0 else CountOf(xs[..|xs| - 1], x) + (if xs[|xs| - 1] == x then 1 else 0)
  }

  lemma {:induction false} CountOfAppend(xs: seq<string>, ys: seq<string>, x: string)
    ensures CountOf(xs + ys, x) == CountOf(xs, x) + CountOf(ys, x)
    decreases |ys|
  {
    if ys == [] {
      assert xs + ys == xs;
    } else {
      var zs := xs + ys;
      assert zs[..|zs| - 1] == xs + ys[..|ys| - 1];
      assert zs[|zs| - 1] == ys[|ys| - 1];
      CountOfAppend(xs, ys[..|ys| - 1], x);
    }
  }

  lemma StatIsNotSeparator(s: Stat)
    ensures StatHtml(s) != StatSeparator
  {
    var open := StatOpen(s.isHighlight);
    assert open[5] == '>';
    assert StatHtml(s) == open + (StatHtml(s)[|open|..]);
    assert StatSeparator[5] == ' ';
  }

  /**
   * n stats make 2n - 1 parts: the stats at the even positions, in order, and
   * exactly n - 1 separators between them.
   */
  lemma {:induction false} StatPartsShape(stats: seq<Stat>)
    requires |stats| > 0
    ensures |StatParts(stats)| == 2 * |stats| - 1
    ensures forall k | 0 <= k < |stats| :: StatParts(stats)[2 * k] == StatHtml(stats[k])
    ensures forall k | 0 <= k < |stats| - 1 :: StatParts(stats)[2 * k + 1] == StatSeparator
    ensures CountOf(StatParts(stats), StatSeparator) == |stats| - 1
    decreases |stats|
  {
    var n := |stats|;
    var last := StatHtml(stats[n - 1]);
    StatIsNotSeparator(stats[n - 1]);
    if n == 1 {
      assert StatParts(stats) == [last];
      assert [last][..0] == [];
    } else {
      var init := stats[..n - 1];
      StatPartsShape(init);
      var p := StatParts(init);
      assert StatParts(stats) == p + [StatSeparator, last];
      CountOfAppend(p, [StatSeparator, last], StatSeparator);
      assert [StatSeparator, last][..1] == [StatSeparator];
      assert [StatSeparator][..0] == [];
      forall k | 0 <= k < n ensures StatParts(stats)[2 * k] == StatHtml(stats[k]) {
        if k < n - 1 {
          assert init[k] == stats[k];
        }
      }
      forall k | 0 <= k < n - 1 ensures StatParts(stats)[2 * k + 1] == StatSeparator {
        if k < n - 2 {
          assert StatParts(stats)[2 * k + 1] == p[2 * k + 1];
        }
      }
    }
  }

  /** The value is wrapped in the gold class exactly when the stat is highlighted. */
  lemma StatGold(s: Stat)
    ensures StartsWith(StatHtml(s), GoldOpen) <==> s.isHighlight
  {
    var html := StatHtml(s);
    var open := StatOpen(s.isHighlight);
    var rest := html[|open|..];
    assert html == open + rest;
    if s.isHighlight {
      assert html[..|GoldOpen|] == GoldOpen;
    } else {
      assert html[13] == '>';
      assert GoldOpen[13] == ' ';
    }
  }

  /** `build_stats`. */
  method BuildStats(stats: seq<Stat>) returns (html: string)
    ensures html == Concat(StatParts(stats))
  {
    var parts: seq<string> := [];
    var i := 0;
    while i < |stats|
      invariant 0 <= i <= |stats|
      invariant parts == StatParts(stats[..i])
    {
      StatPartsStep(stats, i);
      if i > 0 {
        parts := parts + [StatSeparator];
      }
      parts := parts + [StatHtml(stats[i])];
      i := i + 1;
    }
    assert stats[..|stats|] == stats;
    html := Concat(parts);
  }

  lemma StatPartsStep(stats: seq<Stat>, i: nat)
    requires i < |stats|
    ensures StatParts(stats[..i + 1]) == StatParts(stats[..i]) + (if i > 0 then [StatSeparator] else []) + [StatHtml(stats[i])]
  {
    assert stats[..i + 1][..i] == stats[..i];
  }

  // ---------------------------------------------------------------------
  // Journal

  const SpannedAllDay: string := "spanned all day"

  predicate Spanning(tags: seq<Tag>) {
    exists k | 0 <= k < |tags| :: tags[k].text == SpannedAllDay
  }

  /** The time line of a card: start, and for a ranged item its end and coarse duration. */
  function TimeDisplay(t: TimelineItem, slot: Slot): string {
    if HasEnd(t) then t.time + " " + Arrow + " " + t.timeEnd + " " + Dot + " " + FormatDuration(slot.end - slot.start)
    else t.time
  }

  function MessagesHtml(t: TimelineItem): string {
    if t.messages != 0 then
      "<span class=\"event-msgs" + (if t.isCommit then " highlight" else "") + "\">" + IntToString(t.messages) + " msgs</span>"
    else if t.isCommit then "<span class=\"event-msgs highlight\">the commit</span>"
    else ""
  }

  function TagHtml(tag: Tag): string {
    "          <span class=\"tag\" style=\"color:" + CssVar(tag.color) + ";border-color:"
    + ResolveBorder(tag.color) + "\">" + tag.text + "</span>\n"
  }

  /** The tag chips of a card, in order. */
  function TagRows(tags: seq<Tag>, n: nat): string
    requires n <= |tags|
  {
    if n == 0 then "" else TagRows(tags, n - 1) + TagHtml(tags[n - 1])
  }

  lemma TagRowsStep(tags: seq<Tag>, n: nat)
    requires n < |tags|
    ensures TagRows(tags, n + 1) == TagRows(tags, n) + TagHtml(tags[n])
  {
  }

  const CardOpen: string := "      <article class=\"event"

  /** A card's markup after its class list's optional " spanning". */
  function CardRest(t: TimelineItem, timeDisplay: string, msgsHtml: string, tagsHtml: string): (r: string)
    ensures |r| > 1 && r[1] == 'r'
  {
    var head := " reveal\" style=\"--ev-color:";
    assert head[1] == 'r';
    head + CssVar(t.color) + "\">\n"
    + "        <div class=\"event-meta\">\n"
    + "          <time class=\"event-time\">" + timeDisplay + "</time>\n"
    + "          " + msgsHtml + "\n"
    + "        </div>\n"
    + "        <h3 class=\"event-title\">" + t.title + "</h3>\n"
    + "        <p class=\"event-desc\">" + t.description + "</p>\n"
    + "        <div class=\"event-tags\">\n"
    + tagsHtml + "        </div>\n"
    + "      </article>\n"
  }

  /** One journal card. */
  function CardHtml(t: TimelineItem, slot: Slot): string {
    CardOpen + (if Spanning(t.tags) then " spanning" else "")
    + CardRest(t, TimeDisplay(t, slot), MessagesHtml(t), TagRows(t.tags, |t.tags|))
  }

  /** A card carries the `spanning` class exactly when one of its tags reads "spanned all day". */
  lemma {:induction false} CardSpanning(t: TimelineItem, slot: Slot)
    ensures StartsWith(CardHtml(t, slot), CardOpen + " spanning") <==> Spanning(t.tags)
  {
    var rest := CardRest(t, TimeDisplay(t, slot), MessagesHtml(t), TagRows(t.tags, |t.tags|));
    assert " spanning"[1] == 's';
    OptionalMarker(CardOpen, " spanning", rest, Spanning(t.tags));
  }

  /** The journal's cards, one per item, in order: what `build_journal` appends. */
  function CardMarkup(items: seq<TimelineItem>, slots: seq<Slot>): (rows: seq<string>)
    requires |slots| == |items|
  {
    seq(|items|, k requires 0 <= k < |items| => CardHtml(items[k], slots[k]))
  }

  lemma CardHtmlOfParts(t: TimelineItem, slot: Slot, spanClass: string, tagsHtml: string)
    requires spanClass == (if Spanning(t.tags) then " spanning" else "") && tagsHtml == TagRows(t.tags, |t.tags|)
    ensures CardOpen + spanClass + CardRest(t, TimeDisplay(t, slot), MessagesHtml(t), tagsHtml) == CardHtml(t, slot)
  {
  }

  /** The search for the "spanned all day" tag, which stops at the first hit. */
  method FindSpanning(tags: seq<Tag>) returns (spanClass: string)
    ensures spanClass == (if Spanning(tags) then " spanning" else "")
  {
    spanClass := "";
    var j := 0;
    while j < |tags|
      invariant 0 <= j <= |tags|
      invariant spanClass == "" ==> forall k | 0 <= k < j :: tags[k].text != SpannedAllDay
      invariant spanClass != "" ==> spanClass == " spanning" && Spanning(tags)
    {
      if tags[j].text == SpannedAllDay {
        spanClass := " spanning";
        break;
      }
      j := j + 1;
    }
  }

  /** The tag chips of one card, appended in order. */
  method BuildTags(tags: seq<Tag>) returns (tagsHtml: string)
    ensures tagsHtml == TagRows(tags, |tags|)
  {
    tagsHtml := "";
    var k := 0;
    while k < |tags|
      invariant 0 <= k <= |tags|
      invariant tagsHtml == TagRows(tags, k)
    {
      TagRowsStep(tags, k);
      tagsHtml := tagsHtml + TagHtml(tags[k]);
      k := k + 1;
    }
  }

  /** One iteration of `build_journal`: the card of one item. */
  method BuildCard(t: TimelineItem, slot: Slot) returns (card: string)
    ensures card == CardHtml(t, slot)
  {
    var spanClass := FindSpanning(t.tags);
    var timeDisplay := TimeDisplay(t, slot);
    var tagsHtml := BuildTags(t.tags);
    card := CardOpen + spanClass + CardRest(t, timeDisplay, MessagesHtml(t), tagsHtml);
    CardHtmlOfParts(t, slot, spanClass, tagsHtml);
  }

  /** `build_journal`: the loop over the items, `BuildCard` being its body; a card per item, in order. */
  method BuildJournal(items: seq<TimelineItem>, slots: seq<Slot>) returns (html: string)
    requires |slots| == |items|
    ensures html == Concat(CardMarkup(items, slots))
  {
    ghost var cards := CardMarkup(items, slots);
    html := "";
    for i := 0 to |items|
      invariant html == Concat(cards[..i])
    {
      var card := BuildCard(items[i], slots[i]);
      ConcatExtend(cards, i, html, card);
      html := html + card;
    }
    TakeAll(cards);
  }

  // ---------------------------------------------------------------------
  // Workspaces and agents

  function WorkspaceHtml(w: Workspace): string {
    "      <div class=\"ws-row\">\n"
    + "        <span class=\"ws-label\">" + w.name + "</span>\n"
    + "        <div class=\"ws-track\"><div class=\"ws-fill\" style=\"width:" + w.percent
    + "%;background:linear-gradient(90deg," + CssVar(w.color) + "," + CssVar(w.colorDim) + ")\"></div></div>\n"
    + "        <span class=\"ws-num\">" + IntToString(w.count) + "</span>\n"
    + "      </div>\n"
  }

  /** The rows of `build_workspaces`, one per workspace, in order. */
  function WorkspaceMarkup(ws: seq<Workspace>): (rows: seq<string>) {
    seq(|ws|, k requires 0 <= k < |ws| => WorkspaceHtml(ws[k]))
  }

  /** `build_workspaces`: one row per workspace, in order. */
  method BuildWorkspaces(ws: seq<Workspace>) returns (html: string)
    ensures html == Concat(WorkspaceMarkup(ws))
  {
    html := Concatenate(WorkspaceMarkup(ws));
  }

  function AgentHtml(a: Agent): string {
    "      <div class=\"agent-item\">\n"
    + "        <span class=\"agent-glyph\">" + a.icon + "</span>\n"
    + "        <span class=\"agent-name\">" + a.name + "</span>\n"
    + "        <span class=\"agent-val\">" + a.count + "</span>\n"
    + "        <span class=\"agent-unit\">" + a.unitLabel + "</span>\n"
    + "      </div>\n"
  }

  /** The items of `build_agents`, one per agent, in order. */
  function AgentMarkup(agents: seq<Agent>): (rows: seq<string>) {
    seq(|agents|, k requires 0 <= k < |agents| => AgentHtml(agents[k]))
  }

  /** `build_agents`: one item per agent, in order. */
  method BuildAgents(agents: seq<Agent>) returns (html: string)
    ensures html == Concat(AgentMarkup(agents))
  {
    html := Concatenate(AgentMarkup(agents));
  }

  // ---------------------------------------------------------------------
  // Template substitution

  datatype Substitution = Substitution(key: string, value: string)

  const TemplateKeys: seq<string> := [
    "DATE_LONG", "DATE_DISPLAY", "HEADLINE", "SUBTITLE", "STATS_INLINE", "DAYMAP_LANES",
    "DAYMAP_AXIS", "JOURNAL_ITEMS", "WORKSPACE_ROWS", "AGENT_ITEMS", "HERO_NUMBER", "HERO_LABEL"]

  /** The placeholder `{{KEY}}`. */
  function Token(key: string): (tok: string)
    ensures |tok| == |key| + 4
  {
    "{{" + key + "}}"
  }

  /** The sequential `html = html.replace("{{KEY}}", value)` over the substitutions, in order. */
  function FillAll(template: string, subs: seq<Substitution>): string
    decreases |subs|
  {
    if subs == [] then template
    else
      var last := subs[|subs| - 1];
      Replace(FillAll(template, subs[..|subs| - 1]), Token(last.key), last.value)
  }

  /** A template holding none of the placeholders comes out unchanged. */
  lemma {:induction false} FillAllWithoutTokens(template: string, subs: seq<Substitution>)
    requires forall i | 0 <= i < |subs| :: !Contains(template, Token(subs[i].key))
    ensures FillAll(template, subs) == template
    decreases |subs|
  {
    if subs != [] {
      var init := subs[..|subs| - 1];
      FillAllWithoutTokens(template, init);
      ReplaceAbsent(template, Token(subs[|subs| - 1].key), subs[|subs| - 1].value);
    }
  }

  /**
   * Each step replaces every occurrence of its placeholder in the text so far
   * and keeps everything between occurrences verbatim, other `{{...}}` text
   * included: the text is cut at the placeholder and re-joined with the value.
   */
  lemma FillStep(template: string, subs: seq<Substitution>)
    requires subs != []
    ensures var before := FillAll(template, subs[..|subs| - 1]);
            var tok := Token(subs[|subs| - 1].key);
            && Join(Pieces(before, tok), tok) == before
            && FillAll(template, subs) == Join(Pieces(before, tok), subs[|subs| - 1].value)
            && forall i | 0 <= i < |Pieces(before, tok)| :: !Contains(Pieces(before, tok)[i], tok)
  {
    var last := subs[|subs| - 1];
    ReplaceByPieces(FillAll(template, subs[..|subs| - 1]), Token(last.key), last.value);
  }

  /**
   * The replacements run in a fixed order, so a placeholder inside an earlier
   * value is filled by a later step.
   */
  lemma FillOrderMatters()
    ensures FillAll("{{HEADLINE}}", [Substitution("HEADLINE", "{{HERO_LABEL}}"), Substitution("HERO_LABEL", "x")]) == "x"
  {
    var subs := [Substitution("HEADLINE", "{{HERO_LABEL}}"), Substitution("HERO_LABEL", "x")];
    assert subs[..1][..0] == [];
    assert subs[..1] == [subs[0]];
    var t1 := Token("HEADLINE");
    assert t1 == "{{HEADLINE}}";
    assert StartsWith("{{HEADLINE}}", t1);
    assert "{{HEADLINE}}"[|t1|..] == [];
    assert Replace("{{HEADLINE}}", t1, "{{HERO_LABEL}}") == "{{HERO_LABEL}}";
    var t2 := Token("HERO_LABEL");
    assert t2 == "{{HERO_LABEL}}";
    assert StartsWith("{{HERO_LABEL}}", t2);
    assert "{{HERO_LABEL}}"[|t2|..] == [];
    assert Replace("{{HERO_LABEL}}", t2, "x") == "x";
  }

  /** `main`'s loop over the replacement table. */
  method FillTemplate(template: string, subs: seq<Substitution>) returns (html: string)
    ensures html == FillAll(template, subs)
  {
    html := template;
    var i := 0;
    while i < |subs|
      invariant 0 <= i <= |subs|
      invariant html == FillAll(template, subs[..i])
    {
      assert subs[..i + 1][..i] == subs[..i];
      html := Replace(html, Token(subs[i].key), subs[i].value);
      i := i + 1;
    }
    assert subs[..|subs|] == subs;
  }

  // ---------------------------------------------------------------------
  // The whole render

  /**
   * What `main` needs of the timeline and does not check: at least one item
   * (`min` of an empty list raises), every time parses, and a non-zero axis
   * span (the lanes divide by it).
   */
  predicate Renderable(items: seq<TimelineItem>) {
    SlotsOf(items).Some? && OnAxis(items, SlotsOf(items).value)
  }

  /** One slot per item, at least one item, and an axis of non-zero span. */
  predicate OnAxis(items: seq<TimelineItem>, slots: seq<Slot>) {
    |slots| == |items| > 0 && AxisEnd(slots) - AxisStart(slots) != 0
  }

  /** The six fragments `main` builds, each the output of one `build_*` function. */
  datatype Fragments = Fragments(
    stats: string, lanes: string, axis: string, journal: string, workspaces: string, agents: string)

  /** The fragments of a day's data, given its items' slots and the axis they lie on. */
  function FragmentsOf(data: DayData, slots: seq<Slot>, axisStart: nat, axisEnd: int): Fragments
    requires |slots| == |data.timeline| && axisEnd - axisStart != 0
  {
    var items := data.timeline;
    Fragments(
      Concat(StatParts(data.stats)),
      Concat(LaneMarkup(items, slots, axisStart, axisEnd - axisStart)),
      Concat(TickMarkup(axisStart, TickCount(axisStart, axisEnd), axisEnd - axisStart)),
      Concat(CardMarkup(items, slots)),
      Concat(WorkspaceMarkup(data.workspaces)),
      Concat(AgentMarkup(data.agents)))
  }

  /** The replacement table of `main`, in its order, from the built fragments. */
  function Table(data: DayData, f: Fragments): seq<Substitution> {
    [Substitution("DATE_LONG", data.dateLong),
     Substitution("DATE_DISPLAY", data.dateDisplay),
     Substitution("HEADLINE", data.headline),
     Substitution("SUBTITLE", data.subtitle),
     Substitution("STATS_INLINE", f.stats),
     Substitution("DAYMAP_LANES", f.lanes),
     Substitution("DAYMAP_AXIS", f.axis),
     Substitution("JOURNAL_ITEMS", f.journal),
     Substitution("WORKSPACE_ROWS", f.workspaces),
     Substitution("AGENT_ITEMS", f.agents),
     Substitution("HERO_NUMBER", data.heroNumber),
     Substitution("HERO_LABEL", data.heroLabel)]
  }

  /** The table fills the twelve placeholders of the template, each once, in a fixed order. */
  lemma TableKeys(data: DayData, f: Fragments)
    ensures var subs := Table(data, f);
            |subs| == |TemplateKeys| && forall i | 0 <= i < |subs| :: subs[i].key == TemplateKeys[i]
  {
  }

  /** The replacement table of `main` for a day's data. */
  function Substitutions(data: DayData): seq<Substitution>
    requires Renderable(data.timeline)
  {
    var slots := SlotsOf(data.timeline).value;
    Table(data, FragmentsOf(data, slots, AxisStart(slots), AxisEnd(slots)))
  }

  /** The fragments of `main`, built in its order. */
  method BuildFragments(data: DayData, slots: seq<Slot>, axisStart: nat, axisEnd: int) returns (f: Fragments)
    requires |slots| == |data.timeline| && axisEnd - axisStart != 0
    ensures f == FragmentsOf(data, slots, axisStart, axisEnd)
  {
    var axisSpan := axisEnd - axisStart;
    var stats := BuildStats(data.stats);
    var lanes := BuildLanes(data.timeline, slots, axisStart, axisSpan);
    var axis := BuildAxis(axisStart, axisEnd, axisSpan);
    var journal := BuildJournal(data.timeline, slots);
    var workspaces := BuildWorkspaces(data.workspaces);
    var agents := BuildAgents(data.agents);
    f := Fragments(stats, lanes, axis, journal, workspaces, agents);
  }

  /**
   * `main` after reading its inputs: the axis, the fragments, then the
   * placeholder substitution into the template.
   */
  method Render(data: DayData, template: string) returns (html: string)
    requires Renderable(data.timeline)
    ensures html == FillAll(template, Substitutions(data))
  {
    var slots := SlotsOf(data.timeline).value;
    var axisStart, axisEnd := ComputeAxis(slots);
    var f := BuildFragments(data, slots, axisStart, axisEnd);
    html := FillTemplate(template, Table(data, f));
  }
}
