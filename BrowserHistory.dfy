/**
 * The line formatting of the browser-history extractor: Chromium timestamps,
 * visit-duration labels, gap markers between visits, sanitised titles and
 * URLs, and the list of lines written for one day.
 *
 * Times are integer microseconds, as Chromium stores them.  The local clock
 * rendering (`strftime("%H:%M:%S")` of `datetime.fromtimestamp`) and the
 * one-decimal rendering of a gap in hours are parameters.
 */
module BrowserHistory {
  import opened Wrappers
  import opened Text

  // ---------------------------------------------------------------------
  // Chromium timestamps

  /** Microseconds from 1601-01-01, Chromium's epoch, to 1970-01-01, the Unix epoch. */
  const ChromiumEpochOffset: int := 11644473600 * 1_000_000

  const MicrosPerSecond: nat := 1_000_000
  const MicrosPerMinute: nat := 60 * MicrosPerSecond
  const MicrosPerHour: nat := 60 * MicrosPerMinute

  /** `chromium_ts`: a Unix time in whole microseconds as a Chromium timestamp. */
  function ChromiumTs(unixUs: int): int {
    unixUs + ChromiumEpochOffset
  }

  /** The Unix microseconds `chromium_to_local` hands to the local clock; `ChromiumTs` undoes it. */
  function UnixMicros(ts: int): (us: int)
    ensures ChromiumTs(us) == ts
  {
    ts - ChromiumEpochOffset
  }

  /** Converting a Unix time to Chromium's scale and back gives it back. */
  lemma ChromiumRoundTrip(unixUs: int)
    ensures UnixMicros(ChromiumTs(unixUs)) == unixUs
  {
  }

  /** The offset is a whole number of seconds: 369 years, 89 of them leap years. */
  lemma ChromiumOffsetInDays()
    ensures ChromiumEpochOffset == (369 * 365 + 89) * 86400 * MicrosPerSecond
  {
  }

  // ---------------------------------------------------------------------
  // Visit durations

  /** The integer nearest p / q (ties to even), as `f"{p / q:.0f}"` prints it. */
  function Rounded(p: nat, q: nat): (n: nat)
    requires q > 0
    ensures -(q as int) <= 2 * (p - n * q) <= q
  {
    RoundNonnegative(p, q);
    RoundHalfEvenNearest(p, q);
    RoundHalfEven(p, q)
  }

  /** The numbers a duration label shows, with the units they are shown in. */
  datatype Reading = Secs(s: nat) | MinSecs(m: nat, s: nat) | HoursMins(h: nat, m: nat)

  /** The label text: "42s", "3m5s" or "2h7m". */
  function ReadingText(r: Reading): string {
    match r
    case Secs(s) => NatToString(s) + "s"
    case MinSecs(m, s) => NatToString(m) + "m" + NatToString(s) + "s"
    case HoursMins(h, m) => NatToString(h) + "h" + NatToString(m) + "m"
  }

  /** How many seconds a label stands for when read as written. */
  function Denoted(r: Reading): nat {
    match r
    case Secs(s) => s
    case MinSecs(m, s) => 60 * m + s
    case HoursMins(h, m) => 3600 * h + 60 * m
  }

  /**
   * `format_duration` for a positive duration, as written: below a minute
   * the rounded seconds; below an hour the rounded minutes and the rounded
   * seconds past the minute; otherwise the rounded hours and the rounded
   * minutes past the hour.  Each field is rounded on its own.
   */
  function DurationReadingAsWritten(us: nat): (r: Reading)
    requires us > 0
    ensures us < MicrosPerMinute ==> r.Secs?
    ensures MicrosPerMinute <= us < MicrosPerHour ==> r.MinSecs?
    ensures MicrosPerHour <= us ==> r.HoursMins?
  {
    if us < MicrosPerMinute then Secs(Rounded(us, MicrosPerSecond))
    else if us < MicrosPerHour then MinSecs(Rounded(us, MicrosPerMinute), Rounded(us % MicrosPerMinute, MicrosPerSecond))
    else HoursMins(Rounded(us, MicrosPerHour), Rounded(us % MicrosPerHour, MicrosPerMinute))
  }

  /** `format_duration` as written: "0s" for a missing, zero or negative duration. */
  function FormatDurationAsWritten(duration: Option<int>): (shown: string)
    ensures duration.None? || duration.value <= 0 ==> shown == "0s"
  {
    if duration.None? || duration.value <= 0 then "0s" else ReadingText(DurationReadingAsWritten(duration.value))
  }

  /**
   * The evident intent of `format_duration`: round the whole duration once
   * (to seconds, or to minutes once it reaches an hour) and split that total
   * into its fields, so that the label reads back as the duration.
   */
  function DurationReading(us: nat): (r: Reading)
    requires us > 0
    ensures r.MinSecs? ==> r.s < 60
    ensures r.HoursMins? ==> r.m < 60
    ensures !r.HoursMins? ==> -(MicrosPerSecond as int) <= 2 * (Denoted(r) * MicrosPerSecond - us) <= MicrosPerSecond
    ensures r.HoursMins? ==> -(MicrosPerMinute as int) <= 2 * (Denoted(r) * MicrosPerSecond - us) <= MicrosPerMinute
  {
    var secs := Rounded(us, MicrosPerSecond);
    if secs < 60 then Secs(secs)
    else if secs < 3600 then MinSecs(secs / 60, secs % 60)
    else
      var mins := Rounded(us, MicrosPerMinute);
      HoursMins(mins / 60, mins % 60)
  }

  /**
   * The label `format_duration` evidently intends: the corrected reading's
   * text.  The extractor as written uses `FormatDurationAsWritten`.
   */
  function FormatDurationCorrected(duration: Option<int>): (shown: string)
    ensures duration.None? || duration.value <= 0 ==> shown == "0s"
  {
    if duration.None? || duration.value <= 0 then "0s" else ReadingText(DurationReading(duration.value))
  }

  /** The corrected label keeps the source's units: seconds below a minute, minutes and seconds below an hour. */
  lemma ReadingUnits(us: nat)
    requires us > 0
    ensures us * 2 < 119 * MicrosPerSecond ==> DurationReading(us).Secs?
    ensures 60 * MicrosPerSecond <= us && us * 2 < 7199 * MicrosPerSecond ==> DurationReading(us).MinSecs?
    ensures 3600 * MicrosPerSecond <= us ==> DurationReading(us).HoursMins?
  {
    var secs := Rounded(us, MicrosPerSecond);
    if us * 2 < 119 * MicrosPerSecond {
      FactorBelow(secs, MicrosPerSecond, 59);
    }
    if 60 * MicrosPerSecond <= us {
      FactorAbove(secs, MicrosPerSecond, 60);
    }
    if us * 2 < 7199 * MicrosPerSecond {
      FactorBelow(secs, MicrosPerSecond, 3599);
    }
    if 3600 * MicrosPerSecond <= us {
      FactorAbove(secs, MicrosPerSecond, 3600);
    }
  }

  /** Ninety seconds come out as "2m30s" from the code as written, a label for 150 seconds. */
  lemma NinetySecondsAsWritten()
    ensures DurationReadingAsWritten(90 * MicrosPerSecond) == MinSecs(2, 30)
    ensures Denoted(DurationReadingAsWritten(90 * MicrosPerSecond)) == 150
  {
    var us := 90 * MicrosPerSecond;
    assert RoundHalfEven(us, MicrosPerMinute) == 2;
    assert us % MicrosPerMinute == 30 * MicrosPerSecond;
    RoundExact(30, MicrosPerSecond);
  }

  /**
   * The code as written also carries a rounded field up to 60 without
   * moving it into the next unit: 59.6 s is "60s" and 3599.6 s is "60m60s".
   */
  lemma AsWrittenCarries()
    ensures DurationReadingAsWritten(59_600_000) == Secs(60)
    ensures DurationReadingAsWritten(3_599_600_000) == MinSecs(60, 60)
  {
    assert RoundHalfEven(59_600_000, MicrosPerSecond) == 60;
    assert RoundHalfEven(3_599_600_000, MicrosPerMinute) == 60;
    assert 3_599_600_000 % MicrosPerMinute == 59_600_000;
  }

  /**
   * Below 59.5 seconds the code as written and the corrected reading agree:
   * both are the rounded seconds.
   */
  lemma ShortReadingsAgree(us: nat)
    requires us > 0 && us * 2 < 119 * MicrosPerSecond
    ensures DurationReadingAsWritten(us) == DurationReading(us)
  {
    FactorBelow(Rounded(us, MicrosPerSecond), MicrosPerSecond, 59);
  }

  /** The corrected label for ninety seconds is "1m30s". */
  lemma NinetySeconds()
    ensures DurationReading(90 * MicrosPerSecond) == MinSecs(1, 30)
  {
    RoundExact(90, MicrosPerSecond);
  }

  /** Reading a label's text back: the inverse of `ReadingText`. */
  function ParseReading(text: string): Option<Reading> {
    if text == [] then None
    else
      var body := text[..|text| - 1];
      var unit := text[|text| - 1];
      if unit == 's' && 'm' !in body then
        if body != [] && AllDigits(body) then Some(Secs(DigitsValue(body))) else None
      else
        var major := if unit == 's' then 'm' else 'h';
        var fields := Split(body, major);
        if (unit == 's' || unit == 'm') && |fields| == 2 && fields[0] != [] && fields[1] != []
           && AllDigits(fields[0]) && AllDigits(fields[1]) then
          var a, b := DigitsValue(fields[0]), DigitsValue(fields[1]);
          Some(if unit == 's' then MinSecs(a, b) else HoursMins(a, b))
        else None
  }

  /** Two digit strings around a unit letter split at that letter. */
  lemma SplitNumbers(a: nat, c: char, b: nat)
    requires !IsDigit(c)
    ensures Split(NatToString(a) + [c] + NatToString(b), c) == [NatToString(a), NatToString(b)]
  {
    DigitsExclude(NatToString(a), c);
    DigitsExclude(NatToString(b), c);
    SplitCons(NatToString(a), c, NatToString(b));
    assert Split(NatToString(b), c) == [NatToString(b)];
  }

  /** A duration label is unambiguous: its text reads back as the same fields. */
  lemma ParseReadingText(r: Reading)
    ensures ParseReading(ReadingText(r)) == Some(r)
  {
    var text := ReadingText(r);
    match r
    case Secs(s) =>
      assert text[..|text| - 1] == NatToString(s);
      DigitsExclude(NatToString(s), 'm');
      DigitsValueOfNatToString(s);
    case MinSecs(m, s) =>
      var body := NatToString(m) + ['m'] + NatToString(s);
      assert text[..|text| - 1] == body;
      assert body[|NatToString(m)|] == 'm';
      SplitNumbers(m, 'm', s);
      DigitsValueOfNatToString(m);
      DigitsValueOfNatToString(s);
    case HoursMins(h, m) =>
      var body := NatToString(h) + ['h'] + NatToString(m);
      assert text[..|text| - 1] == body;
      SplitNumbers(h, 'h', m);
      DigitsValueOfNatToString(h);
      DigitsValueOfNatToString(m);
  }

  /**
   * The label written for a positive duration reads back as fields within
   * half a unit of the duration, each below 60 where a larger unit precedes it.
   */
  lemma FormatDurationReadsBack(us: int)
    requires us > 0
    ensures var r := DurationReading(us);
            && ParseReading(FormatDurationCorrected(Some(us))) == Some(r)
            && -(MicrosPerMinute as int) <= 2 * (Denoted(r) * MicrosPerSecond - us) <= MicrosPerMinute
  {
    ParseReadingText(DurationReading(us));
  }

  /** The label the code as written produces reads back as the as-written fields. */
  lemma FormatDurationAsWrittenReadsBack(us: int)
    requires us > 0
    ensures ParseReading(FormatDurationAsWritten(Some(us))) == Some(DurationReadingAsWritten(us))
  {
    ParseReadingText(DurationReadingAsWritten(us));
  }

  // ---------------------------------------------------------------------
  // Gap markers

  /** A gap marker separates two visits at least 30 minutes apart. */
  const GapThresholdSeconds: nat := 30 * 60

  /**
   * The text of a gap of `gapUs` microseconds: `hoursText` renders the hours
   * to one decimal when the gap is an hour or more, otherwise the gap is
   * shown in rounded minutes.
   */
  function GapLabel(gapUs: nat, hoursText: nat -> string): (shown: string)
    ensures gapUs >= MicrosPerHour ==> shown == hoursText(gapUs) + " hours"
  {
    if gapUs >= MicrosPerHour then hoursText(gapUs) + " hours"
    else NatToString(Rounded(gapUs, MicrosPerMinute)) + " min"
  }

  /** A gap of half an hour up to an hour is shown as its nearest whole number of minutes, 30 to 60. */
  lemma GapLabelMinutes(gapUs: nat, hoursText: nat -> string)
    requires GapThresholdSeconds * MicrosPerSecond <= gapUs < MicrosPerHour
    ensures var minutes := Rounded(gapUs, MicrosPerMinute);
            && GapLabel(gapUs, hoursText) == NatToString(minutes) + " min"
            && 30 <= minutes <= 60
            && -(MicrosPerMinute as int) <= 2 * (gapUs - minutes * MicrosPerMinute) <= MicrosPerMinute
  {
    RoundBetween(gapUs, MicrosPerMinute, 30, 60);
  }

  /** The three lines a gap marker adds: a blank line, the marker, a blank line. */
  function GapMarker(gapUs: nat, hoursText: nat -> string): seq<string> {
    ["", "--- GAP: " + GapLabel(gapUs, hoursText) + " ---", ""]
  }

  // ---------------------------------------------------------------------
  // Visit rows

  /** One row of the history query: visit time, visit duration, URL and title. */
  datatype Visit = Visit(visitTime: int, duration: Option<int>, url: Option<string>, title: Option<string>)

  /** The title with each newline made a space and each carriage return dropped, cut to 70 characters. */
  function SafeTitle(title: Option<string>): (t: string)
    ensures '\n' !in t && '\r' !in t && |t| <= 70
  {
    var s := title.GetOr("");
    var oneLine := Replace(s, "\n", " ");
    var noReturn := Replace(oneLine, "\r", "");
    ReplaceRemovesChar(s, '\n', " ");
    ReplaceKeepsCharOut(oneLine, "\r", "", '\n');
    ReplaceRemovesChar(oneLine, '\r', "");
    var t := Take(noReturn, 70);
    assert forall c | c in t :: c in noReturn;
    t
  }

  /** A title with neither a newline nor a carriage return and at most 70 characters is written as it is. */
  lemma SafeTitleKeepsCleanTitle(title: string)
    requires '\n' !in title && '\r' !in title && |title| <= 70
    ensures SafeTitle(Some(title)) == title
  {
    NoCharNotContained(title, '\n');
    ReplaceAbsent(title, "\n", " ");
    NoCharNotContained(title, '\r');
    ReplaceAbsent(title, "\r", "");
  }

  /** A string without a character does not contain that character as a one-character token. */
  lemma {:induction false} NoCharNotContained(s: string, c: char)
    requires c !in s
    ensures !Contains(s, [c])
    decreases |s|
  {
    if |s| > 0 {
      assert s[..1] == [s[0]];
      NoCharNotContained(s[1..], c);
    }
  }

  /** The URL cut to its first 100 characters; a missing URL is written as empty. */
  function SafeUrl(url: Option<string>): (u: string)
    ensures url.None? ==> u == ""
    ensures url.Some? ==> |u| == (if |url.value| < 100 then |url.value| else 100) && u == url.value[..|u|]
  {
    Take(url.GetOr(""), 100)
  }

  /**
   * The line written for one visit: local clock time, the duration label as
   * `format_duration` writes it right-aligned in 8 columns, the title
   * left-aligned in 70, and the URL.
   */
  function VisitLine(v: Visit, localClock: int -> string): string {
    localClock(UnixMicros(v.visitTime)) + " | " + PadLeft(FormatDurationAsWritten(v.duration), 8)
      + " | " + PadRight(SafeTitle(v.title), 70) + " | " + SafeUrl(v.url)
  }

  /** The line the extractor evidently intends: `VisitLine` with the corrected duration label. */
  function VisitLineCorrected(v: Visit, localClock: int -> string): string {
    localClock(UnixMicros(v.visitTime)) + " | " + PadLeft(FormatDurationCorrected(v.duration), 8)
      + " | " + PadRight(SafeTitle(v.title), 70) + " | " + SafeUrl(v.url)
  }

  /** A visit of under 59.5 seconds, or of none, gets the same line from the code as written and the corrected one. */
  lemma ShortVisitLinesAgree(v: Visit, localClock: int -> string)
    requires v.duration.Some? && v.duration.value * 2 < 119 * MicrosPerSecond
    ensures VisitLine(v, localClock) == VisitLineCorrected(v, localClock)
  {
    if v.duration.value > 0 {
      ShortReadingsAgree(v.duration.value);
    }
  }

  /** The two labels of a ninety-second visit, as written and corrected. */
  lemma NinetySecondLabels()
    ensures FormatDurationAsWritten(Some(90 * MicrosPerSecond)) == "2m30s"
    ensures FormatDurationCorrected(Some(90 * MicrosPerSecond)) == "1m30s"
  {
    NinetySecondsAsWritten();
    NinetySeconds();
    assert NatToString(2) == "2" && NatToString(1) == "1";
    assert NatToString(30) == NatToString(3) + [DigitChar(0)] == "30";
  }

  /** A five-character label right-aligned in the 8-column duration field. */
  lemma PadFiveToEight(text: string)
    requires |text| == 5
    ensures PadLeft(text, 8) == "   " + text
  {
    assert Repeat(' ', 3) == "   ";
  }

  /** The two lines of a visit differ only in the duration label of their second column. */
  lemma VisitLinesOfLabels(v: Visit, localClock: int -> string, asWritten: string, corrected: string)
    requires FormatDurationAsWritten(v.duration) == asWritten && FormatDurationCorrected(v.duration) == corrected
    ensures var clock := localClock(UnixMicros(v.visitTime));
            var title := PadRight(SafeTitle(v.title), 70);
            && VisitLine(v, localClock) == clock + " | " + PadLeft(asWritten, 8) + " | " + title + " | " + SafeUrl(v.url)
            && VisitLineCorrected(v, localClock) == clock + " | " + PadLeft(corrected, 8) + " | " + title + " | " + SafeUrl(v.url)
  {
  }

  /** A ninety-second visit: the line as written shows "2m30s", the corrected line "1m30s". */
  lemma NinetySecondVisitLines(v: Visit, localClock: int -> string)
    requires v.duration == Some(90 * MicrosPerSecond)
    ensures var clock := localClock(UnixMicros(v.visitTime));
            var title := PadRight(SafeTitle(v.title), 70);
            && VisitLine(v, localClock) == clock + " | " + "   2m30s" + " | " + title + " | " + SafeUrl(v.url)
            && VisitLineCorrected(v, localClock) == clock + " | " + "   1m30s" + " | " + title + " | " + SafeUrl(v.url)
  {
    NinetySecondLabels();
    VisitLinesOfLabels(v, localClock, "2m30s", "1m30s");
    PadFiveToEight("2m30s");
    PadFiveToEight("1m30s");
    assert PadLeft("2m30s", 8) == "   2m30s";
    assert PadLeft("1m30s", 8) == "   1m30s";
  }

  /** The title column is always exactly 70 characters wide. */
  lemma TitleColumnWidth(title: Option<string>)
    ensures |PadRight(SafeTitle(title), 70)| == 70
  {
  }

  /** Whether rows i - 1 and i are far enough apart for a gap marker. */
  predicate GapBefore(rows: seq<Visit>, i: nat)
    requires i < |rows|
  {
    i > 0 && rows[i].visitTime - rows[i - 1].visitTime >= GapThresholdSeconds * MicrosPerSecond
  }

  /** What the loop writes for row i: a gap marker when the previous visit is long enough ago, then the row. */
  function RowLines(rows: seq<Visit>, i: nat, localClock: int -> string, hoursText: nat -> string): (lines: seq<string>)
    requires i < |rows|
    ensures |lines| == if GapBefore(rows, i) then 4 else 1
    ensures lines[|lines| - 1] == VisitLine(rows[i], localClock)
  {
    GapPart(rows, i, hoursText) + [VisitLine(rows[i], localClock)]
  }

  /** The gap marker written before row i, if any. */
  function GapPart(rows: seq<Visit>, i: nat, hoursText: nat -> string): (lines: seq<string>)
    requires i < |rows|
  {
    if GapBefore(rows, i) then GapMarker(rows[i].visitTime - rows[i - 1].visitTime, hoursText) else []
  }

  function Blocks(rows: seq<Visit>, localClock: int -> string, hoursText: nat -> string): seq<seq<string>> {
    seq(|rows|, i requires 0 <= i < |rows| => RowLines(rows, i, localClock, hoursText))
  }

  // ---------------------------------------------------------------------
  // The output file

  /** The header: title, source line, a rule of 90 '=' and a blank line. */
  function Header(dateStr: string, browserName: string, total: int, unique: int): seq<string> {
    [ "BROWSER HISTORY: " + dateStr,
      "Source: " + browserName + " | " + IntToString(total) + " visits | " + IntToString(unique) + " unique URLs",
      Repeat('=', 90),
      "" ]
  }

  /**
   * The lines of the output file (each is written followed by a newline):
   * the header, then either the no-visits notice or the rows in order.
   */
  function OutputLines(rows: seq<Visit>, total: int, unique: int, browserName: string, dateStr: string,
                       localClock: int -> string, hoursText: nat -> string): seq<string>
  {
    Header(dateStr, browserName, total, unique)
      + (if rows == [] then ["No visits found for " + dateStr] else Concat(Blocks(rows, localClock, hoursText)))
  }

  /** `write_output`, returning its lines: one pass over the rows, remembering the previous visit time. */
  method WriteOutput(rows: seq<Visit>, total: int, unique: int, browserName: string, dateStr: string,
                     localClock: int -> string, hoursText: nat -> string) returns (lines: seq<string>)
    ensures lines == OutputLines(rows, total, unique, browserName, dateStr, localClock, hoursText)
  {
    var header := Header(dateStr, browserName, total, unique);
    if rows == [] {
      lines := header + ["No visits found for " + dateStr];
      return;
    }
    var body: seq<string> := [];
    var prevTime: Option<int> := None;
    for i := 0 to |rows|
      invariant prevTime == if i == 0 then None else Some(rows[i - 1].visitTime)
      invariant body == Concat(Blocks(rows, localClock, hoursText)[..i])
    {
      var block := EmitRow(rows, i, prevTime, localClock, hoursText);
      BlocksStep(rows, i, localClock, hoursText);
      body := body + block;
      prevTime := Some(rows[i].visitTime);
    }
    TakeAll(Blocks(rows, localClock, hoursText));
    lines := header + body;
  }

  /** The lines for row i, given the time of the visit before it (none for the first row). */
  method EmitRow(rows: seq<Visit>, i: nat, prevTime: Option<int>, localClock: int -> string, hoursText: nat -> string)
    returns (block: seq<string>)
    requires i < |rows| && prevTime == if i == 0 then None else Some(rows[i - 1].visitTime)
    ensures block == RowLines(rows, i, localClock, hoursText)
  {
    var gap := GapMarkerBefore(rows, i, prevTime, hoursText);
    block := gap + [VisitLine(rows[i], localClock)];
  }

  /** The gap check of the loop: a marker when the previous visit is at least 30 minutes before this one. */
  method GapMarkerBefore(rows: seq<Visit>, i: nat, prevTime: Option<int>, hoursText: nat -> string)
    returns (gap: seq<string>)
    requires i < |rows| && prevTime == if i == 0 then None else Some(rows[i - 1].visitTime)
    ensures gap == GapPart(rows, i, hoursText)
  {
    gap := [];
    if prevTime.Some? {
      var gapUs := rows[i].visitTime - prevTime.value;
      if gapUs >= GapThresholdSeconds * MicrosPerSecond {
        gap := GapMarker(gapUs, hoursText);
      }
    }
  }

  /** The blocks of the first i + 1 rows extend those of the first i by row i's. */
  lemma BlocksStep(rows: seq<Visit>, i: nat, localClock: int -> string, hoursText: nat -> string)
    requires i < |rows|
    ensures Concat(Blocks(rows, localClock, hoursText)[..i + 1])
            == Concat(Blocks(rows, localClock, hoursText)[..i]) + RowLines(rows, i, localClock, hoursText)
  {
    ConcatStep(Blocks(rows, localClock, hoursText), i);
  }

  // ---------------------------------------------------------------------
  // Properties of the output

  /** How many of the first k rows follow their predecessor by at least 30 minutes. */
  function GapsBefore(rows: seq<Visit>, k: nat): nat
    requires k <= |rows|
  {
    if k == 0 then 0 else GapsBefore(rows, k - 1) + (if GapBefore(rows, k - 1) then 1 else 0)
  }

  /** The first k rows take one line each, plus three for each gap marker among them. */
  lemma {:induction false} VisitLinesPrefix(rows: seq<Visit>, k: nat, localClock: int -> string, hoursText: nat -> string)
    requires k <= |rows|
    ensures |Concat(Blocks(rows, localClock, hoursText)[..k])| == k + 3 * GapsBefore(rows, k)
  {
    if k > 0 {
      VisitLinesPrefix(rows, k - 1, localClock, hoursText);
      BlocksStep(rows, k - 1, localClock, hoursText);
    }
  }

  /** The rows take one line each, plus three for each gap marker. */
  lemma VisitLinesCount(rows: seq<Visit>, localClock: int -> string, hoursText: nat -> string)
    ensures |Concat(Blocks(rows, localClock, hoursText))| == |rows| + 3 * GapsBefore(rows, |rows|)
  {
    VisitLinesPrefix(rows, |rows|, localClock, hoursText);
    TakeAll(Blocks(rows, localClock, hoursText));
  }

  /** No gap marker comes before the first row: the visit lines open with it. */
  lemma FirstVisitLine(rows: seq<Visit>, localClock: int -> string, hoursText: nat -> string)
    requires rows != []
    ensures Concat(Blocks(rows, localClock, hoursText))[0] == VisitLine(rows[0], localClock)
  {
    var blocks := Blocks(rows, localClock, hoursText);
    ConcatAppend([blocks[0]], blocks[1..]);
    assert [blocks[0]] + blocks[1..] == blocks;
    ConcatSnoc([], blocks[0]);
    assert Concat([blocks[0]]) == blocks[0];
    assert blocks[0] == [VisitLine(rows[0], localClock)];
  }

  /** With no rows the file is the header and one notice, and no visit line. */
  lemma NoVisitsOutput(total: int, unique: int, browserName: string, dateStr: string,
                       localClock: int -> string, hoursText: nat -> string)
    ensures var lines := OutputLines([], total, unique, browserName, dateStr, localClock, hoursText);
            |lines| == 5 && lines[4] == "No visits found for " + dateStr
  {
  }
}
