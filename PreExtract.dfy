/**
 * The session pre-extractor: from the session listing and each session's
 * parsed log entries to the plain-text digest that summarising agents read.
 * It selects the sessions of a time range, keeps the user and assistant
 * messages that carry text, samples long sessions at a few points, and lays
 * out the lines of the digest.
 *
 * Timestamps are epoch milliseconds.  Turning the requested range into
 * milliseconds, the clock-time rendering of a timestamp and the current time
 * depend on the local time zone and the wall clock, and are parameters here.
 */
module PreExtract {
  import opened Wrappers
  import opened Text

  // ---------------------------------------------------------------------
  // Session listing

  /**
   * One record of the session listing.  A key the record lacks is None; the
   * code reads every one of them with a default.
   */
  datatype Session = Session(
    startedAt: Option<int>,
    endedAt: Option<int>,
    sourcePath: Option<string>,
    title: Option<string>,
    workspace: Option<string>,
    messageCount: Option<int>)

  /** Titles that mark a session run by a subagent or a teammate. */
  const SkipTitlePrefixes: seq<string> := ["<teammate-message", "Your task is to create a detailed summar"]

  /** The sort key and range key: `started_at`, 0 when missing. */
  function StartedAt(s: Session): int {
    s.startedAt.GetOr(0)
  }

  /**
   * `"subagents" in Path(path).parts` for a POSIX path: the root, empty
   * components and "." are never "subagents", so it is enough to look among
   * the '/'-separated fields.
   */
  predicate UnderSubagents(path: string) {
    "subagents" in Split(path, '/')
  }

  /** The three tests of the session filter, in the order the code applies them. */
  predicate Selected(s: Session, fromTs: int, untilTs: int) {
    fromTs <= StartedAt(s) <= untilTs
    && !UnderSubagents(s.sourcePath.GetOr(""))
    && !StartsWithAny(s.title.GetOr(""), SkipTitlePrefixes)
  }

  /** The sessions the filter keeps, in listing order. */
  function SelectedSessions(all: seq<Session>, fromTs: int, untilTs: int): seq<Session>
    decreases |all|
  {
    if all == [] then []
    else
      var last := all[|all| - 1];
      SelectedSessions(all[..|all| - 1], fromTs, untilTs) + (if Selected(last, fromTs, untilTs) then [last] else [])
  }

  /** A session is kept exactly when it passes the filter, and the kept ones are no more than the listed ones. */
  lemma {:induction false} SelectedSessionsMembers(all: seq<Session>, fromTs: int, untilTs: int)
    ensures |SelectedSessions(all, fromTs, untilTs)| <= |all|
    ensures forall s :: s in SelectedSessions(all, fromTs, untilTs) <==> s in all && Selected(s, fromTs, untilTs)
    decreases |all|
  {
    if all != [] {
      var init := all[..|all| - 1];
      SelectedSessionsMembers(init, fromTs, untilTs);
      assert all == init + [all[|all| - 1]];
    }
  }

  // ---------------------------------------------------------------------
  // Sorting by start time

  /** Ascending by `started_at`. */
  predicate SortedByStart(xs: seq<Session>) {
    forall i, j | 0 <= i < j < |xs| :: StartedAt(xs[i]) <= StartedAt(xs[j])
  }

  /** Inserts `x` after every element whose start is not later than its own. */
  function InsertByStart(xs: seq<Session>, x: Session): (r: seq<Session>)
    ensures |r| == |xs| + 1
    decreases |xs|
  {
    if xs == [] then [x]
    else if StartedAt(x) < StartedAt(xs[0]) then [x] + xs
    else [xs[0]] + InsertByStart(xs[1..], x)
  }

  /**
   * `list.sort(key=started_at)`: Python's sort is stable, so its result is the
   * one insertion sort gives, inserting each element after the equal ones
   * already placed.
   */
  function SortByStart(xs: seq<Session>): (r: seq<Session>)
    ensures |r| == |xs|
    decreases |xs|
  {
    if xs == [] then [] else InsertByStart(SortByStart(xs[..|xs| - 1]), xs[|xs| - 1])
  }

  /** The sessions of `xs` with start time `t`, in order. */
  function WithStart(xs: seq<Session>, t: int): seq<Session>
    decreases |xs|
  {
    if xs == [] then [] else (if StartedAt(xs[0]) == t then [xs[0]] else []) + WithStart(xs[1..], t)
  }

  lemma {:induction false} WithStartAppend(a: seq<Session>, b: seq<Session>, t: int)
    ensures WithStart(a + b, t) == WithStart(a, t) + WithStart(b, t)
    decreases |a|
  {
    if a == [] {
      assert a + b == b;
    } else {
      var head := if StartedAt(a[0]) == t then [a[0]] else [];
      assert (a + b)[0] == a[0];
      assert (a + b)[1..] == a[1..] + b;
      assert WithStart(a + b, t) == head + WithStart(a[1..] + b, t);
      WithStartAppend(a[1..], b, t);
      assert WithStart(a, t) == head + WithStart(a[1..], t);
    }
  }

  lemma {:induction false} WithStartNone(xs: seq<Session>, t: int)
    requires forall i | 0 <= i < |xs| :: StartedAt(xs[i]) != t
    ensures WithStart(xs, t) == []
    decreases |xs|
  {
    if xs != [] {
      WithStartNone(xs[1..], t);
    }
  }

  lemma {:induction false} InsertKeepsElements(xs: seq<Session>, x: Session)
    ensures multiset(InsertByStart(xs, x)) == multiset(xs) + multiset{x}
    decreases |xs|
  {
    if xs != [] && StartedAt(x) >= StartedAt(xs[0]) {
      InsertKeepsElements(xs[1..], x);
      assert xs == [xs[0]] + xs[1..];
    }
  }

  lemma {:induction false} InsertKeepsSorted(xs: seq<Session>, x: Session)
    requires SortedByStart(xs)
    ensures SortedByStart(InsertByStart(xs, x))
    decreases |xs|
  {
    if xs != [] && StartedAt(x) >= StartedAt(xs[0]) {
      var rest := InsertByStart(xs[1..], x);
      SortedTail(xs);
      InsertKeepsSorted(xs[1..], x);
      InsertKeepsElements(xs[1..], x);
      forall j | 0 <= j < |rest|
        ensures StartedAt(xs[0]) <= StartedAt(rest[j])
      {
        assert rest[j] in multiset(xs[1..]) + multiset{x};
      }
    }
  }

  /** Inserting keeps the order among equal start times: the new element goes last among its equals. */
  lemma {:induction false} InsertIsStable(xs: seq<Session>, x: Session, t: int)
    requires SortedByStart(xs)
    ensures WithStart(InsertByStart(xs, x), t) == WithStart(xs, t) + WithStart([x], t)
    decreases |xs|
  {
    if xs == [] {
      assert InsertByStart(xs, x) == [x];
    } else if StartedAt(x) < StartedAt(xs[0]) {
      InsertInFront(xs, x, t);
    } else {
      var rest := xs[1..];
      SortedTail(xs);
      InsertIsStable(rest, x, t);
      assert InsertByStart(xs, x) == [xs[0]] + InsertByStart(rest, x);
      WithStartAppend([xs[0]], InsertByStart(rest, x), t);
      WithStartAppend([xs[0]], rest, t);
      assert [xs[0]] + rest == xs;
    }
  }

  lemma SortedTail(xs: seq<Session>)
    requires xs != [] && SortedByStart(xs)
    ensures SortedByStart(xs[1..])
  {
    var rest := xs[1..];
    forall i, j | 0 <= i < j < |rest|
      ensures StartedAt(rest[i]) <= StartedAt(rest[j])
    {
      assert rest[i] == xs[i + 1] && rest[j] == xs[j + 1];
    }
  }

  /** An element that starts before the whole sorted sequence is first among its equals. */
  lemma InsertInFront(xs: seq<Session>, x: Session, t: int)
    requires xs != [] && SortedByStart(xs) && StartedAt(x) < StartedAt(xs[0])
    ensures WithStart([x] + xs, t) == WithStart(xs, t) + WithStart([x], t)
  {
    WithStartAppend([x], xs, t);
    if StartedAt(x) == t {
      assert forall i | 0 <= i < |xs| :: StartedAt(xs[0]) <= StartedAt(xs[i]);
      WithStartNone(xs, t);
    } else {
      assert WithStart([x], t) == [];
    }
  }

  /** The sort puts the sessions in ascending start order. */
  lemma {:induction false} SortByStartSorted(xs: seq<Session>)
    ensures SortedByStart(SortByStart(xs))
    decreases |xs|
  {
    if xs != [] {
      SortByStartSorted(xs[..|xs| - 1]);
      InsertKeepsSorted(SortByStart(xs[..|xs| - 1]), xs[|xs| - 1]);
    }
  }

  /** The sort neither loses nor invents a session. */
  lemma {:induction false} SortByStartPermutes(xs: seq<Session>)
    ensures multiset(SortByStart(xs)) == multiset(xs)
    decreases |xs|
  {
    if xs != [] {
      var init := xs[..|xs| - 1];
      SortByStartPermutes(init);
      InsertKeepsElements(SortByStart(init), xs[|xs| - 1]);
      assert xs == init + [xs[|xs| - 1]];
    }
  }

  /** The sort is stable: sessions with the same start time keep their listing order. */
  lemma {:induction false} SortByStartStable(xs: seq<Session>, t: int)
    ensures WithStart(SortByStart(xs), t) == WithStart(xs, t)
    decreases |xs|
  {
    if xs != [] {
      var init := xs[..|xs| - 1];
      var last := xs[|xs| - 1];
      SortByStartStable(init, t);
      SortByStartSorted(init);
      InsertIsStable(SortByStart(init), last, t);
      assert xs == init + [last];
      WithStartAppend(init, [last], t);
    }
  }

  /**
   * The selection in `discover_sessions`: the listing's sessions that pass
   * the filter, sorted by start time, and how many were dropped.  A listing
   * the CLI could not produce (None) gives no sessions and no drops.
   */
  method DiscoverSessions(listing: Option<seq<Session>>, fromTs: int, untilTs: int)
    returns (sessions: seq<Session>, dropped: int)
    ensures listing.None? ==> sessions == [] && dropped == 0
    ensures listing.Some? ==> sessions == SortByStart(SelectedSessions(listing.value, fromTs, untilTs))
    ensures listing.Some? ==> dropped == |listing.value| - |sessions|
  {
    if listing.None? {
      return [], 0;
    }
    var all := listing.value;
    var filtered: seq<Session> := [];
    var i := 0;
    while i < |all|
      invariant 0 <= i <= |all|
      invariant filtered == SelectedSessions(all[..i], fromTs, untilTs)
    {
      assert all[..i + 1][..i] == all[..i];
      var s := all[i];
      if Selected(s, fromTs, untilTs) {
        filtered := filtered + [s];
      }
      i := i + 1;
    }
    assert all[..|all|] == all;
    sessions := SortSessions(filtered);
    dropped := |all| - |sessions|;
  }

  /** Sorts by start time, inserting the elements one by one. */
  method SortSessions(xs: seq<Session>) returns (r: seq<Session>)
    ensures r == SortByStart(xs)
  {
    r := [];
    var i := 0;
    while i < |xs|
      invariant 0 <= i <= |xs|
      invariant r == SortByStart(xs[..i])
    {
      assert xs[..i + 1][..i] == xs[..i];
      r := InsertByStart(r, xs[i]);
      i := i + 1;
    }
    assert xs[..|xs|] == xs;
  }

  /** What the selection promises: every session in range and not a subagent's, sorted, none lost. */
  lemma DiscoverSessionsSpec(all: seq<Session>, fromTs: int, untilTs: int)
    ensures var r := SortByStart(SelectedSessions(all, fromTs, untilTs));
            SortedByStart(r)
            && (forall s :: s in r <==> s in all && Selected(s, fromTs, untilTs))
            && |r| <= |all|
  {
    var kept := SelectedSessions(all, fromTs, untilTs);
    SelectedSessionsMembers(all, fromTs, untilTs);
    SortByStartSorted(kept);
    SortByStartPermutes(kept);
    var r := SortByStart(kept);
    forall s
      ensures s in r <==> s in kept
    {
      assert s in r <==> s in multiset(r);
      assert s in kept <==> s in multiset(kept);
    }
  }

  // ---------------------------------------------------------------------
  // Log entries and the messages kept from them

  /** One element of an assistant message's content list: `type`, `text` and `name`, None when absent. */
  datatype Block = Block(kind: Option<string>, text: Option<string>, name: Option<string>)

  /** A message's `content`: a string, a list of blocks, or anything else (absent included). */
  datatype Content = Plain(body: string) | Blocks(blocks: seq<Block>) | Other

  /** One parsed line of a session log: its `type`, the message's `role` and `content`, and `cwd`. */
  datatype Entry = Entry(kind: Option<string>, role: Option<string>, content: Content, cwd: Option<string>)

  datatype Role = User | Assistant

  /** A kept message: who spoke, the text, and the tools an assistant turn called. */
  datatype Message = Message(role: Role, text: string, tools: seq<string>)

  /** User texts that the tooling, not the person, put in the log. */
  const SystemPrefixes: seq<string> := [
    "<local-command-", "<command-", "<system-reminder>",
    "<bash-input>", "<bash-stdout>", "<bash-stderr>",
    "<user-prompt-submit-hook>"]

  /**
   * The `for x in xs: if ...: out.append(...)` pattern: `f` says what one
   * element contributes to the output, if anything.
   */
  function FilterMap<A, B>(xs: seq<A>, f: A -> Option<B>): seq<B>
    decreases |xs|
  {
    if xs == [] then []
    else FilterMap(xs[..|xs| - 1], f) + (match f(xs[|xs| - 1]) case Some(y) => [y] case None => [])
  }

  /** Each output element comes from an input element, and there are no more outputs than inputs. */
  lemma {:induction false} FilterMapFrom<A, B>(xs: seq<A>, f: A -> Option<B>)
    ensures |FilterMap(xs, f)| <= |xs|
    ensures forall k | 0 <= k < |FilterMap(xs, f)| :: exists i | 0 <= i < |xs| :: f(xs[i]) == Some(FilterMap(xs, f)[k])
    decreases |xs|
  {
    if xs != [] {
      var init := xs[..|xs| - 1];
      FilterMapFrom(init, f);
      var r := FilterMap(xs, f);
      forall k | 0 <= k < |r|
        ensures exists i | 0 <= i < |xs| :: f(xs[i]) == Some(r[k])
      {
        if k < |FilterMap(init, f)| {
          var i :| 0 <= i < |init| && f(init[i]) == Some(FilterMap(init, f)[k]);
          assert xs[i] == init[i];
        } else {
          assert f(xs[|xs| - 1]) == Some(r[k]);
        }
      }
    }
  }

  /** The output is empty exactly when no element contributes. */
  lemma {:induction false} FilterMapEmpty<A, B>(xs: seq<A>, f: A -> Option<B>)
    ensures FilterMap(xs, f) == [] <==> forall k | 0 <= k < |xs| :: f(xs[k]).None?
    decreases |xs|
  {
    if xs != [] {
      var init := xs[..|xs| - 1];
      FilterMapEmpty(init, f);
      assert forall k | 0 <= k < |init| :: init[k] == xs[k];
    }
  }

  /** The pass works element by element: the output of a concatenation is the concatenation of the outputs. */
  lemma {:induction false} FilterMapAppend<A, B>(a: seq<A>, b: seq<A>, f: A -> Option<B>)
    ensures FilterMap(a + b, f) == FilterMap(a, f) + FilterMap(b, f)
    decreases |b|
  {
    if b == [] {
      assert a + b == a;
    } else {
      var init := b[..|b| - 1];
      assert (a + b)[..|a + b| - 1] == a + init;
      assert (a + b)[|a + b| - 1] == b[|b| - 1];
      FilterMapAppend(a, init, f);
    }
  }

  /** A block's stripped text, when it is a text block whose text is not blank. */
  function BlockText(b: Block): Option<string> {
    if b.kind == Some("text") && Strip(b.text.GetOr("")) != [] then Some(Strip(b.text.GetOr(""))) else None
  }

  /** A tool-use block's tool name, "unknown" when it has none. */
  function BlockTool(b: Block): Option<string> {
    if b.kind == Some("tool_use") then Some(b.name.GetOr("unknown")) else None
  }

  /**
   * The message an entry contributes, if any: a user entry with non-blank
   * string content that the tooling did not generate, or an assistant entry
   * with at least one non-blank text block, its texts joined by newlines
   * and its tools in block order.
   */
  function Classify(e: Entry): Option<Message> {
    if e.kind == Some("user") && e.role == Some("user") then
      match e.content
      case Plain(body) =>
        var text := Strip(body);
        if text == [] || StartsWithAny(text, SystemPrefixes) then None else Some(Message(User, text, []))
      case _ => None
    else if e.kind == Some("assistant") && e.role == Some("assistant") then
      match e.content
      case Blocks(blocks) =>
        var texts := FilterMap(blocks, BlockText);
        if texts == [] then None else Some(Message(Assistant, Join(texts, "\n"), FilterMap(blocks, BlockTool)))
      case _ => None
    else None
  }

  /** Collects the texts and tool names of an assistant turn's blocks. */
  method CollectBlocks(blocks: seq<Block>) returns (texts: seq<string>, tools: seq<string>)
    ensures texts == FilterMap(blocks, BlockText) && tools == FilterMap(blocks, BlockTool)
  {
    texts, tools := [], [];
    var i := 0;
    while i < |blocks|
      invariant 0 <= i <= |blocks|
      invariant texts == FilterMap(blocks[..i], BlockText) && tools == FilterMap(blocks[..i], BlockTool)
    {
      assert blocks[..i + 1][..i] == blocks[..i];
      var block := blocks[i];
      if block.kind == Some("text") {
        var t := Strip(block.text.GetOr(""));
        if t != [] {
          texts := texts + [t];
        }
      } else if block.kind == Some("tool_use") {
        tools := tools + [block.name.GetOr("unknown")];
      }
      i := i + 1;
    }
    assert blocks[..|blocks|] == blocks;
  }

  /** `extract_meaningful`: one pass over the log, keeping the entries that carry a message. */
  method ExtractMeaningful(entries: seq<Entry>) returns (meaningful: seq<Message>)
    ensures meaningful == FilterMap(entries, Classify)
  {
    meaningful := [];
    var i := 0;
    while i < |entries|
      invariant 0 <= i <= |entries|
      invariant meaningful == FilterMap(entries[..i], Classify)
    {
      assert entries[..i + 1][..i] == entries[..i];
      var entry := entries[i];
      if entry.kind == Some("user") && entry.role == Some("user") {
        if entry.content.Plain? && Strip(entry.content.body) != [] {
          var text := Strip(entry.content.body);
          if !StartsWithAny(text, SystemPrefixes) {
            meaningful := meaningful + [Message(User, text, [])];
          }
        }
      } else if entry.kind == Some("assistant") && entry.role == Some("assistant") {
        if entry.content.Blocks? {
          var texts, tools := CollectBlocks(entry.content.blocks);
          if texts != [] {
            meaningful := meaningful + [Message(Assistant, Join(texts, "\n"), tools)];
          }
        }
      }
      i := i + 1;
    }
    assert entries[..|entries|] == entries;
  }

  /** Not blank, and no whitespace at either end: what `strip()` leaves of a non-blank text. */
  predicate Trimmed(t: string) {
    t != [] && !IsSpace(t[0]) && !IsSpace(t[|t| - 1])
  }

  /**
   * What a kept message looks like: its text is not blank and has no
   * whitespace at either end; a user message names no tools and does not
   * start with a tooling prefix.
   */
  predicate Tidy(m: Message) {
    Trimmed(m.text)
    && (m.role == User ==> m.tools == [] && !StartsWithAny(m.text, SystemPrefixes))
  }

  /** Joining non-blank pieces starts with the first piece's first character and ends with the last's last. */
  lemma {:induction false} JoinEnds(parts: seq<string>, sep: string)
    requires parts != [] && forall k | 0 <= k < |parts| :: parts[k] != []
    ensures Join(parts, sep) != []
    ensures Join(parts, sep)[0] == parts[0][0]
    ensures Join(parts, sep)[|Join(parts, sep)| - 1] == parts[|parts| - 1][|parts[|parts| - 1]| - 1]
    decreases |parts|
  {
    if |parts| > 1 {
      var rest := parts[1..];
      JoinEnds(rest, sep);
      assert rest[|rest| - 1] == parts[|parts| - 1];
    }
  }

  /** The texts of an assistant turn are not blank and have no whitespace at either end. */
  lemma BlockTextsTidy(blocks: seq<Block>)
    ensures forall k | 0 <= k < |FilterMap(blocks, BlockText)| :: Trimmed(FilterMap(blocks, BlockText)[k])
  {
    var texts := FilterMap(blocks, BlockText);
    FilterMapFrom(blocks, BlockText);
    forall k | 0 <= k < |texts|
      ensures Trimmed(texts[k])
    {
      var i :| 0 <= i < |blocks| && BlockText(blocks[i]) == Some(texts[k]);
      BlockTextTrimmed(blocks[i]);
    }
  }

  lemma BlockTextTrimmed(b: Block)
    requires BlockText(b).Some?
    ensures Trimmed(BlockText(b).value)
  {
    var t := Strip(b.text.GetOr(""));
    assert BlockText(b).value == t;
  }

  /** Every message an entry yields is tidy. */
  lemma ClassifyTidy(e: Entry)
    requires Classify(e).Some?
    ensures Tidy(Classify(e).value)
  {
    if e.kind == Some("assistant") && e.role == Some("assistant") && e.content.Blocks? {
      var texts := FilterMap(e.content.blocks, BlockText);
      BlockTextsTidy(e.content.blocks);
      JoinEnds(texts, "\n");
    }
  }

  /** Every kept message is tidy, and there are no more messages than entries. */
  lemma MessagesTidy(entries: seq<Entry>)
    ensures |FilterMap(entries, Classify)| <= |entries|
    ensures forall k | 0 <= k < |FilterMap(entries, Classify)| :: Tidy(FilterMap(entries, Classify)[k])
  {
    var ms := FilterMap(entries, Classify);
    FilterMapFrom(entries, Classify);
    forall k | 0 <= k < |ms|
      ensures Tidy(ms[k])
    {
      var i :| 0 <= i < |entries| && Classify(entries[i]) == Some(ms[k]);
      ClassifyTidy(entries[i]);
    }
  }

  /** A user entry is kept exactly when its string content is not blank and not tooling output; its text is the content stripped. */
  lemma UserEntryKept(e: Entry, body: string)
    requires e.kind == Some("user") && e.role == Some("user") && e.content == Plain(body)
    ensures Classify(e).Some? <==> !AllSpace(body) && !StartsWithAny(Strip(body), SystemPrefixes)
    ensures Classify(e).Some? ==> Classify(e).value == Message(User, Strip(body), [])
  {
  }

  /** An assistant entry is kept exactly when one of its blocks is a non-blank text block. */
  lemma AssistantEntryKept(e: Entry, blocks: seq<Block>)
    requires e.kind == Some("assistant") && e.role == Some("assistant") && e.content == Blocks(blocks)
    ensures Classify(e).Some? <==> exists k | 0 <= k < |blocks| :: BlockText(blocks[k]).Some?
  {
    FilterMapEmpty(blocks, BlockText);
  }

  /** Entries of any other kind, or whose role does not match their type, never yield a message. */
  lemma OtherEntryDropped(e: Entry)
    requires !(e.kind == Some("user") && e.role == Some("user")) && !(e.kind == Some("assistant") && e.role == Some("assistant"))
    ensures Classify(e) == None
  {
  }

  // ---------------------------------------------------------------------
  // Sampling long sessions

  /** A labelled slice of a session's messages. */
  datatype Section = Section(heading: string, entries: seq<Message>)

  /** The default number of messages per sample slice. */
  const SampleSize: int := 5

  /** `min(10, max(sample_size, n // 20))`: between 1 and 10 for every session long enough to be sampled. */
  function SliceSize(n: nat, sampleSize: int): (ss: nat)
    requires n > 20
    ensures 1 <= ss <= 10
    ensures ss == 10 || ss == n / 20 || ss == sampleSize
  {
    var m := if sampleSize < n / 20 then n / 20 else sampleSize;
    if m < 10 then m else 10
  }

  /** Where the middle slice of a medium session begins: `max(ss, n // 2 - ss // 2)`. */
  function MiddleStart(n: nat, ss: nat): nat {
    if n / 2 - ss / 2 < ss then ss else n / 2 - ss / 2
  }

  const MarkLabels: seq<string> := ["EARLY in session", "MIDDLE of session", "LATE in session"]

  /**
   * Where the k-th intermediate slice of a large session begins:
   * `int(n * frac)` for frac 0.25, 0.5 and 0.75.  The three fractions are
   * exact in binary floating point, so the product is exact and its
   * truncation is the integer quotient.
   */
  function MarkIndex(n: nat, k: nat): nat
    requires k < 3
  {
    [n / 4, n / 2, 3 * n / 4][k]
  }

  function AroundLabel(heading: string, idx: nat): string {
    heading + " - around message " + NatToString(idx)
  }

  function MarkSection(m: seq<Message>, ss: nat, k: nat): Section
    requires k < 3
  {
    var idx := MarkIndex(|m|, k);
    Section(AroundLabel(MarkLabels[k], idx), Slice(m, idx, idx + ss))
  }

  function StartSection(m: seq<Message>, ss: nat): Section {
    Section("START of session", Take(m, ss))
  }

  /** `meaningful[-ss:]`. */
  function EndSection(m: seq<Message>, ss: nat): Section {
    Section("END of session", Slice(m, -(ss as int), |m|))
  }

  function MiddleSection(m: seq<Message>, ss: nat): Section {
    var lo := MiddleStart(|m|, ss);
    Section(AroundLabel("MIDDLE of session", |m| / 2), Slice(m, lo, lo + ss))
  }

  /** The slices of a session of more than 150 messages. */
  function LargeSample(m: seq<Message>, ss: nat): seq<Section> {
    [StartSection(m, ss)] + seq(3, k requires 0 <= k < 3 => MarkSection(m, ss, k)) + [EndSection(m, ss)]
  }

  /**
   * `sample_entries`: the whole session up to 20 messages; START and END
   * up to 60; START, MIDDLE and END up to 150; beyond that START, three
   * evenly spaced intermediate slices and END.
   */
  function Sampled(m: seq<Message>, sampleSize: int): seq<Section> {
    var n := |m|;
    if n <= 20 then [Section("FULL SESSION", m)]
    else
      var ss := SliceSize(n, sampleSize);
      if n <= 60 then [StartSection(m, ss), EndSection(m, ss)]
      else if n <= 150 then [StartSection(m, ss), MiddleSection(m, ss), EndSection(m, ss)]
      else LargeSample(m, ss)
  }

  method SampleEntries(m: seq<Message>, sampleSize: int) returns (sections: seq<Section>)
    ensures sections == Sampled(m, sampleSize)
  {
    var n := |m|;
    if n <= 20 {
      return [Section("FULL SESSION", m)];
    }
    var ss := SliceSize(n, sampleSize);
    if n <= 60 {
      return [StartSection(m, ss), EndSection(m, ss)];
    }
    if n <= 150 {
      return [StartSection(m, ss), MiddleSection(m, ss), EndSection(m, ss)];
    }
    sections := SampleLarge(m, ss);
  }

  /** The loop of `sample_entries` over the three intermediate points of a large session. */
  method SampleLarge(m: seq<Message>, ss: nat) returns (sections: seq<Section>)
    ensures sections == LargeSample(m, ss)
  {
    var n := |m|;
    ghost var marks := seq(3, k requires 0 <= k < 3 => MarkSection(m, ss, k));
    sections := [StartSection(m, ss)];
    for i := 0 to 3
      invariant sections == [StartSection(m, ss)] + marks[..i]
    {
      var idx := MarkIndex(n, i);
      sections := sections + [Section(AroundLabel(MarkLabels[i], idx), Slice(m, idx, idx + ss))];
      assert marks[..i + 1] == marks[..i] + [marks[i]];
    }
    assert marks[..3] == marks;
    sections := sections + [EndSection(m, ss)];
  }

  /** The number of sample points grows with the session: 1, 2, 3 or 5. */
  lemma SampledCount(m: seq<Message>, sampleSize: int)
    ensures |Sampled(m, sampleSize)| == if |m| <= 20 then 1 else if |m| <= 60 then 2 else if |m| <= 150 then 3 else 5
  {
  }

  /** Where each slice of a sampled session starts. */
  function WindowStarts(n: nat, ss: nat): seq<nat>
    requires n > 20 && ss <= 10
  {
    if n <= 60 then [0, n - ss]
    else if n <= 150 then [0, MiddleStart(n, ss), n - ss]
    else [0, n / 4, n / 2, 3 * n / 4, n - ss]
  }

  /** Consecutive windows of `ss` elements starting at `w` do not overlap and stay inside `n`. */
  predicate Disjoint(w: seq<nat>, ss: nat, n: nat) {
    (forall k | 0 <= k < |w| - 1 :: w[k] + ss <= w[k + 1]) && (forall k | 0 <= k < |w| :: w[k] + ss <= n)
  }

  /** Each section holds the `ss` messages from its window's start on. */
  predicate Windowed(m: seq<Message>, secs: seq<Section>, w: seq<nat>, ss: nat) {
    |w| == |secs| && forall k | 0 <= k < |w| :: w[k] + ss <= |m| && secs[k].entries == m[w[k]..w[k] + ss]
  }

  lemma WindowStartsDisjoint(n: nat, ss: nat)
    requires n > 20 && 1 <= ss <= 10
    ensures var w := WindowStarts(n, ss);
            w[0] == 0 && w[|w| - 1] == n - ss && Disjoint(w, ss, n)
  {
  }

  /** START is a prefix and END a suffix of the session. */
  lemma StartEndWindows(m: seq<Message>, ss: nat)
    requires 1 <= ss <= 10 && |m| > 20
    ensures StartSection(m, ss).entries == m[..ss]
    ensures EndSection(m, ss).entries == m[|m| - ss..]
  {
  }

  lemma ShortWindows(m: seq<Message>, ss: nat)
    requires 1 <= ss <= 10 && 20 < |m| <= 60
    ensures Windowed(m, [StartSection(m, ss), EndSection(m, ss)], WindowStarts(|m|, ss), ss)
  {
    StartEndWindows(m, ss);
  }

  lemma MediumWindows(m: seq<Message>, ss: nat)
    requires 1 <= ss <= 10 && 60 < |m| <= 150
    ensures Windowed(m, [StartSection(m, ss), MiddleSection(m, ss), EndSection(m, ss)], WindowStarts(|m|, ss), ss)
  {
    StartEndWindows(m, ss);
    var lo := MiddleStart(|m|, ss);
    assert MiddleSection(m, ss).entries == m[lo..lo + ss];
  }

  lemma LargeWindows(m: seq<Message>, ss: nat)
    requires 1 <= ss <= 10 && 150 < |m|
    ensures Windowed(m, LargeSample(m, ss), WindowStarts(|m|, ss), ss)
  {
    StartEndWindows(m, ss);
    var n := |m|;
    var secs := LargeSample(m, ss);
    var w := WindowStarts(n, ss);
    forall k | 1 <= k <= 3
      ensures w[k] + ss <= n && secs[k].entries == m[w[k]..w[k] + ss]
    {
      assert secs[k] == MarkSection(m, ss, k - 1);
      assert w[k] == MarkIndex(n, k - 1);
    }
  }

  /**
   * A sampled session of more than 20 messages is a series of windows of
   * exactly `ss` consecutive messages each, the first at the start and the
   * last at the end of the session, each beginning after the previous one
   * ends: the slices never overlap and never run off the end.
   */
  lemma SampledWindows(m: seq<Message>, sampleSize: int)
    requires |m| > 20
    ensures var ss := SliceSize(|m|, sampleSize);
            var w := WindowStarts(|m|, ss);
            w[0] == 0 && w[|w| - 1] == |m| - ss && Disjoint(w, ss, |m|)
            && Windowed(m, Sampled(m, sampleSize), w, ss)
  {
    var n, ss := |m|, SliceSize(|m|, sampleSize);
    WindowStartsDisjoint(n, ss);
    if n <= 60 {
      ShortWindows(m, ss);
    } else if n <= 150 {
      MediumWindows(m, ss);
    } else {
      LargeWindows(m, ss);
    }
  }

  /** A session of at most 20 messages is passed whole. */
  lemma SampledShortWhole(m: seq<Message>, sampleSize: int)
    requires |m| <= 20
    ensures Sampled(m, sampleSize) == [Section("FULL SESSION", m)]
  {
  }

  // ---------------------------------------------------------------------
  // Formatting a session

  /** The longest assistant text printed whole. */
  const AssistantTextMax: nat := 1000

  /**
   * `truncate`: a text of at most `maxLen` characters is kept; a longer one
   * is cut to its first `maxLen` characters, the trailing whitespace of the
   * cut is dropped and "..." marks the cut.
   */
  function Truncate(text: string, maxLen: nat): (r: string)
    ensures |text| <= maxLen ==> r == text
    ensures |text| > maxLen ==>
      |r| >= 3 && r[|r| - 3..] == "..." && |r| <= maxLen + 3
      && var kept := r[..|r| - 3];
         kept == text[..|kept|]
         && (kept == [] || !IsSpace(kept[|kept| - 1]))
         && (forall i | |kept| <= i < maxLen :: IsSpace(text[i]))
  {
    if |text| <= maxLen then text
    else
      var kept := RStrip(text[..maxLen]);
      assert (kept + "...")[..|kept|] == kept;
      kept + "..."
  }

  /** A truncated text is never more than three characters longer than the limit. */
  lemma TruncateBound(text: string, maxLen: nat)
    ensures |Truncate(text, maxLen)| <= maxLen + 3
  {
  }

  /** `format_entry`: the lines one message contributes. */
  function FormatEntry(m: Message): (lines: seq<string>)
    ensures m.role == Assistant && m.tools != [] ==> |lines| == 3
    ensures m.role == User || m.tools == [] ==> |lines| == 2
    ensures lines[|lines| - 1] == ""
  {
    var head := if m.role == User then "USER: " + m.text else "ASSISTANT: " + Truncate(m.text, AssistantTextMax);
    if m.role == User || m.tools == [] then [head, ""]
    else [head, "[used tools: " + Join(m.tools, ", ") + "]", ""]
  }

  /** An assistant's entry lists its tools on a line of its own exactly when it used any. */
  lemma FormatEntryTools(m: Message)
    requires m.role == Assistant
    ensures FormatEntry(m)[0] == "ASSISTANT: " + Truncate(m.text, AssistantTextMax)
    ensures m.tools != [] <==> |FormatEntry(m)| == 3
    ensures m.tools != [] ==> FormatEntry(m)[1] == "[used tools: " + Join(m.tools, ", ") + "]"
  {
  }

  /** `format_epoch_ms`: "??:??" for a missing (zero) timestamp, otherwise the local clock time. */
  function ClockTime(epochMs: int, localTime: int -> string): (r: string)
    ensures epochMs == 0 ==> r == "??:??"
    ensures epochMs != 0 ==> r == localTime(epochMs)
  {
    if epochMs == 0 then "??:??" else localTime(epochMs)
  }

  /** The five header lines of a session block. */
  function SessionHeader(meta: Session, localTime: int -> string): seq<string> {
    ["Title: " + Take(meta.title.GetOr("Untitled"), 80),
     "Workspace: " + meta.workspace.GetOr("unknown"),
     "Time: " + ClockTime(meta.startedAt.GetOr(0), localTime) + " - " + ClockTime(meta.endedAt.GetOr(0), localTime)
       + " | Messages: " + IntToString(meta.messageCount.GetOr(0)),
     "---",
     ""]
  }

  const NoContentLine: string := "[NO MEANINGFUL CONTENT]"

  /** The lines of one sample section: its label, a blank line, then each message's lines. */
  function SectionLines(sec: Section): seq<string> {
    ["[" + sec.heading + "]", ""] + Concat(EntryBlocks(sec.entries))
  }

  /** The lines of each message, in order. */
  function EntryBlocks(entries: seq<Message>): seq<seq<string>> {
    seq(|entries|, k requires 0 <= k < |entries| => FormatEntry(entries[k]))
  }

  /** The lines of each section, in order. */
  function SectionBlocks(secs: seq<Section>): seq<seq<string>> {
    seq(|secs|, k requires 0 <= k < |secs| => SectionLines(secs[k]))
  }

  /** The lines of all sections, in order. */
  function SectionsLines(secs: seq<Section>): seq<string> {
    Concat(SectionBlocks(secs))
  }

  /** The lines `format_session` joins with newlines. */
  function SessionLines(meta: Session, m: seq<Message>, sampleSize: int, localTime: int -> string): seq<string> {
    SessionHeader(meta, localTime) + (if m == [] then [NoContentLine] else SectionsLines(Sampled(m, sampleSize)))
  }

  /** `format_session`: the header, then every sampled section with its messages. */
  method FormatSession(meta: Session, m: seq<Message>, sampleSize: int, localTime: int -> string) returns (text: string)
    ensures text == Join(SessionLines(meta, m, sampleSize, localTime), "\n")
  {
    var lines := SessionHeader(meta, localTime);
    if m == [] {
      lines := lines + [NoContentLine];
      return Join(lines, "\n");
    }
    var sections := SampleEntries(m, sampleSize);
    var body := WriteSections(sections);
    lines := lines + body;
    text := Join(lines, "\n");
  }

  /** The loop of `format_session` over the sampled sections and their messages. */
  method WriteSections(sections: seq<Section>) returns (lines: seq<string>)
    ensures lines == SectionsLines(sections)
  {
    lines := [];
    for i := 0 to |sections|
      invariant lines == Concat(SectionBlocks(sections)[..i])
    {
      ConcatStep(SectionBlocks(sections), i);
      var entryLines := Concatenate(EntryBlocks(sections[i].entries));
      lines := lines + (["[" + sections[i].heading + "]", ""] + entryLines);
    }
    TakeAll(SectionBlocks(sections));
  }

  /** The title line holds at most 80 characters of the title. */
  lemma SessionTitleBound(meta: Session, m: seq<Message>, sampleSize: int, localTime: int -> string)
    ensures var first := SessionLines(meta, m, sampleSize, localTime)[0];
            StartsWith(first, "Title: ") && |first| <= |"Title: "| + 80
  {
    var first := SessionLines(meta, m, sampleSize, localTime)[0];
    assert first[..|"Title: "|] == "Title: ";
  }

  /** The line after the header says "[NO MEANINGFUL CONTENT]" exactly when there are no messages. */
  lemma SessionNoContent(meta: Session, m: seq<Message>, sampleSize: int, localTime: int -> string)
    ensures SessionLines(meta, m, sampleSize, localTime)[5] == NoContentLine <==> m == []
  {
    if m != [] {
      var secs := Sampled(m, sampleSize);
      SampledFirst(m, sampleSize);
      SectionsLinesHead(secs);
      var heading := secs[0].heading;
      assert SessionLines(meta, m, sampleSize, localTime)[5] == "[" + heading + "]";
      assert ("[" + heading + "]")[1] == heading[0];
    }
  }

  /** The first section of a sample is the whole session or its start. */
  lemma SampledFirst(m: seq<Message>, sampleSize: int)
    requires m != []
    ensures Sampled(m, sampleSize) != []
    ensures Sampled(m, sampleSize)[0].heading in {"FULL SESSION", "START of session"}
  {
  }

  /** The lines of a series of sections begin with the first section's label. */
  lemma SectionsLinesHead(secs: seq<Section>)
    requires secs != []
    ensures SectionsLines(secs) != [] && SectionsLines(secs)[0] == "[" + secs[0].heading + "]"
  {
    var blocks := SectionBlocks(secs);
    assert blocks == [blocks[0]] + blocks[1..];
    ConcatAppend([blocks[0]], blocks[1..]);
    assert [blocks[0]][..0] == [];
    assert Concat([blocks[0]]) == blocks[0];
  }

  // ---------------------------------------------------------------------
  // Workspace of a session

  /** `if cwd:` on a string that may be missing: present and not empty. */
  predicate Truthy(s: Option<string>) {
    s.Some? && s.value != ""
  }

  /** `get_workspace_from_entries`: the first non-empty `cwd` of the log, or "unknown". */
  function WorkspaceOf(entries: seq<Entry>): (w: string)
    ensures (forall i | 0 <= i < |entries| :: !Truthy(entries[i].cwd)) ==> w == "unknown"
    ensures forall i | 0 <= i < |entries| && Truthy(entries[i].cwd) && (forall j | 0 <= j < i :: !Truthy(entries[j].cwd))
              :: w == entries[i].cwd.value
    decreases |entries|
  {
    if entries == [] then "unknown"
    else if Truthy(entries[0].cwd) then entries[0].cwd.value
    else
      var w := WorkspaceOf(entries[1..]);
      assert forall i | 1 <= i < |entries| :: entries[i] == entries[1..][i - 1];
      w
  }

  // ---------------------------------------------------------------------
  // The digest file

  function Rule(): string {
    Repeat('=', 50)
  }

  function SessionBlock(i: nat, total: nat, content: string): seq<string> {
    ["--- SESSION " + NatToString(i + 1) + " of " + NatToString(total) + " ---", content, ""]
  }

  /** How many sessions are written: `zip` stops at the shorter list. */
  function Written(sessions: seq<Session>, contents: seq<string>): nat {
    if |sessions| < |contents| then |sessions| else |contents|
  }

  /** The six lines that open the digest. */
  function DigestHeader(sessions: seq<Session>, filteredCount: int, generated: string): seq<string> {
    [Rule(), "PRE-EXTRACTED SESSIONS",
     "Sessions: " + NatToString(|sessions|) + " (" + IntToString(filteredCount) + " filtered as subagent/teammate)",
     "Generated: " + generated, Rule(), ""]
  }

  /** The three lines that close the digest. */
  function DigestFooter(): seq<string> {
    [Rule(), "END OF PRE-EXTRACTED SESSIONS", Rule()]
  }

  /** One block per session written. */
  function SessionBlocks(sessions: seq<Session>, contents: seq<string>): seq<seq<string>> {
    var n := Written(sessions, contents);
    seq(n, i requires 0 <= i < n => SessionBlock(i, |sessions|, contents[i]))
  }

  /** The lines of the digest, before they are joined with newlines. */
  function DigestLines(sessions: seq<Session>, contents: seq<string>, filteredCount: int, generated: string): seq<string> {
    DigestHeader(sessions, filteredCount, generated)
    + (if sessions == [] then ["No sessions found in this time range."] else Concat(SessionBlocks(sessions, contents)))
    + DigestFooter()
  }

  /**
   * The digest holds its six header lines, three lines per session written
   * (or the one "no sessions" notice), and its three closing lines.
   */
  lemma DigestLinesCount(sessions: seq<Session>, contents: seq<string>, filteredCount: int, generated: string)
    ensures |DigestLines(sessions, contents, filteredCount, generated)|
            == 9 + (if sessions == [] then 1 else 3 * Written(sessions, contents))
  {
    ConcatUniform(SessionBlocks(sessions, contents), 3);
  }

  /** The line list `write_output` builds; `generated` is the current local time, as the code formats it. */
  method WriteOutputLines(sessions: seq<Session>, contents: seq<string>, filteredCount: int, generated: string)
    returns (lines: seq<string>)
    ensures lines == DigestLines(sessions, contents, filteredCount, generated)
  {
    var body: seq<string> := [];
    if sessions == [] {
      body := ["No sessions found in this time range."];
    } else {
      var n := Written(sessions, contents);
      for i := 0 to n
        invariant body == Concat(SessionBlocks(sessions, contents)[..i])
      {
        ConcatStep(SessionBlocks(sessions, contents), i);
        body := body + SessionBlock(i, |sessions|, contents[i]);
      }
      TakeAll(SessionBlocks(sessions, contents));
    }
    lines := DigestHeader(sessions, filteredCount, generated) + body + DigestFooter();
  }

  // ---------------------------------------------------------------------
  // Hourly distribution labels

  /**
   * The hour field of a timeline group label "YYYY-MM-DD HH:00": the text
   * between the first and second space, cut at its first colon.  A label
   * without a space contributes no hour.
   */
  function HourOfLabel(group: string): (r: Option<string>)
    ensures ' ' !in group <==> r == None
    ensures r.Some? ==> ' ' !in r.value && ':' !in r.value
  {
    if ' ' in group then
      var fields := Split(group, ' ');
      Some(Split(fields[1], ':')[0])
    else None
  }

  /** A label made of a date, a space and "HH:MM" gives back its hour field. */
  lemma HourOfLabelReadsHour(date: string, hour: string, rest: string)
    requires ' ' !in date && ' ' !in hour && ':' !in hour && ' ' !in rest
    ensures HourOfLabel(date + " " + hour + ":" + rest) == Some(hour)
  {
    var time := hour + ":" + rest;
    assert date + " " + hour + ":" + rest == date + [' '] + time;
    SplitCons(date, ' ', time);
    assert ' ' !in time;
    assert Split(time, ' ') == [time];
    assert time == hour + [':'] + rest;
    SplitCons(hour, ':', rest);
  }
}
