/**
 * The handful of Python string operations the scripts rely on, with the
 * properties the rest of the model uses: `str(int)`, `strip`/`rstrip`,
 * `split` on one character, `join`, `replace`, clamped slicing, repetition
 * and padding in format specifications.  Strings are sequences of code
 * points, as Python's `str` is.
 */
module Text {

  // ---------------------------------------------------------------------
  // Prefixes and substrings

  predicate StartsWith(s: string, prefix: string) {
    |prefix| <= |s| && s[..|prefix|] == prefix
  }

  /**
   * A marker that may or may not follow `pre`: the text starts with `pre + marker`
   * exactly when the marker is there, provided what follows differs from it early.
   */
  lemma OptionalMarker(pre: string, marker: string, rest: string, present: bool)
    requires |marker| > 1 && |rest| > 1 && rest[1] != marker[1]
    ensures StartsWith(pre + (if present then marker else "") + rest, pre + marker) <==> present
  {
    var s := pre + (if present then marker else "") + rest;
    if present {
      assert s[..|pre + marker|] == pre + marker;
    } else {
      assert s == pre + rest;
      assert s[|pre| + 1] == rest[1];
      assert (pre + marker)[|pre| + 1] == marker[1];
    }
  }

  /** `any(s.startswith(p) for p in prefixes)`, or `s.startswith(tuple)`. */
  predicate StartsWithAny(s: string, prefixes: seq<string>) {
    exists i | 0 <= i < |prefixes| :: StartsWith(s, prefixes[i])
  }

  /** `t in s` for strings. */
  predicate Contains(s: string, t: string)
    decreases |s|
  {
    StartsWith(s, t) || (|s| > 0 && Contains(s[1..], t))
  }

  lemma {:induction false} ContainsAppend(a: string, b: string, t: string)
    requires Contains(a, t)
    ensures Contains(a + b, t)
    decreases |a|
  {
    if StartsWith(a, t) {
      assert (a + b)[..|t|] == a[..|t|];
    } else {
      assert (a + b)[1..] == a[1..] + b;
      ContainsAppend(a[1..], b, t);
    }
  }

  // ---------------------------------------------------------------------
  // Decimal digits: Python's str(int) and int()/float() of a digit string

  predicate IsDigit(c: char) {
    '0' <= c <= '9'
  }

  predicate AllDigits(s: string) {
    forall i | 0 <= i < |s| :: IsDigit(s[i])
  }

  /** A digit string holds no character that is not a digit. */
  lemma DigitsExclude(s: string, c: char)
    requires AllDigits(s) && !IsDigit(c)
    ensures c !in s
  {
  }

  function DigitChar(d: nat): (c: char)
    requires d < 10
    ensures IsDigit(c) && c as int - '0' as int == d
  {
    ('0' as int + d) as char
  }

  /** `str(n)` for a non-negative integer: its decimal digits, no leading zero. */
  function NatToString(n: nat): (r: string)
    ensures |r| >= 1 && AllDigits(r)
    ensures r[0] == '0' ==> n == 0
    decreases n
  {
    if n < 10 then [DigitChar(n)] else NatToString(n / 10) + [DigitChar(n % 10)]
  }

  /** `str(i)` for any integer. */
  function IntToString(i: int): (r: string)
    ensures |r| >= 1
    ensures i >= 0 ==> AllDigits(r)
    ensures i < 0 ==> r[0] == '-' && AllDigits(r[1..])
  {
    if i < 0 then "-" + NatToString(-i) else NatToString(i)
  }

  /** The value of a string of decimal digits (leading zeros allowed). */
  function DigitsValue(s: string): nat
    requires AllDigits(s)
  {
    if s == [] then 0 else DigitsValue(s[..|s| - 1]) * 10 + (s[|s| - 1] as int - '0' as int)
  }

  /** Reading back the decimal text of `n` gives `n`. */
  lemma {:induction false} DigitsValueOfNatToString(n: nat)
    ensures DigitsValue(NatToString(n)) == n
    decreases n
  {
    if n >= 10 {
      var r := NatToString(n);
      assert r[..|r| - 1] == NatToString(n / 10);
      DigitsValueOfNatToString(n / 10);
    }
  }

  /** A leading zero does not change the value of a digit string. */
  lemma {:induction false} DigitsValueLeadingZero(s: string)
    requires AllDigits(s)
    ensures AllDigits("0" + s) && DigitsValue("0" + s) == DigitsValue(s)
    decreases |s|
  {
    if s != [] {
      assert ("0" + s)[..|"0" + s| - 1] == "0" + s[..|s| - 1];
      DigitsValueLeadingZero(s[..|s| - 1]);
    }
  }

  /** Two different numbers never print the same (used to tell labels apart). */
  lemma NatToStringInjective(a: nat, b: nat)
    requires NatToString(a) == NatToString(b)
    ensures a == b
  {
    DigitsValueOfNatToString(a);
    DigitsValueOfNatToString(b);
  }

  /** `f"{n:02d}"` for a non-negative integer: at least two digits, zero-padded. */
  function ZeroPad2(n: nat): (r: string)
    ensures |r| >= 2 && AllDigits(r) && DigitsValue(r) == n
    ensures n < 100 ==> |r| == 2
  {
    DigitsValueOfNatToString(n);
    if n < 10 then
      DigitsValueLeadingZero(NatToString(n));
      "0" + NatToString(n)
    else
      NatToString(n)
  }

  // ---------------------------------------------------------------------
  // Whitespace stripping

  /** The characters Python's `str.isspace()` (and so `strip()`) treats as whitespace. */
  predicate IsSpace(c: char) {
    ('\t' <= c <= '\r') || ('\U{1c}' <= c <= ' ') || c == '\U{85}' || c == '\U{a0}'
    || c == '\U{1680}' || ('\U{2000}' <= c <= '\U{200a}') || c == '\U{2028}' || c == '\U{2029}'
    || c == '\U{202f}' || c == '\U{205f}' || c == '\U{3000}'
  }

  predicate AllSpace(s: string) {
    forall i | 0 <= i < |s| :: IsSpace(s[i])
  }

  /** `s.rstrip()`: the longest prefix of `s` that does not end in whitespace. */
  function RStrip(s: string): (r: string)
    ensures |r| <= |s| && r == s[..|r|]
    ensures forall i | |r| <= i < |s| :: IsSpace(s[i])
    ensures r == [] || !IsSpace(r[|r| - 1])
    decreases |s|
  {
    if s == [] || !IsSpace(s[|s| - 1]) then s else RStrip(s[..|s| - 1])
  }

  /** `s.lstrip()`: the longest suffix of `s` that does not start with whitespace. */
  function LStrip(s: string): (r: string)
    ensures |r| <= |s| && r == s[|s| - |r|..]
    ensures forall i | 0 <= i < |s| - |r| :: IsSpace(s[i])
    ensures r == [] || !IsSpace(r[0])
    decreases |s|
  {
    if s == [] || !IsSpace(s[0]) then s else LStrip(s[1..])
  }

  /** `s.strip()`. */
  function Strip(s: string): (r: string)
    ensures |r| <= |s|
    ensures r == [] || (!IsSpace(r[0]) && !IsSpace(r[|r| - 1]))
    ensures r == [] <==> AllSpace(s)
  {
    StripEmptyIffAllSpace(s);
    LStrip(RStrip(s))
  }

  lemma StripEmptyIffAllSpace(s: string)
    ensures LStrip(RStrip(s)) == [] <==> AllSpace(s)
  {
    var t := RStrip(s);
    assert forall i | 0 <= i < |t| :: t[i] == s[i];
  }

  /** `s.rstrip(c)` for a single character `c`. */
  function TrimTrailing(s: string, c: char): (r: string)
    ensures |r| <= |s| && r == s[..|r|]
    ensures r == [] || r[|r| - 1] != c
    decreases |s|
  {
    if s == [] || s[|s| - 1] != c then s else TrimTrailing(s[..|s| - 1], c)
  }

  /** Only copies of `c` are stripped. */
  lemma {:induction false} TrimTrailingOnlyStrips(s: string, c: char)
    ensures forall i | |TrimTrailing(s, c)| <= i < |s| :: s[i] == c
    decreases |s|
  {
    if s != [] && s[|s| - 1] == c {
      TrimTrailingOnlyStrips(s[..|s| - 1], c);
    }
  }

  /** Stripping `c` from the right also strips any run of `c` appended first. */
  lemma {:induction false} TrimTrailingRepeat(s: string, c: char, k: nat)
    ensures TrimTrailing(s + Repeat(c, k), c) == TrimTrailing(s, c)
    decreases k
  {
    if k > 0 {
      var t := s + Repeat(c, k);
      assert t[|t| - 1] == c;
      assert t[..|t| - 1] == s + Repeat(c, k - 1);
      TrimTrailingRepeat(s, c, k - 1);
    } else {
      assert s + Repeat(c, k) == s;
    }
  }

  // ---------------------------------------------------------------------
  // Splitting and joining

  function IndexOf(s: string, c: char): (i: nat)
    requires c in s
    ensures i < |s| && s[i] == c && c !in s[..i]
  {
    if s[0] == c then 0 else 1 + IndexOf(s[1..], c)
  }

  /** `sep.join(parts)`. */
  function Join(parts: seq<string>, sep: string): string
    decreases |parts|
  {
    if |parts| == 0 then ""
    else if |parts| == 1 then parts[0]
    else parts[0] + sep + Join(parts[1..], sep)
  }

  /** `s.split(c)` for a single separator character. */
  function Split(s: string, c: char): (parts: seq<string>)
    ensures |parts| >= 1
    ensures forall i | 0 <= i < |parts| :: c !in parts[i]
    decreases |s|
  {
    if c !in s then [s]
    else
      var i := IndexOf(s, c);
      [s[..i]] + Split(s[i + 1..], c)
  }

  /** Joining the fields with the separator gives back the string. */
  lemma {:induction false} SplitJoin(s: string, c: char)
    ensures Join(Split(s, c), [c]) == s
    decreases |s|
  {
    if c in s {
      var i := IndexOf(s, c);
      var rest := s[i + 1..];
      var ps := Split(rest, c);
      SplitJoin(rest, c);
      assert Split(s, c) == [s[..i]] + ps;
      assert ([s[..i]] + ps)[1..] == ps;
      assert Join([s[..i]] + ps, [c]) == s[..i] + [c] + Join(ps, [c]);
      assert s == s[..i] + [c] + rest;
    }
  }

  /** A field free of the separator, then the separator, then the rest, splits as expected. */
  lemma SplitCons(field: string, c: char, rest: string)
    requires c !in field
    ensures Split(field + [c] + rest, c) == [field] + Split(rest, c)
  {
    var s := field + [c] + rest;
    assert s[..|field|] == field;
    IndexOfFirst(s, c, |field|);
    assert s[|field| + 1..] == rest;
  }

  /** The index of the first occurrence is determined by being one. */
  lemma {:induction false} IndexOfFirst(s: string, c: char, k: nat)
    requires k < |s| && s[k] == c && c !in s[..k]
    ensures IndexOf(s, c) == k
  {
    if k > 0 {
      assert s[0] == s[..k][0];
      assert s[1..][..k - 1] == s[1..k];
      assert forall j | 0 <= j < k - 1 :: s[1..k][j] == s[..k][j + 1];
      IndexOfFirst(s[1..], c, k - 1);
    }
  }

  /** `"".join(parts)`, as the `html += piece` loops build it: element by element from the left. */
  function Concat<T>(parts: seq<seq<T>>): seq<T>
    decreases |parts|
  {
    if parts == [] then [] else Concat(parts[..|parts| - 1]) + parts[|parts| - 1]
  }

  lemma ConcatSnoc<T>(parts: seq<seq<T>>, x: seq<T>)
    ensures Concat(parts + [x]) == Concat(parts) + x
  {
    assert (parts + [x])[..|parts|] == parts;
  }

  /** The concatenation of the first i + 1 parts extends that of the first i by part i. */
  lemma ConcatStep<T>(parts: seq<seq<T>>, i: nat)
    requires i < |parts|
    ensures Concat(parts[..i + 1]) == Concat(parts[..i]) + parts[i]
  {
    assert parts[..i + 1] == parts[..i] + [parts[i]];
    ConcatSnoc(parts[..i], parts[i]);
  }

  /** An accumulator holding the first i parts, extended by part i, holds the first i + 1. */
  lemma ConcatExtend<T>(parts: seq<seq<T>>, i: nat, acc: seq<T>, part: seq<T>)
    requires i < |parts| && acc == Concat(parts[..i]) && part == parts[i]
    ensures acc + part == Concat(parts[..i + 1])
  {
    ConcatStep(parts, i);
  }

  lemma TakeAll<T>(s: seq<T>)
    ensures s[..|s|] == s
  {
  }

  /** Parts of one common length k concatenate to k times as many elements as there are parts. */
  lemma {:induction false} ConcatUniform<T>(parts: seq<seq<T>>, k: nat)
    requires forall i | 0 <= i < |parts| :: |parts[i]| == k
    ensures |Concat(parts)| == k * |parts|
  {
    if parts != [] {
      var init := parts[..|parts| - 1];
      ConcatUniform(init, k);
      assert Concat(parts) == Concat(init) + parts[|parts| - 1];
      assert k * |parts| == k * |init| + k;
    }
  }

  /** The `html = ""; for ...: html += piece` loop over pieces already rendered. */
  method Concatenate<T>(parts: seq<seq<T>>) returns (s: seq<T>)
    ensures s == Concat(parts)
  {
    s := [];
    var i := 0;
    while i < |parts|
      invariant 0 <= i <= |parts|
      invariant s == Concat(parts[..i])
    {
      assert parts[..i + 1] == parts[..i] + [parts[i]];
      ConcatSnoc(parts[..i], parts[i]);
      s := s + parts[i];
      i := i + 1;
    }
    assert parts[..|parts|] == parts;
  }

  lemma {:induction false} ConcatAppend<T>(a: seq<seq<T>>, b: seq<seq<T>>)
    ensures Concat(a + b) == Concat(a) + Concat(b)
    decreases |b|
  {
    if b == [] {
      assert a + b == a;
    } else {
      assert a + b == (a + b[..|b| - 1]) + [b[|b| - 1]];
      ConcatSnoc(a + b[..|b| - 1], b[|b| - 1]);
      ConcatAppend(a, b[..|b| - 1]);
      ConcatSnoc(b[..|b| - 1], b[|b| - 1]);
      assert b[..|b| - 1] + [b[|b| - 1]] == b;
    }
  }

  /** `c * n` for a character. */
  function Repeat(c: char, n: nat): (r: string)
    ensures |r| == n && forall i | 0 <= i < n :: r[i] == c
  {
    seq(n, _ => c)
  }

  /** `f"{s:>w}"`: right-aligned in a field of width `w`, never truncated. */
  function PadLeft(s: string, w: nat): (r: string)
    ensures |r| == if |s| < w then w else |s|
    ensures r[|r| - |s|..] == s && AllSpace(r[..|r| - |s|])
  {
    var r := (if |s| < w then Repeat(' ', w - |s|) else "") + s;
    assert r[|r| - |s|..] == s;
    r
  }

  /** `f"{s:<w}"`: left-aligned in a field of width `w`, never truncated. */
  function PadRight(s: string, w: nat): (r: string)
    ensures |r| == if |s| < w then w else |s|
    ensures r[..|s|] == s && AllSpace(r[|s|..])
  {
    var r := s + (if |s| < w then Repeat(' ', w - |s|) else "");
    assert r[..|s|] == s;
    r
  }

  // ---------------------------------------------------------------------
  // Python slicing

  /** How Python normalises one slice bound of a sequence of length `n`. */
  function SliceBound(i: int, n: nat): (b: nat)
    ensures b <= n
    ensures 0 <= i <= n ==> b == i
    ensures i > n ==> b == n
    ensures i < 0 && i + n >= 0 ==> b == n + i
  {
    if i < 0 then (if i + n < 0 then 0 else i + n) else if i > n then n else i
  }

  /** `s[lo:hi]`, which never fails: out-of-range bounds are clamped and negative ones count from the end. */
  function Slice<T>(s: seq<T>, lo: int, hi: int): (r: seq<T>)
    ensures |r| <= |s|
    ensures 0 <= lo && 0 <= hi ==> |r| <= if hi < lo then 0 else hi - lo
    ensures 0 <= lo <= hi <= |s| ==> r == s[lo..hi]
    ensures 0 <= lo <= |s| <= hi ==> r == s[lo..]
  {
    var a := SliceBound(lo, |s|);
    var b := SliceBound(hi, |s|);
    if a < b then s[a..b] else []
  }

  /** `s[:k]`. */
  function Take<T>(s: seq<T>, k: int): (r: seq<T>)
    ensures k >= 0 ==> |r| == if k < |s| then k else |s|
    ensures k >= 0 ==> r == s[..|r|]
  {
    Slice(s, 0, k)
  }

  // ---------------------------------------------------------------------
  // str.replace

  /**
   * `s.replace(tok, v)` for a non-empty token: one scan from the left,
   * replacing each occurrence it meets and resuming after it.
   */
  function Replace(s: string, tok: string, v: string): string
    requires tok != []
    decreases |s|
  {
    if |s| < |tok| then s
    else if s[..|tok|] == tok then v + Replace(s[|tok|..], tok, v)
    else [s[0]] + Replace(s[1..], tok, v)
  }

  /**
   * The stretches of `s` between the occurrences of `tok` that `Replace` meets:
   * its reference definition.  `s` is these pieces joined by `tok`, the result
   * of `Replace` is the same pieces joined by `v`, and no piece contains `tok`.
   */
  function Pieces(s: string, tok: string): (ps: seq<string>)
    requires tok != []
    ensures |ps| >= 1
    decreases |s|
  {
    if |s| < |tok| then [s]
    else if s[..|tok|] == tok then [""] + Pieces(s[|tok|..], tok)
    else
      var p := Pieces(s[1..], tok);
      [[s[0]] + p[0]] + p[1..]
  }

  lemma {:induction false} JoinConsHead(c: char, ps: seq<string>, sep: string)
    requires |ps| >= 1
    ensures Join([[c] + ps[0]] + ps[1..], sep) == [c] + Join(ps, sep)
  {
    var qs := [[c] + ps[0]] + ps[1..];
    if |ps| > 1 {
      assert qs[1..] == ps[1..];
    }
  }

  /** Joining the pieces by the token gives back the string. */
  lemma {:induction false} PiecesJoin(s: string, tok: string)
    requires tok != []
    ensures Join(Pieces(s, tok), tok) == s
    decreases |s|
  {
    if |s| < |tok| {
    } else if s[..|tok|] == tok {
      PiecesJoin(s[|tok|..], tok);
      assert Pieces(s, tok)[1..] == Pieces(s[|tok|..], tok);
      assert s == tok + s[|tok|..];
    } else {
      PiecesJoin(s[1..], tok);
      JoinConsHead(s[0], Pieces(s[1..], tok), tok);
      assert s == [s[0]] + s[1..];
    }
  }

  /** Joining the pieces by the replacement gives the result of `Replace`. */
  lemma {:induction false} PiecesReplace(s: string, tok: string, v: string)
    requires tok != []
    ensures Join(Pieces(s, tok), v) == Replace(s, tok, v)
    decreases |s|
  {
    if |s| < |tok| {
    } else if s[..|tok|] == tok {
      var rest := s[|tok|..];
      var pr := Pieces(rest, tok);
      PiecesReplace(rest, tok, v);
      assert Pieces(s, tok) == [""] + pr;
      assert ([""] + pr)[1..] == pr;
      assert Join([""] + pr, v) == "" + v + Join(pr, v);
      assert Replace(s, tok, v) == v + Replace(rest, tok, v);
    } else {
      var rest := s[1..];
      var p := Pieces(rest, tok);
      PiecesReplace(rest, tok, v);
      assert Pieces(s, tok) == [[s[0]] + p[0]] + p[1..];
      JoinConsHead(s[0], p, v);
      assert Replace(s, tok, v) == [s[0]] + Replace(rest, tok, v);
    }
  }

  /** No piece contains the token. */
  lemma {:induction false} PiecesClean(s: string, tok: string)
    requires tok != []
    ensures forall i | 0 <= i < |Pieces(s, tok)| :: !Contains(Pieces(s, tok)[i], tok)
    decreases |s|
  {
    var ps := Pieces(s, tok);
    if |s| < |tok| {
      NoContainsShort(s, tok);
    } else if s[..|tok|] == tok {
      var pr := Pieces(s[|tok|..], tok);
      PiecesClean(s[|tok|..], tok);
      assert ps == [""] + pr;
      assert !Contains("", tok) by { NoContainsShort("", tok); }
      forall i | 0 <= i < |ps| ensures !Contains(ps[i], tok) {
        if i > 0 { assert ps[i] == pr[i - 1]; }
      }
    } else {
      var rest := s[1..];
      var p := Pieces(rest, tok);
      PiecesClean(rest, tok);
      PiecePrefix(rest, tok);
      var head := [s[0]] + p[0];
      assert ps == [head] + p[1..];
      assert !Contains(head, tok) by {
        assert head == s[..|head|];
        assert |tok| <= |head| ==> head[..|tok|] == s[..|tok|];
        assert head[1..] == p[0];
      }
      forall i | 0 <= i < |ps| ensures !Contains(ps[i], tok) {
        if i > 0 { assert ps[i] == p[i]; }
      }
    }
  }

  /** Every occurrence of `tok` is replaced and everything between occurrences is kept. */
  lemma ReplaceByPieces(s: string, tok: string, v: string)
    requires tok != []
    ensures Join(Pieces(s, tok), tok) == s
    ensures Join(Pieces(s, tok), v) == Replace(s, tok, v)
    ensures forall i | 0 <= i < |Pieces(s, tok)| :: !Contains(Pieces(s, tok)[i], tok)
  {
    PiecesJoin(s, tok);
    PiecesReplace(s, tok, v);
    PiecesClean(s, tok);
  }

  /** The first piece is a prefix of the string. */
  lemma {:induction false} PiecePrefix(s: string, tok: string)
    requires tok != []
    ensures |Pieces(s, tok)[0]| <= |s| && Pieces(s, tok)[0] == s[..|Pieces(s, tok)[0]|]
    decreases |s|
  {
    if |s| >= |tok| && s[..|tok|] != tok {
      PiecePrefix(s[1..], tok);
    }
  }

  lemma NoContainsShort(s: string, tok: string)
    requires |s| < |tok|
    ensures !Contains(s, tok)
    decreases |s|
  {
    if |s| > 0 { NoContainsShort(s[1..], tok); }
  }

  /** A string without the token comes out of `Replace` unchanged. */
  lemma {:induction false} ReplaceAbsent(s: string, tok: string, v: string)
    requires tok != [] && !Contains(s, tok)
    ensures Replace(s, tok, v) == s
    decreases |s|
  {
    if |s| >= |tok| {
      assert s[..|tok|] != tok;
      ReplaceAbsent(s[1..], tok, v);
    }
  }

  /** A character that is neither in `s` nor in `v` is not in the result. */
  lemma {:induction false} ReplaceKeepsCharOut(s: string, tok: string, v: string, c: char)
    requires tok != [] && c !in s && c !in v
    ensures c !in Replace(s, tok, v)
    decreases |s|
  {
    if |s| >= |tok| {
      if s[..|tok|] == tok {
        ReplaceKeepsCharOut(s[|tok|..], tok, v, c);
      } else {
        ReplaceKeepsCharOut(s[1..], tok, v, c);
      }
    }
  }

  /** Replacing a one-character token by text without that character removes it altogether. */
  lemma {:induction false} ReplaceRemovesChar(s: string, c: char, v: string)
    requires c !in v
    ensures c !in Replace(s, [c], v)
    decreases |s|
  {
    if |s| >= 1 {
      if s[..1] == [c] {
        ReplaceRemovesChar(s[1..], c, v);
      } else {
        assert s[0] != c by { assert s[..1] == [s[0]]; }
        ReplaceRemovesChar(s[1..], c, v);
      }
    }
  }

  // ---------------------------------------------------------------------
  // Rounding and decimal fractions

  /** The integer nearest to p / q, a tie going to the even neighbour (Python's `round`). */
  function RoundHalfEven(p: int, q: int): int
    requires q > 0
  {
    var n0 := p / q;
    var r := p % q;
    if 2 * r > q || (2 * r == q && n0 % 2 == 1) then n0 + 1 else n0
  }

  /**
   * The rounded quotient is within half a step of p / q, and a tie (the
   * quotient exactly halfway) goes to the even neighbour.
   */
  lemma RoundHalfEvenNearest(p: int, q: int)
    requires q > 0
    ensures var n := RoundHalfEven(p, q);
            && -q <= 2 * (p - n * q) <= q
            && (2 * (p - n * q) == q ==> n % 2 == 0)
            && (2 * (p - n * q) == -q ==> n % 2 == 0)
  {
    var n0 := p / q;
    var r := p % q;
    assert p == n0 * q + r;
    if 2 * r > q || (2 * r == q && n0 % 2 == 1) {
      assert p - (n0 + 1) * q == r - q;
    }
  }

  /** `round(p / q)` for a divisor of either sign. */
  function RoundRatio(p: int, q: int): int
    requires q != 0
  {
    if q > 0 then RoundHalfEven(p, q) else RoundHalfEven(-p, -q)
  }

  /** x * y for naturals is a natural, by repeated addition. */
  lemma {:induction false} MulNonnegative(x: nat, y: nat)
    ensures x * y >= 0
  {
    if x > 0 {
      MulNonnegative(x - 1, y);
      assert x * y == (x - 1) * y + y;
    }
  }

  /** Multiplying by a natural keeps an order. */
  lemma MulMonotone(a: int, b: int, q: nat)
    requires a <= b
    ensures a * q <= b * q
  {
    MulNonnegative(b - a, q);
    assert b * q == a * q + (b - a) * q;
  }

  lemma FactorBelow(n: int, q: int, b: int)
    requires q > 0 && n * q < (b + 1) * q
    ensures n <= b
  {
    if b + 1 <= n {
      MulMonotone(b + 1, n, q);
      assert false;
    }
  }

  lemma FactorAbove(n: int, q: int, b: int)
    requires q > 0 && (b - 1) * q < n * q
    ensures b <= n
  {
    if n <= b - 1 {
      MulMonotone(n, b - 1, q);
      assert false;
    }
  }

  /** A ratio between two whole numbers rounds to a whole number between them. */
  lemma RoundBetween(p: int, q: int, lo: int, hi: int)
    requires q > 0 && lo * q <= p <= hi * q
    ensures lo <= RoundHalfEven(p, q) <= hi
  {
    var n := RoundHalfEven(p, q);
    RoundHalfEvenNearest(p, q);
    assert (hi + 1) * q == hi * q + q;
    FactorBelow(n, q, hi);
    assert (lo - 1) * q == lo * q - q;
    FactorAbove(n, q, lo);
  }

  /** A share that is not negative does not round below zero. */
  lemma RoundNonnegative(p: int, q: int)
    requires q > 0 && p >= 0
    ensures RoundHalfEven(p, q) >= 0
  {
    var n := RoundHalfEven(p, q);
    RoundHalfEvenNearest(p, q);
    assert (0 - 1) * q == -q;
    FactorAbove(n, q, 0);
  }

  /** Two rounded shares of a whole add up to at most one more than the whole. */
  lemma RoundSumBound(p1: int, p2: int, q: int, total: int)
    requires q > 0 && p1 + p2 <= total * q
    ensures RoundHalfEven(p1, q) + RoundHalfEven(p2, q) <= total + 1
  {
    RoundHalfEvenNearest(p1, q);
    RoundHalfEvenNearest(p2, q);
    NearestSumBound(p1, p2, q, total, RoundHalfEven(p1, q), RoundHalfEven(p2, q));
  }

  lemma NearestSumBound(p1: int, p2: int, q: int, total: int, n1: int, n2: int)
    requires q > 0 && p1 + p2 <= total * q
    requires -q <= 2 * (p1 - n1 * q) && -q <= 2 * (p2 - n2 * q)
    ensures n1 + n2 <= total + 1
  {
    assert (n1 + n2) * q == n1 * q + n2 * q;
    assert (total + 2) * q == total * q + 2 * q;
    FactorBelow(n1 + n2, q, total + 1);
  }

  /** An exact quotient rounds to itself. */
  lemma RoundExact(k: int, q: int)
    requires q > 0
    ensures RoundHalfEven(k * q, q) == k
  {
    RoundBetween(k * q, q, k, k);
  }

  /**
   * Python's `str` of the float nearest n / 100: the decimal with its
   * trailing zero dropped, but at least one fraction digit ("25.0", "8.3",
   * "83.33").
   */
  function HundredthsText(n: int): (r: string)
    ensures |r| >= 3
    ensures n >= 0 ==> IsDigit(r[0])
    ensures n < 0 ==> r[0] == '-'
  {
    var a := if n < 0 then -n else n;
    (if n < 0 then "-" else "") + NatToString(a / 100) + "." + FractionDigits(a % 100)
  }

  /** The fraction digits of `round(x, 2)`'s text for `frac` hundredths: Python drops a trailing zero. */
  function FractionDigits(frac: nat): (f: string)
    requires frac < 100
  {
    if frac % 10 == 0 then [DigitChar(frac / 10)] else ZeroPad2(frac)
  }

  /** One digit for whole tenths, otherwise two digits ending in a non-zero one; either way they read back. */
  lemma FractionDigitsReadBack(frac: nat)
    requires frac < 100
    ensures var f := FractionDigits(frac);
            && AllDigits(f)
            && (|f| == 1 || (|f| == 2 && f[1] != '0'))
            && DigitsValue(f) * (if |f| == 1 then 10 else 1) == frac
  {
    var f := FractionDigits(frac);
    if frac % 10 != 0 {
      assert |f| == 2;
      assert DigitsValue(f) == DigitsValue(f[..1]) * 10 + (f[1] as int - '0' as int);
    }
  }

  /**
   * The text of n hundredths reads back as n: the whole part, a point, and
   * one or two fraction digits; two only when the second is not zero.
   */
  lemma HundredthsTextReadsBack(n: nat)
    ensures var parts := Split(HundredthsText(n), '.');
            && |parts| == 2 && AllDigits(parts[0]) && AllDigits(parts[1])
            && DigitsValue(parts[0]) == n / 100
            && (|parts[1]| == 1 || (|parts[1]| == 2 && parts[1][1] != '0'))
            && DigitsValue(parts[1]) * (if |parts[1]| == 1 then 10 else 1) == n % 100
  {
    HundredthsSplit(n);
    FractionDigitsReadBack(n % 100);
    DigitsValueOfNatToString(n / 100);
  }

  /** The point splits the text of n hundredths into its whole part and its fraction digits. */
  lemma HundredthsSplit(n: nat)
    ensures Split(HundredthsText(n), '.') == [NatToString(n / 100), FractionDigits(n % 100)]
  {
    var w := NatToString(n / 100);
    var f := FractionDigits(n % 100);
    FractionDigitsReadBack(n % 100);
    assert HundredthsText(n) == w + ['.'] + f;
    DigitsExclude(w, '.');
    DigitsExclude(f, '.');
    SplitCons(w, '.', f);
    assert Split(f, '.') == [f];
  }
}
