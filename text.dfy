/**
 * String helpers shared by every module: the subset of Python's `str`
 * behaviour that the SOP generator relies on (strip, lower/upper, find,
 * rfind, split, join, splitlines, startswith/endswith and `in`).
 */
module Text {

  /** The code-point ranges of the characters Python's `str.isspace()` accepts, i.e. what
      `strip()` removes. */
  function SpaceRange(i: nat): (r: (int, int)) {
    if i == 0 then (9, 13)
    else if i == 1 then (28, 32)
    else if i == 2 then (0x85, 0x85)
    else if i == 3 then (0xA0, 0xA0)
    else if i == 4 then (0x1680, 0x1680)
    else if i == 5 then (0x2000, 0x200A)
    else if i == 6 then (0x2028, 0x2029)
    else if i == 7 then (0x202F, 0x202F)
    else if i == 8 then (0x205F, 0x205F)
    else (0x3000, 0x3000)
  }

  const SpaceRanges: nat := 10

  /** Code point `n` lies in one of the ranges `i`, `i + 1`, ... */
  predicate InSpaceRanges(n: int, i: nat)
    decreases SpaceRanges - i
  {
    i < SpaceRanges && (SpaceRange(i).0 <= n <= SpaceRange(i).1 || InSpaceRanges(n, i + 1))
  }

  predicate IsSpace(c: char) {
    InSpaceRanges(c as int, 0)
  }

  predicate IsBlank(s: string) {
    forall i :: 0 <= i < |s| ==> IsSpace(s[i])
  }

  /** Number of leading whitespace characters. */
  function LeadingSpaces(s: string): (n: nat)
    ensures n <= |s|
  {
    if |s| > 0 && IsSpace(s[0]) then 1 + LeadingSpaces(s[1..]) else 0
  }

  /** The leading run is all whitespace, and it is maximal. */
  lemma {:induction false} LeadingSpacesSpec(s: string)
    ensures forall i :: 0 <= i < LeadingSpaces(s) ==> IsSpace(s[i])
    ensures LeadingSpaces(s) == |s| || !IsSpace(s[LeadingSpaces(s)])
  {
    if |s| > 0 && IsSpace(s[0]) {
      LeadingSpacesSpec(s[1..]);
      forall i | 0 < i < LeadingSpaces(s) ensures IsSpace(s[i]) {
        assert s[i] == s[1..][i - 1];
      }
    }
  }

  /** Number of trailing whitespace characters. */
  function TrailingSpaces(s: string): (n: nat)
    ensures n <= |s|
  {
    if |s| > 0 && IsSpace(s[|s| - 1]) then 1 + TrailingSpaces(s[..|s| - 1]) else 0
  }

  /** The trailing run is all whitespace, and it is maximal. */
  lemma {:induction false} TrailingSpacesSpec(s: string)
    ensures forall i :: |s| - TrailingSpaces(s) <= i < |s| ==> IsSpace(s[i])
    ensures TrailingSpaces(s) == |s| || !IsSpace(s[|s| - TrailingSpaces(s) - 1])
  {
    if |s| > 0 && IsSpace(s[|s| - 1]) {
      var t := s[..|s| - 1];
      TrailingSpacesSpec(t);
      forall i | |s| - TrailingSpaces(s) <= i < |s| - 1 ensures IsSpace(s[i]) {
        assert s[i] == t[i];
      }
    }
  }

  /** Python `s.lstrip()`. */
  function LStrip(s: string): string {
    s[LeadingSpaces(s)..]
  }

  /** Python `s.rstrip()`. */
  function RStrip(s: string): string {
    s[..|s| - TrailingSpaces(s)]
  }

  /** Python `s.strip()`: whitespace removed from both ends. */
  function Strip(s: string): (r: string)
    ensures |r| <= |s|
    decreases |s|
  {
    if |s| > 0 && IsSpace(s[0]) then Strip(s[1..])
    else if |s| > 0 && IsSpace(s[|s| - 1]) then Strip(s[..|s| - 1])
    else s
  }

  /** `strip()` is `lstrip()` followed by `rstrip()`. */
  lemma {:induction false} StripIsRStripLStrip(s: string)
    ensures Strip(s) == RStrip(LStrip(s))
    decreases |s|
  {
    if |s| > 0 && IsSpace(s[0]) {
      StripIsRStripLStrip(s[1..]);
      assert LStrip(s) == LStrip(s[1..]);
    } else if |s| > 0 && IsSpace(s[|s| - 1]) {
      var t := s[..|s| - 1];
      StripIsRStripLStrip(t);
      assert LeadingSpaces(s) == 0;
      assert LStrip(s) == s;
      if |t| > 0 {
        assert t[0] == s[0];
      }
      assert LeadingSpaces(t) == 0;
      assert LStrip(t) == t;
      assert RStrip(s) == RStrip(t);
    } else {
      assert LStrip(s) == s;
    }
  }

  /** A stripped text neither starts nor ends with whitespace. */
  lemma {:induction false} StripEnds(s: string)
    ensures var r := Strip(s); r == [] || (!IsSpace(r[0]) && !IsSpace(r[|r| - 1]))
    decreases |s|
  {
    if |s| > 0 && IsSpace(s[0]) {
      StripEnds(s[1..]);
    } else if |s| > 0 && IsSpace(s[|s| - 1]) {
      StripEnds(s[..|s| - 1]);
    }
  }

  /** What `strip()` promises: a contiguous piece of `s`, no whitespace at either end,
      and only whitespace cut away. */
  lemma StripSpec(s: string)
    ensures var r := Strip(s);
      var a := LeadingSpaces(s);
      a + |r| <= |s| && r == s[a..a + |r|]
      && (r == [] || (!IsSpace(r[0]) && !IsSpace(r[|r| - 1])))
      && (forall i :: 0 <= i < a ==> IsSpace(s[i]))
      && (forall i :: a + |r| <= i < |s| ==> IsSpace(s[i]))
  {
    StripPiece(s);
    StripEnds(s);
    LeadingSpacesSpec(s);
  }

  /** The stripped text is the piece of `s` after its leading whitespace, and only
      whitespace follows it. */
  lemma {:induction false} StripPiece(s: string)
    ensures var r := Strip(s);
      var a := LeadingSpaces(s);
      a + |r| <= |s| && r == s[a..a + |r|]
      && (forall i :: a + |r| <= i < |s| ==> IsSpace(s[i]))
    decreases |s|
  {
    if |s| > 0 && IsSpace(s[0]) {
      StripPiece(s[1..]);
      StripPieceFront(s);
    } else if |s| > 0 && IsSpace(s[|s| - 1]) {
      StripPiece(s[..|s| - 1]);
      StripPieceBack(s);
    }
  }

  /** The inductive step of `StripPiece` past a leading space. */
  lemma StripPieceFront(s: string)
    requires |s| > 0 && IsSpace(s[0])
    requires var r := Strip(s[1..]);
      var a := LeadingSpaces(s[1..]);
      a + |r| <= |s| - 1 && r == s[1..][a..a + |r|]
      && (forall i :: a + |r| <= i < |s| - 1 ==> IsSpace(s[1..][i]))
    ensures var r := Strip(s);
      var a := LeadingSpaces(s);
      a + |r| <= |s| && r == s[a..a + |r|]
      && (forall i :: a + |r| <= i < |s| ==> IsSpace(s[i]))
  {
    var r := Strip(s);
    var a := LeadingSpaces(s[1..]);
    assert r == Strip(s[1..]) && LeadingSpaces(s) == 1 + a;
    SliceOfSlice(s, 1, |s|, a, a + |r|);
    assert s[1..] == s[1..|s|];
    forall i | 1 + a + |r| <= i < |s| ensures IsSpace(s[i]) {
      assert s[i] == s[1..][i - 1];
    }
  }

  /** The inductive step of `StripPiece` past a trailing space. */
  lemma StripPieceBack(s: string)
    requires |s| > 0 && !IsSpace(s[0]) && IsSpace(s[|s| - 1])
    requires var t := s[..|s| - 1];
      var r := Strip(t);
      var a := LeadingSpaces(t);
      a + |r| <= |t| && r == t[a..a + |r|]
      && (forall i :: a + |r| <= i < |t| ==> IsSpace(t[i]))
    ensures var r := Strip(s);
      var a := LeadingSpaces(s);
      a + |r| <= |s| && r == s[a..a + |r|]
      && (forall i :: a + |r| <= i < |s| ==> IsSpace(s[i]))
  {
    var t := s[..|s| - 1];
    var r := Strip(s);
    assert r == Strip(t) && LeadingSpaces(s) == 0;
    assert LeadingSpaces(t) == 0 by {
      if |t| > 0 {
        assert t[0] == s[0];
      }
    }
    assert t[0..|r|] == s[0..|r|];
    forall i | |r| <= i < |s| ensures IsSpace(s[i]) {
      if i < |t| {
        assert s[i] == t[i];
      }
    }
  }

  /** Stripping leaves nothing exactly when the text is blank. */
  lemma StripEmptyIffBlank(s: string)
    ensures Strip(s) == [] <==> IsBlank(s)
  {
    StripSpec(s);
    if Strip(s) == [] {
      forall i | 0 <= i < |s| ensures IsSpace(s[i]) {
        if i < LeadingSpaces(s) {
        } else {
          assert LeadingSpaces(s) + |Strip(s)| <= i;
        }
      }
    } else {
      var a := LeadingSpaces(s);
      assert s[a] == Strip(s)[0];
    }
  }

  /** Stripping twice is the same as stripping once. */
  lemma StripIdempotent(s: string)
    ensures Strip(Strip(s)) == Strip(s)
  {
    StripEnds(s);
  }

  /** `rstrip()` keeps a prefix and removes only whitespace. */
  lemma RStripPrefixOf(s: string)
    ensures StartsWith(s, RStrip(s))
    ensures forall i :: |RStrip(s)| <= i < |s| ==> IsSpace(s[i])
  {
    TrailingSpacesSpec(s);
  }

  /** Python `str.lower()` on one character: ASCII, Latin-1 and the basic Cyrillic block. */
  function LowerChar(c: char): char {
    var n := c as int;
    if 65 <= n <= 90 || (0xC0 <= n <= 0xDE && n != 0xD7) || 0x410 <= n <= 0x42F then (n + 32) as char
    else if 0x400 <= n <= 0x40F then (n + 80) as char
    else c
  }

  /** Python `str.upper()` on one character, over the same letters as `LowerChar`. */
  function UpperChar(c: char): char {
    var n := c as int;
    if 97 <= n <= 122 || (0xE0 <= n <= 0xFE && n != 0xF7) || 0x430 <= n <= 0x44F then (n - 32) as char
    else if 0x450 <= n <= 0x45F then (n - 80) as char
    else c
  }

  function Lower(s: string): (r: string)
    ensures |r| == |s|
  {
    seq(|s|, i requires 0 <= i < |s| => LowerChar(s[i]))
  }

  function Upper(s: string): (r: string)
    ensures |r| == |s|
  {
    seq(|s|, i requires 0 <= i < |s| => UpperChar(s[i]))
  }

  lemma LowerCharIdempotent(c: char)
    ensures LowerChar(LowerChar(c)) == LowerChar(c)
  {
  }

  lemma LowerIdempotent(s: string)
    ensures Lower(Lower(s)) == Lower(s)
  {
    forall i | 0 <= i < |s| ensures Lower(Lower(s))[i] == Lower(s)[i] {
      LowerCharIdempotent(s[i]);
    }
  }

  /** Upper-casing undoes lower-casing on every upper-case letter the model knows. */
  lemma UpperLowerChar(c: char)
    requires UpperChar(c) == c
    ensures UpperChar(LowerChar(c)) == c
  {
  }

  predicate StartsWith(s: string, p: string) {
    |p| <= |s| && s[..|p|] == p
  }

  /** A text starts with whatever is put in front of it. */
  lemma StartsWithAppend(p: string, rest: string)
    ensures StartsWith(p + rest, p)
  {
    assert (p + rest)[..|p|] == p;
  }

  predicate EndsWith(s: string, p: string) {
    |p| <= |s| && s[|s| - |p|..] == p
  }

  /** `sub` occurs in `s` at position `i`. */
  predicate OccursAt(s: string, sub: string, i: int) {
    0 <= i && i + |sub| <= |s| && s[i..i + |sub|] == sub
  }

  /** Python `s.find(sub, k)`: the first position at or after `k`, or -1. */
  function FindFrom(s: string, sub: string, k: nat): (r: int)
    ensures r == -1 || (k <= r && OccursAt(s, sub, r))
    decreases |s| - k
  {
    if k + |sub| > |s| then -1
    else if s[k..k + |sub|] == sub then k
    else FindFrom(s, sub, k + 1)
  }

  /** `FindFrom` finds the first occurrence at or after `k`, and -1 only when there is none. */
  lemma {:induction false} FindFromFirst(s: string, sub: string, k: nat)
    ensures var r := FindFrom(s, sub, k);
      (r != -1 ==> forall j :: k <= j < r ==> !OccursAt(s, sub, j))
      && (r == -1 ==> forall j :: k <= j ==> !OccursAt(s, sub, j))
    decreases |s| - k
  {
    if k + |sub| <= |s| && s[k..k + |sub|] != sub {
      FindFromFirst(s, sub, k + 1);
    }
  }

  /** Python `s.find(sub)`. */
  function Find(s: string, sub: string): int {
    FindFrom(s, sub, 0)
  }

  /** Python `sub in s`. */
  predicate Contains(s: string, sub: string) {
    Find(s, sub) != -1
  }

  lemma ContainsIff(s: string, sub: string)
    ensures Contains(s, sub) <==> exists i :: OccursAt(s, sub, i)
  {
    FindFromFirst(s, sub, 0);
    if Contains(s, sub) {
      assert OccursAt(s, sub, Find(s, sub));
    }
  }

  /** A string contains each of its own contiguous pieces. */
  lemma ContainsSlice(s: string, i: nat, j: nat)
    requires i <= j <= |s|
    ensures Contains(s, s[i..j])
  {
    FindFromFirst(s, s[i..j], 0);
    assert OccursAt(s, s[i..j], i);
  }

  /** Whatever occurs in a piece of `s` occurs in `s`. */
  lemma ContainsInSuper(s: string, i: nat, j: nat, sub: string)
    requires i <= j <= |s| && Contains(s[i..j], sub)
    ensures Contains(s, sub)
  {
    FindFromFirst(s, sub, 0);
    var p := Find(s[i..j], sub);
    SliceOfSlice(s, i, j, p, p + |sub|);
    assert OccursAt(s, sub, i + p);
  }

  /** A piece of a piece is a piece of the whole. */
  lemma SliceOfSlice(s: string, i: nat, j: nat, a: nat, b: nat)
    requires i <= j <= |s| && a <= b <= j - i
    ensures s[i..j][a..b] == s[i + a..i + b]
  {
    var l := s[i..j][a..b];
    var r := s[i + a..i + b];
    assert |l| == |r|;
    forall t | 0 <= t < |l| ensures l[t] == r[t] {
      assert l[t] == s[i..j][a + t];
    }
  }

  /** Python `s.rfind(sub)` restricted to the positions `<= k`. */
  function RFindUpTo(s: string, sub: string, k: int): (r: int)
    ensures r == -1 || (0 <= r <= k && OccursAt(s, sub, r))
    decreases k + 1
  {
    if k < 0 then -1
    else if OccursAt(s, sub, k) then k
    else RFindUpTo(s, sub, k - 1)
  }

  /** `RFindUpTo` finds the last occurrence up to `k`. */
  lemma {:induction false} RFindUpToLast(s: string, sub: string, k: int)
    ensures forall j :: RFindUpTo(s, sub, k) < j <= k ==> !OccursAt(s, sub, j)
    decreases k + 1
  {
    if k >= 0 && !OccursAt(s, sub, k) {
      RFindUpToLast(s, sub, k - 1);
    }
  }

  /** Python `s.rfind(sub)`: the last position where `sub` occurs, or -1. */
  function RFind(s: string, sub: string): (r: int)
    ensures r == -1 || (0 <= r <= |s| - |sub| && OccursAt(s, sub, r))
  {
    RFindUpTo(s, sub, |s| - |sub|)
  }

  /** `sub` occurs nowhere after `RFind(s, sub)`; -1 means it occurs nowhere. */
  lemma RFindLast(s: string, sub: string)
    ensures forall j :: RFind(s, sub) < j ==> !OccursAt(s, sub, j)
  {
    RFindUpToLast(s, sub, |s| - |sub|);
  }

  /** Python `s.split(sep)` for a non-empty separator. */
  function Split(s: string, sep: string): (r: seq<string>)
    requires |sep| > 0
    ensures |r| >= 1
    decreases |s|
  {
    var i := Find(s, sep);
    if i == -1 then [s] else [s[..i]] + Split(s[i + |sep|..], sep)
  }

  /** Python `sep.join(parts)`. */
  function Join(parts: seq<string>, sep: string): string
    decreases |parts|
  {
    if |parts| == 0 then ""
    else if |parts| == 1 then parts[0]
    else parts[0] + sep + Join(parts[1..], sep)
  }

  /** One step of `Split` when the separator occurs, at `i`: the text is the first piece,
      the separator and the rest. */
  lemma SplitStep(s: string, sep: string, i: int)
    requires |sep| > 0 && i == Find(s, sep) && i != -1
    ensures 0 <= i && i + |sep| <= |s|
    ensures Split(s, sep) == [s[..i]] + Split(s[i + |sep|..], sep)
    ensures s == s[..i] + sep + s[i + |sep|..]
  {
    ThreeParts(s, i, |sep|);
  }

  /** Splitting and re-joining with the same separator gives the text back. */
  lemma {:induction false} JoinSplit(s: string, sep: string)
    requires |sep| > 0
    ensures Join(Split(s, sep), sep) == s
    decreases |s|
  {
    var i := Find(s, sep);
    if i != -1 {
      SplitStep(s, sep, i);
      var rest := s[i + |sep|..];
      JoinSplit(rest, sep);
      JoinCons(s[..i], Split(rest, sep), sep);
    }
  }

  /** A join starts with its first part. */
  lemma JoinStartsWithFirst(parts: seq<string>, sep: string)
    requires |parts| >= 1
    ensures StartsWith(Join(parts, sep), parts[0])
  {
    if |parts| > 1 {
      assert Join(parts, sep) == parts[0] + (sep + Join(parts[1..], sep));
      assert (parts[0] + (sep + Join(parts[1..], sep)))[..|parts[0]|] == parts[0];
    }
  }

  /** A string is its prefix, a middle piece and the rest, put back together. */
  lemma ThreeParts(s: string, i: nat, n: nat)
    requires i + n <= |s|
    ensures s == s[..i] + s[i..i + n] + s[i + n..]
  {
    var t := s[..i] + s[i..i + n] + s[i + n..];
    forall k | 0 <= k < |s| ensures t[k] == s[k] {
      if k < i {
      } else if k < i + n {
        assert t[k] == s[i..i + n][k - i];
      } else {
        assert t[k] == s[i + n..][k - i - n];
      }
    }
  }

  lemma JoinCons(head: string, tail: seq<string>, sep: string)
    requires |tail| >= 1
    ensures Join([head] + tail, sep) == head + sep + Join(tail, sep)
  {
    assert ([head] + tail)[1..] == tail;
  }

  /** The text before the first occurrence of `sub` does not contain `sub`. */
  lemma BeforeFirstFree(s: string, sub: string, i: int)
    requires |sub| > 0 && i == Find(s, sub) && i != -1
    ensures 0 <= i <= |s| && !Contains(s[..i], sub)
  {
    FindFromFirst(s, sub, 0);
    ContainsIff(s[..i], sub);
    forall p | 0 <= p ensures !OccursAt(s[..i], sub, p) {
      if p + |sub| <= i {
        SliceOfSlice(s, 0, i, p, p + |sub|);
        assert s[..i] == s[0..i];
        assert !OccursAt(s, sub, p);
      }
    }
  }

  /** No piece of a split contains the separator. */
  lemma {:induction false} SplitPiecesFree(s: string, sep: string)
    requires |sep| > 0
    ensures forall k :: 0 <= k < |Split(s, sep)| ==> !Contains(Split(s, sep)[k], sep)
    decreases |s|
  {
    var i := Find(s, sep);
    if i == -1 {
      FindFromFirst(s, sep, 0);
      ContainsIff(s, sep);
    } else {
      SplitStep(s, sep, i);
      BeforeFirstFree(s, sep, i);
      var rest := s[i + |sep|..];
      SplitPiecesFree(rest, sep);
      var r := Split(s, sep);
      var tail := Split(rest, sep);
      forall k | 0 < k < |r| ensures !Contains(r[k], sep) {
        assert r[k] == tail[k - 1];
      }
    }
  }

  /** Python `s.splitlines()`, with '\n' as the only line boundary. */
  function SplitLines(s: string): (r: seq<string>)
  {
    var parts := Split(s, "\n");
    if parts[|parts| - 1] == "" then parts[..|parts| - 1] else parts
  }

  lemma SplitLinesNoNewline(s: string)
    ensures forall k :: 0 <= k < |SplitLines(s)| ==> !Contains(SplitLines(s)[k], "\n")
  {
    SplitPiecesFree(s, "\n");
  }

  /** Python `s[:n]` for a non-negative bound. */
  function Prefix(s: string, n: nat): (r: string)
    ensures |r| == if n < |s| then n else |s|
    ensures StartsWith(s, r)
  {
    if n < |s| then s[..n] else s
  }

  /** Python `s.replace(a, b)` for single characters. */
  function ReplaceChar(s: string, a: char, b: char): (r: string)
    ensures |r| == |s|
  {
    seq(|s|, i requires 0 <= i < |s| => if s[i] == a then b else s[i])
  }

  lemma ReplaceCharRemoves(s: string, a: char, b: char)
    requires a != b
    ensures forall i :: 0 <= i < |s| ==> ReplaceChar(s, a, b)[i] != a
  {
  }

  /** Python `s.replace(c, "")`. */
  function RemoveChar(s: string, c: char): (r: string)
    ensures |r| <= |s|
    ensures forall i :: 0 <= i < |r| ==> r[i] != c
  {
    if |s| == 0 then "" else (if s[0] == c then "" else [s[0]]) + RemoveChar(s[1..], c)
  }

  /** Python `s.rstrip(c)` for one character. */
  function RStripChar(s: string, c: char): (r: string)
    ensures StartsWith(s, r)
    ensures r == [] || r[|r| - 1] != c
    ensures forall i :: |r| <= i < |s| ==> s[i] == c
    decreases |s|
  {
    if |s| > 0 && s[|s| - 1] == c then RStripChar(s[..|s| - 1], c) else s
  }

  /** Any of `keys` occurs in `s`. */
  predicate ContainsAny(s: string, keys: seq<string>) {
    exists i :: 0 <= i < |keys| && Contains(s, keys[i])
  }

  function DigitChar(d: nat): char
    requires d < 10
  {
    "0123456789"[d]
  }

  /** Decimal digits of a natural number, Python `str(n)`. */
  function NatToString(n: nat): (r: string)
    ensures n < 10 ==> |r| == 1
    ensures 10 <= n < 100 ==> |r| == 2
    ensures 100 <= n ==> |r| >= 3
    ensures forall i :: 0 <= i < |r| ==> '0' <= r[i] <= '9'
    decreases n
  {
    if n < 10 then [DigitChar(n)] else NatToString(n / 10) + [DigitChar(n % 10)]
  }

  /** Python `f"{n:03d}"`. */
  function Pad3(n: nat): (r: string)
    ensures |r| >= 3
    ensures n < 1000 ==> |r| == 3
  {
    if n < 10 then "00" + NatToString(n)
    else if n < 100 then "0" + NatToString(n)
    else NatToString(n)
  }

  /** Python `str(i)` for an int. */
  function IntToString(i: int): string {
    if i < 0 then "-" + NatToString(-i) else NatToString(i)
  }

  /** Parse of a decimal digit string back to its value. */
  function DigitsValue(s: string): nat
    requires forall i :: 0 <= i < |s| ==> '0' <= s[i] <= '9'
    decreases |s|
  {
    if |s| == 0 then 0 else 10 * DigitsValue(s[..|s| - 1]) + (s[|s| - 1] as int - '0' as int)
  }

  /** Formatting a number and reading its digits back gives the number. */
  lemma {:induction false} NatToStringRoundTrip(n: nat)
    ensures DigitsValue(NatToString(n)) == n
    decreases n
  {
    if n >= 10 {
      var r := NatToString(n);
      NatToStringRoundTrip(n / 10);
      assert r[..|r| - 1] == NatToString(n / 10);
    }
  }

  lemma {:induction false} NatToStringInjective(a: nat, b: nat)
    requires NatToString(a) == NatToString(b)
    ensures a == b
  {
    NatToStringRoundTrip(a);
    NatToStringRoundTrip(b);
  }

  /** Python `s[:n]` for any integer bound: a negative bound counts from the end. */
  function SliceTo(s: string, n: int): (r: string)
    ensures n >= 0 ==> r == Prefix(s, n)
    ensures StartsWith(s, r)
  {
    if n >= 0 then Prefix(s, n) else if |s| + n > 0 then s[..|s| + n] else ""
  }

  /** `s[:n].rstrip() + "…"`: a text cut to `n` characters, trailing whitespace removed, and
      an ellipsis appended. */
  function ClipWithEllipsis(s: string, n: nat): (r: string)
    ensures |r| <= n + 1 && |r| >= 1 && r[|r| - 1] == '…'
    ensures StartsWith(s, r[..|r| - 1])
  {
    var cut := RStrip(Prefix(s, n));
    RStripPrefixOf(Prefix(s, n));
    cut + "…"
  }

  /** `sum(len(x) for x in parts)`. */
  function TotalLen(parts: seq<string>): (n: nat)
    ensures parts == [] ==> n == 0
  {
    if |parts| == 0 then 0 else TotalLen(parts[..|parts| - 1]) + |parts[|parts| - 1]|
  }

  /** The non-empty strings of `parts`, in order. */
  function NonEmptyParts(parts: seq<string>): seq<string>
  {
    if |parts| == 0 then []
    else NonEmptyParts(parts[..|parts| - 1]) + (if parts[|parts| - 1] != "" then [parts[|parts| - 1]] else [])
  }

  /** `NonEmptyParts` keeps only non-empty strings, and is empty exactly when every part is. */
  lemma {:induction false} NonEmptyPartsSpec(parts: seq<string>)
    ensures forall k :: 0 <= k < |NonEmptyParts(parts)| ==> NonEmptyParts(parts)[k] != ""
    ensures NonEmptyParts(parts) == [] <==> forall k :: 0 <= k < |parts| ==> parts[k] == ""
  {
    if |parts| > 0 {
      var init := parts[..|parts| - 1];
      NonEmptyPartsSpec(init);
      assert forall k :: 0 <= k < |init| ==> init[k] == parts[k];
    }
  }

  /** The total length of the first `m` parts. */
  function PrefixLen(parts: seq<string>, m: nat): nat
    requires m <= |parts|
  {
    if m == 0 then 0 else PrefixLen(parts, m - 1) + |parts[m - 1]|
  }

  /** `PrefixLen` is the total length of the prefix. */
  lemma {:induction false} TotalLenPrefix(parts: seq<string>, m: nat)
    requires m <= |parts|
    ensures TotalLen(parts[..m]) == PrefixLen(parts, m)
  {
    if m > 0 {
      TotalLenPrefix(parts, m - 1);
      assert parts[..m][..m - 1] == parts[..m - 1];
    }
  }

  /** How many of `parts` a loop keeps when it takes them one at a time, from the `n`-th on,
      and stops after the first one that takes their total length past `limit`. */
  function KeptUntilOver(parts: seq<string>, limit: int, n: nat): (c: nat)
    requires n <= |parts|
    ensures n <= c <= |parts|
    decreases |parts| - n
  {
    if n == |parts| then n
    else if PrefixLen(parts, n + 1) > limit then n + 1
    else KeptUntilOver(parts, limit, n + 1)
  }

  /** The loop keeps at least one more part when one is left; it stops early only after
      the total passed `limit`, and before that the total stayed within `limit`. */
  lemma {:induction false} KeptUntilOverSpec(parts: seq<string>, limit: int, n: nat)
    requires n <= |parts|
    ensures n < |parts| ==> KeptUntilOver(parts, limit, n) > n
    ensures KeptUntilOver(parts, limit, n) < |parts| ==> PrefixLen(parts, KeptUntilOver(parts, limit, n)) > limit
    ensures forall m :: n < m < KeptUntilOver(parts, limit, n) ==> PrefixLen(parts, m) <= limit
    decreases |parts| - n
  {
    if n < |parts| && PrefixLen(parts, n + 1) <= limit {
      KeptUntilOverSpec(parts, limit, n + 1);
    }
  }

  /** The string `render` gives each item, with the item's position counted from 1. */
  function Rendered<T>(items: seq<T>, render: (nat, T) -> string): (r: seq<string>)
    ensures |r| == |items|
  {
    seq(|items|, k requires 0 <= k < |items| => render(k + 1, items[k]))
  }

  /** A loop that renders each item in turn and appends the result. */
  method RenderAll<T>(items: seq<T>, render: (nat, T) -> string) returns (lines: seq<string>)
    ensures lines == Rendered(items, render)
  {
    lines := [];
    for i := 0 to |items|
      invariant lines == Rendered(items, render)[..i]
    {
      lines := lines + [render(i + 1, items[i])];
    }
  }

  /** A loop that renders each item in turn and appends the non-empty results. */
  method RenderNonEmpty<T>(items: seq<T>, render: (nat, T) -> string) returns (lines: seq<string>)
    ensures lines == NonEmptyParts(Rendered(items, render))
  {
    ghost var all := Rendered(items, render);
    lines := [];
    for i := 0 to |items|
      invariant lines == NonEmptyParts(all[..i])
    {
      var line := render(i + 1, items[i]);
      assert all[..i + 1][..i] == all[..i];
      if line != "" {
        lines := lines + [line];
      }
    }
    assert all[..|items|] == all;
  }

  /** A loop that renders each item in turn, appends the result, and stops after the line
      that takes the total length past `limit`. */
  method RenderUntilOver<T>(items: seq<T>, render: (nat, T) -> string, limit: int) returns (lines: seq<string>)
    ensures lines == Rendered(items, render)[..KeptUntilOver(Rendered(items, render), limit, 0)]
  {
    ghost var all := Rendered(items, render);
    lines := [];
    var i := 0;
    while i < |items|
      invariant 0 <= i <= |items|
      invariant lines == all[..i]
      invariant KeptUntilOver(all, limit, 0) == KeptUntilOver(all, limit, i)
    {
      lines := lines + [render(i + 1, items[i])];
      assert lines == all[..i + 1];
      TotalLenPrefix(all, i + 1);
      i := i + 1;
      if TotalLen(lines) > limit {
        break;
      }
    }
    assert KeptUntilOver(all, limit, 0) == i;
  }

  /** A prefix that neither starts nor ends with whitespace survives `strip()`. */
  lemma {:induction false} PrefixSurvivesStrip(s: string, p: string)
    requires StartsWith(s, p) && |p| > 0 && !IsSpace(p[0]) && !IsSpace(p[|p| - 1])
    ensures StartsWith(Strip(s), p)
    decreases |s|
  {
    assert s[0] == p[0];
    if IsSpace(s[|s| - 1]) {
      assert |p| < |s|;
      var t := s[..|s| - 1];
      assert t[..|p|] == s[..|p|];
      PrefixSurvivesStrip(t, p);
    }
  }

  /** Python `min(a, b)`. */
  function Min(a: int, b: int): int {
    if a <= b then a else b
  }

  /** Python `max(a, b)`. */
  function Max(a: int, b: int): int {
    if a >= b then a else b
  }

  /** `x` is a subsequence of `y`: its elements occur in `y` in the same order. */
  predicate IsSubseq<T(==)>(x: seq<T>, y: seq<T>)
    decreases |y|
  {
    |x| == 0 || (|y| > 0 && if x[0] == y[0] then IsSubseq(x[1..], y[1..]) else IsSubseq(x, y[1..]))
  }

  /** A subsequence stays one when the sequence grows. */
  lemma {:induction false} SubseqAppendRight<T>(x: seq<T>, y: seq<T>, c: T)
    requires IsSubseq(x, y)
    ensures IsSubseq(x, y + [c])
    decreases |y|
  {
    if |x| > 0 {
      assert (y + [c])[1..] == y[1..] + [c];
      if x[0] == y[0] {
        SubseqAppendRight(x[1..], y[1..], c);
      } else {
        SubseqAppendRight(x, y[1..], c);
      }
    }
  }

  /** Appending the same element to both keeps a subsequence. */
  lemma {:induction false} SubseqAppendBoth<T>(x: seq<T>, y: seq<T>, c: T)
    requires IsSubseq(x, y)
    ensures IsSubseq(x + [c], y + [c])
    decreases |y|
  {
    if |y| > 0 {
      assert (y + [c])[1..] == y[1..] + [c];
    }
    if |x| == 0 {
      if |y| > 0 && y[0] != c {
        SubseqAppendBoth(x, y[1..], c);
      }
    } else {
      assert (x + [c])[1..] == x[1..] + [c];
      if x[0] == y[0] {
        SubseqAppendBoth(x[1..], y[1..], c);
      } else {
        SubseqAppendBoth(x, y[1..], c);
      }
    }
  }

  /** Every sequence is a subsequence of itself. */
  lemma {:induction false} IsSubseqRefl<T>(x: seq<T>)
    ensures IsSubseq(x, x)
    decreases |x|
  {
    if |x| > 0 {
      IsSubseqRefl(x[1..]);
    }
  }

  /** Dropping the first element of a subsequence leaves a subsequence. */
  lemma {:induction false} SubseqTail<T>(x: seq<T>, y: seq<T>)
    requires |x| > 0 && IsSubseq(x, y)
    ensures IsSubseq(x[1..], y)
    decreases |y|, 1
  {
    if x[0] == y[0] {
      if |x| > 1 {
        SubseqTail(x[1..], y[1..]);
        assert x[1..][1..] == x[2..];
        if x[1] != y[0] {
          SubseqSkip(x[1..], y);
        }
      }
    } else {
      SubseqTail(x, y[1..]);
      SubseqSkip(x[1..], y);
    }
  }

  /** A subsequence of the tail is a subsequence of the whole. */
  lemma {:induction false} SubseqSkip<T>(x: seq<T>, y: seq<T>)
    requires |y| > 0 && IsSubseq(x, y[1..])
    ensures IsSubseq(x, y)
    decreases |y|, 0
  {
    if |x| > 0 && x[0] == y[0] {
      SubseqTail(x, y[1..]);
    }
  }

  /** Being a subsequence is transitive. */
  lemma {:induction false} SubseqTrans<T>(x: seq<T>, y: seq<T>, z: seq<T>)
    requires IsSubseq(x, y) && IsSubseq(y, z)
    ensures IsSubseq(x, z)
    decreases |z|
  {
    if |x| > 0 {
      if y[0] == z[0] {
        if x[0] == y[0] {
          SubseqTrans(x[1..], y[1..], z[1..]);
        } else {
          SubseqTrans(x, y[1..], z[1..]);
        }
      } else {
        SubseqTrans(x, y, z[1..]);
        SubseqSkip(x, z);
      }
    }
  }

  /** Every element of a subsequence is an element of the sequence. */
  lemma {:induction false} SubseqMembers<T>(x: seq<T>, y: seq<T>)
    requires IsSubseq(x, y)
    ensures forall i :: 0 <= i < |x| ==> x[i] in y
    decreases |y|
  {
    if |x| > 0 {
      if x[0] == y[0] {
        SubseqMembers(x[1..], y[1..]);
        assert forall i :: 1 <= i < |x| ==> x[i] == x[1..][i - 1];
      } else {
        SubseqMembers(x, y[1..]);
      }
      assert forall e :: e in y[1..] ==> e in y;
    }
  }

  /** `s` has no line break in it. */
  predicate NoNewline(s: string) {
    '\n' !in s
  }

  /** A piece without a line break that occurs in no line occurs nowhere in the lines
      joined by '\n'. */
  lemma {:induction false} JoinLinesFree(parts: seq<string>, sub: string)
    requires |sub| > 0 && NoNewline(sub)
    requires forall k :: 0 <= k < |parts| ==> !Contains(parts[k], sub)
    ensures !Contains(Join(parts, "\n"), sub)
    decreases |parts|
  {
    if |parts| == 1 {
    } else if |parts| > 1 {
      var a := parts[0];
      var rest := Join(parts[1..], "\n");
      JoinLinesFree(parts[1..], sub);
      var j := Join(parts, "\n");
      assert j == a + "\n" + rest;
      ContainsIff(a, sub);
      ContainsIff(rest, sub);
      forall i | 0 <= i ensures !OccursAt(j, sub, i) {
        if i + |sub| > |j| {
        } else if i + |sub| <= |a| {
          assert j[i..i + |sub|] == a[i..i + |sub|];
          assert !OccursAt(a, sub, i);
        } else if i >= |a| + 1 {
          assert j[i..i + |sub|] == rest[i - |a| - 1..i - |a| - 1 + |sub|];
          assert !OccursAt(rest, sub, i - |a| - 1);
        } else {
          assert j[i..i + |sub|][|a| - i] == '\n';
          assert sub[|a| - i] != '\n';
        }
      }
      ContainsIff(j, sub);
    }
  }

  /** What occurs in a stripped text occurs in the text. */
  lemma ContainsInStripped(s: string, sub: string)
    requires Contains(Strip(s), sub)
    ensures Contains(s, sub)
  {
    StripIsRStripLStrip(s);
    var l := LStrip(s);
    assert Strip(s) == l[0..|l| - TrailingSpaces(l)];
    ContainsInSuper(l, 0, |l| - TrailingSpaces(l), sub);
    assert l == s[LeadingSpaces(s)..|s|];
    ContainsInSuper(s, LeadingSpaces(s), |s|, sub);
  }

  /** The concatenation of a list of lists, in order (`list.extend` in a loop). */
  function Flatten<T>(xss: seq<seq<T>>): seq<T> {
    if |xss| == 0 then [] else Flatten(xss[..|xss| - 1]) + xss[|xss| - 1]
  }

  /** A loop that extends a list with each list in turn. */
  method ExtendAll<T>(xss: seq<seq<T>>) returns (r: seq<T>)
    ensures r == Flatten(xss)
  {
    r := [];
    for i := 0 to |xss|
      invariant r == Flatten(xss[..i])
    {
      assert xss[..i + 1][..i] == xss[..i];
      r := r + xss[i];
    }
    assert xss[..|xss|] == xss;
  }

  /** Every element of the concatenation comes from one of the lists. */
  lemma {:induction false} FlattenMembers<T>(xss: seq<seq<T>>, x: T)
    requires x in Flatten(xss)
    ensures exists k :: 0 <= k < |xss| && x in xss[k]
  {
    if |xss| > 0 {
      var init := xss[..|xss| - 1];
      if x in Flatten(init) {
        FlattenMembers(init, x);
        var k :| 0 <= k < |init| && x in init[k];
        assert xss[k] == init[k];
      } else {
        assert x in xss[|xss| - 1];
      }
    }
  }

  /** A string contains each piece it is assembled from. */
  lemma ContainsMiddle(a: string, m: string, b: string)
    ensures Contains(a + m + b, m)
  {
    var s := a + m + b;
    assert s[|a|..|a| + |m|] == m;
    ContainsSlice(s, |a|, |a| + |m|);
  }

  /** `[f(0), …, f(n - 1)]`, as a list built one element at a time. */
  function Tabulated<E>(n: nat, f: nat --> E): (r: seq<E>)
    requires forall k :: 0 <= k < n ==> f.requires(k)
    ensures |r| == n
  {
    if n == 0 then [] else Tabulated(n - 1, f) + [f(n - 1)]
  }

  lemma {:induction false} TabulatedAt<E>(n: nat, f: nat --> E, i: nat)
    requires forall k :: 0 <= k < n ==> f.requires(k)
    requires i < n
    ensures Tabulated(n, f)[i] == f(i)
  {
    if i < n - 1 {
      TabulatedAt(n - 1, f, i);
    }
  }

  /** `[m.strip() for m in ms]`. */
  function StripAll(ms: seq<string>): (r: seq<string>)
    ensures |r| == |ms|
  {
    seq(|ms|, i requires 0 <= i < |ms| => Strip(ms[i]))
  }

  /** Python `s.strip(c)` for one character. */
  function StripChar(s: string, c: char): (r: string)
    ensures |r| <= |s|
    decreases |s|
  {
    if |s| > 0 && s[0] == c then StripChar(s[1..], c)
    else if |s| > 0 && s[|s| - 1] == c then StripChar(s[..|s| - 1], c)
    else s
  }

  /** Removing a character keeps every other character. */
  lemma {:induction false} RemoveCharKeeps(s: string, c: char, i: nat)
    requires i < |s| && s[i] != c
    ensures s[i] in RemoveChar(s, c)
  {
    if i > 0 {
      assert s[1..][i - 1] == s[i];
      RemoveCharKeeps(s[1..], c, i - 1);
    }
  }

  /** Removing a character adds nothing. */
  lemma {:induction false} RemoveCharFrom(s: string, c: char, x: char)
    requires x in RemoveChar(s, c)
    ensures x in s
  {
    if |s| > 0 && !(s[0] != c && x == s[0]) {
      RemoveCharFrom(s[1..], c, x);
    }
  }

  /** Stripping keeps every character that is not whitespace, and adds none. */
  lemma StripKeeps(s: string, i: nat)
    requires i < |s| && !IsSpace(s[i])
    ensures s[i] in Strip(s)
  {
    StripSpec(s);
    var a := LeadingSpaces(s);
    assert s[i] == Strip(s)[i - a];
  }

  lemma StripFrom(s: string, x: char)
    requires x in Strip(s)
    ensures x in s
  {
    StripSpec(s);
    var a := LeadingSpaces(s);
    var k :| 0 <= k < |Strip(s)| && Strip(s)[k] == x;
    assert s[a + k] == x;
  }

  /** Different numbers, with the same text before them, are written differently. */
  lemma PrefixedNumbersDistinct(p: string, a: nat, b: nat)
    requires a != b
    ensures p + NatToString(a) != p + NatToString(b)
  {
    NatToStringRoundTrip(a);
    NatToStringRoundTrip(b);
    assert (p + NatToString(a))[|p|..] == NatToString(a);
    assert (p + NatToString(b))[|p|..] == NatToString(b);
  }

  /** Filtering out empty strings distributes over concatenation. */
  lemma {:induction false} NonEmptyPartsAppend(a: seq<string>, b: seq<string>)
    ensures NonEmptyParts(a + b) == NonEmptyParts(a) + NonEmptyParts(b)
    decreases |b|
  {
    if |b| == 0 {
      assert a + b == a;
    } else {
      var b0 := b[..|b| - 1];
      assert (a + b)[..|a + b| - 1] == a + b0;
      assert (a + b)[|a + b| - 1] == b[|b| - 1];
      NonEmptyPartsAppend(a, b0);
    }
  }

  /** Every string `NonEmptyParts` keeps is one of the parts. */
  lemma {:induction false} NonEmptyPartsFrom(parts: seq<string>)
    ensures forall k :: 0 <= k < |NonEmptyParts(parts)| ==> NonEmptyParts(parts)[k] in parts
  {
    if |parts| > 0 {
      var init := parts[..|parts| - 1];
      NonEmptyPartsFrom(init);
      assert forall x :: x in init ==> x in parts;
    }
  }

  /** What occurs in a text occurs in any extension of it. */
  lemma ContainsExtended(a: string, b: string, m: string)
    requires Contains(a, m)
    ensures Contains(a + b, m)
  {
    assert (a + b)[0..|a|] == a;
    ContainsInSuper(a + b, 0, |a|, m);
  }

  /** How many ASCII digits `s` starts with. */
  function LeadingDigits(s: string): (n: nat)
    ensures n <= |s|
    ensures forall i :: 0 <= i < n ==> '0' <= s[i] <= '9'
  {
    if |s| > 0 && '0' <= s[0] <= '9' then 1 + LeadingDigits(s[1..]) else 0
  }
}
