/**
 * utils.py `extract_structure_outline`: the heading-like lines of the uploaded documents,
 * de-duplicated without regard to case and capped, or, when there is no heading-like
 * line, the first short lines. The three heading patterns are the parameter `heading`.
 */
module Outline {
  import opened Wrappers
  import opened Text
  import opened Records

  /** Lines longer than this are never heading candidates. */
  const MaxCandidateLength: nat := 160

  /** The fallback keeps only lines shorter than this. */
  const ShortLength: nat := 80

  /** Every chunk is a dict, as `parse_documents_to_chunks` builds them (`ch.get` needs one). */
  predicate AllDicts(chunks: seq<ChunkEntry>) {
    forall k :: 0 <= k < |chunks| ==> chunks[k].ChunkDict?
  }

  /** `[ch.get("text", "") for ch in chunks if ch.get("text")]`. */
  function TextParts(chunks: seq<ChunkEntry>): (r: seq<string>)
    requires AllDicts(chunks)
  {
    if |chunks| == 0 then []
    else
      var c := chunks[|chunks| - 1];
      TextParts(chunks[..|chunks| - 1]) + if Truthy(c.text) then [c.text.value] else []
  }

  /** `[ln.strip() for ln in text.splitlines()]`. */
  function StrippedLines(text: string): (r: seq<string>)
    ensures |r| == |SplitLines(text)|
  {
    var ls := SplitLines(text);
    seq(|ls|, i requires 0 <= i < |ls| => Strip(ls[i]))
  }

  /** The lines of the documents' texts. */
  function DocumentLines(chunks: seq<ChunkEntry>): seq<string>
    requires AllDicts(chunks)
  {
    StrippedLines(Join(TextParts(chunks), "\n"))
  }

  // ---------------------------------------------------------------------------------
  // Candidates
  // ---------------------------------------------------------------------------------

  /** A line that the candidate loop keeps. */
  predicate IsCandidate(ln: string, heading: string -> bool) {
    ln != "" && |ln| <= MaxCandidateLength && heading(Strip(ln))
  }

  /** The candidates of the first lines, stripped once more. */
  function Candidates(lines: seq<string>, heading: string -> bool): seq<string> {
    if |lines| == 0 then []
    else
      var ln := lines[|lines| - 1];
      Candidates(lines[..|lines| - 1], heading) + if IsCandidate(ln, heading) then [Strip(ln)] else []
  }

  /** The candidate loop. */
  method CollectCandidates(lines: seq<string>, heading: string -> bool) returns (candidates: seq<string>)
    ensures candidates == Candidates(lines, heading)
  {
    candidates := [];
    for i := 0 to |lines|
      invariant candidates == Candidates(lines[..i], heading)
    {
      assert lines[..i + 1][..i] == lines[..i];
      var ln := lines[i];
      if ln == "" || |ln| > MaxCandidateLength {
        continue;
      }
      var s := Strip(ln);
      if heading(s) {
        candidates := candidates + [s];
      }
    }
    assert lines[..|lines|] == lines;
  }

  /** A candidate is a stripped line the heading patterns accept, never longer than 160
      characters; every line the loop accepts is among them, stripped. */
  lemma {:induction false} CandidatesSpec(lines: seq<string>, heading: string -> bool)
    ensures forall k :: 0 <= k < |Candidates(lines, heading)| ==>
      var c := Candidates(lines, heading)[k];
      |c| <= MaxCandidateLength && heading(c) && Strip(c) == c
    ensures forall i :: 0 <= i < |lines| && IsCandidate(lines[i], heading) ==>
      Strip(lines[i]) in Candidates(lines, heading)
  {
    if |lines| > 0 {
      var init := lines[..|lines| - 1];
      var ln := lines[|lines| - 1];
      CandidatesSpec(init, heading);
      if IsCandidate(ln, heading) {
        StripIdempotent(ln);
        StripShortens(ln);
      }
      forall i | 0 <= i < |lines| - 1 && IsCandidate(lines[i], heading)
        ensures Strip(lines[i]) in Candidates(lines, heading)
      {
        assert lines[i] == init[i];
      }
    }
  }

  /** Stripping never lengthens a line. */
  lemma StripShortens(s: string)
    ensures |Strip(s)| <= |s|
  {
    StripSpec(s);
  }

  // ---------------------------------------------------------------------------------
  // De-duplication
  // ---------------------------------------------------------------------------------

  /** The rest of the de-duplication loop over `cands`, with the keys `seen` and the lines
      `outline` so far; it stops once the outline has `maxLines` lines. */
  function Dedup(cands: seq<string>, seen: set<string>, outline: seq<string>, maxLines: int): seq<string>
    decreases |cands|
  {
    if |cands| == 0 then outline
    else if Lower(cands[0]) in seen then Dedup(cands[1..], seen, outline, maxLines)
    else
      var o := outline + [cands[0]];
      if |o| >= maxLines then o else Dedup(cands[1..], seen + {Lower(cands[0])}, o, maxLines)
  }

  /** The de-duplication loop. */
  method DedupCandidates(cands: seq<string>, maxLines: int) returns (outline: seq<string>)
    ensures outline == Dedup(cands, {}, [], maxLines)
  {
    outline := [];
    var seen: set<string> := {};
    var i := 0;
    while i < |cands|
      invariant i <= |cands|
      invariant Dedup(cands[i..], seen, outline, maxLines) == Dedup(cands, {}, [], maxLines)
    {
      assert cands[i..][0] == cands[i] && cands[i..][1..] == cands[i + 1..];
      var key := Lower(cands[i]);
      if key !in seen {
        seen := seen + {key};
        outline := outline + [cands[i]];
        if |outline| >= maxLines {
          return;
        }
      }
      i := i + 1;
    }
  }

  /** The candidates whose lower-cased form is neither in `seen` nor that of an earlier
      candidate, in order: the first occurrence of every new key. */
  function FirstsAfter(cands: seq<string>, seen: set<string>): seq<string>
    decreases |cands|
  {
    if |cands| == 0 then []
    else if Lower(cands[0]) in seen then FirstsAfter(cands[1..], seen)
    else [cands[0]] + FirstsAfter(cands[1..], seen + {Lower(cands[0])})
  }

  /** `xs[:n]`. */
  function Take<T>(xs: seq<T>, n: nat): (r: seq<T>)
    ensures |r| == Min(n, |xs|)
  {
    xs[..Min(n, |xs|)]
  }

  /** The loop's outline is the first occurrences of the new keys, cut at `maxLines` lines
      (or at one line when `maxLines` is below one: the check follows the append). */
  lemma {:induction false} DedupTake(cands: seq<string>, seen: set<string>, outline: seq<string>, maxLines: int)
    requires outline == [] || |outline| < maxLines
    ensures Dedup(cands, seen, outline, maxLines)
      == outline + Take(FirstsAfter(cands, seen), Max(maxLines - |outline|, 1))
    decreases |cands|
  {
    if |cands| > 0 {
      var c := cands[0];
      if Lower(c) in seen {
        DedupTake(cands[1..], seen, outline, maxLines);
      } else {
        var o := outline + [c];
        var rest := FirstsAfter(cands[1..], seen + {Lower(c)});
        assert FirstsAfter(cands, seen) == [c] + rest;
        if |o| < maxLines {
          DedupTake(cands[1..], seen + {Lower(c)}, o, maxLines);
          var n := Max(maxLines - |outline|, 1);
          assert Take([c] + rest, n) == [c] + Take(rest, n - 1);
        }
      }
    }
  }

  /** The first occurrences hold no two lines equal up to case, none with a key in `seen`,
      and every key of the candidates outside `seen`. */
  lemma {:induction false} FirstsAfterKeys(cands: seq<string>, seen: set<string>)
    ensures forall a, b :: 0 <= a < b < |FirstsAfter(cands, seen)| ==>
      Lower(FirstsAfter(cands, seen)[a]) != Lower(FirstsAfter(cands, seen)[b])
    ensures forall a :: 0 <= a < |FirstsAfter(cands, seen)| ==> Lower(FirstsAfter(cands, seen)[a]) !in seen
    ensures forall i :: 0 <= i < |cands| && Lower(cands[i]) !in seen ==>
      exists a :: 0 <= a < |FirstsAfter(cands, seen)| && Lower(FirstsAfter(cands, seen)[a]) == Lower(cands[i])
    decreases |cands|
  {
    if |cands| > 0 {
      var c := cands[0];
      var seen' := if Lower(c) in seen then seen else seen + {Lower(c)};
      FirstsAfterKeys(cands[1..], seen');
      var f := FirstsAfter(cands, seen);
      var rest := FirstsAfter(cands[1..], seen');
      if Lower(c) !in seen {
        assert f == [c] + rest;
        forall i | 0 <= i < |cands| && Lower(cands[i]) !in seen
          ensures exists a :: 0 <= a < |f| && Lower(f[a]) == Lower(cands[i])
        {
          if i == 0 {
            assert Lower(f[0]) == Lower(cands[i]);
          } else if Lower(cands[i]) == Lower(c) {
            assert Lower(f[0]) == Lower(cands[i]);
          } else {
            assert cands[i] == cands[1..][i - 1];
            var a :| 0 <= a < |rest| && Lower(rest[a]) == Lower(cands[i]);
            assert f[a + 1] == rest[a];
          }
        }
      } else {
        forall i | 0 <= i < |cands| && Lower(cands[i]) !in seen
          ensures exists a :: 0 <= a < |f| && Lower(f[a]) == Lower(cands[i])
        {
          assert i != 0;
          assert cands[i] == cands[1..][i - 1];
        }
      }
    }
  }

  /** The first occurrences are taken in order from the candidates, and the first candidate
      of every key outside `seen` is among them: a later duplicate never replaces it. */
  lemma {:induction false} FirstsAfterOrder(cands: seq<string>, seen: set<string>)
    ensures IsSubseq(FirstsAfter(cands, seen), cands)
    ensures forall i :: (0 <= i < |cands| && Lower(cands[i]) !in seen
                         && forall j :: 0 <= j < i ==> Lower(cands[j]) != Lower(cands[i])) ==>
      cands[i] in FirstsAfter(cands, seen)
    decreases |cands|
  {
    if |cands| > 0 {
      var c := cands[0];
      var seen' := if Lower(c) in seen then seen else seen + {Lower(c)};
      FirstsAfterOrder(cands[1..], seen');
      var f := FirstsAfter(cands, seen);
      var rest := FirstsAfter(cands[1..], seen');
      if Lower(c) in seen {
        SubseqSkip(f, cands);
      } else {
        assert f == [c] + rest && f[1..] == rest;
      }
      forall i | 0 < i < |cands| && Lower(cands[i]) !in seen
        && (forall j :: 0 <= j < i ==> Lower(cands[j]) != Lower(cands[i]))
        ensures cands[i] in f
      {
        assert cands[i] == cands[1..][i - 1];
        assert Lower(cands[0]) != Lower(cands[i]);
        forall j | 0 <= j < i - 1 ensures Lower(cands[1..][j]) != Lower(cands[1..][i - 1]) {
          assert cands[1..][j] == cands[j + 1];
        }
        assert cands[1..][i - 1] in rest;
      }
    }
  }

  // ---------------------------------------------------------------------------------
  // Fallback
  // ---------------------------------------------------------------------------------

  /** A line the fallback keeps. */
  predicate IsShort(s: string) {
    s != "" && |s| < ShortLength
  }

  /** The rest of the fallback loop over `lines` with the lines `outline` so far. */
  function ShortLines(lines: seq<string>, outline: seq<string>, maxLines: int): seq<string>
    decreases |lines|
  {
    if |lines| == 0 then outline
    else if IsShort(lines[0]) then
      var o := outline + [lines[0]];
      if |o| >= maxLines then o else ShortLines(lines[1..], o, maxLines)
    else ShortLines(lines[1..], outline, maxLines)
  }

  /** The fallback loop. */
  method FallbackLines(lines: seq<string>, maxLines: int) returns (outline: seq<string>)
    ensures outline == ShortLines(lines, [], maxLines)
  {
    outline := [];
    var i := 0;
    while i < |lines|
      invariant i <= |lines|
      invariant ShortLines(lines[i..], outline, maxLines) == ShortLines(lines, [], maxLines)
    {
      assert lines[i..][0] == lines[i] && lines[i..][1..] == lines[i + 1..];
      var s := lines[i];
      if s != "" && |s| < ShortLength {
        outline := outline + [s];
        if |outline| >= maxLines {
          return;
        }
      }
      i := i + 1;
    }
  }

  /** The non-empty lines shorter than 80 characters, in order. */
  function Shorts(lines: seq<string>): (r: seq<string>)
    ensures forall k :: 0 <= k < |r| ==> IsShort(r[k])
    decreases |lines|
  {
    if |lines| == 0 then []
    else if IsShort(lines[0]) then [lines[0]] + Shorts(lines[1..])
    else Shorts(lines[1..])
  }

  /** The fallback is the short lines, cut at `maxLines` lines (or one). */
  lemma {:induction false} ShortLinesTake(lines: seq<string>, outline: seq<string>, maxLines: int)
    requires outline == [] || |outline| < maxLines
    ensures ShortLines(lines, outline, maxLines) == outline + Take(Shorts(lines), Max(maxLines - |outline|, 1))
    decreases |lines|
  {
    if |lines| > 0 {
      if IsShort(lines[0]) {
        var o := outline + [lines[0]];
        var rest := Shorts(lines[1..]);
        if |o| < maxLines {
          ShortLinesTake(lines[1..], o, maxLines);
          var n := Max(maxLines - |outline|, 1);
          assert Take([lines[0]] + rest, n) == [lines[0]] + Take(rest, n - 1);
        }
      } else {
        ShortLinesTake(lines[1..], outline, maxLines);
      }
    }
  }

  /** The short lines are taken in order and none is missed. */
  lemma {:induction false} ShortsOrder(lines: seq<string>)
    ensures IsSubseq(Shorts(lines), lines)
    ensures forall i :: 0 <= i < |lines| && IsShort(lines[i]) ==> lines[i] in Shorts(lines)
    decreases |lines|
  {
    if |lines| > 0 {
      ShortsOrder(lines[1..]);
      var r := Shorts(lines);
      if IsShort(lines[0]) {
        assert r[1..] == Shorts(lines[1..]);
      } else {
        SubseqSkip(r, lines);
      }
      forall i | 0 < i < |lines| && IsShort(lines[i]) ensures lines[i] in r {
        assert lines[i] == lines[1..][i - 1];
      }
    }
  }

  // ---------------------------------------------------------------------------------
  // extract_structure_outline
  // ---------------------------------------------------------------------------------

  /** The outline's lines: the de-duplicated candidates, or the fallback when there are
      none. */
  function OutlineLines(lines: seq<string>, maxLines: int, heading: string -> bool): seq<string> {
    var outline := Dedup(Candidates(lines, heading), {}, [], maxLines);
    if |outline| == 0 then ShortLines(lines, [], maxLines) else outline
  }

  /** `extract_structure_outline(file_paths, max_lines)`, the documents' chunks being
      `chunks`. */
  function OutlineText(paths: seq<string>, chunks: seq<ChunkEntry>, maxLines: int, heading: string -> bool): string
    requires AllDicts(chunks)
  {
    if |paths| == 0 then "" else Join(OutlineLines(DocumentLines(chunks), maxLines, heading), "\n")
  }

  /** The whole function. */
  method ExtractOutline(paths: seq<string>, chunks: seq<ChunkEntry>, maxLines: int, heading: string -> bool)
    returns (r: string)
    requires AllDicts(chunks)
    ensures r == OutlineText(paths, chunks, maxLines, heading)
  {
    if |paths| == 0 {
      return "";
    }
    var lines := DocumentLines(chunks);
    var candidates := CollectCandidates(lines, heading);
    var outline := DedupCandidates(candidates, maxLines);
    if |outline| == 0 {
      outline := FallbackLines(lines, maxLines);
    }
    r := Join(outline, "\n");
  }

  /** When heading-like lines exist, the outline is their first occurrences up to case, at
      most `max_lines` of them (one when `max_lines` is below one); otherwise it is the
      first short lines, as many. */
  lemma OutlineLinesSpec(lines: seq<string>, maxLines: int, heading: string -> bool)
    ensures var cands := Candidates(lines, heading);
      OutlineLines(lines, maxLines, heading)
      == if |cands| > 0 then Take(FirstsAfter(cands, {}), Max(maxLines, 1))
         else Take(Shorts(lines), Max(maxLines, 1))
    ensures |OutlineLines(lines, maxLines, heading)| <= Max(maxLines, 1)
  {
    var cands := Candidates(lines, heading);
    DedupTake(cands, {}, [], maxLines);
    ShortLinesTake(lines, [], maxLines);
    if |cands| > 0 {
      assert |FirstsAfter(cands, {})| > 0;
    } else {
      assert FirstsAfter(cands, {}) == [];
    }
  }

  /** Only the chunks' "text" entries are read: chunks that agree on them give the same
      outline. */
  lemma {:induction false} TextPartsReadText(a: seq<ChunkEntry>, b: seq<ChunkEntry>)
    requires AllDicts(a) && AllDicts(b) && |a| == |b|
    requires forall k :: 0 <= k < |a| ==> a[k].text == b[k].text
    ensures TextParts(a) == TextParts(b)
  {
    if |a| > 0 {
      TextPartsReadText(a[..|a| - 1], b[..|b| - 1]);
    }
  }

  /** Chunks without a "text" entry, as `parse_documents_to_chunks` builds them (it stores
      the text under "content"), leave nothing to read: the outline is empty. */
  lemma {:induction false} NoTextNoOutline(paths: seq<string>, chunks: seq<ChunkEntry>, maxLines: int, heading: string -> bool)
    requires AllDicts(chunks) && forall k :: 0 <= k < |chunks| ==> chunks[k].text.None?
    ensures OutlineText(paths, chunks, maxLines, heading) == ""
  {
    NoTextParts(chunks);
    assert Split("", "\n") == [""];
    assert DocumentLines(chunks) == [];
  }

  lemma {:induction false} NoTextParts(chunks: seq<ChunkEntry>)
    requires AllDicts(chunks) && forall k :: 0 <= k < |chunks| ==> chunks[k].text.None?
    ensures TextParts(chunks) == []
  {
    if |chunks| > 0 {
      NoTextParts(chunks[..|chunks| - 1]);
    }
  }
}
