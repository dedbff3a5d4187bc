/**
 * sop_generator/utils/document_processor.py: the overlapping text chunker
 * `_split_text` and the per-document chunk indexing of
 * `parse_documents_to_chunks`. Reading files (PDF, DOCX, XLSX, text) is
 * I/O and is represented by the already-read text of each document.
 */
module DocumentProcessor {
  import opened Text
  import opened Wrappers

  const DefaultMaxChunkSize: int := 1500
  const DefaultOverlap: int := 150

  /** The parameters under which the chunking loop makes progress. */
  predicate ChunkParams(maxChunkSize: int, overlap: int) {
    maxChunkSize >= 1 && 0 <= overlap && 2 * overlap <= maxChunkSize
  }

  /** One window `cleaned[start..end]` of the chunker. */
  datatype Window = Window(start: nat, end: nat)

  /** A blank line, ". " or ".\n" starts at position `j` of `c`. */
  predicate BreakAt(c: string, j: int) {
    0 <= j && j + 1 < |c|
    && ((c[j] == '\n' && c[j + 1] == '\n') || (c[j] == '.' && (c[j + 1] == ' ' || c[j + 1] == '\n')))
  }

  /** The last break starting at or before `k`, or -1. */
  function LastBreak(c: string, k: int): (r: int)
    ensures r == -1 || (0 <= r <= k && BreakAt(c, r))
    decreases k + 1
  {
    if k < 0 then -1 else if BreakAt(c, k) then k else LastBreak(c, k - 1)
  }

  /** The soft break inside a candidate window: where its last blank line, ". " or ".\n"
      starts, or -1. */
  function LocalBreak(candidate: string): (r: int)
    ensures r == -1 || (0 <= r && r + 2 <= |candidate| && BreakAt(candidate, r))
  {
    LastBreak(candidate, |candidate| - 2)
  }

  /** A two-character pattern occurs at `k` exactly when its two characters are there. */
  lemma OccursAtPair(c: string, sub: string, k: int)
    requires |sub| == 2
    ensures OccursAt(c, sub, k) <==> 0 <= k && k + 2 <= |c| && c[k] == sub[0] && c[k + 1] == sub[1]
  {
    if 0 <= k && k + 2 <= |c| {
      assert c[k..k + 2][0] == c[k] && c[k..k + 2][1] == c[k + 1];
      if c[k] == sub[0] && c[k + 1] == sub[1] {
        assert c[k..k + 2] == sub;
      }
    }
  }

  /** A break starts at `k` exactly when one of the three patterns occurs there. */
  lemma BreakAtIff(c: string, k: int)
    ensures BreakAt(c, k) <==> OccursAt(c, "\n\n", k) || OccursAt(c, ". ", k) || OccursAt(c, ".\n", k)
  {
    OccursAtPair(c, "\n\n", k);
    OccursAtPair(c, ". ", k);
    OccursAtPair(c, ".\n", k);
  }

  /** The last break up to `k` is the largest of the last positions, up to `k`, of the three
      patterns. */
  lemma {:induction false} LastBreakIsMax(c: string, k: int)
    requires k <= |c| - 2
    ensures LastBreak(c, k)
      == Max(Max(RFindUpTo(c, "\n\n", k), RFindUpTo(c, ". ", k)), RFindUpTo(c, ".\n", k))
    decreases k + 1
  {
    if k >= 0 {
      BreakAtIff(c, k);
      if !BreakAt(c, k) {
        LastBreakIsMax(c, k - 1);
      }
    }
  }

  /** `LocalBreak` is `max(candidate.rfind("\n\n"), candidate.rfind(". "), candidate.rfind(".\n"))`
      (sop_generator/utils/document_processor.py:141). */
  lemma LocalBreakIsMaxRFind(candidate: string)
    ensures LocalBreak(candidate)
      == Max(Max(RFind(candidate, "\n\n"), RFind(candidate, ". ")), RFind(candidate, ".\n"))
  {
    LastBreakIsMax(candidate, |candidate| - 2);
  }

  /** Where the window starting at `start` ends: `start + max`, clipped to the text, or just
      after a soft break lying beyond half of the window. */
  function WindowEnd(cleaned: string, start: nat, maxChunkSize: int): (end: nat)
    requires start < |cleaned| && maxChunkSize >= 1
    ensures start < end <= |cleaned| && end - start <= maxChunkSize
  {
    var end := Min(start + maxChunkSize, |cleaned|);
    if end < |cleaned| then
      var lb := LocalBreak(cleaned[start..end]);
      if lb != -1 && 2 * lb > maxChunkSize then start + lb + 1 else end
    else end
  }

  /** A window reaches the end of the text exactly when `start + max_chunk_size` does, and a
      window cut short ends just after a '.' or a newline lying beyond half of the window. */
  lemma WindowEndSpec(cleaned: string, start: nat, maxChunkSize: int)
    requires start < |cleaned| && maxChunkSize >= 1
    ensures var end := WindowEnd(cleaned, start, maxChunkSize);
      (end == |cleaned| <==> start + maxChunkSize >= |cleaned|)
      && (end < |cleaned| && end != start + maxChunkSize ==>
          2 * (end - start - 1) > maxChunkSize && (cleaned[end - 1] == '.' || cleaned[end - 1] == '\n'))
  {
    var e := Min(start + maxChunkSize, |cleaned|);
    if e < |cleaned| {
      var lb := LocalBreak(cleaned[start..e]);
      if lb != -1 && 2 * lb > maxChunkSize {
        assert cleaned[start + lb] == cleaned[start..e][lb];
      }
    }
  }

  /** Where the window after the one ending at `end` starts. */
  function NextStart(end: nat, overlap: int): nat {
    Max(0, end - overlap)
  }

  /** The loop makes progress: the next window starts after the current one. */
  lemma Progress(cleaned: string, start: nat, maxChunkSize: int, overlap: int)
    requires start < |cleaned| && ChunkParams(maxChunkSize, overlap)
    requires WindowEnd(cleaned, start, maxChunkSize) < |cleaned|
    ensures start < NextStart(WindowEnd(cleaned, start, maxChunkSize), overlap) <= WindowEnd(cleaned, start, maxChunkSize)
  {
    WindowEndSpec(cleaned, start, maxChunkSize);
  }

  /** The windows the chunking loop visits, from `start` to the end of the text. */
  function Windows(cleaned: string, start: nat, maxChunkSize: int, overlap: int): seq<Window>
    requires start < |cleaned| && ChunkParams(maxChunkSize, overlap)
    decreases |cleaned| - start
  {
    var end := WindowEnd(cleaned, start, maxChunkSize);
    if end >= |cleaned| then [Window(start, end)]
    else
      Progress(cleaned, start, maxChunkSize, overlap);
      [Window(start, end)] + Windows(cleaned, NextStart(end, overlap), maxChunkSize, overlap)
  }

  /** The raw (stripped, possibly empty) chunk texts the loop appends, from `start` on. */
  function RawChunks(cleaned: string, start: nat, maxChunkSize: int, overlap: int): seq<string>
    requires start < |cleaned| && ChunkParams(maxChunkSize, overlap)
    decreases |cleaned| - start
  {
    var end := WindowEnd(cleaned, start, maxChunkSize);
    if end >= |cleaned| then [Strip(cleaned[start..end])]
    else
      Progress(cleaned, start, maxChunkSize, overlap);
      var next := NextStart(end, overlap);
      [Strip(cleaned[start..end])] + RawChunks(cleaned, next, maxChunkSize, overlap)
  }

  /** The first window starts at `start` and ends at `WindowEnd`. */
  lemma WindowsFirst(cleaned: string, start: nat, maxChunkSize: int, overlap: int)
    requires start < |cleaned| && ChunkParams(maxChunkSize, overlap)
    ensures var ws := Windows(cleaned, start, maxChunkSize, overlap);
      |ws| >= 1 && ws[0] == Window(start, WindowEnd(cleaned, start, maxChunkSize))
  {
  }

  /** `Windows` when the window at `start` stops short of the end of the text. */
  lemma WindowsNext(cleaned: string, start: nat, maxChunkSize: int, overlap: int, end: nat)
    requires start < |cleaned| && ChunkParams(maxChunkSize, overlap)
    requires end == WindowEnd(cleaned, start, maxChunkSize) && end < |cleaned|
    ensures start < NextStart(end, overlap) < |cleaned|
    ensures Windows(cleaned, start, maxChunkSize, overlap)
      == [Window(start, end)] + Windows(cleaned, NextStart(end, overlap), maxChunkSize, overlap)
  {
    Progress(cleaned, start, maxChunkSize, overlap);
  }

  /** `RawChunks` when the window at `start` reaches the end of the text. */
  lemma RawLast(cleaned: string, start: nat, maxChunkSize: int, overlap: int, end: nat)
    requires start < |cleaned| && ChunkParams(maxChunkSize, overlap)
    requires end == WindowEnd(cleaned, start, maxChunkSize) && end >= |cleaned|
    ensures RawChunks(cleaned, start, maxChunkSize, overlap) == [Strip(cleaned[start..end])]
  {
  }

  /** `RawChunks` when the window at `start` stops short of the end of the text. */
  lemma RawNext(cleaned: string, start: nat, maxChunkSize: int, overlap: int, end: nat)
    requires start < |cleaned| && ChunkParams(maxChunkSize, overlap)
    requires end == WindowEnd(cleaned, start, maxChunkSize) && end < |cleaned|
    ensures start < NextStart(end, overlap) < |cleaned|
    ensures RawChunks(cleaned, start, maxChunkSize, overlap)
      == [Strip(cleaned[start..end])] + RawChunks(cleaned, NextStart(end, overlap), maxChunkSize, overlap)
  {
    Progress(cleaned, start, maxChunkSize, overlap);
  }

  /** A window is well placed: non-empty, inside the text and at most `maxChunkSize` long. */
  predicate WindowOk(w: Window, n: nat, maxChunkSize: int) {
    w.start < w.end <= n && w.end - w.start <= maxChunkSize
  }

  /** Windows `k` and `k + 1` are consecutive: window `k` stops short of the end of the text,
      and window `k + 1` starts `overlap` characters before it ends (at 0 at the earliest),
      strictly after window `k` starts. */
  predicate Linked(ws: seq<Window>, k: int, n: nat, overlap: int) {
    0 <= k && k + 1 < |ws| && ws[k].end < n && ws[k + 1].start == NextStart(ws[k].end, overlap)
    && ws[k].start < ws[k + 1].start
  }

  /** Prepending a well-placed window keeps every window well placed. */
  lemma ConsWindowsOk(w: Window, rest: seq<Window>, n: nat, maxChunkSize: int)
    requires WindowOk(w, n, maxChunkSize)
    requires forall k :: 0 <= k < |rest| ==> WindowOk(rest[k], n, maxChunkSize)
    ensures forall k :: 0 <= k < |[w] + rest| ==> WindowOk(([w] + rest)[k], n, maxChunkSize)
  {
    var ws := [w] + rest;
    forall k | 0 <= k < |ws| ensures WindowOk(ws[k], n, maxChunkSize) {
      if k > 0 {
        assert ws[k] == rest[k - 1];
      }
    }
  }

  /** Prepending a window linked to the first of a linked sequence keeps it linked. */
  lemma ConsLinked(w: Window, rest: seq<Window>, n: nat, overlap: int)
    requires |rest| >= 1 && w.end < n && rest[0].start == NextStart(w.end, overlap) && w.start < rest[0].start
    requires forall k :: 0 <= k < |rest| - 1 ==> Linked(rest, k, n, overlap)
    ensures forall k :: 0 <= k < |[w] + rest| - 1 ==> Linked([w] + rest, k, n, overlap)
  {
    var ws := [w] + rest;
    forall k | 0 <= k < |ws| - 1 ensures Linked(ws, k, n, overlap) {
      if k > 0 {
        assert Linked(rest, k - 1, n, overlap);
        assert ws[k] == rest[k - 1] && ws[k + 1] == rest[k];
      }
    }
  }

  /** The shape of the window sequence: it starts where asked, every window is well placed,
      consecutive windows are linked (so the starts strictly increase and the loop ends), and
      only the last window reaches the end of the text. */
  lemma {:induction false} WindowsShape(cleaned: string, start: nat, maxChunkSize: int, overlap: int)
    requires start < |cleaned| && ChunkParams(maxChunkSize, overlap)
    ensures var ws := Windows(cleaned, start, maxChunkSize, overlap);
      |ws| >= 1 && ws[0] == Window(start, WindowEnd(cleaned, start, maxChunkSize)) && ws[|ws| - 1].end == |cleaned|
      && (forall k :: 0 <= k < |ws| ==> WindowOk(ws[k], |cleaned|, maxChunkSize))
      && (forall k :: 0 <= k < |ws| - 1 ==> Linked(ws, k, |cleaned|, overlap))
    decreases |cleaned| - start
  {
    var ws := Windows(cleaned, start, maxChunkSize, overlap);
    var end := WindowEnd(cleaned, start, maxChunkSize);
    if end < |cleaned| {
      var next := NextStart(end, overlap);
      WindowsNext(cleaned, start, maxChunkSize, overlap, end);
      var rest := Windows(cleaned, next, maxChunkSize, overlap);
      WindowsShape(cleaned, next, maxChunkSize, overlap);
      ConsWindowsOk(Window(start, end), rest, |cleaned|, maxChunkSize);
      ConsLinked(Window(start, end), rest, |cleaned|, overlap);
    }
  }

  /** `c` is the stripped text of window `w`. */
  predicate PieceOf(cleaned: string, w: Window, c: string) {
    w.start <= w.end <= |cleaned| && c == Strip(cleaned[w.start..w.end])
  }

  /** Prepending a window and its piece keeps the pieces paired with the windows. */
  lemma ConsPieces(cleaned: string, w: Window, c: string, rest: seq<Window>, tail: seq<string>)
    requires PieceOf(cleaned, w, c) && |tail| == |rest|
    requires forall k :: 0 <= k < |rest| ==> PieceOf(cleaned, rest[k], tail[k])
    ensures forall k :: 0 <= k < |[w] + rest| ==> PieceOf(cleaned, ([w] + rest)[k], ([c] + tail)[k])
  {
    var ws := [w] + rest;
    var raw := [c] + tail;
    forall k | 0 <= k < |ws| ensures PieceOf(cleaned, ws[k], raw[k]) {
      if k > 0 {
        assert ws[k] == rest[k - 1] && raw[k] == tail[k - 1];
      }
    }
  }

  /** The loop's raw chunks are the windows' stripped texts, one per window. */
  lemma {:induction false} RawChunksAreWindows(cleaned: string, start: nat, maxChunkSize: int, overlap: int)
    requires start < |cleaned| && ChunkParams(maxChunkSize, overlap)
    ensures var ws := Windows(cleaned, start, maxChunkSize, overlap);
      var raw := RawChunks(cleaned, start, maxChunkSize, overlap);
      |raw| == |ws| && forall k :: 0 <= k < |ws| ==> PieceOf(cleaned, ws[k], raw[k])
    decreases |cleaned| - start
  {
    var end := WindowEnd(cleaned, start, maxChunkSize);
    var ws := Windows(cleaned, start, maxChunkSize, overlap);
    var raw := RawChunks(cleaned, start, maxChunkSize, overlap);
    if end < |cleaned| {
      var next := NextStart(end, overlap);
      WindowsNext(cleaned, start, maxChunkSize, overlap, end);
      RawNext(cleaned, start, maxChunkSize, overlap, end);
      RawChunksAreWindows(cleaned, next, maxChunkSize, overlap);
      var rest := Windows(cleaned, next, maxChunkSize, overlap);
      var tail := RawChunks(cleaned, next, maxChunkSize, overlap);
      ConsPieces(cleaned, Window(start, end), Strip(cleaned[start..end]), rest, tail);
    } else {
      RawLast(cleaned, start, maxChunkSize, overlap, end);
    }
  }

  /** The windows leave no gap: every position of the text from `start` on lies in some window. */
  lemma {:induction false} WindowsCover(cleaned: string, start: nat, maxChunkSize: int, overlap: int, p: nat)
    requires start < |cleaned| && ChunkParams(maxChunkSize, overlap)
    requires start <= p < |cleaned|
    ensures var ws := Windows(cleaned, start, maxChunkSize, overlap);
      exists k :: 0 <= k < |ws| && ws[k].start <= p < ws[k].end
    decreases |cleaned| - start
  {
    var ws := Windows(cleaned, start, maxChunkSize, overlap);
    var end := WindowEnd(cleaned, start, maxChunkSize);
    if p < end {
      WindowsFirst(cleaned, start, maxChunkSize, overlap);
      assert ws[0].start <= p < ws[0].end;
    } else {
      var next := NextStart(end, overlap);
      WindowsNext(cleaned, start, maxChunkSize, overlap, end);
      WindowsCover(cleaned, next, maxChunkSize, overlap, p);
      var rest := Windows(cleaned, next, maxChunkSize, overlap);
      var k :| 0 <= k < |rest| && rest[k].start <= p < rest[k].end;
      assert ws[k + 1] == rest[k];
    }
  }

  /** Python `[c for c in chunks if c]`. */
  function NonEmpty(cs: seq<string>): (r: seq<string>)
    ensures forall k :: 0 <= k < |r| ==> r[k] != "" && r[k] in cs
    ensures forall c :: c in cs && c != "" ==> c in r
  {
    if cs == [] then [] else (if cs[0] == "" then [] else [cs[0]]) + NonEmpty(cs[1..])
  }

  /** What `_split_text` returns. */
  function SplitSpec(text: string, maxChunkSize: int, overlap: int): seq<string>
    requires ChunkParams(maxChunkSize, overlap)
  {
    var cleaned := Strip(text);
    if cleaned == [] then []
    else if |cleaned| <= maxChunkSize then [cleaned]
    else NonEmpty(RawChunks(cleaned, 0, maxChunkSize, overlap))
  }

  /** Every raw chunk is at most `maxChunkSize` long. */
  lemma {:induction false} RawChunksBounded(cleaned: string, start: nat, maxChunkSize: int, overlap: int)
    requires start < |cleaned| && ChunkParams(maxChunkSize, overlap)
    ensures forall k :: 0 <= k < |RawChunks(cleaned, start, maxChunkSize, overlap)| ==>
      |RawChunks(cleaned, start, maxChunkSize, overlap)[k]| <= maxChunkSize
    decreases |cleaned| - start
  {
    var end := WindowEnd(cleaned, start, maxChunkSize);
    var raw := RawChunks(cleaned, start, maxChunkSize, overlap);
    if end < |cleaned| {
      var next := NextStart(end, overlap);
      RawNext(cleaned, start, maxChunkSize, overlap, end);
      RawChunksBounded(cleaned, next, maxChunkSize, overlap);
      var tail := RawChunks(cleaned, next, maxChunkSize, overlap);
      forall k | 0 < k < |raw| ensures |raw[k]| <= maxChunkSize {
        assert raw[k] == tail[k - 1];
      }
    } else {
      RawLast(cleaned, start, maxChunkSize, overlap, end);
    }
  }

  /** The first half of the loop body of `_split_text`
      (sop_generator/utils/document_processor.py:137-145): the window at `start`, cut at
      `start + max_chunk_size` or just after a soft break beyond half of it. */
  method CutWindow(cleaned: string, start: nat, maxChunkSize: int) returns (end: nat, candidate: string)
    requires start < |cleaned| && maxChunkSize >= 1
    ensures end == WindowEnd(cleaned, start, maxChunkSize)
    ensures candidate == cleaned[start..end]
  {
    var length := |cleaned|;
    end := Min(start + maxChunkSize, length);
    candidate := cleaned[start..end];
    if end < length {
      var localBreak := LocalBreak(candidate);
      if localBreak != -1 && 2 * localBreak > maxChunkSize {
        end := start + localBreak + 1;
        candidate := cleaned[start..end];
      }
    }
  }

  /** The `while start < length` loop of `_split_text`
      (sop_generator/utils/document_processor.py:133-150): the raw chunks, before the
      empty ones are dropped. */
  method ChunkLoop(cleaned: string, maxChunkSize: int, overlap: int) returns (raw: seq<string>)
    requires ChunkParams(maxChunkSize, overlap) && |cleaned| > maxChunkSize
    ensures raw == RawChunks(cleaned, 0, maxChunkSize, overlap)
  {
    raw := [];
    var start: nat := 0;
    var length := |cleaned|;
    while start < length
      invariant start < length
      invariant RawChunks(cleaned, 0, maxChunkSize, overlap) == raw + RawChunks(cleaned, start, maxChunkSize, overlap)
      decreases length - start
    {
      var end, candidate := CutWindow(cleaned, start, maxChunkSize);
      raw := raw + [Strip(candidate)];
      if end >= length {
        RawLast(cleaned, start, maxChunkSize, overlap, end);
        break;
      }
      RawNext(cleaned, start, maxChunkSize, overlap, end);
      start := NextStart(end, overlap);
    }
  }

  /** `_split_text` (sop_generator/utils/document_processor.py:127-152). */
  method SplitText(text: string, maxChunkSize: int, overlap: int) returns (chunks: seq<string>)
    requires ChunkParams(maxChunkSize, overlap)
    ensures chunks == SplitSpec(text, maxChunkSize, overlap)
  {
    var cleaned := Strip(text);
    if cleaned == [] {
      return [];
    }
    if |cleaned| <= maxChunkSize {
      return [cleaned];
    }
    var raw := ChunkLoop(cleaned, maxChunkSize, overlap);
    chunks := NonEmpty(raw);
  }

  /** What the split promises: nothing for a blank text, the stripped text itself when it
      fits in one chunk, and otherwise chunks that are all non-empty and at most
      `maxChunkSize` long. */
  lemma SplitSpecShape(text: string, maxChunkSize: int, overlap: int)
    requires ChunkParams(maxChunkSize, overlap)
    ensures var chunks := SplitSpec(text, maxChunkSize, overlap);
      (Strip(text) == [] ==> chunks == [])
      && (0 < |Strip(text)| <= maxChunkSize ==> chunks == [Strip(text)])
      && (forall k :: 0 <= k < |chunks| ==> 0 < |chunks[k]| <= maxChunkSize)
  {
    var cleaned := Strip(text);
    if |cleaned| > maxChunkSize {
      var raw := RawChunks(cleaned, 0, maxChunkSize, overlap);
      RawChunksBounded(cleaned, 0, maxChunkSize, overlap);
      assert forall k :: 0 <= k < |raw| ==> |raw[k]| <= maxChunkSize;
      var chunks := NonEmpty(raw);
      forall k | 0 <= k < |chunks| ensures 0 < |chunks[k]| <= maxChunkSize {
        assert chunks[k] != "" && chunks[k] in raw;
        var j :| 0 <= j < |raw| && raw[j] == chunks[k];
        assert |raw[j]| <= maxChunkSize;
      }
    }
  }

  // ----- parse_documents_to_chunks -----

  /** One entry of the chunk list. */
  datatype Chunk = Chunk(source: string, chunkIndex: nat, content: string)

  /** A document as the reader saw it: its path, and its text when the path names a readable
      file (`None` for a missing file, a directory or a reader failure). The path stands for
      `str(Path(raw_path))`, the normalised form the chunks record ("./a.txt" as "a.txt");
      normalising never empties a non-empty path, so testing it for "" is the source's
      test on the raw path. */
  datatype Document = Document(path: string, text: Option<string>)

  /** The chunks of one document from piece `i` on: a chunk's index is its position in the
      split list, and empty pieces are skipped. */
  function IndexedFrom(source: string, pieces: seq<string>, i: nat): seq<Chunk>
    requires i <= |pieces|
    decreases |pieces| - i
  {
    if i == |pieces| then []
    else (if pieces[i] == "" then [] else [Chunk(source, i, pieces[i])]) + IndexedFrom(source, pieces, i + 1)
  }

  /** The chunks one document contributes: none for an empty path or an unreadable file. */
  function DocumentChunks(d: Document, maxChunkSize: int, overlap: int): seq<Chunk>
    requires ChunkParams(maxChunkSize, overlap)
  {
    if d.path == "" || d.text.None? then []
    else
      var pieces := SplitSpec(d.text.value, maxChunkSize, overlap);
      IndexedFrom(d.path, pieces, 0)
  }

  /** What `parse_documents_to_chunks` returns for the first `n` documents. */
  function DocumentsChunks(docs: seq<Document>, n: nat, maxChunkSize: int, overlap: int): seq<Chunk>
    requires n <= |docs| && ChunkParams(maxChunkSize, overlap)
  {
    if n == 0 then []
    else DocumentsChunks(docs, n - 1, maxChunkSize, overlap) + DocumentChunks(docs[n - 1], maxChunkSize, overlap)
  }

  /** The `for idx, chunk_text in enumerate(...)` loop of `parse_documents_to_chunks`
      (sop_generator/utils/document_processor.py:36-43). */
  method AppendChunks(chunks: seq<Chunk>, source: string, pieces: seq<string>) returns (r: seq<Chunk>)
    ensures r == chunks + IndexedFrom(source, pieces, 0)
  {
    r := chunks;
    var idx := 0;
    while idx < |pieces|
      invariant 0 <= idx <= |pieces|
      invariant chunks + IndexedFrom(source, pieces, 0) == r + IndexedFrom(source, pieces, idx)
      decreases |pieces| - idx
    {
      if pieces[idx] != "" {
        r := r + [Chunk(source, idx, pieces[idx])];
      }
      idx := idx + 1;
    }
  }

  /** The body of the document loop of `parse_documents_to_chunks`
      (sop_generator/utils/document_processor.py:26-43): skip an empty path or an
      unreadable file, otherwise split the text and number its chunks. */
  method ChunkDocument(d: Document, maxChunkSize: int, overlap: int) returns (cs: seq<Chunk>)
    requires ChunkParams(maxChunkSize, overlap)
    ensures cs == DocumentChunks(d, maxChunkSize, overlap)
  {
    if d.path == "" || d.text.None? {
      return [];
    }
    var pieces := SplitText(d.text.value, maxChunkSize, overlap);
    cs := AppendChunks([], d.path, pieces);
  }

  /** One turn of the document loop: the chunks of the `i`-th document are appended. */
  method AddDocument(docs: seq<Document>, i: nat, chunks: seq<Chunk>, maxChunkSize: int, overlap: int)
    returns (r: seq<Chunk>)
    requires i < |docs| && ChunkParams(maxChunkSize, overlap)
    requires chunks == DocumentsChunks(docs, i, maxChunkSize, overlap)
    ensures r == DocumentsChunks(docs, i + 1, maxChunkSize, overlap)
  {
    var cs := ChunkDocument(docs[i], maxChunkSize, overlap);
    r := chunks + cs;
  }

  /** `parse_documents_to_chunks` (sop_generator/utils/document_processor.py:10-44). */
  method ParseDocumentsToChunks(docs: seq<Document>, maxChunkSize: int, overlap: int) returns (chunks: seq<Chunk>)
    requires ChunkParams(maxChunkSize, overlap)
    ensures chunks == DocumentsChunks(docs, |docs|, maxChunkSize, overlap)
  {
    chunks := [];
    var i := 0;
    while i < |docs|
      invariant 0 <= i <= |docs|
      invariant chunks == DocumentsChunks(docs, i, maxChunkSize, overlap)
      decreases |docs| - i
    {
      chunks := AddDocument(docs, i, chunks, maxChunkSize, overlap);
      i := i + 1;
    }
  }

  /** With no empty piece, the chunks from piece `i` on are the pieces in order, the k-th
      numbered `i + k`. */
  lemma {:induction false} IndexedConsecutive(source: string, pieces: seq<string>, i: nat)
    requires i <= |pieces|
    requires forall k :: 0 <= k < |pieces| ==> pieces[k] != ""
    ensures |IndexedFrom(source, pieces, i)| == |pieces| - i
    ensures forall k :: 0 <= k < |pieces| - i ==>
      IndexedFrom(source, pieces, i)[k] == Chunk(source, i + k, pieces[i + k])
    decreases |pieces| - i
  {
    if i < |pieces| {
      IndexedConsecutive(source, pieces, i + 1);
      var r := IndexedFrom(source, pieces, i);
      var rest := IndexedFrom(source, pieces, i + 1);
      assert r == [Chunk(source, i, pieces[i])] + rest;
      forall k | 0 <= k < |pieces| - i ensures r[k] == Chunk(source, i + k, pieces[i + k]) {
        if k > 0 {
          assert r[k] == rest[k - 1];
        }
      }
    }
  }

  /** The chunks of one readable document are numbered 0, 1, 2, ... in order, and chunk k
      holds the k-th piece of the split text. */
  lemma ChunkIndicesConsecutive(path: string, text: string, maxChunkSize: int, overlap: int)
    requires ChunkParams(maxChunkSize, overlap) && path != ""
    ensures var cs := DocumentsChunks([Document(path, Some(text))], 1, maxChunkSize, overlap);
      var pieces := SplitSpec(text, maxChunkSize, overlap);
      |cs| == |pieces| && forall k :: 0 <= k < |cs| ==> cs[k] == Chunk(path, k, pieces[k])
  {
    var pieces := SplitSpec(text, maxChunkSize, overlap);
    SplitSpecShape(text, maxChunkSize, overlap);
    IndexedConsecutive(path, pieces, 0);
  }
}
