/**
 * sop_generator/agents/document_parser.py: `summarize_parsed_chunks`, the short summary of
 * the parsed chunks that conditions the generator. Calling `.get` on an entry that is not
 * a dict raises, which the model reports as `None`.
 */
module ParserSummary {
  import opened Text
  import opened Wrappers
  import opened Records

  /** At most this many chunks are read. */
  const MaxChunks: nat := 20

  /** A snippet longer than this is cut and marked with "...". */
  const MaxSnippet: nat := 500

  /** `ch.get('source', 'unknown')`. */
  function SourceLabel(c: ChunkEntry): string
    requires c.ChunkDict?
  {
    GetOrElse(c.source, "unknown")
  }

  /** `ch.get("text", "").strip().replace("\n", " ")`. */
  function SnippetOf(c: ChunkEntry): string
    requires c.ChunkDict?
  {
    ReplaceChar(Strip(GetOrElse(c.text, "")), '\n', ' ')
  }

  /** The snippet as it is written: its first 500 characters, and "..." after a longer one. */
  function Shortened(snippet: string): string {
    Prefix(snippet, MaxSnippet) + (if |snippet| > MaxSnippet then "..." else "")
  }

  /** The summary line of a chunk. */
  function SummaryLine(c: ChunkEntry): string
    requires c.ChunkDict?
  {
    "[src: " + SourceLabel(c) + "] " + Shortened(SnippetOf(c))
  }

  /** The summary lines of the given chunks, in order, or `None` when one is not a dict. */
  function SummaryLines(chunks: seq<ChunkEntry>): Option<seq<string>> {
    if |chunks| == 0 then Some([])
    else
      var init := SummaryLines(chunks[..|chunks| - 1]);
      var c := chunks[|chunks| - 1];
      if init.None? || c.NotADict? then None
      else if SnippetOf(c) == "" then init
      else Some(init.value + [SummaryLine(c)])
  }

  /** The summary of the first twenty chunks. */
  function Summary(chunks: seq<ChunkEntry>): Option<string> {
    var lines := SummaryLines(chunks[..Min(|chunks|, MaxChunks)]);
    if lines.None? then None else Some(Join(lines.value, "\n"))
  }

  /** The loop of `summarize_parsed_chunks` over the chunks it reads. */
  method CollectLines(chunks: seq<ChunkEntry>) returns (r: Option<seq<string>>)
    ensures r == SummaryLines(chunks)
  {
    var texts: seq<string> := [];
    for i := 0 to |chunks|
      invariant SummaryLines(chunks[..i]) == Some(texts)
    {
      assert chunks[..i + 1][..i] == chunks[..i];
      var ch := chunks[i];
      if ch.NotADict? {
        FailureStays(chunks, i + 1);
        return None;
      }
      var snippet := SnippetOf(ch);
      if snippet != "" {
        texts := texts + [SummaryLine(ch)];
      }
    }
    assert chunks[..|chunks|] == chunks;
    r := Some(texts);
  }

  /** `summarize_parsed_chunks` (document_parser.py:19-27). */
  method SummarizeParsedChunks(chunks: seq<ChunkEntry>) returns (r: Option<string>)
    ensures r == Summary(chunks)
  {
    var lines := CollectLines(chunks[..Min(|chunks|, MaxChunks)]);
    if lines.None? {
      return None;
    }
    r := Some(Join(lines.value, "\n"));
  }

  /** Once an entry that is not a dict has been read, the summary fails. */
  lemma {:induction false} FailureStays(chunks: seq<ChunkEntry>, n: nat)
    requires 0 < n <= |chunks| && chunks[n - 1].NotADict?
    ensures SummaryLines(chunks[..n]) == None
    ensures forall m :: n <= m <= |chunks| ==> SummaryLines(chunks[..m]) == None
  {
    assert chunks[..n][..n - 1] == chunks[..n - 1];
    forall m | n <= m <= |chunks| ensures SummaryLines(chunks[..m]) == None {
      FailureStaysFrom(chunks, n, m);
    }
  }

  lemma {:induction false} FailureStaysFrom(chunks: seq<ChunkEntry>, n: nat, m: nat)
    requires 0 < n <= m <= |chunks| && SummaryLines(chunks[..n]) == None
    ensures SummaryLines(chunks[..m]) == None
    decreases m - n
  {
    if m > n {
      FailureStaysFrom(chunks, n, m - 1);
      assert chunks[..m][..m - 1] == chunks[..m - 1];
    }
  }

  /** The summary fails exactly when an entry is not a dict; otherwise there is at most
      one line per chunk, and every line is the summary line of a chunk whose snippet is
      not empty. */
  lemma SummaryLinesSpec(chunks: seq<ChunkEntry>)
    ensures SummaryLines(chunks).Some? <==> forall k :: 0 <= k < |chunks| ==> chunks[k].ChunkDict?
    ensures SummaryLines(chunks).Some? ==> |SummaryLines(chunks).value| <= |chunks|
    ensures SummaryLines(chunks).Some? ==> forall j :: 0 <= j < |SummaryLines(chunks).value| ==>
      exists k :: 0 <= k < |chunks| && chunks[k].ChunkDict? && SnippetOf(chunks[k]) != ""
        && SummaryLines(chunks).value[j] == SummaryLine(chunks[k])
  {
    SummaryLinesSome(chunks);
    if SummaryLines(chunks).Some? {
      SummaryLinesFrom(chunks);
    }
  }

  lemma {:induction false} SummaryLinesSome(chunks: seq<ChunkEntry>)
    ensures SummaryLines(chunks).Some? <==> forall k :: 0 <= k < |chunks| ==> chunks[k].ChunkDict?
  {
    if |chunks| > 0 {
      var init := chunks[..|chunks| - 1];
      SummaryLinesSome(init);
      assert forall k :: 0 <= k < |init| ==> init[k] == chunks[k];
    }
  }

  lemma {:induction false} SummaryLinesFrom(chunks: seq<ChunkEntry>)
    requires SummaryLines(chunks).Some?
    ensures |SummaryLines(chunks).value| <= |chunks|
    ensures forall j :: 0 <= j < |SummaryLines(chunks).value| ==>
      exists k :: 0 <= k < |chunks| && chunks[k].ChunkDict? && SnippetOf(chunks[k]) != ""
        && SummaryLines(chunks).value[j] == SummaryLine(chunks[k])
  {
    if |chunks| > 0 {
      var init := chunks[..|chunks| - 1];
      var last := chunks[|chunks| - 1];
      assert SummaryLines(init).Some? && last.ChunkDict?;
      SummaryLinesFrom(init);
      var prev := SummaryLines(init).value;
      var lines := SummaryLines(chunks).value;
      assert lines == prev || lines == prev + [SummaryLine(last)];
      forall j | 0 <= j < |lines|
        ensures exists k :: (0 <= k < |chunks| && chunks[k].ChunkDict? && SnippetOf(chunks[k]) != ""
                             && lines[j] == SummaryLine(chunks[k]))
      {
        if j < |prev| {
          var k :| 0 <= k < |init| && init[k].ChunkDict? && SnippetOf(init[k]) != ""
            && prev[j] == SummaryLine(init[k]);
          assert chunks[k] == init[k];
          assert lines[j] == prev[j];
        } else {
          assert SnippetOf(last) != "";
          assert lines[j] == SummaryLine(chunks[|chunks| - 1]);
        }
      }
    }
  }

  /** A summary line starts with the source label, holds no line break in its snippet part,
      and the snippet part is the snippet itself when it has at most 500 characters, or its
      first 500 characters and "..." otherwise. */
  lemma SummaryLineSpec(c: ChunkEntry)
    requires c.ChunkDict?
    ensures StartsWith(SummaryLine(c), "[src: " + SourceLabel(c) + "] ")
    ensures |SnippetOf(c)| <= MaxSnippet ==> Shortened(SnippetOf(c)) == SnippetOf(c)
    ensures |SnippetOf(c)| > MaxSnippet ==>
      |Shortened(SnippetOf(c))| == MaxSnippet + 3 && EndsWith(Shortened(SnippetOf(c)), "...")
      && StartsWith(SnippetOf(c), Shortened(SnippetOf(c))[..MaxSnippet])
    ensures forall i :: 0 <= i < |Shortened(SnippetOf(c))| ==> Shortened(SnippetOf(c))[i] != '\n'
  {
    var head := "[src: " + SourceLabel(c) + "] ";
    var snip := SnippetOf(c);
    var sh := Shortened(snip);
    assert SummaryLine(c) == head + sh;
    assert (head + sh)[..|head|] == head;
    ReplaceCharRemoves(Strip(GetOrElse(c.text, "")), '\n', ' ');
    if |snip| > MaxSnippet {
      assert sh == snip[..MaxSnippet] + "...";
      assert sh[..MaxSnippet] == snip[..MaxSnippet];
      assert sh[|sh| - 3..] == "...";
      forall i | 0 <= i < |sh| ensures sh[i] != '\n' {
        if i < MaxSnippet {
          assert sh[i] == snip[i];
        }
      }
    }
  }

  /** Only the "text" entry is read: a chunk without it contributes no line, whatever its
      "content". */
  lemma NoTextNoLine(chunks: seq<ChunkEntry>, content: Option<string>, source: Option<string>)
    ensures SummaryLines(chunks + [ChunkDict(content, None, source)]) == SummaryLines(chunks)
  {
    var c := ChunkDict(content, None, source);
    assert (chunks + [c])[..|chunks|] == chunks;
    assert Strip("") == "" by {
      StripSpec("");
    }
  }

  /** At most the first twenty chunks are read: later ones change nothing. */
  lemma OnlyFirstTwenty(chunks: seq<ChunkEntry>, more: seq<ChunkEntry>)
    requires |chunks| >= MaxChunks
    ensures Summary(chunks + more) == Summary(chunks)
  {
    assert (chunks + more)[..MaxChunks] == chunks[..MaxChunks];
  }
}
