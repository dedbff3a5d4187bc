/**
 * The markdown reader behind `_write_markdown_to_docx`, which
 * sop_generator/utils/exporter.py and sop_generator/utils/export_manager.py both carry in
 * the same form: table rows and rule rows, padding of table rows, heading levels, bullets,
 * paragraphs and the skipping of an embedded copy of the document title.
 *
 * The document the writer appends to is modelled by the sequence of blocks it adds, in
 * order. The table-rule regular expression is an oracle `rule`; the other regular
 * expressions of the writer are anchored patterns over one line and are written out.
 */
module Markdown {
  import opened Wrappers
  import opened Text

  // ---------------------------------------------------------------------------------------
  // Table rows

  /** The characters a rule row may hold besides pipes. */
  predicate IsRuleChar(c: char) {
    c == '-' || c == ':' || c == '—' || c == '━'
  }

  /** `_is_md_table_separator`: the stripped line starts with '|' and, once its pipes are
      removed and the rest is stripped, only rule characters are left. */
  predicate IsTableSeparator(line: string) {
    var s := Strip(line);
    StartsWith(s, "|") && forall c :: c in Strip(RemoveChar(s, '|')) ==> IsRuleChar(c)
  }

  /** A separator, once stripped, starts with a pipe and holds nothing but pipes, rule
      characters and whitespace. */
  lemma SeparatorChars(line: string)
    requires IsTableSeparator(line)
    ensures var s := Strip(line);
      |s| > 0 && s[0] == '|'
      && forall i :: 0 <= i < |s| ==> s[i] == '|' || IsRuleChar(s[i]) || IsSpace(s[i])
  {
    var s := Strip(line);
    forall i | 0 <= i < |s| && s[i] != '|' && !IsSpace(s[i]) ensures IsRuleChar(s[i]) {
      KeptCharIsRule(s, i);
    }
  }

  lemma KeptCharIsRule(s: string, i: nat)
    requires forall c :: c in Strip(RemoveChar(s, '|')) ==> IsRuleChar(c)
    requires i < |s| && s[i] != '|' && !IsSpace(s[i])
    ensures IsRuleChar(s[i])
  {
    var t := RemoveChar(s, '|');
    RemoveCharKeeps(s, '|', i);
    var k :| 0 <= k < |t| && t[k] == s[i];
    StripKeeps(t, k);
  }

  /** Conversely, a stripped line made of a leading pipe, pipes and rule characters only
      is a separator. */
  lemma RuleRowIsSeparator(line: string)
    requires var s := Strip(line);
      |s| > 0 && s[0] == '|' && forall i :: 0 <= i < |s| ==> s[i] == '|' || IsRuleChar(s[i])
    ensures IsTableSeparator(line)
  {
    var s := Strip(line);
    var t := RemoveChar(s, '|');
    forall c | c in Strip(t) ensures IsRuleChar(c) {
      StripFrom(t, c);
      RemoveCharFrom(s, '|', c);
    }
  }

  /** A lone pipe is a separator. */
  lemma LonePipeIsSeparator()
    ensures IsTableSeparator("|")
  {
    assert !IsSpace('|');
    RuleRowIsSeparator("|");
  }

  /** A rule row with alignment colons is a separator. */
  lemma AlignedRuleIsSeparator()
    ensures IsTableSeparator("|---|:-:|")
  {
    assert !IsSpace('|');
    assert Strip("|---|:-:|") == "|---|:-:|";
    RuleRowIsSeparator("|---|:-:|");
  }

  /** A space inside the rule, once the outer whitespace is stripped, is not allowed. */
  lemma SpacedRuleIsNotSeparator()
    ensures !IsTableSeparator("|- -|")
  {
    var s := "|- -|";
    assert !IsSpace('|') && !IsSpace('-');
    assert Strip(s) == s;
    var t := RemoveChar(s, '|');
    assert t == "- -";
    assert Strip(t) == t;
    assert ' ' in Strip(t);
  }

  /** The cells of a table row: `[c.strip() for c in line.split("|")]` without its first
      cell when that is empty, and then without its last cell when that is empty. */
  function RowCells(line: string): seq<string> {
    TrimBoundary(StripAll(Split(line, "|")))
  }

  /** A list of cells without its first entry when that is empty, and then without its last
      entry when that is empty. */
  function TrimBoundary(cells: seq<string>): seq<string> {
    var a := if |cells| > 0 && cells[0] == "" then cells[1..] else cells;
    if |a| > 0 && a[|a| - 1] == "" then a[..|a| - 1] else a
  }

  /** `r` is `cells[d..d + |r|]` and every cell outside that window is empty. */
  predicate Window(cells: seq<string>, r: seq<string>, d: nat) {
    d + |r| <= |cells|
    && (forall k :: 0 <= k < |r| ==> r[k] == cells[d + k])
    && (forall k :: 0 <= k < d ==> cells[k] == "")
    && (forall k :: d + |r| <= k < |cells| ==> cells[k] == "")
  }

  /** Trimming keeps the cells in order, dropping at most one empty cell at each end. */
  lemma TrimBoundaryWindow(cells: seq<string>)
    ensures |cells| - 2 <= |TrimBoundary(cells)| && exists d :: d <= 1 && Window(cells, TrimBoundary(cells), d)
  {
    var d: nat := if |cells| > 0 && cells[0] == "" then 1 else 0;
    var a := cells[d..];
    assert a == if |cells| > 0 && cells[0] == "" then cells[1..] else cells;
    var e: nat := if |a| > 0 && a[|a| - 1] == "" then 1 else 0;
    assert TrimBoundary(cells) == cells[d..|cells| - e];
    SliceWindow(cells, d, e);
  }

  /** Dropping `d` empty cells at the front and `e` empty cells at the back leaves a window. */
  lemma SliceWindow(cells: seq<string>, d: nat, e: nat)
    requires d + e <= |cells|
    requires forall k :: 0 <= k < d ==> cells[k] == ""
    requires forall k :: |cells| - e <= k < |cells| ==> cells[k] == ""
    ensures Window(cells, cells[d..|cells| - e], d)
  {
  }

  /** The cells are the stripped pieces between the pipes, in order, with at most one empty
      piece dropped at each end. */
  lemma RowCellsWindow(line: string)
    ensures var cells := StripAll(Split(line, "|"));
      |cells| - 2 <= |RowCells(line)| && exists d :: d <= 1 && Window(cells, RowCells(line), d)
  {
    TrimBoundaryWindow(StripAll(Split(line, "|")));
  }

  /** No cell holds a pipe or surrounding whitespace. */
  lemma RowCellsClean(line: string)
    ensures forall k :: 0 <= k < |RowCells(line)| ==>
      '|' !in RowCells(line)[k] && Strip(RowCells(line)[k]) == RowCells(line)[k]
  {
    SplitPiecesFree(line, "|");
    TrimmedClean(Split(line, "|"));
  }

  lemma TrimmedClean(pieces: seq<string>)
    requires forall k :: 0 <= k < |pieces| ==> !Contains(pieces[k], "|")
    ensures forall k :: 0 <= k < |TrimBoundary(StripAll(pieces))| ==>
      '|' !in TrimBoundary(StripAll(pieces))[k] && Strip(TrimBoundary(StripAll(pieces))[k]) == TrimBoundary(StripAll(pieces))[k]
  {
    var cells := StripAll(pieces);
    var r := TrimBoundary(cells);
    TrimBoundaryWindow(cells);
    var d: nat :| d <= 1 && Window(cells, r, d);
    forall k | 0 <= k < |r| ensures '|' !in r[k] && Strip(r[k]) == r[k] {
      assert r[k] == cells[d + k] == Strip(pieces[d + k]);
      CleanCell(pieces[d + k]);
    }
  }

  /** A stripped piece without the separator has no pipe and is stripped. */
  lemma CleanCell(p: string)
    requires !Contains(p, "|")
    ensures '|' !in Strip(p) && Strip(Strip(p)) == Strip(p)
  {
    StripIdempotent(p);
    if '|' in Strip(p) {
      StripFrom(p, '|');
      var m :| 0 <= m < |p| && p[m] == '|';
      assert OccursAt(p, "|", m);
      ContainsIff(p, "|");
    }
  }

  /** The length of the longest row, `max(len(r) for r in rows)`, or 0 without rows. */
  function Width(rows: seq<seq<string>>): (w: nat)
    ensures forall k :: 0 <= k < |rows| ==> |rows[k]| <= w
    ensures |rows| > 0 ==> exists k :: 0 <= k < |rows| && |rows[k]| == w
    ensures |rows| == 0 ==> w == 0
  {
    if |rows| == 0 then 0
    else
      var init := rows[..|rows| - 1];
      var w0 := Width(init);
      assert forall k :: 0 <= k < |init| ==> rows[k] == init[k];
      Max(w0, |rows[|rows| - 1]|)
  }

  /** `row[c] if c < len(row) else ""`. */
  function Cell(row: seq<string>, c: nat): string {
    if c < |row| then row[c] else ""
  }

  /** Every row padded with empty cells to the width of the longest. */
  function Padded(rows: seq<seq<string>>): (g: seq<seq<string>>)
    ensures |g| == |rows|
  {
    var w := Width(rows);
    seq(|rows|, r requires 0 <= r < |rows| => seq(w, c requires 0 <= c < w => Cell(rows[r], c)))
  }

  /** The padded grid is rectangular, keeps every cell in its place and adds only empty
      cells. */
  lemma PaddedSpec(rows: seq<seq<string>>)
    ensures forall r :: 0 <= r < |rows| ==> |Padded(rows)[r]| == Width(rows)
    ensures forall r, c :: 0 <= r < |rows| && 0 <= c < |rows[r]| ==> Padded(rows)[r][c] == rows[r][c]
    ensures forall r, c :: 0 <= r < |rows| && |rows[r]| <= c < Width(rows) ==> Padded(rows)[r][c] == ""
  {
  }

  /** The table the writer adds: `rows × cols` cells, each set to its row's entry or to the
      empty text. */
  method FillTable(rows: seq<seq<string>>) returns (table: array2<string>)
    ensures table.Length0 == |rows| && table.Length1 == Width(rows)
    ensures forall r, c :: 0 <= r < |rows| && 0 <= c < Width(rows) ==> table[r, c] == Cell(rows[r], c)
  {
    var cols := Width(rows);
    table := new string[|rows|, cols];
    var r := 0;
    while r < |rows|
      invariant 0 <= r <= |rows|
      invariant forall r', c :: 0 <= r' < r && 0 <= c < cols ==> table[r', c] == Cell(rows[r'], c)
    {
      var c := 0;
      while c < cols
        invariant 0 <= c <= cols
        invariant forall r', c' :: 0 <= r' < r && 0 <= c' < cols ==> table[r', c'] == Cell(rows[r'], c')
        invariant forall c' :: 0 <= c' < c ==> table[r, c'] == Cell(rows[r], c')
      {
        table[r, c] := if c < |rows[r]| then rows[r][c] else "";
        c := c + 1;
      }
      r := r + 1;
    }
  }

  /** The cells of a table, row by row. */
  function Grid(table: array2<string>): (g: seq<seq<string>>)
    reads table
    ensures |g| == table.Length0
    ensures forall r :: 0 <= r < |g| ==> |g[r]| == table.Length1
  {
    seq(table.Length0, r requires 0 <= r < table.Length0 reads table =>
      seq(table.Length1, c requires 0 <= c < table.Length1 reads table => table[r, c]))
  }

  /** The table block the writer adds for the rows of a table: it creates the document table
      and fills it, so the block holds the padded rows. */
  method EmitTable(rows: seq<seq<string>>) returns (b: Block)
    ensures b == TableBlock(Padded(rows))
  {
    var table := FillTable(rows);
    var g := Grid(table);
    var p := Padded(rows);
    forall r | 0 <= r < |rows| ensures g[r] == p[r] {
      assert |g[r]| == Width(rows) == |p[r]|;
      forall c | 0 <= c < Width(rows) ensures g[r][c] == p[r][c] {
        assert g[r][c] == table[r, c] == Cell(rows[r], c);
      }
    }
    assert g == p;
    b := TableBlock(g);
  }

  // ---------------------------------------------------------------------------------------
  // Line classes

  /** The number of '#' characters a line starts with. */
  function Hashes(s: string): (n: nat)
    ensures n <= |s|
  {
    if |s| > 0 && s[0] == '#' then 1 + Hashes(s[1..]) else 0
  }

  lemma {:induction false} HashesSpec(s: string)
    ensures forall i :: 0 <= i < Hashes(s) ==> s[i] == '#'
    ensures Hashes(s) == |s| || s[Hashes(s)] != '#'
  {
    if |s| > 0 && s[0] == '#' {
      HashesSpec(s[1..]);
      forall i | 0 < i < Hashes(s) ensures s[i] == '#' {
        assert s[i] == s[1..][i - 1];
      }
    }
  }

  datatype HeadingLine = HeadingLine(level: nat, text: string)

  /** `re.match(r"^(#{1,6})\s*(.+)$", line)` on a line without line breaks, giving the level
      `min(max(len(group(1)), 1), 6)` and the text `group(2).strip()`. The greedy `#{1,6}`
      takes up to six of the leading '#'; when nothing follows them it gives one back to
      `(.+)`, which needs a character. */
  function Heading(line: string): Option<HeadingLine> {
    var h := Hashes(line);
    var m := Min(h, 6);
    if h == 0 then None
    else if m < |line| then Some(HeadingLine(m, Strip(line[m..])))
    else if m >= 2 then Some(HeadingLine(m - 1, Strip(line[m - 1..])))
    else None
  }

  /** A line is a heading exactly when it starts with '#' and is not a lone "#"; the level
      is within 1..6; a line with one to six '#' followed by more text gets the number of
      '#' as its level, and a longer run of '#' gets level 6. A line made only of two to six
      '#' is read as one level less with the text "#". */
  lemma HeadingSpec(line: string)
    ensures Heading(line).Some? <==> Hashes(line) >= 1 && line != "#"
    ensures Heading(line).Some? ==> 1 <= Heading(line).value.level <= 6
    ensures 1 <= Hashes(line) <= 6 && Hashes(line) < |line| ==>
      Heading(line) == Some(HeadingLine(Hashes(line), Strip(line[Hashes(line)..])))
    ensures Hashes(line) > 6 ==> Heading(line) == Some(HeadingLine(6, Strip(line[6..])))
    ensures 2 <= |line| <= 6 && Hashes(line) == |line| ==> Heading(line) == Some(HeadingLine(|line| - 1, "#"))
  {
    HashesSpec(line);
    var h := Hashes(line);
    if 2 <= |line| <= 6 && h == |line| {
      assert line[|line| - 1..] == "#";
      assert !IsSpace('#');
    }
    if h == 1 && |line| == 1 {
      assert line == "#";
    }
  }

  /** `re.match(r"^(#{1,6})\s+", line)`: one to six '#' followed by whitespace. */
  predicate IsHeaderStart(line: string) {
    var h := Hashes(line);
    1 <= h <= 6 && h < |line| && IsSpace(line[h])
  }

  /** A header start is read as a heading of its own level. */
  lemma HeaderStartIsHeading(line: string)
    requires IsHeaderStart(line)
    ensures Heading(line).Some? && Heading(line).value.level == Hashes(line)
  {
    HeadingSpec(line);
  }

  predicate IsBulletChar(c: char) {
    c == '-' || c == '*' || c == '•' || c == '–'
  }

  /** `re.match(r"^\s*([-*•–])\s+.+", line)` on a line without line breaks: after the
      leading whitespace a bullet character, whitespace, and at least one more character. */
  predicate IsBullet(line: string) {
    var a := LeadingSpaces(line);
    a + 2 < |line| && IsBulletChar(line[a]) && IsSpace(line[a + 1])
  }

  /** `re.sub(r"^\s*([-*•–])\s+", "", line).strip()` on a bullet line. */
  function BulletText(line: string): string
    requires IsBullet(line)
  {
    Strip(line[LeadingSpaces(line) + 1..])
  }

  // ---------------------------------------------------------------------------------------
  // The embedded title

  /** The lower-cased prefix of the document-number line that follows an embedded title. */
  const NumberPrefix := "номер:"

  /** A "# " line whose stripped rest equals the document title, ignoring case. */
  predicate IsEmbeddedTitle(line: string, title: string) {
    StartsWith(line, "# ") && title != "" && Lower(Strip(line[2..])) == Lower(title)
  }

  /** The number of blank lines from `k` on, counting at most `cap`. */
  function BlankRun(lines: seq<string>, k: nat, cap: nat): (n: nat)
    requires k <= |lines|
    ensures n <= cap && k + n <= |lines|
    decreases cap
  {
    if cap == 0 || k == |lines| || !IsBlank(lines[k]) then 0 else 1 + BlankRun(lines, k + 1, cap - 1)
  }

  /** Where reading resumes after the embedded title at `i`: past up to two blank lines and
      then past a "Номер:" line, if one follows. */
  function TitleSkipEnd(lines: seq<string>, i: nat): nat
    requires i < |lines|
  {
    var k := i + 1 + BlankRun(lines, i + 1, 2);
    if k < |lines| && StartsWith(Lower(Strip(lines[k])), NumberPrefix) then k + 1 else k
  }

  /** The skip passes at least the title line and at most four lines; every line passed
      after the title is blank, except possibly the last, which is the number line. */
  lemma {:induction false} TitleSkipSpec(lines: seq<string>, i: nat)
    requires i < |lines|
    ensures i + 1 <= TitleSkipEnd(lines, i) <= i + 4 && TitleSkipEnd(lines, i) <= |lines|
    ensures forall k :: i + 1 <= k < TitleSkipEnd(lines, i) ==>
      IsBlank(lines[k]) || (k == TitleSkipEnd(lines, i) - 1 && StartsWith(Lower(Strip(lines[k])), NumberPrefix))
  {
    BlankRunSpec(lines, i + 1, 2);
  }

  lemma {:induction false} BlankRunSpec(lines: seq<string>, k: nat, cap: nat)
    requires k <= |lines|
    ensures forall j :: k <= j < k + BlankRun(lines, k, cap) ==> IsBlank(lines[j])
    decreases cap
  {
    if !(cap == 0 || k == |lines| || !IsBlank(lines[k])) {
      BlankRunSpec(lines, k + 1, cap - 1);
    }
  }

  /** The skip loop: past the title, past at most two blank lines, then past a number line. */
  method SkipEmbeddedTitle(lines: seq<string>, i: nat) returns (n: nat)
    requires i < |lines|
    ensures n == TitleSkipEnd(lines, i)
  {
    n := i + 1;
    var skipped := 0;
    while n < |lines| && skipped < 2 && IsBlank(lines[n])
      invariant i + 1 <= n <= |lines| && skipped <= 2 && n == i + 1 + skipped
      invariant BlankRun(lines, i + 1, 2) == skipped + BlankRun(lines, n, 2 - skipped)
      decreases 2 - skipped
    {
      n := n + 1;
      skipped := skipped + 1;
    }
    if n < |lines| && StartsWith(Lower(Strip(lines[n])), NumberPrefix) {
      n := n + 1;
    }
  }

  // ---------------------------------------------------------------------------------------
  // Blocks

  /** What the writer adds to the document: a heading, a table (its rows padded to the same
      width), a bullet item or a paragraph. */
  datatype Block =
    | HeadingBlock(text: string, level: nat)
    | TableBlock(grid: seq<seq<string>>)
    | BulletBlock(text: string)
    | ParagraphBlock(text: string)

  /** The end of the table block that starts at `j`: the first blank line, header start or
      bullet line. */
  function BlockEnd(lines: seq<string>, j: nat): (e: nat)
    requires j <= |lines|
    ensures j <= e <= |lines|
    decreases |lines| - j
  {
    if j < |lines| && !IsBlank(lines[j]) && !IsHeaderStart(lines[j]) && !IsBullet(lines[j])
    then BlockEnd(lines, j + 1)
    else j
  }

  /** A line that marks its block as a table: a separator, or one holding "---" or "━". */
  predicate MarksTable(line: string) {
    IsTableSeparator(line) || Contains(line, "---") || Contains(line, "━")
  }

  predicate SawSeparator(block: seq<string>) {
    exists k :: 0 <= k < |block| && MarksTable(block[k])
  }

  lemma SawSeparatorSnoc(block: seq<string>, line: string)
    ensures SawSeparator(block + [line]) <==> SawSeparator(block) || MarksTable(line)
  {
    var b := block + [line];
    if SawSeparator(block) {
      var k :| 0 <= k < |block| && MarksTable(block[k]);
      assert b[k] == block[k];
    }
    if MarksTable(line) {
      assert b[|block|] == line;
    }
    if SawSeparator(b) {
      var k :| 0 <= k < |b| && MarksTable(b[k]);
      if k < |block| {
        assert b[k] == block[k];
      }
    }
  }

  predicate HasPipe(block: seq<string>) {
    exists k :: 0 <= k < |block| && '|' in block[k]
  }

  /** The rows of a table block: rule rows (a separator, or a line the rule pattern
      matches) and lines without a pipe are skipped, and rows without cells are dropped. */
  function TableRows(block: seq<string>, rule: string -> bool): seq<seq<string>> {
    if |block| == 0 then []
    else
      var rows := TableRows(block[..|block| - 1], rule);
      var line := block[|block| - 1];
      if IsTableSeparator(line) || rule(line) || '|' !in line || RowCells(line) == [] then rows
      else rows + [RowCells(line)]
  }

  /** A line a table row may come from: one with a pipe that is not a rule row. */
  predicate IsRowLine(line: string, rule: string -> bool) {
    '|' in line && !IsTableSeparator(line) && !rule(line)
  }

  /** Every row comes from a non-rule line of the block that holds a pipe, and has at least
      one cell. */
  lemma {:induction false} TableRowsSpec(block: seq<string>, rule: string -> bool)
    ensures |TableRows(block, rule)| <= |block|
    ensures forall r :: 0 <= r < |TableRows(block, rule)| ==>
      TableRows(block, rule)[r] != []
      && (exists k :: 0 <= k < |block| && IsRowLine(block[k], rule) && TableRows(block, rule)[r] == RowCells(block[k]))
  {
    if |block| > 0 {
      var init := block[..|block| - 1];
      TableRowsSpec(init, rule);
      var rows := TableRows(init, rule);
      var all := TableRows(block, rule);
      var last := |block| - 1;
      forall r | 0 <= r < |all|
        ensures all[r] != [] && exists k :: 0 <= k < |block| && IsRowLine(block[k], rule) && all[r] == RowCells(block[k])
      {
        if r < |rows| {
          var k :| 0 <= k < |init| && IsRowLine(init[k], rule) && rows[r] == RowCells(init[k]);
          assert block[k] == init[k] && all[r] == rows[r];
        } else {
          assert all == rows + [RowCells(block[last])];
          assert IsRowLine(block[last], rule) && all[r] == RowCells(block[last]);
        }
      }
    }
  }

  /** The row loop over a table block. */
  method CollectTableRows(block: seq<string>, rule: string -> bool) returns (rows: seq<seq<string>>)
    ensures rows == TableRows(block, rule)
  {
    rows := [];
    var k := 0;
    while k < |block|
      invariant k <= |block|
      invariant rows == TableRows(block[..k], rule)
    {
      var line := block[k];
      assert block[..k + 1][..k] == block[..k];
      if !(IsTableSeparator(line) || rule(line)) && '|' in line {
        var cells := RowCells(line);
        if cells != [] {
          rows := rows + [cells];
        }
      }
      k := k + 1;
    }
    assert block[..k] == block;
  }

  /** The block collection loop: where the block ends and whether a line marked it as a
      table. */
  method ScanBlock(lines: seq<string>, i: nat) returns (j: nat, saw: bool)
    requires i <= |lines|
    ensures j == BlockEnd(lines, i)
    ensures saw == SawSeparator(lines[i..j])
  {
    j := i;
    saw := false;
    while j < |lines| && !IsBlank(lines[j]) && !IsHeaderStart(lines[j]) && !IsBullet(lines[j])
      invariant i <= j <= |lines|
      invariant BlockEnd(lines, j) == BlockEnd(lines, i)
      invariant saw == SawSeparator(lines[i..j])
      decreases |lines| - j
    {
      SawSeparatorSnoc(lines[i..j], lines[j]);
      assert lines[i..j + 1] == lines[i..j] + [lines[j]];
      if MarksTable(lines[j]) {
        saw := true;
      }
      j := j + 1;
    }
  }

  /** The end of the bullet run that starts at `k`. */
  function BulletEnd(lines: seq<string>, k: nat): (e: nat)
    requires k <= |lines|
    ensures k <= e <= |lines|
    decreases |lines| - k
  {
    if k < |lines| && IsBullet(lines[k]) then BulletEnd(lines, k + 1) else k
  }

  /** The bullet items of the run that starts at `k`. */
  function Bullets(lines: seq<string>, k: nat): (r: seq<Block>)
    requires k <= |lines|
    ensures |r| == BulletEnd(lines, k) - k
    ensures forall b :: b in r ==> b.BulletBlock?
    decreases |lines| - k
  {
    if k < |lines| && IsBullet(lines[k]) then [BulletBlock(BulletText(lines[k]))] + Bullets(lines, k + 1) else []
  }

  /** The bullet loop after the first item. */
  method CollectBullets(lines: seq<string>, k: nat) returns (items: seq<Block>, n: nat)
    requires k <= |lines|
    ensures items == Bullets(lines, k) && n == BulletEnd(lines, k)
  {
    items := [];
    n := k;
    while n < |lines| && IsBullet(lines[n])
      invariant k <= n <= |lines|
      invariant items + Bullets(lines, n) == Bullets(lines, k)
      invariant BulletEnd(lines, n) == BulletEnd(lines, k)
      decreases |lines| - n
    {
      items := items + [BulletBlock(BulletText(lines[n]))];
      n := n + 1;
    }
  }

  /** The end of the paragraph continued from `k`: the first blank line, header start, line
      with a pipe or bullet line. */
  function ParagraphEnd(lines: seq<string>, k: nat): (e: nat)
    requires k <= |lines|
    ensures k <= e <= |lines|
    decreases |lines| - k
  {
    if k < |lines| && !IsBlank(lines[k]) && !IsHeaderStart(lines[k]) && '|' !in lines[k] && !IsBullet(lines[k])
    then ParagraphEnd(lines, k + 1)
    else k
  }

  /** `[l.rstrip() for l in ls]`. */
  function RStripAll(ls: seq<string>): (r: seq<string>)
    ensures |r| == |ls|
  {
    seq(|ls|, k requires 0 <= k < |ls| => RStrip(ls[k]))
  }

  /** The paragraph loop: the paragraph's right-stripped lines from `i` joined by line
      breaks, and where it ends. */
  method CollectParagraph(lines: seq<string>, i: nat) returns (text: string, n: nat)
    requires i < |lines|
    ensures n == ParagraphEnd(lines, i + 1)
    ensures text == Join(RStripAll(lines[i..n]), "\n")
  {
    var paraLines := [RStrip(lines[i])];
    n := i + 1;
    while n < |lines| && !IsBlank(lines[n]) && !IsHeaderStart(lines[n]) && '|' !in lines[n] && !IsBullet(lines[n])
      invariant i < n <= |lines|
      invariant ParagraphEnd(lines, n) == ParagraphEnd(lines, i + 1)
      invariant paraLines == RStripAll(lines[i..n])
      decreases |lines| - n
    {
      paraLines := paraLines + [RStrip(lines[n])];
      n := n + 1;
    }
    text := Join(paraLines, "\n");
  }

  /** The table branch's outcome for a block: its padded table, or nothing when no row
      survives. */
  function TableOf(block: seq<string>, rule: string -> bool): seq<Block> {
    var rows := TableRows(block, rule);
    if rows == [] then [] else [TableBlock(Padded(rows))]
  }

  /** One pass of the writer's loop at line `i`: the blocks it adds and where it goes on. */
  function StepAt(lines: seq<string>, i: nat, title: string, rule: string -> bool): (r: (seq<Block>, nat))
    requires i < |lines|
    ensures i < r.1 <= |lines|
  {
    var line := RStrip(lines[i]);
    var h := Heading(line);
    var j := BlockEnd(lines, i);
    if IsBlank(line) then ([], i + 1)
    else if IsEmbeddedTitle(line, title) then ([], TitleSkipEnd(lines, i))
    else if h.Some? then ([HeadingBlock(h.value.text, h.value.level)], i + 1)
    else if '|' in line && SawSeparator(lines[i..j]) && HasPipe(lines[i..j]) then (TableOf(lines[i..j], rule), j)
    else if IsBullet(line) then ([BulletBlock(BulletText(line))] + Bullets(lines, i + 1), BulletEnd(lines, i + 1))
    else
      var e := ParagraphEnd(lines, i + 1);
      ([ParagraphBlock(Join(RStripAll(lines[i..e]), "\n"))], e)
  }

  /** The blocks the writer adds from line `i` on. */
  function BlocksFrom(lines: seq<string>, i: nat, title: string, rule: string -> bool): seq<Block>
    requires i <= |lines|
    decreases |lines| - i
  {
    if i == |lines| then []
    else
      var s := StepAt(lines, i, title, rule);
      s.0 + BlocksFrom(lines, s.1, title, rule)
  }

  lemma BlocksFromStep(lines: seq<string>, i: nat, title: string, rule: string -> bool)
    requires i < |lines|
    ensures var s := StepAt(lines, i, title, rule);
      BlocksFrom(lines, i, title, rule) == s.0 + BlocksFrom(lines, s.1, title, rule)
  {
  }

  /** The blocks `_write_markdown_to_docx(document, content, sop_title=title)` adds. */
  function MarkdownBlocks(content: string, title: string, rule: string -> bool): seq<Block> {
    BlocksFrom(SplitLines(content), 0, title, rule)
  }

  /** The writer for one document title, as a function of the content. */
  function Writer(title: string, rule: string -> bool): string -> seq<Block> {
    content => MarkdownBlocks(content, title, rule)
  }

  /** One pass of the writer's loop at line `i`. */
  method WriteStep(lines: seq<string>, i: nat, title: string, rule: string -> bool) returns (added: seq<Block>, next: nat)
    requires i < |lines|
    ensures added == StepAt(lines, i, title, rule).0
    ensures next == StepAt(lines, i, title, rule).1
    ensures i < next <= |lines|
    ensures BlocksFrom(lines, i, title, rule) == added + BlocksFrom(lines, next, title, rule)
  {
    BlocksFromStep(lines, i, title, rule);
    var line := RStrip(lines[i]);
    if IsBlank(line) {
      return [], i + 1;
    }
    if IsEmbeddedTitle(line, title) {
      next := SkipEmbeddedTitle(lines, i);
      return [], next;
    }
    var h := Heading(line);
    if h.Some? {
      return [HeadingBlock(h.value.text, h.value.level)], i + 1;
    }
    if '|' in line {
      var j, saw := ScanBlock(lines, i);
      if saw && HasPipe(lines[i..j]) {
        var rows := CollectTableRows(lines[i..j], rule);
        if rows == [] {
          return [], j;
        }
        var table := EmitTable(rows);
        return [table], j;
      }
    }
    if IsBullet(line) {
      var more, n := CollectBullets(lines, i + 1);
      return [BulletBlock(BulletText(line))] + more, n;
    }
    var text, n := CollectParagraph(lines, i);
    return [ParagraphBlock(text)], n;
  }

  /** `_write_markdown_to_docx(document, content, sop_title=title)`: the blocks it adds to
      the document, in order. */
  method WriteMarkdown(content: string, title: string, rule: string -> bool) returns (blocks: seq<Block>)
    ensures blocks == MarkdownBlocks(content, title, rule)
  {
    var lines := SplitLines(content);
    blocks := [];
    var i := 0;
    while i < |lines|
      invariant i <= |lines|
      invariant blocks + BlocksFrom(lines, i, title, rule) == BlocksFrom(lines, 0, title, rule)
      decreases |lines| - i
    {
      var added, next := WriteStep(lines, i, title, rule);
      blocks := blocks + added;
      i := next;
    }
  }

  // ---------------------------------------------------------------------------------------
  // What the writer promises

  /** A heading has a level within 1..6; a table has at least one row and one column, all
      rows as wide as the first, and no cell holding a pipe. */
  predicate WellFormedBlock(b: Block) {
    match b
    case HeadingBlock(_, level) => 1 <= level <= 6
    case TableBlock(grid) =>
      |grid| > 0 && |grid[0]| > 0
      && forall r :: 0 <= r < |grid| ==> |grid[r]| == |grid[0]| && forall c :: 0 <= c < |grid[r]| ==> '|' !in grid[r][c]
    case _ => true
  }

  /** The table a block yields, if any, is well formed. */
  lemma TableOfWellFormed(block: seq<string>, rule: string -> bool)
    ensures forall b :: b in TableOf(block, rule) ==> WellFormedBlock(b)
  {
    var rows := TableRows(block, rule);
    if rows != [] {
      TableRowsSpec(block, rule);
      PaddedSpec(rows);
      var g := Padded(rows);
      assert |rows[0]| > 0;
      forall r, c | 0 <= r < |g| && 0 <= c < |g[r]| ensures '|' !in g[r][c] {
        if c < |rows[r]| {
          var k :| 0 <= k < |block| && IsRowLine(block[k], rule) && rows[r] == RowCells(block[k]);
          RowCellsClean(block[k]);
        }
      }
      assert WellFormedBlock(TableBlock(g));
    }
  }

  /** Each pass adds at most one block per line it passes. */
  lemma StepSize(lines: seq<string>, i: nat, title: string, rule: string -> bool)
    requires i < |lines|
    ensures |StepAt(lines, i, title, rule).0| <= StepAt(lines, i, title, rule).1 - i
  {
  }

  /** Each pass adds only well-formed blocks. */
  lemma StepWellFormed(lines: seq<string>, i: nat, title: string, rule: string -> bool)
    requires i < |lines|
    ensures forall b :: b in StepAt(lines, i, title, rule).0 ==> WellFormedBlock(b)
  {
    var line := RStrip(lines[i]);
    var h := Heading(line);
    var j := BlockEnd(lines, i);
    if IsBlank(line) || IsEmbeddedTitle(line, title) {
    } else if h.Some? {
      HeadingSpec(line);
    } else if '|' in line && SawSeparator(lines[i..j]) && HasPipe(lines[i..j]) {
      var added := StepAt(lines, i, title, rule).0;
      assert added == TableOf(lines[i..j], rule);
      TableOfWellFormed(lines[i..j], rule);
      forall b | b in added ensures WellFormedBlock(b) {
        assert b in TableOf(lines[i..j], rule);
      }
    }
  }

  /** Every block the writer adds is well formed, and it adds at most one block per line. */
  lemma {:induction false} BlocksSpec(lines: seq<string>, i: nat, title: string, rule: string -> bool)
    requires i <= |lines|
    ensures |BlocksFrom(lines, i, title, rule)| <= |lines| - i
    ensures forall b :: b in BlocksFrom(lines, i, title, rule) ==> WellFormedBlock(b)
    decreases |lines| - i
  {
    if i < |lines| {
      var s := StepAt(lines, i, title, rule);
      StepSize(lines, i, title, rule);
      StepWellFormed(lines, i, title, rule);
      BlocksSpec(lines, s.1, title, rule);
    }
  }

  /** An embedded copy of the document title adds nothing: reading goes on after it, its
      blank lines and its number line. */
  lemma EmbeddedTitleSkipped(lines: seq<string>, i: nat, title: string, rule: string -> bool)
    requires i < |lines| && IsEmbeddedTitle(RStrip(lines[i]), title)
    ensures BlocksFrom(lines, i, title, rule) == BlocksFrom(lines, TitleSkipEnd(lines, i), title, rule)
  {
    var line := RStrip(lines[i]);
    assert line[0] == '#' && !IsSpace('#');
  }
}
