/** The aligned text table of the notifier's replies. */
module Table {
  import opened Wrappers

  /** Which characters take two columns (East Asian Wide and Fullwidth). */
  type Wideness = char -> bool

  const RULE := '\U{2500}'

  /** The classes Unicode Standard Annex 11 gives the two characters the table itself adds:
      the space is narrow, the horizontal rule ambiguous. */
  predicate FillersAreNarrow(wide: Wideness) {
    !wide(' ') && !wide(RULE)
  }

  /** `_display_width` */
  function DisplayWidth(text: string, wide: Wideness): nat {
    if text == "" then 0 else (if wide(text[0]) then 2 else 1) + DisplayWidth(text[1..], wide)
  }

  function Repeat(c: char, n: nat): (r: string)
    ensures |r| == n && forall i :: 0 <= i < n ==> r[i] == c
  {
    seq(n, _ => c)
  }

  /** `_pad` */
  function Pad(text: string, width: nat, wide: Wideness): string {
    var w := DisplayWidth(text, wide);
    text + Repeat(' ', if w < width then width - w else 0)
  }

  function Max(a: nat, b: nat): nat {
    if a < b then b else a
  }

  /** The width the header and the cells of the given rows ask for in column i. */
  function ColumnWidth(headers: seq<string>, rows: seq<seq<string>>, wide: Wideness, i: nat): nat
    requires i < |headers|
  {
    if rows == [] then DisplayWidth(headers[i], wide)
    else
      var above, row := ColumnWidth(headers, rows[..|rows| - 1], wide, i), rows[|rows| - 1];
      if i < |row| then Max(above, DisplayWidth(row[i], wide)) else above
  }

  function Widths(headers: seq<string>, rows: seq<seq<string>>, wide: Wideness): (r: seq<nat>)
    ensures |r| == |headers|
  {
    seq(|headers|, i requires 0 <= i < |headers| => ColumnWidth(headers, rows, wide, i))
  }

  /** The first loop of `_markdown_table`. */
  method MeasureColumns(headers: seq<string>, rows: seq<seq<string>>, wide: Wideness) returns (widths: seq<nat>)
    ensures widths == Widths(headers, rows, wide)
  {
    widths := seq(|headers|, i requires 0 <= i < |headers| => DisplayWidth(headers[i], wide));
    for k := 0 to |rows|
      invariant widths == Widths(headers, rows[..k], wide)
    {
      assert rows[..k + 1][..k] == rows[..k];
      for i := 0 to |rows[k]|
        invariant |widths| == |headers|
        invariant forall j :: 0 <= j < |headers| ==>
                    widths[j] == ColumnWidth(headers, if j < i then rows[..k + 1] else rows[..k], wide, j)
      {
        if i < |widths| {
          widths := widths[i := Max(widths[i], DisplayWidth(rows[k][i], wide))];
        }
      }
    }
    assert rows[..|rows|] == rows;
  }

  /** One line: the padded cells two spaces apart.  A cell beyond the last column is an error. */
  function Line(cells: seq<string>, widths: seq<nat>, wide: Wideness): string
    requires |cells| <= |widths|
  {
    if cells == [] then ""
    else
      var k := |cells| - 1;
      (if k == 0 then "" else Line(cells[..k], widths, wide) + "  ") + Pad(cells[k], widths[k], wide)
  }

  method Row(cells: seq<string>, widths: seq<nat>, wide: Wideness) returns (line: Option<string>)
    ensures line == if |cells| <= |widths| then Some(Line(cells, widths, wide)) else None
  {
    var text := "";
    for i := 0 to |cells|
      invariant i <= |widths| && text == Line(cells[..i], widths, wide)
    {
      assert cells[..i + 1][..i] == cells[..i];
      if |widths| <= i {
        return None;
      }
      if i > 0 {
        text := text + "  ";
      }
      text := text + Pad(cells[i], widths[i], wide);
    }
    assert cells[..|cells|] == cells;
    return Some(text);
  }

  predicate RowIs(line: string, cells: seq<string>, widths: seq<nat>, wide: Wideness) {
    |cells| <= |widths| && line == Line(cells, widths, wide)
  }

  /** The last loop of `_markdown_table`. */
  method Rows(rows: seq<seq<string>>, widths: seq<nat>, wide: Wideness) returns (lines: Option<seq<string>>)
    ensures lines.Some? <==> forall k :: 0 <= k < |rows| ==> |rows[k]| <= |widths|
    ensures lines.Some? ==> |lines.value| == |rows| && forall k :: 0 <= k < |rows| ==> RowIs(lines.value[k], rows[k], widths, wide)
  {
    var built := [];
    for k := 0 to |rows|
      invariant |built| == k
      invariant forall j :: 0 <= j < k ==> |rows[j]| <= |widths| && RowIs(built[j], rows[j], widths, wide)
    {
      var line := Row(rows[k], widths, wide);
      if line.None? {
        return None;
      }
      built := built + [line.value];
    }
    return Some(built);
  }

  function Rules(widths: seq<nat>): (r: seq<string>)
    ensures |r| == |widths|
    ensures forall i :: 0 <= i < |r| ==> |r[i]| == widths[i] && forall j :: 0 <= j < |r[i]| ==> r[i][j] == '\U{2500}'
  {
    seq(|widths|, i requires 0 <= i < |widths| => Repeat(RULE, widths[i]))
  }

  predicate Fit(headers: seq<string>, rows: seq<seq<string>>) {
    forall k :: 0 <= k < |rows| ==> |rows[k]| <= |headers|
  }

  /** The cells of line n: the headers, the rules, then the rows. */
  function CellsOfLine(headers: seq<string>, rows: seq<seq<string>>, wide: Wideness, n: nat): seq<string>
    requires n < |rows| + 2
  {
    if n == 0 then headers else if n == 1 then Rules(Widths(headers, rows, wide)) else rows[n - 2]
  }

  /** The text is line n of the table: its cells padded to the table's column widths. */
  predicate IsLine(text: string, headers: seq<string>, rows: seq<seq<string>>, wide: Wideness, n: nat)
    requires n < |rows| + 2
  {
    |CellsOfLine(headers, rows, wide, n)| <= |headers|
    && text == Line(CellsOfLine(headers, rows, wide, n), Widths(headers, rows, wide), wide)
  }

  lemma Assembled(header: string, rule: string, rest: seq<string>, headers: seq<string>, rows: seq<seq<string>>, wide: Wideness)
    requires |rest| == |rows|
    requires IsLine(header, headers, rows, wide, 0) && IsLine(rule, headers, rows, wide, 1)
    requires forall k :: 0 <= k < |rows| ==> RowIs(rest[k], rows[k], Widths(headers, rows, wide), wide)
    ensures forall n :: 0 <= n < |rows| + 2 ==> IsLine(([header, rule] + rest)[n], headers, rows, wide, n)
  {
    forall n | 0 <= n < |rows| + 2 ensures IsLine(([header, rule] + rest)[n], headers, rows, wide, n) {
      if n >= 2 {
        assert RowIs(rest[n - 2], rows[n - 2], Widths(headers, rows, wide), wide);
      }
    }
  }

  /** `_markdown_table`, as the lines it joins with newlines; too long a row is an error. */
  method MarkdownTable(headers: seq<string>, rows: seq<seq<string>>, wide: Wideness) returns (lines: Option<seq<string>>)
    ensures lines.Some? <==> Fit(headers, rows)
    ensures lines.Some? ==> |lines.value| == |rows| + 2
    ensures lines.Some? ==> forall n :: 0 <= n < |rows| + 2 ==> IsLine(lines.value[n], headers, rows, wide, n)
    ensures lines.Some? ==> lines.value[0] == Line(headers, Widths(headers, rows, wide), wide)
    ensures lines.Some? ==> lines.value[1] == Line(Rules(Widths(headers, rows, wide)), Widths(headers, rows, wide), wide)
    ensures lines.Some? ==> forall k :: 0 <= k < |rows| ==>
              RowIs(lines.value[k + 2], rows[k], Widths(headers, rows, wide), wide)
  {
    var widths := MeasureColumns(headers, rows, wide);
    var header := Row(headers, widths, wide);
    var rule := Row(Rules(widths), widths, wide);
    var rest := Rows(rows, widths, wide);
    if rest.None? {
      return None;
    }
    lines := Some([header.value, rule.value] + rest.value);
    Assembled(header.value, rule.value, rest.value, headers, rows, wide);
  }

  // ─── alignment ───────────────────────────────────────────────────────────

  /** Display column at which table column j starts. */
  function Offset(widths: seq<nat>, j: nat): nat
    requires j <= |widths|
  {
    if j == 0 then 0 else Offset(widths, j - 1) + widths[j - 1] + 2
  }

  /** Display width of a line of k fitting cells. */
  function LineWidth(widths: seq<nat>, k: nat): nat
    requires k <= |widths|
  {
    if k == 0 then 0 else Offset(widths, k - 1) + widths[k - 1]
  }

  /** The display width shared by the lines of a table. */
  function TableWidth(widths: seq<nat>): nat {
    LineWidth(widths, |widths|)
  }

  lemma {:induction false} WidthOfConcat(s: string, t: string, wide: Wideness)
    ensures DisplayWidth(s + t, wide) == DisplayWidth(s, wide) + DisplayWidth(t, wide)
  {
    if s == "" {
      assert s + t == t;
    } else {
      assert (s + t)[1..] == s[1..] + t;
      WidthOfConcat(s[1..], t, wide);
    }
  }

  /** Where the two-column characters are. */
  function WidePositions(text: string, wide: Wideness): set<nat> {
    set i: nat | i < |text| && wide(text[i])
  }

  /** The width of a text is its length, wide characters counted twice. */
  lemma {:induction false} WidthCounts(text: string, wide: Wideness)
    ensures DisplayWidth(text, wide) == |text| + |WidePositions(text, wide)|
  {
    if text == "" {
      assert WidePositions(text, wide) == {};
    } else {
      var n := |text| - 1;
      var front, last := text[..n], [text[n]];
      assert text == front + last && last[1..] == "";
      WidthCounts(front, wide);
      WidthOfConcat(front, last, wide);
      assert DisplayWidth(last, wide) == if wide(text[n]) then 2 else 1;
      assert WidePositions(text, wide) == WidePositions(front, wide) + if wide(text[n]) then {n} else {};
    }
  }

  lemma {:induction false} WidthOfRepeat(c: char, n: nat, wide: Wideness)
    requires !wide(c)
    ensures DisplayWidth(Repeat(c, n), wide) == n
  {
    if n > 0 {
      assert Repeat(c, n)[1..] == Repeat(c, n - 1);
      WidthOfRepeat(c, n - 1, wide);
    }
  }

  /** Padding reaches the column's width exactly, or leaves a wider text alone. */
  lemma WidthOfPad(text: string, width: nat, wide: Wideness)
    requires !wide(' ')
    ensures DisplayWidth(Pad(text, width, wide), wide) == Max(width, DisplayWidth(text, wide))
    ensures text <= Pad(text, width, wide)
  {
    var w := DisplayWidth(text, wide);
    var fill := if w < width then width - w else 0;
    WidthOfConcat(text, Repeat(' ', fill), wide);
    WidthOfRepeat(' ', fill, wide);
  }

  predicate CellsFit(cells: seq<string>, widths: seq<nat>, wide: Wideness) {
    |cells| <= |widths| && forall j :: 0 <= j < |cells| ==> DisplayWidth(cells[j], wide) <= widths[j]
  }

  lemma WidthWithGap(left: string, wide: Wideness)
    requires !wide(' ')
    ensures DisplayWidth(left + "  ", wide) == DisplayWidth(left, wide) + 2
  {
    WidthOfConcat(left, "  ", wide);
    assert "  " == Repeat(' ', 2);
    WidthOfRepeat(' ', 2, wide);
  }

  lemma {:induction false} WidthOfLine(cells: seq<string>, widths: seq<nat>, wide: Wideness)
    requires FillersAreNarrow(wide) && CellsFit(cells, widths, wide) && cells != []
    ensures DisplayWidth(Line(cells, widths, wide), wide) == LineWidth(widths, |cells|)
  {
    var k := |cells| - 1;
    WidthOfPad(cells[k], widths[k], wide);
    if k > 0 {
      WidthOfLine(cells[..k], widths, wide);
      var left := Line(cells[..k], widths, wide);
      WidthWithGap(left, wide);
      WidthOfConcat(left + "  ", Pad(cells[k], widths[k], wide), wide);
    } else {
      WidthOfConcat("", Pad(cells[k], widths[k], wide), wide);
      assert Line(cells, widths, wide) == Pad(cells[k], widths[k], wide);
    }
  }

  /** Cell j of a line is preceded by exactly Offset(j) display columns. */
  ghost predicate StartsAt(line: string, cell: string, offset: nat, wide: Wideness) {
    exists i :: 0 <= i <= |line| && DisplayWidth(line[..i], wide) == offset && cell <= line[i..]
  }

  lemma StartsInLonger(left: string, right: string, line: string, cell: string, i: nat)
    requires line == left + right && i <= |left| && cell <= left[i..]
    ensures line[..i] == left[..i] && cell <= line[i..]
  {
    assert line[i..] == left[i..] + right;
  }

  lemma StartsAfter(prefix: string, cell: string, padded: string, wide: Wideness)
    requires cell <= padded
    ensures StartsAt(prefix + padded, cell, DisplayWidth(prefix, wide), wide)
  {
    var line := prefix + padded;
    assert line[..|prefix|] == prefix && line[|prefix|..] == padded;
  }

  /** What stands before the last of several cells. */
  function Prefix(cells: seq<string>, widths: seq<nat>, wide: Wideness): string
    requires 0 < |cells| <= |widths|
  {
    if |cells| == 1 then "" else Line(cells[..|cells| - 1], widths, wide) + "  "
  }

  lemma OffsetIsPastGap(widths: seq<nat>, k: nat)
    requires 0 < k <= |widths|
    ensures Offset(widths, k) == LineWidth(widths, k) + 2
  { }

  lemma PrefixWidth(cells: seq<string>, widths: seq<nat>, wide: Wideness)
    requires FillersAreNarrow(wide) && CellsFit(cells, widths, wide) && cells != []
    ensures DisplayWidth(Prefix(cells, widths, wide), wide) == Offset(widths, |cells| - 1)
  {
    var k := |cells| - 1;
    if k > 0 {
      assert CellsFit(cells[..k], widths, wide);
      WidthOfLine(cells[..k], widths, wide);
      WidthWithGap(Line(cells[..k], widths, wide), wide);
      OffsetIsPastGap(widths, k);
    }
  }

  lemma LastCellStarts(cells: seq<string>, widths: seq<nat>, wide: Wideness)
    requires FillersAreNarrow(wide) && CellsFit(cells, widths, wide) && cells != []
    ensures StartsAt(Line(cells, widths, wide), cells[|cells| - 1], Offset(widths, |cells| - 1), wide)
  {
    var k := |cells| - 1;
    var padded := Pad(cells[k], widths[k], wide);
    WidthOfPad(cells[k], widths[k], wide);
    PrefixWidth(cells, widths, wide);
    StartsAfter(Prefix(cells, widths, wide), cells[k], padded, wide);
    assert Line(cells, widths, wide) == Prefix(cells, widths, wide) + padded;
  }

  lemma {:induction false} CellStarts(cells: seq<string>, widths: seq<nat>, wide: Wideness, j: nat)
    requires FillersAreNarrow(wide) && CellsFit(cells, widths, wide) && j < |cells|
    ensures StartsAt(Line(cells, widths, wide), cells[j], Offset(widths, j), wide)
  {
    var k := |cells| - 1;
    if j == k {
      LastCellStarts(cells, widths, wide);
    } else {
      var left, padded := Line(cells[..k], widths, wide), Pad(cells[k], widths[k], wide);
      CellStarts(cells[..k], widths, wide, j);
      var i :| 0 <= i <= |left| && DisplayWidth(left[..i], wide) == Offset(widths, j) && cells[j] <= left[i..];
      assert (left + "  ") + padded == left + ("  " + padded);
      StartsInLonger(left, "  " + padded, Line(cells, widths, wide), cells[j], i);
    }
  }

  /** A column is at least as wide as each of its cells. */
  lemma {:induction false} ColumnHoldsCell(headers: seq<string>, rows: seq<seq<string>>, wide: Wideness, k: nat, j: nat)
    requires k < |rows| && j < |rows[k]| && j < |headers|
    ensures DisplayWidth(rows[k][j], wide) <= ColumnWidth(headers, rows, wide, j)
  {
    if k < |rows| - 1 {
      ColumnHoldsCell(headers, rows[..|rows| - 1], wide, k, j);
    }
  }

  lemma {:induction false} ColumnHoldsHeader(headers: seq<string>, rows: seq<seq<string>>, wide: Wideness, j: nat)
    requires j < |headers|
    ensures DisplayWidth(headers[j], wide) <= ColumnWidth(headers, rows, wide, j)
  {
    if rows != [] {
      ColumnHoldsHeader(headers, rows[..|rows| - 1], wide, j);
    }
  }

  /** The header of column j, or one of its cells, is exactly w wide. */
  ghost predicate Attained(headers: seq<string>, rows: seq<seq<string>>, wide: Wideness, j: nat, w: nat)
    requires j < |headers|
  {
    w == DisplayWidth(headers[j], wide)
    || exists k :: 0 <= k < |rows| && j < |rows[k]| && w == DisplayWidth(rows[k][j], wide)
  }

  /** A column is no wider than it needs to be. */
  lemma {:induction false} ColumnIsAttained(headers: seq<string>, rows: seq<seq<string>>, wide: Wideness, j: nat)
    requires j < |headers|
    ensures Attained(headers, rows, wide, j, ColumnWidth(headers, rows, wide, j))
  {
    if rows != [] {
      var above := rows[..|rows| - 1];
      ColumnIsAttained(headers, above, wide, j);
      var w := ColumnWidth(headers, above, wide, j);
      if w != DisplayWidth(headers[j], wide) {
        var k :| 0 <= k < |above| && j < |above[k]| && w == DisplayWidth(above[k][j], wide);
        assert rows[k] == above[k];
      }
    }
  }

  /** Each column is exactly as wide as the widest of its header and cells. */
  lemma ColumnIsWidest(headers: seq<string>, rows: seq<seq<string>>, wide: Wideness, j: nat)
    requires j < |headers|
    ensures var w := Widths(headers, rows, wide)[j];
            Attained(headers, rows, wide, j, w)
            && DisplayWidth(headers[j], wide) <= w
            && forall k :: 0 <= k < |rows| && j < |rows[k]| ==> DisplayWidth(rows[k][j], wide) <= w
  {
    ColumnIsAttained(headers, rows, wide, j);
    ColumnHoldsHeader(headers, rows, wide, j);
    forall k | 0 <= k < |rows| && j < |rows[k]|
      ensures DisplayWidth(rows[k][j], wide) <= ColumnWidth(headers, rows, wide, j)
    {
      ColumnHoldsCell(headers, rows, wide, k, j);
    }
  }

  lemma EveryLineFits(headers: seq<string>, rows: seq<seq<string>>, wide: Wideness, n: nat)
    requires FillersAreNarrow(wide) && Fit(headers, rows) && n < |rows| + 2
    ensures CellsFit(CellsOfLine(headers, rows, wide, n), Widths(headers, rows, wide), wide)
  {
    var cells, widths := CellsOfLine(headers, rows, wide, n), Widths(headers, rows, wide);
    forall j | 0 <= j < |cells| ensures DisplayWidth(cells[j], wide) <= widths[j] {
      ColumnIsWidest(headers, rows, wide, j);
      if n == 1 {
        WidthOfRepeat(RULE, widths[j], wide);
      }
    }
  }

  /** Every cell starts at its column's offset. */
  ghost predicate CellsStart(cells: seq<string>, widths: seq<nat>, wide: Wideness)
    requires |cells| <= |widths|
  {
    forall j :: 0 <= j < |cells| ==> StartsAt(Line(cells, widths, wide), cells[j], Offset(widths, j), wide)
  }

  lemma CellsStartAtOffsets(cells: seq<string>, widths: seq<nat>, wide: Wideness)
    requires FillersAreNarrow(wide) && CellsFit(cells, widths, wide)
    ensures CellsStart(cells, widths, wide)
  {
    forall j | 0 <= j < |cells| ensures StartsAt(Line(cells, widths, wide), cells[j], Offset(widths, j), wide) {
      CellStarts(cells, widths, wide, j);
    }
  }

  lemma {:induction false} OffsetsGrow(widths: seq<nat>, i: nat, j: nat)
    requires i <= j <= |widths|
    ensures Offset(widths, i) + 2 * (j - i) <= Offset(widths, j)
  {
    if i < j {
      OffsetsGrow(widths, i, j - 1);
    }
  }

  lemma NarrowerUnlessFull(widths: seq<nat>, k: nat)
    requires k <= |widths|
    ensures LineWidth(widths, k) == TableWidth(widths) <==> k == |widths| || (k == 0 && widths == [0])
  {
    if k < |widths| {
      OffsetsGrow(widths, k, |widths| - 1);
      assert k > 0 ==> Offset(widths, k) == Offset(widths, k - 1) + widths[k - 1] + 2;
    }
  }

  lemma FullWidthIff(cells: seq<string>, widths: seq<nat>, wide: Wideness)
    requires FillersAreNarrow(wide) && CellsFit(cells, widths, wide)
    ensures DisplayWidth(Line(cells, widths, wide), wide) == TableWidth(widths)
       <==> |cells| == |widths| || (cells == [] && widths == [0])
  {
    if cells != [] {
      WidthOfLine(cells, widths, wide);
    }
    NarrowerUnlessFull(widths, |cells|);
  }

  /** Alignment, for every table without too long a row: each cell of each line starts at its
      column's offset, and a line is as wide as the table exactly when it has a cell for every
      column (or the table is a single column of nothing and the row is empty). */
  lemma Aligned(headers: seq<string>, rows: seq<seq<string>>, wide: Wideness, n: nat)
    requires FillersAreNarrow(wide) && Fit(headers, rows) && n < |rows| + 2
    ensures var cells, widths := CellsOfLine(headers, rows, wide, n), Widths(headers, rows, wide);
            |cells| <= |widths| && CellsStart(cells, widths, wide)
            && (DisplayWidth(Line(cells, widths, wide), wide) == TableWidth(widths)
                <==> |cells| == |headers| || (cells == [] && widths == [0]))
  {
    var cells, widths := CellsOfLine(headers, rows, wide, n), Widths(headers, rows, wide);
    EveryLineFits(headers, rows, wide, n);
    CellsStartAtOffsets(cells, widths, wide);
    FullWidthIff(cells, widths, wide);
  }
}
