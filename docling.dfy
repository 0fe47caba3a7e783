/** `pipeline/scripts/2_docling_to_json.py`: turn Docling's layout JSON into
    the first bill JSON, one section per provision header. The file's own
    `slugify` is the one of `shared.py`, character for character, so
    `Shared.Slugify` stands for both. */
module DoclingToJson {
  import opened Wrappers
  import opened Text
  import opened Shared
  import opened Bill

  // Docling's item labels.
  const SECTION_HEADER := "section_header"
  const LIST_ITEM := "list_item"
  const TABLE := "table"
  const PAGE_HEADER := "page_header"
  const PAGE_FOOTER := "page_footer"

  /** The output of `infer_document_structure` that the grouping reads. */
  datatype Structure = Structure(indentationLevels: seq<real>, baseMargin: real,
                                 headerYThreshold: real, centeredThreshold: real)

  /** An entry of `texts`, or a table turned into one: its `text`, `label` (here `tag`),
      `page_no` and the `l` and `t` of its bounding box, with the defaults
      `''` and `0` of the script's `.get` calls for missing keys. */
  datatype Item = Item(text: string, tag: string, page: int, left: real, top: real)

  // ------------------------------------------------------------ format_as_markdown

  /** `abs(a - b) < 5`: the five-point tolerance on margins. */
  predicate Within(a: real, b: real) {
    -5.0 < a - b < 5.0
  }

  /** The index of the first of `levels` within tolerance of `left`, or
      `|levels|` when none is. */
  function FirstWithin(left: real, levels: seq<real>): (r: nat)
    ensures r <= |levels|
    ensures r < |levels| ==> Within(left, levels[r])
    ensures forall j :: 0 <= j < r ==> !Within(left, levels[j])
  {
    if levels == [] then 0
    else if Within(left, levels[0]) then 0
    else
      var r := FirstWithin(left, levels[1..]);
      assert forall j :: 1 <= j < 1 + r ==> levels[j] == levels[1..][j - 1];
      1 + r
  }

  /** `indent_level`: the index of the first level within tolerance of the
      margin, 0 when no level is, so 0 also when the first level matches. */
  function IndentOf(left: real, levels: seq<real>): (r: nat)
    ensures r == 0 || r < |levels|
    ensures forall j :: 0 <= j < r ==> !Within(left, levels[j])
    ensures r > 0 ==> Within(left, levels[r])
    ensures r == 0 && |levels| > 0 && !Within(left, levels[0]) ==>
      forall j :: 0 <= j < |levels| ==> !Within(left, levels[j])
  {
    if FirstWithin(left, levels) < |levels| then FirstWithin(left, levels) else 0
  }

  /** The `for i, level_margin in enumerate(indentation_levels)` loop with
      its `break`. */
  method IndentLevel(left: real, levels: seq<real>) returns (level: nat)
    ensures level == IndentOf(left, levels)
  {
    level := 0;
    var i := 0;
    while i < |levels|
      invariant 0 <= i <= |levels|
      invariant level == 0
      invariant forall j :: 0 <= j < i ==> !Within(left, levels[j])
    {
      if Within(left, levels[i]) {
        level := i;
        break;
      }
      i := i + 1;
    }
  }

  /** `' ' * n`. */
  function Spaces(n: nat): (r: string)
    ensures |r| == n && forall i :: 0 <= i < n ==> r[i] == ' '
  {
    if n == 0 then "" else " " + Spaces(n - 1)
  }

  /** What `format_as_markdown` returns; `structure` is `None` when the
      script is given no (or an empty) structure. */
  function Markdown(text: string, tag: string, left: real, structure: Option<Structure>): string {
    if text == "" then ""
    else if tag == SECTION_HEADER then "## " + text
    else if tag == LIST_ITEM then
      if structure.Some? then Spaces(2 * IndentOf(left, structure.value.indentationLevels)) + "- " + text
      else "- " + text
    else text
  }

  /** `format_as_markdown`. */
  method FormatAsMarkdown(text: string, tag: string, left: real, structure: Option<Structure>)
    returns (r: string)
    ensures r == Markdown(text, tag, left, structure)
  {
    if text == "" {
      return "";
    }
    if tag == SECTION_HEADER {
      r := "## " + text;
    } else if tag == LIST_ITEM {
      if structure.Some? {
        var level := IndentLevel(left, structure.value.indentationLevels);
        r := Spaces(2 * level) + "- " + text;
      } else {
        r := "- " + text;
      }
    } else {
      r := text;
    }
  }

  /** The markdown is empty exactly when the text is, and always ends with
      the text: a header gains `## `, a list item two spaces per level of
      indentation and `- `, any other item nothing. */
  lemma MarkdownShape(text: string, tag: string, left: real, structure: Option<Structure>)
    ensures Markdown(text, tag, left, structure) == "" <==> text == ""
    ensures |text| <= |Markdown(text, tag, left, structure)|
    ensures Markdown(text, tag, left, structure)[|Markdown(text, tag, left, structure)| - |text|..] == text
    ensures text != "" && tag == SECTION_HEADER ==>
      Markdown(text, tag, left, structure)[..|Markdown(text, tag, left, structure)| - |text|] == "## "
    ensures text != "" && tag == LIST_ITEM ==>
      var prefix := Markdown(text, tag, left, structure)[..|Markdown(text, tag, left, structure)| - |text|];
      && |prefix| >= 2 && prefix[|prefix| - 2..] == "- "
      && AllSpace(prefix[..|prefix| - 2])
      && |prefix| - 2 == if structure.Some? then 2 * IndentOf(left, structure.value.indentationLevels) else 0
    ensures tag != SECTION_HEADER && tag != LIST_ITEM ==> Markdown(text, tag, left, structure) == text
  {
    var m := Markdown(text, tag, left, structure);
    if text != "" && tag == LIST_ITEM {
      var n := if structure.Some? then 2 * IndentOf(left, structure.value.indentationLevels) else 0;
      var sp := Spaces(n);
      assert structure.None? ==> m == sp + "- " + text;
      assert m == sp + "- " + text;
      assert m[..|m| - |text|] == sp + "- ";
      assert (sp + "- ")[..|sp|] == sp;
    }
  }

  // ------------------------------------------------------------ table_to_markdown

  /** An entry of `table_cells`: its start and end row and column offsets
      and its `text` (`''` when absent). */
  datatype TableCell = TableCell(startRow: int, endRow: int, startCol: int, endCol: int, text: string)

  /** What `table_to_markdown` returns when the conversion raises. */
  const TABLE_FAILED := "[Table extraction failed]"

  /** `max(cell['end_row_offset_idx'] for cell in table_cells)`. */
  function MaxEndRow(cells: seq<TableCell>): (r: int)
    requires cells != []
    ensures forall k :: 0 <= k < |cells| ==> cells[k].endRow <= r
    ensures exists k :: 0 <= k < |cells| && cells[k].endRow == r
  {
    if |cells| == 1 then cells[0].endRow
    else
      var m := MaxEndRow(cells[1..]);
      assert forall k :: 1 <= k < |cells| ==> cells[k] == cells[1..][k - 1];
      var w :| 0 <= w < |cells[1..]| && cells[1..][w].endRow == m;
      assert cells[w + 1].endRow == m;
      if cells[0].endRow > m then cells[0].endRow else m
  }

  /** `max(cell['end_col_offset_idx'] for cell in table_cells)`. */
  function MaxEndCol(cells: seq<TableCell>): (r: int)
    requires cells != []
    ensures forall k :: 0 <= k < |cells| ==> cells[k].endCol <= r
    ensures exists k :: 0 <= k < |cells| && cells[k].endCol == r
  {
    if |cells| == 1 then cells[0].endCol
    else
      var m := MaxEndCol(cells[1..]);
      assert forall k :: 1 <= k < |cells| ==> cells[k] == cells[1..][k - 1];
      var w :| 0 <= w < |cells[1..]| && cells[1..][w].endCol == m;
      assert cells[w + 1].endCol == m;
      if cells[0].endCol > m then cells[0].endCol else m
  }

  /** The length of `[... for _ in range(n)]`. */
  function Extent(n: int): nat {
    if n > 0 then n else 0
  }

  /** The fill loop writes the cell: it starts before `max_row` and `max_col`. */
  predicate Targets(c: TableCell, maxRow: int, maxCol: int) {
    c.startRow < maxRow && c.startCol < maxCol
  }

  /** `grid[row][col]` exists: Python counts a negative index from the end,
      down to minus the length. */
  predicate Fits(c: TableCell, maxRow: int, maxCol: int) {
    -(Extent(maxRow) as int) <= c.startRow && -(Extent(maxCol) as int) <= c.startCol
  }

  /** Writing the cell raises `IndexError`. */
  predicate Raises(c: TableCell, maxRow: int, maxCol: int) {
    Targets(c, maxRow, maxCol) && !Fits(c, maxRow, maxCol)
  }

  /** The position Python's index `x` names in a list of length `n`. */
  function Wrap(x: int, n: int): int {
    if x < 0 then x + n else x
  }

  /** The cell is written to the grid entry `(i, j)`. */
  predicate Places(c: TableCell, maxRow: int, maxCol: int, i: int, j: int) {
    && Targets(c, maxRow, maxCol) && Fits(c, maxRow, maxCol)
    && Wrap(c.startRow, Extent(maxRow)) == i && Wrap(c.startCol, Extent(maxCol)) == j
  }

  /** `grid[i][j]` once `cells` are written: the stripped text of the last
      cell written there, `''` when none is. */
  function CellText(cells: seq<TableCell>, maxRow: int, maxCol: int, i: int, j: int): string {
    if cells == [] then ""
    else if Places(cells[|cells| - 1], maxRow, maxCol, i, j) then Strip(cells[|cells| - 1].text)
    else CellText(cells[..|cells| - 1], maxRow, maxCol, i, j)
  }

  /** The grid after the fill loop. */
  function Grid(cells: seq<TableCell>, maxRow: int, maxCol: int): (g: seq<seq<string>>)
    ensures |g| == Extent(maxRow)
    ensures forall i :: 0 <= i < |g| ==> |g[i]| == Extent(maxCol)
  {
    seq(Extent(maxRow), i => seq(Extent(maxCol), j => CellText(cells, maxRow, maxCol, i, j)))
  }

  /** `'| ' + ' | '.join(row) + ' |'`. */
  function RowLine(row: seq<string>): string {
    "| " + Join(" | ", row) + " |"
  }

  /** `['---'] * n`. */
  function Rule(n: nat): seq<string> {
    seq(n, _ => "---")
  }

  /** The header line, the separator, then a line per further row. */
  function TableLines(grid: seq<seq<string>>): seq<string>
    requires |grid| >= 1
  {
    [RowLine(grid[0]), RowLine(Rule(|grid[0]|))]
    + seq(|grid| - 1, i requires 0 <= i < |grid| - 1 => RowLine(grid[i + 1]))
  }

  /** Some cell raises `IndexError` while the grid is filled. */
  predicate AnyRaises(cells: seq<TableCell>)
    requires cells != []
  {
    exists k :: 0 <= k < |cells| && Raises(cells[k], MaxEndRow(cells), MaxEndCol(cells))
  }

  /** What `table_to_markdown` returns for the cell list `cells`. */
  function TableMarkdown(cells: seq<TableCell>): string {
    if cells == [] then ""
    else if AnyRaises(cells) then TABLE_FAILED
    else if Extent(MaxEndRow(cells)) == 0 then ""
    else Join("\n", TableLines(Grid(cells, MaxEndRow(cells), MaxEndCol(cells))))
  }

  /** `table_to_markdown`: the grid is an array filled in place. */
  method TableToMarkdown(cells: seq<TableCell>) returns (md: string)
    ensures md == TableMarkdown(cells)
  {
    if cells == [] {
      return "";
    }
    var maxRow, maxCol := MaxEndRow(cells), MaxEndCol(cells);
    var grid := new string[Extent(maxRow), Extent(maxCol)]((i, j) => "");
    var raised := FillGrid(cells, maxRow, maxCol, grid);
    if raised {
      return TABLE_FAILED;
    }
    if grid.Length0 == 0 {
      return "";
    }
    var lines := RenderLines(grid, Grid(cells, maxRow, maxCol));
    md := Join("\n", lines);
  }

  /** One more cell of the fill loop: it overwrites the entry it places. */
  lemma CellTextNext(cells: seq<TableCell>, maxRow: int, maxCol: int, k: nat, i: int, j: int)
    requires k < |cells|
    ensures CellText(cells[..k + 1], maxRow, maxCol, i, j)
         == if Places(cells[k], maxRow, maxCol, i, j) then Strip(cells[k].text)
            else CellText(cells[..k], maxRow, maxCol, i, j)
  {
    assert cells[..k + 1][..k] == cells[..k];
  }

  /** A cell that is written lands on exactly one entry. */
  lemma PlacedText(cells: seq<TableCell>, maxRow: int, maxCol: int, k: nat, i: int, j: int)
    requires k < |cells| && Targets(cells[k], maxRow, maxCol) && Fits(cells[k], maxRow, maxCol)
    requires i == Wrap(cells[k].startRow, Extent(maxRow)) && j == Wrap(cells[k].startCol, Extent(maxCol))
    ensures CellText(cells[..k + 1], maxRow, maxCol, i, j) == Strip(cells[k].text)
    ensures forall i', j' :: i' != i || j' != j ==>
      CellText(cells[..k + 1], maxRow, maxCol, i', j') == CellText(cells[..k], maxRow, maxCol, i', j')
  {
    CellTextNext(cells, maxRow, maxCol, k, i, j);
    forall i', j' | i' != i || j' != j
      ensures CellText(cells[..k + 1], maxRow, maxCol, i', j') == CellText(cells[..k], maxRow, maxCol, i', j')
    {
      CellTextNext(cells, maxRow, maxCol, k, i', j');
    }
  }

  /** A cell that is not written changes no entry. */
  lemma UnplacedText(cells: seq<TableCell>, maxRow: int, maxCol: int, k: nat)
    requires k < |cells| && !Targets(cells[k], maxRow, maxCol)
    ensures forall i', j' :: CellText(cells[..k + 1], maxRow, maxCol, i', j') == CellText(cells[..k], maxRow, maxCol, i', j')
  {
    forall i', j' ensures CellText(cells[..k + 1], maxRow, maxCol, i', j') == CellText(cells[..k], maxRow, maxCol, i', j') {
      CellTextNext(cells, maxRow, maxCol, k, i', j');
    }
  }

  /** The loop writing each cell's stripped text into the grid; it stops
      with `raised` at the first cell it cannot write. */
  method FillGrid(cells: seq<TableCell>, maxRow: int, maxCol: int, grid: array2<string>) returns (raised: bool)
    requires grid.Length0 == Extent(maxRow) && grid.Length1 == Extent(maxCol)
    requires forall i, j :: 0 <= i < grid.Length0 && 0 <= j < grid.Length1 ==> grid[i, j] == ""
    modifies grid
    ensures raised <==> exists k :: 0 <= k < |cells| && Raises(cells[k], maxRow, maxCol)
    ensures !raised ==> forall i, j :: 0 <= i < grid.Length0 && 0 <= j < grid.Length1 ==>
      grid[i, j] == CellText(cells, maxRow, maxCol, i, j)
  {
    var k := 0;
    while k < |cells|
      invariant 0 <= k <= |cells|
      invariant forall m :: 0 <= m < k ==> !Raises(cells[m], maxRow, maxCol)
      invariant forall i, j :: 0 <= i < grid.Length0 && 0 <= j < grid.Length1 ==>
        grid[i, j] == CellText(cells[..k], maxRow, maxCol, i, j)
    {
      var failed := PlaceCell(cells, k, maxRow, maxCol, grid);
      if failed {
        return true;
      }
      k := k + 1;
    }
    assert cells[..k] == cells;
    return false;
  }

  /** One iteration of the fill loop, on cell `k`: it raises exactly when the
      cell is written outside the grid, and otherwise leaves the grid as the
      first `k + 1` cells make it. */
  method PlaceCell(cells: seq<TableCell>, k: nat, maxRow: int, maxCol: int, grid: array2<string>)
    returns (raised: bool)
    requires k < |cells|
    requires grid.Length0 == Extent(maxRow) && grid.Length1 == Extent(maxCol)
    requires forall i, j :: 0 <= i < grid.Length0 && 0 <= j < grid.Length1 ==>
      grid[i, j] == CellText(cells[..k], maxRow, maxCol, i, j)
    modifies grid
    ensures raised <==> Raises(cells[k], maxRow, maxCol)
    ensures !raised ==> forall i, j :: 0 <= i < grid.Length0 && 0 <= j < grid.Length1 ==>
      grid[i, j] == CellText(cells[..k + 1], maxRow, maxCol, i, j)
  {
    var rows, cols := grid.Length0, grid.Length1;
    var c := cells[k];
    if c.startRow < maxRow && c.startCol < maxCol {
      if c.startRow < -(rows as int) || c.startCol < -(cols as int) {
        return true;
      }
      var i := if c.startRow < 0 then c.startRow + rows else c.startRow;
      var j := if c.startCol < 0 then c.startCol + cols else c.startCol;
      PlacedText(cells, maxRow, maxCol, k, i, j);
      grid[i, j] := Strip(c.text);
    } else {
      UnplacedText(cells, maxRow, maxCol, k);
    }
    return false;
  }

  /** The lines of the markdown table for the filled grid `grid`, whose rows
      are `g`. */
  method RenderLines(grid: array2<string>, ghost g: seq<seq<string>>) returns (lines: seq<string>)
    requires grid.Length0 >= 1 && |g| == grid.Length0
    requires forall i :: 0 <= i < |g| ==> |g[i]| == grid.Length1
    requires forall i, j :: 0 <= i < grid.Length0 && 0 <= j < grid.Length1 ==> grid[i, j] == g[i][j]
    ensures lines == TableLines(g)
  {
    var header := GridRow(grid, 0);
    assert header == g[0];
    lines := [RowLine(header), RowLine(Rule(grid.Length1))];
    var r := 1;
    while r < grid.Length0
      invariant 1 <= r <= grid.Length0
      invariant |lines| == r + 1
      invariant lines[0] == RowLine(g[0]) && lines[1] == RowLine(Rule(|g[0]|))
      invariant forall n :: 2 <= n < r + 1 ==> lines[n] == RowLine(g[n - 1])
    {
      var row := GridRow(grid, r);
      assert row == g[r];
      lines := lines + [RowLine(row)];
      r := r + 1;
    }
    assert lines == TableLines(g);
  }

  /** `grid[i]` as a list. */
  method GridRow(grid: array2<string>, i: nat) returns (row: seq<string>)
    requires i < grid.Length0
    ensures |row| == grid.Length1
    ensures forall j :: 0 <= j < grid.Length1 ==> row[j] == grid[i, j]
  {
    row := [];
    var j := 0;
    while j < grid.Length1
      invariant 0 <= j <= grid.Length1
      invariant |row| == j
      invariant forall n :: 0 <= n < j ==> row[n] == grid[i, n]
    {
      row := row + [grid[i, j]];
      j := j + 1;
    }
  }

  /** A grid entry no cell is written to stays `''`. */
  lemma {:induction false} CellTextUnwritten(cells: seq<TableCell>, maxRow: int, maxCol: int, i: int, j: int)
    requires forall k :: 0 <= k < |cells| ==> !Places(cells[k], maxRow, maxCol, i, j)
    ensures CellText(cells, maxRow, maxCol, i, j) == ""
  {
    if cells != [] {
      var init := cells[..|cells| - 1];
      assert forall k :: 0 <= k < |init| ==> init[k] == cells[k];
      CellTextUnwritten(init, maxRow, maxCol, i, j);
    }
  }

  /** A grid entry holds the stripped text of the last cell written to it. */
  lemma {:induction false} CellTextLastWritten(cells: seq<TableCell>, maxRow: int, maxCol: int, i: int, j: int, k: nat)
    requires k < |cells| && Places(cells[k], maxRow, maxCol, i, j)
    requires forall m :: k < m < |cells| ==> !Places(cells[m], maxRow, maxCol, i, j)
    ensures CellText(cells, maxRow, maxCol, i, j) == Strip(cells[k].text)
  {
    if k < |cells| - 1 {
      var init := cells[..|cells| - 1];
      assert init[k] == cells[k];
      assert forall m :: k < m < |init| ==> init[m] == cells[m];
      CellTextLastWritten(init, maxRow, maxCol, i, j, k);
    }
  }

  /** A table that converts has one line more than its grid has rows: the
      header, a separator with a `---` per column, then the further rows,
      each line opening with `| ` and closing with ` |`. */
  lemma TableShape(grid: seq<seq<string>>)
    requires |grid| >= 1
    ensures |TableLines(grid)| == |grid| + 1
    ensures TableLines(grid)[0] == RowLine(grid[0])
    ensures TableLines(grid)[1] == RowLine(Rule(|grid[0]|)) && |Rule(|grid[0]|)| == |grid[0]|
    ensures forall i :: 1 <= i < |grid| ==> TableLines(grid)[i + 1] == RowLine(grid[i])
    ensures forall n :: 0 <= n < |TableLines(grid)| ==>
      && |TableLines(grid)[n]| >= 4
      && TableLines(grid)[n][..2] == "| "
      && TableLines(grid)[n][|TableLines(grid)[n]| - 2..] == " |"
  {
    var lines := TableLines(grid);
    assert |lines| == |grid| + 1;
    forall i | 1 <= i < |grid| ensures lines[i + 1] == RowLine(grid[i]) {
    }
    forall n | 0 <= n < |TableLines(grid)|
      ensures |TableLines(grid)[n]| >= 4
      ensures TableLines(grid)[n][..2] == "| "
      ensures TableLines(grid)[n][|TableLines(grid)[n]| - 2..] == " |"
    {
      TableLineFrame(grid, n);
    }
  }

  lemma TableLineFrame(grid: seq<seq<string>>, n: nat)
    requires |grid| >= 1 && n < |grid| + 1
    ensures |TableLines(grid)| == |grid| + 1
    ensures |TableLines(grid)[n]| >= 4
    ensures TableLines(grid)[n][..2] == "| "
    ensures TableLines(grid)[n][|TableLines(grid)[n]| - 2..] == " |"
  {
    var row := if n == 0 then grid[0] else if n == 1 then Rule(|grid[0]|) else grid[n - 1];
    assert TableLines(grid)[n] == RowLine(row);
    RowLineFrame(row);
  }

  lemma RowLineFrame(row: seq<string>)
    ensures |RowLine(row)| >= 4
    ensures RowLine(row)[..2] == "| " && RowLine(row)[|RowLine(row)| - 2..] == " |"
  {
    var mid := Join(" | ", row);
    assert RowLine(row) == "| " + mid + " |";
    assert ("| " + mid + " |")[..2] == "| ";
  }

  /** `table_items`: a `table` item for each table whose markdown is not
      empty, with the table's page and position. */
  datatype DocTable = DocTable(page: int, left: real, top: real, cells: seq<TableCell>)

  function TableItemsOf(tables: seq<DocTable>): seq<Item> {
    if tables == [] then []
    else
      var t := tables[|tables| - 1];
      TableItemsOf(tables[..|tables| - 1])
      + (if TableMarkdown(t.cells) != "" then [Item(TableMarkdown(t.cells), TABLE, t.page, t.left, t.top)] else [])
  }

  /** The loop over `tables` in `extract_provisions`. */
  method TableItems(tables: seq<DocTable>) returns (items: seq<Item>)
    ensures items == TableItemsOf(tables)
  {
    items := [];
    var k := 0;
    while k < |tables|
      invariant 0 <= k <= |tables|
      invariant items == TableItemsOf(tables[..k])
    {
      var t := tables[k];
      assert tables[..k + 1][..k] == tables[..k];
      var md := TableToMarkdown(t.cells);
      if md != "" {
        items := items + [Item(md, TABLE, t.page, t.left, t.top)];
      }
      k := k + 1;
    }
    assert tables[..k] == tables;
  }

  // ------------------------------------------------------------ extract_provisions

  /** A provision as `extract_provisions` collects it. */
  datatype RawProvision = RawProvision(title: string, content: seq<string>)

  /** `re.match(r'^(\d+[\.\s]|\(\d+\))', text)`: digits then a dot or
      whitespace, or digits in parentheses. */
  predicate Numbered(text: string) {
    || (0 < DigitRun(text) < |text| && (text[DigitRun(text)] == '.' || IsSpace(text[DigitRun(text)])))
    || (|text| > 0 && text[0] == '(' && 0 < DigitRun(text[1..]) && 1 + DigitRun(text[1..]) < |text|
        && text[1 + DigitRun(text[1..])] == ')')
  }

  /** `text.startswith("'") or text.startswith('"')`. */
  predicate Quoted(text: string) {
    |text| > 0 && (text[0] == '\'' || text[0] == '"')
  }

  /** `re.match(r'^\([a-z]\)', text)`. */
  predicate Lettered(text: string) {
    |text| >= 3 && text[0] == '(' && IsLowerLetter(text[1]) && text[2] == ')'
  }

  /** `leftmost_margins`: the first three indentation levels. */
  function Leftmost(levels: seq<real>): seq<real> {
    if |levels| >= 3 then levels[..3] else levels
  }

  /** `any(abs(left_margin - margin) < 5 for margin in margins)`. */
  predicate AnyWithin(left: real, margins: seq<real>) {
    exists i :: 0 <= i < |margins| && Within(left, margins[i])
  }

  /** The loop skips the item: a contents page, a page header or footer, no
      text, or the bill-title banner (right of centre and above the header
      line). */
  predicate Skipped(it: Item, st: Structure) {
    || it.page <= 2 || it.tag == PAGE_HEADER || it.tag == PAGE_FOOTER || Strip(it.text) == ""
    || (it.left > st.centeredThreshold && it.top > st.headerYThreshold)
  }

  /** `is_provision_header`: a left-aligned section header that is not a
      numbered clause, a quotation or a lettered list item. */
  predicate IsBoundary(it: Item, st: Structure) {
    && !Skipped(it, st) && it.tag == SECTION_HEADER
    && AnyWithin(it.left, Leftmost(st.indentationLevels))
    && !Numbered(Strip(it.text)) && !Quoted(Strip(it.text)) && !Lettered(Strip(it.text))
  }

  /** The markdown of a content item. */
  function Formatted(it: Item, st: Structure): string {
    Markdown(Strip(it.text), it.tag, it.left, Some(st))
  }

  /** What the loop makes of one item: nothing, a new provision with a
      title, or content in markdown. */
  datatype Role = Skip | Header(title: string) | Body(md: string)

  function RoleOf(it: Item, st: Structure): Role {
    if Skipped(it, st) then Skip
    else if IsBoundary(it, st) then Header(Strip(it.text))
    else Body(Formatted(it, st))
  }

  /** The role of each item, in order. */
  function Roles(items: seq<Item>, st: Structure): (r: seq<Role>)
    ensures |r| == |items|
  {
    if items == [] then [] else Roles(items[..|items| - 1], st) + [RoleOf(items[|items| - 1], st)]
  }

  /** `provisions` and `current_provision` while the loop runs. */
  datatype Grouping = Grouping(done: seq<RawProvision>, current: Option<RawProvision>)

  /** The provisions so far, the open one included. */
  function Closed(g: Grouping): seq<RawProvision> {
    g.done + (if g.current.Some? then [g.current.value] else [])
  }

  /** One pass of the loop: a header closes the open provision and opens its
      own; content joins the open provision, if there is one, unless empty. */
  function Step(g: Grouping, r: Role): Grouping {
    match r
    case Skip => g
    case Header(title) => Grouping(Closed(g), Some(RawProvision(title, [])))
    case Body(md) =>
      if g.current.Some? && md != "" then
        Grouping(g.done, Some(g.current.value.(content := g.current.value.content + [md])))
      else g
  }

  /** The loop over the roles `rs` started from `g`. */
  function Fold(g: Grouping, rs: seq<Role>): Grouping {
    if rs == [] then g else Step(Fold(g, rs[..|rs| - 1]), rs[|rs| - 1])
  }

  /** What `extract_provisions` returns for the sorted items `items`. */
  function Extracted(items: seq<Item>, st: Structure): seq<RawProvision> {
    Closed(Fold(Grouping([], None), Roles(items, st)))
  }

  /** The titles of the headers among `rs`, in order. */
  function HeaderTitles(rs: seq<Role>): seq<string> {
    if rs == [] then []
    else HeaderTitles(rs[..|rs| - 1]) + (if rs[|rs| - 1].Header? then [rs[|rs| - 1].title] else [])
  }

  /** The non-empty content among `rs`, in order. */
  function BodyContent(rs: seq<Role>): seq<string> {
    if rs == [] then []
    else BodyContent(rs[..|rs| - 1]) + (if rs[|rs| - 1].Body? && rs[|rs| - 1].md != "" then [rs[|rs| - 1].md] else [])
  }

  predicate NoHeader(rs: seq<Role>) {
    forall k :: 0 <= k < |rs| ==> !rs[k].Header?
  }

  function Titles(ps: seq<RawProvision>): (r: seq<string>)
    ensures |r| == |ps| && forall j :: 0 <= j < |ps| ==> r[j] == ps[j].title
  {
    if ps == [] then [] else Titles(ps[..|ps| - 1]) + [ps[|ps| - 1].title]
  }

  lemma {:induction false} RolesAppend(a: seq<Item>, b: seq<Item>, st: Structure)
    ensures Roles(a + b, st) == Roles(a, st) + Roles(b, st)
    decreases |b|
  {
    if b == [] {
      assert a + b == a;
    } else {
      assert (a + b)[..|a + b| - 1] == a + b[..|b| - 1];
      RolesAppend(a, b[..|b| - 1], st);
    }
  }

  lemma {:induction false} RolesAt(items: seq<Item>, st: Structure, k: nat)
    requires k < |items|
    ensures Roles(items, st)[k] == RoleOf(items[k], st)
  {
    if k < |items| - 1 {
      RolesAt(items[..|items| - 1], st, k);
    }
  }

  /** Only boundary headers become headers. */
  lemma RolesHeaders(items: seq<Item>, st: Structure)
    ensures NoHeader(Roles(items, st)) <==> forall k :: 0 <= k < |items| ==> !IsBoundary(items[k], st)
  {
    forall k | 0 <= k < |items| ensures Roles(items, st)[k].Header? <==> IsBoundary(items[k], st) {
      RolesAt(items, st, k);
    }
  }

  lemma {:induction false} FoldAppend(g: Grouping, a: seq<Role>, b: seq<Role>)
    ensures Fold(g, a + b) == Fold(Fold(g, a), b)
    decreases |b|
  {
    if b == [] {
      assert a + b == a;
    } else {
      assert (a + b)[..|a + b| - 1] == a + b[..|b| - 1];
      FoldAppend(g, a, b[..|b| - 1]);
    }
  }

  lemma RolesSnoc(items: seq<Item>, it: Item, st: Structure)
    ensures Roles(items + [it], st) == Roles(items, st) + [RoleOf(it, st)]
  {
    assert (items + [it])[..|items|] == items;
  }

  lemma FoldSnoc(g: Grouping, rs: seq<Role>, r: Role)
    ensures Fold(g, rs + [r]) == Step(Fold(g, rs), r)
  {
    assert (rs + [r])[..|rs|] == rs;
  }

  lemma TitlesSnoc(ps: seq<RawProvision>, p: RawProvision)
    ensures Titles(ps + [p]) == Titles(ps) + [p.title]
  {
    assert (ps + [p])[..|ps|] == ps;
  }

  /** Each header opens one provision titled by it, and nothing else opens
      one. */
  lemma {:induction false} FoldTitles(g: Grouping, rs: seq<Role>)
    ensures Titles(Closed(Fold(g, rs))) == Titles(Closed(g)) + HeaderTitles(rs)
  {
    if rs != [] {
      var init := rs[..|rs| - 1];
      var r := rs[|rs| - 1];
      FoldTitles(g, init);
      var h := Fold(g, init);
      if r.Header? {
        TitlesSnoc(Closed(h), RawProvision(r.title, []));
      } else if r.Body? && h.current.Some? && r.md != "" {
        var c := h.current.value;
        TitlesSnoc(h.done, c);
        TitlesSnoc(h.done, c.(content := c.content + [r.md]));
      }
    }
  }

  /** Between two headers the open provision collects the content. */
  lemma {:induction false} FoldContent(g: Grouping, rs: seq<Role>)
    requires g.current.Some? && NoHeader(rs)
    ensures Fold(g, rs) == Grouping(g.done, Some(g.current.value.(content := g.current.value.content + BodyContent(rs))))
  {
    if rs == [] {
      assert g.current.value.content + [] == g.current.value.content;
    } else {
      var init := rs[..|rs| - 1];
      assert forall k :: 0 <= k < |init| ==> init[k] == rs[k];
      FoldContent(g, init);
      var r := rs[|rs| - 1];
      if r.Body? && r.md != "" {
        var c := g.current.value.content;
        assert c + BodyContent(init) + [r.md] == c + BodyContent(rs);
      } else {
        assert BodyContent(rs) == BodyContent(init) + [];
        assert BodyContent(init) + [] == BodyContent(init);
      }
    }
  }

  /** Before the first header nothing is collected. */
  lemma {:induction false} FoldDropped(g: Grouping, rs: seq<Role>)
    requires g.current.None? && NoHeader(rs)
    ensures Fold(g, rs) == g
  {
    if rs != [] {
      var init := rs[..|rs| - 1];
      assert forall k :: 0 <= k < |init| ==> init[k] == rs[k];
      FoldDropped(g, init);
    }
  }

  /** The provisions are titled by the boundary headers, one each, in order. */
  lemma ExtractedTitles(items: seq<Item>, st: Structure)
    ensures Titles(Extracted(items, st)) == HeaderTitles(Roles(items, st))
  {
    FoldTitles(Grouping([], None), Roles(items, st));
    assert Titles(Closed(Grouping([], None))) == [];
  }

  /** The header titles are the stripped texts of the boundary items. */
  lemma HeaderTitlesOfItems(items: seq<Item>, st: Structure, k: nat)
    requires k < |items| && IsBoundary(items[k], st)
    ensures Strip(items[k].text) in HeaderTitles(Roles(items, st))
  {
    RolesAt(items, st, k);
    BoundaryRole(items[k], st);
    HeaderTitlesHas(Roles(items, st), k);
  }

  /** The title of every header role is among the header titles. */
  lemma {:induction false} HeaderTitlesHas(rs: seq<Role>, k: nat)
    requires k < |rs| && rs[k].Header?
    ensures rs[k].title in HeaderTitles(rs)
  {
    var init := rs[..|rs| - 1];
    if k < |init| {
      assert init[k] == rs[k];
      HeaderTitlesHas(init, k);
    }
  }

  lemma BoundaryRole(it: Item, st: Structure)
    requires IsBoundary(it, st)
    ensures RoleOf(it, st) == Header(Strip(it.text))
  {
  }

  /** Content before the first boundary header is dropped. */
  lemma PreambleDropped(a: seq<Item>, b: seq<Item>, st: Structure)
    requires forall k :: 0 <= k < |a| ==> !IsBoundary(a[k], st)
    ensures Extracted(a + b, st) == Extracted(b, st)
  {
    RolesAppend(a, b, st);
    RolesHeaders(a, st);
    FoldAppend(Grouping([], None), Roles(a, st), Roles(b, st));
    FoldDropped(Grouping([], None), Roles(a, st));
  }

  /** A boundary header followed by no other boundary closes the provisions
      before it and adds one titled by it, holding the formatted non-empty
      content of the items after it. */
  lemma LastProvision(a: seq<Item>, h: Item, b: seq<Item>, st: Structure)
    requires IsBoundary(h, st)
    requires forall k :: 0 <= k < |b| ==> !IsBoundary(b[k], st)
    ensures Extracted(a + [h] + b, st) == Extracted(a, st) + [RawProvision(Strip(h.text), BodyContent(Roles(b, st)))]
  {
    RolesAppend(a + [h], b, st);
    RolesAppend(a, [h], st);
    assert Roles([h], st) == [RoleOf(h, st)];
    RolesHeaders(b, st);
    LastHeader(Roles(a, st), Strip(h.text), Roles(b, st));
  }

  /** `LastProvision` on the roles. */
  lemma LastHeader(ra: seq<Role>, title: string, rb: seq<Role>)
    requires NoHeader(rb)
    ensures Closed(Fold(Grouping([], None), ra + [Header(title)] + rb))
         == Closed(Fold(Grouping([], None), ra)) + [RawProvision(title, BodyContent(rb))]
  {
    var g0 := Grouping([], None);
    FoldAppend(g0, ra + [Header(title)], rb);
    FoldSnoc(g0, ra, Header(title));
    var g := Fold(g0, ra + [Header(title)]);
    assert g == Grouping(Closed(Fold(g0, ra)), Some(RawProvision(title, [])));
    FoldContent(g, rb);
    assert [] + BodyContent(rb) == BodyContent(rb);
  }

  /** The content a provision collects is the formatted text of its items:
      never empty, and a header's content after it is marked `## `. */
  lemma BodyIsFormatted(items: seq<Item>, st: Structure, k: nat)
    requires k < |items| && !Skipped(items[k], st) && !IsBoundary(items[k], st)
    ensures Roles(items, st)[k] == Body(Formatted(items[k], st))
    ensures Formatted(items[k], st) != ""
  {
    RolesAt(items, st, k);
    MarkdownShape(Strip(items[k].text), items[k].tag, items[k].left, Some(st));
  }

  /** The tests of one iteration of the `extract_provisions` loop: the two
      `continue`s, `is_provision_header`, and the formatting of content. */
  method ItemRole(item: Item, st: Structure) returns (role: Role)
    ensures role == RoleOf(item, st)
  {
    var text := Strip(item.text);
    var tag := item.tag;
    if item.page <= 2 || tag == PAGE_HEADER || tag == PAGE_FOOTER || text == "" {
      assert Skipped(item, st);
      return Skip;
    }
    if item.left > st.centeredThreshold && item.top > st.headerYThreshold {
      assert Skipped(item, st);
      return Skip;
    }
    assert !Skipped(item, st);
    var header := tag == SECTION_HEADER && AnyWithin(item.left, Leftmost(st.indentationLevels))
      && !Numbered(text) && !Quoted(text) && !Lettered(text);
    assert header == IsBoundary(item, st);
    if header {
      return Header(text);
    }
    var formatted := FormatAsMarkdown(text, tag, item.left, Some(st));
    return Body(formatted);
  }

  /** One iteration of the `extract_provisions` loop, on `item`: a header
      closes the open provision and opens a new one, a body line joins the
      open provision, and anything else is skipped. */
  method TakeItem(item: Item, st: Structure, provisions: seq<RawProvision>, current: Option<RawProvision>)
    returns (provisions': seq<RawProvision>, current': Option<RawProvision>)
    ensures Grouping(provisions', current') == Step(Grouping(provisions, current), RoleOf(item, st))
  {
    provisions', current' := provisions, current;
    var role := ItemRole(item, st);
    match role
    case Skip =>
    case Header(title) =>
      if current'.Some? {
        provisions' := provisions' + [current'.value];
      }
      current' := Some(RawProvision(title, []));
    case Body(formatted) =>
      if current'.Some? && formatted != "" {
        current' := Some(current'.value.(content := current'.value.content + [formatted]));
      }
  }

  /** The loop of `extract_provisions` over the sorted items, then the push
      of the last provision. */
  method GroupProvisions(items: seq<Item>, st: Structure) returns (provisions: seq<RawProvision>)
    ensures provisions == Extracted(items, st)
  {
    provisions := [];
    var current: Option<RawProvision> := None;
    var i := 0;
    while i < |items|
      invariant 0 <= i <= |items|
      invariant Fold(Grouping([], None), Roles(items[..i], st)) == Grouping(provisions, current)
    {
      var item := items[i];
      RolesSnoc(items[..i], item, st);
      assert items[..i] + [item] == items[..i + 1];
      FoldSnoc(Grouping([], None), Roles(items[..i], st), RoleOf(item, st));
      provisions, current := TakeItem(item, st, provisions, current);
      i := i + 1;
    }
    assert items[..i] == items;
    if current.Some? {
      provisions := provisions + [current.value];
    }
  }

  /** `extract_provisions`: the tables become items, and `order` is the sort
      by page, height and margin, which the script computes from the
      bounding boxes. */
  method ExtractProvisions(texts: seq<Item>, tables: seq<DocTable>, st: Structure, order: seq<Item> -> seq<Item>)
    returns (provisions: seq<RawProvision>)
    ensures provisions == Extracted(order(texts + TableItemsOf(tables)), st)
  {
    var tableItems := TableItems(tables);
    var sorted := order(texts + tableItems);
    provisions := GroupProvisions(sorted, st);
  }

  /** A table item is content, kept as its markdown. */
  lemma {:induction false} TableItemsAreContent(tables: seq<DocTable>, st: Structure)
    ensures forall k :: 0 <= k < |TableItemsOf(tables)| ==>
      && TableItemsOf(tables)[k].tag == TABLE
      && !IsBoundary(TableItemsOf(tables)[k], st)
      && TableItemsOf(tables)[k].text != ""
  {
    if tables != [] {
      TableItemsAreContent(tables[..|tables| - 1], st);
    }
  }

  // ------------------------------------------------------------ create_bill_json

  /** The section written for the provision `p`, numbered `i` from 1: only
      the four fields the later stages start from. */
  function NewSection(i: nat, p: RawProvision): Section {
    Section(Slugify(p.title), i, p.title, Strip(Join("\n\n", p.content)), None, None, None, false)
  }

  /** `mk(1, ps[0])`, `mk(2, ps[1])`, ...: the provisions numbered from 1. */
  function Numbering(ps: seq<RawProvision>, mk: (nat, RawProvision) -> Section): (r: seq<Section>)
    ensures |r| == |ps|
  {
    if ps == [] then [] else Numbering(ps[..|ps| - 1], mk) + [mk(|ps|, ps[|ps| - 1])]
  }

  lemma {:induction false} NumberingAt(ps: seq<RawProvision>, mk: (nat, RawProvision) -> Section, j: nat)
    requires j < |ps|
    ensures Numbering(ps, mk)[j] == mk(j + 1, ps[j])
  {
    var init := ps[..|ps| - 1];
    if j < |init| {
      NumberingAt(init, mk, j);
      assert init[j] == ps[j];
    }
  }

  /** The sections written for the provisions `ps`. */
  function SectionsOf(ps: seq<RawProvision>): (r: seq<Section>)
    ensures |r| == |ps|
  {
    Numbering(ps, NewSection)
  }

  /** One more provision: one more section, numbered after the others. */
  lemma SectionsOfNext(ps: seq<RawProvision>, i: nat)
    requires i < |ps|
    ensures SectionsOf(ps[..i + 1]) == SectionsOf(ps[..i]) + [NewSection(i + 1, ps[i])]
  {
    assert ps[..i + 1][..i] == ps[..i];
  }

  /** The loop of `create_bill_json` over the provisions. */
  method BuildSections(provisions: seq<RawProvision>) returns (sections: seq<Section>)
    ensures sections == SectionsOf(provisions)
  {
    sections := [];
    var i := 0;
    while i < |provisions|
      invariant 0 <= i <= |provisions|
      invariant sections == SectionsOf(provisions[..i])
    {
      var p := provisions[i];
      SectionsOfNext(provisions, i);
      sections := sections + [NewSection(i + 1, p)];
      i := i + 1;
    }
    assert provisions[..i] == provisions;
  }

  /** The sections are numbered 1..n in order, each keeps its provision's
      title and content, its id is a slug of its title, and no later stage
      has touched it yet. */
  lemma NewSections(ps: seq<RawProvision>, j: nat)
    requires j < |ps|
    ensures var s := SectionsOf(ps)[j];
      && s.index == j + 1
      && s.title == ps[j].title
      && s.rawText == Strip(Join("\n\n", ps[j].content))
      && IsSlug(s.id)
      && s.category.None? && s.summary.None? && s.impact.None? && !s.legacyImpacts
      && !IsProvision(s)
  {
    NumberingAt(ps, NewSection, j);
  }

  /** The section titles are the boundary headers, in order. */
  lemma SectionTitles(items: seq<Item>, st: Structure)
    ensures |SectionsOf(Extracted(items, st))| == |HeaderTitles(Roles(items, st))|
    ensures forall j :: 0 <= j < |SectionsOf(Extracted(items, st))| ==>
      SectionsOf(Extracted(items, st))[j].title == HeaderTitles(Roles(items, st))[j]
  {
    var ps := Extracted(items, st);
    ExtractedTitles(items, st);
    forall j | 0 <= j < |ps| ensures SectionsOf(ps)[j].title == Titles(ps)[j] {
      NumberingAt(ps, NewSection, j);
    }
  }

  /** `create_bill_json`: the new bill holds only `sections`. */
  method CreateBillJson(texts: seq<Item>, tables: seq<DocTable>, st: Structure, order: seq<Item> -> seq<Item>)
    returns (bill: BillData)
    ensures bill.sections == SectionsOf(Extracted(order(texts + TableItemsOf(tables)), st))
    ensures bill.executiveSummary.None? && bill.impactAnalyses.None?
    ensures bill.keyConcerns.None? && bill.metadata.None?
  {
    var provisions := ExtractProvisions(texts, tables, st, order);
    var sections := BuildSections(provisions);
    bill := BillData(sections, None, None, None, None);
  }
}
