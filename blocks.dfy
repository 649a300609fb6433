/** Notion blocks and their rendering (`renderNotionBlock`, `getPageTitle`,
    `getPageIcon`, `renderNotionPage`, script_note.js). A block is a tagged
    variant with already-resolved children; rendering is a pure function to
    a markup string. Glyphs are the Unicode characters the source means. */
module Blocks {
  import opened Wrappers
  import opened RichText

  const PageGlyph: string := "\U{1F4C4}"
  const BulletGlyph: string := "\U{2022}"
  const ArrowGlyph: string := "\U{2192}"
  const DatabaseGlyph: string := "\U{1F5C3}\U{FE0F}"
  const ClipGlyph: string := "\U{1F4CE}"
  const BulbGlyph: string := "\U{1F4A1}"

  /** A Notion file object: `type === 'external'` reads `external.url`,
      anything else reads `file.url`. */
  datatype FileObject = External(url: string) | Hosted(url: string)

  datatype Icon = Emoji(emoji: string) | ExternalIcon(url: string) | FileIcon(url: string)

  /** A table cell: an array of spans, or some other value rendered as is
      (`cell || ''`, so a null cell is the empty string). */
  datatype Cell = RichCell(spans: seq<Span>) | PlainCell(text: string)

  /** The type-specific payload of a block, one constructor per `case`. */
  datatype Content =
    | Paragraph(text: seq<Span>)
    | Heading1(text: seq<Span>)
    | Heading2(text: seq<Span>)
    | Heading3(text: seq<Span>)
    | BulletedListItem(text: seq<Span>)
    | NumberedListItem(text: seq<Span>)
    | ToDo(text: seq<Span>, checked: bool)
    | Toggle(text: seq<Span>)
    | Quote(text: seq<Span>)
    | Code(text: seq<Span>, language: string)
    | Divider
    | ChildPage(title: string)
    | ChildDatabase(title: string)
    | Image(file: FileObject, caption: seq<Span>)
    | Video(file: FileObject, caption: seq<Span>)
    | File(file: FileObject, name: string)
    | Bookmark(url: string)
    | Embed(url: string)
    | Table(hasColumnHeader: bool)
    | TableRow(cells: Option<seq<Cell>>)
    | Callout(text: seq<Span>, icon: Option<Icon>)
    | Unsupported(kind: string)

  /** A block as the API returns it plus the `children` field the fetcher
      adds. */
  datatype Block = Block(id: string, hasChildren: bool, children: Children, content: Content)

  /** The `children` field: absent, or the resolved list of child blocks. */
  datatype Children = Absent | Resolved(blocks: seq<Block>)

  predicate IsContainer(c: Content) {
    c.Toggle? || c.Table?
  }

  // ---------------------------------------------------------------------
  // Tables

  function CellText(c: Cell): string {
    match c
    case RichCell(spans) => RenderRichText(spans)
    case PlainCell(text) => text
  }

  /** The cells of one row, each inside `<tag>...</tag>`. */
  function CellsHtml(tag: string, cells: seq<Cell>): string {
    if cells == [] then ""
    else
      CellsHtml(tag, cells[..|cells| - 1]) + "<" + tag + ">" + CellText(cells[|cells| - 1]) + "</" + tag + ">"
  }

  function RowHtml(tag: string, cells: seq<Cell>): string {
    "<tr>" + CellsHtml(tag, cells) + "</tr>"
  }

  /** The `table_row` children, in order (`children.filter(...)`), each
      as its possibly missing list of cells. */
  function TableRows(children: seq<Block>): (rows: seq<Option<seq<Cell>>>)
    ensures |rows| <= |children|
  {
    if children == [] then []
    else
      var rest := TableRows(children[..|children| - 1]);
      var last := children[|children| - 1];
      if last.content.TableRow? then rest + [last.content.cells] else rest
  }

  /** The rows that carry cells; rows without a cells array are skipped. */
  function Present(rows: seq<Option<seq<Cell>>>): (body: seq<seq<Cell>>)
    ensures |body| <= |rows|
  {
    if rows == [] then []
    else
      var rest := Present(rows[..|rows| - 1]);
      if rows[|rows| - 1].Some? then rest + [rows[|rows| - 1].value] else rest
  }

  /** The filter keeps the order of the rows: filtering a concatenation
      filters each part, and one block gives its cells exactly when it is
      a `table_row`. */
  lemma {:induction false} TableRowsAppend(a: seq<Block>, b: seq<Block>)
    ensures TableRows(a + b) == TableRows(a) + TableRows(b)
    decreases |b|
  {
    if b == [] {
      assert a + b == a;
    } else {
      var b' := b[..|b| - 1];
      assert (a + b)[..|a + b| - 1] == a + b';
      assert (a + b)[|a + b| - 1] == b[|b| - 1];
      TableRowsAppend(a, b');
    }
  }

  /** The kept rows are exactly the cells of the `table_row` children. */
  lemma {:induction false} TableRowsMembers(children: seq<Block>)
    ensures forall x :: x in TableRows(children) <==>
      exists j :: 0 <= j < |children| && children[j].content.TableRow? && x == children[j].content.cells
    decreases |children|
  {
    if children != [] {
      var init := children[..|children| - 1];
      TableRowsMembers(init);
      forall x | (exists j :: 0 <= j < |children| && children[j].content.TableRow? && x == children[j].content.cells)
        ensures x in TableRows(children)
      {
        var j :| 0 <= j < |children| && children[j].content.TableRow? && x == children[j].content.cells;
        if j < |init| { assert init[j] == children[j]; }
      }
      forall x | x in TableRows(init)
        ensures exists j :: 0 <= j < |children| && children[j].content.TableRow? && x == children[j].content.cells
      {
        var j :| 0 <= j < |init| && init[j].content.TableRow? && x == init[j].content.cells;
        assert init[j] == children[j];
      }
    }
  }

  lemma TableRowsOne(b: Block)
    ensures TableRows([b]) == if b.content.TableRow? then [b.content.cells] else []
  {
    assert [b][..0] == [];
  }

  /** What a table shows: the placeholder, or an optional header row and
      the body rows. */
  datatype TableLayout = NoTableData | Grid(head: Option<seq<Cell>>, body: seq<seq<Cell>>)

  /** Lines 538-592 as a layout: missing or empty children give the
      placeholder; with a column header and at least one row, row 0 is the
      header (shown only if it has cells) and the rest is the body;
      otherwise every row is body. */
  function LayoutTable(hasColumnHeader: bool, children: Children): (r: TableLayout)
    ensures r == NoTableData <==> children.Absent? || children.blocks == []
    ensures r.Grid? ==>
      var rows := TableRows(children.blocks);
      r.head == (if hasColumnHeader && |rows| > 0 then rows[0] else None)
    ensures r.Grid? ==> HeadRows(r.head) + r.body == Present(TableRows(children.blocks))
  {
    if children.Absent? || children.blocks == [] then NoTableData
    else
      var rows := TableRows(children.blocks);
      if hasColumnHeader && |rows| > 0 then
        PresentSplit(rows);
        Grid(rows[0], Present(rows[1..]))
      else Grid(None, Present(rows))
  }

  function HeadRows(head: Option<seq<Cell>>): seq<seq<Cell>> {
    if head.Some? then [head.value] else []
  }

  lemma {:induction false} PresentAppend(a: seq<Option<seq<Cell>>>, b: seq<Option<seq<Cell>>>)
    ensures Present(a + b) == Present(a) + Present(b)
    decreases |b|
  {
    if b == [] {
      assert a + b == a;
    } else {
      var b' := b[..|b| - 1];
      assert (a + b)[..|a + b| - 1] == a + b';
      PresentAppend(a, b');
    }
  }

  /** The rows kept are exactly the values of the rows that have cells. */
  lemma {:induction false} PresentMembers(rows: seq<Option<seq<Cell>>>)
    ensures forall x :: x in Present(rows) <==> Some(x) in rows
    decreases |rows|
  {
    if rows != [] {
      var init := rows[..|rows| - 1];
      PresentMembers(init);
      assert rows == init + [rows[|rows| - 1]];
    }
  }

  /** One row is kept exactly when it has cells. */
  lemma PresentOne(row: Option<seq<Cell>>)
    ensures Present([row]) == HeadRows(row)
  {
    assert [row][..0] == [];
  }

  /** Splitting off the first row splits the present rows the same way. */
  lemma PresentSplit(rows: seq<Option<seq<Cell>>>)
    requires |rows| > 0
    ensures Present(rows) == HeadRows(rows[0]) + Present(rows[1..])
  {
    assert rows == [rows[0]] + rows[1..];
    PresentOne(rows[0]);
    PresentAppend([rows[0]], rows[1..]);
  }

  const TableOpen: string := "<div class=\"notion-table-container\"><table class=\"notion-table\">"
  const TableClose: string := "</table></div>"
  const NoTableDataHtml: string :=
    TableOpen + "<tbody><tr><td>No table data available</td></tr></tbody>" + TableClose

  function BodyHtml(body: seq<seq<Cell>>): string {
    if body == [] then "" else BodyHtml(body[..|body| - 1]) + RowHtml("td", body[|body| - 1])
  }

  function TableHtml(layout: TableLayout): string {
    match layout
    case NoTableData => NoTableDataHtml
    case Grid(head, body) =>
      TableOpen
      + HeadHtml(head)
      + "<tbody>" + BodyHtml(body) + "</tbody>"
      + TableClose
  }

  function HeadHtml(head: Option<seq<Cell>>): string {
    if head.Some? then "<thead>" + RowHtml("th", head.value) + "</thead>" else ""
  }

  /** Lines 536-595 as the source runs them: build the markup by appending
      the header cells, then each body row and its cells, in `forEach`
      loops. The result is the markup of the table's layout. */
  method RenderTable(hasColumnHeader: bool, children: Children) returns (html: string)
    ensures html == TableHtml(LayoutTable(hasColumnHeader, children))
  {
    if children.Absent? || children.blocks == [] {
      return NoTableDataHtml;
    }
    var rows := TableRows(children.blocks);
    html := TableOpen;
    var bodyRows := rows;
    if hasColumnHeader && |rows| > 0 {
      html := AppendHead(html, rows[0]);
      bodyRows := rows[1..];
    }
    html := html + "<tbody>";
    html := AppendBody(html, bodyRows);
    html := html + "</tbody>" + TableClose;
  }

  /** The header branch: `<thead>` with one `<th>` per cell, when the first
      row has cells. */
  method AppendHead(html: string, headerRow: Option<seq<Cell>>) returns (r: string)
    ensures r == html + HeadHtml(headerRow)
  {
    r := html;
    if headerRow.Some? {
      r := r + "<thead>";
      r := r + "<tr>";
      r := AppendCells(r, "th", headerRow.value);
      r := r + "</tr>";
      r := r + "</thead>";
      Regroup(html, "<thead>", "<tr>", CellsHtml("th", headerRow.value), "</tr>", "</thead>");
    }
  }

  /** Appending five pieces one after the other builds a header row. */
  lemma Regroup(h: string, a: string, b: string, c: string, d: string, e: string)
    ensures h + a + b + c + d + e == h + (a + (b + c + d) + e)
  {
  }

  /** The body `forEach`: one `<tr>` of `<td>` cells per row that has cells. */
  method AppendBody(html: string, rows: seq<Option<seq<Cell>>>) returns (r: string)
    ensures r == html + BodyHtml(Present(rows))
  {
    r := html;
    var i := 0;
    while i < |rows|
      invariant 0 <= i <= |rows|
      invariant r == html + BodyHtml(Present(rows[..i]))
    {
      assert rows[..i + 1][..i] == rows[..i];
      if rows[i].Some? {
        r := r + "<tr>";
        r := AppendCells(r, "td", rows[i].value);
        r := r + "</tr>";
      }
      i := i + 1;
    }
    assert rows[..i] == rows;
  }

  /** One inner `forEach`: append every cell of a row to `html`. */
  method AppendCells(html: string, tag: string, cells: seq<Cell>) returns (r: string)
    ensures r == html + CellsHtml(tag, cells)
  {
    r := html;
    var j := 0;
    while j < |cells|
      invariant 0 <= j <= |cells|
      invariant r == html + CellsHtml(tag, cells[..j])
    {
      assert cells[..j + 1][..j] == cells[..j];
      r := r + "<" + tag + ">" + CellText(cells[j]) + "</" + tag + ">";
      j := j + 1;
    }
    assert cells[..j] == cells;
  }

  // ---------------------------------------------------------------------
  // Blocks

  function MediaCaption(caption: seq<Span>): string {
    if |caption| > 0 then RenderRichText(caption) else ""
  }

  function CalloutIcon(icon: Option<Icon>): string {
    if icon.Some? && icon.value.Emoji? then icon.value.emoji else BulbGlyph
  }

  /** `renderNotionBlock`: one markup fragment per block kind, the unknown
      kinds included; it never fails. Toggles and tables read their
      resolved children (and never fetch); every other kind renders from
      its id and payload alone. */
  function RenderBlock(b: Block): string
    decreases b, 1
  {
    match b.content
    case Toggle(t) =>
      ToggleHtml(t, match b.children case Resolved(cs) => RenderBlocks(cs) case Absent => "")
    case Table(hasColumnHeader) => TableHtml(LayoutTable(hasColumnHeader, b.children))
    case _ => RenderLeaf(b.id, b.content)
  }

  function ToggleHtml(text: seq<Span>, inner: string): string {
    "<details class=\"notion-toggle\"><summary>" + RenderRichText(text)
    + "</summary><div class=\"notion-toggle-content\">" + inner + "</div></details>"
  }

  /** The kinds that have no children to show. */
  function RenderLeaf(id: string, content: Content): string
    requires !IsContainer(content)
  {
    match content
    case Paragraph(t) => "<p class=\"notion-paragraph\">" + RenderRichText(t) + "</p>"
    case Heading1(t) => "<h1 class=\"notion-heading-1\">" + RenderRichText(t) + "</h1>"
    case Heading2(t) => "<h2 class=\"notion-heading-2\">" + RenderRichText(t) + "</h2>"
    case Heading3(t) => "<h3 class=\"notion-heading-3\">" + RenderRichText(t) + "</h3>"
    case BulletedListItem(t) =>
      "<div class=\"notion-list-item\"><span class=\"notion-bullet\">" + BulletGlyph
      + "</span><span>" + RenderRichText(t) + "</span></div>"
    case NumberedListItem(t) =>
      "<div class=\"notion-list-item numbered\"><span class=\"notion-number\">1.</span><span>"
      + RenderRichText(t) + "</span></div>"
    case ToDo(t, checked) =>
      "<div class=\"notion-todo\"><input type=\"checkbox\" " + (if checked then "checked" else "")
      + " disabled><span class=\"" + (if checked then "completed" else "") + "\">"
      + RenderRichText(t) + "</span></div>"
    case Quote(t) => "<blockquote class=\"notion-quote\">" + RenderRichText(t) + "</blockquote>"
    case Code(t, language) =>
      "<pre class=\"notion-code\"><code class=\"language-" + (if language == "" then "text" else language)
      + "\">" + RenderRichText(t) + "</code></pre>"
    case Divider => "<hr class=\"notion-divider\">"
    case ChildPage(title) =>
      "<div class=\"notion-child-page\" onclick=\"loadSpecificPage('" + id
      + "')\"><div class=\"notion-child-page-icon\">" + PageGlyph
      + "</div><div class=\"notion-child-page-title\">" + title
      + "</div><div class=\"notion-child-page-arrow\">" + ArrowGlyph + "</div></div>"
    case ChildDatabase(title) =>
      "<div class=\"notion-child-database\"><div class=\"notion-child-database-icon\">" + DatabaseGlyph
      + "</div><div class=\"notion-child-database-title\">" + title
      + "</div><div class=\"notion-child-database-note\">(Database view not supported)</div></div>"
    case Image(f, caption) =>
      var cap := MediaCaption(caption);
      "<div class=\"notion-image\"><img src=\"" + f.url + "\" alt=\"" + cap + "\" loading=\"lazy\">"
      + (if cap != "" then "<div class=\"notion-image-caption\">" + cap + "</div>" else "")
      + "</div>"
    case Video(f, caption) =>
      var cap := MediaCaption(caption);
      "<div class=\"notion-video\"><video controls><source src=\"" + f.url
      + "\" type=\"video/mp4\">Your browser does not support the video tag.</video>"
      + (if cap != "" then "<div class=\"notion-video-caption\">" + cap + "</div>" else "")
      + "</div>"
    case File(f, name) =>
      "<div class=\"notion-file\"><a href=\"" + f.url
      + "\" target=\"_blank\" rel=\"noopener noreferrer\"><div class=\"notion-file-icon\">" + ClipGlyph
      + "</div><div class=\"notion-file-name\">" + (if name == "" then "Download File" else name)
      + "</div></a></div>"
    case Bookmark(url) =>
      "<div class=\"notion-bookmark\"><a href=\"" + url
      + "\" target=\"_blank\" rel=\"noopener noreferrer\"><div class=\"notion-bookmark-title\">" + url
      + "</div><div class=\"notion-bookmark-url\">" + url + "</div></a></div>"
    case Embed(url) =>
      "<div class=\"notion-embed\"><iframe src=\"" + url + "\" frameborder=\"0\" allowfullscreen></iframe></div>"
    case TableRow(cells) =>
      if cells.None? then "<tr><td>Invalid table row data</td></tr>" else RowHtml("td", cells.value)
    case Callout(t, icon) =>
      "<div class=\"notion-callout\"><div class=\"notion-callout-icon\">" + CalloutIcon(icon)
      + "</div><div class=\"notion-callout-content\">" + RenderRichText(t) + "</div></div>"
    case Unsupported(kind) =>
      "<div class=\"notion-unsupported\">Unsupported block type: " + kind + "</div>"
  }

  /** `blocks.map(renderNotionBlock).join('')`. */
  function RenderBlocks(bs: seq<Block>): string
    decreases bs, 0
  {
    if bs == [] then "" else RenderBlock(bs[0]) + RenderBlocks(bs[1..])
  }

  /** One block joins as its own markup. */
  lemma RenderBlocksOne(b: Block)
    ensures RenderBlocks([b]) == RenderBlock(b)
  {
    assert [b][1..] == [];
  }

  /** The `default` branch: any kind the renderer does not know shows its
      type name in the unsupported-block frame. */
  lemma UnsupportedFallback(b: Block)
    requires b.content.Unsupported?
    ensures RenderBlock(b) == "<div class=\"notion-unsupported\">Unsupported block type: " + b.content.kind + "</div>"
  {
  }

  /** A toggle's body is the markup of its resolved children, joined in
      order, under the summary of its own text. */
  lemma ToggleShowsChildren(b: Block, cs: seq<Block>)
    requires b.content.Toggle? && b.children == Resolved(cs)
    ensures RenderBlock(b) == ToggleHtml(b.content.text, RenderBlocks(cs))
  {
  }

  /** A toggle without a `children` field has an empty body. */
  lemma ToggleWithoutChildren(b: Block)
    requires b.content.Toggle? && b.children.Absent?
    ensures RenderBlock(b) == ToggleHtml(b.content.text, "")
  {
  }

  /** A table block shows the markup of its layout, which `RenderTable`
      builds with the source's loops. */
  lemma TableShowsLayout(b: Block)
    requires b.content.Table?
    ensures RenderBlock(b) == TableHtml(LayoutTable(b.content.hasColumnHeader, b.children))
  {
  }

  /** A code block without a language is labelled as plain text. */
  lemma CodeLanguageDefault(b: Block)
    requires b.content.Code? && b.content.language == ""
    ensures RenderBlock(b) == "<pre class=\"notion-code\"><code class=\"language-text\">"
      + RenderRichText(b.content.text) + "</code></pre>"
  {
  }

  lemma {:induction false} RenderBlocksAppend(a: seq<Block>, b: seq<Block>)
    ensures RenderBlocks(a + b) == RenderBlocks(a) + RenderBlocks(b)
    decreases |a|
  {
    if a == [] {
      assert a + b == b;
    } else {
      assert (a + b)[0] == a[0];
      assert (a + b)[1..] == a[1..] + b;
      RenderBlocksAppend(a[1..], b);
    }
  }

  /** A toggle or table whose `children` is an empty list renders exactly as
      one without a `children` field (`!block.children ||
      block.children.length === 0`). */
  lemma EmptyChildrenLikeAbsent(b: Block)
    ensures RenderBlock(b.(children := Resolved([]))) == RenderBlock(b.(children := Absent))
  {
  }

  /** Only toggles and tables look at their children. */
  lemma ChildrenIgnoredOutsideContainers(b: Block, c: Children)
    requires !IsContainer(b.content)
    ensures RenderBlock(b.(children := c)) == RenderBlock(b)
  {
  }

  /** A table with a column header whose first row has cells puts that row,
      as `<th>` cells, in `<thead>` and every later row with cells in
      `<tbody>`. */
  lemma {:induction false} HeaderRowSeparated(b: Block)
    requires b.content.Table? && b.content.hasColumnHeader
    requires b.children.Resolved?
    requires var rows := TableRows(b.children.blocks); |rows| > 0 && rows[0].Some?
    ensures var rows := TableRows(b.children.blocks);
      RenderBlock(b) == TableOpen + "<thead>" + RowHtml("th", rows[0].value) + "</thead>"
        + "<tbody>" + BodyHtml(Present(rows[1..])) + "</tbody>" + TableClose
  {
    var rows := TableRows(b.children.blocks);
    assert b.children.blocks != [];
    var layout := LayoutTable(true, b.children);
    assert layout == Grid(rows[0], Present(rows[1..]));
  }
}
