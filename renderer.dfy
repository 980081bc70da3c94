/**
  `NotionRenderer`: renders a Markdown syntax tree, children first, into
  Notion block descriptors, plain strings and lists of both. The dispatch on
  the token's class becomes a `match` over the node kinds; each `render_*`
  handler is one function.
*/
module Renderer {
  import opened Blocks
  import opened Flattening
  import opened Merge
  import opened Languages
  import opened Syntax

  /** `render`: dispatch on the node kind. */
  function Render(n: Node): Result<Out>
    decreases n, 4
  {
    match n
    case Document(_) => RenderDocument(n)
    case Heading(_, _) => RenderHeading(n)
    case Paragraph(_) => RenderParagraph(n)
    case Quote(_) => RenderQuote(n)
    case ThematicBreak => RenderThematicBreak(n)
    case CodeBlock(_, _) => RenderBlockCode(n)
    case List(_) => RenderList(n)
    case ListItem(_, _) => RenderListItem(n)
    case Table(_, _) => RenderTable(n)
    case Strong(_) => RenderStrong(n)
    case Emphasis(_) => RenderEmphasis(n)
    case InlineCode(_) => RenderInlineCode(n)
    case Strikethrough(_) => RenderStrikethrough(n)
    case EscapeSequence(_) => RenderEscapeSequence(n)
    case Link(_, _) => RenderLink(n)
    case Image(_, _, _) => RenderImage(n)
    case LineBreak => RenderLineBreak(n)
    case RawText(_) => RenderRawText(n)
  }

  /** `self.render(t) for t in tokens`: every sibling rendered, in order; the
      first exception ends the pass. */
  function RenderEach(ns: seq<Node>): (r: Result<seq<Out>>)
    ensures r.Ok? <==> forall i :: 0 <= i < |ns| ==> Render(ns[i]).Ok?
    ensures r.Ok? ==> |r.value| == |ns|
    ensures r.Ok? ==> forall i :: 0 <= i < |ns| ==> r.value[i] == Render(ns[i]).value
    decreases ns, 0
  {
    if ns == [] then Ok([])
    else
      var o :- Render(ns[0]);
      var os :- RenderEach(ns[1..]);
      Ok([o] + os)
  }

  /** `render_multiple`: the siblings' results spliced into one flat list. */
  function RenderMultiple(ns: seq<Node>): Result<seq<Item>>
    decreases ns, 1
  {
    var os :- RenderEach(ns);
    Ok(Flatten(os))
  }

  /** `render_multiple_to_string`. */
  function RenderMultipleToString(ns: seq<Node>): Result<(string, seq<Descriptor>)>
    decreases ns, 2
  {
    var items :- RenderMultiple(ns);
    Ok(ToStringParts(items))
  }

  /** `render_multiple_to_string_and_combine`, returned as a Python list. */
  function RenderCombined(ns: seq<Node>, build: string -> Item): Result<Out>
    decreases ns, 3
  {
    var (s, blocks) :- RenderMultipleToString(ns);
    Ok(Nest(Lift(Combine(s, blocks, build))))
  }

  function RenderDocument(n: Node): Result<Out>
    requires n.Document?
    decreases n, 3
  {
    var items :- RenderMultiple(n.children);
    Ok(Nest(Lift(items)))
  }

  function RenderBlockCode(n: Node): Result<Out>
    requires n.CodeBlock?
    decreases n, 3
  {
    RenderCombined(n.children, CodeBlockFunc(ResolveLanguage(n.language)))
  }

  /** `blockFunc` of `render_block_code`. */
  function CodeBlockFunc(language: string): string -> Item {
    text => Dict(CodeDesc(language, text))
  }

  /** `blockFunc` of the heading, quote and paragraph handlers. */
  function TitledBlockFunc(kind: BlockType): string -> Item {
    text => Dict(TitledDesc(kind, text))
  }

  /** The lambdas of the inline handlers: `lambda s: f"{open}{s}{close}"`. */
  function SigilFunc(open: string, close: string): string -> Item {
    s => Str(open + s + close)
  }

  function RenderThematicBreak(n: Node): Result<Out>
    requires n.ThematicBreak?
    decreases n, 3
  {
    Ok(Leaf(Dict(DividerDesc)))
  }

  /** `[HeaderBlock, SubheaderBlock, SubsubheaderBlock]`. */
  const HeadingTypes: seq<BlockType> := [HeaderBlock, SubheaderBlock, SubsubheaderBlock]

  /** Python's `xs[i]` on a list of length `len`: a negative `i` counts from
      the end; anything else out of range raises IndexError (`None`). */
  function PyIndex(len: nat, i: int): (r: Option<nat>)
    ensures r.Some? <==> -(len as int) <= i < len
    ensures r.Some? ==> r.value < len && (r.value == i || r.value == len + i)
  {
    if 0 <= i < len then Some(i)
    else if -(len as int) <= i < 0 then Some(len + i)
    else None
  }

  /** `render_heading`: a level above 3 is clamped to 3. The block type is
      looked up only when the joined string is non-empty, since that is when
      the block function is called. */
  function RenderHeading(n: Node): Result<Out>
    requires n.Heading?
    decreases n, 3
  {
    var level := if n.level > 3 then 3 else n.level;
    match PyIndex(|HeadingTypes|, level - 1)
    case Some(i) =>
      RenderCombined(n.children, TitledBlockFunc(HeadingTypes[i]))
    case None =>
      var (s, blocks) :- RenderMultipleToString(n.children);
      if s != "" then Err(HeadingLevelOutOfRange(level)) else Ok(Nest(Lift(DictItems(blocks))))
  }

  function RenderQuote(n: Node): Result<Out>
    requires n.Quote?
    decreases n, 3
  {
    RenderCombined(n.children, TitledBlockFunc(QuoteBlock))
  }

  function RenderParagraph(n: Node): Result<Out>
    requires n.Paragraph?
    decreases n, 3
  {
    RenderCombined(n.children, TitledBlockFunc(TextBlock))
  }

  /** `render_list`: a list adds no block of its own. */
  function RenderList(n: Node): Result<Out>
    requires n.List?
    decreases n, 3
  {
    var items :- RenderMultiple(n.children);
    Ok(Nest(Lift(items)))
  }

  /** `re.match(r'\d', leader)`: the leader starts with a digit. */
  predicate LeaderIsNumber(leader: string) {
    |leader| > 0 && '0' <= leader[0] <= '9'
  }

  /** `render_list_item`: the item's own text is the text blocks' titles,
      its children every other dict. */
  function RenderListItem(n: Node): Result<Out>
    requires n.ListItem?
    decreases n, 3
  {
    var numbered := LeaderIsNumber(n.leader);
    var rendered :- RenderMultiple(n.children);
    var children :- ListItemChildren(rendered);
    var strings := TextTitles(rendered);
    Ok(Leaf(Dict(ListItemDesc(numbered, Join(strings), children))))
  }

  /** The loop building the schema: one text column per header cell, each
      appended in turn. */
  function Schema(headerRow: seq<string>): (r: seq<Column>)
    ensures |r| == |headerRow|
    ensures forall i :: 0 <= i < |r| ==> r[i] == Column(headerRow[i], "text")
  {
    if headerRow == [] then []
    else Schema(headerRow[..|headerRow| - 1]) + [Column(headerRow[|headerRow| - 1], "text")]
  }

  /** `render_table`: the header gives the schema, the body rows the rows. */
  function RenderTable(n: Node): Result<Out>
    requires n.Table?
    decreases n, 3
  {
    var headerRow :- RenderTableRow(n.header);
    var rows :- RenderRows(n.body);
    Ok(Leaf(Dict(TableDesc(rows, Schema(headerRow)))))
  }

  /** `[self.render(r) for r in token.children]`. */
  function RenderRows(rows: seq<Row>): (r: Result<seq<seq<string>>>)
    ensures r.Ok? <==> forall i :: 0 <= i < |rows| ==> RenderTableRow(rows[i]).Ok?
    ensures r.Ok? ==> |r.value| == |rows|
    ensures r.Ok? ==> forall i :: 0 <= i < |rows| ==> r.value[i] == RenderTableRow(rows[i]).value
    decreases rows, 3
  {
    if rows == [] then Ok([])
    else
      var row :- RenderTableRow(rows[0]);
      var rest :- RenderRows(rows[1..]);
      Ok([row] + rest)
  }

  /** `render_table_row`: `render_multiple` over the cells. Each cell renders
      to one string, and flattening a list of strings leaves it as it is
      (`Flattening.FlattenLift`), so the row is its cells' strings. */
  function RenderTableRow(row: Row): Result<seq<string>>
    decreases row, 3
  {
    RenderCells(row.cells)
  }

  function RenderCells(cells: seq<Cell>): (r: Result<seq<string>>)
    ensures r.Ok? <==> forall i :: 0 <= i < |cells| ==> RenderTableCell(cells[i]).Ok?
    ensures r.Ok? ==> |r.value| == |cells|
    ensures r.Ok? ==> forall i :: 0 <= i < |cells| ==> r.value[i] == RenderTableCell(cells[i]).value
    decreases cells, 3
  {
    if cells == [] then Ok([])
    else
      var s :- RenderTableCell(cells[0]);
      var rest :- RenderCells(cells[1..]);
      Ok([s] + rest)
  }

  /** `render_table_cell`: only the joined string; dicts are dropped. */
  function RenderTableCell(cell: Cell): Result<string>
    decreases cell, 3
  {
    var (s, _) :- RenderMultipleToString(cell.children);
    Ok(s)
  }

  function RenderStrong(n: Node): Result<Out>
    requires n.Strong?
    decreases n, 3
  {
    RenderCombined(n.children, SigilFunc("**", "**"))
  }

  function RenderEmphasis(n: Node): Result<Out>
    requires n.Emphasis?
    decreases n, 3
  {
    RenderCombined(n.children, SigilFunc("*", "*"))
  }

  function RenderInlineCode(n: Node): Result<Out>
    requires n.InlineCode?
    decreases n, 3
  {
    RenderCombined(n.children, SigilFunc("`", "`"))
  }

  function RenderRawText(n: Node): Result<Out>
    requires n.RawText?
    decreases n, 3
  {
    Ok(Leaf(Str(n.content)))
  }

  function RenderStrikethrough(n: Node): Result<Out>
    requires n.Strikethrough?
    decreases n, 3
  {
    RenderCombined(n.children, SigilFunc("~", "~"))
  }

  /** `render_link`: the link text is emitted even when it is empty. */
  function RenderLink(n: Node): Result<Out>
    requires n.Link?
    decreases n, 3
  {
    var (s, blocks) :- RenderMultipleToString(n.children);
    Ok(Nest(Lift([Str("[" + s + "](" + n.target + ")")] + DictItems(blocks))))
  }

  function RenderEscapeSequence(n: Node): Result<Out>
    requires n.EscapeSequence?
    decreases n, 3
  {
    RenderCombined(n.children, SigilFunc("\\", ""))
  }

  function RenderLineBreak(n: Node): Result<Out>
    requires n.LineBreak?
    decreases n, 3
  {
    Ok(Leaf(Str(" ")))
  }

  /** `render_image`: `token.title or ...` renders the alt text only when the
      title is empty. */
  function RenderImage(n: Node): Result<Out>
    requires n.Image?
    decreases n, 3
  {
    if n.title != "" then
      Ok(Leaf(Dict(ImageDesc(n.src, n.src, n.title))))
    else
      var (alt, _) :- RenderMultipleToString(n.children);
      Ok(Leaf(Dict(ImageDesc(n.src, n.src, alt))))
  }
}
