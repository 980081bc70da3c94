/**
  The Markdown syntax tree the renderer walks. It is produced by an external
  parser (mistletoe) and only read here: one constructor per token class
  that has a handler in the renderer.
*/
module Syntax {

  datatype Node =
    | Document(children: seq<Node>)
    | Heading(level: int, children: seq<Node>)
    | Paragraph(children: seq<Node>)
    | Quote(children: seq<Node>)
    | ThematicBreak
      // fenced and indented code; `language` is "" when the fence has none
    | CodeBlock(language: string, children: seq<Node>)
    | List(children: seq<Node>)
      // `leader` is the item's marker as written: "-", "*", "1.", "2)"
    | ListItem(leader: string, children: seq<Node>)
    | Table(header: Row, body: seq<Row>)
    | Strong(children: seq<Node>)
    | Emphasis(children: seq<Node>)
    | InlineCode(children: seq<Node>)
    | Strikethrough(children: seq<Node>)
    | EscapeSequence(children: seq<Node>)
    | Link(target: string, children: seq<Node>)
      // `title` is "" when the image has none; `children` is the alt text
    | Image(src: string, title: string, children: seq<Node>)
    | LineBreak
    | RawText(content: string)

  datatype Row = Row(cells: seq<Cell>)

  datatype Cell = Cell(children: seq<Node>)

  // The shapes the parser builds: block tokens under the document, list
  // items and quotes; only list items under lists; inline tokens under
  // paragraphs, headings (levels 1 to 6), code blocks, table cells and
  // other inline tokens.

  predicate InlineTree(n: Node)
    decreases n
  {
    match n
    case Strong(ch) => forall i :: 0 <= i < |ch| ==> InlineTree(ch[i])
    case Emphasis(ch) => forall i :: 0 <= i < |ch| ==> InlineTree(ch[i])
    case InlineCode(ch) => forall i :: 0 <= i < |ch| ==> InlineTree(ch[i])
    case Strikethrough(ch) => forall i :: 0 <= i < |ch| ==> InlineTree(ch[i])
    case EscapeSequence(ch) => forall i :: 0 <= i < |ch| ==> InlineTree(ch[i])
    case Link(_, ch) => forall i :: 0 <= i < |ch| ==> InlineTree(ch[i])
    case Image(_, _, ch) => forall i :: 0 <= i < |ch| ==> InlineTree(ch[i])
    case LineBreak => true
    case RawText(_) => true
    case _ => false
  }

  predicate CellTree(c: Cell)
    decreases c
  {
    forall i :: 0 <= i < |c.children| ==> InlineTree(c.children[i])
  }

  predicate RowTree(r: Row)
    decreases r
  {
    forall i :: 0 <= i < |r.cells| ==> CellTree(r.cells[i])
  }

  predicate BlockTree(n: Node)
    decreases n
  {
    match n
    case Heading(level, ch) => 1 <= level <= 6 && forall i :: 0 <= i < |ch| ==> InlineTree(ch[i])
    case Paragraph(ch) => forall i :: 0 <= i < |ch| ==> InlineTree(ch[i])
    case Quote(ch) => forall i :: 0 <= i < |ch| ==> BlockTree(ch[i])
    case ThematicBreak => true
    case CodeBlock(_, ch) => forall i :: 0 <= i < |ch| ==> InlineTree(ch[i])
    case List(ch) => forall i :: 0 <= i < |ch| ==> ch[i].ListItem? && BlockTree(ch[i])
    case ListItem(_, ch) => forall i :: 0 <= i < |ch| ==> BlockTree(ch[i])
    case Table(header, body) => RowTree(header) && forall i :: 0 <= i < |body| ==> RowTree(body[i])
    case _ => false
  }

  predicate DocumentTree(n: Node) {
    n.Document? && forall i :: 0 <= i < |n.children| ==> BlockTree(n.children[i])
  }
}
