/**
  What the renderer promises, node kind by node kind, and for the trees the
  Markdown parser builds.
*/
module RendererProperties {
  import opened Blocks
  import opened Flattening
  import opened Merge
  import opened Languages
  import opened Syntax
  import opened Renderer

  // ---------------------------------------------------------------------
  // Rendering siblings

  /** Rendering two runs of siblings renders the first run, then the
      second; the first exception wins. */
  lemma {:induction false} RenderEachConcat(a: seq<Node>, b: seq<Node>)
    ensures RenderEach(a + b) ==
      (var x :- RenderEach(a); var y :- RenderEach(b); Ok(x + y))
    decreases a
  {
    if a == [] {
      assert a + b == b;
      if RenderEach(b).Ok? {
        assert [] + RenderEach(b).value == RenderEach(b).value;
      }
    } else {
      assert (a + b)[0] == a[0];
      assert (a + b)[1..] == a[1..] + b;
      RenderEachConcat(a[1..], b);
      var head, tail := Render(a[0]), RenderEach(a[1..]);
      if head.Ok? && tail.Ok? && RenderEach(b).Ok? {
        assert [head.value] + (tail.value + RenderEach(b).value) ==
          ([head.value] + tail.value) + RenderEach(b).value;
      }
    }
  }

  /** `render_multiple` over two runs of siblings is the first run's flat
      result followed by the second's; the first exception wins. */
  lemma RenderMultipleConcat(a: seq<Node>, b: seq<Node>)
    ensures RenderMultiple(a + b) ==
      (var x :- RenderMultiple(a); var y :- RenderMultiple(b); Ok(x + y))
  {
    RenderEachConcat(a, b);
    if RenderEach(a).Ok? && RenderEach(b).Ok? {
      FlattenConcat(RenderEach(a).value, RenderEach(b).value);
    }
  }

  /** The leaves of a `render_multiple_to_string_and_combine` result. */
  lemma CombinedItems(ns: seq<Node>, build: string -> Item)
    ensures RenderCombined(ns, build).Ok? <==> RenderMultipleToString(ns).Ok?
    ensures RenderMultipleToString(ns).Ok? ==>
      var (s, blocks) := RenderMultipleToString(ns).value;
      Items(RenderCombined(ns, build).value) == (if s != "" then [build(s)] else []) + DictItems(blocks)
  {
    if RenderMultipleToString(ns).Ok? {
      var (s, blocks) := RenderMultipleToString(ns).value;
      var r := Combine(s, blocks, build);
      ItemsOfNest(r);
      if s != "" {
        assert r == [r[0]] + r[1..];
      }
    }
  }

  // ---------------------------------------------------------------------
  // Block handlers

  /** The document is the flat list of its children's results. */
  lemma DocumentIsFlat(children: seq<Node>)
    ensures Render(Document(children)).Ok? <==> RenderMultiple(children).Ok?
    ensures RenderMultiple(children).Ok? ==>
      Items(Render(Document(children)).value) == RenderMultiple(children).value
  {
    if RenderMultiple(children).Ok? {
      ItemsOfNest(RenderMultiple(children).value);
    }
  }

  /** A list adds no block: a list of n items renders to exactly n sibling
      list-item descriptors, each the item's own rendering. */
  lemma ListIsTransparent(items: seq<Node>)
    requires forall i :: 0 <= i < |items| ==> items[i].ListItem?
    ensures Render(List(items)).Ok? <==> forall i :: 0 <= i < |items| ==> Render(items[i]).Ok?
    ensures Render(List(items)).Ok? ==>
      var r := Items(Render(List(items)).value);
      && |r| == |items|
      && forall i :: 0 <= i < |items| ==>
           Render(items[i]).value.Leaf? && r[i] == Render(items[i]).value.item &&
           r[i].Dict? && r[i].d.ListItemDesc?
  {
    assert Render(List(items)) == RenderList(List(items));
    if RenderEach(items).Ok? {
      var os := RenderEach(items).value;
      forall i | 0 <= i < |items|
        ensures os[i].Leaf? && os[i].item.Dict? && os[i].item.d.ListItemDesc?
      {
        assert os[i] == Render(items[i]).value;
        assert Render(items[i]) == RenderListItem(items[i]);
      }
      FlattenOfLeaves(os);
      ItemsOfNest(Flatten(os));
    }
  }

  /** A paragraph is one text block holding the merged string, present only
      when that string is non-empty, followed by the dicts that could not be
      merged. */
  lemma ParagraphRenders(children: seq<Node>)
    ensures Render(Paragraph(children)).Ok? <==> RenderMultipleToString(children).Ok?
    ensures RenderMultipleToString(children).Ok? ==>
      var (s, blocks) := RenderMultipleToString(children).value;
      Items(Render(Paragraph(children)).value) ==
        (if s != "" then [Dict(TitledDesc(TextBlock, s))] else []) + DictItems(blocks)
  {
    CombinedItems(children, TitledBlockFunc(TextBlock));
  }

  /** A quote is one quote block holding the merged string of its children,
      present only when that string is non-empty, then the other dicts. */
  lemma QuoteRenders(children: seq<Node>)
    ensures Render(Quote(children)).Ok? <==> RenderMultipleToString(children).Ok?
    ensures RenderMultipleToString(children).Ok? ==>
      var (s, blocks) := RenderMultipleToString(children).value;
      Items(Render(Quote(children)).value) ==
        (if s != "" then [Dict(TitledDesc(QuoteBlock, s))] else []) + DictItems(blocks)
  {
    CombinedItems(children, TitledBlockFunc(QuoteBlock));
  }

  /** A code block stores its text in `titlePlaintext` and the resolved
      language; an empty code block yields no block. */
  lemma CodeBlockRenders(language: string, children: seq<Node>)
    ensures Render(Node.CodeBlock(language, children)).Ok? <==> RenderMultipleToString(children).Ok?
    ensures RenderMultipleToString(children).Ok? ==>
      var (s, blocks) := RenderMultipleToString(children).value;
      Items(Render(Node.CodeBlock(language, children)).value) ==
        (if s != "" then [Dict(CodeDesc(ResolveLanguage(language), s))] else []) + DictItems(blocks)
  {
    var lang := ResolveLanguage(language);
    CodeBlockIsCombined(language, children);
    CombinedItems(children, CodeBlockFunc(lang));
  }

  lemma CodeBlockIsCombined(language: string, children: seq<Node>)
    ensures Render(Node.CodeBlock(language, children)) ==
      RenderCombined(children, CodeBlockFunc(ResolveLanguage(language)))
  {
  }

  /** An empty paragraph and an empty code block yield no block at all. */
  lemma EmptyBlocksVanish(language: string)
    ensures Render(Paragraph([])) == Ok(Nest([]))
    ensures Render(Node.CodeBlock(language, [])) == Ok(Nest([]))
  {
    assert RenderMultiple([]) == Ok([]);
    ToStringPartsSpec([]);
    CodeBlockIsCombined(language, []);
  }

  /** The block type of a heading of level 1, 2, or 3 and above. */
  function HeadingTypeFor(level: int): BlockType {
    if level == 1 then HeaderBlock else if level == 2 then SubheaderBlock else SubsubheaderBlock
  }

  /** Levels 1, 2 and 3 give Header, Subheader and Subsubheader, and every
      deeper level gives Subsubheader; the title is the merged string. */
  lemma HeadingRenders(level: int, children: seq<Node>)
    requires level >= 1
    ensures Render(Heading(level, children)).Ok? <==> RenderMultipleToString(children).Ok?
    ensures RenderMultipleToString(children).Ok? ==>
      var (s, blocks) := RenderMultipleToString(children).value;
      Items(Render(Heading(level, children)).value) ==
        (if s != "" then [Dict(TitledDesc(HeadingTypeFor(level), s))] else []) + DictItems(blocks)
  {
    var clamped := if level > 3 then 3 else level;
    assert PyIndex(|HeadingTypes|, clamped - 1) == Some(clamped - 1);
    assert HeadingTypes[clamped - 1] == HeadingTypeFor(level);
    CombinedItems(children, TitledBlockFunc(HeadingTypes[clamped - 1]));
  }

  /** Levels above 3 render exactly like level 3. */
  lemma HeadingClamp(level: int, children: seq<Node>)
    requires level > 3
    ensures Render(Heading(level, children)) == Render(Heading(3, children))
  {
    assert PyIndex(|HeadingTypes|, 2) == Some(2);
    assert Render(Heading(level, children)) == RenderCombined(children, TitledBlockFunc(HeadingTypes[2]));
    assert Render(Heading(3, children)) == RenderCombined(children, TitledBlockFunc(HeadingTypes[2]));
  }

  /** Levels 0, -1 and -2 index the block types from the end, as Python
      does: 0 gives Subsubheader, -1 Subheader, -2 Header. Below that the
      lookup raises, but only when there is a title to build a block for. */
  lemma HeadingBelowOne(level: int, children: seq<Node>)
    requires level < 1
    requires RenderMultipleToString(children).Ok?
    ensures var (s, blocks) := RenderMultipleToString(children).value;
      if level >= -2 then
        Render(Heading(level, children)).Ok? &&
        Items(Render(Heading(level, children)).value) ==
          (if s != "" then
             [Dict(TitledDesc(if level == 0 then SubsubheaderBlock
                              else if level == -1 then SubheaderBlock else HeaderBlock, s))]
           else []) + DictItems(blocks)
      else
        (Render(Heading(level, children)).Err? <==> s != "") &&
        (s == "" ==> Items(Render(Heading(level, children)).value) == DictItems(blocks))
  {
    var (s, blocks) := RenderMultipleToString(children).value;
    if level >= -2 {
      assert PyIndex(|HeadingTypes|, level - 1) == Some(level + 2);
      CombinedItems(children, TitledBlockFunc(HeadingTypes[level + 2]));
    } else {
      assert PyIndex(|HeadingTypes|, level - 1) == None;
      ItemsOfNest(DictItems(blocks));
    }
  }

  /** A list item is numbered exactly when its leader starts with a digit;
      its title is every text-block title among its rendered children, in
      order; its children are every other dict, in order; and a bare string
      among its rendered children raises. */
  lemma ListItemRenders(leader: string, children: seq<Node>)
    requires RenderMultiple(children).Ok?
    ensures var rendered := RenderMultiple(children).value;
      && (Render(ListItem(leader, children)).Ok? <==> AllDicts(rendered))
      && (AllDicts(rendered) ==>
            Render(ListItem(leader, children)) ==
              Ok(Leaf(Dict(ListItemDesc(|leader| > 0 && '0' <= leader[0] <= '9',
                                        AllText(rendered), AllExtracted(rendered))))))
  {
  }

  /** A table's schema has one text column per header cell, in header order;
      its rows are the body rows only, each the list of its cells' strings. */
  lemma TableRenders(header: Row, body: seq<Row>)
    ensures Render(Table(header, body)).Ok? <==>
      RenderTableRow(header).Ok? && forall i :: 0 <= i < |body| ==> RenderTableRow(body[i]).Ok?
    ensures Render(Table(header, body)).Ok? ==>
      var hs := RenderTableRow(header).value;
      var t := Render(Table(header, body)).value;
      && t.Leaf? && t.item.Dict? && t.item.d.TableDesc?
      && |t.item.d.schema| == |hs|
      && (forall i :: 0 <= i < |hs| ==> t.item.d.schema[i] == Column(hs[i], "text"))
      && |t.item.d.rows| == |body|
      && (forall i :: 0 <= i < |body| ==> t.item.d.rows[i] == RenderTableRow(body[i]).value)
  {
  }

  /** A row holds one string per cell, each the cell's merged string with
      its dicts dropped; it is what flattening the cells' results gives. */
  lemma TableRowRenders(cells: seq<Cell>)
    ensures RenderTableRow(Row(cells)).Ok? <==>
      forall i :: 0 <= i < |cells| ==> RenderMultipleToString(cells[i].children).Ok?
    ensures RenderTableRow(Row(cells)).Ok? ==>
      var row := RenderTableRow(Row(cells)).value;
      && |row| == |cells|
      && (forall i :: 0 <= i < |cells| ==> row[i] == RenderMultipleToString(cells[i].children).value.0)
      && Flatten(Lift(StrItems(row))) == StrItems(row)
  {
    if RenderTableRow(Row(cells)).Ok? {
      FlattenLift(StrItems(RenderTableRow(Row(cells)).value));
    }
  }

  /** Strings as render leaves. */
  function StrItems(ss: seq<string>): (r: seq<Item>)
    ensures |r| == |ss|
    ensures forall i :: 0 <= i < |ss| ==> r[i] == Str(ss[i])
  {
    if ss == [] then [] else [Str(ss[0])] + StrItems(ss[1..])
  }

  // ---------------------------------------------------------------------
  // Inline handlers

  /** The markup each sigil-wrapping inline kind puts before and after its
      text. */
  function Sigils(n: Node): (string, string)
    requires n.Strong? || n.Emphasis? || n.InlineCode? || n.Strikethrough? || n.EscapeSequence?
  {
    match n
    case Strong(_) => ("**", "**")
    case Emphasis(_) => ("*", "*")
    case InlineCode(_) => ("`", "`")
    case Strikethrough(_) => ("~", "~")
    case EscapeSequence(_) => ("\\", "")
  }

  /** Strong, emphasis, inline code, strikethrough and escapes wrap a
      non-empty merged string in their sigils and emit no string for an
      empty one; dicts that could not be merged follow. */
  lemma SigilWraps(n: Node)
    requires n.Strong? || n.Emphasis? || n.InlineCode? || n.Strikethrough? || n.EscapeSequence?
    ensures Render(n).Ok? <==> RenderMultipleToString(n.children).Ok?
    ensures RenderMultipleToString(n.children).Ok? ==>
      var (s, blocks) := RenderMultipleToString(n.children).value;
      Items(Render(n).value) ==
        (if s != "" then [Str(Sigils(n).0 + s + Sigils(n).1)] else []) + DictItems(blocks)
  {
    CombinedItems(n.children, SigilFunc(Sigils(n).0, Sigils(n).1));
  }

  /** A link always emits `[text](target)` first, even for empty text, and
      then the dicts that could not be merged. */
  lemma LinkRenders(target: string, children: seq<Node>)
    ensures Render(Link(target, children)).Ok? <==> RenderMultipleToString(children).Ok?
    ensures RenderMultipleToString(children).Ok? ==>
      var (s, blocks) := RenderMultipleToString(children).value;
      Items(Render(Link(target, children)).value) ==
        [Str("[" + s + "](" + target + ")")] + DictItems(blocks)
  {
    if RenderMultipleToString(children).Ok? {
      var (s, blocks) := RenderMultipleToString(children).value;
      ItemsOfNest([Str("[" + s + "](" + target + ")")] + DictItems(blocks));
    }
  }

  /** An image's source and display source are both its URL; its caption is
      its title when that is non-empty (its alt text is then not rendered at
      all), otherwise the merged string of its alt text. */
  lemma ImageRenders(src: string, title: string, children: seq<Node>)
    ensures title != "" ==>
      Render(Image(src, title, children)).Ok? &&
      Items(Render(Image(src, title, children)).value) == [Dict(ImageDesc(src, src, title))]
    ensures title == "" ==>
      (Render(Image(src, title, children)).Ok? <==> RenderMultipleToString(children).Ok?)
    ensures title == "" && RenderMultipleToString(children).Ok? ==>
      Items(Render(Image(src, title, children)).value) ==
        [Dict(ImageDesc(src, src, RenderMultipleToString(children).value.0))]
  {
    if title != "" {
      ItemsOfLeaf(Dict(ImageDesc(src, src, title)));
    } else if RenderMultipleToString(children).Ok? {
      ItemsOfLeaf(Dict(ImageDesc(src, src, RenderMultipleToString(children).value.0)));
    }
  }

  /** Raw text is kept verbatim, a line break is one space, and a thematic
      break is a divider. */
  lemma LeafHandlers(content: string)
    ensures Items(Render(RawText(content)).value) == [Str(content)]
    ensures Items(Render(LineBreak).value) == [Str(" ")]
    ensures Items(Render(ThematicBreak).value) == [Dict(DividerDesc)]
  {
    ItemsOfLeaf(Str(content));
    ItemsOfLeaf(Str(" "));
    ItemsOfLeaf(Dict(DividerDesc));
  }

  /** A render result is one leaf or one flat list of leaves: no handler
      returns a list that holds a list. */
  predicate Shallow(o: Out) {
    o.Leaf? || forall i :: 0 <= i < |o.elems| ==> o.elems[i].Leaf?
  }

  lemma RenderIsShallow(n: Node)
    requires Render(n).Ok?
    ensures Shallow(Render(n).value)
  {
    match n
    case Document(_) =>
    case Heading(level, ch) => HeadingIsShallow(level, ch);
    case Paragraph(ch) => CombinedIsShallow(ch, TitledBlockFunc(TextBlock));
    case Quote(ch) => CombinedIsShallow(ch, TitledBlockFunc(QuoteBlock));
    case ThematicBreak =>
    case CodeBlock(language, ch) =>
      CodeBlockIsCombined(language, ch);
      CombinedIsShallow(ch, CodeBlockFunc(ResolveLanguage(language)));
    case List(_) =>
    case ListItem(_, _) =>
    case Table(_, _) =>
    case Strong(ch) => CombinedIsShallow(ch, SigilFunc("**", "**"));
    case Emphasis(ch) => CombinedIsShallow(ch, SigilFunc("*", "*"));
    case InlineCode(ch) => CombinedIsShallow(ch, SigilFunc("`", "`"));
    case Strikethrough(ch) => CombinedIsShallow(ch, SigilFunc("~", "~"));
    case EscapeSequence(ch) => CombinedIsShallow(ch, SigilFunc("\\", ""));
    case Link(_, _) =>
    case Image(_, _, _) =>
    case LineBreak =>
    case RawText(_) =>
  }

  lemma CombinedIsShallow(ns: seq<Node>, build: string -> Item)
    requires RenderCombined(ns, build).Ok?
    ensures Shallow(RenderCombined(ns, build).value)
  {
  }

  lemma HeadingIsShallow(level: int, children: seq<Node>)
    requires Render(Heading(level, children)).Ok?
    ensures Shallow(Render(Heading(level, children)).value)
  {
    var n := Heading(level, children);
    assert Render(n) == RenderHeading(n);
    var clamped := if level > 3 then 3 else level;
    assert RenderMultipleToString(children).Ok?;
    var (s, blocks) := RenderMultipleToString(children).value;
    match PyIndex(|HeadingTypes|, clamped - 1) {
      case Some(i) =>
        assert Render(n) == Ok(Nest(Lift(Combine(s, blocks, TitledBlockFunc(HeadingTypes[i])))));
      case None =>
        assert Render(n) == Ok(Nest(Lift(DictItems(blocks))));
    }
  }

  // ---------------------------------------------------------------------
  // The merge order

  /** An inline image placed before the rest of its paragraph always ends
      up after the paragraph's text block, ahead of the other set-aside
      blocks; its caption is its title, or else its alt text. */
  lemma ImageMovesAfterText(src: string, title: string, alt: seq<Node>, rest: seq<Node>)
    requires title != "" || RenderMultipleToString(alt).Ok?
    requires RenderMultipleToString(rest).Ok? && RenderMultipleToString(rest).value.0 != ""
    ensures Render(Paragraph([Image(src, title, alt)] + rest)).Ok?
    ensures Items(Render(Paragraph([Image(src, title, alt)] + rest)).value) ==
      [Dict(TitledDesc(TextBlock, RenderMultipleToString(rest).value.0)),
       Dict(ImageDesc(src, src, Caption(title, alt)))] +
      DictItems(RenderMultipleToString(rest).value.1)
  {
    var img, d := Image(src, title, alt), ImageDesc(src, src, Caption(title, alt));
    var s := RenderMultipleToString(rest).value.0;
    var blocks := RenderMultipleToString(rest).value.1;
    ImageIsLeaf(src, title, alt);
    LeafBlockIsSetAside(img, d, rest);
    assert RenderMultipleToString([img] + rest) == Ok((s, [d] + blocks));
    ParagraphOfParts([img] + rest, s, [d] + blocks);
    assert DictItems([d] + blocks) == [Dict(d)] + DictItems(blocks);
  }

  /** An image's caption: its title, or else its alt text's merged string. */
  function Caption(title: string, alt: seq<Node>): string
    requires title != "" || RenderMultipleToString(alt).Ok?
  {
    if title != "" then title else RenderMultipleToString(alt).value.0
  }

  /** An image renders to a single image dict, captioned with its title or
      else its alt text. */
  lemma ImageIsLeaf(src: string, title: string, alt: seq<Node>)
    requires title != "" || RenderMultipleToString(alt).Ok?
    ensures Render(Image(src, title, alt)) == Ok(Leaf(Dict(ImageDesc(src, src, Caption(title, alt)))))
  {
  }

  /** A paragraph whose children merge to a non-empty string is that
      string's text block followed by the set-aside dicts. */
  lemma ParagraphOfParts(ns: seq<Node>, s: string, ds: seq<Descriptor>)
    requires RenderMultipleToString(ns) == Ok((s, ds)) && s != ""
    ensures Render(Paragraph(ns)).Ok?
    ensures Items(Render(Paragraph(ns)).value) == [Dict(TitledDesc(TextBlock, s))] + DictItems(ds)
  {
    ParagraphRenders(ns);
  }

  /** A sibling that renders to a single non-text block contributes nothing
      to the joined string; its block is set aside ahead of its siblings'. */
  lemma LeafBlockIsSetAside(n: Node, d: Descriptor, rest: seq<Node>)
    requires Render(n) == Ok(Leaf(Dict(d))) && !d.IsText()
    ensures RenderMultipleToString([n] + rest) ==
      (var (s, blocks) :- RenderMultipleToString(rest); Ok((s, [d] + blocks)))
  {
    assert RenderEach([n]).Ok?;
    var os := RenderEach([n]).value;
    assert os == [Leaf(Dict(d))];
    ItemsOfLeaf(Dict(d));
    assert RenderMultiple([n]) == Ok([Dict(d)]);
    RenderMultipleConcat([n], rest);
    if RenderMultiple(rest).Ok? {
      BlockFirstIsSetAside(d, RenderMultiple(rest).value);
    }
  }

  // ---------------------------------------------------------------------
  // Trees the parser builds

  /** Inline content never raises. */
  lemma {:induction false} InlineTreeRenders(n: Node)
    requires InlineTree(n)
    ensures Render(n).Ok?
    decreases n, 1
  {
    match n
    case RawText(_) =>
    case LineBreak =>
    case Image(src, title, ch) =>
      if title == "" {
        AllInlineRender(ch);
        ImageRenders(src, title, ch);
      }
    case Link(target, ch) =>
      AllInlineRender(ch);
      LinkRenders(target, ch);
    case Strong(ch) =>
      AllInlineRender(ch);
      SigilWraps(n);
    case Emphasis(ch) =>
      AllInlineRender(ch);
      SigilWraps(n);
    case InlineCode(ch) =>
      AllInlineRender(ch);
      SigilWraps(n);
    case Strikethrough(ch) =>
      AllInlineRender(ch);
      SigilWraps(n);
    case EscapeSequence(ch) =>
      AllInlineRender(ch);
      SigilWraps(n);
  }

  lemma {:induction false} AllInlineRender(ns: seq<Node>)
    requires forall i :: 0 <= i < |ns| ==> InlineTree(ns[i])
    ensures RenderMultipleToString(ns).Ok?
    decreases ns, 0
  {
    forall i | 0 <= i < |ns| ensures Render(ns[i]).Ok? {
      InlineTreeRenders(ns[i]);
    }
  }

  lemma {:induction false} RowTreeRenders(r: Row)
    requires RowTree(r)
    ensures RenderTableRow(r).Ok?
    decreases r, 1
  {
    forall i | 0 <= i < |r.cells| ensures RenderTableCell(r.cells[i]).Ok? {
      AllInlineRender(r.cells[i].children);
    }
  }

  /** A block never raises and renders to dicts only: no bare string reaches
      the block level. */
  lemma {:induction false} BlockTreeRenders(n: Node)
    requires BlockTree(n)
    ensures Render(n).Ok? && AllDicts(Items(Render(n).value))
    decreases n, 1
  {
    match n
    case Heading(level, ch) =>
      AllInlineRender(ch);
      HeadingRenders(level, ch);
    case Paragraph(ch) =>
      AllInlineRender(ch);
      ParagraphRenders(ch);
    case Quote(ch) =>
      AllBlocksRender(ch);
      QuoteRenders(ch);
    case ThematicBreak =>
      LeafHandlers("");
    case CodeBlock(language, ch) =>
      AllInlineRender(ch);
      CodeBlockRenders(language, ch);
    case List(ch) =>
      AllBlocksRender(ch);
      ItemsOfNest(RenderMultiple(ch).value);
    case ListItem(leader, ch) =>
      AllBlocksRender(ch);
      ListItemRenders(leader, ch);
      ItemsOfLeaf(Render(n).value.item);
    case Table(header, body) =>
      RowTreeRenders(header);
      forall i | 0 <= i < |body| ensures RenderTableRow(body[i]).Ok? {
        RowTreeRenders(body[i]);
      }
      TableRenders(header, body);
      ItemsOfLeaf(Render(n).value.item);
  }

  lemma {:induction false} AllBlocksRender(ns: seq<Node>)
    requires forall i :: 0 <= i < |ns| ==> BlockTree(ns[i])
    ensures RenderMultiple(ns).Ok? && AllDicts(RenderMultiple(ns).value)
    decreases ns, 0
  {
    forall i | 0 <= i < |ns| ensures Render(ns[i]).Ok? && AllDicts(Items(Render(ns[i]).value)) {
      BlockTreeRenders(ns[i]);
    }
    FlattenAllDicts(RenderEach(ns).value);
  }

  /** A document the parser builds renders without raising to a flat list of
      descriptors ready for upload. */
  lemma DocumentTreeRenders(doc: Node)
    requires DocumentTree(doc)
    ensures Render(doc).Ok?
    ensures AllDicts(Items(Render(doc).value))
  {
    AllBlocksRender(doc.children);
    DocumentIsFlat(doc.children);
  }
}
