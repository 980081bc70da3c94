# Notion Markdown renderer, modelled in Dafny

`NotionRenderer` in `notion_docs_sync/markdown.py` turns a Markdown syntax
tree, as the mistletoe parser builds it, into the block descriptors notion-py
uploads. Every handler except `render_image` with a title renders its
children first; a titled image never renders its alt text. A handler returns
a bare string, a descriptor dict, or one flat list of both: no handler returns
a list that holds a list (`RendererProperties.RenderIsShallow`). `flatten`
could splice any depth, but the renderer only ever gives it that one level
inside the sibling sequence.

This project models that renderer as pure functions over datatypes:

- `Blocks` (`blocks.dfy`) holds the result values:
  - `Item` is a string or a descriptor dict.
  - `Out` is a leaf or a Python list of further results.
  - `Descriptor` has one constructor per dict shape the handlers build, and its `'type'` is a `BlockType` tag.
  - `Result` models the two exceptions the renderer raises on the modelled inputs.
- `Flattening` (`flattening.dfy`) models `flatten`.
- `Merge` (`merge.dfy`) models the string/block merge. It runs on children that are already rendered:
  - `render_multiple_to_string`: unwrap text blocks, join the strings, set the other dicts aside;
  - `render_multiple_to_string_and_combine`: the wrapped string first, then the set-aside dicts;
  - the partition done by `render_list_item`.

  Beside them it gives an element-by-element reference reading (`AllText`, `AllExtracted`), and lemmas prove the merge equal to it.
- `Languages` (`languages.dfy`) holds the 68-label table of code languages and its first-match, ASCII case-insensitive prefix search.
- `Syntax` (`syntax.dfy`) holds the syntax tree. It also defines predicates for the shapes the parser builds (`InlineTree`, `BlockTree`, `DocumentTree`).
- `Renderer` (`renderer.dfy`) holds `render`, as a `match` over the node kinds, plus `render_multiple`, `render_multiple_to_string`, `render_multiple_to_string_and_combine` and every `render_*` handler. They are one mutually recursive group of functions.
- `RendererProperties` (`properties.dfy`) states, handler by handler, what each node kind renders to. It also proves that any tree of the parser's shape renders to a flat list of descriptors without either modelled exception; Python's recursion limit is not modelled (see below).

A rendered node's leaves are `Items(o)`, which is `list(flatten([o]))`. The handler lemmas are stated on leaves. A caller only ever sees a result after `render_multiple` has flattened it.

Python exceptions become `Err` values that propagate like the exception:

- `StringInListItem`: `b['type']` on a bare string inside `render_list_item`. This is a TypeError in Python.
- `HeadingLevelOutOfRange`: the heading type lookup at a level of -3 or below. This is an IndexError in Python.
  - Levels 0, -1 and -2 index the three heading types from the end, as Python lists do.
  - The lookup runs inside the block function. So it raises only when the heading's merged string is non-empty.

`rows` is built from `token.children` alone (notion_docs_sync/markdown.py:232), so the header row is not a row (`RendererProperties.TableRenders`).

## Model

| member | source | states |
|---|---|---|
| Flattening.Flatten | notion_docs_sync/markdown.py:14-19 | `list(flatten(...))`; no nested list by construction; stated by `FlattenConcat`, `FlattenLift`, `FlattenSplice`, `FlattenIdempotent` |
| Renderer.Render | notion_docs_sync/markdown.py:31-39 | dispatch on the node kind; stated per kind by the `RendererProperties` lemmas below |
| Renderer.RenderMultiple | notion_docs_sync/markdown.py:41-45 | stated by `RenderEach`, `RendererProperties.RenderMultipleConcat` and `RendererProperties.AllBlocksRender` |
| Renderer.RenderMultipleToString | notion_docs_sync/markdown.py:47-65 | stated by `Merge.ToStringPartsSpec` and `RendererProperties.LeafBlockIsSetAside` |
| Renderer.RenderCombined | notion_docs_sync/markdown.py:67-81 | stated by `Merge.Combine` and `RendererProperties.CombinedItems` |
| Renderer.RenderDocument | notion_docs_sync/markdown.py:83-84 | stated by `RendererProperties.DocumentIsFlat` and `RendererProperties.DocumentTreeRenders` |
| Renderer.RenderBlockCode | notion_docs_sync/markdown.py:86-173 | stated by `RendererProperties.CodeBlockRenders`, `RendererProperties.EmptyBlocksVanish` and `Languages.ResolveLanguage` |
| Renderer.RenderThematicBreak | notion_docs_sync/markdown.py:175-178 | stated by `RendererProperties.LeafHandlers` |
| Renderer.RenderHeading | notion_docs_sync/markdown.py:180-191 | stated by `RendererProperties.HeadingRenders`, `HeadingClamp` and `HeadingBelowOne` |
| Renderer.RenderQuote | notion_docs_sync/markdown.py:193-199 | stated by `RendererProperties.QuoteRenders` |
| Renderer.RenderParagraph | notion_docs_sync/markdown.py:201-207 | stated by `RendererProperties.ParagraphRenders`, `EmptyBlocksVanish` and `ImageMovesAfterText` |
| Renderer.RenderList | notion_docs_sync/markdown.py:209-212 | stated by `RendererProperties.ListIsTransparent` |
| Renderer.LeaderIsNumber | notion_docs_sync/markdown.py:215 | the `\d` test on the leader; stated by `RendererProperties.ListItemRenders` |
| Renderer.RenderListItem | notion_docs_sync/markdown.py:214-228 | stated by `RendererProperties.ListItemRenders`, `Merge.ListItemChildren` and `Merge.TextTitles` |
| Renderer.RenderTable | notion_docs_sync/markdown.py:230-243 | stated by `RendererProperties.TableRenders` and `Renderer.Schema` |
| Renderer.RenderTableRow | notion_docs_sync/markdown.py:245-249 | stated by `RendererProperties.TableRowRenders` and `Renderer.RenderCells` |
| Renderer.RenderTableCell | notion_docs_sync/markdown.py:251-256 | stated by `RendererProperties.TableRowRenders` |
| Renderer.RenderStrong | notion_docs_sync/markdown.py:258-259 | stated by `RendererProperties.SigilWraps` |
| Renderer.RenderEmphasis | notion_docs_sync/markdown.py:261-262 | stated by `RendererProperties.SigilWraps` |
| Renderer.RenderInlineCode | notion_docs_sync/markdown.py:264-265 | stated by `RendererProperties.SigilWraps` |
| Renderer.RenderRawText | notion_docs_sync/markdown.py:267-268 | stated by `RendererProperties.LeafHandlers` |
| Renderer.RenderStrikethrough | notion_docs_sync/markdown.py:270-271 | stated by `RendererProperties.SigilWraps` |
| Renderer.RenderLink | notion_docs_sync/markdown.py:273-275 | stated by `RendererProperties.LinkRenders` |
| Renderer.RenderEscapeSequence | notion_docs_sync/markdown.py:277-279 | stated by `RendererProperties.SigilWraps` |
| Renderer.RenderLineBreak | notion_docs_sync/markdown.py:281-282 | stated by `RendererProperties.LeafHandlers` |
| Renderer.RenderImage | notion_docs_sync/markdown.py:284-292 | stated by `RendererProperties.ImageRenders` and `ImageMovesAfterText` |
| Flattening.FlattenConcat | notion_docs_sync/markdown.py:14-19 | flattening two runs of siblings is flattening each and concatenating, in order |
| Flattening.FlattenLift | notion_docs_sync/markdown.py:14-19 | strings and dicts are yielded unchanged and in sibling order |
| Flattening.FlattenSplice | notion_docs_sync/markdown.py:14-19 | a nested list anywhere among the siblings is spliced in place, recursively |
| Flattening.FlattenIdempotent | notion_docs_sync/markdown.py:14-19 | flattening an already flat result changes nothing |
| Flattening.FlattenOfLeaves | notion_docs_sync/markdown.py:14-19 | siblings that are single leaves flatten to exactly those leaves, one per sibling |
| Flattening.FlattenAllDicts | notion_docs_sync/markdown.py:14-19 | flattening results that hold only dicts yields only dicts |
| Merge.Unwrap | notion_docs_sync/markdown.py:54-58 | `toString` turns a text block into its title; a string and any other dict come back unchanged, so no text block survives it |
| Merge.ToStringParts | notion_docs_sync/markdown.py:60-65 | no text block survives among the set-aside dicts, and there are at most as many as there were children |
| Merge.ToStringPartsSpec | notion_docs_sync/markdown.py:54-65 | the joined string is every bare string and text-block title in order; the set-aside part is exactly the other dicts in their original relative order |
| Merge.ToStringPartsConcat | notion_docs_sync/markdown.py:60-65 | merging two runs of children concatenates their strings and their set-aside dicts |
| Merge.ToStringPartsOfStrings | notion_docs_sync/markdown.py:60-65 | children that are all strings join to their concatenation and set nothing aside |
| Merge.BlockFirstIsSetAside | notion_docs_sync/markdown.py:60-65 | a leading non-text dict adds nothing to the string and is the first dict set aside |
| Merge.Combine | notion_docs_sync/markdown.py:75-81 | a non-empty string, wrapped, comes first and is followed by every set-aside dict; an empty string yields exactly the dicts |
| Merge.ListItemChildren | notion_docs_sync/markdown.py:221 | raises exactly when some rendered child is a bare string; otherwise the non-text dicts in order |
| Merge.TextTitles | notion_docs_sync/markdown.py:222 | joined, the text-block titles are the merged text of the children |
| Merge.ListItemAgreesWithMerge | notion_docs_sync/markdown.py:220-222 | on all-dict children the list-item partition equals the general string/block merge |
| Languages.Lower | notion_docs_sync/markdown.py:161 | the result is never an upper-case ASCII letter; 'A'..'Z' land in 'a'..'z' and every other character is fixed |
| Languages.LowerIdempotent | notion_docs_sync/markdown.py:161 | folding case twice is folding it once |
| Languages.LowerEqual | notion_docs_sync/markdown.py:161 | two characters compare equal under the case-insensitive match exactly when they are equal or the same ASCII letter in the two cases |
| Languages.StartsWithIgnoringCase | notion_docs_sync/markdown.py:161 | the `re.match` prefix test; stated through `FirstMatch`, `ResolveIsFirstMatch`, `ResolvedIsFirstMatch` and `FirstMatchIgnoresCase` |
| Languages.FirstMatch | notion_docs_sync/markdown.py:161 | the position of a label the language is a prefix of, ignoring case, with no earlier label matching; or the table's end when none matches |
| Languages.FirstMatchIsFirst | notion_docs_sync/markdown.py:161 | the search returns exactly the first matching position |
| Languages.ResolveLanguage | notion_docs_sync/markdown.py:160-165 | an empty language gives "Plain Text"; otherwise the result is "" exactly when no label starts with the language |
| Languages.ResolveIsFirstMatch | notion_docs_sync/markdown.py:160-161 | when `Labels[k]` is the first label the language is a prefix of, the result is `Labels[k]` |
| Languages.ResolvedIsFirstMatch | notion_docs_sync/markdown.py:160-161 | a non-empty result is a label the language is a prefix of, and no earlier label is |
| Languages.LabelsCount | notion_docs_sync/markdown.py:90-159 | the table holds 68 labels |
| Languages.FirstMatchIgnoresCase | notion_docs_sync/markdown.py:161 | languages equal up to ASCII case find the same label |
| Languages.ResolveIgnoresCase | notion_docs_sync/markdown.py:160-165 | languages equal up to ASCII case resolve to the same label |
| Renderer.RenderEach | notion_docs_sync/markdown.py:45 | siblings render without raising exactly when each does; one result per sibling, in order |
| Renderer.PyIndex | notion_docs_sync/markdown.py:188 | Python list indexing: defined exactly from `-len` to `len - 1`, negative positions counting from the end |
| Renderer.Schema | notion_docs_sync/markdown.py:234-237 | one `{"name": cell, "type": "text"}` column per header cell, in header order |
| Renderer.RenderRows | notion_docs_sync/markdown.py:232 | the body rows render without raising exactly when each does; one row per body row, in order |
| Renderer.RenderCells | notion_docs_sync/markdown.py:249 | a row renders without raising exactly when each cell does; one string per cell, in order |
| RendererProperties.RenderEachConcat | notion_docs_sync/markdown.py:45 | rendering two runs of siblings renders the first, then the second; the first exception wins |
| RendererProperties.RenderMultipleConcat | notion_docs_sync/markdown.py:41-45 | `render_multiple` over two runs is the first run's flat result followed by the second's |
| RendererProperties.CombinedItems | notion_docs_sync/markdown.py:67-81 | the combined result's leaves are the wrapped string (only when non-empty) and then every set-aside dict |
| RendererProperties.DocumentIsFlat | notion_docs_sync/markdown.py:83-84 | a document is the flat list of its children's results |
| RendererProperties.ListIsTransparent | notion_docs_sync/markdown.py:209-212 | a list of n items renders to exactly n list-item descriptors, each its item's own rendering, with no wrapping block |
| RendererProperties.ParagraphRenders | notion_docs_sync/markdown.py:201-207 | a paragraph is a text block titled with the merged string, only when that is non-empty, then the set-aside dicts |
| RendererProperties.QuoteRenders | notion_docs_sync/markdown.py:193-199 | a quote is a quote block titled with the merged string, only when that is non-empty, then the set-aside dicts |
| RendererProperties.CodeBlockRenders | notion_docs_sync/markdown.py:160-173 | a code block stores the resolved language and keeps its text in `title_plaintext`, only when the text is non-empty; the set-aside dicts follow |
| RendererProperties.EmptyBlocksVanish | notion_docs_sync/markdown.py:77-80 | an empty paragraph and an empty code block yield no block at all |
| RendererProperties.HeadingRenders | notion_docs_sync/markdown.py:180-191 | levels 1, 2 and 3 give Header, Subheader and Subsubheader, deeper levels Subsubheader; the title is the merged string |
| RendererProperties.HeadingClamp | notion_docs_sync/markdown.py:181-184 | every level above 3 renders exactly as level 3 |
| RendererProperties.HeadingBelowOne | notion_docs_sync/markdown.py:186-190 | levels 0, -1, -2 index the types from the end; below that the lookup raises exactly when the merged string is non-empty |
| RendererProperties.ListItemRenders | notion_docs_sync/markdown.py:214-228 | numbered exactly when the leader starts with a digit; title is the joined text-block titles; children are the other dicts in order; a bare string raises |
| RendererProperties.TableRenders | notion_docs_sync/markdown.py:230-243 | one text column per header cell in order; one row per body row (the header is not a row); raises exactly when a row does |
| RendererProperties.TableRowRenders | notion_docs_sync/markdown.py:245-256 | a row is one string per cell, the cell's merged string with its dicts dropped, and flattening it changes nothing |
| RendererProperties.SigilWraps | notion_docs_sync/markdown.py:258-279 | strong, emphasis, inline code, strikethrough and escape wrap a non-empty merged string in `**`, `*`, a backtick, `~` or a leading backslash, and emit no string for an empty one |
| RendererProperties.LinkRenders | notion_docs_sync/markdown.py:273-275 | a link always emits `[text](target)` first, even for empty text, then the set-aside dicts |
| RendererProperties.ImageRenders | notion_docs_sync/markdown.py:284-292 | source and display source are the URL; the caption is the title when non-empty (alt text not rendered), else the alt text's merged string |
| RendererProperties.LeafHandlers | notion_docs_sync/markdown.py:267-282 | raw text is kept verbatim, a line break is one space, and a thematic break is a divider |
| RendererProperties.LeafBlockIsSetAside | notion_docs_sync/markdown.py:54-65 | a sibling rendering to one non-text dict adds nothing to the string and is set aside ahead of its siblings' dicts |
| RendererProperties.RenderIsShallow | notion_docs_sync/markdown.py:31-292 | every successful render result is one leaf or one flat list of leaves: no handler returns a nested list |
| RendererProperties.HeadingIsShallow | notion_docs_sync/markdown.py:180-191 | a heading's result is a flat list of leaves |
| RendererProperties.CombinedIsShallow | notion_docs_sync/markdown.py:67-81 | a combined result is a flat list of leaves |
| RendererProperties.ImageIsLeaf | notion_docs_sync/markdown.py:284-292 | an image renders to one image dict whose caption is its title, or else its alt text's merged string |
| RendererProperties.ParagraphOfParts | notion_docs_sync/markdown.py:201-207 | a paragraph whose children merge to a non-empty string is that string's text block followed by the set-aside dicts |
| RendererProperties.ImageMovesAfterText | notion_docs_sync/markdown.py:75-81 | an image placed before the rest of a paragraph with non-empty text always ends up right after the paragraph's text block and ahead of the other set-aside dicts, captioned with its title or else its alt text |
| RendererProperties.InlineTreeRenders | notion_docs_sync/markdown.py:258-292 | inline content never raises |
| RendererProperties.AllInlineRender | notion_docs_sync/markdown.py:47-65 | inline siblings always merge to a string without raising |
| RendererProperties.RowTreeRenders | notion_docs_sync/markdown.py:245-256 | a row of inline cells never raises |
| RendererProperties.BlockTreeRenders | notion_docs_sync/markdown.py:175-256 | a block of the parser's shape never raises and renders to dicts only |
| RendererProperties.AllBlocksRender | notion_docs_sync/markdown.py:41-45 | block siblings render without raising to a flat list of dicts |
| RendererProperties.DocumentTreeRenders | notion_docs_sync/markdown.py:83-84 | a document of the parser's shape renders, with neither modelled exception, to a flat list of descriptors (the recursion limit is not modelled) |

## Left out

- RendererProperties.DocumentTreeRenders: Python's recursion limit is not modelled. Each nesting level of a quote or list costs several interpreter frames (render, handler, combine, merge, `render_multiple`, `flatten`, its generator), so a document nested some hundred-odd levels deep raises RecursionError in Python while the model renders it.
- `convert` and the mistletoe parser (notion_docs_sync/markdown.py:295-296) are not part of this model. The syntax tree is an input datatype. `Syntax.DocumentTree` describes only the parser's shapes made of node kinds that have a handler in this file. Tokens rendered by handlers inherited from `BaseRenderer` (auto-links, for example) fall outside it, so `RendererProperties.DocumentTreeRenders` promises "never raises" only for documents without them.
- The model describes Python before 3.10, where `collections.Iterable` (notion_docs_sync/markdown.py:16) still exists. From Python 3.10 on, that name is gone, so `flatten` raises AttributeError on its first element and every non-empty `render_multiple` raises.
- The reflective dispatch `self.render_map[token.__class__.__name__]` is a `match` over the node kinds that have a handler in this file. The handlers inherited from mistletoe's `BaseRenderer` are not part of this model.
- Logging is left out: the unknown-language, heading-clamp and dropped-cell-block messages. It has no effect on any result.
- The `notion.block` classes are opaque tags (`Blocks.BlockType`). Descriptor dicts are a datatype with one constructor per shape; Python dict key semantics are not modelled.
- Languages.StartsWithIgnoringCase: `re.match(re.escape(lang), label, re.I)` is modelled as an ASCII case-insensitive prefix test. Unicode case folding is not modelled.
- Renderer.LeaderIsNumber: `re.match(r'\d', leader)` is modelled as "the first character is an ASCII digit". Unicode digits are not modelled.
- Languages.ResolveLanguage: no lemma names the label a particular language resolves to, such as "py" giving "Python". Stating it needs the solver to unfold the 68-label table up to that label. The general first-match lemmas cover every language.
- Syntax.Node: table rows and cells are typed as `Row` and `Cell`, because mistletoe always builds them that way. A table whose header or children hold other node kinds cannot be expressed. The header is mandatory in `Syntax.Table`, so a table without a header row cannot be expressed either; `render_table` reads `token.header` unconditionally (notion_docs_sync/markdown.py:231) and would raise AttributeError on one.
- Python's generator laziness in `flatten` and in `next(...)` is not modelled, only the values they produce. Nothing in the renderer observes the difference.
