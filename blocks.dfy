/**
  The values the Notion renderer produces.

  A rendered node is a Python `str`, a descriptor `dict` whose `'type'` key
  holds a notion-py block class, or a (possibly nested) list of those. The
  block classes are modelled as opaque tags, the dicts as `Descriptor`, and
  the Python exceptions the renderer can raise as `Result.Err`.
*/
module Blocks {

  /** The notion-py block classes used as the `'type'` of a descriptor. */
  datatype BlockType =
    | CodeBlock
    | DividerBlock
    | HeaderBlock
    | SubheaderBlock
    | SubsubheaderBlock
    | QuoteBlock
    | TextBlock
    | NumberedListBlock
    | BulletedListBlock
    | ImageBlock
    | CollectionViewBlock

  /** One `{"name": ..., "type": "text"}` entry of a table schema. */
  datatype Column = Column(name: string, columnType: string)

  /** A descriptor dict, one constructor per shape the renderer builds. */
  datatype Descriptor =
    | CodeDesc(language: string, titlePlaintext: string)
    | DividerDesc
      // headers, quotes and text blocks: `{'type': kind, 'title': ...}`
    | TitledDesc(kind: BlockType, title: string)
    | ListItemDesc(numbered: bool, title: string, children: seq<Descriptor>)
    | ImageDesc(displaySource: string, source: string, caption: string)
    | TableDesc(rows: seq<seq<string>>, schema: seq<Column>)
  {
    /** The value stored under the dict's `'type'` key. */
    function Type(): (t: BlockType)
      ensures t == TextBlock ==> TitledDesc?
    {
      match this
      case CodeDesc(_, _) => CodeBlock
      case DividerDesc => DividerBlock
      case TitledDesc(kind, _) => kind
      case ListItemDesc(numbered, _, _) => if numbered then NumberedListBlock else BulletedListBlock
      case ImageDesc(_, _, _) => ImageBlock
      case TableDesc(_, _) => CollectionViewBlock
    }

    /** A `TextBlock` dict, the only kind that unwraps to its title. */
    predicate IsText() {
      Type() == TextBlock
    }
  }

  /** A leaf of a render result: a Python `str` or a descriptor `dict`. */
  datatype Item = Str(s: string) | Dict(d: Descriptor)

  /** A render result: a leaf, or a Python list of further results. */
  datatype Out = Leaf(item: Item) | Nest(elems: seq<Out>)

  /** The exceptions a render pass can raise. */
  datatype RenderError =
      // `b['type']` evaluated on a bare `str` in a list item (TypeError)
    | StringInListItem
      // `[HeaderBlock, SubheaderBlock, SubsubheaderBlock][level-1]` out of range (IndexError)
    | HeadingLevelOutOfRange(level: int)

  datatype Option<+T> = None | Some(value: T)

  datatype Result<+T> = Ok(value: T) | Err(error: RenderError) {
    predicate IsFailure() {
      Err?
    }

    function PropagateFailure<U>(): Result<U>
      requires Err?
    {
      Err(error)
    }

    function Extract(): T
      requires Ok?
    {
      value
    }
  }

  /** Every element is a descriptor dict (no bare string). */
  predicate AllDicts(xs: seq<Item>) {
    forall i :: 0 <= i < |xs| ==> xs[i].Dict?
  }

  /** Descriptors as render leaves, in order. */
  function DictItems(ds: seq<Descriptor>): (r: seq<Item>)
    ensures |r| == |ds|
    ensures forall i :: 0 <= i < |ds| ==> r[i] == Dict(ds[i])
  {
    if ds == [] then [] else [Dict(ds[0])] + DictItems(ds[1..])
  }

  /** A flat Python list of leaves, as a render result's elements. */
  function Lift(xs: seq<Item>): (r: seq<Out>)
    ensures |r| == |xs|
    ensures forall i :: 0 <= i < |xs| ==> r[i] == Leaf(xs[i])
  {
    if xs == [] then [] else [Leaf(xs[0])] + Lift(xs[1..])
  }

  /** Python's `"".join(ss)`. */
  function Join(ss: seq<string>): string {
    if ss == [] then "" else ss[0] + Join(ss[1..])
  }
}
