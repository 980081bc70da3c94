/**
  The string/block merge that every "render the children to one string"
  handler uses, stated on children that are already rendered and flattened:
  `render_multiple_to_string` (unwrap text blocks, join the strings, set the
  other dicts aside), `render_multiple_to_string_and_combine` (the joined
  string, wrapped, first; then the set-aside dicts) and the partition done by
  `render_list_item`.
*/
module Merge {
  import opened Blocks

  /** `toString`: a `TextBlock` dict unwraps to its title; a string or any
      other dict is kept as it is. */
  function Unwrap(x: Item): (r: Item)
    ensures x.Dict? && x.d.IsText() ==> r == Str(x.d.title)
    ensures x.Dict? && !x.d.IsText() ==> r == x
    ensures x.Str? ==> r == x
    ensures r.Dict? ==> !r.d.IsText()
  {
    if x.Dict? && x.d.IsText() then Str(x.d.title) else x
  }

  /** `[toString(b) for b in rendered]`. */
  function UnwrapAll(xs: seq<Item>): (r: seq<Item>)
    ensures |r| == |xs|
    ensures forall i :: 0 <= i < |xs| ==> r[i] == Unwrap(xs[i])
  {
    if xs == [] then [] else [Unwrap(xs[0])] + UnwrapAll(xs[1..])
  }

  /** `[s for s in rendered if isinstance(s, str)]`. */
  function StringsOf(xs: seq<Item>): seq<string> {
    if xs == [] then []
    else (if xs[0].Str? then [xs[0].s] else []) + StringsOf(xs[1..])
  }

  /** `[b for b in rendered if isinstance(b, dict)]`. */
  function DictsOf(xs: seq<Item>): seq<Descriptor> {
    if xs == [] then []
    else (if xs[0].Dict? then [xs[0].d] else []) + DictsOf(xs[1..])
  }

  /** `render_multiple_to_string` once the children are rendered: the joined
      string and the dicts that could not be turned into a string. */
  function ToStringParts(xs: seq<Item>): (r: (string, seq<Descriptor>))
    ensures forall d :: d in r.1 ==> !d.IsText()
    ensures |r.1| <= |xs|
  {
    var rendered := UnwrapAll(xs);
    ToStringPartsShape(rendered);
    (Join(StringsOf(rendered)), DictsOf(rendered))
  }

  /** The dicts kept after unwrapping are never text blocks. */
  lemma {:induction false} ToStringPartsShape(ys: seq<Item>)
    requires forall i :: 0 <= i < |ys| ==> ys[i].Dict? ==> !ys[i].d.IsText()
    ensures forall d :: d in DictsOf(ys) ==> !d.IsText()
    ensures |DictsOf(ys)| <= |ys|
  {
    if ys != [] {
      ToStringPartsShape(ys[1..]);
    }
  }

  // An independent, element-by-element reading of the merge.

  /** The text one rendered child contributes to the joined string. */
  function TextOf(x: Item): string {
    match x
    case Str(s) => s
    case Dict(d) => if d.IsText() then d.title else ""
  }

  /** The dicts one rendered child contributes to the set-aside blocks. */
  function ExtractedOf(x: Item): seq<Descriptor> {
    match x
    case Str(_) => []
    case Dict(d) => if d.IsText() then [] else [d]
  }

  /** Every bare string and every text-block title, in order. */
  function AllText(xs: seq<Item>): string {
    if xs == [] then "" else TextOf(xs[0]) + AllText(xs[1..])
  }

  /** Every dict that is not a text block, in order. */
  function AllExtracted(xs: seq<Item>): seq<Descriptor> {
    if xs == [] then [] else ExtractedOf(xs[0]) + AllExtracted(xs[1..])
  }

  /** The merge joins every bare string and text-block title in order, and
      sets aside exactly the other dicts in their original relative order. */
  lemma {:induction false} ToStringPartsSpec(xs: seq<Item>)
    ensures ToStringParts(xs) == (AllText(xs), AllExtracted(xs))
    decreases xs
  {
    if xs != [] {
      ToStringPartsSpec(xs[1..]);
      var ys := UnwrapAll(xs);
      assert ys[1..] == UnwrapAll(xs[1..]);
      assert StringsOf(ys) == (if ys[0].Str? then [ys[0].s] else []) + StringsOf(ys[1..]);
      JoinConcat(if ys[0].Str? then [ys[0].s] else [], StringsOf(ys[1..]));
    }
  }

  lemma {:induction false} JoinConcat(a: seq<string>, b: seq<string>)
    ensures Join(a + b) == Join(a) + Join(b)
    decreases a
  {
    if a == [] {
      assert a + b == b;
    } else {
      assert (a + b)[1..] == a[1..] + b;
      JoinConcat(a[1..], b);
    }
  }

  lemma {:induction false} AllTextConcat(a: seq<Item>, b: seq<Item>)
    ensures AllText(a + b) == AllText(a) + AllText(b)
    decreases a
  {
    if a == [] {
      assert a + b == b;
    } else {
      assert (a + b)[1..] == a[1..] + b;
      AllTextConcat(a[1..], b);
    }
  }

  lemma {:induction false} AllExtractedConcat(a: seq<Item>, b: seq<Item>)
    ensures AllExtracted(a + b) == AllExtracted(a) + AllExtracted(b)
    decreases a
  {
    if a == [] {
      assert a + b == b;
    } else {
      assert (a + b)[1..] == a[1..] + b;
      AllExtractedConcat(a[1..], b);
    }
  }

  /** Merging the children of two runs of siblings is merging each run and
      concatenating both parts. */
  lemma ToStringPartsConcat(a: seq<Item>, b: seq<Item>)
    ensures ToStringParts(a + b).0 == ToStringParts(a).0 + ToStringParts(b).0
    ensures ToStringParts(a + b).1 == ToStringParts(a).1 + ToStringParts(b).1
  {
    ToStringPartsSpec(a + b);
    ToStringPartsSpec(a);
    ToStringPartsSpec(b);
    AllTextConcat(a, b);
    AllExtractedConcat(a, b);
  }

  /** A block that is not a text block, placed before other children, adds
      nothing to the joined string and is set aside first. */
  lemma BlockFirstIsSetAside(d: Descriptor, xs: seq<Item>)
    requires !d.IsText()
    ensures ToStringParts([Dict(d)] + xs) == (ToStringParts(xs).0, [d] + ToStringParts(xs).1)
  {
    ToStringPartsConcat([Dict(d)], xs);
    ToStringPartsSpec([Dict(d)]);
    assert [Dict(d)][1..] == [];
    assert AllText([Dict(d)]) == "";
    assert AllExtracted([Dict(d)]) == [d];
    var (s, blocks) := ToStringParts(xs);
    assert "" + s == s;
  }

  /** Children that are all strings merge into their concatenation and set
      nothing aside. */
  lemma {:induction false} ToStringPartsOfStrings(ss: seq<string>, xs: seq<Item>)
    requires |xs| == |ss| && forall i :: 0 <= i < |ss| ==> xs[i] == Str(ss[i])
    ensures ToStringParts(xs) == (Join(ss), [])
    decreases ss
  {
    ToStringPartsSpec(xs);
    if ss != [] {
      ToStringPartsOfStrings(ss[1..], xs[1..]);
      ToStringPartsSpec(xs[1..]);
    }
  }

  /** `render_multiple_to_string_and_combine` once the children are merged:
      the string wrapped by `build` comes first, and only when it is
      non-empty, then every set-aside dict. */
  function Combine(s: string, blocks: seq<Descriptor>, build: string -> Item): (r: seq<Item>)
    ensures s != "" ==> |r| == |blocks| + 1 && r[0] == build(s) && r[1..] == DictItems(blocks)
    ensures s == "" ==> r == DictItems(blocks)
  {
    var ret: seq<Item> := [];
    var ret := if s != "" then ret + [build(s)] else ret;
    if blocks != [] then ret + DictItems(blocks) else ret
  }

  /** `[b for b in rendered if b['type'] != TextBlock]` in
      `render_list_item`: a bare string has no `'type'` and raises. */
  function ListItemChildren(xs: seq<Item>): (r: Result<seq<Descriptor>>)
    ensures r.Err? <==> !AllDicts(xs)
    ensures r.Ok? ==> r.value == AllExtracted(xs)
    decreases xs
  {
    if xs == [] then Ok([])
    else
      match xs[0]
      case Str(_) => Err(StringInListItem)
      case Dict(d) =>
        var rest :- ListItemChildren(xs[1..]);
        Ok(if d.IsText() then rest else [d] + rest)
  }

  /** `[s['title'] for s in rendered if s['type'] == TextBlock]`, reached
      only once every rendered child is known to be a dict. */
  function TextTitles(xs: seq<Item>): (r: seq<string>)
    requires AllDicts(xs)
    ensures Join(r) == AllText(xs)
    decreases xs
  {
    if xs == [] then []
    else
      var rest := TextTitles(xs[1..]);
      JoinConcat(if xs[0].d.IsText() then [xs[0].d.title] else [], rest);
      (if xs[0].d.IsText() then [xs[0].d.title] else []) + rest
  }

  /** On children that are all dicts, the list-item partition agrees with
      the general merge. */
  lemma ListItemAgreesWithMerge(xs: seq<Item>)
    requires AllDicts(xs)
    ensures ListItemChildren(xs) == Ok(ToStringParts(xs).1)
    ensures Join(TextTitles(xs)) == ToStringParts(xs).0
  {
    ToStringPartsSpec(xs);
  }
}
