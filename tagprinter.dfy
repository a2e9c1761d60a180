/** `compound_string`, `list_string` and `value_string`: the text of a value, with a function
    applied to every leaf, and `json_string`, the same text with `place_quotes` as that function. */
module TagPrinter {
  import opened Tags
  import opened Quoting

  /** The function applied to every key and scalar: the default `lambda v, force=False: v`, or
      `place_quotes`.  Keys are passed with `force=True`, scalars without. */
  datatype Leaf = Verbatim | JsonQuotes

  function ApplyLeaf(leaf: Leaf, t: string, force: bool): (r: string)
    ensures leaf.Verbatim? ==> r == t
  {
    match leaf
    case Verbatim => t
    case JsonQuotes => PlaceQuotes(t, force)
  }

  /** `value_string(value, fun)`: a compound between braces, a list between brackets, a scalar
      through `fun`. */
  function ValueString(v: Value, leaf: Leaf): (r: string)
    ensures v.Compound? ==> |r| >= 2 && r[0] == '{' && r[|r| - 1] == '}'
    ensures v.List? ==> |r| >= 2 && r[0] == '[' && r[|r| - 1] == ']'
    decreases v, 1
  {
    match v
    case Compound(fs) => "{" + FieldsString(fs, leaf) + "}"
    case List(items) => "[" + ItemsString(items, leaf) + "]"
    case Scalar(t) => ApplyLeaf(leaf, t, false)
  }

  /** One entry of `compound_string`: `fun(key, force=True) + ':' + value_string(value)`. */
  function FieldString(f: Field, leaf: Leaf): string
    decreases f, 0
  {
    ApplyLeaf(leaf, f.key, true) + ":" + ValueString(f.val, leaf)
  }

  /** The entries of a compound joined with `,`: the first entry, then `,` before each other. */
  function FieldsString(fs: seq<Field>, leaf: Leaf): string
    decreases fs, 1
  {
    if fs == [] then "" else FieldString(fs[0], leaf) + CommaFields(fs[1..], leaf)
  }

  /** Each entry of `fs` after a `,`. */
  function CommaFields(fs: seq<Field>, leaf: Leaf): string
    decreases fs, 1
  {
    if fs == [] then "" else "," + FieldString(fs[0], leaf) + CommaFields(fs[1..], leaf)
  }

  /** The items of a list joined with `,`: the first item, then `,` before each other. */
  function ItemsString(items: seq<Value>, leaf: Leaf): string
    decreases items, 1
  {
    if items == [] then "" else ValueString(items[0], leaf) + CommaItems(items[1..], leaf)
  }

  /** Each item of `items` after a `,`. */
  function CommaItems(items: seq<Value>, leaf: Leaf): string
    decreases items, 1
  {
    if items == [] then "" else "," + ValueString(items[0], leaf) + CommaItems(items[1..], leaf)
  }

  /** `compound_string(tag, fun)`. */
  function CompoundString(fs: seq<Field>, leaf: Leaf): (r: string)
    ensures r == ValueString(Compound(fs), leaf)
  {
    "{" + FieldsString(fs, leaf) + "}"
  }

  /** `list_string(tag, fun)`. */
  function ListString(items: seq<Value>, leaf: Leaf): (r: string)
    ensures r == ValueString(List(items), leaf)
  {
    "[" + ItemsString(items, leaf) + "]"
  }

  /** `json_string(json)`: every key quoted, every scalar quoted unless it starts like a JSON
      literal or number or is quoted already. */
  function JsonString(v: Value): (r: string)
    ensures r == ValueString(Quoted(v), Verbatim)
  {
    QuotedText(v);
    ValueString(v, JsonQuotes)
  }

  /** The value whose plain text `json_string` prints: every key through `place_quotes` with
      `force=True`, every scalar through it without. */
  function Quoted(v: Value): (r: Value)
    decreases v, 1
  {
    match v
    case Scalar(t) => Scalar(PlaceQuotes(t, false))
    case Compound(fs) => Compound(QuotedFields(fs))
    case List(items) => List(QuotedItems(items))
  }

  function QuotedFields(fs: seq<Field>): (r: seq<Field>)
    ensures |r| == |fs|
    ensures forall k | 0 <= k < |fs| :: r[k] == Field(PlaceQuotes(fs[k].key, true), Quoted(fs[k].val))
    decreases fs, 0
  {
    if fs == [] then [] else [Field(PlaceQuotes(fs[0].key, true), Quoted(fs[0].val))] + QuotedFields(fs[1..])
  }

  function QuotedItems(items: seq<Value>): (r: seq<Value>)
    ensures |r| == |items|
    ensures forall k | 0 <= k < |items| :: r[k] == Quoted(items[k])
    decreases items, 0
  {
    if items == [] then [] else [Quoted(items[0])] + QuotedItems(items[1..])
  }

  /** Printing with `place_quotes` at every leaf is printing the quoted value as it is. */
  lemma {:induction false} QuotedText(v: Value)
    ensures ValueString(v, JsonQuotes) == ValueString(Quoted(v), Verbatim)
    decreases v, 2
  {
    match v
    case Scalar(t) =>
    case Compound(fs) => QuotedFieldsText(fs);
    case List(items) => QuotedItemsText(items);
  }

  lemma {:induction false} QuotedFieldsText(fs: seq<Field>)
    ensures FieldsString(fs, JsonQuotes) == FieldsString(QuotedFields(fs), Verbatim)
    ensures CommaFields(fs, JsonQuotes) == CommaFields(QuotedFields(fs), Verbatim)
    decreases fs, 1
  {
    if fs != [] {
      QuotedText(fs[0].val);
      QuotedFieldsText(fs[1..]);
      assert QuotedFields(fs)[1..] == QuotedFields(fs[1..]);
    }
  }

  lemma {:induction false} QuotedItemsText(items: seq<Value>)
    ensures ItemsString(items, JsonQuotes) == ItemsString(QuotedItems(items), Verbatim)
    ensures CommaItems(items, JsonQuotes) == CommaItems(QuotedItems(items), Verbatim)
    decreases items, 1
  {
    if items != [] {
      QuotedText(items[0]);
      QuotedItemsText(items[1..]);
      assert QuotedItems(items)[1..] == QuotedItems(items[1..]);
    }
  }
}
