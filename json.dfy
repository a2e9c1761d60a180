/** `parse_json`: the loose JSON of `tellraw` and `title` texts, read with the tag-notation
    scanner, first as a compound and then as a list. */
module LooseJson {
  import opened Wrappers
  import opened Text
  import opened Tags
  import opened TagGrammar
  import opened TagPrinter
  import opened Quoting
  import TagRoundTrip

  /** `parse_json(json)`: the stripped text read as a compound, or, when that raises anything,
      as a list; a `ValueError` of the list reading becomes "Invalid Json", any other exception
      of it is raised as it is.  Text after the value is not looked at. */
  function ParseJson(json: string): (r: Result<Value>)
    ensures r.Ok? ==> r.value.Compound? || r.value.List?
    ensures r.Err? ==> r.error == InvalidJson || !IsValueError(r.error)
  {
    ReadJson(Strip(json))
  }

  /** The reading of `parse_json` once the text is stripped. */
  function ReadJson(t: string): (r: Result<Value>)
    ensures r.Ok? ==> r.value.Compound? || r.value.List?
    ensures r.Err? ==> r.error == InvalidJson || !IsValueError(r.error)
  {
    var c := ParseCompound(t, 0);
    if c.Ok? then Ok(c.value.1)
    else
      var l := ParseList(t, 0);
      if l.Ok? then Ok(l.value.1)
      else if IsValueError(l.error) then Err(InvalidJson)
      else Err(l.error)
  }

  /** Whitespace around the text changes nothing. */
  lemma {:induction false} ParseJsonStrips(json: string)
    ensures ParseJson(Strip(json)) == ParseJson(json)
  {
    StripIdempotent(json);
  }

  /** A text that neither starts nor ends with whitespace is its own stripped form. */
  lemma {:induction false} StripBracketed(s: string)
    requires |s| >= 2 && !IsSpace(s[0]) && !IsSpace(s[|s| - 1])
    ensures Strip(s) == s
  {
    StripLeftNoSpace(s);
    StripRightNoSpace(s);
  }

  /** A printed compound is read back as that compound. */
  lemma {:induction false} ParseJsonCompound(fs: seq<Field>)
    requires DistinctKeys(fs) && TagRoundTrip.PrintableFields(fs)
    ensures ParseJson(CompoundString(fs, Verbatim)) == Ok(Compound(fs))
  {
    var s := CompoundString(fs, Verbatim);
    StripBracketed(s);
    TagRoundTrip.CompoundRoundTrip(fs);
  }

  /** A printed list is not a compound, and is read back as that list. */
  lemma {:induction false} ParseJsonList(items: seq<Value>)
    requires TagRoundTrip.PrintableItems(items)
    ensures ParseJson(ListString(items, Verbatim)) == Ok(List(items))
  {
    var s := ListString(items, Verbatim);
    StripBracketed(s);
    TagRoundTrip.ListRoundTrip(items);
    ReadListText(s);
  }

  /** A text that opens with `[` is not a compound, and is read as a list. */
  lemma {:induction false} ReadListText(t: string)
    requires t != [] && t[0] == '[' && ParseList(t, 0).Ok?
    ensures ReadJson(t) == Ok(ParseList(t, 0).value.1)
  {
    assert ParseCompound(t, 0) == Err(NotOpened('{'));
  }

  /** `parse_json(json_string(tag))`: the compound comes back with every key and every scalar
      as `place_quotes` left it, when those quoted entries are ones the scanner reads back. */
  lemma {:induction false} ParseJsonString(fs: seq<Field>)
    requires DistinctKeys(QuotedFields(fs)) && TagRoundTrip.PrintableFields(QuotedFields(fs))
    ensures ParseJson(JsonString(Compound(fs))) == Ok(Compound(QuotedFields(fs)))
  {
    ParseJsonCompound(QuotedFields(fs));
  }

  /** The documented `{text: This is some text, color: red}`: read back with every key and value
      quoted. */
  lemma ParseJsonStringExample()
    ensures ParseJson(JsonString(Compound([Field("text", Scalar("This is some text")), Field("color", Scalar("red"))])))
      == Ok(Compound([Field("\"text\"", Scalar("\"This is some text\"")), Field("\"color\"", Scalar("\"red\""))]))
  {
    var fs := [Field("text", Scalar("This is some text")), Field("color", Scalar("red"))];
    var qs := [Field("\"text\"", Scalar("\"This is some text\"")), Field("\"color\"", Scalar("\"red\""))];
    ExampleQuoted(fs, qs);
    ExamplePrintable(qs);
    ParseJsonString(fs);
  }

  lemma {:induction false} ExampleQuoted(fs: seq<Field>, qs: seq<Field>)
    requires fs == [Field("text", Scalar("This is some text")), Field("color", Scalar("red"))]
    requires qs == [Field("\"text\"", Scalar("\"This is some text\"")), Field("\"color\"", Scalar("\"red\""))]
    ensures QuotedFields(fs) == qs
  {
    ExampleQuotes(fs[0].key, fs[0].val.token, fs[1].key, fs[1].val.token);
    TwoFieldsQuoted(fs, qs);
  }

  /** `place_quotes` on the keys and values of the example. */
  lemma {:induction false} ExampleQuotes(k0: string, v0: string, k1: string, v1: string)
    requires k0 == "text" && v0 == "This is some text" && k1 == "color" && v1 == "red"
    ensures PlaceQuotes(k0, true) == "\"text\"" && PlaceQuotes(v0, false) == "\"This is some text\""
    ensures PlaceQuotes(k1, true) == "\"color\"" && PlaceQuotes(v1, false) == "\"red\""
  {
    assert "\"" + k0 + "\"" == "\"text\"";
    assert "\"" + k1 + "\"" == "\"color\"";
    assert "\"" + v1 + "\"" == "\"red\"";
    assert "\"" + v0 + "\"" == "\"This is some text\"";
    assert v0[..4] != "true" by { assert v0[..4][0] == 'T'; }
    QuotesAdded(k0, true);
    QuotesAdded(v0, false);
    QuotesAdded(k1, true);
    QuotesAdded(v1, false);
  }

  /** Two scalar entries, each key and value passed through `place_quotes`. */
  lemma {:induction false} TwoFieldsQuoted(fs: seq<Field>, qs: seq<Field>)
    requires |fs| == 2 && |qs| == 2 && fs[0].val.Scalar? && fs[1].val.Scalar?
    requires qs[0] == Field(PlaceQuotes(fs[0].key, true), Scalar(PlaceQuotes(fs[0].val.token, false)))
    requires qs[1] == Field(PlaceQuotes(fs[1].key, true), Scalar(PlaceQuotes(fs[1].val.token, false)))
    ensures QuotedFields(fs) == qs
  {
    var r := QuotedFields(fs);
    assert Quoted(fs[0].val) == Scalar(PlaceQuotes(fs[0].val.token, false));
    assert Quoted(fs[1].val) == Scalar(PlaceQuotes(fs[1].val.token, false));
    assert |r| == 2 && r[0] == qs[0] && r[1] == qs[1];
  }

  lemma {:induction false} ExamplePrintable(qs: seq<Field>)
    requires qs == [Field("\"text\"", Scalar("\"This is some text\"")), Field("\"color\"", Scalar("\"red\""))]
    ensures DistinctKeys(qs) && TagRoundTrip.PrintableFields(qs)
  {
    ExampleTokens(qs[0].key, qs[0].val.token, qs[1].key, qs[1].val.token);
    TwoFieldsPrintable(qs);
  }

  /** The keys and values of the example, quoted, are read back as they are written. */
  lemma {:induction false} ExampleTokens(k0: string, v0: string, k1: string, v1: string)
    requires k0 == "\"text\"" && v0 == "\"This is some text\"" && k1 == "\"color\"" && v1 == "\"red\""
    ensures TagRoundTrip.PlainKey(k0) && TagRoundTrip.PlainKey(k1) && k0 != k1
    ensures TagRoundTrip.PlainQuoted(v0) && TagRoundTrip.PlainQuoted(v1)
  {
    assert k0[1] != k1[1];
  }

  /** A compound of two scalar entries with distinct plain keys and quoted values is printable. */
  lemma {:induction false} TwoFieldsPrintable(qs: seq<Field>)
    requires |qs| == 2 && qs[0].val.Scalar? && qs[1].val.Scalar? && qs[0].key != qs[1].key
    requires TagRoundTrip.PlainKey(qs[0].key) && TagRoundTrip.PlainKey(qs[1].key)
    requires TagRoundTrip.PlainQuoted(qs[0].val.token) && TagRoundTrip.PlainQuoted(qs[1].val.token)
    ensures DistinctKeys(qs) && TagRoundTrip.PrintableFields(qs)
  {
  }

  /** A key, or a scalar that does not start like a JSON literal or number, gets quotes unless it
      starts with one. */
  lemma {:induction false} QuotesAdded(value: string, force: bool)
    requires value != [] && value[0] != '"'
    requires !force ==> !MatchesJsonValue(value)
    ensures PlaceQuotes(value, force) == "\"" + value + "\""
  {
    PlaceQuotesCases(value, force);
  }

  /** An empty or blank text raises `IndexError`: neither reading finds a first character. */
  lemma {:induction false} ParseJsonBlank(json: string)
    requires Strip(json) == []
    ensures ParseJson(json) == Err(IndexOutOfRange)
  {
    EmptyRead();
  }

  /** The empty text is neither a compound nor a list. */
  lemma EmptyRead()
    ensures ReadJson([]) == Err(IndexOutOfRange)
  {
    assert ParseList([], 0) == Err(IndexOutOfRange);
    assert !IsValueError(IndexOutOfRange);
  }
}
