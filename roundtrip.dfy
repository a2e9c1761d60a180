/** Reading back what the printer writes: `parse_compound(compound_string(t)) == t` and
    `parse_list(list_string(t)) == t` for every value the scanner can read back as written. */
module TagRoundTrip {
  import opened Wrappers
  import opened Text
  import opened Tags
  import opened TagGrammar
  import opened TagPrinter
  import TagParser

  /** `t` occurs in `s` at index `i`, character by character. */
  predicate At(s: string, i: nat, t: string)
    decreases |t|
  {
    if t == [] then i <= |s| else i < |s| && s[i] == t[0] && At(s, i + 1, t[1..])
  }

  lemma {:induction false} AtLength(s: string, i: nat, t: string)
    requires At(s, i, t)
    ensures i + |t| <= |s|
    decreases |t|
  {
    if t != [] {
      AtLength(s, i + 1, t[1..]);
    }
  }

  lemma {:induction false} AtConcat(s: string, i: nat, a: string, b: string)
    requires At(s, i, a + b)
    ensures At(s, i, a) && At(s, i + |a|, b)
    decreases |a|
  {
    if a == [] {
      assert a + b == b;
      AtLength(s, i, b);
    } else {
      assert (a + b)[0] == a[0] && (a + b)[1..] == a[1..] + b;
      AtConcat(s, i + 1, a[1..], b);
    }
  }

  lemma {:induction false} AtIndex(s: string, i: nat, t: string, k: nat)
    requires At(s, i, t) && k < |t|
    ensures i + k < |s| && s[i + k] == t[k]
    decreases k
  {
    AtLength(s, i, t);
    if k > 0 {
      AtIndex(s, i + 1, t[1..], k - 1);
    }
  }

  /** Every text occurs in itself from its start. */
  lemma {:induction false} AtSuffix(s: string, i: nat)
    requires i <= |s|
    ensures At(s, i, s[i..])
    decreases |s| - i
  {
    if i < |s| {
      assert s[i..][1..] == s[i + 1..];
      AtSuffix(s, i + 1);
    }
  }

  /** A quoted token the scanner reads back as written: a quote at both ends and neither a
      quote nor a backslash between them. */
  predicate PlainQuoted(t: string) {
    |t| >= 2 && t[0] == '"' && t[|t| - 1] == '"'
    && forall k | 1 <= k < |t| - 1 :: t[k] != '"' && t[k] != '\\'
  }

  /** A bare token the scanner reads back as written: no stop character of its context and not
      opening a compound, a list or a quoted token.  It may be empty; only the first item of a
      list may not be (see `PrintableItems`). */
  predicate PlainBare(t: string, inCompound: bool) {
    (forall k | 0 <= k < |t| :: !IsStop(t[k], inCompound))
    && (t != [] ==> t[0] != '{' && t[0] != '[' && t[0] != '"')
  }

  /** A key `parse_key` reads back as written: no `:`, no whitespace, and not starting with the
      `}` that would end the compound. */
  predicate PlainKey(key: string) {
    (forall j | 0 <= j < |key| :: key[j] != ':' && !IsSpace(key[j]))
    && (key != [] ==> key[0] != '}')
  }

  /** The values whose text the scanner reads back into the same value. */
  predicate Printable(v: Value, inCompound: bool)
    decreases v, 1
  {
    match v
    case Scalar(t) => PlainQuoted(t) || PlainBare(t, inCompound)
    case Compound(fs) => DistinctKeys(fs) && PrintableFields(fs)
    case List(items) => PrintableItems(items)
  }

  predicate PrintableFields(fs: seq<Field>)
    decreases fs, 0
  {
    forall k | 0 <= k < |fs| :: PlainKey(fs[k].key) && Printable(fs[k].val, true)
  }

  /** The items of a list the scanner reads back: each one printable, the first one not the
      empty token (a list of that one item prints as `[]`, and one with more items starts with
      the `[,` on which the loop of `parse_list` as written makes no progress). */
  predicate PrintableItems(items: seq<Value>)
    decreases items, 1
  {
    PrintableEach(items) && (items != [] ==> items[0] != Scalar(""))
  }

  predicate PrintableEach(items: seq<Value>)
    decreases items, 0
  {
    forall k | 0 <= k < |items| :: Printable(items[k], false)
  }

  lemma {:induction false} AtSlice(s: string, i: nat, t: string)
    requires At(s, i, t)
    ensures i + |t| <= |s| && s[i..i + |t|] == t
    decreases |t|
  {
    AtLength(s, i, t);
    if t != [] {
      AtSlice(s, i + 1, t[1..]);
      assert s[i..i + |t|] == [s[i]] + s[i + 1..i + 1 + |t[1..]|];
      assert t == [t[0]] + t[1..];
    }
  }

  /** The scan reads an escaped text followed by `"` as the text itself with that quote, and
      ends one past the quote. */
  lemma {:induction false} StringScanEscaped(s: string, j: nat, b: string)
    requires At(s, j, Escaped(b) + "\"")
    ensures StringScan(s, j, false) == Ok((j + |Escaped(b)| + 1, b + "\""))
    decreases |b|
  {
    if b == [] {
      AtIndex(s, j, Escaped(b) + "\"", 0);
      assert b + "\"" == "\"";
    } else {
      var n := EscapedHead(s, j, b);
      StringScanEscaped(s, j + n, b[1..]);
      if n == 2 {
        ScanEscapeStep(s, j);
      } else {
        ScanPlainStep(s, j);
      }
      QuoteAfter(b);
    }
  }

  /** The escaped first character of `b`, of width `n`, and then the rest of `b` escaped. */
  lemma {:induction false} EscapedHead(s: string, j: nat, b: string) returns (n: nat)
    requires b != [] && At(s, j, Escaped(b) + "\"")
    ensures |Escaped(b)| == n + |Escaped(b[1..])| && At(s, j + n, Escaped(b[1..]) + "\"")
    ensures n == 1 ==> j < |s| && s[j] == b[0] && s[j] != '\\' && s[j] != '"'
    ensures n == 2 ==> j + 1 < |s| && s[j] == '\\' && s[j + 1] == b[0]
    ensures n == 1 || n == 2
  {
    var head := if b[0] == '"' || b[0] == '\\' then ['\\', b[0]] else [b[0]];
    var rest := Escaped(b[1..]);
    assert Escaped(b) == head + rest;
    assert Escaped(b) + "\"" == head + (rest + "\"");
    AtConcat(s, j, head, rest + "\"");
    AtIndex(s, j, head, 0);
    n := |head|;
    if n == 2 {
      AtIndex(s, j, head, 1);
    }
  }

  /** The first character of `b` in front of the rest of `b` and a `"`. */
  lemma {:induction false} QuoteAfter(b: string)
    requires b != []
    ensures [b[0]] + (b[1..] + "\"") == b + "\""
  {
  }

  /** A character other than `\` and `"` is copied, and the scan goes on after it. */
  lemma {:induction false} ScanPlainStep(s: string, j: nat)
    requires j < |s| && s[j] != '\\' && s[j] != '"' && StringScan(s, j + 1, false).Ok?
    ensures var rest := StringScan(s, j + 1, false).value;
      StringScan(s, j, false) == Ok((rest.0, [s[j]] + rest.1))
  {
  }

  /** A `\` is dropped and the character after it copied, whatever it is. */
  lemma {:induction false} ScanEscapeStep(s: string, j: nat)
    requires j + 1 < |s| && s[j] == '\\' && StringScan(s, j + 2, false).Ok?
    ensures var rest := StringScan(s, j + 2, false).value;
      StringScan(s, j, false) == Ok((rest.0, [s[j + 1]] + rest.1))
  {
    assert StringScan(s, j, false) == StringScan(s, j + 1, true);
  }

  /** `parse_string` on `"` + `Escaped(b)` + `"`: the token is `b` between quotes, each
      backslash dropped and the character after it copied, and the index is one past the
      closing quote. */
  lemma {:induction false} ParseStringEscaped(s: string, i: nat, b: string)
    requires At(s, i, "\"" + Escaped(b) + "\"")
    ensures ParseString(s, i) == Ok((i + |Escaped(b)| + 2, "\"" + b + "\""))
  {
    assert "\"" + Escaped(b) + "\"" == "\"" + (Escaped(b) + "\"");
    AtConcat(s, i, "\"", Escaped(b) + "\"");
    AtIndex(s, i, "\"", 0);
    StringScanEscaped(s, i + 1, b);
    assert "\"" + (b + "\"") == "\"" + b + "\"";
  }

  /** `a"b` escaped. */
  lemma EscapedQuote()
    ensures Escaped("a\"b") == "a\\\"b"
  {
    var b := "a\"b";
    assert b[1..] == "\"b" && b[1..][1..] == "b";
    assert Escaped("b") == "b";
    assert Escaped("\"b") == "\\\"b";
  }

  /** `parse_string(u'"a\\"b"')`: the escaped quote is kept without its backslash. */
  lemma {:induction false} ParseStringEscapedQuote(s: string)
    requires s == "\"a\\\"b\""
    ensures ParseString(s, 0) == Ok((6, "\"a\"b\""))
  {
    EscapedQuote();
    assert "\"" + "a\\\"b" + "\"" == s;
    assert "\"" + "a\"b" + "\"" == "\"a\"b\"";
    AtSuffix(s, 0);
    assert s[0..] == s;
    ParseStringEscaped(s, 0, "a\"b");
  }

  /** `parse_string(u'"This is a string" It ended at the "')`: the token up to the first closing
      quote, and the index one past it. */
  lemma {:induction false} ParseStringExample(s: string)
    requires s == "\"This is a string\" It ended at the \""
    ensures ParseString(s, 0) == Ok((18, "\"This is a string\""))
  {
    var b := "This is a string";
    ExampleStringText(s);
    assert '"' !in b && '\\' !in b;
    assert |b| + 2 == 18 && "\"" + b + "\"" == "\"This is a string\"";
    QuotedFirst(s, b, " It ended at the \"");
  }

  lemma {:induction false} ExampleStringText(s: string)
    requires s == "\"This is a string\" It ended at the \""
    ensures s == "\"" + "This is a string" + "\"" + " It ended at the \""
  {
  }

  /** A text that opens with a quoted token free of quotes and backslashes is read up to the
      token's closing quote, whatever follows. */
  lemma {:induction false} QuotedFirst(s: string, b: string, rest: string)
    requires s == "\"" + b + "\"" + rest && '"' !in b && '\\' !in b
    ensures ParseString(s, 0) == Ok((|b| + 2, "\"" + b + "\""))
  {
    AtSuffix(s, 0);
    assert s[0..] == s;
    AtConcat(s, 0, "\"" + b + "\"", rest);
    ParseStringEscaped(s, 0, b);
  }

  /** The scan of a quoted token without quotes or backslashes inside stops at the first `"`. */
  lemma {:induction false} StringScanPlain(s: string, j: nat, b: string)
    requires At(s, j, b + "\"")
    requires forall k | 0 <= k < |b| :: b[k] != '"' && b[k] != '\\'
    ensures StringScan(s, j, false) == Ok((j + |b| + 1, b + "\""))
    decreases |b|
  {
    AtIndex(s, j, b + "\"", 0);
    if b == [] {
      assert b + "\"" == "\"";
    } else {
      assert s[j] == b[0];
      assert b + "\"" == [b[0]] + (b[1..] + "\"");
      AtConcat(s, j, [b[0]], b[1..] + "\"");
      StringScanPlain(s, j + 1, b[1..]);
    }
  }

  /** The quoted-token branch of `parse_value`. */
  lemma {:induction false} QuotedStep(s: string, p: nat, inCompound: bool, e: nat, w: string)
    requires p < |s| && s[p] == '"' && StringScan(s, p + 1, false) == Ok((e, w))
    ensures ParseValue(s, p, inCompound) == Ok((e, Scalar("\"" + w)))
  {
  }

  lemma {:induction false} QuotedParsed(t: string, inCompound: bool, s: string, p: nat)
    requires PlainQuoted(t) && At(s, p, t)
    ensures ParseValue(s, p, inCompound) == Ok((p + |t|, Scalar(t)))
  {
    QuotedScan(t, s, p);
    QuotedStep(s, p, inCompound, p + |t|, t[1..]);
    assert "\"" + t[1..] == t;
  }

  /** After the opening quote of a printed quoted token, the scan reads the rest of it. */
  lemma {:induction false} QuotedScan(t: string, s: string, p: nat)
    requires PlainQuoted(t) && At(s, p, t)
    ensures p < |s| && s[p] == '"'
    ensures StringScan(s, p + 1, false) == Ok((p + |t|, t[1..]))
  {
    QuotedOpen(t, s, p);
    var b := t[1..|t| - 1];
    QuotedBody(t, b);
    StringScanPlain(s, p + 1, b);
    assert p + 1 + |b| + 1 == p + |t|;
  }

  /** The body of a printed quoted token holds neither a quote nor a backslash. */
  lemma {:induction false} QuotedBody(t: string, b: string)
    requires PlainQuoted(t) && b == t[1..|t| - 1]
    ensures forall k | 0 <= k < |b| :: b[k] != '"' && b[k] != '\\'
  {
    forall k | 0 <= k < |b|
      ensures b[k] != '"' && b[k] != '\\'
    {
      assert b[k] == t[k + 1];
    }
  }

  /** A printed quoted token starts with its quote, and the text after the quote is the body
      followed by the closing quote. */
  lemma {:induction false} QuotedOpen(t: string, s: string, p: nat)
    requires |t| >= 2 && t[0] == '"' && t[|t| - 1] == '"' && At(s, p, t)
    ensures p < |s| && s[p] == '"'
    ensures t[1..] == t[1..|t| - 1] + "\"" && At(s, p + 1, t[1..|t| - 1] + "\"")
  {
    assert t == "\"" + t[1..];
    AtConcat(s, p, "\"", t[1..]);
    AtIndex(s, p, "\"", 0);
    assert t[1..] == t[1..|t| - 1] + "\"";
  }

  /** A bare token free of stop characters and followed by one ends at that stop character. */
  lemma {:induction false} BareEndAt(s: string, j: nat, t: string, inCompound: bool)
    requires At(s, j, t) && j + |t| < |s| && IsStop(s[j + |t|], inCompound)
    requires forall k | 0 <= k < |t| :: !IsStop(t[k], inCompound)
    ensures BareEnd(s, j, inCompound) == j + |t|
    decreases |t|
  {
    if t != [] {
      AtIndex(s, j, t, 0);
      AtConcat(s, j, [t[0]], t[1..]);
      assert [t[0]] + t[1..] == t;
      BareEndAt(s, j + 1, t[1..], inCompound);
    }
  }

  /** The bare-token branch of `parse_value`. */
  lemma {:induction false} BareStep(s: string, p: nat, inCompound: bool, e: nat)
    requires p < |s| && s[p] != '{' && s[p] != '[' && s[p] != '"'
    requires BareEnd(s, p, inCompound) == e && IsStop(s[e], inCompound)
    ensures ParseValue(s, p, inCompound) == Ok((e, Scalar(s[p..e])))
  {
  }

  lemma {:induction false} BareParsed(t: string, inCompound: bool, s: string, p: nat)
    requires PlainBare(t, inCompound) && At(s, p, t)
    requires p + |t| < |s| && IsStop(s[p + |t|], inCompound)
    ensures ParseValue(s, p, inCompound) == Ok((p + |t|, Scalar(t)))
  {
    if t != [] {
      AtIndex(s, p, t, 0);
    }
    BareEndAt(s, p, t, inCompound);
    AtSlice(s, p, t);
    BareStep(s, p, inCompound, p + |t|);
  }

  /** The scan of `parse_key` over a key without `:` or whitespace, followed by `:`. */
  lemma {:induction false} KeyScanAt(key: string, s: string, i: nat)
    requires At(s, i, key + ":")
    requires forall j | 0 <= j < |key| :: key[j] != ':' && !IsSpace(key[j])
    ensures i < |s| && KeyScan(s, i) == (i + |key|, key)
    decreases |key|
  {
    AtIndex(s, i, key + ":", 0);
    if key != [] {
      assert key + ":" == [key[0]] + (key[1..] + ":");
      AtConcat(s, i, [key[0]], key[1..] + ":");
      AtIndex(s, i + 1, key[1..] + ":", 0);
      KeyScanAt(key[1..], s, i + 1);
      assert [key[0]] + key[1..] == key;
    }
  }

  lemma {:induction false} KeyParsed(key: string, s: string, i: nat)
    requires PlainKey(key) && At(s, i, key + ":")
    ensures ParseKey(s, i) == (i + |key|, key)
  {
    KeyScanAt(key, s, i);
  }

  /** The first character of the text of a value printed in a list is not the `]` that would
      end the list. */
  lemma {:induction false} ItemStart(v: Value)
    requires Printable(v, false) && v != Scalar("")
    ensures ValueString(v, Verbatim) != [] && ValueString(v, Verbatim)[0] != ']'
  {
  }

  /** The first character of the text of an entry is not the `}` that would end the compound. */
  lemma {:induction false} FieldStart(f: Field)
    requires PlainKey(f.key)
    ensures FieldString(f, Verbatim) != [] && FieldString(f, Verbatim)[0] != '}'
  {
    if f.key == [] {
      assert FieldString(f, Verbatim)[0] == ':';
    } else {
      assert FieldString(f, Verbatim)[0] == f.key[0];
    }
  }

  /** A printed value followed by a stop character of its context is read back whole. */
  lemma {:induction false} ValueParsed(v: Value, inCompound: bool, s: string, p: nat)
    requires Printable(v, inCompound) && At(s, p, ValueString(v, Verbatim))
    requires p + |ValueString(v, Verbatim)| < |s| && IsStop(s[p + |ValueString(v, Verbatim)|], inCompound)
    ensures ParseValue(s, p, inCompound) == Ok((p + |ValueString(v, Verbatim)|, v))
    decreases v, 3
  {
    match v
    case Scalar(t) =>
      if PlainQuoted(t) {
        QuotedParsed(t, inCompound, s, p);
      } else {
        BareParsed(t, inCompound, s, p);
      }
    case Compound(fs) =>
      AtIndex(s, p, ValueString(v, Verbatim), 0);
      CompoundParsed(fs, s, p);
    case List(items) =>
      AtIndex(s, p, ValueString(v, Verbatim), 0);
      ListParsed(items, s, p);
  }

  // Compounds

  /** A printed compound is read back whole, up to and including its `}`. */
  lemma {:induction false} CompoundParsed(fs: seq<Field>, s: string, p: nat)
    requires DistinctKeys(fs) && PrintableFields(fs)
    requires At(s, p, "{" + FieldsString(fs, Verbatim) + "}")
    ensures ParseCompound(s, p) == Ok((p + |FieldsString(fs, Verbatim)| + 2, Compound(fs)))
    decreases fs, 3
  {
    var body := FieldsString(fs, Verbatim);
    BraceOpen(s, p, body);
    EntriesParsed(fs, s, p + 1);
    CompoundOpened(s, p, |body|, fs);
  }

  /** After a `{`, `parse_compound` gives whatever its loop gives. */
  lemma {:induction false} CompoundOpened(s: string, p: nat, m: nat, fs: seq<Field>)
    requires p < |s| && s[p] == '{' && EntriesRead(s, p + 1, p + 1 + m + 1, fs)
    ensures ParseCompound(s, p) == Ok((p + m + 2, Compound(fs)))
  {
  }

  /** Text that starts with `{` at `p` continues at `p + 1` with what follows the brace. */
  lemma {:induction false} BraceOpen(s: string, p: nat, body: string)
    requires At(s, p, "{" + body + "}")
    ensures p < |s| && s[p] == '{' && At(s, p + 1, body + "}")
  {
    assert "{" + body + "}" == "{" + (body + "}");
    AtConcat(s, p, "{", body + "}");
    AtIndex(s, p, "{", 0);
  }

  /** The entries of a printed compound, from just after its `{`, are read up to and including
      its `}`. */
  lemma {:induction false} EntriesParsed(fs: seq<Field>, s: string, start: nat)
    requires DistinctKeys(fs) && PrintableFields(fs)
    requires At(s, start, FieldsString(fs, Verbatim) + "}")
    ensures EntriesRead(s, start, start + |FieldsString(fs, Verbatim)| + 1, fs)
    decreases fs, 2
  {
    if fs == [] {
      NoEntriesParsed(s, start);
    } else {
      FirstThenRest(fs, s, start);
    }
  }

  /** An empty compound: the `}` right after the `{`. */
  lemma {:induction false} NoEntriesParsed(s: string, start: nat)
    requires At(s, start, FieldsString([], Verbatim) + "}")
    ensures EntriesRead(s, start, start + |FieldsString([], Verbatim)| + 1, [])
  {
    assert FieldsString([], Verbatim) + "}" == "}";
    AtIndex(s, start, "}", 0);
    TagParser.LoopExit(s, start, start, []);
  }

  /** A compound with entries: the first one, then the others, are read up to its `}`. */
  lemma {:induction false} FirstThenRest(fs: seq<Field>, s: string, start: nat)
    requires fs != [] && DistinctKeys(fs) && PrintableFields(fs)
    requires At(s, start, FieldsString(fs, Verbatim) + "}")
    ensures EntriesRead(s, start, start + |FieldsString(fs, Verbatim)| + 1, fs)
    decreases fs, 1
  {
    var e := FirstFieldText(fs, s, start);
    FirstThenRestAt(fs, s, start, e, start + |FieldsString(fs, Verbatim)| + 1);
  }

  /** The loop of `parse_compound`, from just after the `{` at `start - 1`, reads the entries
      `fs` and ends at `end`. */
  predicate EntriesRead(s: string, start: nat, end: nat, fs: seq<Field>)
  {
    CompoundLoop(s, start, start, []) == Ok((end, Compound(fs)))
  }

  /** The first entry up to `e`, then the others: all of them are read, up to `end`. */
  lemma {:induction false} FirstThenRestAt(fs: seq<Field>, s: string, start: nat, e: nat, end: nat)
    requires fs != [] && DistinctKeys(fs) && PrintableFields(fs)
    requires FirstThen(s, start, e, fs) && end == e + |CommaFields(fs[1..], Verbatim)| + 1
    ensures EntriesRead(s, start, end, fs)
    decreases fs, 0
  {
    PrintableFieldsSplit(fs);
    FirstStepAt(fs[0], fs[1..], s, start, e);
    FirstKeysNew(fs);
    assert [fs[0]] + fs[1..] == fs;
    LoopRest(fs[1..], s, start, e, [fs[0]], end, fs);
  }

  /** Reading the first entry `f` moves the loop from `start` to the end `e` of its text. */
  lemma {:induction false} FirstStepAt(f: Field, rest: seq<Field>, s: string, start: nat, e: nat)
    requires PlainKey(f.key) && Printable(f.val, true)
    requires At(s, start, FieldString(f, Verbatim)) && e == start + |FieldString(f, Verbatim)|
    requires FieldsAt(s, e, rest)
    ensures start < e && CompoundLoop(s, start, start, []) == CompoundLoop(s, start, e, [f])
    decreases f, 3
  {
    FieldsAtStop(s, e, rest);
    FieldStart(f);
    FirstEntryRead(f, s, start, e);
  }

  /** The text of the entries of a compound: the first entry up to `e`, then the others, each
      after its `,`, and the `}`. */
  lemma {:induction false} FirstFieldText(fs: seq<Field>, s: string, start: nat) returns (e: nat)
    requires fs != [] && At(s, start, FieldsString(fs, Verbatim) + "}")
    ensures FirstThen(s, start, e, fs)
    ensures e + |CommaFields(fs[1..], Verbatim)| == start + |FieldsString(fs, Verbatim)|
  {
    var first := FieldString(fs[0], Verbatim);
    var tail := CommaFields(fs[1..], Verbatim) + "}";
    assert FieldsString(fs, Verbatim) + "}" == first + tail;
    AtConcat(s, start, first, tail);
    e := start + |first|;
    CommaFieldsAt(fs[1..], s, e);
  }

  /** The first entry of `fs` occurs in `s` from `start` up to `e`, and the others after it. */
  predicate FirstThen(s: string, start: nat, e: nat, fs: seq<Field>)
  {
    fs != [] && At(s, start, FieldString(fs[0], Verbatim)) && e == start + |FieldString(fs[0], Verbatim)|
    && FieldsAt(s, e, fs[1..])
  }

  /** What follows the entries: a `,` when there are more, the `}` otherwise. */
  lemma {:induction false} CommaFieldsStart(fs: seq<Field>)
    ensures (CommaFields(fs, Verbatim) + "}")[0] == if fs == [] then '}' else ','
  {
  }

  /** The entries of `fs` occur in `s` from `e`, each after its `,`, and then the `}`. */
  predicate FieldsAt(s: string, e: nat, fs: seq<Field>)
    decreases |fs|
  {
    if e >= |s| then false
    else if fs == [] then s[e] == '}'
    else (s[e] == ',' && At(s, e + 1, FieldString(fs[0], Verbatim))
          && FieldsAt(s, e + 1 + |FieldString(fs[0], Verbatim)|, fs[1..]))
  }

  lemma {:induction false} CommaFieldsAt(fs: seq<Field>, s: string, e: nat)
    requires At(s, e, CommaFields(fs, Verbatim) + "}")
    ensures FieldsAt(s, e, fs)
    decreases |fs|
  {
    CommaFieldsStart(fs);
    AtIndex(s, e, CommaFields(fs, Verbatim) + "}", 0);
    if fs != [] {
      var first := FieldString(fs[0], Verbatim);
      var tail := CommaFields(fs[1..], Verbatim) + "}";
      assert CommaFields(fs, Verbatim) + "}" == "," + (first + tail);
      AtConcat(s, e, ",", first + tail);
      AtConcat(s, e + 1, first, tail);
      CommaFieldsAt(fs[1..], s, e + 1 + |first|);
    }
  }

  lemma {:induction false} FieldsAtFirst(s: string, e: nat, fs: seq<Field>)
    requires FieldsAt(s, e, fs) && fs != []
    ensures e < |s| && s[e] == ',' && At(s, e + 1, FieldString(fs[0], Verbatim))
    ensures FieldsAt(s, e + 1 + |FieldString(fs[0], Verbatim)|, fs[1..])
  {
  }

  lemma {:induction false} NewKeysFirst(acc: seq<Field>, fs: seq<Field>)
    requires NewKeys(acc, fs) && fs != []
    ensures !HasKey(acc, fs[0].key) && NewKeys(acc + [fs[0]], fs[1..])
  {
  }

  lemma {:induction false} FieldsAtStop(s: string, e: nat, fs: seq<Field>)
    requires FieldsAt(s, e, fs)
    ensures e < |s| && IsStop(s[e], true)
  {
  }

  lemma {:induction false} PrintableFieldsSplit(fs: seq<Field>)
    requires fs != [] && PrintableFields(fs)
    ensures PlainKey(fs[0].key) && Printable(fs[0].val, true) && PrintableFields(fs[1..])
  {
    assert forall k | 0 <= k < |fs| - 1 :: fs[1..][k] == fs[k + 1];
  }

  lemma {:induction false} CommaFieldsLength(fs: seq<Field>)
    requires fs != []
    ensures |CommaFields(fs, Verbatim)| == 1 + |FieldString(fs[0], Verbatim)| + |CommaFields(fs[1..], Verbatim)|
  {
  }

  /** The entries of a printed compound after the `acc` already read and before the `}`, each
      after its `,`, are read up to and including the `}`. */
  lemma {:induction false} LoopRest(fs: seq<Field>, s: string, start: nat, e: nat, acc: seq<Field>,
                                    end: nat, all: seq<Field>)
    requires start < e && PrintableFields(fs) && NewKeys(acc, fs) && FieldsAt(s, e, fs)
    requires end == e + |CommaFields(fs, Verbatim)| + 1 && all == acc + fs
    ensures CompoundLoop(s, start, e, acc) == Ok((end, Compound(all)))
    decreases fs, 2
  {
    if fs == [] {
      TagParser.LoopExit(s, start, e, acc);
      assert all == acc;
    } else {
      var next := LoopRestStep(fs, s, start, e, acc, end, all);
      LoopRest(fs[1..], s, start, next, acc + [fs[0]], end, all);
    }
  }

  /** One pass of `LoopRest`: the first entry is read, and what remains is of the same shape. */
  lemma {:induction false} LoopRestStep(fs: seq<Field>, s: string, start: nat, e: nat, acc: seq<Field>,
                     end: nat, all: seq<Field>) returns (next: nat)
    requires start < e && PrintableFields(fs) && NewKeys(acc, fs) && FieldsAt(s, e, fs)
    requires end == e + |CommaFields(fs, Verbatim)| + 1 && all == acc + fs && fs != []
    ensures start < next && PrintableFields(fs[1..]) && NewKeys(acc + [fs[0]], fs[1..]) && FieldsAt(s, next, fs[1..])
    ensures end == next + |CommaFields(fs[1..], Verbatim)| + 1 && all == (acc + [fs[0]]) + fs[1..]
    ensures CompoundLoop(s, start, e, acc) == CompoundLoop(s, start, next, acc + [fs[0]])
    decreases fs, 1
  {
    next := RestShape(fs, s, e, acc, end, all);
    CommaEntryRead(fs[0], s, start, e, acc, next);
  }

  /** The facts about the first entry that reading it needs, and the shape of the rest. */
  lemma {:induction false} RestShape(fs: seq<Field>, s: string, e: nat, acc: seq<Field>, end: nat, all: seq<Field>)
    returns (next: nat)
    requires PrintableFields(fs) && NewKeys(acc, fs) && FieldsAt(s, e, fs)
    requires end == e + |CommaFields(fs, Verbatim)| + 1 && all == acc + fs && fs != []
    ensures next == e + 1 + |FieldString(fs[0], Verbatim)| && next < |s| && IsStop(s[next], true)
    ensures e < |s| && s[e] == ',' && At(s, e + 1, FieldString(fs[0], Verbatim))
    ensures PlainKey(fs[0].key) && Printable(fs[0].val, true) && !HasKey(acc, fs[0].key)
    ensures PrintableFields(fs[1..]) && NewKeys(acc + [fs[0]], fs[1..]) && FieldsAt(s, next, fs[1..])
    ensures end == next + |CommaFields(fs[1..], Verbatim)| + 1 && all == (acc + [fs[0]]) + fs[1..]
  {
    next := e + 1 + |FieldString(fs[0], Verbatim)|;
    FieldsAtFirst(s, e, fs);
    NewKeysFirst(acc, fs);
    FieldsAtStop(s, next, fs[1..]);
    PrintableFieldsSplit(fs);
    CommaFieldsLength(fs);
    assert all == (acc + [fs[0]]) + fs[1..];
  }

  /** The first pass of the loop of `parse_compound`, on an entry that is not `}`. */
  lemma {:induction false} FirstEntryStep(s: string, start: nat, acc: seq<Field>)
    requires start < |s| && s[start] != '}'
    ensures CompoundLoop(s, start, start, acc) == CompoundEntry(s, start, start, acc)
  {
  }

  /** A later pass of the loop of `parse_compound`: a `,`, then an entry that is not `}`. */
  lemma {:induction false} CommaEntryStep(s: string, start: nat, e: nat, acc: seq<Field>)
    requires start < e && e + 1 < |s| && s[e] == ',' && s[e + 1] != '}'
    ensures CompoundLoop(s, start, e, acc) == CompoundEntry(s, start, e + 1, acc)
  {
    assert s[e..e + 1] == ",";
    assert Expect(s, e, ",") == Ok(e + 1);
  }

  /** The first entry of a compound is read and becomes its only entry so far. */
  lemma {:induction false} FirstEntryRead(f: Field, s: string, start: nat, e: nat)
    requires start < |s| && PlainKey(f.key) && Printable(f.val, true)
    requires At(s, start, FieldString(f, Verbatim))
    requires e == start + |FieldString(f, Verbatim)| && e < |s| && IsStop(s[e], true)
    ensures CompoundLoop(s, start, start, []) == CompoundLoop(s, start, e, [f])
    decreases f, 2
  {
    FieldStart(f);
    AtIndex(s, start, FieldString(f, Verbatim), 0);
    FirstEntryStep(s, start, []);
    EntryRead(f, s, start, start, [], e);
    assert [] + [f] == [f];
  }

  /** A `,` and then an entry whose key is new: the entry is appended and the loop goes on
      after its value. */
  lemma {:induction false} CommaEntryRead(f: Field, s: string, start: nat, e: nat, acc: seq<Field>, next: nat)
    requires start < e && e < |s| && s[e] == ','
    requires PlainKey(f.key) && Printable(f.val, true) && !HasKey(acc, f.key)
    requires At(s, e + 1, FieldString(f, Verbatim))
    requires next == e + 1 + |FieldString(f, Verbatim)| && next < |s| && IsStop(s[next], true)
    ensures CompoundLoop(s, start, e, acc) == CompoundLoop(s, start, next, acc + [f])
    decreases f, 2
  {
    FieldStart(f);
    AtIndex(s, e + 1, FieldString(f, Verbatim), 0);
    CommaEntryStep(s, start, e, acc);
    EntryRead(f, s, start, e + 1, acc, next);
  }

  /** One entry `key:value` followed by a `,` or `}` is read and appended to the entries. */
  lemma {:induction false} EntryRead(f: Field, s: string, start: nat, i: nat, acc: seq<Field>, e: nat)
    requires PlainKey(f.key) && Printable(f.val, true) && !HasKey(acc, f.key)
    requires At(s, i, FieldString(f, Verbatim))
    requires e == i + |FieldString(f, Verbatim)| && e < |s| && IsStop(s[e], true)
    ensures i < |s|
    ensures CompoundEntry(s, start, i, acc) == CompoundLoop(s, start, e, acc + [f])
    decreases f, 1
  {
    EntryParts(f, s, i, e);
    EntryAppended(s, start, i, acc, i + |f.key|, f, e);
  }

  /** The key of a printed entry is read up to its `:`, and its value up to `e`. */
  lemma {:induction false} EntryParts(f: Field, s: string, i: nat, e: nat)
    requires PlainKey(f.key) && Printable(f.val, true)
    requires At(s, i, FieldString(f, Verbatim))
    requires e == i + |FieldString(f, Verbatim)| && e < |s| && IsStop(s[e], true)
    ensures i < |s| && ParseKey(s, i) == (i + |f.key|, f.key)
    ensures ValueReadTo(s, i + |f.key| + 1, e, f.val)
    decreases f, 0
  {
    var vs := ValueString(f.val, Verbatim);
    assert FieldString(f, Verbatim) == f.key + ":" + vs;
    AtConcat(s, i, f.key + ":", vs);
    KeyParsed(f.key, s, i);
    var p := i + |f.key| + 1;
    assert p + |vs| == e;
    ValueParsed(f.val, true, s, p);
  }

  /** Inside a compound, the value `v` is read from `p` up to `e`. */
  predicate ValueReadTo(s: string, p: nat, e: nat, v: Value)
  {
    ParseValue(s, p, true) == Ok((e, v))
  }

  /** An entry whose key is new is appended, and the loop goes on after its value. */
  lemma {:induction false} EntryAppended(s: string, start: nat, i: nat, acc: seq<Field>, k: nat, f: Field, e: nat)
    requires i < |s| && e < |s| && !HasKey(acc, f.key)
    requires ParseKey(s, i) == (k, f.key) && ValueReadTo(s, k + 1, e, f.val)
    ensures CompoundEntry(s, start, i, acc) == CompoundLoop(s, start, e, acc + [f])
  {
    PutAppends(acc, f.key, f.val);
    TagParser.EntryStep(s, start, i, acc, k, f.key, ParseValue(s, k + 1, true));
  }

  /** Each entry of `fs` has a key found neither in `acc` nor among the entries before it. */
  predicate NewKeys(acc: seq<Field>, fs: seq<Field>)
    decreases |fs|
  {
    fs == [] || (!HasKey(acc, fs[0].key) && NewKeys(acc + [fs[0]], fs[1..]))
  }

  lemma {:induction false} NewKey(acc: seq<Field>, fs: seq<Field>)
    requires fs != [] && DistinctKeys(acc + fs)
    ensures !HasKey(acc, fs[0].key)
  {
    assert (acc + fs)[|acc|] == fs[0];
    HasKeyKeys(acc, fs[0].key);
    KeysOfIndex(acc);
    forall k | 0 <= k < |acc| ensures KeysOf(acc)[k] != fs[0].key {
      assert (acc + fs)[k] == acc[k];
    }
  }

  /** Entries whose keys are all different, read after `acc`, each bring a new key. */
  lemma {:induction false} DistinctNewKeys(acc: seq<Field>, fs: seq<Field>)
    requires DistinctKeys(acc + fs)
    ensures NewKeys(acc, fs)
    decreases |fs|
  {
    if fs != [] {
      NewKey(acc, fs);
      assert (acc + [fs[0]]) + fs[1..] == acc + fs;
      DistinctNewKeys(acc + [fs[0]], fs[1..]);
    }
  }

  /** The entries of a dict: the first key is new, and so is each later one. */
  lemma {:induction false} FirstKeysNew(fs: seq<Field>)
    requires fs != [] && DistinctKeys(fs)
    ensures !HasKey([], fs[0].key) && NewKeys([fs[0]], fs[1..])
  {
    assert [] + fs == fs;
    DistinctNewKeys([], fs);
    assert [] + [fs[0]] == [fs[0]];
  }

  // Lists

  lemma {:induction false} ListParsed(items: seq<Value>, s: string, p: nat)
    requires PrintableItems(items)
    requires At(s, p, "[" + ItemsString(items, Verbatim) + "]")
    ensures ParseList(s, p) == Ok((p + |ItemsString(items, Verbatim)| + 2, List(items)))
    decreases items, 2
  {
    var e := ListOpen(items, s, p);
    if items == [] {
      ListExit(s, p + 1, true, []);
    } else {
      ListItemsParsed(items, s, p, e);
    }
  }

  /** A non-empty list: the first item up to `e`, then the others. */
  lemma {:induction false} ListItemsParsed(items: seq<Value>, s: string, p: nat, e: nat)
    requires items != [] && p + 1 < |s| && s[p + 1] != ']'
    requires ParseList(s, p) == ListLoop(s, p + 1, true, [])
    requires Printable(items[0], false) && PrintableEach(items[1..])
    requires At(s, p + 1, ValueString(items[0], Verbatim))
    requires e == p + 1 + |ValueString(items[0], Verbatim)| && e < |s| && IsStop(s[e], false)
    requires At(s, e, CommaItems(items[1..], Verbatim) + "]")
    requires e + |CommaItems(items[1..], Verbatim)| == p + 1 + |ItemsString(items, Verbatim)|
    ensures ParseList(s, p) == Ok((p + |ItemsString(items, Verbatim)| + 2, List(items)))
    decreases items, 1
  {
    var first, rest := items[0], items[1..];
    ValueParsed(first, false, s, p + 1);
    ListFirstStep(s, p + 1, e, first);
    ListRest(rest, s, e, [first]);
    assert [first] + rest == items;
  }

  /** The text of a list: `[`, then `]` at once when it is empty; otherwise the first item up
      to `e`, and the other items after it. */
  lemma {:induction false} ListOpen(items: seq<Value>, s: string, p: nat) returns (e: nat)
    requires PrintableItems(items) && At(s, p, "[" + ItemsString(items, Verbatim) + "]")
    ensures p + 1 < |s| && s[p] == '[' && ParseList(s, p) == ListLoop(s, p + 1, true, [])
    ensures items == [] ==> s[p + 1] == ']' && |ItemsString(items, Verbatim)| == 0
    ensures items != [] ==> s[p + 1] != ']' && Printable(items[0], false) && PrintableEach(items[1..])
    ensures items != [] ==> At(s, p + 1, ValueString(items[0], Verbatim))
    ensures items != [] ==> e == p + 1 + |ValueString(items[0], Verbatim)| && e < |s| && IsStop(s[e], false)
    ensures items != [] ==> At(s, e, CommaItems(items[1..], Verbatim) + "]")
    ensures items != [] ==> e + |CommaItems(items[1..], Verbatim)| == p + 1 + |ItemsString(items, Verbatim)|
  {
    e := p + 1;
    var body := ItemsString(items, Verbatim);
    assert "[" + body + "]" == "[" + (body + "]");
    AtConcat(s, p, "[", body + "]");
    AtIndex(s, p, "[", 0);
    AtIndex(s, p + 1, body + "]", 0);
    if items != [] {
      var first := ValueString(items[0], Verbatim);
      var tail := CommaItems(items[1..], Verbatim) + "]";
      assert body + "]" == first + tail;
      ItemStart(items[0]);
      AtConcat(s, p + 1, first, tail);
      e := p + 1 + |first|;
      CommaItemsStart(items[1..]);
      AtIndex(s, e, tail, 0);
      assert forall k | 0 <= k < |items| - 1 :: items[1..][k] == items[k + 1];
    }
  }

  /** What follows the items: a `,` when there are more, the `]` otherwise. */
  lemma {:induction false} CommaItemsStart(items: seq<Value>)
    ensures (CommaItems(items, Verbatim) + "]")[0] == if items == [] then ']' else ','
  {
  }

  /** The first pass of the loop of `parse_list`, on an item that is not `]`. */
  lemma {:induction false} ListFirstStep(s: string, i: nat, e: nat, v: Value)
    requires i < |s| && s[i] != ']' && ParseValue(s, i, false) == Ok((e, v))
    ensures ListLoop(s, i, true, []) == ListLoop(s, e, false, [v])
  {
    assert [] + [v] == [v];
  }

  /** A later pass of the loop of `parse_list`: a `,`, then an item. */
  lemma {:induction false} ListCommaStep(s: string, i: nat, e: nat, v: Value, acc: seq<Value>)
    requires i + 1 < |s| && s[i] == ',' && ParseValue(s, i + 1, false) == Ok((e, v))
    ensures ListLoop(s, i, false, acc) == ListLoop(s, e, false, acc + [v])
  {
    assert s[i..i + 1] == ",";
  }

  /** The loop of `parse_list` ends at `]`. */
  lemma {:induction false} ListExit(s: string, i: nat, first: bool, acc: seq<Value>)
    requires i < |s| && s[i] == ']'
    ensures ListLoop(s, i, first, acc) == Ok((i + 1, List(acc)))
  {
  }

  /** The items of a printed list after the `acc` already read and before the `]`, each after
      its `,`, are read up to and including the `]`. */
  lemma {:induction false} ListRest(items: seq<Value>, s: string, i: nat, acc: seq<Value>)
    requires PrintableEach(items)
    requires At(s, i, CommaItems(items, Verbatim) + "]")
    ensures ListLoop(s, i, false, acc) == Ok((i + |CommaItems(items, Verbatim)| + 1, List(acc + items)))
    decreases items, 1
  {
    var next := CommaItemText(items, s, i);
    if items == [] {
      ListExit(s, i, false, acc);
      assert acc + items == acc;
    } else {
      ValueParsed(items[0], false, s, i + 1);
      ListRest(items[1..], s, next, acc + [items[0]]);
      ListRestCons(items, s, i, acc, next);
    }
  }

  /** A `,`, the first item, and the rest of the items read from after it: the items read. */
  lemma {:induction false} ListRestCons(items: seq<Value>, s: string, i: nat, acc: seq<Value>, next: nat)
    requires items != [] && i + 1 < |s| && s[i] == ','
    requires ParseValue(s, i + 1, false) == Ok((next, items[0]))
    requires ListLoop(s, next, false, acc + [items[0]])
      == Ok((next + |CommaItems(items[1..], Verbatim)| + 1, List((acc + [items[0]]) + items[1..])))
    requires next + |CommaItems(items[1..], Verbatim)| == i + |CommaItems(items, Verbatim)|
    ensures ListLoop(s, i, false, acc) == Ok((i + |CommaItems(items, Verbatim)| + 1, List(acc + items)))
  {
    ListCommaStep(s, i, next, items[0], acc);
    assert (acc + [items[0]]) + items[1..] == acc + items;
  }

  /** The text from a `,` that starts an item: the item up to `next`, then the rest. */
  lemma {:induction false} CommaItemText(items: seq<Value>, s: string, i: nat) returns (next: nat)
    requires PrintableEach(items) && At(s, i, CommaItems(items, Verbatim) + "]")
    ensures i < |s|
    ensures items == [] ==> s[i] == ']' && |CommaItems(items, Verbatim)| == 0
    ensures items != [] ==> i + 1 < |s| && s[i] == ','
    ensures items != [] ==> Printable(items[0], false) && PrintableEach(items[1..])
    ensures items != [] ==> At(s, i + 1, ValueString(items[0], Verbatim))
    ensures items != [] ==> next == i + 1 + |ValueString(items[0], Verbatim)| && next < |s| && IsStop(s[next], false)
    ensures items != [] ==> At(s, next, CommaItems(items[1..], Verbatim) + "]")
    ensures items != [] ==> next + |CommaItems(items[1..], Verbatim)| == i + |CommaItems(items, Verbatim)|
  {
    next := i;
    CommaItemsStart(items);
    AtIndex(s, i, CommaItems(items, Verbatim) + "]", 0);
    if items != [] {
      var first := ValueString(items[0], Verbatim);
      var tail := CommaItems(items[1..], Verbatim) + "]";
      assert CommaItems(items, Verbatim) + "]" == "," + (first + tail);
      AtConcat(s, i, ",", first + tail);
      AtConcat(s, i + 1, first, tail);
      next := i + 1 + |first|;
      CommaItemsStart(items[1..]);
      AtIndex(s, next, tail, 0);
      assert forall k | 0 <= k < |items| - 1 :: items[1..][k] == items[k + 1];
    }
  }

  // The round trips

  /** `parse_compound(compound_string(tag)) == tag`: the text of a compound is read back whole
      into the same compound. */
  lemma {:induction false} CompoundRoundTrip(fs: seq<Field>)
    requires DistinctKeys(fs) && PrintableFields(fs)
    ensures ParseCompound(CompoundString(fs, Verbatim), 0) ==
      Ok((|CompoundString(fs, Verbatim)|, Compound(fs)))
  {
    var s := CompoundString(fs, Verbatim);
    AtSuffix(s, 0);
    CompoundParsed(fs, s, 0);
  }

  /** `parse_list(list_string(tag)) == tag`. */
  lemma {:induction false} ListRoundTrip(items: seq<Value>)
    requires PrintableItems(items)
    ensures ParseList(ListString(items, Verbatim), 0) == Ok((|ListString(items, Verbatim)|, List(items)))
  {
    var s := ListString(items, Verbatim);
    AtSuffix(s, 0);
    ListParsed(items, s, 0);
  }

  /** Reading, printing and reading again gives what the first reading gave, whenever that is a
      value the scanner reads back as written. */
  lemma {:induction false} ReparseCompound(s: string)
    requires ParseCompound(s, 0).Ok?
    requires Printable(ParseCompound(s, 0).value.1, true)
    ensures ParseCompound(CompoundString(ParseCompound(s, 0).value.1.fields, Verbatim), 0).Ok?
    ensures ParseCompound(CompoundString(ParseCompound(s, 0).value.1.fields, Verbatim), 0).value.1
         == ParseCompound(s, 0).value.1
  {
    CompoundRoundTrip(ParseCompound(s, 0).value.1.fields);
  }

  /** `[a,]`: an empty item after the first one is read back as written. */
  lemma ListEmptyLastItem()
    ensures ParseList("[a,]", 0) == Ok((4, List([Scalar("a"), Scalar("")])))
  {
    var items := [Scalar("a"), Scalar("")];
    assert ListString(items, Verbatim) == "[a,]" by {
      assert CommaItems(items[1..], Verbatim) == ",";
    }
    ListRoundTrip(items);
  }

  // Lists of bare tokens

  /** The items of a list written as bare tokens. */
  function Scalars(ts: seq<string>): (r: seq<Value>)
    ensures |r| == |ts|
    ensures forall k | 0 <= k < |r| :: r[k] == Scalar(ts[k])
  {
    seq(|ts|, k requires 0 <= k < |ts| => Scalar(ts[k]))
  }

  lemma {:induction false} CommaScalars(ts: seq<string>)
    ensures CommaItems(Scalars(ts), Verbatim) == if ts == [] then "" else "," + Join(ts, ",")
    decreases |ts|
  {
    if ts != [] {
      var items := Scalars(ts);
      assert items[1..] == Scalars(ts[1..]);
      CommaScalars(ts[1..]);
      if |ts| == 1 {
        assert CommaItems(items, Verbatim) == "," + ts[0] + "";
      } else {
        assert CommaItems(items, Verbatim) == "," + ts[0] + ("," + Join(ts[1..], ","));
      }
    }
  }

  /** The bare tokens printed as items are the tokens joined with `,`. */
  lemma {:induction false} ItemsScalars(ts: seq<string>)
    ensures ItemsString(Scalars(ts), Verbatim) == Join(ts, ",")
  {
    if ts != [] {
      var items := Scalars(ts);
      assert items[1..] == Scalars(ts[1..]);
      CommaScalars(ts[1..]);
    }
  }

  /** A list written as `[`, bare tokens joined by `,`, and `]` is read whole into the list of
      those tokens, and printed back into the same text, when no token holds `,` or `]` or
      opens a compound, a list or a quoted token, and the first one is not empty. */
  lemma {:induction false} ListTextRoundTrip(ts: seq<string>)
    requires forall k | 0 <= k < |ts| :: PlainBare(ts[k], false)
    requires ts != [] ==> ts[0] != ""
    ensures var s := "[" + Join(ts, ",") + "]";
      && ParseList(s, 0) == Ok((|s|, List(Scalars(ts))))
      && ListString(ParseList(s, 0).value.1.items, Verbatim) == s
  {
    ItemsScalars(ts);
    ListRoundTrip(Scalars(ts));
  }

  /** `parse_list(u'[1,2,3,4,5]')`: the five tokens, and the index one past the `]`. */
  lemma {:induction false} ParseListDigits(s: string)
    requires s == "[1,2,3,4,5]"
    ensures ParseList(s, 0) == Ok((11, List([Scalar("1"), Scalar("2"), Scalar("3"), Scalar("4"), Scalar("5")])))
  {
    var ts := ["1", "2", "3", "4", "5"];
    DigitsText(ts, s);
    ListTextRoundTrip(ts);
  }

  lemma {:induction false} DigitsText(ts: seq<string>, s: string)
    requires ts == ["1", "2", "3", "4", "5"] && s == "[1,2,3,4,5]"
    ensures "[" + Join(ts, ",") + "]" == s && |s| == 11
    ensures Scalars(ts) == [Scalar("1"), Scalar("2"), Scalar("3"), Scalar("4"), Scalar("5")]
    ensures forall k | 0 <= k < |ts| :: PlainBare(ts[k], false)
    ensures ts[0] != ""
  {
    assert Join(ts[4..], ",") == "5";
    assert Join(ts[3..], ",") == "4,5";
    assert Join(ts[2..], ",") == "3,4,5";
    assert Join(ts[1..], ",") == "2,3,4,5";
  }

  // What the restrictions keep out

  /** `{a:"x\"y"}`: the escaped quote is copied without its backslash, so the value read is
      `"x"y"`, and its printed text `{a:"x"y"}` no longer reads: the token closes at the second
      quote and a `,` is missing before the `y`. */
  lemma {:induction false} EscapedQuoteNotReprinted(s: string)
    requires s == "{a:\"x\\\"y\"}"
    ensures ParseCompound(s, 0) == Ok((10, Compound([Field("a", Scalar("\"x\"y\""))])))
    ensures ParseCompound(CompoundString(ParseCompound(s, 0).value.1.fields, Verbatim), 0) == Err(Missing(",", 6))
  {
    EscapedQuoteRead(s);
    var k, v := "a", "\"x\"y\"";
    OneFieldText(k, v);
    var p := "{" + k + ":" + v + "}";
    assert p == "{a:\"x\"y\"}";
    EscapedQuoteReprinted(p);
  }

  /** The text of a compound of one entry with a scalar value. */
  lemma {:induction false} OneFieldText(k: string, v: string)
    ensures CompoundString([Field(k, Scalar(v))], Verbatim) == "{" + k + ":" + v + "}"
  {
    var fs := [Field(k, Scalar(v))];
    assert FieldString(fs[0], Verbatim) == k + ":" + v;
    assert CommaFields(fs[1..], Verbatim) == "";
  }

  lemma {:induction false} EscapedQuoteRead(s: string)
    requires s == "{a:\"x\\\"y\"}"
    ensures ParseCompound(s, 0) == Ok((10, Compound([Field("a", Scalar("\"x\"y\""))])))
  {
    var v := "\"x\"y\"";
    var fields := [Field("a", Scalar(v))];
    assert |s| == 10 && s[0] == '{' && s[1] == 'a' && s[2] == ':' && s[3] == '"' && s[4] == 'x';
    assert s[5] == '\\' && s[6] == '"' && s[7] == 'y' && s[8] == '"' && s[9] == '}';
    assert KeyScan(s, 2) == (2, "");
    assert !IsSpace('a');
    assert [s[1]] + "" == "a";
    assert KeyScan(s, 1) == (2, "a");
    assert StringScan(s, 8, false) == Ok((9, "\""));
    assert [s[7]] + "\"" == "y\"";
    assert StringScan(s, 7, false) == Ok((9, "y\""));
    assert [s[6]] + "y\"" == "\"y\"";
    assert StringScan(s, 6, true) == Ok((9, "\"y\""));
    assert StringScan(s, 5, false) == Ok((9, "\"y\""));
    assert [s[4]] + "\"y\"" == "x\"y\"";
    assert StringScan(s, 4, false) == Ok((9, "x\"y\""));
    assert "\"" + "x\"y\"" == v;
    assert ParseValue(s, 3, true) == Ok((9, Scalar(v)));
    assert Put([], "a", Scalar(v)) == fields;
    assert CompoundEntry(s, 1, 1, []) == Ok((10, Compound(fields)));
  }

  lemma {:induction false} EscapedQuoteReprinted(p: string)
    requires p == "{a:\"x\"y\"}"
    ensures ParseCompound(p, 0) == Err(Missing(",", 6))
  {
    assert |p| == 9 && p[0] == '{' && p[1] == 'a' && p[2] == ':' && p[3] == '"' && p[4] == 'x';
    assert p[5] == '"' && p[6] == 'y';
    assert KeyScan(p, 2) == (2, "");
    assert !IsSpace('a');
    assert [p[1]] + "" == "a";
    assert KeyScan(p, 1) == (2, "a");
    assert StringScan(p, 5, false) == Ok((6, "\""));
    assert [p[4]] + "\"" == "x\"";
    assert StringScan(p, 4, false) == Ok((6, "x\""));
    assert "\"" + "x\"" == "\"x\"";
    assert ParseValue(p, 3, true) == Ok((6, Scalar("\"x\"")));
    assert p[6..7] != ",";
    assert CompoundEntry(p, 1, 1, []) == Err(Missing(",", 6));
  }

  /** `{ }a:b}`: the key is read without its whitespace as `}a`, and its printed text `{}a:b}`
      reads back as the empty compound that ends at the `}` the key opened with. */
  lemma {:induction false} BraceKeyNotReprinted(s: string)
    requires s == "{ }a:b}"
    ensures ParseCompound(s, 0) == Ok((7, Compound([Field("}a", Scalar("b"))])))
    ensures ParseCompound(CompoundString(ParseCompound(s, 0).value.1.fields, Verbatim), 0) == Ok((2, Compound([])))
  {
    BraceKeyRead(s);
    var k, v := "}a", "b";
    OneFieldText(k, v);
    assert ("{" + k + ":" + v + "}")[1] == '}';
  }

  lemma {:induction false} BraceKeyRead(s: string)
    requires s == "{ }a:b}"
    ensures ParseCompound(s, 0) == Ok((7, Compound([Field("}a", Scalar("b"))])))
  {
    var fields := [Field("}a", Scalar("b"))];
    BraceKeyScan(s);
    assert |s| == 7 && s[4] == ':' && s[5] == 'b' && s[6] == '}';
    assert s[5..6] == "b";
    assert ParseBare(s, 5, true) == (6, "b");
    assert Put([], "}a", Scalar("b")) == fields;
    assert CompoundEntry(s, 1, 1, []) == Ok((7, Compound(fields)));
  }

  /** In `{ }a:b}` the key before the `:` is `}a`, the space dropped. */
  lemma {:induction false} BraceKeyScan(s: string)
    requires s == "{ }a:b}"
    ensures |s| == 7 && ParseKey(s, 1) == (4, "}a")
  {
    assert |s| == 7 && s[0] == '{' && s[1] == ' ' && s[2] == '}' && s[3] == 'a' && s[4] == ':';
    assert KeyScan(s, 4) == (4, "");
    assert !IsSpace('a') && !IsSpace('}') && IsSpace(' ');
    assert [s[3]] + "" == "a";
    assert KeyScan(s, 3) == (4, "a");
    assert [s[2]] + "a" == "}a";
    assert KeyScan(s, 2) == (4, "}a");
    assert "" + "}a" == "}a";
    assert KeyScan(s, 1) == (4, "}a");
  }
}
