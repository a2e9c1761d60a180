/** What the tag-notation scanner computes, as recursive functions over the text and an index:
    `{k:v,...}` compounds, `[v,...]` lists, `"..."` quoted tokens and bare tokens.  Each function
    answers the scanner's pair (index where the value ends, value) or the exception it raises. */
module TagGrammar {
  import opened Wrappers
  import opened Text
  import opened Tags

  /** The characters that end a bare token: `,` and the closer of the enclosing compound or list. */
  predicate IsStop(c: char, inCompound: bool) {
    c == ',' || (if inCompound then c == '}' else c == ']')
  }

  /** `expect`: `v` occurs at `i` and does not reach the last character of `s`. */
  function Expect(s: string, i: nat, v: string): (r: Result<nat>)
    ensures r.Ok? <==> i + |v| < |s| && s[i..i + |v|] == v
    ensures r.Ok? ==> r.value == i + |v|
    ensures r.Err? ==> r.error == Missing(v, i)
  {
    if i + |v| >= |s| || s[i..i + |v|] != v then Err(Missing(v, i)) else Ok(i + |v|)
  }

  /** The scan of `parse_key` from `j`: the index of the first `:` at or after `j`, or the last
      index when there is none, and the characters before it that are not whitespace. */
  function KeyScan(s: string, j: nat): (r: (nat, string))
    requires j < |s|
    ensures j <= r.0 < |s|
    ensures s[r.0] == ':' || r.0 == |s| - 1
    ensures forall k | j <= k < r.0 :: s[k] != ':'
    decreases |s| - j
  {
    if s[j] == ':' then (j, "")
    else
      var rest := if j + 1 < |s| then KeyScan(s, j + 1) else (j, "");
      (rest.0, (if IsSpace(s[j]) then "" else [s[j]]) + rest.1)
  }

  /** The key `parse_key` reads is the text up to the `:` (or to the end when there is no `:`)
      with its whitespace removed. */
  lemma {:induction false} KeyScanKey(s: string, j: nat)
    requires j < |s|
    ensures var r := KeyScan(s, j);
      r.1 == RemoveSpaces(if s[r.0] == ':' then s[j..r.0] else s[j..])
    decreases |s| - j
  {
    var r := KeyScan(s, j);
    if s[j] != ':' {
      assert s[j..] == [s[j]] + s[j + 1..];
      if j + 1 < |s| {
        KeyScanKey(s, j + 1);
        assert s[j..r.0] == [s[j]] + s[j + 1..r.0];
      }
    }
  }

  /** `parse_key(s, i)`.  Past the end of the text the loop never runs and the answer is
      `(0, "")`. */
  function ParseKey(s: string, i: nat): (r: (nat, string))
    ensures i < |s| ==> i <= r.0 < |s|
    ensures i >= |s| ==> r == (0, "")
  {
    if i >= |s| then (0, "") else KeyScan(s, i)
  }

  /** `parse_key` stops at the first `:` and answers its index, the key being the text before
      it without whitespace; with no `:` it answers the last index.  The key holds neither `:`
      nor whitespace. */
  lemma {:induction false} ParseKeyMeaning(s: string, i: nat)
    requires i < |s|
    ensures var r := ParseKey(s, i);
      && (forall k | i <= k < r.0 :: s[k] != ':')
      && (s[r.0] == ':' ==> r.1 == RemoveSpaces(s[i..r.0]))
      && (s[r.0] != ':' ==> r.0 == |s| - 1 && r.1 == RemoveSpaces(s[i..]))
      && ':' !in r.1 && forall c | c in r.1 :: !IsSpace(c)
  {
    KeyScanKey(s, i);
    var r := ParseKey(s, i);
    RemoveSpacesKeeps(if s[r.0] == ':' then s[i..r.0] else s[i..]);
    if s[r.0] == ':' {
      assert ':' !in s[i..r.0];
    } else {
      assert ':' !in s[i..];
    }
  }

  /** Where the bare token starting at `j` ends: the first stop character at or after `j`, or
      the last index when there is none. */
  function BareEnd(s: string, j: nat, inCompound: bool): (e: nat)
    requires j < |s|
    ensures j <= e < |s|
    ensures IsStop(s[e], inCompound) || e == |s| - 1
    ensures forall k | j <= k < e :: !IsStop(s[k], inCompound)
    decreases |s| - j
  {
    if IsStop(s[j], inCompound) || j == |s| - 1 then j else BareEnd(s, j + 1, inCompound)
  }

  /** The bare-token branch of `parse_value`: the text up to the stop character, verbatim, with
      the index of that stop character; with no stop character, the whole rest of the text with
      the index of the last character. */
  function ParseBare(s: string, i: nat, inCompound: bool): (r: (nat, string))
    requires i < |s|
  {
    var e := BareEnd(s, i, inCompound);
    if IsStop(s[e], inCompound) then (e, s[i..e]) else (e, s[i..])
  }

  /** The scan of `parse_string` from `j`, with the flag telling whether the previous character
      was a backslash: the index one past the closing quote and the characters copied, the
      closing quote included. */
  function StringScan(s: string, j: nat, escaped: bool): (r: Result<(nat, string)>)
    ensures r.Err? ==> r.error == StringNeverClosed
    ensures r.Ok? ==> j < r.value.0 <= |s| && s[r.value.0 - 1] == '"'
    ensures r.Ok? ==> |r.value.1| >= 1 && r.value.1[|r.value.1| - 1] == '"'
    decreases |s| - j
  {
    if j >= |s| then Err(StringNeverClosed)
    else if escaped then
      var rest :- StringScan(s, j + 1, false);
      Ok((rest.0, [s[j]] + rest.1))
    else if s[j] == '\\' then StringScan(s, j + 1, true)
    else if s[j] == '"' then Ok((j + 1, "\""))
    else
      var rest :- StringScan(s, j + 1, false);
      Ok((rest.0, [s[j]] + rest.1))
  }

  /** `parse_string(s, i)`: a token that starts and ends with `"`, and the index one past the
      closing quote. */
  function ParseString(s: string, i: nat): (r: Result<(nat, string)>)
    ensures r.Ok? ==> i + 2 <= r.value.0 <= |s| && s[r.value.0 - 1] == '"'
    ensures r.Ok? ==> |r.value.1| >= 2 && r.value.1[0] == '"' && r.value.1[|r.value.1| - 1] == '"'
    ensures i < |s| && s[i] != '"' ==> r == Err(NotOpened('"'))
    ensures i >= |s| ==> r == Err(IndexOutOfRange)
  {
    if i >= |s| then Err(IndexOutOfRange)
    else if s[i] != '"' then Err(NotOpened('"'))
    else
      var rest :- StringScan(s, i + 1, false);
      Ok((rest.0, "\"" + rest.1))
  }

  /** The text `b` with a backslash in front of every `"` and `\\`: what `parse_string` reads
      back as `b`. */
  function Escaped(b: string): (r: string)
    ensures |r| >= |b|
    ensures '"' !in b && '\\' !in b ==> r == b
  {
    if b == [] then []
    else (if b[0] == '"' || b[0] == '\\' then ['\\', b[0]] else [b[0]]) + Escaped(b[1..])
  }

  /** `parse_value(s, i, in_compound)`. */
  function ParseValue(s: string, i: nat, inCompound: bool): (r: Result<(nat, Value)>)
    ensures r.Ok? ==> i <= r.value.0 <= |s|
    ensures r.Ok? && !r.value.1.Scalar? ==> i < r.value.0
    ensures i >= |s| ==> r == Err(IndexOutOfRange)
    decreases |s| - i, 2, 0
  {
    if i >= |s| then Err(IndexOutOfRange)
    else if s[i] == '{' then ParseCompound(s, i)
    else if s[i] == '[' then ParseList(s, i)
    else if s[i] == '"' then
      var (e, t) :- ParseString(s, i);
      Ok((e, Scalar(t)))
    else
      var (e, t) := ParseBare(s, i, inCompound);
      Ok((e, Scalar(t)))
  }

  /** `parse_compound(s, i, return_size=True)`: the compound and the index one past its `}`. */
  function ParseCompound(s: string, i: nat): (r: Result<(nat, Value)>)
    ensures r.Ok? ==> i < r.value.0 <= |s| && r.value.1.Compound?
    ensures i >= |s| ==> r == Err(IndexOutOfRange)
    ensures i < |s| && s[i] != '{' ==> r == Err(NotOpened('{'))
    decreases |s| - i, 1, 0
  {
    if i >= |s| then Err(IndexOutOfRange)
    else if s[i] != '{' then Err(NotOpened('{'))
    else CompoundLoop(s, i + 1, i + 1, [])
  }

  /** The `while` loop of `parse_compound` from index `i`, with the entries read so far; `start`
      is the index just after the `{`, where no `,` is expected. */
  function CompoundLoop(s: string, start: nat, i: nat, fields: seq<Field>): (r: Result<(nat, Value)>)
    ensures r.Ok? ==> i < r.value.0 <= |s| && r.value.1.Compound?
    decreases |s| - i, 0, 1
  {
    if i >= |s| then Err(IndexOutOfRange)
    else if s[i] == '}' then Ok((i + 1, Compound(fields)))
    else if i > start then
      var j :- Expect(s, i, ",");
      if s[j] == '}' then Ok((j + 1, Compound(fields)))
      else CompoundEntry(s, start, j, fields)
    else CompoundEntry(s, start, i, fields)
  }

  /** One `key:value` entry of a compound, read from `i`, then the rest of the loop. */
  function CompoundEntry(s: string, start: nat, i: nat, fields: seq<Field>): (r: Result<(nat, Value)>)
    requires i < |s|
    ensures r.Ok? ==> i < r.value.0 <= |s| && r.value.1.Compound?
    decreases |s| - i, 0, 0
  {
    var (k, key) := ParseKey(s, i);
    var (e, v) :- ParseValue(s, k + 1, true);
    if e >= |s| then Err(CompoundNeverClosed)
    else CompoundLoop(s, start, e, Put(fields, key, v))
  }

  /** `parse_list(s, i)`: the list and the index one past its `]`. */
  function ParseList(s: string, i: nat): (r: Result<(nat, Value)>)
    ensures r.Ok? ==> i < r.value.0 <= |s| && r.value.1.List?
    ensures i >= |s| ==> r == Err(IndexOutOfRange)
    ensures i < |s| && s[i] != '[' ==> r == Err(NotOpened('['))
    decreases |s| - i, 1, 0
  {
    if i >= |s| then Err(IndexOutOfRange)
    else if s[i] != '[' then Err(NotOpened('['))
    else ListLoop(s, i + 1, true, [])
  }

  /** The `while` loop of `parse_list` from index `i`, with the items read so far.  A `,` is
      expected before every item but the first. */
  function ListLoop(s: string, i: nat, first: bool, items: seq<Value>): (r: Result<(nat, Value)>)
    ensures r.Ok? ==> i < r.value.0 <= |s| && r.value.1.List?
    decreases |s| - i, if first then 4 else 1, 0
  {
    if i >= |s| then Err(IndexOutOfRange)
    else if s[i] == ']' then Ok((i + 1, List(items)))
    else
      var (e, v) :- ListItem(s, i, first);
      ListLoop(s, e, false, items + [v])
  }

  /** One item of a list read from `i`: the value itself for the first item, a `,` and then the
      value for the others. */
  function ListItem(s: string, i: nat, first: bool): (r: Result<(nat, Value)>)
    requires i < |s|
    ensures r.Ok? ==> i <= r.value.0 <= |s|
    ensures r.Ok? && !first ==> i < r.value.0
    decreases |s| - i, if first then 3 else 0, 0
  {
    if first then ParseValue(s, i, false)
    else
      var j :- Expect(s, i, ",");
      ParseValue(s, j, false)
  }

  /** A successful scan of `s` that ends just past the character `c`. */
  predicate EndsPast(r: Result<(nat, Value)>, s: string, c: char)
  {
    r.Ok? ==> 0 < r.value.0 <= |s| && s[r.value.0 - 1] == c
  }

  /** `parse_compound` ends one past the `}` that closes the compound. */
  lemma {:induction false} ParseCompoundCloses(s: string, i: nat)
    ensures EndsPast(ParseCompound(s, i), s, '}')
  {
    if i < |s| && s[i] == '{' {
      CompoundLoopCloses(s, i + 1, i + 1, []);
    }
  }

  lemma {:induction false} CompoundLoopCloses(s: string, start: nat, i: nat, fields: seq<Field>)
    ensures EndsPast(CompoundLoop(s, start, i, fields), s, '}')
    decreases |s| - i, 0, 1
  {
    if i < |s| && s[i] != '}' {
      if i > start {
        var j := Expect(s, i, ",");
        if j.Ok? && s[j.value] != '}' {
          CompoundEntryCloses(s, start, j.value, fields);
        }
      } else {
        CompoundEntryCloses(s, start, i, fields);
      }
    }
  }

  lemma {:induction false} CompoundEntryCloses(s: string, start: nat, i: nat, fields: seq<Field>)
    requires i < |s|
    ensures EndsPast(CompoundEntry(s, start, i, fields), s, '}')
    decreases |s| - i, 0, 0
  {
    var key := ParseKey(s, i);
    var value := ParseValue(s, key.0 + 1, true);
    if value.Err? || value.value.0 >= |s| {
      EntryStops(s, start, i, fields);
    } else {
      EntryGoesOn(s, start, i, fields);
      CompoundLoopCloses(s, start, value.value.0, Put(fields, key.1, value.value.1));
    }
  }

  /** An entry whose value raises, or runs to the end of the text, raises. */
  lemma {:induction false} EntryStops(s: string, start: nat, i: nat, fields: seq<Field>)
    requires i < |s|
    requires var value := ParseValue(s, ParseKey(s, i).0 + 1, true); value.Err? || value.value.0 >= |s|
    ensures CompoundEntry(s, start, i, fields).Err?
  {
  }

  /** An entry whose value ends before the end of the text continues the loop after it. */
  lemma {:induction false} EntryGoesOn(s: string, start: nat, i: nat, fields: seq<Field>)
    requires i < |s|
    requires var value := ParseValue(s, ParseKey(s, i).0 + 1, true); value.Ok? && value.value.0 < |s|
    ensures var key := ParseKey(s, i); var value := ParseValue(s, key.0 + 1, true);
      && i < value.value.0
      && CompoundEntry(s, start, i, fields) == CompoundLoop(s, start, value.value.0, Put(fields, key.1, value.value.1))
  {
  }

  /** `parse_list` ends one past the `]` that closes the list. */
  lemma {:induction false} ParseListCloses(s: string, i: nat)
    ensures EndsPast(ParseList(s, i), s, ']')
  {
    if i < |s| && s[i] == '[' {
      ListLoopCloses(s, i + 1, true, []);
    }
  }

  lemma {:induction false} ListLoopCloses(s: string, i: nat, first: bool, items: seq<Value>)
    ensures EndsPast(ListLoop(s, i, first, items), s, ']')
    decreases |s| - i, if first then 1 else 0
  {
    if i < |s| && s[i] != ']' {
      var item := ListItem(s, i, first);
      if item.Ok? {
        ListLoopCloses(s, item.value.0, false, items + [item.value.1]);
      }
    }
  }

  /** The state of the `while` loop of `parse_list` as written: still running at an index with
      the items read so far, or finished. */
  datatype ListState = Running(at: nat, items: seq<Value>) | Finished(result: Result<(nat, Value)>)

  /** One pass of the `while` loop of `parse_list` exactly as written: a `,` is expected whenever
      the index has moved past `start`, the index just after the `[`. */
  function ListStepAsWritten(s: string, start: nat, i: nat, items: seq<Value>): (r: ListState)
    ensures r.Running? ==> i <= r.at && |r.items| == |items| + 1 && r.items[..|items|] == items
    ensures r.Running? && i > start ==> i < r.at
  {
    if i >= |s| then Finished(Err(IndexOutOfRange))
    else if s[i] == ']' then Finished(Ok((i + 1, List(items))))
    else
      var j := if i > start then Expect(s, i, ",") else Ok(i);
      if j.Err? then Finished(Err(j.error))
      else
        var v := ParseValue(s, j.value, false);
        if v.Err? then Finished(Err(v.error))
        else
          assert (items + [v.value.1])[..|items|] == items;
          Running(v.value.0, items + [v.value.1])
  }

  /** `n` passes of the loop of `parse_list` as written, from index `i` with `items` read. */
  function ListRunAsWritten(s: string, start: nat, i: nat, items: seq<Value>, n: nat): ListState
    decreases n
  {
    if n == 0 then Running(i, items)
    else match ListStepAsWritten(s, start, i, items)
      case Finished(r) => Finished(r)
      case Running(e, more) => ListRunAsWritten(s, start, e, more, n - 1)
  }

  /** Once a pass at `start` leaves the index at `start`, every later pass does the same: the
      loop as written only ever appends the same item and never finishes. */
  lemma {:induction false} ListStallRepeats(s: string, start: nat, items: seq<Value>, v: Value, n: nat)
    requires forall acc: seq<Value> :: ListStepAsWritten(s, start, start, acc) == Running(start, acc + [v])
    ensures ListRunAsWritten(s, start, start, items, n).Running?
    ensures ListRunAsWritten(s, start, start, items, n).at == start
    ensures |ListRunAsWritten(s, start, start, items, n).items| == |items| + n
    decreases n
  {
    if n > 0 {
      assert ListStepAsWritten(s, start, start, items) == Running(start, items + [v]);
      ListStallRepeats(s, start, items + [v], v, n - 1);
    }
  }

  /** A first item that ends where it began (an empty item before a `,`, or a bare item
      running to the last character) leaves a pass of the loop as written at `start`. */
  lemma {:induction false} FirstItemStalls(s: string, start: nat, v: Value, items: seq<Value>)
    requires start < |s| && s[start] != ']' && ParseValue(s, start, false) == Ok((start, v))
    ensures ListStepAsWritten(s, start, start, items) == Running(start, items + [v])
  {
  }

  /** `parse_list` as written never returns on a text whose first item ends where it began:
      after any number of passes the loop is still running at index 1, one item longer each
      time. */
  lemma {:induction false} ParseListStalls(s: string, n: nat)
    requires 1 < |s| && s[0] == '[' && s[1] != ']'
    requires ParseValue(s, 1, false).Ok? && ParseValue(s, 1, false).value.0 == 1
    ensures ListRunAsWritten(s, 1, 1, [], n).Running?
    ensures ListRunAsWritten(s, 1, 1, [], n).at == 1
    ensures |ListRunAsWritten(s, 1, 1, [], n).items| == n
  {
    var v := ParseValue(s, 1, false).value.1;
    forall acc: seq<Value> ensures ListStepAsWritten(s, 1, 1, acc) == Running(1, acc + [v]) {
      FirstItemStalls(s, 1, v, acc);
    }
    ListStallRepeats(s, 1, [], v, n);
  }

  /** `parse_list(u'[,]')`, `parse_list(u'[,')` and `parse_list(u'[a')` as written never
      return. */
  lemma {:induction false} ParseListLoopsOnEmptyFirstItem(n: nat)
    ensures ListRunAsWritten("[,]", 1, 1, [], n).Running? && ListRunAsWritten("[,]", 1, 1, [], n).at == 1
    ensures ListRunAsWritten("[,", 1, 1, [], n).Running? && ListRunAsWritten("[,", 1, 1, [], n).at == 1
    ensures ListRunAsWritten("[a", 1, 1, [], n).Running? && ListRunAsWritten("[a", 1, 1, [], n).at == 1
  {
    var s1, s2, s3 := "[,]", "[,", "[a";
    assert s1[1] == ',' && s2[1] == ',' && s3[1] == 'a' && |s2| == 2 && |s3| == 2;
    assert BareEnd(s1, 1, false) == 1 && BareEnd(s2, 1, false) == 1 && BareEnd(s3, 1, false) == 1;
    ParseListStalls(s1, n);
    ParseListStalls(s2, n);
    ParseListStalls(s3, n);
  }

  /** The corrected `parse_list` on `[,` and `[a`: the `,` expected before the second item is
      missing at index 1. */
  lemma ParseListUnclosed()
    ensures ParseList("[,", 0) == Err(Missing(",", 1))
    ensures ParseList("[a", 0) == Err(Missing(",", 1))
  {
    var s2, s3 := "[,", "[a";
    assert s2[0] == '[' && s3[0] == '[' && s2[1] == ',' && s3[1] == 'a' && |s2| == 2 && |s3| == 2;
    assert BareEnd(s2, 1, false) == 1 && BareEnd(s3, 1, false) == 1;
    var v2 := ParseValue(s2, 1, false).value.1;
    var v3 := ParseValue(s3, 1, false).value.1;
    assert ListLoop(s2, 1, false, [v2]) == Err(Missing(",", 1));
    assert ListLoop(s3, 1, false, [v3]) == Err(Missing(",", 1));
    assert ListLoop(s2, 1, true, []) == ListLoop(s2, 1, false, [] + [v2]);
    assert ListLoop(s3, 1, true, []) == ListLoop(s3, 1, false, [] + [v3]);
    assert [] + [v2] == [v2] && [] + [v3] == [v3];
  }

  /** Once past `start`, the loop as written reaches, after some number of passes, the answer
      of the corrected loop. */
  lemma {:induction false} ListRunAgrees(s: string, start: nat, i: nat, items: seq<Value>)
    requires start < i
    ensures exists n: nat :: ListRunAsWritten(s, start, i, items, n) == Finished(ListLoop(s, i, false, items))
    decreases |s| - i
  {
    match ListStepAsWritten(s, start, i, items)
    case Finished(r) =>
      assert ListRunAsWritten(s, start, i, items, 1) == Finished(ListLoop(s, i, false, items));
    case Running(e, more) =>
      assert ListLoop(s, i, false, items) == ListLoop(s, e, false, more);
      ListRunAgrees(s, start, e, more);
      var n: nat :| ListRunAsWritten(s, start, e, more, n) == Finished(ListLoop(s, e, false, more));
      assert ListRunAsWritten(s, start, i, items, n + 1) == ListRunAsWritten(s, start, e, more, n);
  }

  /** `parse_list` as written and corrected agree whenever the first pass of the loop as
      written finishes or moves past the `[`: the loop as written then stops, after some
      number of passes, with the corrected answer.  Otherwise it never stops
      (`ParseListStalls`). */
  lemma {:induction false} ListAsWrittenAgrees(s: string, start: nat)
    requires 0 < start <= |s| && s[start - 1] == '['
    requires ListStepAsWritten(s, start, start, []).Finished? || ListStepAsWritten(s, start, start, []).at > start
    ensures exists n: nat :: ListRunAsWritten(s, start, start, [], n) == Finished(ParseList(s, start - 1))
  {
    assert ParseList(s, start - 1) == ListLoop(s, start, true, []);
    if start < |s| && s[start] != ']' {
      assert ListItem(s, start, true) == ParseValue(s, start, false);
    }
    match ListStepAsWritten(s, start, start, [])
    case Finished(r) =>
      assert ListRunAsWritten(s, start, start, [], 1) == Finished(ParseList(s, start - 1));
    case Running(e, more) =>
      assert ParseList(s, start - 1) == ListLoop(s, e, false, more);
      ListRunAgrees(s, start, e, more);
      var n: nat :| ListRunAsWritten(s, start, e, more, n) == Finished(ListLoop(s, e, false, more));
      assert ListRunAsWritten(s, start, start, [], n + 1) == ListRunAsWritten(s, start, e, more, n);
  }

  /** The corrected `parse_list` on `[,]`: two empty items, ending one past the `]`. */
  lemma ParseListEmptyItems()
    ensures ParseList("[,]", 0) == Ok((3, List([Scalar(""), Scalar("")])))
  {
    var s := "[,]";
    assert s[0] == '[' && s[1] == ',' && s[2] == ']';
    assert BareEnd(s, 1, false) == 1;
    assert BareEnd(s, 2, false) == 2;
    assert s[1..1] == "" && s[2..2] == "";
    assert ParseBare(s, 1, false) == (1, "");
    assert ParseBare(s, 2, false) == (2, "");
    assert ParseValue(s, 1, false) == Ok((1, Scalar("")));
    assert ParseValue(s, 2, false) == Ok((2, Scalar("")));
    assert Expect(s, 1, ",") == Ok(2);
    assert ListLoop(s, 2, false, [Scalar(""), Scalar("")]) == Ok((3, List([Scalar(""), Scalar("")])));
    assert [Scalar("")] + [Scalar("")] == [Scalar(""), Scalar("")];
    assert ListLoop(s, 1, false, [Scalar("")]) == Ok((3, List([Scalar(""), Scalar("")])));
    assert [] + [Scalar("")] == [Scalar("")];
    assert ListLoop(s, 1, true, []) == Ok((3, List([Scalar(""), Scalar("")])));
  }

  /** `parse_key` from `i` stops at the first `:`. */
  lemma {:induction false} KeyEndsAt(s: string, i: nat, e: nat)
    requires i <= e < |s| && s[e] == ':' && ':' !in s[i..e]
    ensures ParseKey(s, i).0 == e
  {
  }

  /** A bare token from `j` ends at the first stop character. */
  lemma {:induction false} BareEndsAt(s: string, j: nat, e: nat, inCompound: bool)
    requires j <= e < |s| && IsStop(s[e], inCompound)
    requires forall c | c in s[j..e] :: !IsStop(c, inCompound)
    ensures BareEnd(s, j, inCompound) == e
  {
  }

  /** `parse_compound(u'{a:b,}')`: a `,` right before the `}` is allowed. */
  lemma ParseCompoundTrailingComma()
    ensures ParseCompound("{a:b,}", 0) == Ok((6, Compound([Field("a", Scalar("b"))])))
  {
    var s := "{a:b,}";
    var fields := [Field("a", Scalar("b"))];
    assert s[0] == '{' && s[1] == 'a' && s[2] == ':' && s[3] == 'b' && s[4] == ',' && s[5] == '}';
    assert s[3..4] == "b";
    assert s[4..5] == ",";
    assert Put([], "a", Scalar("b")) == fields;
    assert KeyScan(s, 2) == (2, "");
    assert !IsSpace('a');
    assert [s[1]] + "" == "a";
    assert KeyScan(s, 1) == (2, "a");
    assert ParseBare(s, 3, true) == (4, "b");
    assert Expect(s, 4, ",") == Ok(5);
    assert CompoundLoop(s, 1, 4, fields) == Ok((6, Compound(fields)));
    assert CompoundEntry(s, 1, 1, []) == Ok((6, Compound(fields)));
  }

  /** `parse_compound(u'{Equipment:[{}]')`: the value runs to the end of the text, so the
      compound is never closed. */
  lemma ParseCompoundNeverClosed()
    ensures ParseCompound("{Equipment:[{}]", 0) == Err(CompoundNeverClosed)
  {
    var s := "{Equipment:[{}]";
    assert |s| == 15 && s[0] == '{' && s[10] == ':' && s[11] == '[' && s[12] == '{' && s[13] == '}' && s[14] == ']';
    assert s[1..10] == "Equipment";
    KeyEndsAt(s, 1, 10);
    var key := ParseKey(s, 1).1;
    assert ParseCompound(s, 12) == Ok((14, Compound([])));
    assert ListLoop(s, 14, false, [Compound([])]) == Ok((15, List([Compound([])])));
    assert [] + [Compound([])] == [Compound([])];
    assert ListLoop(s, 12, true, []) == Ok((15, List([Compound([])])));
    assert ParseValue(s, 11, true) == Ok((15, List([Compound([])])));
    assert CompoundEntry(s, 1, 1, []) == Err(CompoundNeverClosed);
  }

  /** A compound entry whose value is not followed by `,` or `}`: `parse_compound` stops with
      the missing `,` at the index where the value ends. */
  lemma {:induction false} CompoundNeedsComma(s: string, i: nat, e: nat, v: Value)
    requires i + 1 < |s| && s[i] == '{' && s[i + 1] != '}'
    requires ParseValue(s, ParseKey(s, i + 1).0 + 1, true) == Ok((e, v))
    requires e < |s| && s[e] != '}' && s[e] != ','
    ensures ParseCompound(s, i) == Err(Missing(",", e))
  {
    var (k, key) := ParseKey(s, i + 1);
    var fields := Put([], key, v);
    assert e > i + 1;
    assert s[e..e + 1] != ",";
    assert CompoundLoop(s, i + 1, e, fields) == Err(Missing(",", e));
    assert CompoundEntry(s, i + 1, i + 1, []) == Err(Missing(",", e));
  }

  /** The pieces of `{name:[value,othervalue]othername:othervalue}`. */
  lemma {:induction false} MissingCommaPieces(s: string)
    requires s == "{name:[value,othervalue]othername:othervalue}"
    ensures s == "{name:" + "[value," + "othervalue]" + "othername:othervalue}"
  {
  }

  /** Where the pieces sit. */
  lemma {:induction false} MissingCommaText(s: string)
    requires s == "{name:" + "[value," + "othervalue]" + "othername:othervalue}"
    ensures |s| == 45 && s[0] == '{' && s[5] == ':' && s[6] == '[' && s[7] == 'v' && s[12] == ','
    ensures s[13] == 'o' && s[23] == ']' && s[24] == 'o'
    ensures s[1..5] == "name" && s[7..12] == "value" && s[13..23] == "othervalue"
  {
    var p, q, r := "{name:", "[value,", "othervalue]";
    assert s[1..5] == p[1..5];
    assert s[7..12] == q[1..6];
    assert s[13..23] == r[..10];
  }

  /** The list `[value,othervalue]` at index 6 ends one past its `]`, at 24. */
  lemma {:induction false} MissingCommaList(s: string)
    requires |s| == 45 && s[6] == '[' && s[7] == 'v' && s[12] == ',' && s[13] == 'o' && s[23] == ']'
    requires s[7..12] == "value" && s[13..23] == "othervalue"
    ensures ParseValue(s, 6, true).Ok? && ParseValue(s, 6, true).value.0 == 24
  {
    BareEndsAt(s, 7, 12, false);
    BareEndsAt(s, 13, 23, false);
    var a := ParseBare(s, 7, false).1;
    var b := ParseBare(s, 13, false).1;
    var items := [Scalar(a), Scalar(b)];
    assert [] + [Scalar(a)] == [Scalar(a)];
    assert [Scalar(a)] + [Scalar(b)] == items;
    assert s[12..13] == ",";
    assert Expect(s, 12, ",") == Ok(13);
    assert ParseValue(s, 7, false) == Ok((12, Scalar(a)));
    assert ParseValue(s, 13, false) == Ok((23, Scalar(b)));
    assert ListLoop(s, 23, false, items) == Ok((24, List(items)));
    assert ListLoop(s, 12, false, [Scalar(a)]) == Ok((24, List(items)));
    assert ListLoop(s, 7, true, []) == Ok((24, List(items)));
  }

  /** `parse_compound(u'{name:[value,othervalue]othername:othervalue}')`: no `,` after the
      list, at index 24. */
  lemma {:induction false} ParseCompoundMissingComma(s: string)
    requires s == "{name:[value,othervalue]othername:othervalue}"
    ensures ParseCompound(s, 0) == Err(Missing(",", 24))
  {
    MissingCommaPieces(s);
    MissingCommaText(s);
    MissingCommaAt(s);
  }

  /** Any text shaped like the example raises for a missing `,` at index 24. */
  lemma {:induction false} MissingCommaAt(s: string)
    requires |s| == 45 && s[0] == '{' && s[5] == ':' && s[6] == '[' && s[7] == 'v' && s[12] == ','
    requires s[13] == 'o' && s[23] == ']' && s[24] == 'o'
    requires s[1..5] == "name" && s[7..12] == "value" && s[13..23] == "othervalue"
    ensures ParseCompound(s, 0) == Err(Missing(",", 24))
  {
    MissingCommaKey(s);
    MissingCommaList(s);
    CompoundNeedsComma(s, 0, 24, ParseValue(s, 6, true).value.1);
  }

  /** The key `name` of the example ends at its `:`, index 5. */
  lemma {:induction false} MissingCommaKey(s: string)
    requires |s| == 45 && s[5] == ':' && s[1..5] == "name"
    ensures ParseKey(s, 1).0 == 5
  {
    assert ':' !in s[1..5];
    KeyEndsAt(s, 1, 5);
  }

  /** Every compound the scanner reads holds each key once: a repeated key overwrites the
      earlier entry in place. */
  lemma {:induction false} CompoundLoopDistinct(s: string, start: nat, i: nat, fields: seq<Field>)
    requires DistinctKeys(fields)
    ensures KeysOnce(CompoundLoop(s, start, i, fields))
    decreases |s| - i, 1
  {
    if i < |s| && s[i] != '}' {
      if i > start {
        var j := Expect(s, i, ",");
        if j.Ok? && s[j.value] != '}' {
          CompoundEntryDistinct(s, start, j.value, fields);
        }
      } else {
        CompoundEntryDistinct(s, start, i, fields);
      }
    }
  }

  lemma {:induction false} CompoundEntryDistinct(s: string, start: nat, i: nat, fields: seq<Field>)
    requires i < |s| && DistinctKeys(fields)
    ensures KeysOnce(CompoundEntry(s, start, i, fields))
    decreases |s| - i, 0
  {
    var pk := ParseKey(s, i);
    var v := ParseValue(s, pk.0 + 1, true);
    if v.Err? || v.value.0 >= |s| {
      EntryStops(s, start, i, fields);
    } else {
      var next := Put(fields, pk.1, v.value.1);
      EntryGoesOn(s, start, i, fields);
      PutShape(fields, pk.1, v.value.1);
      CompoundLoopDistinct(s, start, v.value.0, next);
    }
  }

  /** A successful scan that answers a compound holds each key once. */
  predicate KeysOnce(r: Result<(nat, Value)>)
  {
    r.Ok? && r.value.1.Compound? ==> DistinctKeys(r.value.1.fields)
  }

  /** `parse_compound` returns a dict: no key twice. */
  lemma {:induction false} ParseCompoundDistinct(s: string, i: nat)
    ensures ParseCompound(s, i).Ok? ==> DistinctKeys(ParseCompound(s, i).value.1.fields)
  {
    if i < |s| && s[i] == '{' {
      CompoundLoopDistinct(s, i + 1, i + 1, []);
    }
  }
}
