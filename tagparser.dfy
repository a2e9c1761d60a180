/** The tag-notation scanner as it runs: index-advancing loops that fill a buffer, a dict or a
    list, each proved to compute what the functions of `TagGrammar` describe. */
module TagParser {
  import opened Wrappers
  import opened Text
  import opened Tags
  import G = TagGrammar

  /** `parse_key`: skips whitespace, stops at the first `:` and answers its index. */
  method ParseKey(s: string, index: nat) returns (end: nat, key: string)
    ensures (end, key) == G.ParseKey(s, index)
  {
    end := 0;
    key := "";
    if index >= |s| {
      // the `for` loop runs over an empty range
      return;
    }
    ghost var result := G.KeyScan(s, index);
    assert "" + result.1 == result.1;
    var i := index;
    while i < |s|
      invariant index <= i <= |s|
      invariant i < |s| ==> result == (G.KeyScan(s, i).0, key + G.KeyScan(s, i).1)
      invariant i == |s| ==> result == (end, key)
      decreases |s| - i
    {
      ghost var before := key;
      end := i;
      if !IsSpace(s[i]) {
        if s[i] == ':' {
          assert key + "" == key;
          assert result == (end, key);
          break;
        }
        key := key + [s[i]];
      }
      KeyLoopStep(s, i, before, key, result);
      i := i + 1;
    }
  }

  /** One character of the scan of `parse_key`: a `:` is not copied, whitespace is skipped. */
  lemma {:induction false} KeyStep(s: string, i: nat)
    requires i < |s| && s[i] != ':'
    ensures var h := if IsSpace(s[i]) then "" else [s[i]];
      && (i + 1 < |s| ==> G.KeyScan(s, i) == (G.KeyScan(s, i + 1).0, h + G.KeyScan(s, i + 1).1))
      && (i + 1 == |s| ==> G.KeyScan(s, i) == (i, h))
  {
    assert (if IsSpace(s[i]) then "" else [s[i]]) + "" == (if IsSpace(s[i]) then "" else [s[i]]);
  }

  /** The invariant of the loop of `ParseKey` kept across a character that is not a `:`. */
  lemma {:induction false} KeyLoopStep(s: string, i: nat, before: string, key: string, result: (nat, string))
    requires i < |s| && s[i] != ':' && result == (G.KeyScan(s, i).0, before + G.KeyScan(s, i).1)
    requires key == before + (if IsSpace(s[i]) then "" else [s[i]])
    ensures i + 1 < |s| ==> result == (G.KeyScan(s, i + 1).0, key + G.KeyScan(s, i + 1).1)
    ensures i + 1 == |s| ==> result == (i, key)
  {
    KeyStep(s, i);
    var h := if IsSpace(s[i]) then "" else [s[i]];
    if i + 1 < |s| {
      var t := G.KeyScan(s, i + 1).1;
      assert before + (h + t) == (before + h) + t;
    }
  }

  /** What the scan of a quoted token answers once `p` has already been copied. */
  function Prefixed(p: string, r: Result<(nat, string)>): Result<(nat, string)> {
    if r.Ok? then Ok((r.value.0, p + r.value.1)) else r
  }

  lemma {:induction false} PrefixedTwice(p: string, q: string, r: Result<(nat, string)>)
    ensures Prefixed(p, Prefixed(q, r)) == Prefixed(p + q, r)
  {
    if r.Ok? {
      assert p + (q + r.value.1) == (p + q) + r.value.1;
    }
  }

  /** `parse_string`: copies characters up to the closing quote, dropping each `\` and copying
      the character after it whatever it is. */
  method ParseString(s: string, index: nat) returns (r: Result<(nat, string)>)
    ensures r == G.ParseString(s, index)
  {
    if index >= |s| {
      return Err(IndexOutOfRange);
    }
    if s[index] != '"' {
      return Err(NotOpened('"'));
    }
    var value := "\"";
    var escaped := false;
    assert G.ParseString(s, index) == Prefixed(value, G.StringScan(s, index + 1, false));
    var i := index + 1;
    while i < |s|
      invariant index + 1 <= i <= |s|
      invariant G.ParseString(s, index) == Prefixed(value, G.StringScan(s, i, escaped))
      decreases |s| - i
    {
      var c := s[i];
      if escaped {
        escaped := false;
        PrefixedTwice(value, [c], G.StringScan(s, i + 1, false));
        value := value + [c];
      } else if c == '\\' {
        escaped := true;
        i := i + 1;
        continue;
      } else {
        PrefixedTwice(value, [c], G.StringScan(s, i + 1, false));
        value := value + [c];
        if c == '"' {
          return Ok((i + 1, value));
        }
      }
      i := i + 1;
    }
    return Err(StringNeverClosed);
  }

  /** `parse_value`: a compound, a list, a quoted token, or a bare token copied verbatim up to
      the stop character of its context. */
  method ParseValue(s: string, index: nat, inCompound: bool) returns (r: Result<(nat, Value)>)
    ensures r == G.ParseValue(s, index, inCompound)
    decreases |s| - index, 2
  {
    if index >= |s| {
      return Err(IndexOutOfRange);
    }
    var first := s[index];
    if first == '{' {
      r := ParseCompound(s, index);
    } else if first == '[' {
      r := ParseList(s, index);
    } else if first == '"' {
      var t := ParseString(s, index);
      if t.Err? {
        return Err(t.error);
      }
      r := Ok((t.value.0, Scalar(t.value.1)));
    } else {
      var value := "";
      var last := 0;
      var i := index;
      while i < |s|
        invariant index <= i <= |s|
        invariant value == s[index..i]
        invariant forall k | index <= k < i :: !G.IsStop(s[k], inCompound)
        invariant i > index ==> last == i - 1
        decreases |s| - i
      {
        last := i;
        if G.IsStop(s[i], inCompound) {
          break;
        }
        value := value + [s[i]];
        i := i + 1;
      }
      assert last == G.BareEnd(s, index, inCompound);
      if i == |s| {
        assert s[index..] == s[index..i];
      }
      r := Ok((last, Scalar(value)));
    }
  }

  /** `parse_compound`: reads `key:value` entries separated by `,` into a dict until `}`. */
  method ParseCompound(s: string, index: nat) returns (r: Result<(nat, Value)>)
    ensures r == G.ParseCompound(s, index)
    decreases |s| - index, 1
  {
    if index >= |s| {
      return Err(IndexOutOfRange);
    }
    if s[index] != '{' {
      return Err(NotOpened('{'));
    }
    var tag: seq<Field> := [];
    var start := index + 1;
    var i := start;
    ghost var result := G.ParseCompound(s, index);
    while i < |s| && s[i] != '}'
      invariant start <= i
      invariant result == G.CompoundLoop(s, start, i, tag)
      decreases |s| - i
    {
      LoopUnfold(s, start, i, tag);
      if i > start {
        var j := G.Expect(s, i, ",");
        if j.Err? {
          assert result == Err(j.error);
          return Err(j.error);
        }
        assert j.value == i + 1;
        i := j.value;
        if s[i] == '}' {
          assert result == G.CompoundLoop(s, start, i, tag);
          break;
        }
      }
      assert result == G.CompoundEntry(s, start, i, tag);
      var e := ReadEntry(s, start, i, tag);
      if e.Err? {
        return Err(e.error);
      }
      i, tag := e.value.0, e.value.1;
    }
    if i >= |s| {
      assert result == Err(IndexOutOfRange);
      return Err(IndexOutOfRange);
    }
    LoopExit(s, start, i, tag);
    assert result == Ok((i + 1, Compound(tag)));
    return Ok((i + 1, Compound(tag)));
  }

  /** One `key:value` entry of `parse_compound`, read from `i`: the index after the value and the
      dict with the entry put in, or the error that ends the loop. */
  method ReadEntry(s: string, start: nat, i: nat, tag: seq<Field>) returns (r: Result<(nat, seq<Field>)>)
    requires i < |s|
    ensures r.Err? ==> G.CompoundEntry(s, start, i, tag) == Err(r.error)
    ensures r.Ok? ==> i < r.value.0 < |s|
    ensures r.Ok? ==> G.CompoundEntry(s, start, i, tag) == G.CompoundLoop(s, start, r.value.0, r.value.1)
    decreases |s| - i, 0
  {
    var end, key := ParseKey(s, i);
    var v := ParseValue(s, end + 1, true);
    EntryStep(s, start, i, tag, end, key, v);
    if v.Err? {
      return Err(v.error);
    }
    if v.value.0 >= |s| {
      return Err(CompoundNeverClosed);
    }
    r := Ok((v.value.0, Put(tag, key, v.value.1)));
  }

  /** One pass of the loop of `parse_compound`: a `,` unless at the start, then `}` or an entry. */
  lemma {:induction false} LoopUnfold(s: string, start: nat, i: nat, fields: seq<Field>)
    requires start <= i < |s| && s[i] != '}'
    ensures i == start ==> G.CompoundLoop(s, start, i, fields) == G.CompoundEntry(s, start, i, fields)
    ensures i > start && G.Expect(s, i, ",").Err? ==>
      G.CompoundLoop(s, start, i, fields) == Err(G.Expect(s, i, ",").error)
    ensures i > start && G.Expect(s, i, ",").Ok? && s[i + 1] == '}' ==>
      G.CompoundLoop(s, start, i, fields) == G.CompoundLoop(s, start, i + 1, fields)
    ensures i > start && G.Expect(s, i, ",").Ok? && s[i + 1] != '}' ==>
      G.CompoundLoop(s, start, i, fields) == G.CompoundEntry(s, start, i + 1, fields)
  {
  }

  /** The loop of `parse_compound` ends at `}`. */
  lemma {:induction false} LoopExit(s: string, start: nat, i: nat, fields: seq<Field>)
    requires i < |s| && s[i] == '}'
    ensures G.CompoundLoop(s, start, i, fields) == Ok((i + 1, Compound(fields)))
  {
  }

  /** One entry of a compound: the key, then the value after the `:`, then the rest of the
      loop unless the text ends there. */
  lemma {:induction false} EntryStep(s: string, start: nat, i: nat, fields: seq<Field>, k: nat, key: string,
                  v: Result<(nat, Value)>)
    requires i < |s| && (k, key) == G.ParseKey(s, i) && v == G.ParseValue(s, k + 1, true)
    ensures v.Err? ==> G.CompoundEntry(s, start, i, fields) == Err(v.error)
    ensures v.Ok? && v.value.0 >= |s| ==> G.CompoundEntry(s, start, i, fields) == Err(CompoundNeverClosed)
    ensures v.Ok? && v.value.0 < |s| ==>
      G.CompoundEntry(s, start, i, fields) == G.CompoundLoop(s, start, v.value.0, Put(fields, key, v.value.1))
  {
    if v.Ok? {
      var (e, val) := v.value;
      if e < |s| {
        assert G.CompoundEntry(s, start, i, fields) == G.CompoundLoop(s, start, e, Put(fields, key, val));
      }
    }
  }

  /** `parse_list`: reads values separated by `,` into a list until `]`.  A `,` is expected
      before every item but the first. */
  method ParseList(s: string, index: nat) returns (r: Result<(nat, Value)>)
    ensures r == G.ParseList(s, index)
    decreases |s| - index, 1
  {
    if index >= |s| {
      return Err(IndexOutOfRange);
    }
    if s[index] != '[' {
      return Err(NotOpened('['));
    }
    var tag: seq<Value> := [];
    var start := index + 1;
    var i := start;
    var first := true;
    ghost var result := G.ParseList(s, index);
    while i < |s| && s[i] != ']'
      invariant start <= i && (first ==> i == start)
      invariant result == G.ListLoop(s, i, first, tag)
      decreases |s| - i, if first then 1 else 0
    {
      if !first {
        var j := G.Expect(s, i, ",");
        if j.Err? {
          return Err(j.error);
        }
        i := j.value;
      }
      var v := ParseValue(s, i, false);
      if v.Err? {
        return Err(v.error);
      }
      i := v.value.0;
      tag := tag + [v.value.1];
      first := false;
    }
    if i >= |s| {
      return Err(IndexOutOfRange);
    }
    return Ok((i + 1, List(tag)));
  }
}
