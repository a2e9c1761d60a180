/** Target selectors `@a[k=v,...]`: `parse_selector`, which reads one into its type and a dict
    of arguments, and `selector_string`, which prints one back. */
module Selectors {
  import opened Wrappers
  import opened Text

  /** One `key=value` argument of a selector. */
  datatype Arg = Arg(key: string, value: string)

  /** The keys given, in order, to the arguments written without `=`. */
  const ImplicitKeys: seq<string> := ["x", "y", "z", "r"]

  predicate IsSelectorType(c: char) {
    c == 'a' || c == 'p' || c == 'r' || c == 'e'
  }

  /** `SEL_PAT.match(sel)` for `^@[apre](\[.*\])?$`: `.` does not match a newline, and `$` also
      matches just before a newline that ends the text. */
  predicate SelectorShape(sel: string) {
    |sel| >= 2 && sel[0] == '@' && IsSelectorType(sel[1]) && BracketsShape(DropFinalNewline(sel[2..]))
  }

  /** Nothing, or `[`, anything but a newline, and `]`. */
  predicate BracketsShape(b: string) {
    b == [] || (|b| >= 2 && b[0] == '[' && b[|b| - 1] == ']' && '\n' !in b)
  }

  // The arguments as a dict: a key is stored once, a new key goes last.

  predicate Holds(es: seq<Arg>, key: string) {
    exists i | 0 <= i < |es| :: es[i].key == key
  }

  predicate Distinct(es: seq<Arg>) {
    forall i, j | 0 <= i < j < |es| :: es[i].key != es[j].key
  }

  /** `entries[key] = value`. */
  function Assign(es: seq<Arg>, key: string, value: string): (r: seq<Arg>)
    ensures Holds(es, key) ==> |r| == |es|
    ensures !Holds(es, key) ==> r == es + [Arg(key, value)]
  {
    if es == [] then [Arg(key, value)]
    else if es[0].key == key then [Arg(key, value)] + es[1..]
    else
      assert Holds(es, key) ==> Holds(es[1..], key) by {
        if Holds(es, key) {
          var i :| 0 <= i < |es| && es[i].key == key;
          assert es[1..][i - 1] == es[i];
        }
      }
      assert !Holds(es, key) ==> !Holds(es[1..], key) by {
        if Holds(es[1..], key) {
          var i :| 0 <= i < |es| - 1 && es[1..][i].key == key;
          assert es[i + 1] == es[1..][i];
        }
      }
      [es[0]] + Assign(es[1..], key, value)
  }

  /** `entries.get(key)`. */
  function Get(es: seq<Arg>, key: string): (r: Option<string>)
  {
    if es == [] then None
    else if es[0].key == key then Some(es[0].value)
    else Get(es[1..], key)
  }

  /** Storing the value a key already reads as changes nothing. */
  lemma {:induction false} AssignGet(es: seq<Arg>, key: string)
    requires Get(es, key).Some?
    ensures Assign(es, key, Get(es, key).value) == es
  {
    if es[0].key != key {
      AssignGet(es[1..], key);
    }
  }

  /** After `entries[key] = value`, `entries.get(key)` is the value stored, and every other key
      reads as before. */
  lemma {:induction false} GetAssign(es: seq<Arg>, key: string, value: string, other: string)
    requires other != key
    ensures Get(Assign(es, key, value), key) == Some(value)
    ensures Get(Assign(es, key, value), other) == Get(es, other)
  {
    if es != [] && es[0].key != key {
      GetAssign(es[1..], key, value, other);
      assert Assign(es, key, value)[1..] == Assign(es[1..], key, value);
    } else if es != [] {
      assert Assign(es, key, value)[1..] == es[1..];
    }
  }

  /** Every argument after `entries[key] = value` is the one stored or was there before. */
  lemma {:induction false} AssignFrom(es: seq<Arg>, key: string, value: string)
    ensures forall i | 0 <= i < |Assign(es, key, value)| ::
      Assign(es, key, value)[i] == Arg(key, value) || Assign(es, key, value)[i] in es
  {
    var r := Assign(es, key, value);
    if es != [] && es[0].key != key {
      AssignFrom(es[1..], key, value);
      var t := Assign(es[1..], key, value);
      forall i | 1 <= i < |r| ensures r[i] == Arg(key, value) || r[i] in es {
        assert r[i] == t[i - 1];
        if t[i - 1] != Arg(key, value) {
          var m :| 0 <= m < |es| - 1 && es[1..][m] == t[i - 1];
          assert es[m + 1] == r[i];
        }
      }
    } else if es != [] {
      forall i | 1 <= i < |r| ensures r[i] in es {
        assert r[i] == es[i];
      }
    }
  }

  /** `entries[key] = value` never stores a key twice. */
  lemma {:induction false} AssignDistinct(es: seq<Arg>, key: string, value: string)
    requires Distinct(es)
    ensures Distinct(Assign(es, key, value))
  {
    var r := Assign(es, key, value);
    if es != [] && es[0].key != key {
      var t := Assign(es[1..], key, value);
      assert Distinct(es[1..]) by {
        forall a, b | 0 <= a < b < |es| - 1 ensures es[1..][a].key != es[1..][b].key {
          assert es[1..][a] == es[a + 1] && es[1..][b] == es[b + 1];
        }
      }
      AssignDistinct(es[1..], key, value);
      AssignFrom(es[1..], key, value);
      forall a, b | 0 <= a < b < |r| ensures r[a].key != r[b].key {
        assert r[b] == t[b - 1];
        if a == 0 {
          if t[b - 1] != Arg(key, value) {
            var m :| 0 <= m < |es| - 1 && es[1..][m] == t[b - 1];
            assert es[m + 1] == r[b];
          }
        } else {
          assert r[a] == t[a - 1];
        }
      }
    } else if es != [] {
      forall a, b | 0 <= a < b < |r| ensures r[a].key != r[b].key {
        assert r[a].key == es[a].key && r[b].key == es[b].key;
      }
    }
  }

  /** What the loop of `parse_selector` computes from the argument `i` on, with the dict and the
      count of implicit keys used so far.  An argument holding two `=` cannot be unpacked into a
      key and a value; a fifth argument without `=` has no implicit key left. */
  function ReadArgs(values: seq<string>, i: nat, es: seq<Arg>, implicit: nat): (r: Result<seq<Arg>>)
    decreases |values| - i
  {
    if i >= |values| then Ok(es)
    else
      var v := Split(values[i], '=');
      if |v| == 1 then
        if implicit >= |ImplicitKeys| then Err(IndexOutOfRange)
        else ReadArgs(values, i + 1, Assign(es, ImplicitKeys[implicit], v[0]), implicit + 1)
      else if |v| == 2 then ReadArgs(values, i + 1, Assign(es, v[0], v[1]), implicit)
      else Err(TooManyEquals)
  }

  /** `parse_selector(sel)`: `None` for a text that is not a selector, the type and no
      arguments for one of at most 4 characters, otherwise the type and the arguments read from
      between the third and the last character. */
  function ParseSelectorSpec(sel: string): (r: Result<Option<(char, seq<Arg>)>>)
    ensures r == Ok(None) <==> !SelectorShape(sel)
    ensures SelectorShape(sel) && |sel| <= 4 ==> r == Ok(Some((sel[1], [])))
    ensures r.Ok? && r.value.Some? ==> r.value.value.0 == sel[1] && IsSelectorType(sel[1])
  {
    if !SelectorShape(sel) then Ok(None)
    else if |sel| <= 4 then Ok(Some((sel[1], [])))
    else
      match ReadArgs(Split(sel[3..|sel| - 1], ','), 0, [], 0)
      case Err(e) => Err(e)
      case Ok(es) => Ok(Some((sel[1], es)))
  }

  /** `parse_selector`: splits the arguments at `,` and fills the dict one argument at a time. */
  method ParseSelector(sel: string) returns (r: Result<Option<(char, seq<Arg>)>>)
    ensures r == ParseSelectorSpec(sel)
  {
    if !SelectorShape(sel) {
      return Ok(None);
    }
    var t := sel[1];
    if |sel| <= 4 {
      return Ok(Some((t, [])));
    }
    var entries := FillEntries(Split(sel[3..|sel| - 1], ','));
    if entries.Err? {
      return Err(entries.error);
    }
    return Ok(Some((t, entries.value)));
  }

  /** The loop of `parse_selector` over the `,`-separated arguments: an argument without `=`
      takes the next implicit key, one with a single `=` is a key and its value. */
  method FillEntries(values: seq<string>) returns (r: Result<seq<Arg>>)
    ensures r == ReadArgs(values, 0, [], 0)
  {
    var entries: seq<Arg> := [];
    var implicitIndex := 0;
    ghost var result := ReadArgs(values, 0, [], 0);
    for k := 0 to |values|
      invariant result == ReadArgs(values, k, entries, implicitIndex)
    {
      var v := Split(values[k], '=');
      ReadArgsStep(values, k, entries, implicitIndex);
      if |v| == 1 {
        if implicitIndex >= |ImplicitKeys| {
          return Err(IndexOutOfRange);
        }
        entries := Assign(entries, ImplicitKeys[implicitIndex], v[0]);
        implicitIndex := implicitIndex + 1;
      } else if |v| == 2 {
        entries := Assign(entries, v[0], v[1]);
      } else {
        return Err(TooManyEquals);
      }
    }
    return Ok(entries);
  }

  /** One pass of the loop of `parse_selector`. */
  lemma {:induction false} ReadArgsStep(values: seq<string>, i: nat, es: seq<Arg>, implicit: nat)
    requires i < |values|
    ensures var v := Split(values[i], '=');
      && (|v| == 1 && implicit >= |ImplicitKeys| ==> ReadArgs(values, i, es, implicit) == Err(IndexOutOfRange))
      && (|v| == 1 && implicit < |ImplicitKeys| ==>
          ReadArgs(values, i, es, implicit) == ReadArgs(values, i + 1, Assign(es, ImplicitKeys[implicit], v[0]), implicit + 1))
      && (|v| == 2 ==> ReadArgs(values, i, es, implicit) == ReadArgs(values, i + 1, Assign(es, v[0], v[1]), implicit))
      && (|v| > 2 ==> ReadArgs(values, i, es, implicit) == Err(TooManyEquals))
  {
  }

  /** The text of one argument. */
  function ArgText(a: Arg): string {
    a.key + "=" + a.value
  }

  function ArgTexts(es: seq<Arg>): (ts: seq<string>)
    ensures |ts| == |es|
    ensures forall i | 0 <= i < |es| :: ts[i] == ArgText(es[i])
  {
    if es == [] then [] else [ArgText(es[0])] + ArgTexts(es[1..])
  }

  /** `selector_string(type, entries)`: `@`, the type, and the arguments between brackets when
      there are any. */
  function SelectorString(t: char, es: seq<Arg>): (r: string)
    ensures es == [] ==> r == ['@', t]
    ensures es != [] ==> |r| >= 5 && r[..3] == ['@', t, '['] && r[|r| - 1] == ']'
  {
    if es == [] then ['@', t]
    else
      var body := Join(ArgTexts(es), ",");
      JoinLength(ArgTexts(es), ",");
      ['@', t, '['] + body + "]"
  }

  lemma {:induction false} JoinLength(parts: seq<string>, sep: string)
    requires |parts| >= 1 && |parts[0]| >= 1
    ensures |Join(parts, sep)| >= 1
  {
  }

  /** An argument the printer and the reader agree on: no `,`, `=` or newline in its key or
      value. */
  predicate PlainText(t: string) {
    ',' !in t && '=' !in t && '\n' !in t
  }

  predicate PlainArgs(es: seq<Arg>) {
    forall i | 0 <= i < |es| :: PlainText(es[i].key) && PlainText(es[i].value)
  }

  /** Arguments read back one by one, after the first `i` of them, rebuild the dict. */
  lemma {:induction false} ReadArgsRebuild(es: seq<Arg>, i: nat, implicit: nat)
    requires i <= |es| && Distinct(es) && PlainArgs(es)
    ensures ReadArgs(ArgTexts(es), i, es[..i], implicit) == Ok(es)
    decreases |es| - i
  {
    if i < |es| {
      var a := es[i];
      var ts := ArgTexts(es);
      SplitJoin([a.key, a.value], '=');
      assert Join([a.key, a.value], "=") == ts[i];
      forall j | 0 <= j < i ensures es[..i][j].key != a.key {
        assert es[..i][j] == es[j];
      }
      assert es[..i] + [a] == es[..i + 1];
      ReadArgsRebuild(es, i + 1, implicit);
    } else {
      assert es[..i] == es;
    }
  }

  /** Printing a selector whose arguments are plain and distinct and reading it back gives the
      same type and arguments, in the same order. */
  lemma {:induction false} SelectorRoundTrip(t: char, es: seq<Arg>)
    requires IsSelectorType(t) && Distinct(es) && PlainArgs(es)
    ensures ParseSelectorSpec(SelectorString(t, es)) == Ok(Some((t, es)))
  {
    var sel := SelectorString(t, es);
    if es != [] {
      var ts := ArgTexts(es);
      var body := Join(ts, ",");
      assert sel == ['@', t, '['] + body + "]";
      assert sel[2..] == "[" + body + "]";
      JoinPlain(ts, ",");
      assert '\n' !in body;
      assert SelectorShape(sel);
      assert sel[3..|sel| - 1] == body;
      SplitJoin(ts, ',');
      ReadArgsRebuild(es, 0, 0);
      assert es[..0] == [];
    }
  }

  /** The joined texts of plain arguments hold no newline. */
  lemma {:induction false} JoinPlain(ts: seq<string>, sep: string)
    requires '\n' !in sep
    requires forall k | 0 <= k < |ts| :: '\n' !in ts[k]
    ensures '\n' !in Join(ts, sep)
  {
    if |ts| > 1 {
      JoinPlain(ts[1..], sep);
    }
  }

  lemma {:induction false} ReadArgsPlain(values: seq<string>, i: nat, es: seq<Arg>, implicit: nat)
    requires forall k | 0 <= k < |values| :: ',' !in values[k] && '\n' !in values[k]
    requires Distinct(es) && PlainArgs(es)
    ensures ReadArgs(values, i, es, implicit).Ok? ==>
      Distinct(ReadArgs(values, i, es, implicit).value) && PlainArgs(ReadArgs(values, i, es, implicit).value)
    decreases |values| - i
  {
    if i < |values| {
      var v := Split(values[i], '=');
      JoinSplit(values[i], '=');
      if |v| == 1 && implicit < |ImplicitKeys| {
        assert v[0] == values[i];
        AssignPlain(es, ImplicitKeys[implicit], v[0]);
        ReadArgsPlain(values, i + 1, Assign(es, ImplicitKeys[implicit], v[0]), implicit + 1);
      } else if |v| == 2 {
        assert values[i] == v[0] + "=" + v[1];
        assert forall c | c in v[0] || c in v[1] :: c in values[i];
        AssignPlain(es, v[0], v[1]);
        ReadArgsPlain(values, i + 1, Assign(es, v[0], v[1]), implicit);
      }
    }
  }

  lemma {:induction false} AssignPlain(es: seq<Arg>, key: string, value: string)
    requires Distinct(es) && PlainArgs(es) && PlainText(key) && PlainText(value)
    ensures Distinct(Assign(es, key, value)) && PlainArgs(Assign(es, key, value))
  {
    AssignFrom(es, key, value);
    AssignDistinct(es, key, value);
    var r := Assign(es, key, value);
    forall i | 0 <= i < |r| ensures PlainText(r[i].key) && PlainText(r[i].value) {
      if r[i] != Arg(key, value) {
        var m :| 0 <= m < |es| && es[m] == r[i];
      }
    }
  }

  /** What `parse_selector` answers is plain and distinct, so printing it and reading it back
      gives the same answer. */
  lemma {:induction false} ReparseSelector(sel: string)
    requires ParseSelectorSpec(sel).Ok? && ParseSelectorSpec(sel).value.Some?
    ensures var (t, es) := ParseSelectorSpec(sel).value.value;
      ParseSelectorSpec(SelectorString(t, es)) == ParseSelectorSpec(sel)
  {
    var (t, es) := ParseSelectorSpec(sel).value.value;
    if |sel| > 4 {
      var inner := sel[3..|sel| - 1];
      assert '\n' !in inner by {
        var b := DropFinalNewline(sel[2..]);
        assert forall k | 0 <= k < |inner| :: inner[k] == b[k + 1];
      }
      var values := Split(inner, ',');
      forall k | 0 <= k < |values| ensures '\n' !in values[k] {
        SplitPieceIn(inner, ',', k);
      }
      ReadArgsPlain(values, 0, [], 0);
    }
    SelectorRoundTrip(t, es);
  }

  /** Every character of a piece of a split is a character of the text. */
  lemma {:induction false} SplitPieceIn(s: string, sep: char, k: nat)
    requires k < |Split(s, sep)|
    ensures forall c | c in Split(s, sep)[k] :: c in s
  {
    if s != [] {
      var rest := Split(s[1..], sep);
      if s[0] == sep {
        if k > 0 {
          SplitPieceIn(s[1..], sep, k - 1);
        }
      } else {
        SplitPieceIn(s[1..], sep, k);
      }
    }
  }

  /** The arguments without `=` take the keys `x`, `y`, `z` and `r` in order. */
  function Implicit(vs: seq<string>): (es: seq<Arg>)
    requires |vs| <= |ImplicitKeys|
    ensures |es| == |vs|
    ensures forall k | 0 <= k < |vs| :: es[k] == Arg(ImplicitKeys[k], vs[k])
  {
    seq(|vs|, k requires 0 <= k < |vs| => Arg(ImplicitKeys[k], vs[k]))
  }

  /** Up to four arguments written without `=` become `x`, `y`, `z`, `r` in that order; a
      fifth has no key left and raises. */
  lemma {:induction false} ImplicitArgs(vs: seq<string>, i: nat)
    requires i <= |vs| <= |ImplicitKeys|
    requires forall k | 0 <= k < |vs| :: '=' !in vs[k]
    ensures ReadArgs(vs, i, Implicit(vs[..i]), i) == Ok(Implicit(vs))
    decreases |vs| - i
  {
    if i < |vs| {
      SplitNoSep(vs[i], "", '=');
      assert vs[i] + "" == vs[i];
      var es := Implicit(vs[..i]);
      assert !Holds(es, ImplicitKeys[i]);
      assert es + [Arg(ImplicitKeys[i], vs[i])] == Implicit(vs[..i + 1]);
      ImplicitArgs(vs, i + 1);
    } else {
      assert vs[..i] == vs;
    }
  }

  lemma {:induction false} FifthImplicitArg(vs: seq<string>)
    requires |vs| == 5 && forall k | 0 <= k < |vs| :: '=' !in vs[k]
    ensures ReadArgs(vs, 0, [], 0) == Err(IndexOutOfRange)
  {
    ImplicitPrefix(vs, 0);
    SplitNoSep(vs[4], "", '=');
    assert vs[4] + "" == vs[4];
  }

  /** Reading five arguments without `=` reads the first four as the implicit ones. */
  lemma {:induction false} ImplicitPrefix(vs: seq<string>, i: nat)
    requires |vs| == 5 && i <= 4 && forall k | 0 <= k < |vs| :: '=' !in vs[k]
    ensures ReadArgs(vs, i, Implicit(vs[..i]), i) == ReadArgs(vs, 4, Implicit(vs[..4]), 4)
    decreases 4 - i
  {
    if i < 4 {
      SplitNoSep(vs[i], "", '=');
      assert vs[i] + "" == vs[i];
      var es := Implicit(vs[..i]);
      assert !Holds(es, ImplicitKeys[i]);
      assert es + [Arg(ImplicitKeys[i], vs[i])] == Implicit(vs[..i + 1]);
      ImplicitPrefix(vs, i + 1);
    }
  }
}
