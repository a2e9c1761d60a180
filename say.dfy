/** `SayCommand`: the rule that turns `/say <text>` into `/tellraw @a` with one JSON text
    component per run of the text, reading Minecraft's `§` formatting codes. */
module Say {
  import opened Wrappers
  import opened Text

  /** `say_to_tellraw` when the rule is registered: the tag that carries each run. */
  datatype SayMode = TextTag | TranslateTag

  /** `text_tag`. */
  function TextTagName(mode: SayMode): (r: string)
    ensures r == "text" || r == "translate"
  {
    match mode
    case TextTag => "text"
    case TranslateTag => "translate"
  }

  /** The section sign that introduces a formatting code. */
  const Section: char := '§'

  /** `COLOR_RESET`, the colour of the first run. */
  const Reset: nat := 16

  /** `color_table`: the colour a code selects. */
  function ColorCode(code: char): (r: Option<nat>)
    ensures r.Some? ==> r.value <= Reset
  {
    match code
    case '0' => Some(0)
    case '1' => Some(1)
    case '2' => Some(2)
    case '3' => Some(3)
    case '4' => Some(4)
    case '5' => Some(5)
    case '6' => Some(6)
    case '7' => Some(7)
    case '8' => Some(8)
    case '9' => Some(9)
    case 'a' => Some(10)
    case 'b' => Some(11)
    case 'c' => Some(12)
    case 'd' => Some(13)
    case 'e' => Some(14)
    case 'f' => Some(15)
    case 'r' => Some(16)
    case _ => None
  }

  /** `modifier_table`: the bit of the style mask a code sets. */
  function StyleBit(code: char): (r: Option<bv8>)
    ensures r.Some? ==> r.value in {1, 2, 4, 8, 16}
  {
    match code
    case 'l' => Some(1)
    case 'k' => Some(2)
    case 'm' => Some(4)
    case 'n' => Some(8)
    case 'o' => Some(16)
    case _ => None
  }

  /** `color_values`. */
  function ColorName(color: nat): (r: string)
    requires color <= Reset
    ensures r != ""
  {
    match color
    case 0 => "black"
    case 1 => "dark_blue"
    case 2 => "dark_green"
    case 3 => "dark_aqua"
    case 4 => "dark_red"
    case 5 => "dark_purple"
    case 6 => "gold"
    case 7 => "gray"
    case 8 => "dark_gray"
    case 9 => "blue"
    case 10 => "green"
    case 11 => "aqua"
    case 12 => "red"
    case 13 => "light_purple"
    case 14 => "yellow"
    case 15 => "white"
    case _ => "reset"
  }

  /** What `split_value` yields: the colour and style registers, and a run of text. */
  datatype Run = Run(color: nat, styles: bv8, text: string)

  /** The registers after one code: a style code adds its bit; otherwise a colour code selects
      its colour and clears the styles; any other code changes nothing. */
  function ApplyCode(color: nat, styles: bv8, code: char): (r: (nat, bv8))
    requires color <= Reset
    ensures r.0 <= Reset
    ensures StyleBit(code).Some? ==> r.0 == color && r.1 & styles == styles
    ensures StyleBit(code).None? && ColorCode(code).Some? ==> r.1 == 0
    ensures StyleBit(code).None? && ColorCode(code).None? ==> r == (color, styles)
  {
    if StyleBit(code).Some? then (color, styles | StyleBit(code).value)
    else if ColorCode(code).Some? then (ColorCode(code).value, 0)
    else (color, styles)
  }

  /** The runs yielded for the pieces after the first `§`: each piece is a code and a text, the
      code updates the registers, and a non-empty text is yielded with them.  A piece without
      a code (two `§` in a row, or one at the end) raises `IndexError` at `part[0]`. */
  function RunsFrom(parts: seq<string>, color: nat, styles: bv8): (r: Result<seq<Run>>)
    requires color <= Reset
    ensures r.Ok? ==> forall k | 0 <= k < |r.value| :: r.value[k].color <= Reset && r.value[k].text != ""
  {
    if parts == [] then Ok([])
    else if parts[0] == "" then Err(IndexOutOfRange)
    else
      var (c, s) := ApplyCode(color, styles, parts[0][0]);
      var rest :- RunsFrom(parts[1..], c, s);
      Ok(if parts[0][1..] == "" then rest else [Run(c, s, parts[0][1..])] + rest)
  }

  /** `split_value(text)`: the text before the first `§` with the reset colour and no style,
      even when it is empty, then the runs of the other pieces. */
  function SplitValueSpec(text: string): (r: Result<seq<Run>>)
    ensures r.Ok? ==> |r.value| >= 1 && r.value[0].color == Reset && r.value[0].styles == 0
    ensures r.Ok? ==> forall k | 0 <= k < |r.value| :: r.value[k].color <= Reset
  {
    var parts := Split(text, Section);
    var rest :- RunsFrom(parts[1..], Reset, 0);
    Ok([Run(Reset, 0, parts[0])] + rest)
  }

  /** `acc` followed by the runs of `r`, or the error of `r`. */
  function Then(acc: seq<Run>, r: Result<seq<Run>>): (t: Result<seq<Run>>)
    ensures t.Ok? <==> r.Ok?
  {
    match r
    case Ok(v) => Ok(acc + v)
    case Err(e) => Err(e)
  }

  /** The generator `split_value`, run to the end: the registers are threaded through a loop
      over the pieces. */
  method SplitValue(text: string) returns (r: Result<seq<Run>>)
    ensures r == SplitValueSpec(text)
  {
    var parts := Split(text, Section);
    var color: nat, styles: bv8 := Reset, 0;
    var runs := [Run(color, styles, parts[0])];
    var k := 1;
    while k < |parts|
      invariant 1 <= k <= |parts| && color <= Reset
      invariant SplitValueSpec(text) == Then(runs, RunsFrom(parts[k..], color, styles))
    {
      if parts[k] == "" {
        return Err(IndexOutOfRange);
      }
      var code, part := parts[k][0], parts[k][1..];
      ghost var (color0, styles0, runs0) := (color, styles, runs);
      var registers := ApplyCode(color, styles, code);
      color, styles := registers.0, registers.1;
      if part != "" {
        runs := runs + [Run(color, styles, part)];
      }
      RunsStep(parts[k..], color0, styles0, runs0, color, styles, runs);
      assert parts[k..][1..] == parts[k + 1..];
      k := k + 1;
    }
    assert runs + [] == runs;
    r := Ok(runs);
  }

  /** One step of the loop of `SplitValue`, seen on the specification. */
  lemma {:induction false} RunsStep(parts: seq<string>, color: nat, styles: bv8, acc: seq<Run>, c: nat, s: bv8, next: seq<Run>)
    requires parts != [] && parts[0] != "" && color <= Reset
    requires (c, s) == ApplyCode(color, styles, parts[0][0])
    requires next == if parts[0][1..] == "" then acc else acc + [Run(c, s, parts[0][1..])]
    ensures Then(acc, RunsFrom(parts, color, styles)) == Then(next, RunsFrom(parts[1..], c, s))
  {
    var text := parts[0][1..];
    var rest := RunsFrom(parts[1..], c, s);
    if rest.Ok? && text != "" {
      assert acc + ([Run(c, s, text)] + rest.value) == acc + [Run(c, s, text)] + rest.value;
    }
  }

  // ---------------------------------------------------------------------------------------
  // What `split_value` reads: the text without its codes, and the texts it refuses.

  /** The text with every `§` and the code character after it removed. */
  function Decoded(s: string): (r: string)
  {
    if s == [] then ""
    else if s[0] == Section then (if |s| >= 2 then Decoded(s[2..]) else "")
    else [s[0]] + Decoded(s[1..])
  }

  /** A `§` with no code after it: at the end of the text, or right before another `§`. */
  predicate BadCode(s: string)
  {
    s != [] && (if s[0] == Section then |s| == 1 || s[1] == Section || BadCode(s[1..]) else BadCode(s[1..]))
  }

  /** Some piece has no code character. */
  predicate AnyEmpty(parts: seq<string>)
  {
    parts != [] && (parts[0] == "" || AnyEmpty(parts[1..]))
  }

  /** The texts of the pieces after their code characters, one after the other. */
  function TailsText(parts: seq<string>): string
  {
    if parts == [] then "" else (if parts[0] == "" then "" else parts[0][1..]) + TailsText(parts[1..])
  }

  /** The texts of the runs, one after the other. */
  function Texts(runs: seq<Run>): string
  {
    if runs == [] then "" else runs[0].text + Texts(runs[1..])
  }

  lemma {:induction false} RunsErr(parts: seq<string>, color: nat, styles: bv8)
    requires color <= Reset
    ensures RunsFrom(parts, color, styles).Err? <==> AnyEmpty(parts)
  {
    if parts != [] && parts[0] != "" {
      var (c, s) := ApplyCode(color, styles, parts[0][0]);
      RunsErr(parts[1..], c, s);
    }
  }

  lemma {:induction false} RunsText(parts: seq<string>, color: nat, styles: bv8)
    requires color <= Reset && RunsFrom(parts, color, styles).Ok?
    ensures Texts(RunsFrom(parts, color, styles).value) == TailsText(parts)
  {
    if parts != [] {
      var (c, s) := ApplyCode(color, styles, parts[0][0]);
      RunsText(parts[1..], c, s);
      var rest := RunsFrom(parts[1..], c, s).value;
      if parts[0][1..] != "" {
        assert ([Run(c, s, parts[0][1..])] + rest)[1..] == rest;
      }
    }
  }

  /** The first piece of a split is empty exactly when the text is empty or starts with the
      separator. */
  lemma {:induction false} SplitFirstEmpty(s: string, sep: char)
    ensures Split(s, sep)[0] == "" <==> s == [] || s[0] == sep
  {
  }

  lemma {:induction false} SplitEmptyPiece(s: string)
    ensures AnyEmpty(Split(s, Section)[1..]) <==> BadCode(s)
  {
    if s != [] {
      SplitEmptyPiece(s[1..]);
      var p := Split(s[1..], Section);
      if s[0] == Section {
        assert Split(s, Section)[1..] == p;
        SplitFirstEmpty(s[1..], Section);
      } else {
        assert Split(s, Section)[1..] == p[1..];
      }
    }
  }

  lemma {:induction false} DecodedSplit(s: string)
    requires !BadCode(s)
    ensures var p := Split(s, Section); Decoded(s) == p[0] + TailsText(p[1..])
  {
    if s != [] {
      var p := Split(s[1..], Section);
      if s[0] == Section {
        var q := Split(s[2..], Section);
        DecodedSplit(s[2..]);
        assert Split(s, Section)[1..] == p;
        assert p == [[s[1]] + q[0]] + q[1..];
        assert p[1..] == q[1..];
      } else {
        DecodedSplit(s[1..]);
        assert Split(s, Section) == [[s[0]] + p[0]] + p[1..];
      }
    }
  }

  /** `split_value` raises exactly when a `§` has no code after it. */
  lemma {:induction false} SplitValueFails(text: string)
    ensures SplitValueSpec(text).Err? <==> BadCode(text)
  {
    RunsErr(Split(text, Section)[1..], Reset, 0);
    SplitEmptyPiece(text);
  }

  /** The runs of `split_value` hold exactly the text without its formatting codes. */
  lemma {:induction false} SplitValueText(text: string)
    requires SplitValueSpec(text).Ok?
    ensures Texts(SplitValueSpec(text).value) == Decoded(text)
  {
    var parts := Split(text, Section);
    SplitValueFails(text);
    RunsText(parts[1..], Reset, 0);
    DecodedSplit(text);
    var runs := SplitValueSpec(text).value;
    assert runs[1..] == RunsFrom(parts[1..], Reset, 0).value;
  }

  // ---------------------------------------------------------------------------------------
  // `get_text`: the selectors of a run and the text between them.

  /** The characters `@` may be followed by in a selector: `[apre]`. */
  predicate IsSelectorLetter(c: char) {
    c == 'a' || c == 'p' || c == 'r' || c == 'e'
  }

  /** True when every character of `s` is a `\w` character or `=`. */
  predicate WordsAndEquals(s: string) {
    forall k | 0 <= k < |s| :: IsWordChar(s[k]) || s[k] == '='
  }

  /** `(?:\w+=\w+)*`: either nothing, or pairs written back to back, so that splitting at `=`
      gives a non-empty first and last piece and pieces of at least two characters between
      (the value of one pair followed by the key of the next). */
  predicate PairsBody(b: string) {
    b == "" ||
    (WordsAndEquals(b) &&
     var segs := Split(b, '=');
     |segs| >= 2 && segs[0] != "" && segs[|segs| - 1] != "" &&
     forall k | 0 < k < |segs| - 1 :: |segs[k]| >= 2)
  }

  /** The index of the first `]` at or after `i`. */
  function FindClose(t: string, i: nat): (r: Option<nat>)
    requires i <= |t|
    ensures r.Some? ==> i <= r.value < |t| && t[r.value] == ']'
    ensures r.Some? ==> forall k | i <= k < r.value :: t[k] != ']'
    ensures r.None? ==> forall k | i <= k < |t| :: t[k] != ']'
    decreases |t| - i
  {
    if i == |t| then None else if t[i] == ']' then Some(i) else FindClose(t, i + 1)
  }

  /** Where `selector_pattern`, `(@[apre](?:(?:\[(?:\w+=\w+)*\])|(?=\s)|$))`, ends when it
      matches at `p`: a bracketed list of pairs, or nothing when whitespace or the end of the
      text follows the letter. */
  function SelectorAt(t: string, p: nat): (r: Option<nat>)
    requires p <= |t|
    ensures r.Some? ==> p + 2 <= r.value <= |t| && t[p] == '@'
  {
    if p + 2 > |t| || t[p] != '@' || !IsSelectorLetter(t[p + 1]) then None
    else if p + 2 < |t| && t[p + 2] == '[' then
      match FindClose(t, p + 3)
      case Some(q) => if PairsBody(t[p + 3..q]) then Some(q + 1) else None
      case None => None
    else if p + 2 < |t| && IsReSpace(t[p + 2]) then Some(p + 2)
    else if p + 2 == |t| then Some(p + 2)
    else None
  }

  /** `selector_pattern.split(t[start..])`, the scan having reached `p`: the text before each
      match, then the match (the pattern's one group), and the text after the last match. */
  function SplitFrom(t: string, start: nat, p: nat): (r: seq<string>)
    requires start <= p <= |t|
    ensures |r| % 2 == 1
    decreases |t| - p
  {
    if p == |t| then [t[start..]]
    else match SelectorAt(t, p)
      case Some(e) => [t[start..p], t[p..e]] + SplitFrom(t, e, e)
      case None => SplitFrom(t, start, p + 1)
  }

  /** `selector_pattern.split(text)`. */
  function SelectorSplit(text: string): (r: seq<string>)
    ensures |r| % 2 == 1
  {
    SplitFrom(text, 0, 0)
  }

  /** The pieces one after the other. */
  function Concat(parts: seq<string>): string
  {
    if parts == [] then "" else parts[0] + Concat(parts[1..])
  }

  lemma {:induction false} SplitFromConcat(t: string, start: nat, p: nat)
    requires start <= p <= |t|
    ensures Concat(SplitFrom(t, start, p)) == t[start..]
    decreases |t| - p
  {
    if p == |t| {
      assert Concat([t[start..]]) == t[start..] + Concat([]);
    } else {
      match SelectorAt(t, p)
      case Some(e) =>
        SplitFromConcat(t, e, e);
        var r := [t[start..p], t[p..e]] + SplitFrom(t, e, e);
        assert r[1..][1..] == SplitFrom(t, e, e);
        assert t[start..] == t[start..p] + (t[p..e] + t[e..]);
      case None =>
        SplitFromConcat(t, start, p + 1);
    }
  }

  /** The pieces of the split put back together are the text. */
  lemma {:induction false} SelectorSplitConcat(text: string)
    ensures Concat(SelectorSplit(text)) == text
  {
    SplitFromConcat(text, 0, 0);
  }

  /** Every other piece, from the second on, is a selector: `@`, a letter, and possibly more. */
  predicate SelectorsAtOdd(r: seq<string>) {
    forall k | 0 <= k < |r| && k % 2 == 1 :: |r[k]| >= 2 && r[k][0] == '@'
  }

  lemma {:induction false} SplitFromSelectors(t: string, start: nat, p: nat)
    requires start <= p <= |t|
    ensures SelectorsAtOdd(SplitFrom(t, start, p))
    decreases |t| - p
  {
    if p < |t| {
      match SelectorAt(t, p)
      case Some(e) =>
        SplitFromSelectors(t, e, e);
        var rest := SplitFrom(t, e, e);
        var r := [t[start..p], t[p..e]] + rest;
        assert r == SplitFrom(t, start, p);
        forall k | 0 <= k < |r| && k % 2 == 1 ensures |r[k]| >= 2 && r[k][0] == '@' {
          if k == 1 {
            assert r[k] == t[p..e];
          } else {
            assert r[k] == rest[k - 2];
          }
        }
      case None =>
        SplitFromSelectors(t, start, p + 1);
    }
  }

  /** The pieces alternate: text, a selector, text, ..., text; every other piece is a match of
      the selector pattern. */
  lemma {:induction false} SelectorSplitAlternates(text: string)
    ensures SelectorsAtOdd(SelectorSplit(text))
  {
    SplitFromSelectors(text, 0, 0);
  }

  lemma {:induction false} SplitFromNoAt(t: string, start: nat, p: nat)
    requires start <= p <= |t| && '@' !in t
    ensures SplitFrom(t, start, p) == [t[start..]]
    decreases |t| - p
  {
    if p < |t| {
      SplitFromNoAt(t, start, p + 1);
    }
  }

  /** A text without `@` is one piece. */
  lemma {:induction false} SelectorSplitNoAt(text: string)
    requires '@' !in text
    ensures SelectorSplit(text) == [text]
  {
    SplitFromNoAt(text, 0, 0);
  }

  /** A piece of text in translate mode: `%` doubled, `"` escaped with a backslash. */
  function Escape(p: string): (r: string)
  {
    Replace(Replace(p, '%', "%%"), '"', "\\\"")
  }

  /** The component of a piece of text: verbatim under `text`; escaped under `translate`, with
      each `=` turned into a `%s` parameter whose value, given in `with`, is `"="`. */
  function TextComponent(p: string, mode: SayMode): (r: string)
  {
    match mode
    case TextTag => "\"text\":\"" + p + "\""
    case TranslateTag =>
      var q := Escape(p);
      var n := Count(q, '=');
      if n > 0 then "\"translate\":\"" + Replace(q, '=', "%s") + "\",\"with\":[" + WithList(n) + "]"
      else "\"translate\":\"" + q + "\""
  }

  /** The `with` list of `n` parameters, each `"="`. */
  function WithList(n: nat): (r: string)
  {
    Join(seq(n, _ => "\"=\""), ",")
  }

  /** What `get_text` yields for one piece, `sel` being the flag once flipped for it: a piece
      read with the flag set is a selector, an empty piece of text yields nothing. */
  function PieceComponent(p: string, sel: bool, mode: SayMode): (r: seq<string>)
    ensures |r| <= 1
  {
    if sel then ["\"selector\":\"" + p + "\""]
    else if p == "" then []
    else [TextComponent(p, mode)]
  }

  /** The components `get_text` yields for the pieces, `sel` holding the flag before the
      first of them; the flag flips at every piece. */
  function Components(parts: seq<string>, sel: bool, mode: SayMode): (r: seq<string>)
  {
    if parts == [] then [] else PieceComponent(parts[0], !sel, mode) + Components(parts[1..], !sel, mode)
  }

  /** The generator `get_text`, run to the end. */
  method GetText(text: string, mode: SayMode) returns (out: seq<string>)
    ensures out == Components(SelectorSplit(text), true, mode)
  {
    var parts := SelectorSplit(text);
    var sel := true;
    out := [];
    var k := 0;
    while k < |parts|
      invariant 0 <= k <= |parts|
      invariant out + Components(parts[k..], sel, mode) == Components(parts, true, mode)
    {
      ComponentsStep(parts, k, sel, mode, out);
      ghost var before := out;
      sel := !sel;
      if sel {
        out := out + ["\"selector\":\"" + parts[k] + "\""];
      } else if parts[k] == "" {
      } else {
        out := out + [TextComponent(parts[k], mode)];
      }
      assert out == before + PieceComponent(parts[k], sel, mode);
      k := k + 1;
    }
  }

  lemma {:induction false} ComponentsStep(parts: seq<string>, k: nat, sel: bool, mode: SayMode, acc: seq<string>)
    requires k < |parts|
    ensures acc + Components(parts[k..], sel, mode)
      == (acc + PieceComponent(parts[k], !sel, mode)) + Components(parts[k + 1..], !sel, mode)
  {
    assert parts[k..][1..] == parts[k + 1..];
  }

  // ---------------------------------------------------------------------------------------
  // The escaping of translate mode.

  /** What `Escape` makes of one character. */
  function EscapeChar(c: char): (r: string)
    ensures r != [] && r[0] != '"'
  {
    if c == '%' then "%%" else if c == '"' then "\\\"" else [c]
  }

  lemma {:induction false} EscapeCons(p: string)
    requires p != []
    ensures Escape(p) == EscapeChar(p[0]) + Escape(p[1..])
  {
    assert p == [p[0]] + p[1..];
    ReplaceAppend([p[0]], p[1..], '%', "%%");
    var a := Replace([p[0]], '%', "%%");
    ReplaceAppend(a, Replace(p[1..], '%', "%%"), '"', "\\\"");
  }

  /** Reading an escaped text back: `%%` is a `%` and `\"` a `"`. */
  function Unescape(q: string): (r: string)
  {
    if q == [] then ""
    else if |q| >= 2 && q[0] == '%' && q[1] == '%' then "%" + Unescape(q[2..])
    else if |q| >= 2 && q[0] == '\\' && q[1] == '"' then "\"" + Unescape(q[2..])
    else [q[0]] + Unescape(q[1..])
  }

  /** The escaping of translate mode loses nothing: reading it back gives the piece. */
  lemma {:induction false} EscapeRoundTrip(p: string)
    ensures Unescape(Escape(p)) == p
  {
    if p != [] {
      EscapeCons(p);
      EscapeRoundTrip(p[1..]);
      var rest := Escape(p[1..]);
      var e := EscapeChar(p[0]);
      if |e| == 2 {
        assert (e + rest)[2..] == rest;
      } else {
        assert (e + rest)[1..] == rest;
        if rest != [] {
          EscapeCons(p[1..]);
        }
      }
      assert [p[0]] + p[1..] == p;
    }
  }

  // ---------------------------------------------------------------------------------------
  // `get_color`, `get_modifiers_json` and `formatter`.

  /** `get_color(color)`. */
  function ColorJson(color: nat): (r: string)
    requires color <= Reset
  {
    "\"color\":\"" + ColorName(color) + "\""
  }

  /** `modifier_values` in the order a Python 2 dict with the keys 1, 2, 4, 8 and 16 is
      iterated: 8 and 16 share a slot of the eight-slot table with 0, and 16 is probed last. */
  const ModifierValues: seq<(bv8, string)> := [
    (8, "\"underlined\":true"), (1, "\"bold\":true"), (2, "\"obfuscated\":true"),
    (4, "\"strikethrough\":true"), (16, "\"italic\":true")]

  /** `modifiers & key`, taken as a truth value. */
  predicate HasStyle(styles: bv8, bit: bv8) {
    styles & bit != 0
  }

  /** The members of `table` whose bit `styles` has, in the order of `table`. */
  function ModifiersFrom(table: seq<(bv8, string)>, styles: bv8): (r: seq<string>)
  {
    if table == [] then []
    else (if HasStyle(styles, table[0].0) then [table[0].1] else []) + ModifiersFrom(table[1..], styles)
  }

  /** `get_modifiers_json(styles)`. */
  function ModifiersJson(styles: bv8): (r: seq<string>)
  {
    ModifiersFrom(ModifierValues, styles)
  }

  /** Entry `i` of `table` is the member `m` of a style `styles` has. */
  predicate Listed(table: seq<(bv8, string)>, styles: bv8, i: nat, m: string) {
    i < |table| && table[i].1 == m && HasStyle(styles, table[i].0)
  }

  lemma {:induction false} ModifiersFromMembers(table: seq<(bv8, string)>, styles: bv8, m: string)
    ensures m in ModifiersFrom(table, styles) <==> exists i: nat :: Listed(table, styles, i, m)
  {
    if table != [] {
      var head := if HasStyle(styles, table[0].0) then [table[0].1] else [];
      var rest := ModifiersFrom(table[1..], styles);
      assert ModifiersFrom(table, styles) == head + rest;
      ModifiersFromMembers(table[1..], styles, m);
      if m in head {
        assert Listed(table, styles, 0, m);
      } else if m in rest {
        var i: nat :| Listed(table[1..], styles, i, m);
        assert table[1..][i] == table[i + 1];
        assert Listed(table, styles, i + 1, m);
      }
      if exists i: nat :: Listed(table, styles, i, m) {
        var i: nat :| Listed(table, styles, i, m);
        if i > 0 {
          assert table[1..][i - 1] == table[i];
          assert Listed(table[1..], styles, i - 1, m);
        }
      }
    } else {
      assert forall i: nat :: !Listed(table, styles, i, m);
    }
  }

  /** `get_modifiers_json` lists the member of a style exactly when the style's bit is set,
      and lists nothing else. */
  lemma {:induction false} ModifiersExact(styles: bv8, m: string)
    ensures m in ModifiersJson(styles) <==> exists i: nat :: Listed(ModifierValues, styles, i, m)
  {
    ModifiersFromMembers(ModifierValues, styles, m);
  }

  /** In particular, with no style set there are no members, and the member of a style that
      is set is listed. */
  lemma {:induction false} ModifiersOfStyle(styles: bv8, i: nat)
    requires i < |ModifierValues|
    ensures ModifiersJson(0) == []
    ensures HasStyle(styles, ModifierValues[i].0) ==> ModifierValues[i].1 in ModifiersJson(styles)
  {
    ModifiersExact(styles, ModifierValues[i].1);
    if HasStyle(styles, ModifierValues[i].0) {
      assert Listed(ModifierValues, styles, i, ModifierValues[i].1);
    }
  }

  /** The entries `formatter` appends for one run, whose style members are `modifiers` and
      colour member `color`: for each component, the style members, the colour and the
      component. */
  function ComponentEntries(modifiers: seq<string>, color: string, comps: seq<string>): (r: seq<seq<string>>)
    ensures |r| == |comps|
  {
    if comps == [] then []
    else ComponentEntries(modifiers, color, comps[..|comps| - 1]) + [modifiers + [color, comps[|comps| - 1]]]
  }

  /** The entries of one run. */
  function RunEntries(run: Run, mode: SayMode): (r: seq<seq<string>>)
    requires run.color <= Reset
  {
    ComponentEntries(ModifiersJson(run.styles), ColorJson(run.color), Components(SelectorSplit(run.text), true, mode))
  }

  predicate ColorsValid(runs: seq<Run>) {
    forall k | 0 <= k < |runs| :: runs[k].color <= Reset
  }

  /** The entries of all the runs, in order. */
  function Entries(runs: seq<Run>, mode: SayMode): (r: seq<seq<string>>)
    requires ColorsValid(runs)
  {
    if runs == [] then [] else Entries(runs[..|runs| - 1], mode) + RunEntries(runs[|runs| - 1], mode)
  }

  /** Each entry joined with `,`. */
  function JoinEach(entries: seq<seq<string>>): (r: seq<string>)
    ensures |r| == |entries|
    ensures forall k | 0 <= k < |r| :: r[k] == Join(entries[k], ",")
  {
    seq(|entries|, k requires 0 <= k < |entries| => Join(entries[k], ","))
  }

  /** The command `formatter` returns for the entries. */
  function TellrawOf(entries: seq<seq<string>>): (r: string)
  {
    "/tellraw @a [\"\",{" + Join(JoinEach(entries), "},{") + "}]"
  }

  /** `SayCommand.formatter(value=value)`: a `/tellraw @a` whose components are those of the
      runs of the text, or the `IndexError` of `split_value`. */
  function SayFormat(value: string, mode: SayMode): (r: Result<string>)
    ensures r.Err? <==> BadCode(value)
  {
    SplitValueFails(value);
    var runs :- SplitValueSpec(value);
    Ok(TellrawOf(Entries(runs, mode)))
  }

  lemma {:induction false} EntriesStep(runs: seq<Run>, i: nat, mode: SayMode)
    requires ColorsValid(runs) && i < |runs|
    ensures ColorsValid(runs[..i]) && ColorsValid(runs[..i + 1])
    ensures Entries(runs[..i + 1], mode) == Entries(runs[..i], mode) + RunEntries(runs[i], mode)
  {
    assert runs[..i + 1][..i] == runs[..i];
  }

  /** `SayCommand.formatter`: two nested loops filling `result`. */
  method SayFormatter(value: string, mode: SayMode) returns (r: Result<string>)
    ensures r == SayFormat(value, mode)
  {
    var runs :- SplitValue(value);
    var result: seq<seq<string>> := [];
    for i := 0 to |runs|
      invariant ColorsValid(runs[..i])
      invariant result == Entries(runs[..i], mode)
    {
      EntriesStep(runs, i, mode);
      var run := runs[i];
      var c := ColorJson(run.color);
      var modifiers := ModifiersJson(run.styles);
      var texts := GetText(run.text, mode);
      result := AppendEntries(result, modifiers, c, texts);
    }
    assert runs[..|runs|] == runs;
    r := Ok(TellrawOf(result));
  }

  /** The inner loop of `formatter`: `result.append(modifiers + [c, t])` for each component. */
  method AppendEntries(result: seq<seq<string>>, modifiers: seq<string>, c: string, texts: seq<string>)
    returns (out: seq<seq<string>>)
    ensures out == result + ComponentEntries(modifiers, c, texts)
  {
    out := result;
    for j := 0 to |texts|
      invariant out == result + ComponentEntries(modifiers, c, texts[..j])
    {
      assert texts[..j + 1][..j] == texts[..j];
      out := out + [modifiers + [c, texts[j]]];
    }
    assert texts[..|texts|] == texts;
  }

  // ---------------------------------------------------------------------------------------
  // Plain texts, as in the example of `format_command` (`/say link=99% noob`).

  /** A text without `§` is a single run with the reset colour and no style. */
  lemma {:induction false} NoCodeRuns(v: string)
    requires Section !in v
    ensures SplitValueSpec(v) == Ok([Run(Reset, 0, v)])
  {
    SplitNoSep(v, "", Section);
    assert v + "" == v;
    assert Split(v, Section)[1..] == [];
    assert [Run(Reset, 0, v)] + [] == [Run(Reset, 0, v)];
  }

  /** A run without selectors, reset colour and no style gives a single entry. */
  lemma {:induction false} PlainEntries(p: string, mode: SayMode)
    requires p != "" && '@' !in p
    ensures Entries([Run(Reset, 0, p)], mode) == [[ColorJson(Reset), TextComponent(p, mode)]]
  {
    SelectorSplitNoAt(p);
    var comp := TextComponent(p, mode);
    assert [p][1..] == [];
    assert PieceComponent(p, false, mode) == [comp];
    assert Components([p], true, mode) == [comp] + [];
    ModifiersOfStyle(0, 0);
    var e := [ColorJson(Reset), comp];
    assert [comp][..0] == [];
    assert [] + [ColorJson(Reset), comp] == e;
    assert ComponentEntries([], ColorJson(Reset), [comp]) == [e];
    var runs := [Run(Reset, 0, p)];
    assert runs[..0] == [];
    assert RunEntries(runs[0], mode) == [e];
  }

  /** A non-empty text with neither codes nor selectors becomes one component, with the reset
      colour and no style. */
  lemma {:induction false} SayPlain(p: string, mode: SayMode)
    requires p != "" && Section !in p && '@' !in p
    ensures SayFormat(p, mode) == Ok("/tellraw @a [\"\",{" + (ColorJson(Reset) + "," + TextComponent(p, mode)) + "}]")
  {
    NoCodeRuns(p);
    PlainEntries(p, mode);
    var e := [ColorJson(Reset), TextComponent(p, mode)];
    var line := Join(e, ",");
    assert JoinEach([e]) == [line];
    assert Join([line], "},{") == line;
    assert e[1..] == [TextComponent(p, mode)];
    assert Join(e[1..], ",") == TextComponent(p, mode);
    assert line == ColorJson(Reset) + "," + TextComponent(p, mode);
    assert SayFormat(p, mode) == Ok(TellrawOf([e]));
  }

  /** Escaping a text whose only special character is one `%` between `a` and `b`. */
  lemma {:induction false} EscapePercent(a: string, b: string)
    requires '%' !in a && '"' !in a && '%' !in b && '"' !in b
    ensures Escape(a + "%" + b) == a + "%%" + b
  {
    assert a + "%" + b == a + ("%" + b);
    ReplaceAppend(a, "%" + b, '%', "%%");
    ReplaceAppend("%", b, '%', "%%");
    ReplaceFree(a, '%', "%%");
    ReplaceFree(b, '%', "%%");
    assert Replace("%", '%', "%%") == "%%";
    var q := a + ("%%" + b);
    assert q == a + "%%" + b;
    assert '"' !in q;
    ReplaceFree(q, '"', "\\\"");
  }

  /** A text with a single `=` between `a` and `b`: one `=`, replaced by `%s`. */
  lemma {:induction false} OneEquals(a: string, b: string)
    requires '=' !in a && '=' !in b
    ensures Count(a + "=" + b, '=') == 1
    ensures Replace(a + "=" + b, '=', "%s") == a + "%s" + b
  {
    assert a + "=" + b == a + ("=" + b);
    CountAppend(a, "=" + b, '=');
    CountAppend("=", b, '=');
    assert Count("=", '=') == 1;
    ReplaceAppend(a, "=" + b, '=', "%s");
    ReplaceAppend("=", b, '=', "%s");
    ReplaceFree(a, '=', "%s");
    ReplaceFree(b, '=', "%s");
    assert Replace("=", '=', "%s") == "%s";
  }

  /** A piece whose escaped form holds a single `=` becomes a `translate` component with that
      `=` turned into `%s` and one `"="` parameter. */
  lemma {:induction false} TranslateOneEquals(p: string, a: string, b: string)
    requires Escape(p) == a + "=" + b && '=' !in a && '=' !in b
    ensures TextComponent(p, TranslateTag) == "\"translate\":\"" + (a + "%s" + b) + "\",\"with\":[" + WithList(1) + "]"
  {
    OneEquals(a, b);
  }

  /** The `with` list of the example. */
  lemma WithOne()
    ensures WithList(1) == "\"=\""
  {
    assert seq(1, _ => "\"=\"") == ["\"=\""];
  }
}
