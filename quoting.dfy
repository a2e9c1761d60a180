/** `make_place_around`: the function that surrounds a value with a marker unless the value
    already carries it or is one of the exceptions, and the quoting used for the loose JSON
    output. */
module Quoting {
  import opened Text

  /** What a `place_around` function leaves alone: nothing, the members of a tuple
      (`__contains__`), or the texts a prefix of which the JSON-value pattern matches
      (`json_values.match`). */
  datatype Exceptions = NoExceptions | Members(members: seq<string>) | JsonValuePrefix

  /** `re.compile(r'true|false|-?\d+(?:\.\d*)?').match(value)`: the pattern matches at the start
      of the value, whatever follows. */
  predicate MatchesJsonValue(value: string) {
    (|value| >= 4 && value[..4] == "true")
    || (|value| >= 5 && value[..5] == "false")
    || (|value| >= 1 && IsDigit(value[0]))
    || (|value| >= 2 && value[0] == '-' && IsDigit(value[1]))
  }

  predicate Excepted(exceptions: Exceptions, value: string) {
    match exceptions
    case NoExceptions => false
    case Members(ms) => value in ms
    case JsonValuePrefix => MatchesJsonValue(value)
  }

  /** `value[-n:]` in Python: the last `n` characters, or the whole text when `n` is 0 or
      longer than the text. */
  function PySuffix(value: string, n: nat): (r: string)
    ensures 0 < n <= |value| ==> r == value[|value| - n..]
    ensures n == 0 || n > |value| ==> r == value
  {
    if n == 0 || n > |value| then value else value[|value| - n..]
  }

  /** `value[:n]` in Python. */
  function PyPrefix(value: string, n: nat): (r: string)
    ensures n <= |value| ==> r == value[..n]
    ensures n > |value| ==> r == value
  {
    if n > |value| then value else value[..n]
  }

  /** True when `place_around` considers `value` already surrounded by `around`. */
  predicate Surrounded(around: string, value: string) {
    !(|value| * 2 < |around|)
    && PyPrefix(value, |around|) == around
    && PySuffix(value, |around|) == around
  }

  /** `place_around(value, force)` built by `make_place_around(around, exceptions)`. */
  function PlaceAround(around: string, exceptions: Exceptions, value: string, force: bool): (r: string)
    ensures r == value || r == around + value + around
    ensures !force && Excepted(exceptions, value) ==> r == value
    ensures (force || !Excepted(exceptions, value)) ==> (r == value <==> Surrounded(around, value) || around == "")
  {
    if !force && Excepted(exceptions, value) then value
    else if !Surrounded(around, value) then around + value + around
    else value
  }

  /** Placing twice is placing once, forced or not. */
  lemma {:induction false} PlaceAroundIdempotent(around: string, exceptions: Exceptions, value: string, force: bool)
    ensures PlaceAround(around, exceptions, PlaceAround(around, exceptions, value, force), force)
         == PlaceAround(around, exceptions, value, force)
  {
    var w := PlaceAround(around, exceptions, value, force);
    if w != value {
      assert w == around + value + around;
      assert w[..|around|] == around;
      assert w[|w| - |around|..] == around;
      if around != "" {
        assert Surrounded(around, w);
      }
    }
  }

  /** With `force` the exceptions are not consulted: the result always starts and ends with the
      marker. */
  lemma {:induction false} ForcedIsSurrounded(around: string, exceptions: Exceptions, value: string)
    ensures var r := PlaceAround(around, exceptions, value, true);
      |r| >= |around| && r[..|around|] == around && r[|r| - |around|..] == around
  {
    var r := PlaceAround(around, exceptions, value, true);
    if r == value {
      if around != "" {
        assert Surrounded(around, value);
      }
    } else {
      assert r == around + value + around;
    }
  }

  /** `place_quotes`, the quoting of `json_string`. */
  function PlaceQuotes(value: string, force: bool): (r: string)
  {
    PlaceAround("\"", JsonValuePrefix, value, force)
  }

  /** A value is left unquoted exactly when it starts like a JSON literal or number (and is not
      a key) or is already quoted; otherwise it gets one pair of quotes. */
  lemma {:induction false} PlaceQuotesCases(value: string, force: bool)
    ensures PlaceQuotes(value, force) == value <==>
      (!force && MatchesJsonValue(value)) || (|value| >= 1 && value[0] == '"' && value[|value| - 1] == '"')
    ensures PlaceQuotes(value, force) != value ==> PlaceQuotes(value, force) == "\"" + value + "\""
  {
    if |value| >= 1 {
      assert PyPrefix(value, 1) == [value[0]];
      assert PySuffix(value, 1) == [value[|value| - 1]];
    }
  }

  /** The documented behaviour of a marker `~~~` with the exceptions `42` and `-42`, on values
      that do not carry the marker yet. */
  lemma PlaceAroundExamples()
    ensures PlaceAround("~~~", Members(["42", "-42"]), "This is a value", false) == "~~~This is a value~~~"
    ensures PlaceAround("~~~", Members(["42", "-42"]), "42", false) == "42"
    ensures PlaceAround("~~~", Members(["42", "-42"]), "-42", true) == "~~~-42~~~"
  {
    var plain, neg := "This is a value", "-42";
    assert plain[..3] == "Thi";
    assert !Surrounded("~~~", plain);
    assert "~~~" + plain + "~~~" == "~~~This is a value~~~";
    assert neg[..3] == neg && neg[0..] == neg;
    assert !Surrounded("~~~", neg);
    assert "~~~" + neg + "~~~" == "~~~-42~~~";
  }

  /** The same marker on values that start with it: only a value that also ends with it is
      left alone. */
  lemma PlaceAroundMarkedExamples()
    ensures PlaceAround("~~~", Members(["42", "-42"]), "~~~666~~~", false) == "~~~666~~~"
    ensures PlaceAround("~~~", Members(["42", "-42"]), "~~~666", false) == "~~~~~~666~~~"
  {
    var marked, half := "~~~666~~~", "~~~666";
    assert marked[..3] == "~~~" && marked[6..] == "~~~";
    assert Surrounded("~~~", marked);
    assert half[3..] == "666";
    assert !Surrounded("~~~", half);
    assert "~~~" + half + "~~~" == "~~~~~~666~~~";
  }

  /** A lone `"` counts as already quoted, since its first and last characters are the same
      quote: `place_quotes` leaves it as it is. */
  lemma LoneQuoteLeftAlone()
    ensures PlaceQuotes("\"", false) == "\""
    ensures PlaceQuotes("\"", true) == "\""
  {
    PlaceQuotesCases("\"", false);
    PlaceQuotesCases("\"", true);
  }
}
