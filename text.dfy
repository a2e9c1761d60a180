/** Character classes and the string operations of Python 2 `unicode` used by the rewriter. */
module Text {

  /** `unicode.isspace()` of Python 2.7 (Unicode 5.2): the characters `strip()` removes and
      `parse_key` skips. */
  predicate IsSpace(c: char) {
    ('\t' <= c <= '\r') || ('\U{1C}' <= c <= '\U{1F}') || c == ' ' || c == '\U{85}' || c == '\U{A0}'
    || c == '\U{1680}' || c == '\U{180E}' || ('\U{2000}' <= c <= '\U{200A}') || c == '\U{2028}'
    || c == '\U{2029}' || c == '\U{202F}' || c == '\U{205F}' || c == '\U{3000}'
  }

  /** `\s` of Python's `re` on a pattern compiled without `re.UNICODE`. */
  predicate IsReSpace(c: char) {
    c == ' ' || c == '\t' || c == '\n' || c == '\r' || c == '\U{C}' || c == '\U{B}'
  }

  /** `\d` without `re.UNICODE`. */
  predicate IsDigit(c: char) {
    '0' <= c <= '9'
  }

  /** `\w` without `re.UNICODE`. */
  predicate IsWordChar(c: char) {
    IsDigit(c) || ('a' <= c <= 'z') || ('A' <= c <= 'Z') || c == '_'
  }

  /** The text a `$` of Python's `re` sees as ending the match: `$` matches at the end and also
      just before a newline that ends the text. */
  function DropFinalNewline(t: string): (r: string)
    ensures |t| - 1 <= |r| <= |t| && r == t[..|r|]
  {
    if t != [] && t[|t| - 1] == '\n' then t[..|t| - 1] else t
  }

  predicate AllDigits(s: string) {
    forall k | 0 <= k < |s| :: IsDigit(s[k])
  }

  /** Value of a non-empty run of decimal digits. */
  function DigitsValue(s: string): (n: nat)
    requires AllDigits(s)
  {
    if s == [] then 0 else DigitsValue(s[..|s| - 1]) * 10 + (s[|s| - 1] as int - '0' as int)
  }

  function StripLeft(s: string): (r: string)
    ensures |r| <= |s| && r == s[|s| - |r|..]
    ensures r != [] ==> !IsSpace(r[0])
    ensures AllSpace(s[..|s| - |r|])
  {
    if s != [] && IsSpace(s[0]) then StripLeft(s[1..]) else s
  }

  function StripRight(s: string): (r: string)
    ensures |r| <= |s| && r == s[..|r|]
    ensures r != [] ==> !IsSpace(r[|r| - 1])
    ensures AllSpace(s[|r|..])
  {
    if s != [] && IsSpace(s[|s| - 1]) then StripRight(s[..|s| - 1]) else s
  }

  /** Nothing but whitespace. */
  predicate AllSpace(t: string) {
    forall k | 0 <= k < |t| :: IsSpace(t[k])
  }

  /** `s[a..b]` is `s` with whitespace only cut off at either end. */
  predicate Trims(s: string, a: int, b: int) {
    0 <= a <= b <= |s| && AllSpace(s[..a]) && AllSpace(s[b..])
  }

  /** `unicode.strip()`: the longest slice of `s` that neither starts nor ends with whitespace,
      obtained by dropping whitespace from both ends. */
  function Strip(s: string): (r: string)
    ensures exists a, b :: Trims(s, a, b) && r == s[a..b]
    ensures r != [] ==> !IsSpace(r[0]) && !IsSpace(r[|r| - 1])
  {
    var l := StripLeft(s);
    StripBothEnds(s, l, StripRight(l));
    StripRight(l)
  }

  /** Dropping whitespace from the left of `s`, giving `l`, then from the right of `l`, giving
      `r`, cuts `s` down to a slice with only whitespace outside it. */
  lemma {:induction false} StripBothEnds(s: string, l: string, r: string)
    requires |l| <= |s| && l == s[|s| - |l|..] && AllSpace(s[..|s| - |l|])
    requires |r| <= |l| && r == l[..|r|] && AllSpace(l[|r|..])
    ensures Trims(s, |s| - |l|, |s| - |l| + |r|)
    ensures r == s[|s| - |l|..|s| - |l| + |r|]
  {
    var a := |s| - |l|;
    var b := a + |r|;
    assert s[a..][..|r|] == s[a..b];
    assert l[|r|..] == s[b..];
  }

  lemma {:induction false} StripLeftNoSpace(s: string)
    requires s == [] || !IsSpace(s[0])
    ensures StripLeft(s) == s
  {
  }

  lemma {:induction false} StripRightNoSpace(s: string)
    requires s == [] || !IsSpace(s[|s| - 1])
    ensures StripRight(s) == s
  {
  }

  /** Stripping twice is stripping once. */
  lemma {:induction false} StripIdempotent(s: string)
    ensures Strip(Strip(s)) == Strip(s)
  {
    var r := Strip(s);
    StripLeftNoSpace(r);
    StripRightNoSpace(r);
  }

  /** `s.split(sep)` with a one-character separator: never empty, and splitting at every `sep`. */
  function Split(s: string, sep: char): (parts: seq<string>)
    ensures |parts| >= 1
    ensures forall k | 0 <= k < |parts| :: sep !in parts[k]
  {
    if s == [] then [""]
    else if s[0] == sep then [""] + Split(s[1..], sep)
    else
      var rest := Split(s[1..], sep);
      [[s[0]] + rest[0]] + rest[1..]
  }

  /** `sep.join(parts)`. */
  function Join(parts: seq<string>, sep: string): string
  {
    if |parts| == 0 then ""
    else if |parts| == 1 then parts[0]
    else parts[0] + sep + Join(parts[1..], sep)
  }

  lemma {:induction false} JoinConsFirst(p: string, parts: seq<string>, sep: string)
    requires |parts| >= 1
    ensures Join([p + parts[0]] + parts[1..], sep) == p + Join(parts, sep)
  {
    var q := [p + parts[0]] + parts[1..];
    assert q[1..] == parts[1..];
  }

  /** Joining the pieces of a split gives back the text. */
  lemma {:induction false} JoinSplit(s: string, sep: char)
    ensures Join(Split(s, sep), [sep]) == s
  {
    if s == [] {
    } else if s[0] == sep {
      JoinSplit(s[1..], sep);
      var parts := [""] + Split(s[1..], sep);
      assert parts[1..] == Split(s[1..], sep);
    } else {
      JoinSplit(s[1..], sep);
      var rest := Split(s[1..], sep);
      JoinConsFirst([s[0]], rest, [sep]);
    }
  }

  /** Splitting a join of pieces free of the separator gives back the pieces. */
  lemma {:induction false} SplitJoin(parts: seq<string>, sep: char)
    requires |parts| >= 1
    requires forall k | 0 <= k < |parts| :: sep !in parts[k]
    ensures Split(Join(parts, [sep]), sep) == parts
  {
    if |parts| == 1 {
      SplitNoSep(parts[0], "", sep);
      assert parts[0] + "" == parts[0];
    } else {
      SplitJoin(parts[1..], sep);
      var tail := Join(parts[1..], [sep]);
      SplitNoSep(parts[0], [sep] + tail, sep);
      assert parts[0] + [sep] + tail == parts[0] + ([sep] + tail);
      assert ([sep] + tail)[1..] == tail;
      assert [parts[0]] + parts[1..] == parts;
    }
  }

  /** Splitting `p + t`, where `p` holds no separator and `t` is empty or starts with one. */
  lemma {:induction false} SplitNoSep(p: string, t: string, sep: char)
    requires sep !in p
    requires t == [] || t[0] == sep
    ensures t == [] ==> Split(p + t, sep) == [p]
    ensures t != [] ==> Split(p + t, sep) == [p] + Split(t[1..], sep)
  {
    if p == [] {
      assert p + t == t;
    } else {
      SplitNoSep(p[1..], t, sep);
      assert (p + t)[1..] == p[1..] + t;
      assert [p[0]] + p[1..] == p;
    }
  }

  /** `s.replace(c, sub)` for a one-character `c`. */
  function Replace(s: string, c: char, sub: string): (r: string)
  {
    if s == [] then "" else (if s[0] == c then sub else [s[0]]) + Replace(s[1..], c, sub)
  }

  /** A replacement without `c` leaves no `c`, and a text without `c` is left as it is. */
  lemma {:induction false} ReplaceFree(s: string, c: char, sub: string)
    ensures c !in sub ==> c !in Replace(s, c, sub)
    ensures c !in s ==> Replace(s, c, sub) == s
  {
    if s != [] {
      ReplaceFree(s[1..], c, sub);
      assert s == [s[0]] + s[1..];
    }
  }

  /** Replacing in two texts one after the other. */
  lemma {:induction false} ReplaceAppend(a: string, b: string, c: char, sub: string)
    ensures Replace(a + b, c, sub) == Replace(a, c, sub) + Replace(b, c, sub)
  {
    if a != [] {
      ReplaceAppend(a[1..], b, c, sub);
      var h := if a[0] == c then sub else [a[0]];
      assert (a + b)[0] == a[0];
      assert (a + b)[1..] == a[1..] + b;
      assert Replace(a + b, c, sub) == h + (Replace(a[1..], c, sub) + Replace(b, c, sub));
      assert Replace(a, c, sub) == h + Replace(a[1..], c, sub);
    } else {
      assert a + b == b;
    }
  }

  /** `s.count(c)` for a one-character `c`. */
  function Count(s: string, c: char): (n: nat)
    ensures c !in s ==> n == 0
    ensures n <= |s|
  {
    if s == [] then 0 else (if s[0] == c then 1 else 0) + Count(s[1..], c)
  }

  /** Counting in two texts one after the other. */
  lemma {:induction false} CountAppend(a: string, b: string, c: char)
    ensures Count(a + b, c) == Count(a, c) + Count(b, c)
  {
    if a != [] {
      CountAppend(a[1..], b, c);
      assert (a + b)[1..] == a[1..] + b;
    } else {
      assert a + b == b;
    }
  }

  /** The characters of `s` that are not whitespace, in order. */
  function RemoveSpaces(s: string): (r: string)
  {
    if s == [] then "" else (if IsSpace(s[0]) then "" else [s[0]]) + RemoveSpaces(s[1..])
  }

  /** Removing whitespace leaves only characters of the text that are not whitespace. */
  lemma {:induction false} RemoveSpacesKeeps(s: string)
    ensures forall c | c in RemoveSpaces(s) :: c in s && !IsSpace(c)
  {
    if s != [] {
      RemoveSpacesKeeps(s[1..]);
    }
  }

  lemma {:induction false} RemoveSpacesAppend(a: string, b: string)
    ensures RemoveSpaces(a + b) == RemoveSpaces(a) + RemoveSpaces(b)
  {
    if a == [] {
      assert a + b == b;
    } else {
      RemoveSpacesAppend(a[1..], b);
      var h := if IsSpace(a[0]) then "" else [a[0]];
      assert (a + b)[0] == a[0] && (a + b)[1..] == a[1..] + b;
      calc {
        RemoveSpaces(a + b);
        h + RemoveSpaces(a[1..] + b);
        h + (RemoveSpaces(a[1..]) + RemoveSpaces(b));
        (h + RemoveSpaces(a[1..])) + RemoveSpaces(b);
        RemoveSpaces(a) + RemoveSpaces(b);
      }
    }
  }

  /** Appending one character to a text appends it to the text without whitespace, unless it
      is whitespace itself. */
  lemma {:induction false} RemoveSpacesSnoc(a: string, c: char)
    ensures RemoveSpaces(a + [c]) == RemoveSpaces(a) + (if IsSpace(c) then "" else [c])
  {
    RemoveSpacesAppend(a, [c]);
    assert [c][1..] == [];
  }

  /** A text without whitespace is its own whitespace-free form. */
  lemma {:induction false} RemoveSpacesNone(s: string)
    requires forall k | 0 <= k < |s| :: !IsSpace(s[k])
    ensures RemoveSpaces(s) == s
  {
    if s != [] {
      RemoveSpacesNone(s[1..]);
      assert [s[0]] + s[1..] == s;
    }
  }
}
