/** The Rust `str`/`String` operations that the metric readers and the title
    formatters rely on, stated over `seq<char>`. */
module StrOps {
  import opened Wrappers

  /** `char::is_whitespace`: the characters with the Unicode White_Space property. */
  predicate IsWhitespace(c: char) {
    || ('\t' <= c <= '\r')
    || c == ' ' || c == '\U{85}' || c == '\U{A0}' || c == '\U{1680}'
    || ('\U{2000}' <= c <= '\U{200A}')
    || c == '\U{2028}' || c == '\U{2029}' || c == '\U{202F}' || c == '\U{205F}' || c == '\U{3000}'
  }

  predicate NoWhitespace(s: string) {
    forall i :: 0 <= i < |s| ==> !IsWhitespace(s[i])
  }

  /** A token as `split_whitespace` yields it: non-empty, without whitespace. */
  predicate IsToken(t: string) {
    |t| > 0 && NoWhitespace(t)
  }

  /** Index just past the run of non-whitespace characters that starts at `i`. */
  function WordEnd(s: string, i: nat): (j: nat)
    requires i <= |s|
    ensures i <= j <= |s|
    ensures forall k :: i <= k < j ==> !IsWhitespace(s[k])
    ensures j == |s| || IsWhitespace(s[j])
    decreases |s| - i
  {
    if i == |s| || IsWhitespace(s[i]) then i else WordEnd(s, i + 1)
  }

  /** `str::split_whitespace`: the maximal runs of non-whitespace characters, in order. */
  function SplitWhitespace(s: string): (tokens: seq<string>)
    ensures forall t :: t in tokens ==> IsToken(t)
    decreases |s|
  {
    if s == [] then []
    else if IsWhitespace(s[0]) then SplitWhitespace(s[1..])
    else
      var n := WordEnd(s, 0);
      [s[..n]] + SplitWhitespace(s[n..])
  }

  /** `[String]::join(sep)`: the parts with `sep` between neighbours. */
  function Join(parts: seq<string>, sep: string): string
    decreases |parts|
  {
    if parts == [] then []
    else if |parts| == 1 then parts[0]
    else parts[0] + sep + Join(parts[1..], sep)
  }

  /** `join` of three parts, written out. */
  lemma JoinThree(a: string, b: string, c: string)
    ensures Join([a, b, c], " ") == a + " " + b + " " + c
  {
    assert [a, b, c][1..] == [b, c];
    assert [b, c][1..] == [c];
    assert Join([c], " ") == c;
    assert Join([b, c], " ") == b + " " + c;
    assert Join([a, b, c], " ") == a + " " + (b + " " + c);
  }

  lemma {:induction false} WordEndOfWord(w: string, tail: string, i: nat)
    requires i <= |w| && NoWhitespace(w)
    requires tail == [] || IsWhitespace(tail[0])
    ensures WordEnd(w + tail, i) == |w|
    decreases |w| - i
  {
    var s := w + tail;
    if i < |w| {
      assert s[i] == w[i];
      WordEndOfWord(w, tail, i + 1);
    } else if tail != [] {
      assert s[i] == tail[0];
    }
  }

  /** Splitting a space-joined list of tokens gives the list back. */
  lemma {:induction false} SplitWhitespaceOfJoin(parts: seq<string>)
    requires forall t :: t in parts ==> IsToken(t)
    ensures SplitWhitespace(Join(parts, " ")) == parts
    decreases |parts|
  {
    if |parts| == 0 {
    } else {
      var w := parts[0];
      assert w in parts;
      var rest := if |parts| == 1 then [] else " " + Join(parts[1..], " ");
      var s := w + rest;
      assert Join(parts, " ") == s;
      WordEndOfWord(w, rest, 0);
      assert s[..|w|] == w;
      assert s[|w|..] == rest;
      assert s[0] == w[0];
      if |parts| > 1 {
        SplitWhitespaceOfJoin(parts[1..]);
        assert rest[1..] == Join(parts[1..], " ");
        assert SplitWhitespace(rest) == parts[1..];
      }
      assert SplitWhitespace(s) == [w] + SplitWhitespace(rest);
    }
  }

  /** `str::ends_with(c)` for a single character. */
  predicate EndsWith(s: string, c: char) {
    |s| > 0 && s[|s| - 1] == c
  }

  /** Token `i` is the first one that ends with `c`. */
  predicate FirstEndingWith(tokens: seq<string>, c: char, i: int) {
    && 0 <= i < |tokens|
    && EndsWith(tokens[i], c)
    && forall j :: 0 <= j < i ==> !EndsWith(tokens[j], c)
  }

  /** `Iterator::find(|t| t.ends_with(c))`: the first token that ends with `c`. */
  function FindEndingWith(tokens: seq<string>, c: char): (r: Option<string>)
    ensures r.None? <==> forall i :: 0 <= i < |tokens| ==> !EndsWith(tokens[i], c)
    ensures r.Some? ==> exists i :: FirstEndingWith(tokens, c, i) && tokens[i] == r.value
    decreases |tokens|
  {
    if tokens == [] then None
    else if EndsWith(tokens[0], c) then
      assert FirstEndingWith(tokens, c, 0);
      Some(tokens[0])
    else
      var r := FindEndingWith(tokens[1..], c);
      assert r.Some? ==> exists i :: FirstEndingWith(tokens, c, i) && tokens[i] == r.value by {
        if r.Some? {
          var i :| FirstEndingWith(tokens[1..], c, i) && tokens[1..][i] == r.value;
          assert FirstEndingWith(tokens, c, i + 1);
        }
      }
      r
  }

  /** `str::trim_end_matches(c)`: removes every trailing `c`. */
  function TrimEndMatches(s: string, c: char): (r: string)
    ensures |r| <= |s| && r == s[..|r|]
    ensures forall i :: |r| <= i < |s| ==> s[i] == c
    ensures !EndsWith(r, c)
    decreases |s|
  {
    if EndsWith(s, c) then TrimEndMatches(s[..|s| - 1], c) else s
  }

  predicate IsDigit(c: char) {
    '0' <= c <= '9'
  }

  predicate AllDigits(s: string) {
    forall i :: 0 <= i < |s| ==> IsDigit(s[i])
  }

  function DigitChar(d: nat): (c: char)
    requires d < 10
    ensures IsDigit(c)
  {
    ('0' as int + d) as char
  }

  /** The number a string of decimal digits denotes. */
  function DigitsValue(s: string): nat
    requires AllDigits(s)
    decreases |s|
  {
    if s == [] then 0
    else DigitsValue(s[..|s| - 1]) * 10 + (s[|s| - 1] as int - '0' as int)
  }

  /** Decimal rendering of a natural number, without leading zeros. */
  function NatToString(n: nat): (s: string)
    ensures |s| > 0 && AllDigits(s)
    ensures |s| > 1 ==> s[0] != '0'
    ensures DigitsValue(s) == n
    decreases n
  {
    if n < 10 then [DigitChar(n)]
    else
      var s := NatToString(n / 10) + [DigitChar(n % 10)];
      assert s[..|s| - 1] == NatToString(n / 10);
      s
  }

  /** Decimal rendering of an integer, `-` first when it is negative. */
  function IntToString(i: int): (s: string)
    ensures |s| > 0 && NoWhitespace(s)
    ensures i >= 0 ==> s == NatToString(i)
    ensures i < 0 ==> s == "-" + NatToString(-i)
  {
    if i < 0 then "-" + NatToString(-i) else NatToString(i)
  }
}
