/** `scripts/bump-version.mjs`: checks that the argument is an `N.N.N`
    version, sets the `version` member of `package.json` and
    `src-tauri/tauri.conf.json`, and rewrites the first line-start
    `version = "..."` of `src-tauri/Cargo.toml`. Reading, parsing,
    serialising and writing the files are outside the model: the JSON
    documents are parsed values and the Cargo manifest is its text. */
module BumpVersion {
  import opened Wrappers
  import opened StrOps

  // ---------------------------------------------------------------------
  // The argument check: /^\d+\.\d+\.\d+$/ (no `m` flag, so `$` is the end
  // of the input; `\d` is the ASCII digits).
  // ---------------------------------------------------------------------

  /** Length of the run of ASCII digits that starts at `i`. */
  function DigitRun(s: string, i: nat): (n: nat)
    requires i <= |s|
    ensures i + n <= |s|
    ensures forall k :: i <= k < i + n ==> IsDigit(s[k])
    ensures i + n == |s| || !IsDigit(s[i + n])
    decreases |s| - i
  {
    if i < |s| && IsDigit(s[i]) then 1 + DigitRun(s, i + 1) else 0
  }

  /** A left-to-right scan: digits, '.', digits, '.', digits, end of input
      (bump-version.mjs:4). An accepted version is at least five characters
      long and starts and ends with a digit. */
  predicate IsVersion(v: string): (ok: bool)
    ensures ok ==> |v| >= 5 && IsDigit(v[0]) && IsDigit(v[|v| - 1])
  {
    var a := DigitRun(v, 0);
    0 < a < |v| && v[a] == '.' &&
    var b := DigitRun(v, a + 1);
    0 < b && a + 1 + b < |v| && v[a + 1 + b] == '.' &&
    var c := DigitRun(v, a + b + 2);
    0 < c && a + b + 2 + c == |v|
  }

  /** The grammar the pattern describes: three non-empty digit runs joined by dots. */
  predicate VersionParts(v: string, x: string, y: string, z: string) {
    |x| > 0 && AllDigits(x) && |y| > 0 && AllDigits(y) && |z| > 0 && AllDigits(z)
    && v == x + "." + y + "." + z
  }

  lemma {:induction false} DigitRunOf(s: string, i: nat, n: nat)
    requires i + n <= |s|
    requires forall k :: i <= k < i + n ==> IsDigit(s[k])
    requires i + n == |s| || !IsDigit(s[i + n])
    ensures DigitRun(s, i) == n
    decreases n
  {
    if n > 0 {
      DigitRunOf(s, i + 1, n - 1);
    }
  }

  lemma {:induction false} VersionPartsOfScan(v: string)
    requires IsVersion(v)
    ensures exists x, y, z :: VersionParts(v, x, y, z)
  {
    var a := DigitRun(v, 0);
    var b := DigitRun(v, a + 1);
    var x, y, z := v[..a], v[a + 1..a + 1 + b], v[a + b + 2..];
    assert v[..a + 1] == x + ".";
    assert v[..a + 1 + b] == x + "." + y;
    assert v[..a + b + 2] == x + "." + y + ".";
    assert v == v[..a + b + 2] + z;
    assert VersionParts(v, x, y, z);
  }

  lemma {:induction false} ScanOfVersionParts(v: string, x: string, y: string, z: string)
    requires VersionParts(v, x, y, z)
    ensures IsVersion(v)
  {
    var a, b := |x|, |y|;
    assert |v| == a + b + 2 + |z|;
    forall k | 0 <= k < a
      ensures IsDigit(v[k])
    {
      assert v[k] == x[k];
    }
    assert v[a] == '.';
    forall k | a + 1 <= k < a + 1 + b
      ensures IsDigit(v[k])
    {
      assert v[k] == y[k - a - 1];
    }
    assert v[a + 1 + b] == '.';
    forall k | a + b + 2 <= k < |v|
      ensures IsDigit(v[k])
    {
      assert v[k] == z[k - a - b - 2];
    }
    DigitRunOf(v, 0, a);
    DigitRunOf(v, a + 1, b);
    DigitRunOf(v, a + b + 2, |z|);
  }

  /** The scan accepts exactly the strings of the form digits.digits.digits. */
  lemma IsVersionIff(v: string)
    ensures IsVersion(v) <==> exists x, y, z :: VersionParts(v, x, y, z)
  {
    if IsVersion(v) {
      VersionPartsOfScan(v);
    }
    if exists x, y, z :: VersionParts(v, x, y, z) {
      var x, y, z :| VersionParts(v, x, y, z);
      ScanOfVersionParts(v, x, y, z);
    }
  }

  /** `!v || !/^\d+\.\d+\.\d+$/.test(v)` (bump-version.mjs:4) rejects the
      argument. The emptiness test is subsumed by the pattern: an argument is
      accepted exactly when it is present and a version. */
  predicate ValidArg(arg: Option<string>): (ok: bool)
    ensures ok <==> arg.Some? && IsVersion(arg.value)
  {
    arg.Some? && arg.value != "" && IsVersion(arg.value)
  }

  /** Only digits and dots: an accepted version never contains a quote or whitespace. */
  lemma {:induction false} VersionCharset(v: string)
    requires IsVersion(v)
    ensures |v| >= 5
    ensures forall k :: 0 <= k < |v| ==> IsDigit(v[k]) || v[k] == '.'
  {
    var a := DigitRun(v, 0);
    var b := DigitRun(v, a + 1);
    var c := DigitRun(v, a + b + 2);
    forall k | 0 <= k < |v|
      ensures IsDigit(v[k]) || v[k] == '.'
    {
      if k < a {
      } else if k == a {
      } else if k < a + 1 + b {
      } else if k == a + 1 + b {
      } else {
      }
    }
  }

  // ---------------------------------------------------------------------
  // The Cargo rewrite: /^version\s*=\s*"[^"]+"/m, first match only.
  // ---------------------------------------------------------------------

  /** The ECMAScript `\s` class: WhiteSpace and LineTerminator characters. */
  predicate IsJsSpace(c: char) {
    || ('\t' <= c <= '\r')
    || c == ' ' || c == '\U{A0}' || c == '\U{1680}'
    || ('\U{2000}' <= c <= '\U{200A}')
    || c == '\U{2028}' || c == '\U{2029}' || c == '\U{202F}' || c == '\U{205F}' || c == '\U{3000}'
    || c == '\U{FEFF}'
  }

  /** The ECMAScript LineTerminator characters, after which `^` matches in `m` mode. */
  predicate IsLineTerminator(c: char) {
    c == '\n' || c == '\r' || c == '\U{2028}' || c == '\U{2029}'
  }

  predicate AtLineStart(s: string, i: nat) {
    i == 0 || (i <= |s| && IsLineTerminator(s[i - 1]))
  }

  predicate AllJsSpace(w: string) {
    forall k :: 0 <= k < |w| ==> IsJsSpace(w[k])
  }

  predicate NoQuote(t: string) {
    forall k :: 0 <= k < |t| ==> t[k] != '"'
  }

  /** Length of the run of `\s` characters that starts at `i`. */
  function SpaceRun(s: string, i: nat): (n: nat)
    requires i <= |s|
    ensures i + n <= |s|
    ensures forall k :: i <= k < i + n ==> IsJsSpace(s[k])
    ensures i + n == |s| || !IsJsSpace(s[i + n])
    decreases |s| - i
  {
    if i < |s| && IsJsSpace(s[i]) then 1 + SpaceRun(s, i + 1) else 0
  }

  /** Length of the run of non-quote characters that starts at `i`. */
  function NonQuoteRun(s: string, i: nat): (n: nat)
    requires i <= |s|
    ensures i + n <= |s|
    ensures forall k :: i <= k < i + n ==> s[k] != '"'
    ensures i + n == |s| || s[i + n] == '"'
    decreases |s| - i
  {
    if i < |s| && s[i] != '"' then 1 + NonQuoteRun(s, i + 1) else 0
  }

  const Keyword: string := "version"

  /** The end of the match that starts at `i`, if the pattern matches there.
      Each greedy part is followed by a character it cannot consume, so
      backtracking never finds another match: the scan is deterministic. */
  function MatchAt(s: string, i: nat): (r: Option<nat>)
    requires i <= |s|
    ensures r.Some? ==> i < r.value <= |s|
  {
    if !AtLineStart(s, i) || |s| < i + |Keyword| || s[i..i + |Keyword|] != Keyword then None
    else
      var eq := i + |Keyword| + SpaceRun(s, i + |Keyword|);
      if eq == |s| || s[eq] != '=' then None
      else
        var open := eq + 1 + SpaceRun(s, eq + 1);
        if open == |s| || s[open] != '"' then None
        else
          var close := open + 1 + NonQuoteRun(s, open + 1);
          if close == open + 1 || close == |s| then None
          else Some(close + 1)
  }

  /** The pattern's text: keyword, spaces, '=', spaces, a quoted non-empty body. */
  predicate MatchParts(t: string, w1: string, w2: string, body: string) {
    AllJsSpace(w1) && AllJsSpace(w2) && |body| > 0 && NoQuote(body)
    && t == Keyword + w1 + "=" + w2 + "\"" + body + "\""
  }

  /** The pattern matches `s[i..j]` with `^` at a line start. */
  ghost predicate MatchesAt(s: string, i: nat, j: nat) {
    i <= j <= |s| && AtLineStart(s, i) && exists w1, w2, body :: MatchParts(s[i..j], w1, w2, body)
  }

  lemma {:induction false} SpaceRunOf(s: string, i: nat, n: nat)
    requires i + n <= |s|
    requires AllJsSpace(s[i..i + n])
    requires i + n == |s| || !IsJsSpace(s[i + n])
    ensures SpaceRun(s, i) == n
    decreases n
  {
    if n > 0 {
      assert s[i] == s[i..i + n][0];
      assert s[i + 1..i + n] == s[i..i + n][1..];
      SpaceRunOf(s, i + 1, n - 1);
    }
  }

  lemma {:induction false} NonQuoteRunOf(s: string, i: nat, n: nat)
    requires i + n <= |s|
    requires NoQuote(s[i..i + n])
    requires i + n == |s| || s[i + n] == '"'
    ensures NonQuoteRun(s, i) == n
    decreases n
  {
    if n > 0 {
      assert s[i] == s[i..i + n][0];
      assert s[i + 1..i + n] == s[i..i + n][1..];
      NonQuoteRunOf(s, i + 1, n - 1);
    }
  }

  /** The pieces of a match text, by position. */
  lemma MatchPartsPositions(t: string, w1: string, w2: string, body: string)
    requires MatchParts(t, w1, w2, body)
    ensures |t| == |Keyword| + |w1| + |w2| + |body| + 3
    ensures t[..|Keyword|] == Keyword
    ensures t[|Keyword|..|Keyword| + |w1|] == w1
    ensures t[|Keyword| + |w1|] == '='
    ensures t[|Keyword| + |w1| + 1..|Keyword| + |w1| + 1 + |w2|] == w2
    ensures t[|Keyword| + |w1| + 1 + |w2|] == '"'
    ensures t[|Keyword| + |w1| + |w2| + 2..|Keyword| + |w1| + |w2| + 2 + |body|] == body
    ensures t[|t| - 1] == '"'
  {
  }

  /** A match text cut at the positions the scan finds. */
  lemma SlicesOfMatch(s: string, i: nat, p: nat, eq: nat, open: nat, close: nat)
    requires i <= p <= eq < open < close < |s|
    ensures s[i..close + 1]
         == s[i..p] + s[p..eq] + [s[eq]] + s[eq + 1..open] + [s[open]] + s[open + 1..close] + [s[close]]
  {
    assert s[i..eq] == s[i..p] + s[p..eq];
    assert s[i..eq + 1] == s[i..eq] + [s[eq]];
    assert s[i..open] == s[i..eq + 1] + s[eq + 1..open];
    assert s[i..open + 1] == s[i..open] + [s[open]];
    assert s[i..close] == s[i..open + 1] + s[open + 1..close];
    assert s[i..close + 1] == s[i..close] + [s[close]];
  }

  lemma {:induction false} MatchAtSound(s: string, i: nat)
    requires i <= |s|
    ensures MatchAt(s, i).Some? ==> MatchesAt(s, i, MatchAt(s, i).value)
  {
    if MatchAt(s, i).Some? {
      var j := MatchAt(s, i).value;
      var p := i + |Keyword|;
      var eq := p + SpaceRun(s, p);
      var open := eq + 1 + SpaceRun(s, eq + 1);
      var close := open + 1 + NonQuoteRun(s, open + 1);
      var w1, w2, body := s[p..eq], s[eq + 1..open], s[open + 1..close];
      assert s[i..p] == Keyword && s[eq] == '=' && s[open] == '"' && s[close] == '"';
      assert j == close + 1;
      SlicesOfMatch(s, i, p, eq, open, close);
      assert MatchParts(s[i..j], w1, w2, body);
    }
  }

  lemma SliceOfSlice(s: string, i: nat, j: nat, a: nat, b: nat)
    requires i <= j <= |s| && a <= b <= j - i
    ensures s[i..j][a..b] == s[i + a..i + b]
  {
    assert forall k :: 0 <= k < b - a ==> s[i..j][a..b][k] == s[i + a + k];
  }

  /** Where the pieces of a match text sit in the whole string. */
  lemma MatchPiecesInText(s: string, i: nat, j: nat) returns (w1: string, w2: string, body: string)
    requires MatchesAt(s, i, j)
    ensures AllJsSpace(w1) && AllJsSpace(w2) && |body| > 0 && NoQuote(body)
    ensures var eq := i + |Keyword| + |w1|;
      var open := eq + 1 + |w2|;
      var close := open + 1 + |body|;
      && j == close + 1
      && s[i..i + |Keyword|] == Keyword
      && s[i + |Keyword|..eq] == w1 && s[eq] == '='
      && s[eq + 1..open] == w2 && s[open] == '"'
      && s[open + 1..close] == body && s[close] == '"'
  {
    w1, w2, body :| MatchParts(s[i..j], w1, w2, body);
    var t := s[i..j];
    MatchPartsPositions(t, w1, w2, body);
    SliceOfSlice(s, i, j, 0, |Keyword|);
    SliceOfSlice(s, i, j, |Keyword|, |Keyword| + |w1|);
    SliceOfSlice(s, i, j, |Keyword| + |w1| + 1, |Keyword| + |w1| + 1 + |w2|);
    SliceOfSlice(s, i, j, |Keyword| + |w1| + |w2| + 2, |Keyword| + |w1| + |w2| + 2 + |body|);
  }

  /** The scan succeeds once its three runs have the lengths of the pieces. */
  lemma MatchAtOfRuns(s: string, i: nat, n1: nat, n2: nat, nb: nat)
    requires AtLineStart(s, i)
    requires i + |Keyword| + n1 + n2 + nb + 3 <= |s|
    requires s[i..i + |Keyword|] == Keyword
    requires SpaceRun(s, i + |Keyword|) == n1 && s[i + |Keyword| + n1] == '='
    requires SpaceRun(s, i + |Keyword| + n1 + 1) == n2 && s[i + |Keyword| + n1 + 1 + n2] == '"'
    requires NonQuoteRun(s, i + |Keyword| + n1 + n2 + 2) == nb && 0 < nb
    ensures MatchAt(s, i) == Some(i + |Keyword| + n1 + n2 + nb + 3)
  {
  }

  /** The run lengths the scan meets in a match text. */
  lemma RunsOfMatch(s: string, i: nat, j: nat) returns (n1: nat, n2: nat, nb: nat)
    requires MatchesAt(s, i, j)
    ensures j == i + |Keyword| + n1 + n2 + nb + 3 <= |s|
    ensures s[i..i + |Keyword|] == Keyword
    ensures SpaceRun(s, i + |Keyword|) == n1 && s[i + |Keyword| + n1] == '='
    ensures SpaceRun(s, i + |Keyword| + n1 + 1) == n2 && s[i + |Keyword| + n1 + 1 + n2] == '"'
    ensures NonQuoteRun(s, i + |Keyword| + n1 + n2 + 2) == nb && 0 < nb
  {
    var w1, w2, body := MatchPiecesInText(s, i, j);
    n1, n2, nb := |w1|, |w2|, |body|;
    SpaceRunOf(s, i + |Keyword|, n1);
    SpaceRunOf(s, i + |Keyword| + n1 + 1, n2);
    NonQuoteRunOf(s, i + |Keyword| + n1 + n2 + 2, nb);
  }

  lemma {:induction false} MatchAtComplete(s: string, i: nat, j: nat)
    requires MatchesAt(s, i, j)
    ensures MatchAt(s, i) == Some(j)
  {
    var n1, n2, nb := RunsOfMatch(s, i, j);
    MatchAtOfRuns(s, i, n1, n2, nb);
  }

  /** The scan finds a match from `i` to `j` exactly when the pattern matches there. */
  lemma MatchAtIff(s: string, i: nat, j: nat)
    requires i <= |s|
    ensures MatchAt(s, i) == Some(j) <==> MatchesAt(s, i, j)
  {
    MatchAtSound(s, i);
    if MatchesAt(s, i, j) {
      MatchAtComplete(s, i, j);
    }
  }

  /** The leftmost match at or after `from` (a global search without the `g` flag). */
  function FirstMatchFrom(s: string, from: nat): (r: Option<(nat, nat)>)
    requires from <= |s|
    ensures r.Some? ==> from <= r.value.0 <= |s| && MatchAt(s, r.value.0) == Some(r.value.1)
    ensures r.Some? ==> forall k :: from <= k < r.value.0 ==> MatchAt(s, k).None?
    ensures r.None? ==> forall k :: from <= k <= |s| ==> MatchAt(s, k).None?
    decreases |s| - from
  {
    match MatchAt(s, from)
    case Some(j) => Some((from, j))
    case None => if from == |s| then None else FirstMatchFrom(s, from + 1)
  }

  /** The replacement text; an accepted version has no `$`, so no substitution pattern applies. */
  function CargoLine(v: string): string {
    "version = \"" + v + "\""
  }

  /** `cargo.replace(/^version\s*=\s*"[^"]+"/m, ...)` (bump-version.mjs:20). */
  function RewriteCargo(s: string, v: string): (r: string)
    ensures FirstMatchFrom(s, 0).None? ==> r == s
    ensures FirstMatchFrom(s, 0).Some? ==>
      var (i, j) := FirstMatchFrom(s, 0).value;
      && |r| == |s| - (j - i) + |CargoLine(v)|
      && r[..i] == s[..i]
      && r[i..i + |CargoLine(v)|] == CargoLine(v)
      && r[i + |CargoLine(v)|..] == s[j..]
  {
    match FirstMatchFrom(s, 0)
    case None => s
    case Some((i, j)) =>
      var r := s[..i] + CargoLine(v) + s[j..];
      assert r[..i] == s[..i];
      assert r[i..i + |CargoLine(v)|] == CargoLine(v);
      assert r[i + |CargoLine(v)|..] == s[j..];
      r
  }

  /** With no line-start `version = "..."` anywhere, the manifest is left as it is. */
  lemma RewriteWithoutMatch(s: string, v: string)
    requires forall i: nat, j: nat :: !MatchesAt(s, i, j)
    ensures RewriteCargo(s, v) == s
  {
    match FirstMatchFrom(s, 0)
    case None =>
    case Some((i, j)) =>
      MatchAtIff(s, i, j);
      assert false;
  }

  /** Only the leftmost match is replaced, by exactly `version = "<v>"`; the text
      before it and after it is kept. */
  lemma RewriteFirstMatch(s: string, v: string, i: nat, j: nat)
    requires MatchesAt(s, i, j)
    requires forall k: nat, l: nat :: k < i ==> !MatchesAt(s, k, l)
    ensures RewriteCargo(s, v) == s[..i] + CargoLine(v) + s[j..]
  {
    MatchAtIff(s, i, j);
    var r := FirstMatchFrom(s, 0);
    assert r.Some?;
    var (k, l) := r.value;
    if k < i {
      MatchAtIff(s, k, l);
      assert false;
    }
    assert k == i && l == j;
  }

  /** The written line is itself a match of the pattern at the same place. */
  lemma RewrittenLineMatches(s: string, v: string, i: nat, j: nat)
    requires IsVersion(v)
    requires MatchesAt(s, i, j)
    requires forall k: nat, l: nat :: k < i ==> !MatchesAt(s, k, l)
    ensures MatchesAt(RewriteCargo(s, v), i, i + |CargoLine(v)|)
  {
    RewriteFirstMatch(s, v, i, j);
    VersionCharset(v);
    var r := RewriteCargo(s, v);
    assert r[i..i + |CargoLine(v)|] == CargoLine(v);
    assert CargoLine(v) == Keyword + " " + "=" + " " + "\"" + v + "\"";
    assert MatchParts(r[i..i + |CargoLine(v)|], " ", " ", v);
    if i > 0 {
      assert r[i - 1] == s[i - 1];
    }
  }

  // ---------------------------------------------------------------------
  // The JSON patches: `j.version = v` (bump-version.mjs:15-16).
  // ---------------------------------------------------------------------

  /** A parsed JSON value; an object keeps its members in property order. */
  datatype Json =
    | Null
    | Bool(b: bool)
    | Number(n: real)
    | Str(s: string)
    | Array(items: seq<Json>)
    | Object(members: seq<(string, Json)>)

  function Keys(members: seq<(string, Json)>): (ks: seq<string>)
    ensures |ks| == |members|
  {
    seq(|members|, i requires 0 <= i < |members| => members[i].0)
  }

  /** The value of property `key`. */
  function Lookup(members: seq<(string, Json)>, key: string): Option<Json>
    decreases |members|
  {
    if members == [] then None
    else if members[0].0 == key then Some(members[0].1)
    else Lookup(members[1..], key)
  }

  /** Property assignment: an existing property keeps its place, a new one goes last. */
  function SetMember(members: seq<(string, Json)>, key: string, value: Json): (r: seq<(string, Json)>)
    ensures Lookup(r, key) == Some(value)
    ensures forall k :: k != key ==> Lookup(r, k) == Lookup(members, k)
    ensures Keys(r) == if key in Keys(members) then Keys(members) else Keys(members) + [key]
    decreases |members|
  {
    if members == [] then
      assert Keys([(key, value)]) == [key];
      [(key, value)]
    else if members[0].0 == key then
      assert Keys(members)[0] == key;
      assert Keys([(key, value)] + members[1..]) == Keys(members);
      [(key, value)] + members[1..]
    else
      var rest := SetMember(members[1..], key, value);
      assert Keys(members) == [members[0].0] + Keys(members[1..]);
      assert key in Keys(members) <==> key in Keys(members[1..]);
      assert Keys([members[0]] + rest) == [members[0].0] + Keys(rest);
      [members[0]] + rest
  }

  /** `j.version = v` on a parsed document. On an object it sets the property;
      on an array it adds a non-index property that serialisation drops; on
      null or a primitive it throws in module (strict) code, which is `None`. */
  function PatchVersion(j: Json, v: string): (r: Option<Json>)
    ensures r.Some? <==> j.Object? || j.Array?
    ensures j.Array? ==> r == Some(j)
    ensures j.Object? ==>
      && r.Some? && r.value.Object?
      && Lookup(r.value.members, "version") == Some(Str(v))
      && (forall k :: k != "version" ==> Lookup(r.value.members, k) == Lookup(j.members, k))
  {
    match j
    case Object(ms) => Some(Object(SetMember(ms, "version", Str(v))))
    case Array(_) => Some(j)
    case _ => None
  }

  // ---------------------------------------------------------------------
  // The script as a whole.
  // ---------------------------------------------------------------------

  datatype Files = Files(packageJson: Json, tauriConf: Json, cargoToml: string)

  /** The exit status and the files afterwards. An uncaught exception ends the
      process with status 1 after the writes that preceded it. */
  datatype Outcome = Outcome(status: int, files: Files)

  function BumpOutcome(arg: Option<string>, f: Files): (r: Outcome)
    ensures !ValidArg(arg) ==> r == Outcome(1, f)
    ensures r.status == 0 || r.status == 1
    ensures r.status == 0 <==> ValidArg(arg) && PatchVersion(f.packageJson, arg.value).Some?
                                && PatchVersion(f.tauriConf, arg.value).Some?
    ensures r.files.cargoToml != f.cargoToml ==> r.status == 0
    ensures r.files.tauriConf != f.tauriConf ==>
      ValidArg(arg) && PatchVersion(f.packageJson, arg.value).Some?
      && r.files.packageJson == PatchVersion(f.packageJson, arg.value).value
    ensures ValidArg(arg) && PatchVersion(f.packageJson, arg.value).None? ==> r == Outcome(1, f)
    ensures ValidArg(arg) && PatchVersion(f.packageJson, arg.value).Some? && PatchVersion(f.tauriConf, arg.value).None? ==>
      r == Outcome(1, f.(packageJson := PatchVersion(f.packageJson, arg.value).value))
    ensures r.status == 0 ==>
      r.files == Files(PatchVersion(f.packageJson, arg.value).value, PatchVersion(f.tauriConf, arg.value).value,
                       RewriteCargo(f.cargoToml, arg.value))
  {
    if !ValidArg(arg) then Outcome(1, f)
    else
      var v := arg.value;
      match PatchVersion(f.packageJson, v)
      case None => Outcome(1, f)
      case Some(p) =>
        match PatchVersion(f.tauriConf, v)
        case None => Outcome(1, f.(packageJson := p))
        case Some(t) => Outcome(0, Files(p, t, RewriteCargo(f.cargoToml, v)))
  }

  /** After a successful run both JSON objects carry the new version, no other
      property changed, and the manifest's leftmost `version` line is rewritten. */
  lemma BumpSetsVersionEverywhere(v: string, f: Files)
    requires IsVersion(v) && f.packageJson.Object? && f.tauriConf.Object?
    ensures var r := BumpOutcome(Some(v), f);
      && r.status == 0
      && Lookup(r.files.packageJson.members, "version") == Some(Str(v))
      && Lookup(r.files.tauriConf.members, "version") == Some(Str(v))
      && (forall k :: k != "version" ==> Lookup(r.files.packageJson.members, k) == Lookup(f.packageJson.members, k))
      && (forall k :: k != "version" ==> Lookup(r.files.tauriConf.members, k) == Lookup(f.tauriConf.members, k))
      && r.files.cargoToml == RewriteCargo(f.cargoToml, v)
  {
  }

  /** The files on disk, as the script sees them. */
  class Workspace {
    var packageJson: Json
    var tauriConf: Json
    var cargoToml: string

    function Contents(): Files
      reads this
    {
      Files(packageJson, tauriConf, cargoToml)
    }

    constructor(initial: Files)
      ensures Contents() == initial
    {
      packageJson := initial.packageJson;
      tauriConf := initial.tauriConf;
      cargoToml := initial.cargoToml;
    }

    /** Runs the script with `process.argv[2]` as `arg` (bump-version.mjs:3-21). */
    method Bump(arg: Option<string>) returns (status: int)
      modifies this
      ensures Outcome(status, Contents()) == BumpOutcome(arg, old(Contents()))
    {
      if arg.None? || arg.value == "" || !IsVersion(arg.value) {
        return 1;
      }
      var v := arg.value;
      var p := PatchVersion(packageJson, v);
      if p.None? {
        return 1;
      }
      packageJson := p.value;
      var t := PatchVersion(tauriConf, v);
      if t.None? {
        return 1;
      }
      tauriConf := t.value;
      cargoToml := RewriteCargo(cargoToml, v);
      status := 0;
    }
  }
}
