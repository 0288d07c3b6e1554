/** The JavaScript string operations the scrapers rely on, written out over `seq<char>`:
    `trim`, `\s`, `toLowerCase` (ASCII letters), `includes`/`indexOf`, `startsWith`,
    a first-occurrence `replace`, `replace(/\s+/g, r)`, and decimal `parseInt`/`parseFloat`. */
module Text {
  import opened Wrappers

  /** The code points JavaScript counts as WhiteSpace or LineTerminator: what `\s` matches
      and what `String.prototype.trim` strips. */
  const WhitespaceChars: set<char> := {
    ' ', '\t', '\n', '\r', '\U{B}', '\U{C}', '\U{A0}', '\U{1680}',
    '\U{2000}', '\U{2001}', '\U{2002}', '\U{2003}', '\U{2004}', '\U{2005}', '\U{2006}',
    '\U{2007}', '\U{2008}', '\U{2009}', '\U{200A}',
    '\U{2028}', '\U{2029}', '\U{202F}', '\U{205F}', '\U{3000}', '\U{FEFF}' }

  predicate IsWhitespace(c: char) {
    c in WhitespaceChars
  }

  /** The code points a regular-expression `.` does not match. */
  predicate IsLineTerminator(c: char) {
    c == '\n' || c == '\r' || c == '\U{2028}' || c == '\U{2029}'
  }

  predicate IsDigit(c: char) { '0' <= c <= '9' }

  /** No digit is whitespace. */
  lemma DigitNotSpace(c: char)
    requires IsDigit(c)
    ensures !IsWhitespace(c)
  {
  }

  predicate IsAsciiLetter(c: char) { ('a' <= c <= 'z') || ('A' <= c <= 'Z') }

  function LowerChar(c: char): (r: char)
    ensures IsAsciiLetter(c) ==> 'a' <= r <= 'z'
    ensures !('A' <= c <= 'Z') ==> r == c
  {
    if 'A' <= c <= 'Z' then (c as int + 32) as char else c
  }

  /** `toLowerCase`, for the ASCII letters. */
  function ToLower(s: string): (r: string)
    ensures |r| == |s|
    ensures forall i :: 0 <= i < |s| ==> r[i] == LowerChar(s[i])
  {
    seq(|s|, i requires 0 <= i < |s| => LowerChar(s[i]))
  }

  /** `trimStart`: the suffix left after dropping leading whitespace. */
  function TrimStart(s: string): (r: string)
    ensures |r| <= |s| && r == s[|s| - |r|..]
  {
    if s != [] && IsWhitespace(s[0]) then TrimStart(s[1..]) else s
  }

  /** What `trimStart` drops is whitespace, and what it keeps does not start with any. */
  lemma {:induction false} TrimStartStrips(s: string)
    ensures var r := TrimStart(s);
      (r == [] || !IsWhitespace(r[0])) && forall i :: 0 <= i < |s| - |r| ==> IsWhitespace(s[i])
  {
    if s != [] && IsWhitespace(s[0]) {
      var t := s[1..];
      TrimStartStrips(t);
      assert TrimStart(s) == TrimStart(t);
      forall i | 0 <= i < |s| - |TrimStart(t)| ensures IsWhitespace(s[i]) {
        if i > 0 {
          assert s[i] == t[i - 1];
        }
      }
    }
  }

  /** `trimEnd`: the prefix left after dropping trailing whitespace. */
  function TrimEnd(s: string): (r: string)
    ensures |r| <= |s| && r == s[..|r|]
  {
    if s != [] && IsWhitespace(s[|s| - 1]) then TrimEnd(s[..|s| - 1]) else s
  }

  /** What `trimEnd` drops is whitespace, and what it keeps does not end with any. */
  lemma {:induction false} TrimEndStrips(s: string)
    ensures var r := TrimEnd(s);
      (r == [] || !IsWhitespace(r[|r| - 1])) && forall i :: |r| <= i < |s| ==> IsWhitespace(s[i])
  {
    if s != [] && IsWhitespace(s[|s| - 1]) {
      TrimEndStrips(s[..|s| - 1]);
      var r := TrimEnd(s);
      forall i | |r| <= i < |s| - 1 ensures IsWhitespace(s[i]) {
        assert s[i] == s[..|s| - 1][i];
      }
    }
  }

  /** `trim`: `trimEnd` after `trimStart`. */
  function Trim(s: string): (r: string)
    ensures |r| <= |s|
  {
    TrimEnd(TrimStart(s))
  }

  /** Neither end of a trimmed text is whitespace. */
  lemma TrimEnds(s: string)
    ensures var r := Trim(s); r == [] || (!IsWhitespace(r[0]) && !IsWhitespace(r[|r| - 1]))
  {
    var t := TrimStart(s);
    TrimStartStrips(s);
    TrimEndStrips(t);
    var r := TrimEnd(t);
    if r != [] {
      assert r[0] == t[0];
    }
  }

  lemma {:induction false} TrimOfBlank(s: string)
    requires forall i :: 0 <= i < |s| ==> IsWhitespace(s[i])
    ensures TrimStart(s) == [] && Trim(s) == []
  {
    if s != [] {
      TrimOfBlank(s[1..]);
    }
  }

  /** Trimming keeps only characters of `s`. */
  lemma TrimInside(s: string, c: char)
    requires c !in s
    ensures c !in Trim(s)
  {
    var t := TrimStart(s);
    forall k | 0 <= k < |t| ensures t[k] != c {
      assert t[k] == s[|s| - |t| + k];
    }
    var u := TrimEnd(t);
    forall k | 0 <= k < |u| ensures u[k] != c {
      assert u[k] == t[k];
    }
  }

  /** Trimming twice is trimming once. */
  lemma TrimIdempotent(s: string)
    ensures Trim(Trim(s)) == Trim(s)
  {
    TrimEnds(s);
    TrimOfTrimmed(Trim(s));
  }

  lemma TrimOfTrimmed(s: string)
    requires s == [] || (!IsWhitespace(s[0]) && !IsWhitespace(s[|s| - 1]))
    ensures Trim(s) == s
  {
  }

  function StartsWith(s: string, prefix: string): bool {
    |prefix| <= |s| && s[..|prefix|] == prefix
  }

  predicate OccursAt(s: string, pat: string, k: nat) {
    k + |pat| <= |s| && s[k..k + |pat|] == pat
  }

  /** `indexOf(pat, from)`: the first position at or after `from` where `pat` occurs. */
  function IndexOfFrom(s: string, pat: string, from: nat): (r: Option<nat>)
    decreases |s| - from
    ensures r.Some? ==> from <= r.value && OccursAt(s, pat, r.value)
    ensures r.Some? ==> forall k :: from <= k < r.value ==> !OccursAt(s, pat, k)
    ensures r.None? ==> forall k :: from <= k ==> !OccursAt(s, pat, k)
  {
    if from + |pat| > |s| then None
    else if s[from..from + |pat|] == pat then Some(from)
    else IndexOfFrom(s, pat, from + 1)
  }

  function IndexOf(s: string, pat: string): Option<nat> {
    IndexOfFrom(s, pat, 0)
  }

  /** `includes`. */
  function Contains(s: string, pat: string): (b: bool)
    ensures b <==> exists k :: OccursAt(s, pat, k)
  {
    var r := IndexOf(s, pat);
    assert r.Some? ==> OccursAt(s, pat, r.value);
    r.Some?
  }

  /** `replace(pat, "")` with a string pattern: only the first occurrence goes. */
  function RemoveFirst(s: string, pat: string): (r: string)
    ensures !Contains(s, pat) ==> r == s
    ensures Contains(s, pat) ==> |r| == |s| - |pat|
  {
    match IndexOf(s, pat)
    case None => s
    case Some(i) => s[..i] + s[i + |pat|..]
  }

  /** `replace(/\s+/g, rep)`: every maximal run of whitespace becomes one copy of `rep`. */
  function ReplaceWhitespaceRuns(s: string, rep: string): string {
    CollapseFrom(s, rep, false)
  }

  /** The replacement scan; `inRun` says the previous character was whitespace. */
  function CollapseFrom(s: string, rep: string, inRun: bool): string {
    if s == [] then []
    else if IsWhitespace(s[0]) then
      (if inRun then [] else rep) + CollapseFrom(s[1..], rep, true)
    else [s[0]] + CollapseFrom(s[1..], rep, false)
  }

  /** `split(c)` with a one-character separator: the pieces between separators, always at
      least one. */
  function SplitOn(s: string, c: char): (r: seq<string>)
    ensures |r| >= 1
    ensures forall i :: 0 <= i < |r| ==> c !in r[i]
  {
    if s == [] then [""]
    else
      var rest := SplitOn(s[1..], c);
      if s[0] == c then [""] + rest else [[s[0]] + rest[0]] + rest[1..]
  }

  /** The pieces hold only characters of `s`. */
  lemma {:induction false} SplitOnInside(s: string, c: char, d: char)
    requires d !in s
    ensures forall i :: 0 <= i < |SplitOn(s, c)| ==> d !in SplitOn(s, c)[i]
  {
    if s != [] {
      assert d !in s[1..];
      SplitOnInside(s[1..], c, d);
    }
  }

  /** `join(c)`. */
  function Join(parts: seq<string>, c: char): string
    requires |parts| >= 1
  {
    if |parts| == 1 then parts[0] else parts[0] + [c] + Join(parts[1..], c)
  }

  /** Splitting loses nothing: joining the pieces back gives the original text. */
  lemma {:induction false} SplitJoin(s: string, c: char)
    ensures Join(SplitOn(s, c), c) == s
  {
    if s != [] {
      var rest := SplitOn(s[1..], c);
      SplitJoin(s[1..], c);
      if s[0] == c {
        assert SplitOn(s, c)[1..] == rest;
      } else {
        var r := SplitOn(s, c);
        assert r[1..] == rest[1..];
        if |rest| > 1 {
          assert Join(rest, c) == rest[0] + [c] + Join(rest[1..], c);
        }
      }
    }
  }

  /** The end of the run of decimal digits that starts at `i`. */
  function DigitRunEnd(s: string, i: nat): (e: nat)
    requires i <= |s|
    decreases |s| - i
    ensures i <= e <= |s|
    ensures forall k :: i <= k < e ==> IsDigit(s[k])
    ensures e == |s| || !IsDigit(s[e])
  {
    if i < |s| && IsDigit(s[i]) then DigitRunEnd(s, i + 1) else i
  }

  /** The end of the run of whitespace that starts at `i`: where a greedy `\s*` stops. */
  function SpaceRunEnd(s: string, i: nat): (e: nat)
    requires i <= |s|
    decreases |s| - i
    ensures i <= e <= |s|
    ensures forall k :: i <= k < e ==> IsWhitespace(s[k])
    ensures e == |s| || !IsWhitespace(s[e])
  {
    if i < |s| && IsWhitespace(s[i]) then SpaceRunEnd(s, i + 1) else i
  }

  /** The end of the run of ASCII letters that starts at `i`. */
  function LetterRunEnd(s: string, i: nat): (e: nat)
    requires i <= |s|
    decreases |s| - i
    ensures i <= e <= |s|
    ensures forall k :: i <= k < e ==> IsAsciiLetter(s[k])
    ensures e == |s| || !IsAsciiLetter(s[e])
  {
    if i < |s| && IsAsciiLetter(s[i]) then LetterRunEnd(s, i + 1) else i
  }

  /** The leftmost position at or after `p` where `at` holds: where a regular-expression
      search from `p` finds its match, for a pattern whose matches start at a character. */
  function FirstAt(s: string, p: nat, at: (string, nat) -> bool): (r: Option<nat>)
    decreases |s| - p
    ensures r.Some? ==> p <= r.value < |s| && at(s, r.value)
    ensures r.Some? ==> forall j :: p <= j < r.value ==> !at(s, j)
    ensures r.None? ==> forall j :: p <= j < |s| ==> !at(s, j)
  {
    if p >= |s| then None
    else if at(s, p) then Some(p)
    else FirstAt(s, p + 1, at)
  }

  /** The search finds `q` when `q` matches and nothing between `p` and `q` does. */
  lemma FirstAtIs(s: string, p: nat, at: (string, nat) -> bool, q: nat)
    requires p <= q < |s| && at(s, q)
    requires forall j :: p <= j < q ==> !at(s, j)
    ensures FirstAt(s, p, at) == Some(q)
  {
  }

  /** Each text trimmed. */
  function TrimAll(parts: seq<string>): (r: seq<string>)
    ensures |r| == |parts|
    ensures forall i :: 0 <= i < |r| ==> r[i] == Trim(parts[i])
  {
    seq(|parts|, i requires 0 <= i < |parts| => Trim(parts[i]))
  }

  /** `a || b || ...` over strings, ending in null: the first non-empty candidate. */
  function FirstNonEmpty(cands: seq<string>): (r: Option<string>)
    ensures r.Some? ==> r.value != [] && r.value in cands
  {
    if cands == [] then None
    else if cands[0] != [] then Some(cands[0])
    else FirstNonEmpty(cands[1..])
  }

  /** The chain picks the earliest non-empty candidate, and gives null only when all are
      empty. */
  lemma {:induction false} FirstNonEmptyIsFirst(cands: seq<string>, i: nat)
    requires i < |cands| && cands[i] != []
    requires forall j :: 0 <= j < i ==> cands[j] == []
    ensures FirstNonEmpty(cands) == Some(cands[i])
  {
    if i > 0 {
      FirstNonEmptyIsFirst(cands[1..], i - 1);
    }
  }

  lemma {:induction false} FirstNonEmptyNone(cands: seq<string>)
    requires forall j :: 0 <= j < |cands| ==> cands[j] == []
    ensures FirstNonEmpty(cands) == None
  {
    if cands != [] {
      FirstNonEmptyNone(cands[1..]);
    }
  }

  /** `$('a[href*="pat"]').attr('href')`: the first href that contains `pat`. */
  function FirstContaining(hrefs: seq<string>, pat: string): (r: Option<string>)
    ensures r.Some? ==> r.value in hrefs && Contains(r.value, pat)
    ensures r.None? ==> forall i :: 0 <= i < |hrefs| ==> !Contains(hrefs[i], pat)
  {
    if hrefs == [] then None
    else if Contains(hrefs[0], pat) then Some(hrefs[0])
    else
      var r := FirstContaining(hrefs[1..], pat);
      assert forall i :: 1 <= i < |hrefs| ==> hrefs[i] == hrefs[1..][i - 1];
      r
  }

  predicate AllDigits(s: string) {
    forall k :: 0 <= k < |s| ==> IsDigit(s[k])
  }

  function DigitValue(c: char): nat requires IsDigit(c) { c as int - '0' as int }

  /** The value of a string of decimal digits (0 for the empty string). */
  function DigitsValue(s: string): nat
    requires AllDigits(s)
  {
    if s == [] then 0 else DigitsValue(s[..|s| - 1]) * 10 + DigitValue(s[|s| - 1])
  }

  function Pow10(n: nat): (r: nat) ensures r >= 1 {
    if n == 0 then 1 else 10 * Pow10(n - 1)
  }

  function DigitChar(d: nat): (c: char)
    requires d < 10
    ensures IsDigit(c) && DigitValue(c) == d
  {
    ('0' as int + d) as char
  }

  /** The decimal rendering of a natural number, as `String(n)` gives it. */
  function NatToString(n: nat): (r: string)
    ensures |r| > 0 && AllDigits(r)
    ensures DigitsValue(r) == n
  {
    if n < 10 then [DigitChar(n)]
    else
      var r := NatToString(n / 10) + [DigitChar(n % 10)];
      assert r[..|r| - 1] == NatToString(n / 10);
      r
  }

  /** `String(i)` for an integer. */
  function IntToString(i: int): string {
    if i < 0 then "-" + NatToString(-i) else NatToString(i)
  }

  /** The text after leading whitespace and an optional sign, and whether the sign was '-'. */
  function SignedBody(s: string): (string, bool) {
    var t := TrimStart(s);
    if |t| > 0 && (t[0] == '-' || t[0] == '+') then (t[1..], t[0] == '-') else (t, false)
  }

  /** `parseInt(s)` in base 10: leading digits after whitespace and a sign; None is NaN. */
  function ParseIntJs(s: string): (r: Option<int>)
    ensures r.Some? <==> (|SignedBody(s).0| > 0 && IsDigit(SignedBody(s).0[0]))
  {
    var (u, negative) := SignedBody(s);
    var e := DigitRunEnd(u, 0);
    if e == 0 then None
    else
      var v := DigitsValue(u[..e]) as int;
      Some(if negative then -v else v)
  }

  /** The value of `<whole>.<fraction>` written in decimal digits. */
  function DecimalValue(whole: string, fraction: string): real
    requires AllDigits(whole) && AllDigits(fraction)
  {
    DigitsValue(whole) as real + DigitsValue(fraction) as real / Pow10(|fraction|) as real
  }

  /** `parseFloat(s)` for plain decimal notation; None is NaN. */
  function ParseFloatJs(s: string): (r: Option<real>)
    ensures r.Some? ==> |SignedBody(s).0| > 0 && (IsDigit(SignedBody(s).0[0]) || SignedBody(s).0[0] == '.')
  {
    var (u, negative) := SignedBody(s);
    var e1 := DigitRunEnd(u, 0);
    var e2 := if e1 < |u| && u[e1] == '.' then DigitRunEnd(u, e1 + 1) else e1;
    if e1 == 0 && e2 <= 1 then None
    else
      var v := DecimalValue(u[..e1], if e2 > e1 then u[e1 + 1..e2] else "");
      Some(if negative then -v else v)
  }
}
