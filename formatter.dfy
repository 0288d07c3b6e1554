/** The text normalisers and response helpers of the data formatter. */
module DataFormatter {
  import opened Wrappers
  import opened Text
  import opened Records

  // ---------------------------------------------------------------------------------------
  // Episode canonicalisation: /(?:EP|ep)?(\d+).*?(?:eps?|episodes?)/i, then /(\d+)/.
  // ---------------------------------------------------------------------------------------

  /** "ep" in any letter case at position `q`; every alternative of `(?:eps?|episodes?)`
      begins with it and may stop right after it. */
  predicate EpAt(s: string, q: nat) {
    q + 2 <= |s| && (s[q] == 'e' || s[q] == 'E') && (s[q + 1] == 'p' || s[q + 1] == 'P')
  }

  /** `.*?(?:eps?|episodes?)` matches from `e`: an "ep" occurs at or after `e`, with no line
      terminator in between (`.` does not cross one). */
  function EpAhead(s: string, e: nat): (b: bool)
    requires e <= |s|
    decreases |s| - e
    ensures b <==> exists q :: e <= q && EpAt(s, q) &&
                       forall k :: e <= k < q ==> !IsLineTerminator(s[k])
  {
    if e + 2 > |s| then
      assert forall q :: e <= q ==> !EpAt(s, q);
      false
    else if EpAt(s, e) then true
    else if IsLineTerminator(s[e]) then false
    else
      var b := EpAhead(s, e + 1);
      assert b ==> exists q :: e <= q && EpAt(s, q) &&
                     forall k :: e <= k < q ==> !IsLineTerminator(s[k]);
      b
  }

  /** The digit at `i` starts a capture of `(\d+)` that the rest of the pattern accepts. The
      greedy run to `DigitRunEnd` is tried first, and a shorter run is followed only by more
      digits, so it succeeds exactly when the full run does. */
  predicate QualifiesAt(s: string, i: nat) {
    i < |s| && IsDigit(s[i]) && EpAhead(s, DigitRunEnd(s, i))
  }

  /** The leftmost-match search of the episode pattern from position `p`, trying at each
      position first with the optional `EP` prefix and then without; the result is where
      the capture group starts. */
  function EpisodeMatchFrom(s: string, p: nat): (r: Option<nat>)
    decreases |s| - p
    ensures r.Some? ==> p <= r.value && QualifiesAt(s, r.value)
    ensures r.Some? ==> forall j :: p <= j < r.value ==> !QualifiesAt(s, j)
    ensures r.None? ==> forall j :: p <= j ==> !QualifiesAt(s, j)
  {
    if p >= |s| then None
    else if EpAt(s, p) && p + 2 < |s| && IsDigit(s[p + 2]) && EpAhead(s, DigitRunEnd(s, p + 2))
    then Some(p + 2)
    else if IsDigit(s[p]) && EpAhead(s, DigitRunEnd(s, p)) then Some(p)
    else EpisodeMatchFrom(s, p + 1)
  }

  /** The leftmost match of `/(\d+)/` from `p`: the first digit. */
  function FirstDigitFrom(s: string, p: nat): (r: Option<nat>)
    decreases |s| - p
    ensures r.Some? ==> p <= r.value < |s| && IsDigit(s[r.value])
    ensures r.Some? ==> forall j :: p <= j < r.value ==> !IsDigit(s[j])
    ensures r.None? ==> forall j :: p <= j < |s| ==> !IsDigit(s[j])
  {
    if p >= |s| then None
    else if IsDigit(s[p]) then Some(p)
    else FirstDigitFrom(s, p + 1)
  }

  /** The maximal digit run starting at `i`. */
  function RunAt(s: string, i: nat): (d: string)
    requires i < |s| && IsDigit(s[i])
    ensures |d| > 0 && AllDigits(d)
  {
    s[i..DigitRunEnd(s, i)]
  }

  /** The episode rule as written inline in the server and the scraper script: the episode
      pattern's capture, else the first digit run, else "N/A". */
  function EpisodeRule(s: string): (r: string)
    ensures r == "N/A" || (|r| > 2 && r[..2] == "EP" && AllDigits(r[2..]))
  {
    match EpisodeMatchFrom(s, 0)
    case Some(i) => "EP" + RunAt(s, i)
    case None =>
      match FirstDigitFrom(s, 0)
      case Some(i) => "EP" + RunAt(s, i)
      case None => "N/A"
  }

  /** `cleanEpisodeInfo`: "N/A" for missing or empty text, else the episode rule. */
  function CleanEpisodeInfo(s: string): (r: string)
    ensures r == "N/A" || (|r| > 2 && r[..2] == "EP" && AllDigits(r[2..]))
    ensures s == [] ==> r == "N/A"
  {
    if s == [] then "N/A" else EpisodeRule(s)
  }

  predicate HasDigit(s: string) {
    exists i :: 0 <= i < |s| && IsDigit(s[i])
  }

  /** The empty-text guard of `cleanEpisodeInfo` changes nothing: the inline copies that
      lack it compute the same. */
  lemma CleanEpisodeInfoIsEpisodeRule(s: string)
    ensures CleanEpisodeInfo(s) == EpisodeRule(s)
  {
    if s == [] {
      assert FirstDigitFrom(s, 0).None?;
    }
  }

  /** "N/A" comes out exactly when the text holds no digit. */
  lemma CleanEpisodeNone(s: string)
    ensures CleanEpisodeInfo(s) == "N/A" <==> !HasDigit(s)
  {
    if HasDigit(s) {
      var i :| 0 <= i < |s| && IsDigit(s[i]);
      assert FirstDigitFrom(s, 0).Some?;
      match EpisodeMatchFrom(s, 0)
      case Some(j) => assert ("EP" + RunAt(s, j))[..2] == "EP";
      case None => {}
    } else {
      assert EpisodeMatchFrom(s, 0).None?;
    }
  }

  /** A qualifying digit preceded by a digit extends a qualifying run; so the earliest
      qualifying digit starts its run. */
  lemma RunEndShared(s: string, i: nat)
    requires i + 1 < |s| && IsDigit(s[i]) && IsDigit(s[i + 1])
    ensures DigitRunEnd(s, i) == DigitRunEnd(s, i + 1)
  {
  }

  /** The earliest position holding a digit whose maximal run is followed, later on the
      same line, by "ep" in any case. */
  predicate EarliestQualifying(s: string, i: nat) {
    QualifiesAt(s, i) && (i == 0 || !IsDigit(s[i - 1])) &&
    forall j :: 0 <= j < i ==> !QualifiesAt(s, j)
  }

  /** Which digits are chosen: the earliest whole digit run followed by "ep" on its line,
      and otherwise the first digit run. */
  lemma CleanEpisodeChoice(s: string)
    ensures forall i :: EarliestQualifying(s, i) ==> CleanEpisodeInfo(s) == "EP" + RunAt(s, i)
    ensures (forall j :: 0 <= j < |s| ==> !QualifiesAt(s, j)) ==>
              forall i :: 0 <= i < |s| && IsDigit(s[i]) && (forall j :: 0 <= j < i ==> !IsDigit(s[j])) ==>
                CleanEpisodeInfo(s) == "EP" + RunAt(s, i)
  {
    match EpisodeMatchFrom(s, 0)
    case Some(m) =>
      var r := EpisodeMatchFrom(s, 0);
      if m > 0 && IsDigit(s[m - 1]) {
        RunEndShared(s, m - 1);
        assert QualifiesAt(s, m - 1);
        assert false;
      }
      assert forall i: nat :: EarliestQualifying(s, i) ==> i == m;
    case None =>
      match FirstDigitFrom(s, 0)
      case Some(m) =>
        assert forall i :: 0 <= i < |s| && IsDigit(s[i]) && (forall j :: 0 <= j < i ==> !IsDigit(s[j])) ==> i == m;
      case None => {}
  }

  lemma DigitRunToEnd(s: string, i: nat)
    requires i <= |s| && forall k :: i <= k < |s| ==> IsDigit(s[k])
    decreases |s| - i
    ensures DigitRunEnd(s, i) == |s|
  {
    if i < |s| { DigitRunToEnd(s, i + 1); }
  }

  /** A digit string at the end of a text is read whole. */
  lemma RunOfSuffix(a: string, digits: string)
    requires |digits| > 0 && AllDigits(digits)
    ensures |a| < |a + digits| && IsDigit((a + digits)[|a|])
    ensures RunAt(a + digits, |a|) == digits
  {
    var t := a + digits;
    forall k | |a| <= k < |t| ensures IsDigit(t[k]) {
      assert t[k] == digits[k - |a|];
    }
    assert t[|a|..] == digits;
  }

  /** Canonical output is a fixed point: cleaning "EP12" again gives "EP12". */
  lemma {:induction false} CleanEpisodeIdempotent(s: string)
    ensures CleanEpisodeInfo(CleanEpisodeInfo(s)) == CleanEpisodeInfo(s)
  {
    var r := CleanEpisodeInfo(s);
    if r != "N/A" {
      forall j | 0 <= j < |r| ensures !QualifiesAt(r, j) {
        if IsDigit(r[j]) {
          assert j >= 2 by {
            assert r[0] == 'E' && r[1] == 'P';
          }
          forall k | j <= k < |r| ensures IsDigit(r[k]) { assert r[k] == r[2..][k - 2]; }
          DigitRunToEnd(r, j);
        }
      }
      assert r[0] == 'E' && r[1] == 'P' && IsDigit(r[2]) by { assert r[2] == r[2..][0]; }
      assert FirstDigitFrom(r, 0) == Some(2);
      forall k | 2 <= k < |r| ensures IsDigit(r[k]) { assert r[k] == r[2..][k - 2]; }
      DigitRunToEnd(r, 2);
      assert RunAt(r, 2) == r[2..];
      assert EpisodeRule(r) == "EP" + r[2..] == r;
    }
  }

  lemma EpisodeExampleCount()
    ensures CleanEpisodeInfo("12 eps") == "EP12"
  {
    var a := "12 eps";
    assert a[0] == '1' && a[1] == '2' && a[2] == ' ' && a[3] == 'e' && a[4] == 'p';
    assert DigitRunEnd(a, 2) == 2;
    assert DigitRunEnd(a, 1) == 2;
    assert DigitRunEnd(a, 0) == 2;
    assert EpAt(a, 3);
    assert EpAhead(a, 2);
    assert EpisodeMatchFrom(a, 0) == Some(0);
    assert a[0..2] == "12";
  }

  // ---------------------------------------------------------------------------------------
  // Studio clean-up: replace(/\s+/g, ' ').split(/[,\n]/)[0].trim() || 'N/A'.
  // ---------------------------------------------------------------------------------------

  /** `split(/[,\n]/)[0]`: the text before the first comma or newline. */
  function FirstSegment(s: string): (r: string)
    ensures |r| <= |s| && r == s[..|r|]
    ensures ',' !in r && '\n' !in r
    ensures |r| < |s| ==> s[|r|] == ',' || s[|r|] == '\n'
  {
    if s == [] || s[0] == ',' || s[0] == '\n' then [] else [s[0]] + FirstSegment(s[1..])
  }

  /** The studio rule as written inline in the server: collapse, cut, trim, else "N/A". */
  function StudioRule(s: string): string {
    var cleaned := Trim(FirstSegment(ReplaceWhitespaceRuns(s, " ")));
    if cleaned == [] then "N/A" else cleaned
  }

  /** `cleanStudio`: "N/A" for missing or empty text, else the studio rule. */
  function CleanStudio(s: string): (r: string)
    ensures s == [] ==> r == "N/A"
  {
    if s == [] then "N/A" else StudioRule(s)
  }

  /** Whitespace is single spaces only, never two in a row. */
  ghost predicate Tidy(s: string) {
    (forall i :: 0 <= i < |s| && IsWhitespace(s[i]) ==> s[i] == ' ') &&
    (forall i, j :: 0 <= i < j < |s| && j == i + 1 ==> !(IsWhitespace(s[i]) && IsWhitespace(s[j])))
  }

  lemma TidySlice(s: string, a: nat, b: nat)
    requires a <= b <= |s| && Tidy(s)
    ensures Tidy(s[a..b])
  {
    var t := s[a..b];
    forall i | 0 <= i < |t| && IsWhitespace(t[i]) ensures t[i] == ' ' {
      assert t[i] == s[a + i];
    }
    forall i, j | 0 <= i < j < |t| && j == i + 1
      ensures !(IsWhitespace(t[i]) && IsWhitespace(t[j]))
    {
      assert t[i] == s[a + i] && t[j] == s[a + j];
    }
  }

  /** Two tidy texts stay tidy when joined, unless whitespace meets whitespace at the seam. */
  lemma TidyConcat(a: string, b: string)
    requires Tidy(a) && Tidy(b)
    requires a == [] || b == [] || !(IsWhitespace(a[|a| - 1]) && IsWhitespace(b[0]))
    ensures Tidy(a + b)
  {
    var t := a + b;
    forall i | 0 <= i < |t| && IsWhitespace(t[i]) ensures t[i] == ' ' {
      if i < |a| { assert t[i] == a[i]; } else { assert t[i] == b[i - |a|]; }
    }
    forall i, j | 0 <= i < j < |t| && j == i + 1
      ensures !(IsWhitespace(t[i]) && IsWhitespace(t[j]))
    {
      if j < |a| {
        assert t[i] == a[i] && t[j] == a[j];
      } else if i >= |a| {
        assert t[i] == b[i - |a|] && t[j] == b[j - |a|];
      } else {
        assert t[i] == a[|a| - 1] && t[j] == b[0];
      }
    }
  }

  lemma {:induction false} CollapseTidy(s: string, inRun: bool)
    ensures var r := CollapseFrom(s, " ", inRun);
      Tidy(r) && (inRun && r != [] ==> !IsWhitespace(r[0])) &&
      (s != [] && !IsWhitespace(s[0]) ==> r != [] && r[0] == s[0])
  {
    if s != [] {
      if IsWhitespace(s[0]) {
        CollapseTidy(s[1..], true);
        var rt := CollapseFrom(s[1..], " ", true);
        if !inRun { TidyConcat(" ", rt); }
      } else {
        CollapseTidy(s[1..], false);
        var rt := CollapseFrom(s[1..], " ", false);
        TidyConcat([s[0]], rt);
      }
    }
  }

  lemma {:induction false} CollapseOfTidy(s: string, inRun: bool)
    requires Tidy(s) && (inRun && s != [] ==> !IsWhitespace(s[0]))
    ensures CollapseFrom(s, " ", inRun) == s
  {
    if s != [] {
      TidySlice(s, 1, |s|);
      if |s| > 1 { assert s[1..][0] == s[1]; }
      if IsWhitespace(s[0]) {
        CollapseOfTidy(s[1..], true);
        assert s == " " + s[1..];
      } else {
        CollapseOfTidy(s[1..], false);
        assert s == [s[0]] + s[1..];
      }
    }
  }

  /** What `cleanStudio` keeps: no comma, no newline, no whitespace at either end and no
      whitespace but single spaces. */
  ghost predicate CleanStudioName(r: string) {
    r != [] && ',' !in r && '\n' !in r &&
    !IsWhitespace(r[0]) && !IsWhitespace(r[|r| - 1]) && Tidy(r)
  }

  /** A tidy text without commas. */
  ghost predicate CommaFreeTidy(s: string) {
    Tidy(s) && forall i :: 0 <= i < |s| ==> s[i] != ','
  }

  lemma CommaFreeTidySlice(s: string, a: nat, b: nat)
    requires a <= b <= |s| && CommaFreeTidy(s)
    ensures CommaFreeTidy(s[a..b])
  {
    TidySlice(s, a, b);
    assert forall i :: 0 <= i < b - a ==> s[a..b][i] == s[a + i];
  }

  lemma SegmentShape(c: string)
    requires Tidy(c)
    ensures CommaFreeTidy(FirstSegment(c))
  {
    var f := FirstSegment(c);
    TidySlice(c, 0, |f|);
    assert forall i :: 0 <= i < |f| ==> f[i] in f;
  }

  lemma TrimShape(f: string)
    requires CommaFreeTidy(f)
    ensures Trim(f) == [] || CleanStudioName(Trim(f))
  {
    TrimEnds(f);
    var t1 := TrimStart(f);
    CommaFreeTidySlice(f, |f| - |t1|, |f|);
    var t2 := TrimEnd(t1);
    CommaFreeTidySlice(t1, 0, |t2|);
    assert IsWhitespace('\n');
    assert ',' !in t2 && '\n' !in t2;
  }

  lemma CutShape(s: string)
    ensures var t := Trim(FirstSegment(ReplaceWhitespaceRuns(s, " "))); t == [] || CleanStudioName(t)
  {
    CollapseTidy(s, false);
    SegmentShape(ReplaceWhitespaceRuns(s, " "));
    TrimShape(FirstSegment(ReplaceWhitespaceRuns(s, " ")));
  }

  lemma StudioRuleShape(s: string)
    ensures StudioRule(s) == "N/A" || CleanStudioName(StudioRule(s))
  {
    CutShape(s);
  }

  /** The guarded and the unguarded studio rules agree, and the result is either "N/A" or a
      clean single-line name. */
  lemma CleanStudioShape(s: string)
    ensures CleanStudio(s) == StudioRule(s)
    ensures CleanStudio(s) == "N/A" || CleanStudioName(CleanStudio(s))
  {
    StudioRuleShape(s);
    if s == [] {
      assert ReplaceWhitespaceRuns(s, " ") == [];
    }
  }

  lemma NotAvailableFixed()
    ensures CleanStudio("N/A") == "N/A"
  {
    var n := "N/A";
    assert !IsWhitespace('N') && !IsWhitespace('/') && !IsWhitespace('A');
    assert CollapseFrom("A", " ", false) == "A";
    assert CollapseFrom("/A", " ", false) == "/A" by { assert "/A"[1..] == "A"; }
    assert CollapseFrom(n, " ", false) == n by { assert n[1..] == "/A"; }
    assert FirstSegment(n) == n by {
      assert n[1..] == "/A" && "/A"[1..] == "A" && "A"[1..] == [];
    }
    TrimOfTrimmed(n);
  }

  lemma CleanNameFixed(r: string)
    requires CleanStudioName(r)
    ensures CleanStudio(r) == r
  {
    CollapseOfTidy(r, false);
    assert FirstSegment(r) == r;
    TrimOfTrimmed(r);
  }

  lemma CleanStudioIdempotent(s: string)
    ensures CleanStudio(CleanStudio(s)) == CleanStudio(s)
  {
    CleanStudioShape(s);
    if CleanStudio(s) == "N/A" {
      NotAvailableFixed();
    } else {
      CleanNameFixed(CleanStudio(s));
    }
  }

  /** Collapsing text made only of whitespace leaves at most the one replacement space, and
      nothing when a run is already open. */
  lemma {:induction false} CollapseBlank(s: string, inRun: bool)
    requires forall k :: 0 <= k < |s| ==> IsWhitespace(s[k])
    ensures CollapseFrom(s, " ", inRun) == [] || CollapseFrom(s, " ", inRun) == " "
    ensures inRun ==> CollapseFrom(s, " ", inRun) == []
  {
    if s != [] {
      assert IsWhitespace(s[0]);
      CollapseBlank(s[1..], true);
    }
  }

  /** Text made only of whitespace cleans to "N/A". */
  lemma StudioExampleBlank(s: string)
    requires forall k :: 0 <= k < |s| ==> IsWhitespace(s[k])
    ensures CleanStudio(s) == "N/A"
  {
    if s != [] {
      CollapseBlank(s, false);
      assert FirstSegment(" ") == " ";
      assert TrimStart(" ") == [];
    }
  }

  // ---------------------------------------------------------------------------------------
  // Response envelope and record validation.
  // ---------------------------------------------------------------------------------------

  /** The options `formatResponse` reads; None is an omitted or null option. Every caller
      passes its time stamp as the ISO-8601 rendering of a clock reading, which is never
      empty; `timestamp` is that reading (the rendering itself is not modelled). */
  datatype ResponseOptions<T> = ResponseOptions(
    success: bool,
    data: Option<T>,
    message: Option<string>,
    total: Option<int>,
    cached: bool,
    timestamp: Option<int>,
    error: Option<string>)

  function Defaults<T>(): ResponseOptions<T> {
    ResponseOptions(true, None, None, None, false, None, None)
  }

  /** The response body; a None field (or `cached` false) is a property that is not set. */
  datatype Response<T> = Response(
    success: bool,
    timestamp: int,
    error: Option<string>,
    message: Option<string>,
    data: Option<T>,
    total: Option<int>,
    cached: bool)

  function Truthy(s: Option<string>): Option<string> {
    if s.Some? && s.value != [] then s else None
  }

  /** `formatResponse`, with `now` standing for `new Date()`; `timestamp` in the result is
      the clock reading the response's ISO-8601 stamp renders. */
  function FormatResponse<T>(o: ResponseOptions<T>, now: int): (r: Response<T>)
    ensures r.success == o.success
    ensures r.timestamp == (if o.timestamp.Some? then o.timestamp.value else now)
    ensures r.error.Some? <==> o.error.Some? && o.error.value != []
    ensures r.message.Some? <==> o.message.Some? && o.message.value != []
    ensures r.error.Some? ==> r.error == o.error
    ensures r.message.Some? ==> r.message == o.message
    ensures r.data == o.data && r.total == o.total && r.cached == o.cached
  {
    Response(
      o.success,
      o.timestamp.GetOr(now),
      Truthy(o.error), Truthy(o.message), o.data, o.total, o.cached)
  }

  /** `isValidAnime`: a present record whose title is a non-empty string. */
  function IsValidAnime(anime: Option<ListingRecord>): (b: bool)
    ensures b ==> anime.Some? && |anime.value.title| > 0
    ensures anime.Some? && anime.value.title != [] ==> b
  {
    anime.Some? && anime.value.title != []
  }

  /** A status code and the JSON body. */
  datatype Reply<T> = Reply(status: nat, body: Response<T>)

  /** `res.status(status).json(formatResponse({ success: false, error: message }))`. */
  function ErrorReply<T>(status: nat, message: string, t: int): Reply<T> {
    Reply(status, FormatResponse(ResponseOptions(false, None, None, None, false, None, Some(message)), t))
  }

  /** `res.json(formatResponse({ success: true, data, ... }))`. */
  function DataReply<T>(data: T, total: Option<int>, cached: bool, stamp: Option<int>, message: Option<string>, t: int): Reply<T> {
    Reply(200, FormatResponse(ResponseOptions(true, Some(data), message, total, cached, stamp, None), t))
  }
}
