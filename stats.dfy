/** `statsService`: totals, average ratings and status breakdowns of a season listing, and
    the per-genre and per-studio tallies. */
module StatsService {
  import opened Wrappers
  import opened Text
  import opened Records
  import opened Collections
  import opened Tally
  import AnimeSort

  // ---------------------------------------------------------------------------------------
  // Status breakdown

  datatype Breakdown = Breakdown(ongoing: nat, upcoming: nat, finished: nat, unknown: nat)

  predicate IsOngoing(r: ListingRecord) { r.status == "Ongoing" }
  predicate IsUpcoming(r: ListingRecord) { r.status == "Upcoming" }
  predicate IsFinished(r: ListingRecord) { r.status == "Finished" }
  predicate IsOtherStatus(r: ListingRecord) { !IsOngoing(r) && !IsUpcoming(r) && !IsFinished(r) }

  /** What the breakdown should hold: each of the three known statuses counted under its own
      key, and every other status, the empty one included, under Unknown. */
  function BreakdownOf(list: seq<ListingRecord>): Breakdown {
    Breakdown(CountIf(list, IsOngoing), CountIf(list, IsUpcoming), CountIf(list, IsFinished),
              CountIf(list, IsOtherStatus))
  }

  /** `_getStatusBreakdown`: `status || 'Unknown'` is counted under its own key when the
      breakdown object has it, and under Unknown otherwise. */
  method GetStatusBreakdown(list: seq<ListingRecord>) returns (b: Breakdown)
    ensures b == BreakdownOf(list)
  {
    b := Breakdown(0, 0, 0, 0);
    var i := 0;
    while i < |list|
      invariant 0 <= i <= |list|
      invariant b == BreakdownOf(list[..i])
    {
      PrefixOfPrefix(list, i);
      var status := if list[i].status == "" then "Unknown" else list[i].status;
      if status == "Ongoing" {
        b := b.(ongoing := b.ongoing + 1);
      } else if status == "Upcoming" {
        b := b.(upcoming := b.upcoming + 1);
      } else if status == "Finished" {
        b := b.(finished := b.finished + 1);
      } else {
        b := b.(unknown := b.unknown + 1);
      }
      i := i + 1;
    }
    WholePrefix(list);
  }

  /** Every record is counted exactly once: the four counts add up to the listing's length. */
  lemma {:induction false} BreakdownTotal(list: seq<ListingRecord>)
    ensures var b := BreakdownOf(list); b.ongoing + b.upcoming + b.finished + b.unknown == |list|
  {
    if list != [] {
      BreakdownTotal(list[..|list| - 1]);
    }
  }

  // ---------------------------------------------------------------------------------------
  // Average rating

  /** `_calculateAverageRating`'s two kinds of answer: the number 0 for an empty listing, and
      otherwise the mean, which the source formats with `toFixed(2)`. */
  datatype Average = NoRecords | Mean(value: real)

  /** `parseFloat(score) || 0` of each record. */
  function Ratings(list: seq<ListingRecord>): (xs: seq<real>)
    ensures |xs| == |list|
    ensures forall i :: 0 <= i < |list| ==> xs[i] == AnimeSort.RatingKey(list[i])
  {
    seq(|list|, i requires 0 <= i < |list| => AnimeSort.RatingKey(list[i]))
  }

  /** The `reduce` that adds them up. */
  function Sum(xs: seq<real>): real {
    if xs == [] then 0.0 else Sum(xs[..|xs| - 1]) + xs[|xs| - 1]
  }

  /** The mean of a list of numbers, 0 when there are none. */
  function MeanOf(xs: seq<real>): (a: Average)
    ensures a.NoRecords? <==> xs == []
  {
    if xs == [] then NoRecords else Mean(Sum(xs) / |xs| as real)
  }

  /** `_calculateAverageRating`. */
  function AverageRating(list: seq<ListingRecord>): (a: Average)
    ensures a.NoRecords? <==> list == []
  {
    MeanOf(Ratings(list))
  }

  lemma DivTimes(x: real, n: real)
    requires n > 0.0
    ensures (x / n) * n == x
  {
  }

  lemma TimesMonotone(a: real, b: real, n: real)
    requires a < b && n > 0.0
    ensures a * n < b * n
  {
  }

  lemma {:induction false} SumBounds(xs: seq<real>, lo: real, hi: real)
    requires forall i :: 0 <= i < |xs| ==> lo <= xs[i] <= hi
    ensures lo * |xs| as real <= Sum(xs) <= hi * |xs| as real
  {
    if xs != [] {
      var init := xs[..|xs| - 1];
      var n := |init| as real;
      SumBounds(init, lo, hi);
      assert lo * (n + 1.0) == lo * n + lo;
      assert hi * (n + 1.0) == hi * n + hi;
    }
  }

  /** The mean times the count gives back the total. */
  lemma MeanTimesCount(xs: seq<real>)
    requires xs != []
    ensures MeanOf(xs).value * |xs| as real == Sum(xs)
  {
    DivTimes(Sum(xs), |xs| as real);
  }

  /** The mean lies between the smallest and the largest number. */
  lemma MeanBounds(xs: seq<real>, lo: real, hi: real)
    requires xs != []
    requires forall i :: 0 <= i < |xs| ==> lo <= xs[i] <= hi
    ensures lo <= MeanOf(xs).value <= hi
  {
    SumBounds(xs, lo, hi);
    MeanTimesCount(xs);
    var n := |xs| as real;
    var m := MeanOf(xs).value;
    if m < lo {
      TimesMonotone(m, lo, n);
    }
    if m > hi {
      TimesMonotone(hi, m, n);
    }
  }

  /** So the average rating lies between the smallest and the largest rating key. */
  lemma AverageWithinRatings(list: seq<ListingRecord>, lo: real, hi: real)
    requires list != []
    requires forall i :: 0 <= i < |list| ==> lo <= AnimeSort.RatingKey(list[i]) <= hi
    ensures lo <= AverageRating(list).value <= hi
  {
    MeanBounds(Ratings(list), lo, hi);
  }

  // ---------------------------------------------------------------------------------------
  // Genres of a record

  /** `)` first occurs at `q`, at or after `i`, with no line terminator before it: the lazy
      `(.*?)\)` starting at `i` ends there. */
  ghost predicate Closes(s: string, i: nat, q: nat) {
    i <= q < |s| && s[q] == ')' &&
    forall k :: i <= k < q ==> s[k] != ')' && !IsLineTerminator(s[k])
  }

  /** `/\((.*?)\)/` matches at `p`, ending at `q`. */
  ghost predicate ParenMatchAt(s: string, p: nat, q: nat) {
    p < |s| && s[p] == '(' && Closes(s, p + 1, q)
  }

  /** The end of the match that starts just after an opening parenthesis at `i - 1`. */
  function CloseFrom(s: string, i: nat): (r: Option<nat>)
    decreases |s| - i
    ensures r.Some? ==> i <= r.value < |s|
  {
    if i >= |s| || IsLineTerminator(s[i]) then None
    else if s[i] == ')' then Some(i)
    else CloseFrom(s, i + 1)
  }

  /** `CloseFrom` finds the end of the match, and finds none exactly when there is none. */
  lemma {:induction false} CloseFromFinds(s: string, i: nat)
    decreases |s| - i
    ensures CloseFrom(s, i).Some? ==> Closes(s, i, CloseFrom(s, i).value)
    ensures CloseFrom(s, i).None? ==> forall q :: !Closes(s, i, q)
  {
    ClosesStep(s, i);
    if i < |s| && !IsLineTerminator(s[i]) && s[i] != ')' {
      CloseFromFinds(s, i + 1);
    }
  }

  /** A match that closes at or after `i` either closes at `i` or passes over `s[i]`. */
  lemma ClosesStep(s: string, i: nat)
    ensures forall q :: Closes(s, i, q) ==>
      q == i || (s[i] != ')' && !IsLineTerminator(s[i]) && Closes(s, i + 1, q))
  {
    forall q | Closes(s, i, q) && q != i
      ensures s[i] != ')' && !IsLineTerminator(s[i]) && Closes(s, i + 1, q)
    {
      assert i <= i < q;
    }
  }

  /** The first capture of the leftmost match at or after `from`. */
  function ParenGroupFrom(s: string, from: nat): Option<string>
    decreases |s| - from
  {
    if from >= |s| then None
    else
      var close := if s[from] == '(' then CloseFrom(s, from + 1) else None;
      if close.Some? then Some(s[from + 1..close.value])
      else ParenGroupFrom(s, from + 1)
  }

  /** `ParenGroupFrom` returns the capture of the leftmost match, and nothing exactly when no
      match exists. */
  lemma {:induction false} ParenGroupFromFinds(s: string, from: nat)
    decreases |s| - from
    ensures var r := ParenGroupFrom(s, from);
      r.Some? ==> exists p: nat, q: nat ::
        from <= p && ParenMatchAt(s, p, q) && r.value == s[p + 1..q] &&
        (forall p': nat, q': nat :: from <= p' < p ==> !ParenMatchAt(s, p', q'))
    ensures ParenGroupFrom(s, from).None? ==> forall p: nat, q: nat :: from <= p ==> !ParenMatchAt(s, p, q)
  {
    if from < |s| {
      if s[from] == '(' {
        CloseFromFinds(s, from + 1);
      }
      var close := if s[from] == '(' then CloseFrom(s, from + 1) else None;
      if close.Some? {
        assert ParenMatchAt(s, from, close.value);
      } else {
        assert forall q: nat :: !ParenMatchAt(s, from, q);
        ParenGroupFromFinds(s, from + 1);
      }
    }
  }

  /** `title.match(/\((.*?)\)/)[1]`. */
  function ParenGroup(s: string): Option<string> {
    ParenGroupFrom(s, 0)
  }

  /** The captured group never holds a closing parenthesis. */
  lemma GroupHasNoClose(s: string, g: string)
    requires ParenGroup(s) == Some(g)
    ensures ')' !in g
  {
    ParenGroupFromFinds(s, 0);
    var p: nat, q: nat :| ParenMatchAt(s, p, q) && g == s[p + 1..q];
    forall k | 0 <= k < |g| ensures g[k] != ')' {
      assert g[k] == s[p + 1 + k];
    }
  }

  /** The genre a record falls back to when its title names none. */
  function StatusGenre(status: string): string {
    if status == "Ongoing" then "Ongoing" else if status == "Upcoming" then "Upcoming" else "Other"
  }

  /** The genres tried for one record. A listing record has no `tags`, so they come from the
      first parenthesised group of the title, split at commas and trimmed, and when the title
      has none, from the status. */
  function GenreCandidates(r: ListingRecord): (gs: seq<string>)
    ensures |gs| >= 1
  {
    if r.title != [] && ParenGroup(r.title).Some? then TrimAll(SplitOn(ParenGroup(r.title).value, ','))
    else [StatusGenre(r.status)]
  }

  /** A title's group "Action, Adventure" yields one genre per comma-separated piece, none of
      them holding a comma or a closing parenthesis, none with whitespace at either end. */
  lemma TitleGenresShape(r: ListingRecord, g: string)
    requires ParenGroup(r.title) == Some(g)
    ensures var gs := GenreCandidates(r);
      |gs| == |SplitOn(g, ',')| &&
      forall i :: 0 <= i < |gs| ==> ',' !in gs[i] && ')' !in gs[i] && gs[i] == Trim(gs[i])
  {
    assert r.title != [];
    GroupHasNoClose(r.title, g);
    assert GenreCandidates(r) == TrimAll(SplitOn(g, ','));
    TrimmedPieces(g);
  }

  lemma TrimmedPieces(g: string)
    requires ')' !in g
    ensures var gs := TrimAll(SplitOn(g, ','));
      forall i :: 0 <= i < |gs| ==> ',' !in gs[i] && ')' !in gs[i] && gs[i] == Trim(gs[i])
  {
    var parts := SplitOn(g, ',');
    var gs := TrimAll(parts);
    SplitOnInside(g, ',', ')');
    forall i | 0 <= i < |gs| ensures ',' !in gs[i] && ')' !in gs[i] && gs[i] == Trim(gs[i]) {
      TrimInside(parts[i], ',');
      TrimInside(parts[i], ')');
      TrimIdempotent(parts[i]);
    }
  }

  // ---------------------------------------------------------------------------------------
  // Genre and studio tallies

  /** `genre.trim()`, counted only when something is left. */
  function CleanEntry(genre: string, title: string, rating: real): seq<Entry> {
    var clean := Trim(genre);
    if clean == [] then [] else [Entry(clean, title, rating)]
  }

  function CleanOf(title: string, rating: real): string -> seq<Entry> {
    g => CleanEntry(g, title, rating)
  }

  /** The entries a record's genres make, in order: each candidate trimmed, the empty ones
      skipped. */
  function EntriesFor(gs: seq<string>, title: string, rating: real): seq<Entry> {
    ConcatMap(gs, CleanOf(title, rating))
  }

  lemma EntriesForStep(gs: seq<string>, j: nat, title: string, rating: real)
    requires j < |gs|
    ensures EntriesFor(gs[..j + 1], title, rating) == EntriesFor(gs[..j], title, rating) + CleanEntry(gs[j], title, rating)
  {
    ConcatMapStep(gs, j, CleanOf(title, rating));
  }

  lemma EntriesForSplit(gs: seq<string>, n: nat, title: string, rating: real)
    requires n <= |gs|
    ensures EntriesFor(gs, title, rating) == EntriesFor(gs[..n], title, rating) + EntriesFor(gs[n..], title, rating)
  {
    assert gs == gs[..n] + gs[n..];
    ConcatMapAppend(gs[..n], gs[n..], CleanOf(title, rating));
  }

  function GenreEntries(r: ListingRecord): seq<Entry> {
    EntriesFor(GenreCandidates(r), r.title, AnimeSort.RatingKey(r))
  }

  /** The genre tally of `getStatsByGenre`. */
  function GenreTally(list: seq<ListingRecord>): Result<Tally> {
    AddAll(Empty, ConcatMap(list, GenreEntries))
  }

  /** `anime.studio || 'Unknown'`. */
  function StudioKey(r: ListingRecord): string {
    if r.studio == "" then "Unknown" else r.studio
  }

  function StudioEntries(list: seq<ListingRecord>): (es: seq<Entry>)
    ensures |es| == |list|
    ensures forall i :: 0 <= i < |list| ==>
      es[i] == Entry(StudioKey(list[i]), list[i].title, AnimeSort.RatingKey(list[i]))
  {
    seq(|list|, i requires 0 <= i < |list| => Entry(StudioKey(list[i]), list[i].title, AnimeSort.RatingKey(list[i])))
  }

  /** The studio tally of `getStatsByStudio`: one entry per record. */
  function StudioTally(list: seq<ListingRecord>): Result<Tally> {
    AddAll(Empty, StudioEntries(list))
  }

  /** The per-studio loop over a plain object, as the source writes it: create the tally on
      first sight, then count, add the rating, push the title. */
  method TallyByStudio(list: seq<ListingRecord>) returns (r: Result<Tally>)
    ensures r == StudioTally(list)
  {
    var stats: map<string, Stat> := map[];
    var order: seq<string> := [];
    ghost var es := StudioEntries(list);
    var i := 0;
    while i < |list|
      invariant 0 <= i <= |list|
      invariant AddAll(Empty, es[..i]) == Ok(Tally(stats, order))
    {
      var anime := list[i];
      var studio := if anime.studio == "" then "Unknown" else anime.studio;
      var rating := AnimeSort.RatingKey(anime);
      PrefixStep(Empty, es, i);
      if studio in InheritedNames {
        PrefixFails(Empty, es, i + 1);
        r := Err(PushOnUndefined);
        return;
      }
      stats, order := Record(stats, order, studio, anime.title, rating);
      i := i + 1;
    }
    WholePrefix(es);
    r := Ok(Tally(stats, order));
  }

  /** One candidate genre: skipped when it trims to nothing, added otherwise. */
  lemma CountStep(t: Tally, genres: seq<string>, j: nat, title: string, rating: real, u: Tally)
    requires j < |genres| && AddAll(t, EntriesFor(genres[..j], title, rating)) == Ok(u)
    ensures AddAll(t, EntriesFor(genres[..j + 1], title, rating)) ==
      if Trim(genres[j]) == [] then Ok(u) else Add(u, Trim(genres[j]), title, rating)
  {
    EntriesForStep(genres, j, title, rating);
    var sofar := EntriesFor(genres[..j], title, rating);
    if Trim(genres[j]) == [] {
      assert sofar + CleanEntry(genres[j], title, rating) == sofar;
    } else {
      AddAllStep(t, sofar, Entry(Trim(genres[j]), title, rating));
    }
  }

  /** A failure at candidate `j` is the failure of the whole record. */
  lemma CountFails(t: Tally, genres: seq<string>, j: nat, title: string, rating: real)
    requires j < |genres| && AddAll(t, EntriesFor(genres[..j + 1], title, rating)).Err?
    ensures AddAll(t, EntriesFor(genres, title, rating)) == AddAll(t, EntriesFor(genres[..j + 1], title, rating))
  {
    EntriesForSplit(genres, j + 1, title, rating);
    AddAllErrSticks(t, EntriesFor(genres[..j + 1], title, rating), EntriesFor(genres[j + 1..], title, rating));
  }

  /** A candidate that trims to an inherited name fails the whole record. */
  lemma CountFailsAt(t: Tally, genres: seq<string>, j: nat, title: string, rating: real, u: Tally)
    requires j < |genres| && AddAll(t, EntriesFor(genres[..j], title, rating)) == Ok(u)
    requires Trim(genres[j]) in InheritedNames
    ensures AddAll(t, EntriesFor(genres, title, rating)) == Err(PushOnUndefined)
  {
    var k := Trim(genres[j]);
    assert k != [] by {
      NoEmptyInherited();
    }
    assert AddAll(t, EntriesFor(genres[..j + 1], title, rating)) == Add(u, k, title, rating) by {
      CountStep(t, genres, j, title, rating, u);
    }
    assert Add(u, k, title, rating) == Err(PushOnUndefined);
    CountFails(t, genres, j, title, rating);
  }

  /** The inner loop over one record's candidate genres: trim each, skip it when empty,
      count it otherwise. */
  method CountGenres(t: Tally, genres: seq<string>, title: string, rating: real) returns (r: Result<Tally>)
    ensures r == AddAll(t, EntriesFor(genres, title, rating))
  {
    var stats, order := t.stats, t.order;
    var j := 0;
    assert genres[..0] == [];
    while j < |genres|
      invariant 0 <= j <= |genres|
      invariant AddAll(t, EntriesFor(genres[..j], title, rating)) == Ok(Tally(stats, order))
    {
      var clean := Trim(genres[j]);
      if clean != [] && clean in InheritedNames {
        CountFailsAt(t, genres, j, title, rating, Tally(stats, order));
        r := Err(PushOnUndefined);
        return;
      }
      ghost var u := Tally(stats, order);
      if clean != [] {
        stats, order := Record(stats, order, clean, title, rating);
      }
      assert AddAll(t, EntriesFor(genres[..j + 1], title, rating)) == Ok(Tally(stats, order)) by {
        CountStep(t, genres, j, title, rating, u);
      }
      j := j + 1;
    }
    WholePrefix(genres);
    r := Ok(Tally(stats, order));
  }

  /** One record of the outer loop. */
  lemma GenreTallyStep(list: seq<ListingRecord>, i: nat, t: Tally)
    requires i < |list| && AddAll(Empty, ConcatMap(list[..i], GenreEntries)) == Ok(t)
    ensures AddAll(Empty, ConcatMap(list[..i + 1], GenreEntries)) ==
      AddAll(t, EntriesFor(GenreCandidates(list[i]), list[i].title, AnimeSort.RatingKey(list[i])))
  {
    ConcatMapStep(list, i, GenreEntries);
    AddAllAppend(Empty, ConcatMap(list[..i], GenreEntries), GenreEntries(list[i]));
  }

  /** A failure at record `i` is the failure of the whole tally. */
  lemma GenreTallyFails(list: seq<ListingRecord>, i: nat)
    requires i < |list| && AddAll(Empty, ConcatMap(list[..i + 1], GenreEntries)).Err?
    ensures GenreTally(list) == AddAll(Empty, ConcatMap(list[..i + 1], GenreEntries))
  {
    SplitAt(list, i + 1);
    ConcatMapAppend(list[..i + 1], list[i + 1..], GenreEntries);
    AddAllErrSticks(Empty, ConcatMap(list[..i + 1], GenreEntries), ConcatMap(list[i + 1..], GenreEntries));
  }

  /** The per-genre loop of `getStatsByGenre` over the records. */
  method TallyByGenre(list: seq<ListingRecord>) returns (r: Result<Tally>)
    ensures r == GenreTally(list)
  {
    var t := Empty;
    var i := 0;
    while i < |list|
      invariant 0 <= i <= |list|
      invariant AddAll(Empty, ConcatMap(list[..i], GenreEntries)) == Ok(t)
    {
      var anime := list[i];
      var counted := CountGenres(t, GenreCandidates(anime), anime.title, AnimeSort.RatingKey(anime));
      GenreTallyStep(list, i, t);
      if counted.Err? {
        GenreTallyFails(list, i);
        r := counted;
        return;
      }
      t := counted.value;
      i := i + 1;
    }
    WholePrefix(list);
    r := Ok(t);
  }

  // ---------------------------------------------------------------------------------------
  // What the tallies hold

  /** Some candidate genre of `r` trims to a name in `names`. */
  ghost predicate GenreIn(r: ListingRecord, names: set<string>) {
    exists k :: 0 <= k < |GenreCandidates(r)| && Trim(GenreCandidates(r)[k]) in names
  }

  /** The genre tally fails exactly when some record has a genre such as "constructor", and
      then with the TypeError of `.titles.push`. */
  lemma GenreTallyFailsExactly(list: seq<ListingRecord>)
    ensures GenreTally(list).Err? <==> exists i :: 0 <= i < |list| && GenreIn(list[i], InheritedNames)
    ensures GenreTally(list).Err? ==> GenreTally(list).message == PushOnUndefined
  {
    var es := ConcatMap(list, GenreEntries);
    AddAllFails(Empty, es);
    NoEmptyInherited();
    EntryKeysIn(list, InheritedNames);
  }

  /** Some entry's key is in `names` exactly when some record has a genre that trims to one
      of them. */
  lemma EntryKeysIn(list: seq<ListingRecord>, names: set<string>)
    requires "" !in names
    ensures var es := ConcatMap(list, GenreEntries);
      (exists j :: 0 <= j < |es| && es[j].key in names) <==>
      (exists i :: 0 <= i < |list| && GenreIn(list[i], names))
  {
    var es := ConcatMap(list, GenreEntries);
    if exists j :: 0 <= j < |es| && es[j].key in names {
      var j :| 0 <= j < |es| && es[j].key in names;
      KeyedEntryFrom(list, es[j], names);
    }
    if exists i :: 0 <= i < |list| && GenreIn(list[i], names) {
      var i :| 0 <= i < |list| && GenreIn(list[i], names);
      var e := KeyedEntryOf(list, i, names);
      var j := IndexOfMember(es, e);
    }
  }

  lemma KeyedEntryFrom(list: seq<ListingRecord>, e: Entry, names: set<string>)
    requires e in ConcatMap(list, GenreEntries) && e.key in names
    ensures exists i :: 0 <= i < |list| && GenreIn(list[i], names)
  {
    ConcatMapFrom(list, GenreEntries, e);
    var i :| 0 <= i < |list| && e in GenreEntries(list[i]);
    var r := list[i];
    var gs := GenreCandidates(r);
    var k := EntryFromCandidate(gs, r.title, AnimeSort.RatingKey(r), e);
    assert 0 <= k < |gs| && Trim(gs[k]) in names;
    assert GenreIn(r, names);
  }

  lemma KeyedEntryOf(list: seq<ListingRecord>, i: nat, names: set<string>) returns (e: Entry)
    requires i < |list| && GenreIn(list[i], names) && "" !in names
    ensures e in ConcatMap(list, GenreEntries) && e.key in names
  {
    var r := list[i];
    var gs := GenreCandidates(r);
    var k :| 0 <= k < |gs| && Trim(gs[k]) in names;
    e := Entry(Trim(gs[k]), r.title, AnimeSort.RatingKey(r));
    CandidateGivesEntry(gs, r.title, AnimeSort.RatingKey(r), k);
    ConcatMapHas(list, GenreEntries, i, e);
  }

  /** Every entry comes from a candidate that trims to its key. */
  lemma EntryFromCandidate(gs: seq<string>, title: string, rating: real, e: Entry) returns (k: nat)
    requires e in EntriesFor(gs, title, rating)
    ensures k < |gs| && e.key == Trim(gs[k])
  {
    var f := CleanOf(title, rating);
    ConcatMapFrom(gs, f, e);
    k :| 0 <= k < |gs| && e in f(gs[k]);
  }

  /** Every candidate that trims to something gives an entry. */
  lemma CandidateGivesEntry(gs: seq<string>, title: string, rating: real, k: nat)
    requires k < |gs| && Trim(gs[k]) != []
    ensures Entry(Trim(gs[k]), title, rating) in EntriesFor(gs, title, rating)
  {
    var f := CleanOf(title, rating);
    ConcatMapHas(gs, f, k, Entry(Trim(gs[k]), title, rating));
  }

  /** A successful genre tally is well formed, counts every non-empty genre of every record
      once, and holds under each genre exactly the entries for it: their number, their
      ratings and their titles in order. */
  lemma GenreTallyContents(list: seq<ListingRecord>, k: string)
    requires GenreTally(list).Ok?
    ensures var t, es := GenreTally(list).value, ConcatMap(list, GenreEntries);
      ValidTally(t) && Total(t) == |es| &&
      StatOf(t, k) == Stat(Occurrences(es, k), RatingUnder(es, k), TitlesUnder(es, k)) &&
      (k in t.stats <==> Occurrences(es, k) > 0)
  {
    var es := ConcatMap(list, GenreEntries);
    AddAllValid(Empty, es);
    AddAllStat(Empty, es, k);
  }

  /** A title whose parentheses are empty, "Title ()", counts under no genre at all: its one
      candidate trims to nothing, and the status fallback is not tried. */
  lemma EmptyGroupCountsNothing(r: ListingRecord)
    requires ParenGroup(r.title) == Some("")
    ensures GenreEntries(r) == []
  {
    assert r.title != [];
    assert SplitOn("", ',') == [""];
    assert GenreCandidates(r) == [""];
    var f := CleanOf(r.title, AnimeSort.RatingKey(r));
    assert f("") == [];
    assert [""][..0] == [];
  }

  /** "Show ()" has an empty group. */
  lemma EmptyParens()
    ensures ParenGroup("Show ()") == Some("")
  {
    var s := "Show ()";
    assert s[1] != '(' && s[2] != '(' && s[3] != '(' && s[4] != '(' && s[5] == '(' && s[6] == ')';
    assert CloseFrom(s, 6) == Some(6);
    assert s[6..6] == "";
    assert ParenGroupFrom(s, 5) == Some("");
    assert ParenGroupFrom(s, 4) == Some("");
    assert ParenGroupFrom(s, 3) == Some("");
    assert ParenGroupFrom(s, 2) == Some("");
    assert ParenGroupFrom(s, 1) == Some("");
  }

  /** Without an opening parenthesis there is no group. */
  lemma {:induction false} NoGroupWithoutParen(s: string, from: nat)
    requires '(' !in s
    decreases |s| - from
    ensures ParenGroupFrom(s, from) == None
  {
    if from < |s| {
      assert s[from] != '(';
      NoGroupWithoutParen(s, from + 1);
    }
  }

  /** A title without parentheses falls back to its status: one entry, under "Ongoing",
      "Upcoming" or "Other". */
  lemma StatusFallback(r: ListingRecord)
    requires '(' !in r.title
    ensures GenreEntries(r) == [Entry(StatusGenre(r.status), r.title, AnimeSort.RatingKey(r))]
  {
    var g := StatusGenre(r.status);
    assert GenreCandidates(r) == [g] by {
      NoGroupWithoutParen(r.title, 0);
    }
    var f := CleanOf(r.title, AnimeSort.RatingKey(r));
    assert f(g) == [Entry(g, r.title, AnimeSort.RatingKey(r))] by {
      StatusGenreTrimmed(r.status);
    }
    SingleEntries(g, r.title, AnimeSort.RatingKey(r));
  }

  /** One candidate gives what it cleans to. */
  lemma SingleEntries(g: string, title: string, rating: real)
    ensures EntriesFor([g], title, rating) == CleanOf(title, rating)(g)
  {
    var f := CleanOf(title, rating);
    assert [g][..0] == [];
    assert ConcatMap([g], f) == ConcatMap([], f) + f(g);
  }

  lemma StatusGenreTrimmed(status: string)
    ensures Trim(StatusGenre(status)) == StatusGenre(status) != []
  {
    var g := StatusGenre(status);
    assert g[0] in {'O', 'U'} && g[|g| - 1] in {'g', 'r'};
    TrimOfTrimmed(g);
  }

  /** The studio tally fails exactly when some record's studio is an inherited name. */
  lemma StudioTallyFailsExactly(list: seq<ListingRecord>)
    ensures StudioTally(list).Err? <==> exists i :: 0 <= i < |list| && StudioKey(list[i]) in InheritedNames
    ensures StudioTally(list).Err? ==> StudioTally(list).message == PushOnUndefined
  {
    var es := StudioEntries(list);
    AddAllFails(Empty, es);
    assert forall i :: 0 <= i < |list| ==> es[i].key == StudioKey(list[i]);
  }

  /** The records under studio key `k`. */
  function HasStudioKey(k: string): ListingRecord -> bool {
    r => StudioKey(r) == k
  }

  lemma {:induction false} StudioOccurrences(list: seq<ListingRecord>, k: string)
    ensures Occurrences(StudioEntries(list), k) == CountIf(list, HasStudioKey(k))
  {
    if list != [] {
      var init := list[..|list| - 1];
      StudioOccurrences(init, k);
      var es := StudioEntries(list);
      assert StudioEntries(init) == es[..|es| - 1];
    }
  }

  /** A successful studio tally is well formed, counts every record once, and counts under
      each studio key the records that carry it. */
  lemma StudioTallyContents(list: seq<ListingRecord>, k: string)
    requires StudioTally(list).Ok?
    ensures var t := StudioTally(list).value;
      ValidTally(t) && Total(t) == |list| &&
      CountOf(t, k) == CountIf(list, HasStudioKey(k)) &&
      (k in t.stats <==> CountIf(list, HasStudioKey(k)) > 0)
  {
    var es := StudioEntries(list);
    AddAllValid(Empty, es);
    AddAllStat(Empty, es, k);
    StudioOccurrences(list, k);
  }
}
