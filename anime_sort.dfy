/** The orderings behind the `/sort` endpoints: a copy of the listing is sorted by rating,
    title, episodes or air status, ascending or descending, with the stable sort of
    `Array.prototype.sort`. */
module AnimeSort {
  import opened Wrappers
  import opened Text
  import opened Records
  import opened StableSort
  import opened DataFormatter
  import opened Collections
  import Tally

  datatype Field = Rating | Title | Episodes | AirStatus

  /** The comparator chosen for one request. */
  datatype Sorter = Sorter(field: Field, ascending: bool)

  /** The switch on the lower-cased `sortBy`. The named fields sort ascending only when `order`
      is exactly "asc"; the fallback (rating) sorts descending only when it is exactly "desc". */
  function ChooseSorter(sortBy: string, order: string): (s: Sorter)
    ensures ToLower(sortBy) == "rating" ==> s == Sorter(Rating, order == "asc")
    ensures ToLower(sortBy) == "title" ==> s == Sorter(Title, order == "asc")
    ensures ToLower(sortBy) == "episodes" ==> s == Sorter(Episodes, order == "asc")
    ensures ToLower(sortBy) in {"airdates", "airdate"} ==> s == Sorter(AirStatus, order == "asc")
    ensures ToLower(sortBy) !in {"rating", "title", "episodes", "airdates", "airdate"} ==>
      s == Sorter(Rating, order != "desc")
  {
    var key := ToLower(sortBy);
    if key == "rating" then Sorter(Rating, order == "asc")
    else if key == "title" then Sorter(Title, order == "asc")
    else if key == "episodes" then Sorter(Episodes, order == "asc")
    else if key == "airdates" || key == "airdate" then Sorter(AirStatus, order == "asc")
    else Sorter(Rating, order != "desc")
  }

  /** `parseFloat(score) || 0`: NaN becomes 0. */
  function RatingKey(r: ListingRecord): real {
    ParseFloatJs(r.score).GetOr(0.0)
  }

  /** `parseInt(episodes) || 0`. */
  function EpisodesKey(r: ListingRecord): int {
    ParseIntJs(r.episodes).GetOr(0)
  }

  /** `(title || '').toLowerCase()`. */
  function TitleKey(r: ListingRecord): string {
    ToLower(r.title)
  }

  /** What a property read on the `statusOrder` object literal yields: one of its own numbers,
      a member inherited from `Object.prototype` (a function, or the prototype itself for
      `__proto__`), or `undefined`. */
  datatype Member = Own(n: int) | Inherited | Missing

  /** The `statusOrder` table: Ongoing 0, Upcoming 1, Finished 2, Unknown 3. */
  function StatusOrder(status: string): Member {
    if status == "Ongoing" then Own(0)
    else if status == "Upcoming" then Own(1)
    else if status == "Finished" then Own(2)
    else if status == "Unknown" then Own(3)
    else if status in Tally.InheritedNames then Inherited
    else Missing
  }

  /** `statusOrder[status] || 3`, with `None` standing for a value whose difference with any
      rank is NaN. A missing status ranks 3, and so does Ongoing, whose rank 0 is falsy; an
      inherited member is truthy, is kept, and subtracts to NaN. */
  function StatusRank(status: string): (k: Option<int>)
    ensures k.None? <==> status in Tally.InheritedNames
    ensures k.Some? ==> k.value == if status == "Upcoming" then 1 else if status == "Finished" then 2 else 3
  {
    match StatusOrder(status)
    case Own(k) => Some(if k != 0 then k else 3)
    case Inherited => None
    case Missing => Some(3)
  }

  /** No record's status names a member inherited from `Object.prototype`. */
  predicate RanksDefined(list: seq<ListingRecord>) {
    forall i :: 0 <= i < |list| ==> list[i].status !in Tally.InheritedNames
  }

  /** Code-point lexicographic order on strings. */
  function StrLess(a: string, b: string): bool {
    if b == [] then false
    else if a == [] then true
    else if a[0] != b[0] then a[0] < b[0]
    else StrLess(a[1..], b[1..])
  }

  lemma {:induction false} StrLessAsym(a: string, b: string)
    ensures StrLess(a, b) ==> !StrLess(b, a)
  {
    if a != [] && b != [] && a[0] == b[0] {
      StrLessAsym(a[1..], b[1..]);
    }
  }

  lemma {:induction false} StrLessTrans(a: string, b: string, c: string)
    requires StrLess(a, b) && StrLess(b, c)
    ensures StrLess(a, c)
  {
    if a != [] && a[0] == b[0] && b[0] == c[0] {
      StrLessTrans(a[1..], b[1..], c[1..]);
    }
  }

  lemma {:induction false} StrLessTotal(a: string, b: string)
    ensures a == b || StrLess(a, b) || StrLess(b, a)
  {
    if a != [] && b != [] && a[0] == b[0] {
      StrLessTotal(a[1..], b[1..]);
      if a[1..] == b[1..] {
        assert a == [a[0]] + a[1..] && b == [b[0]] + b[1..];
      }
    }
  }

  /** Negative transitivity: not-less chains compose. */
  lemma StrNotLessTrans(a: string, b: string, c: string)
    requires !StrLess(a, b) && !StrLess(b, c)
    ensures !StrLess(a, c)
  {
    StrLessTotal(a, b);
    StrLessTotal(b, c);
    if a != b && b != c {
      StrLessTrans(c, b, a);
      StrLessAsym(c, a);
    }
  }

  /** Whether `x` goes strictly before `y` under the comparator of `s`: the comparator's value
      for (x, y) is negative. A NaN value counts as 0, a tie, as the sort's `SortCompare` does. */
  function Precedes(s: Sorter, x: ListingRecord, y: ListingRecord): bool {
    match s.field
    case Rating => if s.ascending then RatingKey(x) < RatingKey(y) else RatingKey(y) < RatingKey(x)
    case Title => if s.ascending then StrLess(TitleKey(x), TitleKey(y)) else StrLess(TitleKey(y), TitleKey(x))
    case Episodes => if s.ascending then EpisodesKey(x) < EpisodesKey(y) else EpisodesKey(y) < EpisodesKey(x)
    case AirStatus =>
      match (StatusRank(x.status), StatusRank(y.status))
      case (Some(kx), Some(ky)) => if s.ascending then kx < ky else ky < kx
      case _ => false
  }

  function Before(s: Sorter): (ListingRecord, ListingRecord) -> bool {
    (x, y) => Precedes(s, x, y)
  }

  /** The rating, title and episodes comparators are strict weak orders on all records, and
      the air-status comparator is one on records whose statuses have a numeric rank. So on
      such lists the sort's result is well defined. */
  lemma BeforeIsStrictWeakOrder(s: Sorter, list: seq<ListingRecord>)
    ensures s.field != AirStatus ==> StrictWeakOrder(Before(s))
    ensures s.field != AirStatus || RanksDefined(list) ==> StrictWeakOrderOn(list, Before(s))
  {
    var f := Before(s);
    if s.field != AirStatus {
      forall a, b | f(a, b) ensures !f(b, a) {
        if s.field == Title {
          StrLessAsym(TitleKey(a), TitleKey(b));
          StrLessAsym(TitleKey(b), TitleKey(a));
        }
      }
      forall a, b, c | !f(a, b) && !f(b, c) ensures !f(a, c) {
        if s.field == Title {
          if s.ascending {
            StrNotLessTrans(TitleKey(a), TitleKey(b), TitleKey(c));
          } else {
            StrNotLessTrans(TitleKey(c), TitleKey(b), TitleKey(a));
          }
        }
      }
    } else if RanksDefined(list) {
      forall a | a in list ensures a.status !in Tally.InheritedNames {
        var i :| 0 <= i < |list| && list[i] == a;
      }
    }
  }

  /** A status that names an inherited member ties with every record under the air-status
      comparator, so that comparator is no strict weak order: "Upcoming" precedes "Finished",
      yet neither is ordered against "constructor". */
  lemma InheritedStatusBreaksOrder(up: ListingRecord, odd: ListingRecord, done: ListingRecord)
    requires up.status == "Upcoming" && odd.status == "constructor" && done.status == "Finished"
    ensures !Before(Sorter(AirStatus, true))(up, odd) && !Before(Sorter(AirStatus, true))(odd, done)
    ensures Before(Sorter(AirStatus, true))(up, done)
    ensures !StrictWeakOrder(Before(Sorter(AirStatus, true)))
  {
  }

  /** Two records with statuses "constructor" and "Upcoming" stay in input order under an
      ascending air-status sort. */
  lemma InheritedStatusTies(odd: ListingRecord, up: ListingRecord)
    requires odd.status == "constructor" && up.status == "Upcoming"
    ensures Sort([odd, up], Before(Sorter(AirStatus, true))) == [odd, up]
  {
    assert [odd, up][..1] == [odd];
    assert [odd][..0] == [];
  }

  /** `_sortAnimeData`: a sorted copy; the input list is not changed. */
  method SortAnimeData(list: seq<ListingRecord>, sortBy: string, order: string)
    returns (sorted: seq<ListingRecord>)
    ensures sorted == Sort(list, Before(ChooseSorter(sortBy, order)))
  {
    var a := new ListingRecord[|list|](i requires 0 <= i < |list| => list[i]);
    assert a[..] == list;
    SortInPlace(a, Before(ChooseSorter(sortBy, order)));
    sorted := a[..];
  }

  /** The sorted list holds exactly the input records, ordered by the chosen comparator
      whenever that comparator is a strict weak order on them. */
  lemma SortedAnimeCorrect(list: seq<ListingRecord>, s: Sorter)
    ensures multiset(Sort(list, Before(s))) == multiset(list)
    ensures s.field != AirStatus || RanksDefined(list) ==> Sorted(Sort(list, Before(s)), Before(s))
  {
    SortPermutes(list, Before(s));
    BeforeIsStrictWeakOrder(s, list);
    if s.field != AirStatus || RanksDefined(list) {
      SortSorted(list, Before(s));
    }
  }

  /** The sort is stable: for any record `x`, the records tied with `x` keep their input
      order, on every list where the comparator is a strict weak order. */
  lemma SortAnimeStable(list: seq<ListingRecord>, s: Sorter, x: ListingRecord)
    requires s.field != AirStatus || RanksDefined(list + [x])
    ensures Filter(Sort(list, Before(s)), Tied(Before(s), x)) == Filter(list, Tied(Before(s), x))
  {
    BeforeIsStrictWeakOrder(s, list + [x]);
    SortStable(list, x, Before(s));
  }

  /** An ascending air-status sort lists Upcoming, then Finished, then everything else;
      Ongoing therefore comes last, tied with Unknown. */
  lemma AirStatusAscending(list: seq<ListingRecord>, i: nat, j: nat)
    requires RanksDefined(list)
    requires i < j < |list|
    ensures var r := Sort(list, Before(Sorter(AirStatus, true)));
      StatusRank(r[i].status).Some? && StatusRank(r[j].status).Some? &&
      StatusRank(r[i].status).value <= StatusRank(r[j].status).value
  {
    var f := Before(Sorter(AirStatus, true));
    var r := Sort(list, f);
    SortedAnimeCorrect(list, Sorter(AirStatus, true));
    assert !f(r[j], r[i]);
    assert r[i] in r && r[j] in r;
    SortFrom(list, f, r[i]);
    SortFrom(list, f, r[j]);
    RankNotPreceded(r[i], r[j]);
  }

  lemma RankNotPreceded(x: ListingRecord, y: ListingRecord)
    requires x.status !in Tally.InheritedNames && y.status !in Tally.InheritedNames
    requires !Before(Sorter(AirStatus, true))(y, x)
    ensures StatusRank(x.status).value <= StatusRank(y.status).value
  {
  }

  /** Ongoing and Unknown tie, ranked after Finished. */
  lemma OngoingRanksWithUnknown()
    ensures StatusRank("Ongoing") == StatusRank("Unknown") == Some(3)
    ensures StatusRank("Upcoming").value < StatusRank("Finished").value < StatusRank("Ongoing").value
  {
  }

  /** The default request (`sortBy=rating`, `order=desc`) picks rating, descending. */
  lemma DefaultSorter()
    ensures ChooseSorter("rating", "desc") == Sorter(Rating, false)
  {
    assert ToLower("rating") == "rating";
  }

  /** A rating-descending sort lists higher scores first. */
  lemma RatingDescending(list: seq<ListingRecord>, i: nat, j: nat)
    requires i < j < |list|
    ensures var r := Sort(list, Before(Sorter(Rating, false)));
      RatingKey(r[i]) >= RatingKey(r[j])
  {
    var s := Sorter(Rating, false);
    var r := Sort(list, Before(s));
    SortedAnimeCorrect(list, s);
    assert !Before(s)(r[j], r[i]);
  }

  /** So an ascending air-status sort moves a Finished record ahead of an Ongoing one. */
  lemma OngoingAfterFinished(ongoing: ListingRecord, finished: ListingRecord)
    requires ongoing.status == "Ongoing" && finished.status == "Finished"
    ensures Sort([ongoing, finished], Before(Sorter(AirStatus, true))) == [finished, ongoing]
  {
    var f := Before(Sorter(AirStatus, true));
    assert [ongoing, finished][..1] == [ongoing];
    assert [ongoing][..0] == [];
    assert Insert([], finished, f) == [finished];
  }

  /** `'N/A'` is no number, so its rating key is 0. */
  lemma RatingOfNotAvailable(r: ListingRecord)
    requires r.score == "N/A"
    ensures RatingKey(r) == 0.0
  {
    assert !IsWhitespace('N');
    assert TrimStart(r.score) == r.score;
    assert SignedBody(r.score) == (r.score, false);
  }

  /** `parseInt` of a text that starts with a letter is NaN. */
  lemma ParseIntOfLetter(s: string)
    requires |s| > 0 && IsAsciiLetter(s[0])
    ensures ParseIntJs(s) == None
  {
    assert !IsWhitespace(s[0]);
    assert TrimStart(s) == s;
    assert SignedBody(s) == (s, false);
  }

  /** The episodes text the scrapers store, "N/A" or "EP<n>", is not a number to `parseInt`,
      so every key is 0. */
  lemma EpisodesKeyOfCleaned(r: ListingRecord)
    requires r.episodes == "N/A" || StartsWith(r.episodes, "EP")
    ensures EpisodesKey(r) == 0
  {
    var e := r.episodes;
    assert e[0] == 'N' || e[0] == 'E' by {
      if e != "N/A" { assert e[..2][0] == 'E'; }
    }
    ParseIntOfLetter(e);
  }

  lemma EpisodesTie(x: ListingRecord, y: ListingRecord, ascending: bool)
    requires EpisodesKey(x) == EpisodesKey(y)
    ensures !Before(Sorter(Episodes, ascending))(x, y)
  {
  }

  /** Hence sorting a scraped listing by episodes returns it unchanged, in either order. */
  lemma EpisodesSortIsIdentity(list: seq<ListingRecord>, ascending: bool)
    requires forall i :: 0 <= i < |list| ==> list[i].episodes == "N/A" || StartsWith(list[i].episodes, "EP")
    ensures Sort(list, Before(Sorter(Episodes, ascending))) == list
  {
    var f := Before(Sorter(Episodes, ascending));
    forall i | 0 <= i < |list| ensures EpisodesKey(list[i]) == 0 {
      EpisodesKeyOfCleaned(list[i]);
    }
    forall i, j | 0 <= i < |list| && 0 <= j < |list| ensures !f(list[i], list[j]) {
      EpisodesTie(list[i], list[j], ascending);
    }
    SortKeepsTies(list, f);
  }

  /** The records a scraper stores pass the condition above. */
  lemma CleanedEpisodesShape(s: string)
    ensures CleanEpisodeInfo(s) == "N/A" || StartsWith(CleanEpisodeInfo(s), "EP")
  {
  }
}
