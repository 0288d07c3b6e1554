/** The weekly schedule scraper: one record per titled anime block of each day, seven days
    always reported, and the by-day, today and upcoming views over one fetch of the page. */
module ScheduleService {
  import opened Wrappers
  import opened Text
  import opened Dom
  import opened Http
  import opened Collections
  import opened ScrapeService

  const Days: seq<string> := ["monday", "tuesday", "wednesday", "thursday", "friday", "saturday", "sunday"]
  /** The names `Date.prototype.getDay` indexes, Sunday first. */
  const WeekdayNames: seq<string> := ["sunday", "monday", "tuesday", "wednesday", "thursday", "friday", "saturday"]
  const ScheduleUrl := LivechartBaseUrl + "/schedule"
  const ScheduleFailurePrefix := "Schedule scraping failed: "
  const ByDayFailurePrefix := "Failed to get schedule by day: "
  const TodayFailurePrefix := "Failed to get today schedule: "
  const UpcomingFailurePrefix := "Failed to get upcoming schedule: "
  const InvalidDayMessage := "Invalid day. Must be one of: monday, tuesday, wednesday, thursday, friday, saturday, sunday"
  const AnimeMarker := "/anime/"

  /** One anime of a schedule day. */
  datatype ScheduleEntry = ScheduleEntry(
    id: Option<string>,
    title: string,
    time: string,
    episode: string,
    link: Option<string>,
    studio: string,
    status: string,
    poster: Option<string>)

  datatype DaySchedule = DaySchedule(day: string, count: nat, anime: seq<ScheduleEntry>)

  /** What the schedule queries answer with. */
  datatype ScheduleView =
    | Week(days: seq<DaySchedule>)
    | OneDay(name: string, schedule: DaySchedule)
    | Today(today: string, date: string, todaySchedule: DaySchedule)
    | Upcoming(week: string, totalAnime: nat, upcoming: seq<DaySchedule>)

  // ---------------------------------------------------------------------------------------
  // One anime block
  // ---------------------------------------------------------------------------------------

  /** The title fallbacks: the title target, the anchor's `title` attribute (untrimmed), the
      first emphasised text, the anchor text. */
  function ItemTitle(it: ScheduleItem): string {
    OrElse(OrElse(OrElse(Trim(it.titleTarget), it.anchorTitle.GetOr("")), Trim(it.emphasisText)), Trim(it.anchorText))
  }

  /** `link.split('/anime/')[1]?.split('/')[0]`: the text after the first "/anime/" up to the
      next '/'. The piece `split` yields ends at the next "/anime/", which itself starts with
      '/', so cutting at the first '/' after the marker gives the same text. A blank or
      missing href, or one without the marker, has no id. */
  function AnimeIdOf(href: Option<string>): Option<string> {
    var link := href.GetOr("");
    if link == [] then None
    else match IndexOf(link, AnimeMarker)
      case None => None
      case Some(i) => Some(SplitOn(link[i + |AnimeMarker|..], '/')[0])
  }

  /** `/EP\d+/` matches at `q`: upper-case "EP" and a digit. */
  predicate UpperEpAt(s: string, q: nat) {
    q + 2 < |s| && s[q] == 'E' && s[q + 1] == 'P' && IsDigit(s[q + 2])
  }

  /** The episode text: the trimmed episode text; when it holds "EP", the first "EP<digits>"
      match instead, or "N/A" without one; a blank result is "N/A". */
  function ScheduleEpisode(text: string): string {
    var e := Trim(text);
    var info :=
      if Contains(e, "EP") then
        match FirstAt(e, 0, UpperEpAt)
        case None => "N/A"
        case Some(q) => e[q..DigitRunEnd(e, q + 2)]
      else e;
    OrElse(info, "N/A")
  }

  function EntryOf(it: ScheduleItem): ScheduleEntry {
    ScheduleEntry(
      id := AnimeIdOf(it.href),
      title := ItemTitle(it),
      time := OrElse(OrElse(Trim(it.timeTarget), Trim(it.smallText)), "N/A"),
      episode := ScheduleEpisode(it.episodeText),
      link := AbsoluteLink(it.href),
      studio := OrElse(Trim(it.studioText), "N/A"),
      status := OrElse(Trim(it.statusText), "N/A"),
      poster := Given(it.imgSrc))
  }

  /** A block yields its entry when it has a title. */
  function KeepItem(it: ScheduleItem): seq<ScheduleEntry> {
    if ItemTitle(it) != [] then [EntryOf(it)] else []
  }

  /** The entries of a day: its blocks in order, the untitled ones dropped; a day whose
      container was not found has none. */
  function DayEntries(dom: ScheduleDom, name: string): seq<ScheduleEntry> {
    if name in dom.days then ConcatMap(dom.days[name], KeepItem) else []
  }

  function DayOf(dom: ScheduleDom, name: string): DaySchedule {
    var anime := DayEntries(dom, name);
    DaySchedule(name, |anime|, anime)
  }

  /** The schedule object: one day record per weekday, Monday first. */
  function WeekOf(dom: ScheduleDom): (r: seq<DaySchedule>)
    ensures |r| == |Days|
    ensures forall i :: 0 <= i < |Days| ==> r[i] == DayOf(dom, Days[i])
  {
    seq(|Days|, i requires 0 <= i < |Days| => DayOf(dom, Days[i]))
  }

  // ---------------------------------------------------------------------------------------
  // The loops
  // ---------------------------------------------------------------------------------------

  /** The block loop of one day. */
  method ParseDay(items: seq<ScheduleItem>) returns (list: seq<ScheduleEntry>)
    ensures list == ConcatMap(items, KeepItem)
  {
    list := [];
    var i := 0;
    while i < |items|
      invariant 0 <= i <= |items|
      invariant list == ConcatMap(items[..i], KeepItem)
    {
      ConcatMapStep(items, i, KeepItem);
      var title := ItemTitle(items[i]);
      if title != [] {
        list := list + [EntryOf(items[i])];
      }
      i := i + 1;
    }
    WholePrefix(items);
  }

  /** The day loop of `getSchedule`. */
  method ParseSchedule(dom: ScheduleDom) returns (week: seq<DaySchedule>)
    ensures week == WeekOf(dom)
  {
    week := [];
    var i := 0;
    while i < |Days|
      invariant 0 <= i <= |Days|
      invariant |week| == i
      invariant forall k :: 0 <= k < i ==> week[k] == DayOf(dom, Days[k])
    {
      var name := Days[i];
      var anime: seq<ScheduleEntry> := [];
      if name in dom.days {
        anime := ParseDay(dom.days[name]);
      }
      week := week + [DaySchedule(name, |anime|, anime)];
      i := i + 1;
    }
  }

  // ---------------------------------------------------------------------------------------
  // The queries
  // ---------------------------------------------------------------------------------------

  function ScheduleOutcome(respond: (nat, string) -> Result<Document>, n: nat): (r: Result<seq<DaySchedule>>)
    ensures r.Ok? ==> |r.value| == |Days|
  {
    match respond(n, ScheduleUrl)
    case Err(m) => Err(ScheduleFailurePrefix + m)
    case Ok(doc) => Ok(WeekOf(doc.schedule))
  }

  /** `getSchedule`: one request, then the day loop. */
  method GetSchedule(site: Site) returns (r: Result<seq<DaySchedule>>)
    modifies site
    ensures site.requests == old(site.requests) + [ScheduleUrl]
    ensures r == ScheduleOutcome(site.respond, |old(site.requests)|)
  {
    var page := site.Fetch(ScheduleUrl);
    match page
    case Err(m) =>
      r := Err(ScheduleFailurePrefix + m);
    case Ok(doc) =>
      var week := ParseSchedule(doc.schedule);
      r := Ok(week);
  }

  /** The record of a weekday name in a schedule. */
  function DayIn(week: seq<DaySchedule>, name: string): (d: Option<DaySchedule>)
    ensures d.Some? ==> d.value in week && d.value.day == name
  {
    if week == [] then None
    else if week[0].day == name then Some(week[0])
    else DayIn(week[1..], name)
  }

  /** The view `getScheduleByDay(day)` gives for a fetched week: the whole week without a
      day, the one day when its lower-cased name is a weekday, else the invalid-day error. */
  function ByDayView(week: seq<DaySchedule>, day: Option<string>): Result<ScheduleView> {
    if Given(day).None? then Ok(Week(week))
    else
      var lower := ToLower(day.value);
      if lower !in Days then Err(ByDayFailurePrefix + InvalidDayMessage)
      else match DayIn(week, lower)
        case Some(d) => Ok(OneDay(lower, d))
        case None => Err(ByDayFailurePrefix + InvalidDayMessage)
  }

  /** The weekday names are distinct. */
  lemma DaysDistinct()
    ensures forall i, j :: 0 <= i < j < |Days| ==> Days[i] != Days[j]
  {
    forall i, j | 0 <= i < j < |Days| ensures Days[i] != Days[j] {
      assert Days[i][0] != Days[j][0] || Days[i][1] != Days[j][1];
    }
  }

  /** The lookup finds the first record with the name. */
  lemma {:induction false} DayInFirst(week: seq<DaySchedule>, j: nat)
    requires j < |week|
    requires forall k :: 0 <= k < j ==> week[k].day != week[j].day
    ensures DayIn(week, week[j].day) == Some(week[j])
  {
    if j > 0 {
      assert week[1..][j - 1] == week[j];
      DayInFirst(week[1..], j - 1);
    }
  }

  /** In a week laid out in `Days` order, each weekday is found at its position. */
  lemma DayFound(week: seq<DaySchedule>, j: nat)
    requires |week| == |Days| && forall i :: 0 <= i < |Days| ==> week[i].day == Days[i]
    requires j < |Days|
    ensures DayIn(week, Days[j]) == Some(week[j])
  {
    DaysDistinct();
    DayInFirst(week, j);
  }

  /** `getScheduleByDay`: the page is fetched before the day is looked at, so an invalid
      day still costs a request. */
  method GetScheduleByDay(site: Site, day: Option<string>) returns (r: Result<ScheduleView>)
    modifies site
    ensures site.requests == old(site.requests) + [ScheduleUrl]
    ensures match ScheduleOutcome(site.respond, |old(site.requests)|)
      case Err(m) => r == Err(ByDayFailurePrefix + m)
      case Ok(week) => r == ByDayView(week, day)
  {
    var week := GetSchedule(site);
    match week
    case Err(m) =>
      r := Err(ByDayFailurePrefix + m);
    case Ok(w) =>
      r := ByDayView(w, day);
  }

  /** The position in `Days` of the weekday `getDay()` numbers `dayIndex`. */
  function TodayIndex(dayIndex: nat): (j: nat)
    requires dayIndex < 7
    ensures j < |Days| && Days[j] == WeekdayNames[dayIndex]
  {
    (dayIndex + 6) % 7
  }

  /** `getTodaySchedule`: `dayIndex` is `getDay()` of the clock and `isoNow` its
      `toISOString()`; the date is the part before the 'T'. */
  method GetTodaySchedule(site: Site, dayIndex: nat, isoNow: string) returns (r: Result<ScheduleView>)
    requires dayIndex < 7
    modifies site
    ensures site.requests == old(site.requests) + [ScheduleUrl]
    ensures match ScheduleOutcome(site.respond, |old(site.requests)|)
      case Err(m) => r == Err(TodayFailurePrefix + m)
      case Ok(week) => r == Ok(Today(WeekdayNames[dayIndex], SplitOn(isoNow, 'T')[0], week[TodayIndex(dayIndex)]))
  {
    var todayName := WeekdayNames[dayIndex];
    var week := GetSchedule(site);
    match week
    case Err(m) =>
      r := Err(TodayFailurePrefix + m);
    case Ok(w) =>
      r := Ok(Today(todayName, SplitOn(isoNow, 'T')[0], w[TodayIndex(dayIndex)]));
  }

  /** Today's record is the one the schedule holds under today's name. */
  lemma TodayIsNamedDay(dom: ScheduleDom, dayIndex: nat)
    requires dayIndex < 7
    ensures WeekOf(dom)[TodayIndex(dayIndex)] == DayOf(dom, WeekdayNames[dayIndex])
    ensures DayIn(WeekOf(dom), WeekdayNames[dayIndex]) == Some(WeekOf(dom)[TodayIndex(dayIndex)])
  {
    DayFound(WeekOf(dom), TodayIndex(dayIndex));
  }

  /** The sum of the day counts. */
  function TotalCount(week: seq<DaySchedule>): nat {
    if week == [] then 0 else TotalCount(week[..|week| - 1]) + week[|week| - 1].count
  }

  /** `getUpcomingSchedule`: the week with the sum of its counts. */
  method GetUpcomingSchedule(site: Site) returns (r: Result<ScheduleView>)
    modifies site
    ensures site.requests == old(site.requests) + [ScheduleUrl]
    ensures match ScheduleOutcome(site.respond, |old(site.requests)|)
      case Err(m) => r == Err(UpcomingFailurePrefix + m)
      case Ok(week) => r == Ok(Upcoming("upcoming", TotalCount(week), week))
  {
    var week := GetSchedule(site);
    match week
    case Err(m) =>
      r := Err(UpcomingFailurePrefix + m);
    case Ok(w) =>
      r := Ok(Upcoming("upcoming", TotalCount(w), w));
  }

  // ---------------------------------------------------------------------------------------
  // Properties
  // ---------------------------------------------------------------------------------------

  /** A kept block's entry is titled with the block's title. */
  lemma KeptTitled(it: ScheduleItem, e: ScheduleEntry)
    requires e in KeepItem(it)
    ensures e.title == ItemTitle(it) != [] && e == EntryOf(it)
  {
    assert ItemTitle(it) != [] && e == EntryOf(it);
  }

  /** Every entry of a day has a title. */
  lemma DayEntriesTitled(dom: ScheduleDom, name: string)
    ensures forall e :: e in DayEntries(dom, name) ==> e.title != []
  {
    if name in dom.days {
      forall e | e in DayEntries(dom, name) ensures e.title != [] {
        ConcatMapFrom(dom.days[name], KeepItem, e);
        var k :| 0 <= k < |dom.days[name]| && e in KeepItem(dom.days[name][k]);
        KeptTitled(dom.days[name][k], e);
      }
    }
  }

  /** All seven days are reported in order, each with a count equal to its number of
      entries, a day without a container as empty, and every entry titled. */
  lemma WeekShape(dom: ScheduleDom, i: nat)
    requires i < |Days|
    ensures WeekOf(dom)[i].day == Days[i]
    ensures WeekOf(dom)[i].count == |WeekOf(dom)[i].anime|
    ensures Days[i] !in dom.days ==> WeekOf(dom)[i].count == 0
    ensures forall e :: e in WeekOf(dom)[i].anime ==> e.title != []
  {
    DayEntriesTitled(dom, Days[i]);
  }

  /** An entry is listed for a day exactly when it comes from one of the day's blocks that
      has a title. */
  lemma DayEntryMembers(dom: ScheduleDom, name: string, e: ScheduleEntry)
    requires name in dom.days
    ensures e in DayEntries(dom, name) <==>
      exists k :: 0 <= k < |dom.days[name]| && ItemTitle(dom.days[name][k]) != [] && e == EntryOf(dom.days[name][k])
  {
    var items := dom.days[name];
    assert DayEntries(dom, name) == ConcatMap(items, KeepItem);
    if e in ConcatMap(items, KeepItem) {
      ConcatMapFrom(items, KeepItem, e);
      var k :| 0 <= k < |items| && e in KeepItem(items[k]);
      KeptTitled(items[k], e);
    }
    if exists k :: 0 <= k < |items| && ItemTitle(items[k]) != [] && e == EntryOf(items[k]) {
      var k :| 0 <= k < |items| && ItemTitle(items[k]) != [] && e == EntryOf(items[k]);
      assert e in KeepItem(items[k]);
      ConcatMapHas(items, KeepItem, k, e);
    }
  }

  /** The entries of a day are at most its blocks. */
  lemma DayCountBound(dom: ScheduleDom, name: string)
    requires name in dom.days
    ensures DayOf(dom, name).count <= |dom.days[name]|
  {
    ConcatMapShort(dom.days[name], KeepItem);
  }

  /** The week's total is the number of entries listed over all days. */
  lemma {:induction false} TotalCountIsEntries(week: seq<DaySchedule>)
    requires forall i :: 0 <= i < |week| ==> week[i].count == |week[i].anime|
    ensures TotalCount(week) == |ConcatMap(week, (d: DaySchedule) => d.anime)|
  {
    if week != [] {
      TotalCountIsEntries(week[..|week| - 1]);
    }
  }

  /** A day name in any letter case selects that day; anything else that is not blank is
      rejected with the list of the valid names. */
  lemma ByDayCases(week: seq<DaySchedule>, day: string)
    requires |week| == |Days| && forall i :: 0 <= i < |Days| ==> week[i].day == Days[i]
    requires day != []
    ensures forall j :: 0 <= j < |Days| && Days[j] == ToLower(day) ==>
      ByDayView(week, Some(day)) == Ok(OneDay(ToLower(day), week[j]))
    ensures ToLower(day) !in Days ==> ByDayView(week, Some(day)) == Err(ByDayFailurePrefix + InvalidDayMessage)
  {
    forall j | 0 <= j < |Days| && Days[j] == ToLower(day)
      ensures ByDayView(week, Some(day)) == Ok(OneDay(ToLower(day), week[j]))
    {
      DayFound(week, j);
    }
  }

  /** The id is the path segment after "/anime/". */
  lemma AnimeIdOfPath(id: string, tail: string)
    requires '/' !in id
    requires tail == [] || tail[0] == '/'
    ensures AnimeIdOf(Some(AnimeMarker + id + tail)) == Some(id)
  {
    var link := AnimeMarker + id + tail;
    assert link[..|AnimeMarker|] == AnimeMarker;
    assert OccursAt(link, AnimeMarker, 0);
    assert link[|AnimeMarker|..] == id + tail;
    SplitOnFirst(id, tail, '/');
  }

  /** The first piece of a split is the text before the first separator. */
  lemma {:induction false} SplitOnFirst(a: string, tail: string, c: char)
    requires c !in a
    requires tail == [] || tail[0] == c
    ensures SplitOn(a + tail, c)[0] == a
  {
    if a == [] {
      if tail != [] {
        assert (a + tail)[0] == c;
      }
    } else {
      assert (a + tail)[1..] == a[1..] + tail;
      SplitOnFirst(a[1..], tail, c);
      assert a == [a[0]] + a[1..];
    }
  }

  /** An "EP" match is "EP" and its run of digits. */
  lemma EpMatchShape(e: string, q: nat)
    requires UpperEpAt(e, q)
    ensures var r := e[q..DigitRunEnd(e, q + 2)]; |r| > 2 && r[..2] == "EP" && AllDigits(r[2..])
  {
    var end := DigitRunEnd(e, q + 2);
    var r := e[q..end];
    assert r[..2] == "EP";
    assert forall k :: 0 <= k < |r[2..]| ==> r[2..][k] == e[q + 2 + k];
  }

  /** The episode text is never blank; when the text holds "EP" it is either "N/A" or an
      "EP" followed by digits only. */
  lemma EpisodeShape(text: string)
    ensures ScheduleEpisode(text) != []
    ensures Contains(Trim(text), "EP") ==>
      var r := ScheduleEpisode(text);
      r == "N/A" || (|r| > 2 && r[..2] == "EP" && AllDigits(r[2..]))
  {
    var e := Trim(text);
    var r := ScheduleEpisode(text);
    if Contains(e, "EP") {
      match FirstAt(e, 0, UpperEpAt)
      case None =>
        assert r == "N/A";
      case Some(q) =>
        var m := e[q..DigitRunEnd(e, q + 2)];
        assert |m| > 2 && m[..2] == "EP" && AllDigits(m[2..]) by {
          EpMatchShape(e, q);
        }
        assert r == m;
    } else {
      assert r == OrElse(e, "N/A");
    }
  }
}
