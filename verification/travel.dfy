/** The itinerary builder of the travel page (main.py): the sorted list of
    MBTI types, the choice of destinations, the day-by-day plan and its
    markdown rendering. `random.sample` is modelled by the positions it
    draws, which the caller supplies; `strftime` is a caller-supplied
    function from day numbers to date texts. */
module Travel {
  import opened Text
  import opened Ranking
  import opened TravelData

  // ---------- get_all_mbti ----------

  /** `sorted(DATA.keys())`. */
  function GetAllMbti(): (r: seq<string>)
    ensures |r| == 16 && StrictlyAscending(r)
    ensures forall k :: k in r <==> k in Data
  {
    DataKeys();
    var r := SortStrings(MbtiOrder);
    assert |multiset(r)| == |multiset(MbtiOrder)|;
    assert forall k :: k in r <==> k in multiset(MbtiOrder);
    r
  }

  // ---------- random.sample ----------

  /** `draw` says which element each pick of a sample takes: pick `i`
      chooses, by its position, among the `n - i` elements not yet taken. */
  predicate IsDraw(draw: seq<nat>, n: nat) {
    |draw| <= n && forall i :: 0 <= i < |draw| ==> draw[i] < n - i
  }

  /** `random.sample(pool, len(draw))`, with the picks given by `draw`: the
      result takes each element of `pool` at most once. */
  function Sample<T(==)>(pool: seq<T>, draw: seq<nat>): (r: seq<T>)
    requires IsDraw(draw, |pool|)
    ensures |r| == |draw| && multiset(r) <= multiset(pool)
    ensures Distinct(pool) ==> Distinct(r)
  {
    if draw == [] then []
    else
      var k := draw[0];
      var rest := pool[..k] + pool[k + 1..];
      assert pool == pool[..k] + [pool[k]] + pool[k + 1..];
      assert IsDraw(draw[1..], |rest|);
      var picks := Sample(rest, draw[1..]);
      SampleHead(pool, k, picks);
      [pool[k]] + picks
  }

  /** Taking `pool[k]` first and the rest from the other elements takes
      nothing twice. */
  lemma SampleHead<T>(pool: seq<T>, k: nat, picks: seq<T>)
    requires k < |pool| && multiset(picks) <= multiset(pool[..k] + pool[k + 1..])
    ensures multiset([pool[k]] + picks) <= multiset(pool)
    ensures Distinct(pool) ==> Distinct([pool[k]] + picks)
  {
    var rest := pool[..k] + pool[k + 1..];
    assert pool == pool[..k] + [pool[k]] + pool[k + 1..];
    assert multiset(pool) == multiset(rest) + multiset{pool[k]};
    if Distinct(pool) {
      assert pool[k] !in rest;
      assert Distinct(rest);
      DistinctPicks(rest, picks);
      forall j | 0 <= j < |picks| ensures picks[j] != pool[k] {
        assert picks[j] in multiset(rest);
      }
    }
  }

  /** Picks that take nothing twice from distinct elements are distinct. */
  lemma DistinctPicks<T>(pool: seq<T>, picks: seq<T>)
    requires Distinct(pool) && multiset(picks) <= multiset(pool)
    ensures Distinct(picks)
  {
    forall i, j | 0 <= i < j < |picks| ensures picks[i] != picks[j] {
      if picks[i] == picks[j] {
        assert multiset(picks)[picks[i]] >= 2 by {
          assert picks == picks[..j] + [picks[j]] + picks[j + 1..];
          assert picks[..j] == picks[..i] + [picks[i]] + picks[i + 1..j];
        }
        MultisetOfDistinct(pool, picks[i]);
        assert false;
      }
    }
  }

  /** An element occurs at most once in a sequence of distinct elements. */
  lemma {:induction false} MultisetOfDistinct<T>(s: seq<T>, x: T)
    requires Distinct(s)
    ensures multiset(s)[x] <= 1
  {
    if s != [] {
      MultisetOfDistinct(s[1..], x);
      assert s == [s[0]] + s[1..];
      if s[0] == x {
        assert x !in s[1..];
      }
    }
  }

  // ---------- sample_destinations ----------

  /** `sample_destinations(mbti, count)`: the whole destination list when
      `count` covers it, otherwise `count` of its destinations, none taken
      twice. */
  function SampleDestinations(data: map<string, Profile>, mbti: string, count: int, draw: seq<nat>)
    : (r: seq<Destination>)
    requires mbti in data
    requires count < |data[mbti].destinations| ==> |draw| == count && IsDraw(draw, |data[mbti].destinations|)
    ensures var lst := data[mbti].destinations;
      && (count >= |lst| ==> r == lst)
      && (count < |lst| ==> |r| == count && multiset(r) <= multiset(lst))
      && (count < |lst| && Distinct(lst) ==> Distinct(r))
  {
    var lst := data[mbti].destinations;
    if count >= |lst| then lst else Sample(lst, draw)
  }

  /** On the page's own table: every type has three distinct destinations,
      so the result is `min(count, 3)` distinct destinations of the type. */
  lemma PageDestinations(mbti: string, count: int, draw: seq<nat>)
    requires mbti in Data
    requires count < |Data[mbti].destinations| ==> |draw| == count && IsDraw(draw, |Data[mbti].destinations|)
    ensures var r := SampleDestinations(Data, mbti, count, draw);
      && |r| == (if count >= 3 then 3 else count)
      && Distinct(r)
      && forall j :: 0 <= j < |r| ==> r[j] in Data[mbti].destinations
  {
    DataSizes();
    DataDistinct();
    var r := SampleDestinations(Data, mbti, count, draw);
    PicksAreMembers(Data[mbti].destinations, r);
  }

  // ---------- generate_itinerary ----------

  /** One row of the itinerary table, with the columns 일자, MBTI 스타일,
      도시, 국가, 아침, 오후, 저녁 and 식사. */
  datatype Row = Row(date: string, style: string, city: string, country: string,
                     morning: string, afternoon: string, evening: string, meals: string)

  const MorningTag: string := "[아침] "
  const AfternoonTag: string := "[오후] "
  const EveningTag: string := "[저녁] "
  const FreeTime: string := "자유 일정"
  const NightWalk: string := "야경 산책"
  const Meals: string := "현지 음식 맛보기(로컬 식당/마켓)"

  function Min3(n: nat): nat {
    if n < 3 then n else 3
  }

  /** A draw of the day's activities: three distinct picks, or all of them
      when there are fewer than three. */
  predicate DayDraw(acts: seq<string>, draw: seq<nat>) {
    |draw| == Min3(|acts|) && IsDraw(draw, |acts|)
  }

  /** `s` is `tag` followed by the activity text `Activity(s, tag)`. */
  predicate HasTag(s: string, tag: string) {
    |tag| <= |s| && s[..|tag|] == tag
  }

  function Activity(s: string, tag: string): string
    requires |tag| <= |s|
  {
    s[|tag|..]
  }

  /** Row `i` of the plan: its date text, the round-robin destination
      `selected[i % len(selected)]` and the day's drawn activities behind
      their tags. */
  function DayRow(p: Profile, selected: seq<Destination>, i: nat, date: string, draw: seq<nat>): (r: Row)
    requires |selected| > 0 && |p.activities| > 0 && DayDraw(p.activities, draw)
  {
    var dest := selected[i % |selected|];
    var acts := Sample(p.activities, draw);
    Row(date, p.style, dest.city, dest.country,
        MorningTag + acts[0],
        AfternoonTag + (if |acts| > 1 then acts[1] else FreeTime),
        EveningTag + (if |acts| > 2 then acts[2] else NightWalk),
        Meals)
  }

  /** Every day's slots hold what `DayActivities` describes. */
  lemma DayRowActivities(p: Profile, selected: seq<Destination>, i: nat, date: string, draw: seq<nat>)
    requires |selected| > 0 && |p.activities| > 0 && DayDraw(p.activities, draw)
    ensures var r := DayRow(p, selected, i, date, draw);
      && HasTag(r.morning, MorningTag) && HasTag(r.afternoon, AfternoonTag) && HasTag(r.evening, EveningTag)
      && DayActivities(r, p.activities)
  {
    var acts := Sample(p.activities, draw);
    var r := DayRow(p, selected, i, date, draw);
    assert Activity(r.morning, MorningTag) == acts[0];
    assert Activity(r.afternoon, AfternoonTag) == if |acts| > 1 then acts[1] else FreeTime;
    assert Activity(r.evening, EveningTag) == if |acts| > 2 then acts[2] else NightWalk;
    PicksAreMembers(p.activities, acts);
  }

  lemma PicksAreMembers<T>(acts: seq<T>, picks: seq<T>)
    requires multiset(picks) <= multiset(acts)
    ensures forall j :: 0 <= j < |picks| ==> picks[j] in acts
  {
    forall j | 0 <= j < |picks| ensures picks[j] in acts {
      assert picks[j] in multiset(picks);
    }
  }

  /** The three slots of a day: the morning holds one of `acts`; the
      afternoon holds another when there are two or more, else "자유 일정";
      the evening a third when there are three or more, else "야경 산책".
      With distinct activities the filled slots hold distinct ones. */
  predicate DayActivities(r: Row, acts: seq<string>)
    requires HasTag(r.morning, MorningTag) && HasTag(r.afternoon, AfternoonTag) && HasTag(r.evening, EveningTag)
  {
    var m, a, e := Activity(r.morning, MorningTag), Activity(r.afternoon, AfternoonTag), Activity(r.evening, EveningTag);
    && m in acts
    && (if |acts| >= 2 then a in acts && (Distinct(acts) ==> a != m) else a == FreeTime)
    && (if |acts| >= 3 then e in acts && (Distinct(acts) ==> e != m && e != a) else e == NightWalk)
  }

  /** What a plan of `n` days needs: a destination, an activity and a
      valid draw for each day. */
  predicate PlanInputs(p: Profile, selected: seq<Destination>, draws: seq<seq<nat>>, n: nat) {
    && (n > 0 ==> |selected| > 0 && |p.activities| > 0)
    && n <= |draws| && forall i :: 0 <= i < n ==> DayDraw(p.activities, draws[i])
  }

  /** The first `n` rows of the plan. */
  function Itinerary(p: Profile, selected: seq<Destination>, baseDate: int, draws: seq<seq<nat>>,
                     formatDate: int -> string, n: nat): (rows: seq<Row>)
    requires PlanInputs(p, selected, draws, n)
    ensures |rows| == n
  {
    seq(n, i requires 0 <= i < n => DayRow(p, selected, i, formatDate(baseDate + i), draws[i]))
  }

  lemma ItineraryNext(p: Profile, selected: seq<Destination>, baseDate: int, draws: seq<seq<nat>>,
                      formatDate: int -> string, n: nat)
    requires PlanInputs(p, selected, draws, n + 1)
    ensures PlanInputs(p, selected, draws, n)
    ensures Itinerary(p, selected, baseDate, draws, formatDate, n + 1)
      == Itinerary(p, selected, baseDate, draws, formatDate, n) + [DayRow(p, selected, n, formatDate(baseDate + n), draws[n])]
  {
  }

  /** `generate_itinerary(mbti, days, base_date, selected_destinations)`:
      `baseDate` is a day number, `formatDate` renders a day number as
      `strftime("%Y-%m-%d")` does, and `draws[i]` is the activity draw of
      day `i`. */
  method GenerateItinerary(data: map<string, Profile>, mbti: string, days: int, baseDate: int,
                           selected: seq<Destination>, draws: seq<seq<nat>>, formatDate: int -> string)
    returns (rows: seq<Row>)
    requires mbti in data
    requires PlanInputs(data[mbti], selected, draws, if days > 0 then days else 0)
    ensures |rows| == if days > 0 then days else 0
    ensures rows == Itinerary(data[mbti], selected, baseDate, draws, formatDate, |rows|)
  {
    var acts := data[mbti].activities;
    var style := data[mbti].style;
    var n := if days > 0 then days else 0;
    rows := [];
    for i := 0 to n
      invariant rows == Itinerary(data[mbti], selected, baseDate, draws, formatDate, i)
    {
      var dayDate := baseDate + i;
      var dest := selected[i % |selected|];
      var dayActs := Sample(acts, draws[i]);
      var morning := MorningTag + dayActs[0];
      var afternoon := AfternoonTag + (if |dayActs| > 1 then dayActs[1] else FreeTime);
      var evening := EveningTag + (if |dayActs| > 2 then dayActs[2] else NightWalk);
      var row := Row(formatDate(dayDate), style, dest.city, dest.country, morning, afternoon, evening, Meals);
      assert row == DayRow(data[mbti], selected, i, formatDate(dayDate), draws[i]);
      ItineraryNext(data[mbti], selected, baseDate, draws, formatDate, i);
      rows := rows + [row];
    }
  }

  /** Every row of the plan: the date `base_date + i` days, the destination
      `selected[i % len(selected)]` in round-robin order, the style of the
      type, the fixed meals text, and the day's activities as
      `DayActivities` describes. */
  lemma ItineraryRows(p: Profile, selected: seq<Destination>, baseDate: int, draws: seq<seq<nat>>,
                      formatDate: int -> string, n: nat)
    requires PlanInputs(p, selected, draws, n)
    ensures var rows := Itinerary(p, selected, baseDate, draws, formatDate, n);
      forall i :: 0 <= i < n ==>
        && rows[i].date == formatDate(baseDate + i)
        && rows[i].city == selected[i % |selected|].city
        && rows[i].country == selected[i % |selected|].country
        && rows[i].style == p.style && rows[i].meals == Meals
        && HasTag(rows[i].morning, MorningTag) && HasTag(rows[i].afternoon, AfternoonTag)
        && HasTag(rows[i].evening, EveningTag)
        && DayActivities(rows[i], p.activities)
  {
    var rows := Itinerary(p, selected, baseDate, draws, formatDate, n);
    forall i | 0 <= i < n
      ensures && rows[i].date == formatDate(baseDate + i)
              && rows[i].city == selected[i % |selected|].city
              && rows[i].country == selected[i % |selected|].country
              && rows[i].style == p.style && rows[i].meals == Meals
              && HasTag(rows[i].morning, MorningTag) && HasTag(rows[i].afternoon, AfternoonTag)
              && HasTag(rows[i].evening, EveningTag)
              && DayActivities(rows[i], p.activities)
    {
      DayRowActivities(p, selected, i, formatDate(baseDate + i), draws[i]);
    }
  }

  /** The three slots of a day hold three different activities of `acts`. */
  predicate ThreeDistinct(r: Row, acts: seq<string>)
    requires HasTag(r.morning, MorningTag) && HasTag(r.afternoon, AfternoonTag) && HasTag(r.evening, EveningTag)
  {
    var m, a, e := Activity(r.morning, MorningTag), Activity(r.afternoon, AfternoonTag), Activity(r.evening, EveningTag);
    m in acts && a in acts && e in acts && m != a && m != e && a != e
  }

  /** With three or more distinct activities, no day falls back to a fixed
      text and no day repeats an activity. */
  lemma RowsThreeDistinct(p: Profile, selected: seq<Destination>, baseDate: int, draws: seq<seq<nat>>,
                          formatDate: int -> string, n: nat)
    requires PlanInputs(p, selected, draws, n) && |p.activities| >= 3 && Distinct(p.activities)
    ensures var rows := Itinerary(p, selected, baseDate, draws, formatDate, n);
      forall i :: 0 <= i < n ==>
        && HasTag(rows[i].morning, MorningTag) && HasTag(rows[i].afternoon, AfternoonTag)
        && HasTag(rows[i].evening, EveningTag)
        && ThreeDistinct(rows[i], p.activities)
  {
    ItineraryRows(p, selected, baseDate, draws, formatDate, n);
  }

  /** On the page's own table every day of the plan holds three different
      activities of the chosen type. */
  lemma PageItinerary(mbti: string, selected: seq<Destination>, baseDate: int, draws: seq<seq<nat>>,
                      formatDate: int -> string, n: nat)
    requires mbti in Data && PlanInputs(Data[mbti], selected, draws, n)
    ensures var rows := Itinerary(Data[mbti], selected, baseDate, draws, formatDate, n);
      forall i :: 0 <= i < n ==>
        && HasTag(rows[i].morning, MorningTag) && HasTag(rows[i].afternoon, AfternoonTag)
        && HasTag(rows[i].evening, EveningTag)
        && ThreeDistinct(rows[i], Data[mbti].activities)
  {
    DataSizes();
    DataDistinct();
    RowsThreeDistinct(Data[mbti], selected, baseDate, draws, formatDate, n);
  }

  // ---------- df_to_markdown ----------

  const Title: string := "# 여행 일정표"

  /** The six lines `df_to_markdown` writes for one row. */
  function Block(r: Row): (b: seq<string>)
    ensures |b| == 6
  {
    [ "## " + r.date + " · " + r.city + " (" + r.country + ")",
      "- " + r.morning,
      "- " + r.afternoon,
      "- " + r.evening,
      "- 🍽 " + r.meals,
      "" ]
  }

  /** The lines of the markdown plan, line by line: the title, an empty
      line, then six lines per row. */
  function MarkdownLines(rows: seq<Row>): (lines: seq<string>)
    ensures |lines| == 2 + 6 * |rows|
  {
    seq(2 + 6 * |rows|, j requires 0 <= j < 2 + 6 * |rows| =>
      if j == 0 then Title
      else if j == 1 then ""
      else Block(rows[(j - 2) / 6])[(j - 2) % 6])
  }

  lemma MarkdownLinesNext(rows: seq<Row>, k: nat)
    requires k < |rows|
    ensures MarkdownLines(rows[..k + 1]) == MarkdownLines(rows[..k]) + Block(rows[k])
  {
    var a, b := MarkdownLines(rows[..k + 1]), MarkdownLines(rows[..k]) + Block(rows[k]);
    forall j | 0 <= j < |a| ensures a[j] == b[j] {
      if j >= 2 + 6 * k {
        assert (j - 2) / 6 == k && (j - 2) % 6 == j - 2 - 6 * k;
      } else if j >= 2 {
        assert (j - 2) / 6 < k;
      }
    }
  }

  /** `df_to_markdown(df)`: the lines joined with newlines. */
  method DfToMarkdown(rows: seq<Row>) returns (md: string)
    ensures md == Join("\n", MarkdownLines(rows))
  {
    var lines := [Title, ""];
    assert lines == MarkdownLines(rows[..0]);
    for k := 0 to |rows|
      invariant lines == MarkdownLines(rows[..k])
    {
      var r := rows[k];
      lines := lines + [
        "## " + r.date + " · " + r.city + " (" + r.country + ")",
        "- " + r.morning,
        "- " + r.afternoon,
        "- " + r.evening,
        "- 🍽 " + r.meals,
        ""
      ];
      MarkdownLinesNext(rows, k);
    }
    assert rows[..|rows|] == rows;
    md := Join("\n", lines);
  }

  /** The fields that end up inside a markdown line hold no newline. */
  predicate OneLine(r: Row) {
    '\n' !in r.date && '\n' !in r.city && '\n' !in r.country && '\n' !in r.morning
      && '\n' !in r.afternoon && '\n' !in r.evening && '\n' !in r.meals
  }

  /** Splitting the markdown at its newlines gives back the lines, so it has
      exactly 2 + 6 n lines for n rows whose fields hold no newline. */
  lemma MarkdownLineCount(rows: seq<Row>)
    requires forall k :: 0 <= k < |rows| ==> OneLine(rows[k])
    ensures SplitOn(Join("\n", MarkdownLines(rows)), '\n') == MarkdownLines(rows)
    ensures |SplitOn(Join("\n", MarkdownLines(rows)), '\n')| == 2 + 6 * |rows|
  {
    var lines := MarkdownLines(rows);
    forall j | 0 <= j < |lines| ensures '\n' !in lines[j] {
      if j >= 2 {
        var r := rows[(j - 2) / 6];
        assert OneLine(r);
      }
    }
    SplitJoin(lines, '\n');
  }
}
