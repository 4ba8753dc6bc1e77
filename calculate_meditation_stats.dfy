/**
 * The statistics reducer over a meditation log
 * (src/utils/database/meditation_log/calculate_meditation_stats.rs).
 *
 * The wall clock is replaced by `today`, a UTC day number (`Day` of the
 * current Unix time). Floating-point totals are replaced by the integer sum
 * of durations from which the source derives them.
 */
module MeditationStats {
  import opened Wrappers
  import opened MeditationDatabase

  const SecondsPerDay: int := 86400
  /** `len() as u32` keeps the count modulo 2^32. */
  const U32Modulus: int := 0x1_0000_0000

  /** The UTC calendar day of a Unix timestamp (`/` is floor division for a positive divisor). */
  function Day(t: int): (d: int)
    ensures SecondsPerDay * d <= t < SecondsPerDay * (d + 1)
  {
    t / SecondsPerDay
  }

  lemma DayMonotone(a: int, b: int)
    requires a <= b
    ensures Day(a) <= Day(b)
  {
  }

  /** The set of UTC days on which the log has at least one session. */
  function DaySet(meds: seq<MeditationData>): set<int> {
    set m | m in meds :: Day(m.datetime)
  }

  lemma DaySetSnoc(meds: seq<MeditationData>, m: MeditationData)
    ensures DaySet(meds + [m]) == DaySet(meds) + {Day(m.datetime)}
  {
    assert forall x :: x in meds + [m] <==> x in meds || x == m;
  }

  lemma DaySetOfPermutation(a: seq<MeditationData>, b: seq<MeditationData>)
    requires multiset(a) == multiset(b)
    ensures DaySet(a) == DaySet(b)
  {
    assert forall x :: x in a <==> x in multiset(a);
    assert forall x :: x in b <==> x in multiset(b);
  }

  /** The day of the latest session: a member of `DaySet` that no other day exceeds. */
  function LatestDay(meds: seq<MeditationData>): (e: int)
    requires |meds| > 0
    ensures e in DaySet(meds)
    ensures forall d :: d in DaySet(meds) ==> d <= e
  {
    var last := meds[|meds| - 1];
    var init := meds[..|meds| - 1];
    assert meds == init + [last];
    DaySetSnoc(init, last);
    if |meds| == 1 then Day(last.datetime)
    else
      var e := LatestDay(init);
      if e < Day(last.datetime) then Day(last.datetime) else e
  }

  /**
   * The number of consecutive days ending at `e` that all belong to `days`:
   * the days e - n + 1 .. e are in `days` and day e - n is not.
   */
  function RunLength(days: set<int>, e: int): (n: nat)
    ensures forall d :: e - n < d <= e ==> d in days
    ensures e - n !in days
    ensures n <= |days|
    decreases |days|
  {
    if e in days then
      var k := RunLength(days - {e}, e - 1);
      assert forall d :: e - 1 - k < d <= e ==> d in days by {
        forall d | e - 1 - k < d <= e
          ensures d in days
        {
          if d < e {
            assert d in days - {e};
          }
        }
      }
      1 + k
    else 0
  }

  /**
   * The streak the source computes: 0 for an empty log or one whose latest
   * session falls on a day before `today`, otherwise the run of consecutive
   * session days ending at the latest one.
   */
  function CurrentStreak(meds: seq<MeditationData>, today: int): nat {
    if |meds| == 0 then 0
    else if LatestDay(meds) < today then 0
    else RunLength(DaySet(meds), LatestDay(meds))
  }

  predicate SortedByDatetime(s: seq<MeditationData>) {
    forall p, q :: 0 <= p < q < |s| ==> s[p].datetime <= s[q].datetime
  }

  /** Exchanges `a[j - 1]` and `a[j]`. */
  method SwapDown(a: array<MeditationData>, j: int)
    requires 0 < j < a.Length
    modifies a
    ensures a[..] == old(a[..])[j - 1 := old(a[j])][j := old(a[j - 1])]
    ensures multiset(a[..]) == multiset(old(a[..]))
  {
    a[j - 1], a[j] := a[j], a[j - 1];
  }

  /** Moves `a[i]` down into the sorted prefix `a[..i]`, leaving `a[..i + 1]` sorted. */
  method InsertDown(a: array<MeditationData>, i: int)
    requires 0 < i < a.Length
    requires SortedByDatetime(a[..i])
    modifies a
    ensures SortedByDatetime(a[..i + 1])
    ensures multiset(a[..]) == multiset(old(a[..]))
  {
    var j := i;
    while j > 0 && a[j - 1].datetime > a[j].datetime
      invariant 0 <= j <= i
      invariant forall p, q :: 0 <= p < q <= i && p != j && q != j ==> a[p].datetime <= a[q].datetime
      invariant forall q :: j < q <= i ==> a[j].datetime < a[q].datetime
      invariant 0 < j < i ==> a[j - 1].datetime <= a[j + 1].datetime
      invariant multiset(a[..]) == multiset(old(a[..]))
    {
      SwapDown(a, j);
      j := j - 1;
    }
  }

  /** `sort_by_key(|m| m.datetime)` on the cloned vector: insertion sort in place. */
  method SortByDatetime(a: array<MeditationData>)
    modifies a
    ensures SortedByDatetime(a[..])
    ensures multiset(a[..]) == multiset(old(a[..]))
  {
    if a.Length == 0 {
      return;
    }
    var i := 1;
    while i < a.Length
      invariant 1 <= i <= a.Length
      invariant SortedByDatetime(a[..i])
      invariant multiset(a[..]) == multiset(old(a[..]))
    {
      InsertDown(a, i);
      i := i + 1;
    }
    assert a[..i] == a[..];
  }

  /** One step of the streak loop: the next session day `c` after the last day `p` counted. */
  lemma RunLengthStep(days: set<int>, p: int, c: int)
    requires p in days
    requires forall d :: d in days ==> d <= p
    requires p <= c
    ensures RunLength(days + {c}, c) ==
      if c == p then RunLength(days, p)
      else if c == p + 1 then RunLength(days, p) + 1
      else 1
  {
    if c == p {
      assert days + {c} == days;
    } else {
      assert (days + {c}) - {c} == days;
    }
  }

  /** In a log sorted by time the last record carries the latest day. */
  lemma SortedLatestDay(s: seq<MeditationData>)
    requires |s| > 0 && SortedByDatetime(s)
    ensures LatestDay(s) == Day(s[|s| - 1].datetime)
  {
    var last := s[|s| - 1];
    var e := LatestDay(s);
    var m :| m in s && Day(m.datetime) == e;
    var k :| 0 <= k < |s| && s[k] == m;
    DayMonotone(m.datetime, last.datetime);
    assert last in s;
  }

  /**
   * Extending a sorted prefix by one record adds that record's day, which is no
   * earlier than the prefix's latest day, the day of its last record.
   */
  lemma SortedPrefixStep(s: seq<MeditationData>, i: int)
    requires 0 < i < |s| && SortedByDatetime(s)
    ensures DaySet(s[..i + 1]) == DaySet(s[..i]) + {Day(s[i].datetime)}
    ensures Day(s[i - 1].datetime) <= Day(s[i].datetime)
    ensures LatestDay(s[..i]) == Day(s[i - 1].datetime)
  {
    assert s[..i + 1] == s[..i] + [s[i]];
    DaySetSnoc(s[..i], s[i]);
    DayMonotone(s[i - 1].datetime, s[i].datetime);
    var prefix := s[..i];
    assert SortedByDatetime(prefix);
    SortedLatestDay(prefix);
    assert prefix[i - 1] == s[i - 1];
  }

  /** One iteration of the streak loop over a sorted log, stated on the prefixes before and after. */
  lemma StreakStep(s: seq<MeditationData>, i: int)
    requires 0 < i < |s| && SortedByDatetime(s)
    ensures var p, c := Day(s[i - 1].datetime), Day(s[i].datetime);
      RunLength(DaySet(s[..i + 1]), c) ==
        if c - p == 1 then RunLength(DaySet(s[..i]), p) + 1
        else if c - p > 1 then 1
        else RunLength(DaySet(s[..i]), p)
  {
    SortedPrefixStep(s, i);
    RunLengthStep(DaySet(s[..i]), Day(s[i - 1].datetime), Day(s[i].datetime));
  }

  /** `calculate_current_streak`, with `today` in place of `Utc::now()`. */
  method CalculateCurrentStreak(meds: seq<MeditationData>, today: int) returns (streak: nat)
    ensures streak == CurrentStreak(meds, today)
  {
    if |meds| == 0 {
      return 0;
    }
    var sorted := new MeditationData[|meds|](i requires 0 <= i < |meds| => meds[i]);
    assert sorted[..] == meds;
    SortByDatetime(sorted);
    var s := sorted[..];
    StreakOrderIndependent(s, meds, today);
    var n := |s|;

    SortedLatestDay(s);
    if Day(s[n - 1].datetime) < today {
      return 0;
    }

    streak := 1;
    var lastDate := Day(s[0].datetime);
    assert DaySet(s[..1]) == {lastDate} by {
      assert s[..1] == [] + [s[0]];
      DaySetSnoc([], s[0]);
    }
    for i := 1 to n
      invariant lastDate == Day(s[i - 1].datetime)
      invariant streak == RunLength(DaySet(s[..i]), lastDate)
    {
      var currentDate := Day(s[i].datetime);
      StreakStep(s, i);

      var difference := currentDate - lastDate;
      if difference == 1 {
        streak := streak + 1;
      } else if difference > 1 {
        streak := 1;
      }
      lastDate := currentDate;
    }
    assert s[..n] == s;
  }

  /** `value` is a most frequent element of `values`. */
  predicate IsMostFrequent(values: seq<string>, v: string) {
    v in values && forall w :: w in values ==> multiset(values)[w] <= multiset(values)[v]
  }

  /**
   * The shared body of `find_most_occuring_category` and `..._speaker`: count
   * each value in a map, then keep the maximum over the map's entries. Map
   * iteration order is unspecified, so the keys are visited in an arbitrary
   * order and, as with `max_by_key`, the last maximal entry visited wins.
   */
  method MostOccurring(values: seq<string>) returns (r: Option<string>)
    ensures r.None? <==> values == []
    ensures r.Some? ==> IsMostFrequent(values, r.value)
  {
    var counts: map<string, nat> := map[];
    for i := 0 to |values|
      invariant forall k :: k in counts <==> k in values[..i]
      invariant forall k :: k in counts ==> counts[k] == multiset(values[..i])[k]
    {
      var v := values[i];
      assert values[..i + 1] == values[..i] + [v];
      counts := counts[v := if v in counts then counts[v] + 1 else 1];
    }
    assert values[..|values|] == values;

    var remaining := counts.Keys;
    var best: Option<(string, nat)> := None;
    while remaining != {}
      invariant remaining <= counts.Keys
      invariant best.None? <==> remaining == counts.Keys
      invariant best.Some? ==> best.value.0 in counts && best.value.1 == counts[best.value.0]
      invariant best.Some? ==> forall k :: k in counts && k !in remaining ==> counts[k] <= best.value.1
      decreases remaining
    {
      var k :| k in remaining;
      if best.None? || counts[k] >= best.value.1 {
        best := Some((k, counts[k]));
      }
      remaining := remaining - {k};
    }

    assert values != [] ==> values[0] in counts;
    r := if best.None? then None else Some(best.value.0);
  }

  function Categories(meds: seq<MeditationData>): seq<string> {
    seq(|meds|, i requires 0 <= i < |meds| => meds[i].category)
  }

  function Speakers(meds: seq<MeditationData>): seq<string> {
    seq(|meds|, i requires 0 <= i < |meds| => meds[i].speaker)
  }

  method FindMostOccurringCategory(meds: seq<MeditationData>) returns (r: Option<string>)
    ensures r.None? <==> meds == []
    ensures r.Some? ==> IsMostFrequent(Categories(meds), r.value)
  {
    r := MostOccurring(Categories(meds));
  }

  method FindMostOccurringSpeaker(meds: seq<MeditationData>) returns (r: Option<string>)
    ensures r.None? <==> meds == []
    ensures r.Some? ==> IsMostFrequent(Speakers(meds), r.value)
  {
    r := MostOccurring(Speakers(meds));
  }

  /**
   * The sum of all durations, in seconds: the source's hour total is this
   * divided by 3600. It lies within |meds| times the `i32` range, and a log of
   * records the builder accepts (positive durations) sums to at least |meds|.
   */
  function DurationSum(meds: seq<MeditationData>): (total: int)
    ensures meds == [] ==> total == 0
    ensures -0x8000_0000 * |meds| <= total <= 0x7FFF_FFFF * |meds|
    ensures (forall i :: 0 <= i < |meds| ==> meds[i].duration > 0) ==> total >= |meds|
  {
    if meds == [] then 0 else DurationSum(meds[..|meds| - 1]) + meds[|meds| - 1].duration
  }

  lemma {:induction false} DurationSumAppend(a: seq<MeditationData>, b: seq<MeditationData>)
    ensures DurationSum(a + b) == DurationSum(a) + DurationSum(b)
    decreases |b|
  {
    if b != [] {
      assert (a + b)[..|a + b| - 1] == a + b[..|b| - 1];
      DurationSumAppend(a, b[..|b| - 1]);
    } else {
      assert a + b == a;
    }
  }

  /**
   * The computed statistics. `totalDurationSeconds` stands for the two
   * floating-point fields, which are derived from it and the session count.
   */
  datatype Stats = Stats(
    totalDurationSeconds: int,
    daysMeditatedInRow: nat,
    totalMeditationSessions: nat,
    favoriteCategory: string,
    favoriteSpeaker: string)

  /**
   * `StatsBuilder`: the log plus six optional overrides. Each setter returns
   * an updated copy; `Build` never reads the overrides.
   */
  datatype StatsBuilder = StatsBuilder(
    meditations: seq<MeditationData>,
    totalHoursMeditated: Option<real>,
    averageDurationPerMeditation: Option<real>,
    daysMeditatedInRow: Option<nat>,
    totalMeditationSessions: Option<nat>,
    favoriteCategory: Option<string>,
    favoriteSpeaker: Option<string>)
  {
    /** This builder and `other` agree on every override except the one numbered `field`. */
    predicate SameOverridesExcept(other: StatsBuilder, field: nat) {
      (field == 0 || totalHoursMeditated == other.totalHoursMeditated)
      && (field == 1 || averageDurationPerMeditation == other.averageDurationPerMeditation)
      && (field == 2 || daysMeditatedInRow == other.daysMeditatedInRow)
      && (field == 3 || totalMeditationSessions == other.totalMeditationSessions)
      && (field == 4 || favoriteCategory == other.favoriteCategory)
      && (field == 5 || favoriteSpeaker == other.favoriteSpeaker)
    }

    /** `StatsBuilder::new`: the log, with no override set. */
    static function New(meditations: seq<MeditationData>): (b: StatsBuilder)
      ensures b.meditations == meditations
      ensures b.totalHoursMeditated.None? && b.averageDurationPerMeditation.None?
      ensures b.daysMeditatedInRow.None? && b.totalMeditationSessions.None?
      ensures b.favoriteCategory.None? && b.favoriteSpeaker.None?
    {
      StatsBuilder(meditations, None, None, None, None, None, None)
    }

    /*
     * The six setters take the builder by value and return it with one
     * override set: the log, the only input `Build` reads, and the other five
     * overrides are carried over unchanged.
     */

    function WithTotalHoursMeditated(value: real): (b: StatsBuilder)
      ensures b.meditations == meditations && b.SameOverridesExcept(this, 0)
      ensures b.totalHoursMeditated == Some(value)
    {
      this.(totalHoursMeditated := Some(value))
    }

    function WithAverageDurationPerMeditation(value: real): (b: StatsBuilder)
      ensures b.meditations == meditations && b.SameOverridesExcept(this, 1)
      ensures b.averageDurationPerMeditation == Some(value)
    {
      this.(averageDurationPerMeditation := Some(value))
    }

    function WithDaysMeditatedInRow(value: nat): (b: StatsBuilder)
      ensures b.meditations == meditations && b.SameOverridesExcept(this, 2)
      ensures b.daysMeditatedInRow == Some(value)
    {
      this.(daysMeditatedInRow := Some(value))
    }

    function WithTotalMeditationSessions(value: nat): (b: StatsBuilder)
      ensures b.meditations == meditations && b.SameOverridesExcept(this, 3)
      ensures b.totalMeditationSessions == Some(value)
    {
      this.(totalMeditationSessions := Some(value))
    }

    function WithFavoriteCategory(value: string): (b: StatsBuilder)
      ensures b.meditations == meditations && b.SameOverridesExcept(this, 4)
      ensures b.favoriteCategory == Some(value)
    {
      this.(favoriteCategory := Some(value))
    }

    function WithFavoriteSpeaker(value: string): (b: StatsBuilder)
      ensures b.meditations == meditations && b.SameOverridesExcept(this, 5)
      ensures b.favoriteSpeaker == Some(value)
    {
      this.(favoriteSpeaker := Some(value))
    }
  }

  /**
   * `StatsBuilder::build`: every field is a function of `b.meditations` (and
   * `today`) alone; the favourites are some most frequent value, or "" for an
   * empty log.
   */
  method Build(b: StatsBuilder, today: int) returns (s: Stats)
    ensures s.totalDurationSeconds == DurationSum(b.meditations)
    ensures s.totalMeditationSessions == |b.meditations| % U32Modulus
    ensures s.daysMeditatedInRow == CurrentStreak(b.meditations, today)
    ensures b.meditations == [] ==> s.favoriteCategory == "" && s.favoriteSpeaker == ""
    ensures b.meditations != [] ==> IsMostFrequent(Categories(b.meditations), s.favoriteCategory)
    ensures b.meditations != [] ==> IsMostFrequent(Speakers(b.meditations), s.favoriteSpeaker)
  {
    var streak := CalculateCurrentStreak(b.meditations, today);
    var category := FindMostOccurringCategory(b.meditations);
    var speaker := FindMostOccurringSpeaker(b.meditations);
    s := Stats(
      DurationSum(b.meditations),
      streak,
      |b.meditations| % U32Modulus,
      if category.Some? then category.value else "",
      if speaker.Some? then speaker.value else "");
  }

  // ---------------------------------------------------------------------------
  // Properties of the streak

  /** The streak is at least one and at most the number of distinct session days. */
  lemma StreakBounds(meds: seq<MeditationData>, today: int)
    requires |meds| > 0 && today <= LatestDay(meds)
    ensures 1 <= CurrentStreak(meds, today) <= |DaySet(meds)|
  {
  }

  /** A log whose latest session is on a day before `today` has streak 0. */
  lemma StaleLogHasNoStreak(meds: seq<MeditationData>, today: int)
    requires forall i :: 0 <= i < |meds| ==> Day(meds[i].datetime) < today
    ensures CurrentStreak(meds, today) == 0
  {
    if |meds| > 0 {
      var e := LatestDay(meds);
      var m :| m in meds && Day(m.datetime) == e;
    }
  }

  /** The streak depends only on which records the log holds, not on their order. */
  lemma StreakOrderIndependent(a: seq<MeditationData>, b: seq<MeditationData>, today: int)
    requires multiset(a) == multiset(b)
    ensures CurrentStreak(a, today) == CurrentStreak(b, today)
  {
    DaySetOfPermutation(a, b);
    assert |a| == |multiset(a)| == |multiset(b)| == |b|;
    if |a| > 0 {
      var ea, eb := LatestDay(a), LatestDay(b);
      assert ea <= eb && eb <= ea;
    }
  }

  /** Another session on a day the log already covers leaves the streak unchanged. */
  lemma SameDaySessionKeepsStreak(meds: seq<MeditationData>, m: MeditationData, today: int)
    requires Day(m.datetime) in DaySet(meds)
    ensures CurrentStreak(meds + [m], today) == CurrentStreak(meds, today)
  {
    DaySetSnoc(meds, m);
    assert DaySet(meds + [m]) == DaySet(meds);
    var e1, e2 := LatestDay(meds + [m]), LatestDay(meds);
    assert e1 <= e2 && e2 <= e1;
  }

  /** A session on the day after the latest one extends a live streak by one. */
  lemma NextDaySessionExtendsStreak(meds: seq<MeditationData>, m: MeditationData, today: int)
    requires |meds| > 0 && Day(m.datetime) == LatestDay(meds) + 1
    requires today <= LatestDay(meds)
    ensures CurrentStreak(meds + [m], today) == CurrentStreak(meds, today) + 1
  {
    DaySetSnoc(meds, m);
    var e := LatestDay(meds);
    RunLengthStep(DaySet(meds), e, e + 1);
    var e1 := LatestDay(meds + [m]);
    assert e1 == e + 1;
  }

  // ---------------------------------------------------------------------------
  // The test vector of the source

  /** `create_mock_meditations`: six sessions, in chronological order. */
  function CreateMockMeditations(): (meds: seq<MeditationData>)
    ensures |meds| == 6 && SortedByDatetime(meds)
  {
    [
      MeditationData(1617638400, 1800, "Mindfulness", "Alice"),
      MeditationData(1617724800, 3600, "Relaxation", "Bob"),
      MeditationData(1617811200, 900, "Mindfulness", "Alice"),
      MeditationData(1617897600, 1200, "Relaxation", "Charlie"),
      MeditationData(1707421416, 3000, "Healing", "Alice"),
      MeditationData(1707511333, 2100, "Mindfulness", "Bob")
    ]
  }

  /** Every mock session is one the record builder accepts. */
  lemma MockRecordsLoggable(i: int)
    requires 0 <= i < |CreateMockMeditations()|
    ensures var m := CreateMockMeditations()[i];
      m.datetime > 0 && m.duration > 0 && !IsBlank(m.category) && !IsBlank(m.speaker)
  {
    var m := CreateMockMeditations()[i];
    assert !IsWhitespace(m.category[0]) && !IsWhitespace(m.speaker[0]);
  }

  lemma MockDays()
    ensures DaySet(CreateMockMeditations()) == {18722, 18723, 18724, 18725, 19761, 19762}
  {
    var s := CreateMockMeditations();
    assert Day(s[0].datetime) == 18722 && Day(s[1].datetime) == 18723;
    assert Day(s[2].datetime) == 18724 && Day(s[3].datetime) == 18725;
    assert Day(s[4].datetime) == 19761 && Day(s[5].datetime) == 19762;
    assert forall m :: m in s <==> m == s[0] || m == s[1] || m == s[2] || m == s[3] || m == s[4] || m == s[5];
  }

  /** The run ending at the last mock day covers days 19761 and 19762 only. */
  lemma MockRunLength()
    ensures RunLength({18722, 18723, 18724, 18725, 19761, 19762}, 19762) == 2
  {
    var D: set<int> := {18722, 18723, 18724, 18725, 19761, 19762};
    assert D - {19762} == {18722, 18723, 18724, 18725, 19761};
    assert D - {19762} - {19761} == {18722, 18723, 18724, 18725};
    assert RunLength(D - {19762} - {19761}, 19760) == 0;
    assert RunLength(D - {19762}, 19761) == 1;
    assert RunLength(D, 19762) == 1 + RunLength(D - {19762}, 19761);
  }

  /** With `today` the day of the last mock session, the streak is 2 (days 19761, 19762). */
  lemma MockStreak()
    ensures CurrentStreak(CreateMockMeditations(), Day(1707511333)) == 2
  {
    var s := CreateMockMeditations();
    MockDays();
    SortedLatestDay(s);
    assert Day(s[5].datetime) == 19762;
    MockRunLength();
  }

  lemma MockCategories()
    ensures Categories(CreateMockMeditations())
      == ["Mindfulness", "Relaxation", "Mindfulness", "Relaxation", "Healing", "Mindfulness"]
  {
  }

  lemma MockSpeakers()
    ensures Speakers(CreateMockMeditations()) == ["Alice", "Bob", "Alice", "Charlie", "Alice", "Bob"]
  {
  }

  /** In the mock categories, "Mindfulness" (3 sessions) beats "Relaxation" (2) and "Healing" (1). */
  lemma OnlyMindfulnessMostFrequent(c: seq<string>, v: string)
    requires c == ["Mindfulness", "Relaxation", "Mindfulness", "Relaxation", "Healing", "Mindfulness"]
    requires IsMostFrequent(c, v)
    ensures v == "Mindfulness"
  {
    var m := multiset(c);
    assert m == multiset{"Mindfulness", "Mindfulness", "Mindfulness", "Relaxation", "Relaxation", "Healing"};
    assert m["Mindfulness"] == 3 && m["Relaxation"] == 2 && m["Healing"] == 1;
    assert "Mindfulness" in c;
  }

  /** In the mock speakers, "Alice" (3 sessions) beats "Bob" (2) and "Charlie" (1). */
  lemma OnlyAliceMostFrequent(c: seq<string>, v: string)
    requires c == ["Alice", "Bob", "Alice", "Charlie", "Alice", "Bob"]
    requires IsMostFrequent(c, v)
    ensures v == "Alice"
  {
    var m := multiset(c);
    assert m == multiset{"Alice", "Alice", "Alice", "Bob", "Bob", "Charlie"};
    assert m["Alice"] == 3 && m["Bob"] == 2 && m["Charlie"] == 1;
    assert "Alice" in c;
  }

  lemma MockFavoriteCategory(v: string)
    requires IsMostFrequent(Categories(CreateMockMeditations()), v)
    ensures v == "Mindfulness"
  {
    MockCategories();
    OnlyMindfulnessMostFrequent(Categories(CreateMockMeditations()), v);
  }

  lemma MockFavoriteSpeaker(v: string)
    requires IsMostFrequent(Speakers(CreateMockMeditations()), v)
    ensures v == "Alice"
  {
    MockSpeakers();
    OnlyAliceMostFrequent(Speakers(CreateMockMeditations()), v);
  }

  lemma MockDurationSum()
    ensures DurationSum(CreateMockMeditations()) == 12600
  {
    var s := CreateMockMeditations();
    assert s[..1][..0] == [];
    assert DurationSum(s[..1]) == 1800;
    assert s[..2][..1] == s[..1];
    assert DurationSum(s[..2]) == 5400;
    assert s[..3][..2] == s[..2];
    assert DurationSum(s[..3]) == 6300;
    assert s[..4][..3] == s[..3];
    assert DurationSum(s[..4]) == 7500;
    assert s[..5][..4] == s[..4];
    assert DurationSum(s[..5]) == 10500;
    assert s[..5] == s[..|s| - 1];
  }

  /** The unit test on the mock log, with the clock fixed to the last session's day. */
  method MockStats() returns (s: Stats)
    ensures s.totalMeditationSessions == 6
    ensures s.daysMeditatedInRow == 2
    ensures s.favoriteCategory == "Mindfulness"
    ensures s.favoriteSpeaker == "Alice"
    ensures s.totalDurationSeconds == 12600
    ensures s.totalDurationSeconds / s.totalMeditationSessions == 2100
  {
    var meds := CreateMockMeditations();
    s := Build(StatsBuilder.New(meds), Day(1707511333));
    MockStreak();
    MockFavoriteCategory(s.favoriteCategory);
    MockFavoriteSpeaker(s.favoriteSpeaker);
    MockDurationSum();
    assert |meds| == 6;
    assert 6 % U32Modulus == 6;
  }

  /** The unit test on the empty log: no sessions, no streak, empty favourites. */
  method EmptyStats(today: int) returns (s: Stats)
    ensures s == Stats(0, 0, 0, "", "")
  {
    s := Build(StatsBuilder.New([]), today);
  }
}
