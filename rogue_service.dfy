/**
 * The analysis of one theme's run history (`RogueService`): score and seven-day filters, the
 * win and "fifth ending" statistics, the recent-run details, and the orchestration that merges the
 * fetched history into the record store before reading the whole partition back.
 */
module RogueService {
  import opened Wrappers
  import opened Text
  import opened Runs
  import opened Endings
  import opened Streaks
  import opened RecordStore

  /** Runs scoring at most this much are left out of the statistics. */
  const MinScore := 100
  /** `timedelta(days=7)` in seconds. */
  const SevenDays := 7 * 86400
  /** The totem item whose counts make up `totem_count`. */
  const TotemFragment := "rogue_4_fragment_I_1"

  /** A list comprehension `[x for x in s if p(x)]`. */
  function Filter<T(!new)>(s: seq<T>, p: T -> bool): (r: seq<T>)
    ensures |r| <= |s|
    ensures forall x :: x in r <==> x in s && p(x)
    ensures forall x :: multiset(r)[x] == if p(x) then multiset(s)[x] else 0
  {
    if s == [] then []
    else
      assert s == [s[0]] + s[1..];
      (if p(s[0]) then [s[0]] else []) + Filter(s[1..], p)
  }

  /** Filtering keeps the input's order: it distributes over concatenation. */
  lemma {:induction false} FilterAppend<T(!new)>(a: seq<T>, b: seq<T>, p: T -> bool)
    ensures Filter(a + b, p) == Filter(a, p) + Filter(b, p)
  {
    if a == [] {
      assert a + b == b;
    } else {
      assert (a + b)[0] == a[0] && (a + b)[1..] == a[1..] + b;
      FilterAppend(a[1..], b, p);
    }
  }

  /** A comprehension that no element passes is empty. */
  lemma {:induction false} FilterNone<T(!new)>(s: seq<T>, p: T -> bool)
    requires forall x :: x in s ==> !p(x)
    ensures Filter(s, p) == []
  {
    if s != [] {
      FilterNone(s[1..], p);
    }
  }

  /** The runs that count for the statistics: score above the minimum. */
  function ValidRuns(all: seq<Run>): (valid: seq<Run>)
    ensures forall x :: multiset(valid)[x] == if x.score.GetOr(0) > MinScore then multiset(all)[x] else 0
  {
    Filter(all, (r: Run) => r.score.GetOr(0) > MinScore)
  }

  /** The valid runs that started within the seven days before `now`. */
  function SevenDayRuns(valid: seq<Run>, now: int): (recent: seq<Run>)
    ensures forall x :: multiset(recent)[x] == if x.startTs > now - SevenDays then multiset(valid)[x] else 0
  {
    Filter(valid, (r: Run) => r.startTs > now - SevenDays)
  }

  /** `[r.get("success") == 1 for r in records]`. */
  function WinFlags(records: seq<Run>): (flags: seq<bool>)
    ensures |flags| == |records|
    ensures forall i :: 0 <= i < |records| ==> (flags[i] <==> records[i].success == 1)
  {
    seq(|records|, i requires 0 <= i < |records| => records[i].success == 1)
  }

  /** The label test used for the "fifth ending": it starts with "完成结局: 5" or contains "滚动 5". */
  predicate FifthLabel(text: string) {
    StartsWith(text, SuccessPrefix + "5") || Contains(text, RollingWord + " 5")
  }

  /** A won run whose label passes the fifth-ending test. */
  predicate IsFifthWin(r: Run) {
    r.success == 1 && FifthLabel(Classify(r).text)
  }

  /** The flags of the fifth-ending streak. */
  function FifthFlags(records: seq<Run>): (flags: seq<bool>)
    ensures |flags| == |records|
    ensures forall i :: 0 <= i < |records| ==> (flags[i] <==> IsFifthWin(records[i]))
  {
    seq(|records|, i requires 0 <= i < |records| => IsFifthWin(records[i]))
  }

  /** `wins`. */
  function Wins(records: seq<Run>): (wins: seq<Run>)
    ensures forall x :: multiset(wins)[x] == if x.success == 1 then multiset(records)[x] else 0
  {
    Filter(records, (r: Run) => r.success == 1)
  }

  /** `fifth_wins`: the wins whose label passes the fifth-ending test. */
  function FifthWins(records: seq<Run>): (fifthWins: seq<Run>)
    ensures forall x :: multiset(fifthWins)[x] == if IsFifthWin(x) then multiset(records)[x] else 0
  {
    Filter(Wins(records), (r: Run) => FifthLabel(Classify(r).text))
  }

  /** A percentage `numerator / denominator * 100`, shown with two decimals by the source. */
  datatype Percentage = Percentage(numerator: nat, denominator: nat)

  /** "0.00%". */
  const ZeroPercent := Percentage(0, 1)

  datatype Stats = Stats(winRate: Percentage, maxStreak: nat, fifthRate: Percentage, maxFifthStreak: nat)

  const ZeroStats := Stats(ZeroPercent, 0, ZeroPercent, 0)

  /** `get_stats`. */
  function GetStats(records: seq<Run>): (s: Stats)
    ensures records == [] ==> s == ZeroStats
    ensures records != [] ==> s.winRate == Percentage(|Wins(records)|, |records|)
    ensures records != [] ==> s.fifthRate == Percentage(|FifthWins(records)|, |records|)
    ensures 0 < s.winRate.denominator && s.winRate.numerator <= s.winRate.denominator
    ensures s.fifthRate.denominator == s.winRate.denominator
    ensures s.fifthRate.numerator <= s.winRate.numerator
    ensures s.maxStreak <= |records|
    ensures s.maxFifthStreak <= s.maxStreak
    ensures records != [] ==> s.maxStreak == LongestStreak(WinFlags(records))
    ensures records != [] ==> s.maxFifthStreak == LongestStreak(FifthFlags(records))
  {
    if records == [] then ZeroStats
    else
      var wins := Wins(records);
      var fifthWins := FifthWins(records);
      StreakMonotone(FifthFlags(records), WinFlags(records));
      Stats(Percentage(|wins|, |records|), LongestStreak(WinFlags(records)),
            Percentage(|fifthWins|, |records|), LongestStreak(FifthFlags(records)))
  }

  /** Every fifth-ending win is a win. */
  lemma FifthWinsAreWins(records: seq<Run>)
    ensures forall r :: r in FifthWins(records) ==> r in Wins(records) && r in records
  {
  }

  /** As written, no won run passes the fifth-ending test, so its rate and streak are always zero. */
  lemma FifthStatsAlwaysZero(records: seq<Run>)
    ensures GetStats(records).fifthRate.numerator == 0
    ensures GetStats(records).maxFifthStreak == 0
  {
    forall r | r in Wins(records)
      ensures !FifthLabel(Classify(r).text)
    {
      WonLabelNeverFifth(r);
    }
    FilterNone(Wins(records), (r: Run) => FifthLabel(Classify(r).text));
    assert |FifthWins(records)| == 0;
    var flags := FifthFlags(records);
    forall k | 0 <= k < |flags|
      ensures !flags[k]
    {
      if records[k].success == 1 {
        WonLabelNeverFifth(records[k]);
      }
    }
    AllLossesNoStreak(flags);
  }

  /** The seven-day runs are valid runs, so there are never more of them. */
  lemma SevenDayWithinValid(all: seq<Run>, now: int)
    ensures |SevenDayRuns(ValidRuns(all), now)| <= |ValidRuns(all)| <= |all|
    ensures forall r :: r in SevenDayRuns(ValidRuns(all), now) ==>
              r in all && r.score.GetOr(0) > MinScore && r.startTs > now - SevenDays
  {
  }

  /** `sum(item.count for item in totemList if item.id == 'rogue_4_fragment_I_1')`. */
  function TotemCount(totems: seq<Totem>): (total: int)
    ensures (forall k :: 0 <= k < |totems| ==> totems[k].count >= 0) ==> total >= 0
  {
    if totems == [] then 0
    else (if totems[0].id == TotemFragment then totems[0].count else 0) + TotemCount(totems[1..])
  }

  /** The totem count adds up over a split of the totem list. */
  lemma {:induction false} TotemCountAppend(a: seq<Totem>, b: seq<Totem>)
    ensures TotemCount(a + b) == TotemCount(a) + TotemCount(b)
  {
    if a == [] {
      assert a + b == b;
    } else {
      assert (a + b)[0] == a[0] && (a + b)[1..] == a[1..] + b;
      TotemCountAppend(a[1..], b);
    }
  }

  /** Items other than the fragment do not count. */
  lemma {:induction false} TotemCountNoFragment(totems: seq<Totem>)
    requires forall k :: 0 <= k < |totems| ==> totems[k].id != TotemFragment
    ensures TotemCount(totems) == 0
  {
    if totems != [] {
      TotemCountNoFragment(totems[1..]);
    }
  }

  /** One entry of `detailed_recent_runs` (the start date is kept as its timestamp). */
  datatype RunDetail = RunDetail(
    difficulty: Option<int>, squad: string, score: Option<int>,  // None is shown as "N/A"
    isSuccess: bool, ending: string, isRolling: bool,
    startTs: int, durationSeconds: int, totemCount: int)

  /** The detail entry of one run. */
  function Detail(run: Run): (d: RunDetail)
    ensures d.isSuccess <==> StartsWith(d.ending, SuccessPrefix)
    ensures !d.isSuccess <==> StartsWith(d.ending, FailurePrefix)
    ensures d.isRolling <==> RollingRelic in run.relics
    ensures run.bandName.None? ==> d.squad == "N/A"
  {
    var o := Classify(run);
    RunDetail(run.modeGrade, run.bandName.GetOr("N/A"), run.score, run.success == 1, o.text, o.rolling,
              run.startTs, run.endTs - run.startTs, TotemCount(run.totems))
  }

  /** The length of the Python slice `s[:n]` of a list of length `len`. */
  function SliceLen(n: int, len: nat): (r: nat)
    ensures r <= len
    ensures 0 <= n ==> r == if n < len then n else len
    ensures n < 0 ==> r == if len + n < 0 then 0 else len + n
  {
    if 0 <= n then (if n < len then n else len)
    else if len + n < 0 then 0 else len + n
  }

  /** The detail entries of `all[:n]`, in order. */
  function RecentDetails(all: seq<Run>, n: int): (ds: seq<RunDetail>)
    ensures |ds| == SliceLen(n, |all|)
  {
    seq(SliceLen(n, |all|), i requires 0 <= i < SliceLen(n, |all|) => Detail(all[i]))
  }

  /** The `detailed_recent_runs` loop over `all_records[:n]`. */
  method BuildRecentRuns(all: seq<Run>, n: int) returns (details: seq<RunDetail>)
    ensures |details| == SliceLen(n, |all|)
    ensures forall i :: 0 <= i < |details| ==>
              && details[i].isSuccess == (all[i].success == 1)
              && details[i].ending == Classify(all[i]).text
              && details[i].isRolling == (RollingRelic in all[i].relics)
              && details[i].totemCount == TotemCount(all[i].totems)
              && details[i].durationSeconds == all[i].endTs - all[i].startTs
    ensures details == RecentDetails(all, n)
  {
    var recent := all[..SliceLen(n, |all|)];
    details := [];
    for i := 0 to |recent|
      invariant |details| == i
      invariant forall j :: 0 <= j < i ==> details[j] == Detail(recent[j])
    {
      var record := recent[i];
      var endingStr, isRolling := DetermineEnding(record);
      details := details + [RunDetail(record.modeGrade, record.bandName.GetOr("N/A"), record.score,
                                      record.success == 1, endingStr, isRolling, record.startTs,
                                      record.endTs - record.startTs, TotemCount(record.totems))];
    }
  }

  /** A topic of the payload's `topics` list; `name` may be absent. */
  datatype Topic = Topic(name: Option<string>)

  /** The part of the rogue payload the analysis reads; absent sections appear empty. */
  datatype Payload = Payload(
    topics: seq<Topic>,
    records: seq<Run>,                  // `history.records`
    gameUserInfo: map<string, string>,  // `gameUserInfo`, passed through
    career: map<string, string>         // `career`, passed through
  )

  /** `next((t for t in topics if t.get("name") == name), None)`. */
  function FindTopic(topics: seq<Topic>, name: string): (r: Option<Topic>)
    ensures r.Some? <==> exists i :: 0 <= i < |topics| && topics[i].name == Some(name)
    ensures r.Some? ==> r.value.name == Some(name)
  {
    if topics == [] then None
    else if topics[0].name == Some(name) then Some(topics[0])
    else
      var r := FindTopic(topics[1..], name);
      assert forall i :: 1 <= i < |topics| ==> topics[i] == topics[1..][i - 1];
      r
  }

  datatype RunCounts = RunCounts(totalRuns: nat, totalStats: Stats, sevenDayRuns: nat, sevenDayStats: Stats)

  datatype Report = Report(
    playerInfo: map<string, string>,
    careerSummary: map<string, string>,
    stats: RunCounts,
    themeName: string,
    detailedRecentRuns: seq<RunDetail>)

  /** `_analyze_records`: the report on a theme's full, newest-first history. */
  function Analysis(payload: Payload, all: seq<Run>, theme: string, now: int, recentCount: int): (r: Report)
    ensures r.stats.totalRuns == |ValidRuns(all)| <= |all|
    ensures r.stats.sevenDayRuns <= r.stats.totalRuns
    ensures r.stats.totalStats.maxStreak <= r.stats.totalRuns
    ensures r.stats.sevenDayStats.maxStreak <= r.stats.sevenDayRuns
    ensures r.stats.totalStats.fifthRate.numerator == 0 && r.stats.totalStats.maxFifthStreak == 0
    ensures r.stats.sevenDayStats.fifthRate.numerator == 0 && r.stats.sevenDayStats.maxFifthStreak == 0
    ensures |r.detailedRecentRuns| == SliceLen(recentCount, |all|)
    ensures r.themeName == theme
  {
    var valid := ValidRuns(all);
    var sevenDay := SevenDayRuns(valid, now);
    SevenDayWithinValid(all, now);
    FifthStatsAlwaysZero(valid);
    FifthStatsAlwaysZero(sevenDay);
    Report(payload.gameUserInfo, payload.career,
           RunCounts(|valid|, GetStats(valid), |sevenDay|, GetStats(sevenDay)),
           theme, RecentDetails(all, recentCount))
  }

  /** `_analyze_records`, with its recent-run loop. */
  method AnalyzeRecords(payload: Payload, all: seq<Run>, theme: string, now: int, recentCount: int)
    returns (report: Report)
    ensures report == Analysis(payload, all, theme, now, recentCount)
  {
    var valid := ValidRuns(all);
    var sevenDay := SevenDayRuns(valid, now);
    var totalStats := GetStats(valid);
    var sevenDayStats := GetStats(sevenDay);
    var details := BuildRecentRuns(all, recentCount);
    report := Report(payload.gameUserInfo, payload.career,
                     RunCounts(|valid|, totalStats, |sevenDay|, sevenDayStats), theme, details);
  }

  /**
   * The analysis service over one record store. The API client is not modelled: its fetched
   * payload, its `uid` and the configured recent-run count are parameters of the analysis.
   */
  class Service {
    const store: DataManager

    constructor ()
      ensures fresh(store) && store.Valid() && store.rows == map[]
    {
      store := new DataManager();
    }

    /**
     * `get_analysis_for_theme`: no report without a payload or without a topic of that exact
     * name; a non-empty fetched history is merged first; no report when the partition read back
     * is empty; otherwise the analysis of what was read back.
     */
    method GetAnalysisForTheme(payload: Option<Payload>, uid: string, themeName: string, now: int,
                               recentCount: int)
      returns (result: Option<Report>)
      requires store.Valid()
      modifies store
      ensures store.Valid()
      ensures store.rows ==
                if payload.Some? && FindTopic(payload.value.topics, themeName).Some? && payload.value.records != []
                then Merged(old(store.rows), uid, themeName, payload.value.records)
                else old(store.rows)
      ensures payload.None? || FindTopic(payload.value.topics, themeName).None? ==> result.None?
      ensures payload.Some? && FindTopic(payload.value.topics, themeName).Some? ==>
                (result.None? <==> forall id :: !InPartition(store.rows, uid, themeName, id))
      ensures result.Some? ==>
                exists all :: IsPartitionListing(store.rows, uid, themeName, all)
                              && result.value == Analysis(payload.value, all, themeName, now, recentCount)
    {
      if payload.None? {
        return None;
      }
      var rawData := payload.value;
      var targetTopic := FindTopic(rawData.topics, themeName);
      if targetTopic.None? {
        return None;
      }
      if rawData.records != [] {
        store.MergeAndSaveRuns(uid, themeName, rawData.records);
      }
      var allRecords := store.GetAllRuns(uid, themeName);
      if allRecords == [] {
        return None;
      }
      var report := AnalyzeRecords(rawData, allRecords, themeName, now, recentCount);
      result := Some(report);
    }
  }
}
