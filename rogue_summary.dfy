/**
 * The per-theme summary of the player-info payload (`RogueClient.get_rogue_summary`). The player
 * info is a parameter; fetching it over the network is not modelled.
 */
module RogueSummary {
  import opened Wrappers

  /** One entry of `rogue.records`: its `rogueId`, `relicCnt` and `bank`, each possibly absent. */
  datatype RogueRecord = RogueRecord(
    rogueId: Option<string>,
    relicCnt: Option<int>,
    bank: Option<map<string, string>>)

  /** An entry of `rogueInfoMap`; its `name` may be absent. */
  datatype ThemeInfo = ThemeInfo(name: Option<string>)

  /**
   * The `rogue` section. `records` may be absent; `otherKeys` are the section's remaining keys,
   * so that an empty section (`{}`) can be told apart from one listing no records.
   */
  datatype RogueSection = RogueSection(records: Option<seq<RogueRecord>>, otherKeys: set<string>) {
    /** `not rogue_data` for a dictionary. */
    predicate IsEmpty() {
      records.None? && otherKeys == {}
    }
  }

  /** The parts of the player info the summary reads; absent parts are `None`. */
  datatype PlayerInfo = PlayerInfo(rogue: Option<RogueSection>, rogueInfoMap: Option<map<string, ThemeInfo>>)

  datatype ThemeSummary = ThemeSummary(name: string, relicCount: Option<int>, investmentSystem: map<string, string>)

  datatype Summary = Summary(themes: seq<ThemeSummary>)

  /** `str(theme_id)`: a missing id prints as "None". */
  function IdText(id: Option<string>): string {
    id.GetOr("None")
  }

  /** The name of a theme: its `rogueInfoMap` name, or "未知主题 (<id>)" when it has none. */
  function ThemeName(infoMap: map<string, ThemeInfo>, id: Option<string>): (name: string)
    ensures id.Some? && id.value in infoMap && infoMap[id.value].name.Some? ==> name == infoMap[id.value].name.value
    ensures id.None? || id.value !in infoMap || infoMap[id.value].name.None? ==> name == "未知主题 (" + IdText(id) + ")"
  {
    var info := if id.Some? && id.value in infoMap then infoMap[id.value] else ThemeInfo(None);
    info.name.GetOr("未知主题 (" + IdText(id) + ")")
  }

  /** The summary entry of one record. */
  function ThemeOf(infoMap: map<string, ThemeInfo>, record: RogueRecord): (theme: ThemeSummary)
    ensures theme.relicCount == record.relicCnt
    ensures record.bank.Some? ==> theme.investmentSystem == record.bank.value
    ensures record.bank.None? ==> theme.investmentSystem == map[]
  {
    ThemeSummary(ThemeName(infoMap, record.rogueId), record.relicCnt, record.bank.GetOr(map[]))
  }

  /**
   * `get_rogue_summary`: nothing without player info or with a missing or empty rogue section;
   * otherwise one theme entry per record, in record order.
   */
  method GetRogueSummary(playerInfo: Option<PlayerInfo>) returns (summary: Option<Summary>)
    ensures playerInfo.None? ==> summary.None?
    ensures playerInfo.Some? ==>
              (summary.None? <==> playerInfo.value.rogue.None? || playerInfo.value.rogue.value.IsEmpty())
    ensures summary.Some? ==>
              var records := playerInfo.value.rogue.value.records.GetOr([]);
              var infoMap := playerInfo.value.rogueInfoMap.GetOr(map[]);
              && |summary.value.themes| == |records|
              && forall i :: 0 <= i < |records| ==>
                   && summary.value.themes[i].name == ThemeName(infoMap, records[i].rogueId)
                   && summary.value.themes[i].relicCount == records[i].relicCnt
                   && summary.value.themes[i].investmentSystem == records[i].bank.GetOr(map[])
  {
    if playerInfo.None? {
      return None;
    }
    var rogueData := playerInfo.value.rogue;
    if rogueData.None? || rogueData.value.IsEmpty() {
      return None;
    }

    var themes: seq<ThemeSummary> := [];
    var records := rogueData.value.records.GetOr([]);
    var infoMap := playerInfo.value.rogueInfoMap.GetOr(map[]);

    for i := 0 to |records|
      invariant |themes| == i
      invariant forall j :: 0 <= j < i ==> themes[j] == ThemeOf(infoMap, records[j])
    {
      var record := records[i];
      var themeName := ThemeName(infoMap, record.rogueId);
      themes := themes + [ThemeSummary(themeName, record.relicCnt, record.bank.GetOr(map[]))];
    }
    summary := Some(Summary(themes));
  }
}
