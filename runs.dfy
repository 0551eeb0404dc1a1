/**
 * One roguelike run record as the companion API reports it and as the record store keeps it.
 * Fields that the code reads with different defaults in different places are optional (`score`,
 * `modeGrade`, `lastStage`, `band.name`); the others appear with the one default the code reads them
 * with: a missing id is the empty string, a missing time stamp or count is 0, a missing list is empty.
 */
module Runs {
  import opened Wrappers

  /** An entry of `totemList`: an item id and its `count`. */
  datatype Totem = Totem(id: string, count: int)

  datatype Run = Run(
    id: string,                 // `id`; empty when absent
    startTs: int,               // `startTs`, epoch seconds
    endTs: int,                 // `endTs`, epoch seconds
    success: int,               // `success`; 1 means the run was won
    score: Option<int>,         // `score`; 0 in the statistics, "N/A" in the details when absent
    lastStage: Option<string>,  // `lastStage`, where a failed run stopped
    relics: seq<string>,        // `gainRelicList`
    totems: seq<Totem>,         // `totemList`
    modeGrade: Option<int>,     // `modeGrade`, the difficulty; "N/A" when absent
    bandName: Option<string>    // `band.name`, the squad
  )
}
