/**
 * Outcome classification of one run (`RogueService._determine_ending`): a label and a
 * "rolling" flag, both decided by which relic ids appear in the run's relic list.
 */
module Endings {
  import opened Wrappers
  import opened Text
  import opened Runs

  // The relic table (RELIC_MAPPING).
  const Ending2Relic := "rogue_4_relic_final_1"
  const Ending3Relic := "rogue_4_relic_final_4"
  const Ending4Relic := "rogue_4_relic_final_6"
  const Ending5Relic := "rogue_4_relic_final_11"
  const EggSmallRelic := "rogue_4_relic_final_8"
  const EggBigRelic := "rogue_4_relic_final_9"
  const EggSuperRelic := "rogue_4_relic_final_10"
  const RollingRelic := "rogue_4_relic_explore_7"

  const SuccessPrefix := "完成结局: "
  const FailurePrefix := "驻足于: "
  const RollingWord := "滚动"
  const RollingSuffix := " (滚动)"
  const DefaultStage := "事件"

  datatype Outcome = Outcome(text: string, rolling: bool)

  /** `last_stage or '事件'`: a missing or empty stage reads as the event stage. */
  function StageText(lastStage: Option<string>): (r: string)
    ensures lastStage.Some? && lastStage.value != "" ==> r == lastStage.value
    ensures lastStage.None? || lastStage.value == "" ==> r == DefaultStage
  {
    if lastStage.Some? && lastStage.value != "" then lastStage.value else DefaultStage
  }

  /**
   * `ending_numbers`: the ending table ("2", "3", "4", "5") in its declared order, keeping the
   * endings whose relic is present.
   */
  function EndingNumbers(relics: seq<string>): (nums: seq<string>)
    ensures |nums| <= 4
    ensures forall k :: 0 <= k < |nums| ==> nums[k] in {"2", "3", "4", "5"}
  {
    (if Ending2Relic in relics then ["2"] else [])
    + (if Ending3Relic in relics then ["3"] else [])
    + (if Ending4Relic in relics then ["4"] else [])
    + (if Ending5Relic in relics then ["5"] else [])
  }

  /** The ending digits of a run, written out one ending at a time. */
  function EndingDigits(relics: seq<string>): string {
    (if Ending2Relic in relics then "2" else "")
    + (if Ending3Relic in relics then "3" else "")
    + (if Ending4Relic in relics then "4" else "")
    + (if Ending5Relic in relics then "5" else "")
  }

  /** The egg part appended when ending 5 is reached: the first of super, big, small that is present. */
  function Egg(relics: seq<string>): (r: Option<string>)
    ensures r.Some? ==> Ending5Relic in relics
    ensures r.Some? ==> r.value in {"超大蛋", "大蛋", "小蛋"}
    ensures Ending5Relic in relics && EggSuperRelic in relics ==> r == Some("超大蛋")
    ensures Ending5Relic in relics && EggSuperRelic !in relics && EggBigRelic in relics ==> r == Some("大蛋")
    ensures r == Some("小蛋") ==> EggSmallRelic in relics && EggBigRelic !in relics && EggSuperRelic !in relics
    ensures r.None? && Ending5Relic in relics ==>
              EggSmallRelic !in relics && EggBigRelic !in relics && EggSuperRelic !in relics
    ensures Ending5Relic in relics && EggSuperRelic !in relics && EggBigRelic !in relics ==>
              (EggSmallRelic in relics ==> r == Some("小蛋")) && (EggSmallRelic !in relics ==> r.None?)
  {
    if Ending5Relic !in relics then None
    else if EggSuperRelic in relics then Some("超大蛋")
    else if EggBigRelic in relics then Some("大蛋")
    else if EggSmallRelic in relics then Some("小蛋")
    else None
  }

  /** The part of a won label after the rolling word: "1 " or the ending digits, then the egg. */
  function WinCore(relics: seq<string>): string {
    var egg := Egg(relics);
    (if Ending2Relic in relics then "" else "1 ") + EndingDigits(relics)
    + (if egg.Some? then " " + egg.value else "")
  }

  /**
   * The reference classification, written as a flat concatenation: a failed run stops at its
   * stage; a won run lists an optional rolling word, then "1" unless ending 2 was reached, then
   * the ending digits, then the egg, separated by single spaces (WinCore).
   */
  function Classify(run: Run): (o: Outcome)
    ensures o.rolling <==> RollingRelic in run.relics
    ensures run.success != 1 <==> StartsWith(o.text, FailurePrefix)
    ensures run.success == 1 <==> StartsWith(o.text, SuccessPrefix)
  {
    var rolling := RollingRelic in run.relics;
    if run.success != 1 then
      var text := FailurePrefix + StageText(run.lastStage) + (if rolling then RollingSuffix else "");
      PrefixesExclusive(text, FailurePrefix, SuccessPrefix);
      Outcome(text, rolling)
    else
      var text := SuccessPrefix + ((if rolling then RollingWord + " " else "") + WinCore(run.relics));
      PrefixesExclusive(text, SuccessPrefix, FailurePrefix);
      Outcome(text, rolling)
  }

  /** A string that starts with `p` does not start with a `q` whose first character differs. */
  lemma PrefixesExclusive(s: string, p: string, q: string)
    requires StartsWith(s, p) && |p| > 0 && |q| > 0 && p[0] != q[0]
    ensures !StartsWith(s, q)
  {
  }

  /**
   * `_determine_ending`: the label of a won run is built as a list of parts (insert "1" after the
   * optional rolling word, append the joined ending numbers and the egg) joined with spaces.
   */
  method DetermineEnding(run: Run) returns (endingText: string, isRolling: bool)
    ensures Outcome(endingText, isRolling) == Classify(run)
  {
    var relics := run.relics;
    isRolling := RollingRelic in relics;

    if run.success != 1 {
      endingText := FailurePrefix + StageText(run.lastStage);
      if isRolling {
        endingText := endingText + RollingSuffix;
      }
      return;
    }

    var parts: seq<string> := if isRolling then [RollingWord] else [];
    var numbers := EndingNumbers(relics);
    EndingNumbersMeaning(relics);

    if "2" !in numbers {
      var at := if isRolling then 1 else 0;
      parts := parts[..at] + ["1"] + parts[at..];
    }
    ghost var head := parts;
    assert head == (if isRolling then [RollingWord] else []) + (if Ending2Relic in relics then [] else ["1"]);

    var digits := Join("", numbers);
    EndingNumbersJoin(relics);
    parts := parts + [digits];

    ghost var egg := Egg(relics);
    if "5" in numbers {
      if EggSuperRelic in relics {
        parts := parts + ["超大蛋"];
      } else if EggBigRelic in relics {
        parts := parts + ["大蛋"];
      } else if EggSmallRelic in relics {
        parts := parts + ["小蛋"];
      }
    }
    assert parts == head + [digits] + (if egg.Some? then [egg.value] else []);

    JoinParts(isRolling, Ending2Relic !in relics, digits, egg);
    endingText := SuccessPrefix + Join(" ", parts);
  }

  /** "k" is among the ending numbers exactly when ending k's relic is present. */
  lemma EndingNumbersMeaning(relics: seq<string>)
    ensures "2" in EndingNumbers(relics) <==> Ending2Relic in relics
    ensures "5" in EndingNumbers(relics) <==> Ending5Relic in relics
  {
  }

  /** The ending numbers are strictly increasing, so `sorted` leaves them as they are. */
  lemma EndingNumbersSorted(relics: seq<string>)
    ensures var ns := EndingNumbers(relics);
            forall i, j :: 0 <= i < j < |ns| ==> |ns[i]| == 1 && |ns[j]| == 1 && ns[i][0] < ns[j][0]
  {
  }

  /** Joining the ending numbers with no separator gives the ending digits. */
  lemma EndingNumbersJoin(relics: seq<string>)
    ensures Join("", EndingNumbers(relics)) == EndingDigits(relics)
  {
    var ns := EndingNumbers(relics);
    if |ns| > 1 {
      JoinCons("", ns[0], ns[1..]);
      assert ns == [ns[0]] + ns[1..];
      if |ns| > 2 {
        JoinCons("", ns[1], ns[2..]);
        assert ns[1..] == [ns[1]] + ns[2..];
        if |ns| > 3 {
          JoinCons("", ns[2], ns[3..]);
          assert ns[2..] == [ns[2]] + ns[3..];
        }
      }
    }
  }

  /** Joining the label parts with spaces: each optional part brings its own separator. */
  lemma JoinParts(rolling: bool, one: bool, digits: string, egg: Option<string>)
    ensures Join(" ", (if rolling then [RollingWord] else []) + (if one then ["1"] else []) + [digits]
                      + (if egg.Some? then [egg.value] else []))
            == (if rolling then RollingWord + " " else "")
               + ((if one then "1 " else "") + digits + (if egg.Some? then " " + egg.value else ""))
  {
    var tail := [digits] + (if egg.Some? then [egg.value] else []);
    if egg.Some? {
      JoinCons(" ", digits, [egg.value]);
    }
    var mid := (if one then ["1"] else []) + tail;
    if one {
      JoinCons(" ", "1", tail);
      assert mid == ["1"] + tail;
    }
    if rolling {
      JoinCons(" ", RollingWord, mid);
      assert [RollingWord] + mid == [RollingWord] + (if one then ["1"] else []) + tail;
    }
    assert (if rolling then [RollingWord] else []) + (if one then ["1"] else []) + [digits]
           + (if egg.Some? then [egg.value] else []) == (if rolling then [RollingWord] else []) + mid;
  }

  /** A won run whose only ending relic is ending 3, and that is not rolling, is labelled "完成结局: 1 3". */
  lemma OnlyEnding3Label(run: Run)
    requires run.success == 1 && Ending3Relic in run.relics
    requires Ending2Relic !in run.relics && Ending4Relic !in run.relics && Ending5Relic !in run.relics
    requires RollingRelic !in run.relics
    ensures Classify(run) == Outcome("完成结局: 1 3", false)
  {
  }

  /** A won run with no ending relic, and that is not rolling, is labelled "完成结局: 1 ", with an empty last part. */
  lemma NoRelicsLabel(run: Run)
    requires run.success == 1 && RollingRelic !in run.relics
    requires Ending2Relic !in run.relics && Ending3Relic !in run.relics
    requires Ending4Relic !in run.relics && Ending5Relic !in run.relics
    ensures Classify(run) == Outcome("完成结局: 1 ", false)
  {
  }

  /** No character of `s` is `c`. */
  ghost predicate FreeOf(s: string, c: char) {
    forall k :: 0 <= k < |s| ==> s[k] != c
  }

  /** The core of a won label begins with "1" or with ending 2's digit, and never holds the rolling word's first character. */
  lemma WinCoreShape(relics: seq<string>)
    ensures |WinCore(relics)| > 0
    ensures WinCore(relics)[0] == '1' || WinCore(relics)[0] == '2'
    ensures FreeOf(WinCore(relics), '滚')
  {
  }

  /**
   * The "fifth ending" test of the statistics can never succeed on a won run: such a label
   * continues after "完成结局: " with "1", "2" or the rolling word, and the rolling word, the only
   * place "滚" occurs, is always followed by "1" or "2". The lemma is about won runs only: a failed
   * run's label repeats its stage, which may itself contain "滚动 5"; the statistics apply the test
   * to won runs alone, so the conclusion about them is unaffected.
   */
  lemma WonLabelNeverFifth(run: Run)
    requires run.success == 1
    ensures !StartsWith(Classify(run).text, SuccessPrefix + "5")
    ensures !Contains(Classify(run).text, RollingWord + " 5")
  {
    var rolling := RollingRelic in run.relics;
    WinCoreShape(run.relics);
    NeverFifth(rolling, WinCore(run.relics));
  }

  /** The string argument of WonLabelNeverFifth, with the core's shape as the only assumption. */
  lemma NeverFifth(rolling: bool, core: string)
    requires |core| > 0 && (core[0] == '1' || core[0] == '2') && FreeOf(core, '滚')
    ensures var text := SuccessPrefix + ((if rolling then RollingWord + " " else "") + core);
            !StartsWith(text, SuccessPrefix + "5") && !Contains(text, RollingWord + " 5")
  {
    var rest := (if rolling then RollingWord + " " else "") + core;
    var text := SuccessPrefix + rest;
    assert |SuccessPrefix| == 6;
    forall k | 0 <= k < |text|
      ensures text[k] == '滚' ==> rolling && k == 6
    {
      if k < 6 {
        assert text[k] == SuccessPrefix[k];
      } else if !rolling {
        assert text[k] == core[k - 6];
      } else if k >= 9 {
        assert text[k] == core[k - 9];
      }
    }
    assert text[..7][6] == text[6] == rest[0];
    if rolling {
      assert text[9] == core[0];
    }
    var t := RollingWord + " 5";
    forall i | 0 <= i < |text| && text[i] == t[0]
      ensures !StartsWith(text[i..], t)
    {
      assert i == 6;
    }
    NotContained(text, t);
  }
}
