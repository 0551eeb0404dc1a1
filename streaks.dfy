/** Longest block of consecutive wins (`RogueService._calculate_max_streak`). */
module Streaks {

  /** The number of `true` values at the end of `s`. */
  function TrailingWins(s: seq<bool>): (r: nat)
    ensures r <= |s|
  {
    if s == [] || !s[|s| - 1] then 0 else TrailingWins(s[..|s| - 1]) + 1
  }

  /** The reference definition: the best trailing block over all prefixes of `s`. */
  function LongestStreak(s: seq<bool>): (r: nat)
    ensures r <= |s|
  {
    if s == [] then 0
    else
      var before := LongestStreak(s[..|s| - 1]);
      var here := TrailingWins(s);
      if before < here then here else before
  }

  /** Positions `i` up to (not including) `j` of `s` are all `true`. */
  ghost predicate TrueBlock(s: seq<bool>, i: int, j: int) {
    0 <= i <= j <= |s| && forall k :: i <= k < j ==> s[k]
  }

  /** The trailing wins form a block, and every block reaching the end of `s` is at most that long. */
  lemma {:induction false} TrailingWinsBlock(s: seq<bool>)
    ensures TrueBlock(s, |s| - TrailingWins(s), |s|)
    ensures forall i :: TrueBlock(s, i, |s|) ==> |s| - i <= TrailingWins(s)
  {
    if s != [] && s[|s| - 1] {
      var p := s[..|s| - 1];
      TrailingWinsBlock(p);
      forall i | TrueBlock(s, i, |s|)
        ensures |s| - i <= TrailingWins(s)
      {
        if i < |s| {
          assert TrueBlock(p, i, |p|);
        }
      }
    }
  }

  /**
   * LongestStreak is the length of a longest block of consecutive `true` values: some block
   * has that length and no block is longer.
   */
  lemma {:induction false} LongestStreakIsLongest(s: seq<bool>)
    ensures exists i, j :: TrueBlock(s, i, j) && j - i == LongestStreak(s)
    ensures forall i, j :: TrueBlock(s, i, j) ==> j - i <= LongestStreak(s)
  {
    if s == [] {
      assert TrueBlock(s, 0, 0);
    } else {
      var p := s[..|s| - 1];
      LongestStreakIsLongest(p);
      TrailingWinsBlock(s);
      if LongestStreak(p) < TrailingWins(s) {
        assert TrueBlock(s, |s| - TrailingWins(s), |s|);
      } else {
        var i, j :| TrueBlock(p, i, j) && j - i == LongestStreak(p);
        assert TrueBlock(s, i, j);
      }
      forall i, j | TrueBlock(s, i, j)
        ensures j - i <= LongestStreak(s)
      {
        if j < |s| {
          assert TrueBlock(p, i, j);
        }
      }
    }
  }

  /** With no `true` value there is no streak. */
  lemma AllLossesNoStreak(s: seq<bool>)
    requires forall k :: 0 <= k < |s| ==> !s[k]
    ensures LongestStreak(s) == 0
  {
  }

  /** Turning some `false` values into `true` never shortens the longest streak. */
  lemma StreakMonotone(a: seq<bool>, b: seq<bool>)
    requires |a| == |b|
    requires forall k :: 0 <= k < |a| && a[k] ==> b[k]
    ensures LongestStreak(a) <= LongestStreak(b)
  {
    LongestStreakIsLongest(a);
    LongestStreakIsLongest(b);
    var i, j :| TrueBlock(a, i, j) && j - i == LongestStreak(a);
    assert TrueBlock(b, i, j);
  }

  /**
   * `_calculate_max_streak`: one pass keeping the best closed streak and the open one; the best
   * closed streak is only updated when a loss closes the open streak.
   */
  method CalculateMaxStreak(flags: seq<bool>) returns (best: nat)
    ensures best == LongestStreak(flags)
  {
    var maxStreak: nat, currentStreak: nat := 0, 0;
    for i := 0 to |flags|
      invariant currentStreak == TrailingWins(flags[..i])
      invariant maxStreak <= LongestStreak(flags[..i])
      invariant LongestStreak(flags[..i]) == if maxStreak < currentStreak then currentStreak else maxStreak
    {
      assert flags[..i + 1][..i] == flags[..i];
      if flags[i] {
        currentStreak := currentStreak + 1;
      } else {
        maxStreak := if maxStreak < currentStreak then currentStreak else maxStreak;
        currentStreak := 0;
      }
    }
    assert flags[..|flags|] == flags;
    best := if maxStreak < currentStreak then currentStreak else maxStreak;
  }
}
