/** The few Python string operations the analysis relies on, with Python's meaning. */
module Text {

  /** `sep.join(parts)`. */
  function Join(sep: string, parts: seq<string>): (r: string)
    ensures |parts| > 0 ==> StartsWith(r, parts[0])
    ensures |parts| == 1 ==> r == parts[0]
  {
    if |parts| == 0 then ""
    else if |parts| == 1 then parts[0]
    else parts[0] + sep + Join(sep, parts[1..])
  }

  /** Joining a first part onto a non-empty rest puts exactly one separator between them. */
  lemma {:induction false} JoinCons(sep: string, first: string, rest: seq<string>)
    requires rest != []
    ensures Join(sep, [first] + rest) == first + sep + Join(sep, rest)
  {
  }

  /** `s.startswith(prefix)`. */
  predicate StartsWith(s: string, prefix: string)
    ensures StartsWith(s, prefix) <==> |prefix| <= |s| && forall k :: 0 <= k < |prefix| ==> s[k] == prefix[k]
  {
    |prefix| <= |s| && s[..|prefix|] == prefix
  }

  /** `t in s` for strings: some suffix of `s` starts with `t`. */
  predicate Contains(s: string, t: string)
    ensures Contains(s, t) <==> exists i :: 0 <= i <= |s| && StartsWith(s[i..], t)
    decreases |s|
  {
    assert s[0..] == s;
    assert forall i :: 1 <= i <= |s| ==> s[i..] == s[1..][i - 1..];
    StartsWith(s, t) || (|s| > 0 && Contains(s[1..], t))
  }

  /** `t` cannot occur in `s` when no position of `s` holding `t`'s first character starts a copy of `t`. */
  lemma {:induction false} NotContained(s: string, t: string)
    requires |t| > 0
    requires forall i :: 0 <= i < |s| && s[i] == t[0] ==> !StartsWith(s[i..], t)
    ensures !Contains(s, t)
    decreases |s|
  {
    if |s| > 0 {
      assert s[0..] == s;
      forall i | 0 <= i < |s[1..]| && s[1..][i] == t[0]
        ensures !StartsWith(s[1..][i..], t)
      {
        assert s[1..][i..] == s[i + 1..];
      }
      NotContained(s[1..], t);
    }
  }
}
