/** `getOrdinalSuffix`: the English ordinal suffix of a leaderboard rank,
    computed the way the JavaScript expression computes it. */
module Helpers {
  import opened Wrappers

  const SUFFIXES: seq<string> := ["th", "st", "nd", "rd"]

  /** JavaScript's `%`: the remainder truncates toward zero, so it takes the
      sign of the dividend (Dafny's `%` never returns a negative value). */
  function JsRem(a: int, b: int): (r: int)
    requires b > 0
    ensures a >= 0 ==> 0 <= r < b
    ensures a < 0 ==> -b < r <= 0
  {
    if a >= 0 then a % b else -((-a) % b)
  }

  /** JavaScript array read: `undefined` outside the array. */
  function At(s: seq<string>, i: int): (r: Option<string>)
    ensures r.Some? <==> 0 <= i < |s|
    ensures r.Some? ==> r.value == s[i]
  {
    if 0 <= i < |s| then Some(s[i]) else None
  }

  /** JavaScript's `a || b` on an optional string: `undefined` and "" are falsy. */
  function OrElse(a: Option<string>, b: string): string
  {
    if a.Some? && a.value != "" then a.value else b
  }

  function OrdinalSuffix(rank: int): (s: string)
    ensures s in SUFFIXES
  {
    var value := JsRem(rank, 100);
    OrElse(At(SUFFIXES, JsRem(value - 20, 10)), OrElse(At(SUFFIXES, value), SUFFIXES[0]))
  }

  /** The rule English uses: 11th, 12th, 13th, otherwise the last digit decides. */
  function EnglishSuffix(v: nat): string
  {
    if 11 <= v <= 13 then "th"
    else if v % 10 == 1 then "st"
    else if v % 10 == 2 then "nd"
    else if v % 10 == 3 then "rd"
    else "th"
  }

  /** The suffix of a rank is decided by the rank's last two digits. */
  lemma OrdinalSuffixByLastTwoDigits(rank: int)
    ensures OrdinalSuffix(rank) == OrdinalSuffix(JsRem(rank, 100))
  {
    var v := JsRem(rank, 100);
    assert JsRem(v, 100) == v;
  }

  /** For every non-negative rank the expression yields the English suffix of
      `rank % 100`; every negative rank gets "th". */
  lemma OrdinalSuffixIsEnglish(rank: int)
    ensures rank >= 0 ==> OrdinalSuffix(rank) == EnglishSuffix(rank % 100)
    ensures rank < 0 ==> OrdinalSuffix(rank) == "th"
  {
    var value := JsRem(rank, 100);
    var idx := JsRem(value - 20, 10);
    if rank >= 0 {
      assert value == rank % 100;
      if value >= 20 {
        assert idx == value % 10;
      } else {
        assert idx == -((20 - value) % 10);
        assert idx == 0 <==> value == 0 || value == 10;
      }
    } else {
      assert -99 <= value <= 0;
      assert -9 <= idx <= 0;
    }
  }

  lemma OrdinalSuffixExamples()
    ensures OrdinalSuffix(1) == "st" && OrdinalSuffix(2) == "nd" && OrdinalSuffix(3) == "rd"
    ensures OrdinalSuffix(4) == "th" && OrdinalSuffix(10) == "th" && OrdinalSuffix(11) == "th"
    ensures OrdinalSuffix(12) == "th" && OrdinalSuffix(13) == "th" && OrdinalSuffix(20) == "th"
    ensures OrdinalSuffix(21) == "st" && OrdinalSuffix(24) == "th" && OrdinalSuffix(100) == "th"
    ensures OrdinalSuffix(101) == "st" && OrdinalSuffix(111) == "th" && OrdinalSuffix(112) == "th"
  {
    OrdinalSuffixIsEnglish(1); OrdinalSuffixIsEnglish(2); OrdinalSuffixIsEnglish(3);
    OrdinalSuffixIsEnglish(4); OrdinalSuffixIsEnglish(10); OrdinalSuffixIsEnglish(11);
    OrdinalSuffixIsEnglish(12); OrdinalSuffixIsEnglish(13); OrdinalSuffixIsEnglish(20);
    OrdinalSuffixIsEnglish(21); OrdinalSuffixIsEnglish(24); OrdinalSuffixIsEnglish(100);
    OrdinalSuffixIsEnglish(101); OrdinalSuffixIsEnglish(111); OrdinalSuffixIsEnglish(112);
  }
}
