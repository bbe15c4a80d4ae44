/**
 * The w#w match check and the fixed catalogue of test strings
 * (`machineData.testStrings`, `checkIfMatch`).
 */
module Matching {

  /** `str.indexOf(c)`: the first index holding c, or -1 when c does not occur. */
  function IndexOf(s: string, c: char): (r: int)
    ensures -1 <= r < |s|
    ensures r == -1 <==> c !in s
    ensures r >= 0 ==> s[r] == c && c !in s[..r]
  {
    if |s| == 0 then -1
    else if s[0] == c then 0
    else
      var r := IndexOf(s[1..], c);
      assert s[1..][..if r < 0 then 0 else r] == s[1..if r < 0 then 1 else r + 1];
      if r == -1 then -1 else r + 1
  }

  /** Pair p of the comparison: w1's cell p and w2's cell p hold the same character. */
  predicate PairAgrees(s: string, h: nat, p: nat)
    requires h + 1 + p < |s|
  {
    s[p] == s[h + 1 + p]
  }

  /** The two halves around the first '#': equal halves make a w#w string. */
  function CheckIfMatch(s: string): (r: bool)
    ensures r ==> '#' in s
  {
    var h := IndexOf(s, '#');
    h != -1 && |s| == 2 * h + 1 && forall p :: 0 <= p < h ==> PairAgrees(s, h, p)
  }

  /**
   * The match check holds exactly when some '#' with no '#' before it has
   * equal halves around it; with no '#' at all it fails.
   */
  lemma MatchMeaning(s: string)
    ensures '#' !in s ==> !CheckIfMatch(s)
    ensures CheckIfMatch(s) <==>
      exists h :: 0 <= h < |s| && s[h] == '#' && '#' !in s[..h] && s[..h] == s[h + 1..]
  {
    var h := IndexOf(s, '#');
    if CheckIfMatch(s) {
      HalvesAgree(s, h);
      assert s[h] == '#' && '#' !in s[..h] && s[..h] == s[h + 1..];
    }
    forall h' | 0 <= h' < |s| && s[h'] == '#' && '#' !in s[..h'] ensures h' == h {
    }
  }

  /** A w#w string has equal halves, so its length is odd and its '#' sits in the middle. */
  lemma MatchShape(s: string)
    requires CheckIfMatch(s)
    ensures IndexOf(s, '#') >= 0 && |s| == 2 * IndexOf(s, '#') + 1
  {
    var h := IndexOf(s, '#');
    assert |s[..h]| == |s[h + 1..]|;
  }

  datatype TestString = TestString(id: string, input: string, description: string, expected: bool)

  /** `machineData.testStrings`. */
  const TestStrings: seq<TestString> := [
    TestString("ab#ab", "ab#ab", "Matching strings w#w", true),
    TestString("abc#abc", "abc#abc", "Longer matching strings", true),
    TestString("ab#ba", "ab#ba", "Non-matching (reversed)", false),
    TestString("ab#ac", "ab#ac", "Non-matching (different)", false),
    TestString("a#a", "a#a", "Single character match", true)
  ]

  /** Every catalogue entry states the outcome the direct comparison computes, and has a '#'. */
  lemma CatalogConsistent()
    ensures forall i :: 0 <= i < |TestStrings| ==>
      '#' in TestStrings[i].input && TestStrings[i].expected == CheckIfMatch(TestStrings[i].input)
  {
    forall i | 0 <= i < |TestStrings|
      ensures '#' in TestStrings[i].input && TestStrings[i].expected == CheckIfMatch(TestStrings[i].input)
    {
      var t := TestStrings[i];
      if i == 0 { Entry(t.input, "ab", "ab"); }
      else if i == 1 { Entry(t.input, "abc", "abc"); }
      else if i == 2 { Entry(t.input, "ab", "ba"); }
      else if i == 3 { Entry(t.input, "ab", "ac"); }
      else { Entry(t.input, "a", "a"); }
    }
  }

  /** A string built as w1 + "#" + w2 with no '#' in w1 matches exactly when w1 == w2. */
  lemma Entry(s: string, w1: string, w2: string)
    requires s == w1 + "#" + w2 && '#' !in w1
    ensures '#' in s && CheckIfMatch(s) == (w1 == w2)
  {
    assert s[|w1|] == '#';
    assert s[..|w1|] == w1 && s[|w1| + 1..] == w2;
    HalvesAt(s, |w1|);
  }

  /** Evaluating the match check once the position of the first '#' is known. */
  lemma HalvesAt(s: string, h: nat)
    requires h < |s| && s[h] == '#' && '#' !in s[..h]
    ensures IndexOf(s, '#') == h
    ensures CheckIfMatch(s) == (s[..h] == s[h + 1..])
  {
    HalvesAgree(s, h);
  }

  /** `w1 === w2` for the two sides of position h, compared pair by pair. */
  lemma HalvesAgree(s: string, h: nat)
    requires h < |s|
    ensures (s[..h] == s[h + 1..]) == (|s| == 2 * h + 1 && forall p :: 0 <= p < h ==> PairAgrees(s, h, p))
  {
    if |s| == 2 * h + 1 && forall p :: 0 <= p < h ==> PairAgrees(s, h, p) {
      forall p | 0 <= p < h ensures s[..h][p] == s[h + 1..][p] {
        assert PairAgrees(s, h, p);
      }
    }
    if s[..h] == s[h + 1..] {
      assert |s[..h]| == |s[h + 1..]|;
      forall p | 0 <= p < h ensures PairAgrees(s, h, p) {
        assert s[..h][p] == s[h + 1..][p];
      }
    }
  }
}
