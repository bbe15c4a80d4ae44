/**
 * The DTM tape of every step (`generateDTMTape`): the input padded with four
 * blanks, the cells of w1 marked X while storing, the separator kept visible,
 * and during comparison each matched pair marked Y/Y until the first mismatch,
 * whose w2 cell is marked N.
 */
module Tape {
  import opened Text
  import opened Records
  import opened Matching

  /**
   * The first position p < k whose pair (s[p], s[h + 1 + p]) differs, or k
   * when all k pairs agree.
   */
  function FirstMismatch(s: string, h: nat, k: nat): (m: nat)
    requires k <= h && h + 1 + k <= |s|
    ensures m <= k
    ensures forall p :: 0 <= p < m ==> PairAgrees(s, h, p)
    ensures m < k ==> !PairAgrees(s, h, m)
    decreases k
  {
    if k == 0 then 0
    else
      var m := FirstMismatch(s, h, k - 1);
      if m < k - 1 then m
      else if s[k - 1] != s[h + k] then k - 1
      else k
  }

  /** FirstMismatch is the only position with its two defining properties. */
  lemma FirstMismatchUnique(s: string, h: nat, k: nat, m: nat)
    requires k <= h && h + 1 + k <= |s| && m <= k
    requires forall p :: 0 <= p < m ==> PairAgrees(s, h, p)
    requires m < k ==> !PairAgrees(s, h, m)
    ensures FirstMismatch(s, h, k) == m
  {
  }

  /**
   * Number of pairs the comparison loop can mark at a step number:
   * `min(stepNum - hashIndex - 1, hashIndex)`, and no pair past the input.
   */
  function PairsInScope(stepNum: nat, s: string, h: nat): (k: nat)
    requires h < |s| && stepNum > h + 1
    ensures k <= h && h + 1 + k <= |s|
  {
    Min(Min(stepNum - h - 1, h), |s| - h - 1)
  }

  /**
   * A tape cell once the first m pairs are marked Y/Y, with the w2 cell of
   * pair m marked N when that pair is a mismatch.
   */
  function ComparedCell(s: string, h: nat, m: nat, mismatch: bool, j: nat): char
    requires h < |s| && j < |s| + BlankPadding
  {
    if j >= |s| then Blank
    else if j < h then (if j < m then 'Y' else 'X')
    else if j == h then '#'
    else if j - h - 1 < m then 'Y'
    else if mismatch && j - h - 1 == m then 'N'
    else s[j]
  }

  /** Cell j of the tape shown at step number stepNum, for separator index h (-1: none). */
  function TapeCell(stepNum: nat, s: string, h: int, isMatch: bool, j: nat): char
    requires -1 <= h < |s| && j < |s| + BlankPadding
  {
    var n := |s|;
    if j >= n then Blank
    else if h < 0 then s[j]
    else if stepNum <= h then (if j < stepNum then 'X' else s[j])
    else if stepNum == h + 1 then (if j < h then 'X' else if j == h then '#' else s[j])
    else if stepNum >= n + 1 && isMatch && j != h then 'Y'
    else
      var k := PairsInScope(stepNum, s, h);
      var m := FirstMismatch(s, h, k);
      ComparedCell(s, h, m, m < k, j)
  }

  function TapeSpec(stepNum: nat, s: string, h: int, isMatch: bool): (t: seq<char>)
    requires -1 <= h < |s|
    ensures |t| == |s| + BlankPadding
  {
    seq(|s| + BlankPadding, j requires 0 <= j < |s| + BlankPadding => TapeCell(stepNum, s, h, isMatch, j))
  }

  /** The input followed by the four blank cells: `[...chars, "⊔", "⊔", "⊔", "⊔"]`. */
  function Padded(s: string): (t: seq<char>)
    ensures |t| == |s| + BlankPadding
  {
    s + [Blank, Blank, Blank, Blank]
  }

  /** `generateDTMTape(stepNum, chars, hashIndex)`, on a fresh copy of the padded input. */
  method GenerateDTMTape(stepNum: nat, s: string, h: int, isMatch: bool) returns (tape: seq<char>)
    requires h == IndexOf(s, '#') && isMatch == CheckIfMatch(s)
    ensures tape == TapeSpec(stepNum, s, h, isMatch)
  {
    var n := |s|;
    var t := new char[n + BlankPadding](j => if 0 <= j < |s| then s[j] else Blank);
    assert t[..] == Padded(s);
    if stepNum <= h {
      MarkFirstPart(t, Min(stepNum, h));
      tape := t[..];
      StoreTape(stepNum, s, h, isMatch, tape);
    } else if stepNum == h + 1 {
      MarkFirstPart(t, h);
      // With no '#' (h == -1) the source writes the property "-1", which is no cell.
      if h >= 0 { t[h] := '#'; }
      tape := t[..];
      SeparatorTape(stepNum, s, h, isMatch, tape);
    } else {
      MarkFirstPart(t, h);
      if h >= 0 {
        t[h] := '#';
        ComparePairs(t, s, h, stepNum);
        if stepNum >= n + 1 && isMatch {
          MarkAllMatched(t, s, h);
        }
      }
      tape := t[..];
      CompareTape(stepNum, s, h, isMatch, tape);
    }
  }

  lemma StoreTape(stepNum: nat, s: string, h: int, isMatch: bool, cells: seq<char>)
    requires stepNum <= h < |s| && |cells| == |s| + BlankPadding
    requires forall j :: 0 <= j < |cells| ==> cells[j] == if j < stepNum then 'X' else Padded(s)[j]
    ensures cells == TapeSpec(stepNum, s, h, isMatch)
  {
  }

  lemma SeparatorTape(stepNum: nat, s: string, h: int, isMatch: bool, cells: seq<char>)
    requires stepNum == h + 1 && h < |s| && (h >= 0 ==> s[h] == '#') && |cells| == |s| + BlankPadding
    requires forall j :: 0 <= j < |cells| ==> cells[j] == if j < h then 'X' else Padded(s)[j]
    ensures cells == TapeSpec(stepNum, s, h, isMatch)
  {
  }

  lemma CompareTape(stepNum: nat, s: string, h: int, isMatch: bool, cells: seq<char>)
    requires -1 <= h < |s| && stepNum > h + 1 && |cells| == |s| + BlankPadding
    requires h < 0 ==> cells == Padded(s)
    requires h >= 0 ==>
      var k := PairsInScope(stepNum, s, h); var m := FirstMismatch(s, h, k);
      forall j :: 0 <= j < |cells| ==>
        cells[j] == if stepNum >= |s| + 1 && isMatch && j < |s| && j != h then 'Y'
                    else ComparedCell(s, h, m, m < k, j)
    ensures cells == TapeSpec(stepNum, s, h, isMatch)
  {
  }

  /** Marks the first `count` cells X and leaves the others as they were. */
  method MarkFirstPart(t: array<char>, count: int)
    requires count <= t.Length
    modifies t
    ensures forall j :: 0 <= j < t.Length ==> t[j] == if j < count then 'X' else old(t[j])
  {
    var i := 0;
    while i < count
      invariant 0 <= i <= Max(count, 0)
      invariant forall j :: 0 <= j < t.Length ==> t[j] == if j < i then 'X' else old(t[j])
    {
      t[i] := 'X';
      i := i + 1;
    }
  }

  /**
   * The comparison loop: up to `min(stepNum - h - 1, h)` pairs, each matched
   * pair marked Y/Y, stopping after marking N at the first mismatch.
   */
  method ComparePairs(t: array<char>, s: string, h: nat, stepNum: nat)
    requires h < |s| && stepNum > h + 1 && t.Length == |s| + BlankPadding
    requires forall j :: 0 <= j < t.Length ==> t[j] == ComparedCell(s, h, 0, false, j)
    modifies t
    ensures var k := PairsInScope(stepNum, s, h); var m := FirstMismatch(s, h, k);
      forall j :: 0 <= j < t.Length ==> t[j] == ComparedCell(s, h, m, m < k, j)
  {
    var n := |s|;
    var c := Min(stepNum - h - 1, h);
    ghost var pairs := n - h - 1;
    ghost var mismatch := false;
    var i := 0;
    while i < c
      invariant 0 <= i <= c
      invariant !mismatch
      invariant forall p :: 0 <= p < Min(i, pairs) ==> PairAgrees(s, h, p)
      invariant forall j :: 0 <= j < t.Length ==> t[j] == ComparedCell(s, h, Min(i, pairs), false, j)
    {
      var pos1 := i;
      var pos2 := h + 1 + i;
      if pos2 < n && s[pos1] == s[pos2] {
        t[pos1] := 'Y';
        t[pos2] := 'Y';
        forall j | 0 <= j < t.Length ensures t[j] == ComparedCell(s, h, i + 1, false, j) {
          MarkPair(s, h, i, j);
        }
      } else if pos2 < n {
        t[pos2] := 'N';
        forall j | 0 <= j < t.Length ensures t[j] == ComparedCell(s, h, i, true, j) {
          MarkMismatch(s, h, i, j);
        }
        mismatch := true;
        break;
      }
      i := i + 1;
    }
    ghost var k := PairsInScope(stepNum, s, h);
    ghost var m := if mismatch then i else Min(i, pairs);
    FirstMismatchUnique(s, h, k, m);
  }

  /** For a w#w string at its final steps: every pair is marked Y/Y. */
  method MarkAllMatched(t: array<char>, s: string, h: nat)
    requires CheckIfMatch(s) && h == IndexOf(s, '#') && t.Length == |s| + BlankPadding
    modifies t
    ensures forall j :: 0 <= j < t.Length ==>
      t[j] == if j < h || (h < j < |s|) then 'Y' else old(t[j])
  {
    MatchShape(s);
    var i := 0;
    while i < h
      invariant 0 <= i <= h
      invariant forall j :: 0 <= j < t.Length ==>
        t[j] == if j < i || (h + 1 <= j < h + 1 + i) then 'Y' else old(t[j])
    {
      t[i] := 'Y';
      t[h + 1 + i] := 'Y';
      i := i + 1;
    }
  }

  /** Marking pair i as Y/Y extends the marked prefix by one. */
  lemma MarkPair(s: string, h: nat, i: nat, j: nat)
    requires i < h && h + 1 + i < |s| && j < |s| + BlankPadding
    ensures ComparedCell(s, h, i + 1, false, j)
         == if j == i || j == h + 1 + i then 'Y' else ComparedCell(s, h, i, false, j)
  {
  }

  /** Marking the w2 cell of pair i as N records the mismatch. */
  lemma MarkMismatch(s: string, h: nat, i: nat, j: nat)
    requires i < h && h + 1 + i < |s| && j < |s| + BlankPadding
    ensures ComparedCell(s, h, i, true, j)
         == if j == h + 1 + i then 'N' else ComparedCell(s, h, i, false, j)
  {
  }

  /** The pairs (s[q], s[h + 1 + q]) for q < p all agree. */
  predicate PairsAgreeBelow(s: string, h: nat, p: nat)
    requires h + 1 + p <= |s| && p <= h
  {
    forall q :: 0 <= q < p ==> PairAgrees(s, h, q)
  }

  /** The pairs (s[q], s[h + 1 + q]) for q <= p all agree. */
  predicate PairsAgreeThrough(s: string, h: nat, p: nat)
    requires h + 1 + p < |s| && p < h
  {
    forall q :: 0 <= q <= p ==> PairAgrees(s, h, q)
  }

  /** Every tape is the input's length plus four, and its last four cells are blank. */
  lemma TapeShape(stepNum: nat, s: string, h: int, isMatch: bool)
    requires -1 <= h < |s|
    ensures |TapeSpec(stepNum, s, h, isMatch)| == |s| + BlankPadding
    ensures forall j :: |s| <= j < |s| + BlankPadding ==> TapeSpec(stepNum, s, h, isMatch)[j] == Blank
    ensures h < 0 ==> TapeSpec(stepNum, s, h, isMatch) == Padded(s)
  {
  }

  /** Step number 0 shows the untouched padded input. */
  lemma TapeAtStart(s: string, h: int, isMatch: bool)
    requires -1 <= h < |s| && (h >= 0 ==> s[h] == '#')
    ensures TapeSpec(0, s, h, isMatch) == Padded(s)
  {
  }

  /** While storing w1: exactly the first stepNum cells are X, the rest is the input. */
  lemma TapeStorePhase(stepNum: nat, s: string, h: int, isMatch: bool)
    requires stepNum <= h < |s|
    ensures forall j :: 0 <= j < |s| ==>
      TapeSpec(stepNum, s, h, isMatch)[j] == if j < stepNum then 'X' else s[j]
  {
  }

  /** At the separator: every w1 cell is X, the separator is kept and w2 is untouched. */
  lemma TapeAtSeparator(s: string, h: nat, isMatch: bool)
    requires h < |s|
    ensures var t := TapeSpec(h + 1, s, h, isMatch);
      && (forall j :: 0 <= j < h ==> t[j] == 'X')
      && t[h] == '#'
      && (forall j :: h < j < |s| ==> t[j] == s[j])
  {
  }

  lemma ComparedTape(stepNum: nat, s: string, h: nat, isMatch: bool)
    requires h < |s| && stepNum > h + 1 && !(stepNum >= |s| + 1 && isMatch)
    ensures var k := PairsInScope(stepNum, s, h); var m := FirstMismatch(s, h, k);
      forall j :: 0 <= j < |s| + BlankPadding ==>
        TapeSpec(stepNum, s, h, isMatch)[j] == ComparedCell(s, h, m, m < k, j)
  {
  }

  /**
   * During comparison (before the final override of a matching string) a pair
   * in scope whose own and earlier pairs agree is marked Y/Y, and the
   * separator stays visible.
   */
  lemma TapeMarksAgreeingPairs(stepNum: nat, s: string, h: nat, isMatch: bool)
    requires h < |s| && stepNum > h + 1 && !(stepNum >= |s| + 1 && isMatch)
    ensures var k := PairsInScope(stepNum, s, h); var t := TapeSpec(stepNum, s, h, isMatch);
      && t[h] == '#'
      && forall p :: 0 <= p < k && PairsAgreeThrough(s, h, p) ==> t[p] == 'Y' && t[h + 1 + p] == 'Y'
  {
    var k := PairsInScope(stepNum, s, h);
    var m := FirstMismatch(s, h, k);
    ComparedTape(stepNum, s, h, isMatch);
    forall p | 0 <= p < k && PairsAgreeThrough(s, h, p) ensures p < m {
    }
  }

  /** The first disagreeing pair in scope gets N on its w2 cell and keeps X on its w1 cell. */
  lemma TapeMarksFirstMismatch(stepNum: nat, s: string, h: nat, isMatch: bool)
    requires h < |s| && stepNum > h + 1 && !(stepNum >= |s| + 1 && isMatch)
    ensures var k := PairsInScope(stepNum, s, h); var t := TapeSpec(stepNum, s, h, isMatch);
      forall p :: 0 <= p < k && PairsAgreeBelow(s, h, p) && !PairAgrees(s, h, p) ==>
        t[p] == 'X' && t[h + 1 + p] == 'N'
  {
    var k := PairsInScope(stepNum, s, h);
    var m := FirstMismatch(s, h, k);
    ComparedTape(stepNum, s, h, isMatch);
    forall p | 0 <= p < k && PairsAgreeBelow(s, h, p) && !PairAgrees(s, h, p) ensures p == m {
    }
  }

  /** A pair out of scope, or after a disagreement, is left unmarked. */
  lemma TapeLeavesLaterPairs(stepNum: nat, s: string, h: nat, isMatch: bool)
    requires h < |s| && stepNum > h + 1 && !(stepNum >= |s| + 1 && isMatch)
    ensures var k := PairsInScope(stepNum, s, h); var t := TapeSpec(stepNum, s, h, isMatch);
      forall p :: 0 <= p < |s| - h - 1 && (p >= k || !PairsAgreeBelow(s, h, p)) ==>
        t[h + 1 + p] == s[h + 1 + p] && (p < h ==> t[p] == 'X')
  {
    var k := PairsInScope(stepNum, s, h);
    var m := FirstMismatch(s, h, k);
    ComparedTape(stepNum, s, h, isMatch);
    assert forall p :: 0 <= p <= m ==> PairsAgreeBelow(s, h, p);
    forall p | 0 <= p < |s| - h - 1 && p < k && !PairsAgreeBelow(s, h, p) ensures m < p {
    }
  }

  /** At the final steps of a w#w string every cell except the separator is Y. */
  lemma TapeFinalMatched(stepNum: nat, s: string, h: nat)
    requires h < |s| && stepNum >= |s| + 1 && stepNum > h + 1
    ensures forall j :: 0 <= j < |s| ==> TapeSpec(stepNum, s, h, true)[j] == if j == h then '#' else 'Y'
  {
  }
}
