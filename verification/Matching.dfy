/** `str.count`, `str.find` and `str.replace(old, new, 1)` as the edit tools use them, and
    when counting agrees with the number of places where a string occurs. */
module Matching {

  predicate MatchesAt(s: string, p: string, i: int) {
    0 <= i && i + |p| <= |s| && s[i..i + |p|] == p
  }

  /** The first match at or after `i`, or -1. */
  function Find(s: string, p: string, i: nat): int
    decreases |s| - i
  {
    if i + |p| > |s| then -1 else if MatchesAt(s, p, i) then i else Find(s, p, i + 1)
  }

  /** Greedy count of matches that do not overlap, from `i` on. */
  function CountFrom(s: string, p: string, i: nat): nat
    requires p != ""
    decreases |s| - i
  {
    FindMeets(s, p, i);
    var k := Find(s, p, i);
    if k < 0 then 0 else 1 + CountFrom(s, p, k + |p|)
  }

  /** `s.count(p)`; the empty string counts once before every character and at the end. */
  function Count(s: string, p: string): nat {
    if p == "" then |s| + 1 else CountFrom(s, p, 0)
  }

  /** `s.replace(old, new, 1)`. */
  function ReplaceFirst(s: string, oldStr: string, newStr: string): string {
    FindMeets(s, oldStr, 0);
    var k := Find(s, oldStr, 0);
    if k < 0 then s else s[..k] + newStr + s[k + |oldStr|..]
  }

  /** The number of positions at or after `i` where `p` occurs, overlapping or not. */
  function Occurrences(s: string, p: string, i: nat): nat
    decreases |s| - i
  {
    if i + |p| > |s| then 0 else (if MatchesAt(s, p, i) then 1 else 0) + Occurrences(s, p, i + 1)
  }

  lemma {:induction false} FindMeets(s: string, p: string, i: nat)
    ensures var k := Find(s, p, i);
            if k < 0 then forall j :: i <= j ==> !MatchesAt(s, p, j)
            else i <= k && MatchesAt(s, p, k) && forall j :: i <= j < k ==> !MatchesAt(s, p, j)
    decreases |s| - i
  {
    if i + |p| <= |s| && !MatchesAt(s, p, i) {
      FindMeets(s, p, i + 1);
    }
  }

  // ---- Borders ----

  /** A proper non-empty prefix that is also a suffix. */
  predicate Border(p: string, b: int) {
    1 <= b < |p| && p[..b] == p[|p| - b..]
  }

  predicate Borderless(p: string) {
    forall b :: 1 <= b < |p| ==> !Border(p, b)
  }

  /** Two overlapping matches make a border. */
  lemma OverlapIsBorder(s: string, p: string, i: int, j: int)
    requires MatchesAt(s, p, i) && MatchesAt(s, p, j) && i < j < i + |p|
    ensures Border(p, i + |p| - j)
  {
    var b := i + |p| - j;
    assert p[|p| - b..] == s[i..i + |p|][j - i..] == s[j..i + |p|];
    assert p[..b] == s[j..j + |p|][..b] == s[j..i + |p|];
  }

  lemma {:induction false} NoOccurrences(s: string, p: string, i: nat, j: nat)
    requires i <= j && forall k :: i <= k < j ==> !MatchesAt(s, p, k)
    ensures Occurrences(s, p, i) == Occurrences(s, p, j)
    decreases j - i
  {
    if i < j {
      NoOccurrences(s, p, i + 1, j);
    }
  }

  lemma GapBehindMatch(s: string, p: string, k: nat)
    requires p != "" && Borderless(p) && MatchesAt(s, p, k)
    ensures Occurrences(s, p, k) == 1 + Occurrences(s, p, k + |p|)
  {
    forall j | k + 1 <= j < k + |p| ensures !MatchesAt(s, p, j) {
      if MatchesAt(s, p, j) {
        OverlapIsBorder(s, p, k, j);
      }
    }
    NoOccurrences(s, p, k + 1, k + |p|);
  }

  /** Without borders, matches never overlap and the greedy count misses none. */
  lemma {:induction false} BorderlessCount(s: string, p: string, i: nat)
    requires p != "" && Borderless(p)
    ensures CountFrom(s, p, i) == Occurrences(s, p, i)
    decreases |s| - i
  {
    hide MatchesAt, Borderless, Find, Occurrences;
    FindMeets(s, p, i);
    var k := Find(s, p, i);
    if k < 0 {
      NoneLeft(s, p, i);
    } else {
      NoOccurrences(s, p, i, k);
      GapBehindMatch(s, p, k);
      MatchFits(s, p, k);
      BorderlessCount(s, p, k + |p|);
    }
  }

  lemma MatchFits(s: string, p: string, k: int)
    requires MatchesAt(s, p, k)
    ensures 0 <= k && k + |p| <= |s|
  {
  }

  lemma NoneLeft(s: string, p: string, i: nat)
    requires forall j :: i <= j ==> !MatchesAt(s, p, j)
    ensures Occurrences(s, p, i) == 0
  {
    if i <= |s| {
      NoOccurrences(s, p, i, |s| + 1);
    }
  }

  /** With a border, the pattern overlaps itself in this string. */
  function Overlapped(p: string, b: nat): string
    requires b <= |p|
  {
    p + p[b..]
  }

  lemma OverlappedCountsOnce(p: string, b: int)
    requires Border(p, b)
    ensures Count(Overlapped(p, b), p) == 1 && Occurrences(Overlapped(p, b), p, 0) >= 2
  {
    var s := Overlapped(p, b);
    var j := |p| - b;
    assert s[0..|p|] == p;
    assert s[j..j + |p|] == p[j..] + p[b..] == p[..b] + p[b..] == p;
    assert MatchesAt(s, p, 0) && MatchesAt(s, p, j);
    assert CountFrom(s, p, |p|) == 0;
    OccurrencesAtLeast(s, p, 1, j);
  }

  lemma {:induction false} OccurrencesAtLeast(s: string, p: string, i: nat, j: nat)
    requires i <= j && MatchesAt(s, p, j)
    ensures Occurrences(s, p, i) >= 1
    decreases j - i
  {
    if i < j {
      OccurrencesAtLeast(s, p, i + 1, j);
    }
  }

  /** Counting finds every occurrence in every text exactly when the pattern has no border. */
  lemma CountIsExactly(p: string)
    requires p != ""
    ensures Borderless(p) <==> forall s :: Count(s, p) == Occurrences(s, p, 0)
  {
    if Borderless(p) {
      forall s ensures Count(s, p) == Occurrences(s, p, 0) {
        BorderlessCount(s, p, 0);
      }
    } else {
      var b :| 1 <= b < |p| && Border(p, b);
      OverlappedCountsOnce(p, b);
    }
  }

  // ---- Texts that count once ----

  /** A count of one: a first match, and none behind it; only matches that overlap the
      first one can be missed. */
  lemma CountOne(s: string, p: string)
    requires p != "" && Count(s, p) == 1
    ensures var k := Find(s, p, 0);
            && MatchesAt(s, p, k)
            && forall j :: MatchesAt(s, p, j) ==> k <= j < k + |p|
  {
    hide MatchesAt, Find;
    FindMeets(s, p, 0);
    var k := Find(s, p, 0);
    FindMeets(s, p, k + |p|);
    if Find(s, p, k + |p|) >= 0 {
      assert CountFrom(s, p, k + |p|) >= 1;
    }
    forall j | MatchesAt(s, p, j) ensures k <= j < k + |p| {
      MatchFits(s, p, j);
    }
  }

  /** If the pattern has no border, the one match counted is the only one there is. */
  lemma CountOneIsUnique(s: string, p: string, j: int)
    requires p != "" && Borderless(p) && Count(s, p) == 1 && MatchesAt(s, p, j)
    ensures j == Find(s, p, 0)
  {
    CountOne(s, p);
    if j != Find(s, p, 0) {
      OverlapIsBorder(s, p, Find(s, p, 0), j);
    }
  }

  /** A match counts once if there is no room for another one behind it. */
  lemma NoRoomForTwo(s: string, p: string)
    requires p != "" && Find(s, p, 0) >= 0 && Find(s, p, 0) + 2 * |p| > |s|
    ensures Count(s, p) == 1
  {
    hide MatchesAt;
    FindMeets(s, p, 0);
    var k := Find(s, p, 0);
    assert Find(s, p, k + |p|) == -1;
    assert CountFrom(s, p, k + |p|) == 0;
  }

  lemma CountZero(s: string, p: string)
    ensures Count(s, p) == 0 <==> forall j :: !MatchesAt(s, p, j)
  {
    FindMeets(s, p, 0);
    if p == "" {
      assert MatchesAt(s, p, 0);
    } else if forall j :: !MatchesAt(s, p, j) {
      assert !MatchesAt(s, p, Find(s, p, 0));
    } else {
      var j :| MatchesAt(s, p, j);
      assert Find(s, p, 0) >= 0;
    }
  }

  // ---- What the count counts ----

  /** Matches in ascending order that do not overlap. */
  predicate Packing(s: string, p: string, ks: seq<nat>) {
    && (forall i :: 0 <= i < |ks| ==> MatchesAt(s, p, ks[i]))
    && (forall i :: 0 <= i < |ks| - 1 ==> ks[i] + |p| <= ks[i + 1])
  }

  /** At most `n` matches fit in without overlapping, and so many do. */
  ghost predicate Largest(s: string, p: string, n: nat) {
    && (exists ks :: Packing(s, p, ks) && |ks| == n)
    && (forall ks :: Packing(s, p, ks) ==> |ks| <= n)
  }

  lemma {:induction false} GreedyIsLargest(s: string, p: string, i: nat, ks: seq<nat>)
    requires p != "" && Packing(s, p, ks) && (ks != [] ==> i <= ks[0])
    ensures |ks| <= CountFrom(s, p, i)
    decreases |ks|
  {
    if ks != [] {
      FindMeets(s, p, i);
      var k, rest := Find(s, p, i), ks[1..];
      assert MatchesAt(s, p, ks[0]);
      assert k <= ks[0];
      if rest != [] {
        assert ks[0] + |p| <= ks[1];
      }
      GreedyIsLargest(s, p, k + |p|, rest);
    }
  }

  lemma {:induction false} GreedyPacks(s: string, p: string, i: nat) returns (ks: seq<nat>)
    requires p != ""
    ensures Packing(s, p, ks) && |ks| == CountFrom(s, p, i) && (ks != [] ==> i <= ks[0])
    decreases |s| - i
  {
    FindMeets(s, p, i);
    var k := Find(s, p, i);
    if k < 0 {
      ks := [];
    } else {
      MatchFits(s, p, k);
      var rest := GreedyPacks(s, p, k + |p|);
      ks := [k] + rest;
      hide MatchesAt, Find;
      forall j | 0 <= j < |ks| ensures MatchesAt(s, p, ks[j]) {
        if j > 0 { assert ks[j] == rest[j - 1]; }
      }
      forall j | 0 <= j < |ks| - 1 ensures ks[j] + |p| <= ks[j + 1] {
        assert ks[j + 1] == rest[j];
        if j > 0 { assert ks[j] == rest[j - 1]; }
      }
    }
  }

  /** `str.count` is the largest number of matches that do not overlap. */
  lemma CountIsLargest(s: string, p: string, n: nat)
    requires p != ""
    ensures Largest(s, p, n) <==> n == Count(s, p)
  {
    var greedy := GreedyPacks(s, p, 0);
    forall ks | Packing(s, p, ks) ensures |ks| <= Count(s, p) {
      GreedyIsLargest(s, p, 0, ks);
    }
    hide Packing, CountFrom;
    if Largest(s, p, n) {
      assert |greedy| <= n;
    }
  }

  /** All matches overlap each other. */
  ghost predicate Huddled(s: string, p: string) {
    forall j: int, k: int :: MatchesAt(s, p, j) && MatchesAt(s, p, k) ==> k < j + |p|
  }

  lemma HuddledCountsOnce(s: string, p: string, j: int)
    requires p != "" && MatchesAt(s, p, j) && Huddled(s, p)
    ensures Count(s, p) == 1
  {
    FindMeets(s, p, 0);
    MatchFits(s, p, j);
    NoneBehind(s, p, Find(s, p, 0));
    hide MatchesAt, Find;
  }

  lemma CountOneExactly(s: string, p: string)
    requires p != ""
    ensures Count(s, p) == 1 <==> (exists j: int :: MatchesAt(s, p, j)) && Huddled(s, p)
  {
    FindMeets(s, p, 0);
    hide MatchesAt, Find, CountFrom;
    if Count(s, p) == 1 {
      CountOne(s, p);
      assert MatchesAt(s, p, Find(s, p, 0));
    }
    if j: int :| MatchesAt(s, p, j) && Huddled(s, p) {
      HuddledCountsOnce(s, p, j);
    }
  }

  lemma NoneBehind(s: string, p: string, k: nat)
    requires p != "" && MatchesAt(s, p, k) && Huddled(s, p)
    ensures CountFrom(s, p, k + |p|) == 0
  {
    FindMeets(s, p, k + |p|);
    hide MatchesAt;
    assert Find(s, p, k + |p|) < 0;
  }
}
