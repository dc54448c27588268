/** The bounded in-memory store and its ranked search (enclave/tools/memory_tool.py:23-97). */
module VectorStore {

  datatype Entry = Entry(id: string, content: string, metadata: map<string, string>)

  // ---- Python slices ----

  /** `s[-n:]`: for n = 0 this is the whole of s, and for n < 0 it drops from the front. */
  function LastSlice<T>(s: seq<T>, n: int): seq<T> {
    if n > 0 then (if n <= |s| then s[|s| - n..] else s)
    else if -n <= |s| then s[-n..] else []
  }

  /** `s[:n]`: for n < 0 this drops from the end. */
  function FirstSlice<T>(s: seq<T>, n: int): seq<T> {
    if n >= 0 then (if n <= |s| then s[..n] else s)
    else if -n <= |s| then s[..|s| + n] else []
  }

  function Reversed<T>(s: seq<T>): seq<T> {
    seq(|s|, i requires 0 <= i < |s| => s[|s| - 1 - i])
  }

  // ---- Storing ----

  function Stored(entries: seq<Entry>, capacity: int, e: Entry): seq<Entry> {
    var grown := entries + [e];
    if |grown| > capacity then LastSlice(grown, capacity) else grown
  }

  /** The contents of a store into which `all` was stored, entry by entry. */
  function Contents(capacity: int, all: seq<Entry>): seq<Entry> {
    if all == [] then []
    else Stored(Contents(capacity, all[..|all| - 1]), capacity, all[|all| - 1])
  }

  /** The last `n` entries, or all if there are fewer. */
  function Newest(all: seq<Entry>, n: nat): seq<Entry> {
    if n <= |all| then all[|all| - n..] else all
  }

  lemma {:induction false} ContentsAreNewest(capacity: int, all: seq<Entry>)
    requires capacity >= 1
    ensures Contents(capacity, all) == Newest(all, capacity)
  {
    if all != [] {
      var front, e := all[..|all| - 1], all[|all| - 1];
      ContentsAreNewest(capacity, front);
      NewestOfAppend(front, e, capacity);
      assert front + [e] == all;
    }
  }

  lemma NewestOfAppend(front: seq<Entry>, e: Entry, capacity: int)
    requires capacity >= 1
    ensures Stored(Newest(front, capacity), capacity, e) == Newest(front + [e], capacity)
  {
    var grown := Newest(front, capacity) + [e];
    if |front| >= capacity {
      assert grown[1..] == (front + [e])[|front| + 1 - capacity..];
    }
  }

  lemma {:induction false} NothingIsEvicted(all: seq<Entry>)
    ensures Contents(0, all) == all
  {
    if all != [] {
      NothingIsEvicted(all[..|all| - 1]);
    }
  }

  /** A store holds exactly the newest entries, up to its capacity, exactly when the
      capacity is positive: a store of capacity zero never evicts anything. */
  lemma CapacityExactly(capacity: nat)
    ensures capacity >= 1 <==> forall all :: Contents(capacity, all) == Newest(all, capacity)
  {
    if capacity >= 1 {
      forall all ensures Contents(capacity, all) == Newest(all, capacity) {
        ContentsAreNewest(capacity, all);
      }
    } else {
      var one := [Entry("", "", map[])];
      NothingIsEvicted(one);
      assert Contents(0, one) != Newest(one, 0);
    }
  }

  // ---- Searching ----

  datatype Scored = Scored(score: real, entry: Entry)

  /** Jaccard similarity of two sets of words. */
  function Jaccard(query: set<string>, words: set<string>): (r: real)
    requires query != {} && words != {}
    ensures 0.0 <= r <= 1.0
    ensures r > 0.0 <==> query * words != {}
    ensures |query + words| > 0 && r * (|query + words| as real) == |query * words| as real
  {
    CommonIsFewer(query, words);
    var common, either := |query * words|, |query + words|;
    assert query * words != {} <==> common > 0;
    (common as real) / (either as real)
  }

  lemma CommonIsFewer(a: set<string>, b: set<string>)
    requires a != {}
    ensures |a * b| <= |a + b| && |a + b| > 0
  {
    SubsetIsFewer(a * b, a + b);
    assert a + b != {} by {
      var x :| x in a;
      assert x in a + b;
    }
  }

  lemma {:induction false} SubsetIsFewer(a: set<string>, b: set<string>)
    requires a <= b
    ensures |a| <= |b|
  {
    if a != {} {
      var x :| x in a;
      SubsetIsFewer(a - {x}, b - {x});
    }
  }

  /** The entries that share a word with the query, with their scores, oldest first. */
  function Matches(query: set<string>, words: string -> set<string>, entries: seq<Entry>): seq<Scored> {
    if entries == [] then []
    else
      var e := entries[|entries| - 1];
      Matches(query, words, entries[..|entries| - 1])
      + if query != {} && words(e.content) != {} && Jaccard(query, words(e.content)) > 0.0
        then [Scored(Jaccard(query, words(e.content)), e)] else []
  }

  /** Puts `x` behind everything that scores at least as high. */
  function Insert(x: Scored, sorted: seq<Scored>): seq<Scored> {
    if sorted == [] then [x]
    else if sorted[0].score >= x.score then [sorted[0]] + Insert(x, sorted[1..])
    else [x] + sorted
  }

  /** The stable descending sort by score. */
  function SortDescending(xs: seq<Scored>): seq<Scored> {
    if xs == [] then [] else Insert(xs[|xs| - 1], SortDescending(xs[..|xs| - 1]))
  }

  function Entries(xs: seq<Scored>): seq<Entry> {
    seq(|xs|, i requires 0 <= i < |xs| => xs[i].entry)
  }

  function SearchResult(query: set<string>, words: string -> set<string>, entries: seq<Entry>, n: int): seq<Entry> {
    Entries(FirstSlice(SortDescending(Matches(query, words, entries)), n))
  }

  class SimpleVectorStore {
    var entries: seq<Entry>
    const capacity: int

    constructor (capacity: int)
      ensures entries == [] && this.capacity == capacity
    {
      this.entries, this.capacity := [], capacity;
    }

    method Store(e: Entry)
      modifies this
      ensures entries == Stored(old(entries), capacity, e)
    {
      entries := entries + [e];
      if |entries| > capacity {
        entries := LastSlice(entries, capacity);
      }
    }

    method Search(query: set<string>, words: string -> set<string>, n: int) returns (found: seq<Entry>)
      ensures found == SearchResult(query, words, entries, n)
    {
      var scored := [];
      for i := 0 to |entries|
        invariant scored == Matches(query, words, entries[..i])
      {
        assert entries[..i + 1][..i] == entries[..i];
        var entryWords := words(entries[i].content);
        if query != {} && entryWords != {} {
          var score := Jaccard(query, entryWords);
          if score > 0.0 {
            scored := scored + [Scored(score, entries[i])];
          }
        }
      }
      assert entries[..|entries|] == entries;
      scored := SortDescending(scored);
      found := Entries(FirstSlice(scored, n));
    }

    method ListRecent(n: int) returns (recent: seq<Entry>)
      ensures recent == Reversed(LastSlice(entries, n))
    {
      recent := Reversed(LastSlice(entries, n));
    }
  }

  // ---- What the ranking promises ----

  predicate Descending(xs: seq<Scored>) {
    forall i, j :: 0 <= i < j < |xs| ==> xs[i].score >= xs[j].score
  }

  /** The elements with one score, in order. */
  function WithScore(xs: seq<Scored>, score: real): seq<Scored> {
    if xs == [] then [] else Tied(xs[0], score) + WithScore(xs[1..], score)
  }

  function Tied(x: Scored, score: real): seq<Scored> {
    if x.score == score then [x] else []
  }

  lemma {:induction false} WithScoreConcat(a: seq<Scored>, b: seq<Scored>, score: real)
    ensures WithScore(a + b, score) == WithScore(a, score) + WithScore(b, score)
  {
    hide Tied;
    if a == [] {
      assert a + b == b;
    } else {
      assert (a + b)[1..] == a[1..] + b;
      WithScoreConcat(a[1..], b, score);
    }
  }

  lemma {:induction false} NoneWithScore(xs: seq<Scored>, score: real)
    requires forall x <- xs :: x.score < score
    ensures WithScore(xs, score) == []
  {
    if xs != [] {
      assert xs[0] in xs;
      NoneWithScore(xs[1..], score);
    }
  }

  lemma {:induction false} InsertKeepsElements(x: Scored, sorted: seq<Scored>)
    ensures multiset(Insert(x, sorted)) == multiset(sorted) + multiset{x}
  {
    if sorted != [] {
      assert sorted == [sorted[0]] + sorted[1..];
      InsertKeepsElements(x, sorted[1..]);
    }
  }

  predicate AllAtMost(xs: seq<Scored>, score: real) {
    forall y <- xs :: y.score <= score
  }

  lemma {:induction false} InsertKeepsBound(x: Scored, sorted: seq<Scored>, score: real)
    requires AllAtMost(sorted, score) && x.score <= score
    ensures AllAtMost(Insert(x, sorted), score)
  {
    if sorted != [] {
      InsertKeepsBound(x, sorted[1..], score);
    }
  }

  /** Descending, seen from the front. */
  predicate Falling(xs: seq<Scored>) {
    xs != [] ==> AllAtMost(xs[1..], xs[0].score) && Falling(xs[1..])
  }

  lemma {:induction false} InsertKeepsFalling(x: Scored, sorted: seq<Scored>)
    requires Falling(sorted)
    ensures Falling(Insert(x, sorted))
  {
    if sorted != [] {
      if sorted[0].score >= x.score {
        InsertKeepsFalling(x, sorted[1..]);
        InsertKeepsBound(x, sorted[1..], sorted[0].score);
        assert ([sorted[0]] + Insert(x, sorted[1..]))[1..] == Insert(x, sorted[1..]);
      } else {
        assert ([x] + sorted)[1..] == sorted;
        forall y | y in sorted ensures y.score <= x.score {
          assert y == sorted[0] || y in sorted[1..];
        }
      }
    }
  }

  lemma {:induction false} FallingIsDescending(xs: seq<Scored>)
    requires Falling(xs)
    ensures Descending(xs)
  {
    if xs != [] {
      FallingIsDescending(xs[1..]);
      forall i, j | 0 <= i < j < |xs| ensures xs[i].score >= xs[j].score {
        assert xs[j] == xs[1..][j - 1] && xs[j] in xs[1..];
      }
    }
  }

  lemma {:induction false} InsertIsBehindTies(x: Scored, sorted: seq<Scored>, score: real)
    requires Falling(sorted)
    ensures WithScore(Insert(x, sorted), score) == WithScore(sorted, score) + WithScore([x], score)
  {
    assert [x][1..] == [];
    if sorted != [] {
      if sorted[0].score >= x.score {
        InsertIsBehindTies(x, sorted[1..], score);
        assert ([sorted[0]] + Insert(x, sorted[1..]))[1..] == Insert(x, sorted[1..]);
      } else {
        WithScoreConcat([x], sorted, score);
        if score == x.score {
          forall y | y in sorted ensures y.score < score {
            assert y == sorted[0] || y in sorted[1..];
          }
          NoneWithScore(sorted, score);
        }
      }
    }
  }

  /** The sort is a permutation in descending order that keeps the order of ties. */
  lemma {:induction false} SortMeets(xs: seq<Scored>, score: real)
    ensures multiset(SortDescending(xs)) == multiset(xs)
    ensures Falling(SortDescending(xs)) && Descending(SortDescending(xs))
    ensures WithScore(SortDescending(xs), score) == WithScore(xs, score)
  {
    if xs != [] {
      var front, x := xs[..|xs| - 1], xs[|xs| - 1];
      assert xs == front + [x];
      SortMeets(front, score);
      hide Insert, WithScore, Falling, Descending;
      var sorted := SortDescending(front);
      InsertKeepsElements(x, sorted);
      InsertKeepsFalling(x, sorted);
      InsertIsBehindTies(x, sorted, score);
      WithScoreConcat(front, [x], score);
    }
    FallingIsDescending(SortDescending(xs));
  }

  /** Whether an entry shares a word with the query. */
  predicate Shares(query: set<string>, words: string -> set<string>, e: Entry) {
    query * words(e.content) != {}
  }

  lemma {:induction false} MatchesShare(query: set<string>, words: string -> set<string>, entries: seq<Entry>)
    ensures forall m <- Matches(query, words, entries) ::
              && m.entry in entries && Shares(query, words, m.entry)
              && m.score == Jaccard(query, words(m.entry.content))
    ensures forall e <- entries :: Shares(query, words, e) ==>
              exists m :: m in Matches(query, words, entries) && m.entry == e
  {
    if entries != [] {
      var front, e := entries[..|entries| - 1], entries[|entries| - 1];
      MatchesShare(query, words, front);
      assert entries == front + [e];
      hide Jaccard;
      var older, all := Matches(query, words, front), Matches(query, words, entries);
      forall x | x in entries && Shares(query, words, x) ensures exists m :: m in all && m.entry == x {
        if x in front {
          var m :| m in older && m.entry == x;
          assert m in all;
        } else {
          LastIsMatched(query, words, entries);
        }
      }
    }
  }

  lemma LastIsMatched(query: set<string>, words: string -> set<string>, entries: seq<Entry>)
    requires entries != [] && Shares(query, words, entries[|entries| - 1])
    ensures exists m :: m in Matches(query, words, entries) && m.entry == entries[|entries| - 1]
  {
    var e, all := entries[|entries| - 1], Matches(query, words, entries);
    assert query != {} && words(e.content) != {};
    assert all[|all| - 1].entry == e;
  }

  /** A search returns the n best of the entries that share a word with the query, or for
      n < 0 all but the -n worst: they are matching entries, and whatever matching entry is
      left out scores no higher than any that is returned. */
  lemma SearchReturnsBest(query: set<string>, words: string -> set<string>, entries: seq<Entry>, n: int)
    ensures var ranked := SortDescending(Matches(query, words, entries));
            var found := SearchResult(query, words, entries, n);
            && |found| == (if n > |ranked| then |ranked| else if n >= 0 then n
                           else if -n <= |ranked| then |ranked| + n else 0)
            && multiset(ranked) == multiset(Matches(query, words, entries))
            && (forall i :: 0 <= i < |found| ==>
                  found[i] == ranked[i].entry && found[i] in entries && Shares(query, words, found[i]))
            && (forall i, j :: 0 <= i < |found| <= j < |ranked| ==> ranked[j].score <= ranked[i].score)
            && (|found| < n ==> forall e <- entries :: Shares(query, words, e) ==> e in found)
  {
    var matches := Matches(query, words, entries);
    var ranked, found := SortDescending(matches), SearchResult(query, words, entries, n);
    SortMeets(matches, 0.0);
    MatchesShare(query, words, entries);
    hide Matches, SortDescending, Jaccard, Falling, Shares, WithScore;
    forall i | 0 <= i < |found| ensures found[i] in entries && Shares(query, words, found[i]) {
      assert ranked[i] in multiset(matches);
    }
    if |found| < n {
      forall e | e in entries && Shares(query, words, e) ensures e in found {
        SharerIsRanked(query, words, entries, e, ranked);
        var i :| 0 <= i < |ranked| && ranked[i].entry == e;
        assert found[i] == e;
      }
    }
  }

  lemma SharerIsRanked(query: set<string>, words: string -> set<string>, entries: seq<Entry>, e: Entry, ranked: seq<Scored>)
    requires e in entries && Shares(query, words, e)
    requires multiset(ranked) == multiset(Matches(query, words, entries))
    ensures exists i :: 0 <= i < |ranked| && ranked[i].entry == e
  {
    MatchesShare(query, words, entries);
    var m :| m in Matches(query, words, entries) && m.entry == e;
    hide Shares, Matches;
    InPermutation(m, Matches(query, words, entries), ranked);
  }

  lemma InPermutation(m: Scored, xs: seq<Scored>, ys: seq<Scored>)
    requires m in xs && multiset(xs) == multiset(ys)
    ensures exists i :: 0 <= i < |ys| && ys[i] == m
  {
    assert m in multiset(ys);
  }

  /** For n >= 0 the recents are the n newest entries, newest first, exactly if n is
      positive or nothing is stored: for n = 0 they are all entries. For n < 0 they are all
      but the -n oldest. */
  lemma RecentsAreNewest(entries: seq<Entry>, n: int)
    ensures var recents := Reversed(LastSlice(entries, n));
            && (n >= 0 ==> (recents == Reversed(Newest(entries, n)) <==> n >= 1 || entries == []))
            && (n == 0 ==> recents == Reversed(entries))
            && (forall i :: 0 <= i < |recents| ==> recents[i] == entries[|entries| - 1 - i])
            && (n < 0 ==> recents == Reversed(Newest(entries, if -n <= |entries| then |entries| + n else 0)))
  {
    assert |Reversed(entries)| == |entries| && |Reversed(Newest(entries, 0))| == 0;
    if n < 0 && -n > |entries| {
      assert Newest(entries, 0) == [];
    }
  }
}
