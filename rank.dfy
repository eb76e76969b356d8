// Ranking of the letters that followed one prefix (rank.go).
//
// A ranking lists every letter of a count table once, the most frequent
// first, with ties going to the smaller rune. Because that order is total on
// distinct letters, the ranking of a table is unique; `Ranked` names it, and
// the method `Rank` is proved to compute it whatever order it visits the map.
module Ranking {

  /** rank.go's Less on two (letter, count) entries: a higher count comes
      first; between equal counts the smaller rune comes first. */
  predicate Precedes(a: char, na: int, b: char, nb: int)
  {
    if na == nb then a < b else na > nb
  }

  /** Precedes is a strict total order on entries with distinct letters. */
  lemma PrecedesIsStrictTotalOrder()
    ensures forall a, na :: !Precedes(a, na, a, na)
    ensures forall a, na, b, nb :: Precedes(a, na, b, nb) ==> !Precedes(b, nb, a, na)
    ensures forall a, na, b, nb, c, nc ::
      Precedes(a, na, b, nb) && Precedes(b, nb, c, nc) ==> Precedes(a, na, c, nc)
    ensures forall a, na, b, nb :: a != b ==> Precedes(a, na, b, nb) || Precedes(b, nb, a, na)
  {
  }

  predicate Distinct<T(==)>(s: seq<T>)
  {
    forall i, j :: 0 <= i < j < |s| ==> s[i] != s[j]
  }

  predicate Within(s: seq<char>, counts: map<char, int>)
  {
    forall c :: c in s ==> c in counts
  }

  /** Every letter of s comes strictly before every later one. */
  predicate SortedBy(s: seq<char>, counts: map<char, int>)
    requires Within(s, counts)
  {
    forall i, j :: 0 <= i < j < |s| ==> Precedes(s[i], counts[s[i]], s[j], counts[s[j]])
  }

  /** r is a ranking of counts: each key exactly once, in Precedes order. */
  predicate IsRanking(r: seq<char>, counts: map<char, int>)
  {
    && Distinct(r)
    && (forall c :: c in r <==> c in counts)
    && SortedBy(r, counts)
  }

  /** Neighbours in order suffice: by transitivity, every letter then
      precedes every later one. */
  lemma {:induction false} NeighboursSorted(s: seq<char>, counts: map<char, int>)
    requires Within(s, counts)
    requires forall k :: 0 < k < |s| ==> Precedes(s[k - 1], counts[s[k - 1]], s[k], counts[s[k]])
    ensures SortedBy(s, counts)
  {
    forall i, j | 0 <= i < j < |s|
      ensures Precedes(s[i], counts[s[i]], s[j], counts[s[j]])
    {
      NeighboursChain(s, counts, i, j);
    }
  }

  lemma {:induction false} NeighboursChain(s: seq<char>, counts: map<char, int>, i: nat, j: nat)
    requires Within(s, counts) && i < j < |s|
    requires forall k :: 0 < k < |s| ==> Precedes(s[k - 1], counts[s[k - 1]], s[k], counts[s[k]])
    ensures Precedes(s[i], counts[s[i]], s[j], counts[s[j]])
    decreases j - i
  {
    if i + 1 < j {
      NeighboursChain(s, counts, i, j - 1);
      PrecedesIsStrictTotalOrder();
    }
  }

  /** Puts x into its place in the sorted sequence s. */
  function Insert(counts: map<char, int>, x: char, s: seq<char>): (r: seq<char>)
    requires x in counts && x !in s && Within(s, counts)
    requires Distinct(s) && SortedBy(s, counts)
    ensures |r| == |s| + 1
    ensures forall c :: c in r <==> c == x || c in s
    ensures Within(r, counts) && Distinct(r) && SortedBy(r, counts)
  {
    if s == [] || Precedes(x, counts[x], s[0], counts[s[0]]) then
      [x] + s
    else
      assert s == [s[0]] + s[1..];
      var t := Insert(counts, x, s[1..]);
      assert forall c :: c in t ==> Precedes(s[0], counts[s[0]], c, counts[c]);
      [s[0]] + t
  }

  /** The ranking of the keys in `keys`, built by insertion. */
  ghost function RankedKeys(counts: map<char, int>, keys: set<char>): (r: seq<char>)
    requires keys <= counts.Keys
    ensures Distinct(r) && (forall c :: c in r <==> c in keys)
    ensures Within(r, counts) && SortedBy(r, counts)
    decreases keys
  {
    if keys == {} then []
    else
      var k :| k in keys;
      Insert(counts, k, RankedKeys(counts, keys - {k}))
  }

  /** The ranking of a count table (what rank.go's Rank returns). */
  ghost function Ranked(counts: map<char, int>): (r: seq<char>)
    ensures IsRanking(r, counts)
    ensures |r| == |counts|
  {
    var r := RankedKeys(counts, counts.Keys);
    RankingLength(r, counts);
    r
  }

  /** A ranking has one entry per key. */
  lemma RankingLength(r: seq<char>, counts: map<char, int>)
    requires IsRanking(r, counts)
    ensures |r| == |counts|
  {
    DistinctCardinality(r);
    assert (set c | c in r) == counts.Keys;
  }

  /** A duplicate-free sequence has as many elements as its set. */
  lemma {:induction false} DistinctCardinality<T>(s: seq<T>)
    requires Distinct(s)
    ensures |set x | x in s| == |s|
  {
    if s != [] {
      var t := s[1..];
      DistinctCardinality(t);
      assert (set x | x in s) == (set x | x in t) + {s[0]};
      assert s[0] !in (set x | x in t);
    }
  }

  /** There is only one ranking of a count table, so the result does not
      depend on the order in which the map is visited. */
  lemma RankingIsUnique(r1: seq<char>, r2: seq<char>, counts: map<char, int>)
    requires IsRanking(r1, counts) && IsRanking(r2, counts)
    ensures r1 == r2
  {
    RankingLength(r1, counts);
    RankingLength(r2, counts);
    RankingsAgreeUpTo(r1, r2, counts, |r1|);
  }

  /** Two rankings of the same table agree on their first i positions. */
  lemma {:induction false} RankingsAgreeUpTo(r1: seq<char>, r2: seq<char>, counts: map<char, int>, i: nat)
    requires IsRanking(r1, counts) && IsRanking(r2, counts)
    requires |r1| == |r2| && i <= |r1|
    ensures forall j :: 0 <= j < i ==> r1[j] == r2[j]
  {
    if i > 0 {
      var p := i - 1;
      RankingsAgreeUpTo(r1, r2, counts, p);
      var x, y := r1[p], r2[p];
      // x sits at or after position p in r2 and y at or after position p
      // in r1, so unless they are equal each precedes the other
      assert x in r2 && y in r1;
      var k :| 0 <= k < |r2| && r2[k] == x;
      var l :| 0 <= l < |r1| && r1[l] == y;
      assert forall j :: 0 <= j < p ==> r2[j] != x && r1[j] != y;
      var nx, ny := counts[x], counts[y];
      assert k == p || Precedes(y, ny, x, nx);
      assert l == p || Precedes(x, nx, y, ny);
    }
  }

  /** Pairs each letter with its count, position by position. */
  function Zip(letters: seq<char>, counts: seq<int>): (z: seq<(char, int)>)
    requires |letters| == |counts|
    ensures |z| == |letters|
    ensures forall k :: 0 <= k < |z| ==> z[k] == (letters[k], counts[k])
  {
    seq(|letters|, k requires 0 <= k < |letters| => (letters[k], counts[k]))
  }

  /** rank.go's `rank`: parallel letters and counts that sort.Sort reorders
      in place through Len, Less and Swap. */
  class Ranker {
    const letters: array<char>
    const counts: array<int>

    ghost predicate Valid()
    {
      letters.Length == counts.Length
    }

    /** The (letter, count) entries in their current order. */
    ghost function Entries(): seq<(char, int)>
      reads letters, counts
      requires Valid()
    {
      Zip(letters[..], counts[..])
    }

    constructor (ls: seq<char>, cs: seq<int>)
      requires |ls| == |cs|
      ensures Valid() && letters[..] == ls && counts[..] == cs
      ensures fresh(letters) && fresh(counts)
    {
      letters := new char[|ls|](k requires 0 <= k < |ls| => ls[k]);
      counts := new int[|cs|](k requires 0 <= k < |cs| => cs[k]);
    }

    function Len(): (n: int)
      requires Valid()
      ensures n == letters.Length == counts.Length
    {
      letters.Length
    }

    /** Entry i must come before entry j. */
    predicate Less(i: int, j: int)
      reads letters, counts
      requires Valid() && 0 <= i < Len() && 0 <= j < Len()
      ensures Less(i, j) <==> Precedes(letters[i], counts[i], letters[j], counts[j])
    {
      var a, b := counts[i], counts[j];
      if a == b then letters[i] < letters[j] else a > b
    }

    method Swap(i: int, j: int)
      requires Valid() && 0 <= i < Len() && 0 <= j < Len()
      modifies letters, counts
      ensures letters[..] == old(letters[..])[i := old(letters[j])][j := old(letters[i])]
      ensures counts[..] == old(counts[..])[i := old(counts[j])][j := old(counts[i])]
      ensures multiset(Entries()) == old(multiset(Entries()))
    {
      ghost var before := Entries();
      letters[i], letters[j] := letters[j], letters[i];
      counts[i], counts[j] := counts[j], counts[i];
      assert Entries() == before[i := before[j]][j := before[i]];
    }

    /** No entry is ranked before an entry to its left. */
    ghost predicate Sorted()
      reads letters, counts
      requires Valid()
    {
      SortedUpTo(letters[..], counts[..], letters.Length)
    }

    /** sort.Sort(r): any algorithm that reorders by Swap until no entry is
        Less than its left neighbour; insertion sort is used here. */
    method Sort()
      requires Valid()
      modifies letters, counts
      ensures Sorted()
      ensures multiset(Entries()) == old(multiset(Entries()))
    {
      var n := Len();
      var i := 0;
      while i < n
        invariant 0 <= i <= n
        invariant SortedUpTo(letters[..], counts[..], i)
        invariant multiset(Entries()) == old(multiset(Entries()))
      {
        var j := i;
        while j > 0 && Less(j, j - 1)
          invariant 0 <= j <= i
          invariant Inserting(letters[..], counts[..], i, j)
          invariant multiset(Entries()) == old(multiset(Entries()))
        {
          ghost var ls, cs := letters[..], counts[..];
          Swap(j - 1, j);
          InsertStep(ls, cs, i, j);
          j := j - 1;
        }
        InsertDone(letters[..], counts[..], i, j);
        i := i + 1;
      }
    }
  }

  /** Entry b is not ranked before entry a. */
  predicate InOrder(ls: seq<char>, cs: seq<int>, a: int, b: int)
    requires |ls| == |cs| && 0 <= a < |ls| && 0 <= b < |ls|
  {
    !Precedes(ls[b], cs[b], ls[a], cs[a])
  }

  /** The first i entries are in order. */
  predicate SortedUpTo(ls: seq<char>, cs: seq<int>, i: int)
    requires |ls| == |cs| && 0 <= i <= |ls|
  {
    forall a, b :: 0 <= a < b < i ==> InOrder(ls, cs, a, b)
  }

  /** Insertion of entry i is under way and has moved it to position j:
      the other first i + 1 entries are in order, and entry j is in order
      with everything to its right up to i. */
  predicate Inserting(ls: seq<char>, cs: seq<int>, i: int, j: int)
    requires |ls| == |cs| && 0 <= j <= i < |ls|
  {
    && (forall a, b :: 0 <= a < b <= i && a != j && b != j ==> InOrder(ls, cs, a, b))
    && (forall b :: j < b <= i ==> InOrder(ls, cs, j, b))
  }

  function Swapped<T>(s: seq<T>, a: int, b: int): seq<T>
    requires 0 <= a < |s| && 0 <= b < |s|
  {
    s[a := s[b]][b := s[a]]
  }

  /** Swapping entry j with a left neighbour that it must precede moves the
      insertion one step left. */
  lemma InsertStep(ls: seq<char>, cs: seq<int>, i: int, j: int)
    requires |ls| == |cs| && 0 < j <= i < |ls|
    requires Inserting(ls, cs, i, j)
    requires Precedes(ls[j], cs[j], ls[j - 1], cs[j - 1])
    ensures Inserting(Swapped(ls, j - 1, j), Swapped(cs, j - 1, j), i, j - 1)
  {
    var ls', cs' := Swapped(ls, j - 1, j), Swapped(cs, j - 1, j);
    forall a, b | 0 <= a < b <= i && a != j - 1 && b != j - 1
      ensures InOrder(ls', cs', a, b)
    {
      if b == j {
        assert InOrder(ls, cs, a, j - 1);
      } else if a == j {
        assert InOrder(ls, cs, j - 1, b);
      } else {
        assert InOrder(ls, cs, a, b);
      }
    }
    var k := j - 1;
    forall b | k < b <= i
      ensures InOrder(ls', cs', k, b)
    {
      if b > j {
        assert InOrder(ls, cs, j, b);
      }
    }
  }

  /** Once entry j no longer precedes its left neighbour, the first i + 1
      entries are in order. */
  lemma InsertDone(ls: seq<char>, cs: seq<int>, i: int, j: int)
    requires |ls| == |cs| && 0 <= j <= i < |ls|
    requires Inserting(ls, cs, i, j)
    requires j == 0 || !Precedes(ls[j], cs[j], ls[j - 1], cs[j - 1])
    ensures SortedUpTo(ls, cs, i + 1)
  {
    forall a, b | 0 <= a < b < i + 1
      ensures InOrder(ls, cs, a, b)
    {
      if b == j && a < j - 1 {
        assert InOrder(ls, cs, a, j - 1);
      } else if a == j {
        assert InOrder(ls, cs, j, b);
      }
    }
  }

  /** Each element of a duplicate-free sequence occurs once. */
  lemma {:induction false} DistinctOnce<T>(s: seq<T>, x: T)
    requires Distinct(s)
    ensures multiset(s)[x] <= 1
  {
    if s != [] {
      DistinctOnce(s[1..], x);
      assert s == [s[0]] + s[1..];
      assert s[0] !in s[1..];
    }
  }

  /** An element at two positions occurs at least twice. */
  lemma Repeated<T>(s: seq<T>, i: int, j: int)
    requires 0 <= i < j < |s| && s[i] == s[j]
    ensures multiset(s)[s[i]] >= 2
  {
    assert s == s[..j] + [s[j]] + s[j + 1..];
    assert s[i] in s[..j];
  }

  /** The entries of a map listed once each, in some order. */
  predicate Collected(raw: map<char, int>, letters: seq<char>, counts: seq<int>)
  {
    && |letters| == |counts|
    && Distinct(letters)
    && (forall c :: c in letters <==> c in raw)
    && (forall k :: 0 <= k < |letters| ==> letters[k] in raw && counts[k] == raw[letters[k]])
  }

  /** Reordering the collected entries into Less order ranks the map. */
  lemma SortedCollectionIsRanking(raw: map<char, int>, letters: seq<char>, counts: seq<int>,
                                  r: seq<char>, cs: seq<int>)
    requires Collected(raw, letters, counts)
    requires |r| == |cs| && multiset(Zip(r, cs)) == multiset(Zip(letters, counts))
    requires SortedUpTo(r, cs, |r|)
    ensures IsRanking(r, raw)
  {
    var before, after := Zip(letters, counts), Zip(r, cs);
    forall k | 0 <= k < |r|
      ensures r[k] in raw && cs[k] == raw[r[k]]
    {
      assert after[k] in multiset(before);
    }
    assert Distinct(before) by {
      forall a, b | 0 <= a < b < |before| ensures before[a] != before[b] {
        assert letters[a] != letters[b];
      }
    }
    assert Distinct(r) by {
      forall a, b | 0 <= a < b < |r| ensures r[a] != r[b] {
        if r[a] == r[b] {
          Repeated(after, a, b);
          DistinctOnce(before, after[a]);
          assert false;
        }
      }
    }
    forall c | c in raw
      ensures c in r
    {
      var m :| 0 <= m < |letters| && letters[m] == c;
      assert before[m] in multiset(after);
    }
    assert SortedBy(r, raw) by {
      forall a, b | 0 <= a < b < |r|
        ensures Precedes(r[a], raw[r[a]], r[b], raw[r[b]])
      {
        assert r[a] != r[b] && InOrder(r, cs, a, b);
      }
    }
  }

  /** rank.go's Rank: collects the map into parallel slices and sorts them.
      Whatever order the map is visited in, the result is its ranking. */
  method Rank(raw: map<char, int>) returns (r: seq<char>)
    ensures IsRanking(r, raw) && |r| == |raw|
    ensures r == Ranked(raw)
  {
    var letters: seq<char> := [];
    var counts: seq<int> := [];
    var rest := raw.Keys;
    while rest != {}
      invariant rest <= raw.Keys
      invariant |letters| == |counts|
      invariant Distinct(letters)
      invariant forall c :: c in letters <==> c in raw && c !in rest
      invariant forall k :: 0 <= k < |letters| ==> letters[k] in raw && counts[k] == raw[letters[k]]
      decreases rest
    {
      var key :| key in rest;
      letters := letters + [key];
      counts := counts + [raw[key]];
      rest := rest - {key};
    }
    var table := new Ranker(letters, counts);
    table.Sort();
    r := table.letters[..];
    SortedCollectionIsRanking(raw, letters, counts, r, table.counts[..]);
    RankingIsUnique(r, Ranked(raw), raw);
  }
}
