/**
 The stable sort the store and the lineage share, by a rank each record has.
 */
module Sorting {
  import opened Records

  /** What records are sorted by: a sequence number, or a timestamp and then, for the links
      of a lineage, the sequence number. */
  datatype Rank = Rank(major: int, minor: int)

  predicate AtMost(x: Rank, y: Rank) {
    x.major < y.major || (x.major == y.major && x.minor <= y.minor)
  }

  function ByNumber(r: Record): Rank {
    Rank(r.seqNo, 0)
  }

  function ByTime(r: Record): Rank {
    Rank(r.event.timestamp, 0)
  }

  function ByTimeAndNumber(r: Record): Rank {
    Rank(r.event.timestamp, r.seqNo)
  }

  /** After every record of the same rank, before any larger one. */
  function Spot(t: seq<Record>, n: nat, r: Record, key: Record -> Rank): (k: nat)
    requires n <= |t|
    ensures k <= n
    ensures forall i :: k <= i < n ==> !AtMost(key(t[i]), key(r))
    ensures 0 < k ==> AtMost(key(t[k - 1]), key(r))
  {
    if n == 0 || AtMost(key(t[n - 1]), key(r)) then n else Spot(t, n - 1, r, key)
  }

  function SortFirst(s: seq<Record>, n: nat, key: Record -> Rank): (t: seq<Record>)
    requires n <= |s|
    ensures |t| == n
  {
    if n == 0 then []
    else
      var t := SortFirst(s, n - 1, key);
      var k := Spot(t, |t|, s[n - 1], key);
      t[..k] + [s[n - 1]] + t[k..]
  }

  function Sorted(s: seq<Record>, key: Record -> Rank): (t: seq<Record>)
    ensures |t| == |s|
  {
    SortFirst(s, |s|, key)
  }

  ghost predicate Ordered(t: seq<Record>, key: Record -> Rank) {
    forall i, j :: 0 <= i < j < |t| ==> AtMost(key(t[i]), key(t[j]))
  }

  /** The records of one rank, in order. */
  function Ranked(s: seq<Record>, key: Record -> Rank, rank: Rank): seq<Record> {
    if s == [] then []
    else Ranked(s[..|s| - 1], key, rank) + if key(s[|s| - 1]) == rank then [s[|s| - 1]] else []
  }

  lemma {:induction false} RankedCat(s: seq<Record>, t: seq<Record>, key: Record -> Rank, rank: Rank)
    ensures Ranked(s + t, key, rank) == Ranked(s, key, rank) + Ranked(t, key, rank)
  {
    if t == [] {
      assert s + t == s;
    } else {
      RankedCat(s, t[..|t| - 1], key, rank);
      assert (s + t)[..|s + t| - 1] == s + t[..|t| - 1];
    }
  }

  lemma {:induction false} NoneRanked(t: seq<Record>, key: Record -> Rank, rank: Rank)
    requires forall i :: 0 <= i < |t| ==> key(t[i]) != rank
    ensures Ranked(t, key, rank) == []
  {
    if t == [] {
    } else {
      NoneRanked(t[..|t| - 1], key, rank);
    }
  }

  lemma RankedOne(r: Record, key: Record -> Rank, rank: Rank)
    ensures Ranked([r], key, rank) == if key(r) == rank then [r] else []
  {
    assert Ranked([r][..0], key, rank) == [];
  }

  lemma SpotSplits(t: seq<Record>, r: Record, key: Record -> Rank)
    requires Ordered(t, key)
    ensures var k := Spot(t, |t|, r, key);
      && (forall i :: 0 <= i < k ==> AtMost(key(t[i]), key(r)))
      && (forall i :: k <= i < |t| ==> AtMost(key(r), key(t[i])) && key(t[i]) != key(r))
  {
    var k := Spot(t, |t|, r, key);
    forall i | 0 <= i < k ensures AtMost(key(t[i]), key(r)) {
      if i < k - 1 { assert AtMost(key(t[i]), key(t[k - 1])); }
    }
  }

  lemma InsertOrdered(t: seq<Record>, r: Record, k: nat, key: Record -> Rank)
    requires Ordered(t, key) && k <= |t|
    requires forall i :: 0 <= i < k ==> AtMost(key(t[i]), key(r))
    requires forall i :: k <= i < |t| ==> AtMost(key(r), key(t[i]))
    ensures Ordered(t[..k] + [r] + t[k..], key)
  {
    hide AtMost;
    var u := t[..k] + [r] + t[k..];
    forall i, j | 0 <= i < j < |u| ensures AtMost(key(u[i]), key(u[j])) {
      if i != k && j != k {
        var i', j' := if i < k then i else i - 1, if j < k then j else j - 1;
        assert AtMost(key(t[i']), key(t[j']));
      }
    }
  }

  lemma InsertRanked(t: seq<Record>, r: Record, k: nat, key: Record -> Rank, rank: Rank)
    requires k <= |t| && forall i :: k <= i < |t| ==> key(t[i]) != key(r)
    ensures Ranked(t[..k] + [r] + t[k..], key, rank) == Ranked(t, key, rank) + Ranked([r], key, rank)
  {
    hide Ranked;
    RankedCat(t[..k] + [r], t[k..], key, rank);
    RankedCat(t[..k], [r], key, rank);
    RankedCat(t[..k], t[k..], key, rank);
    RankedOne(r, key, rank);
    assert t[..k] + t[k..] == t;
    if key(r) == rank {
      NoneRanked(t[k..], key, rank);
    }
  }

  lemma {:induction false} FirstSorted(s: seq<Record>, n: nat, key: Record -> Rank)
    requires n <= |s|
    ensures Ordered(SortFirst(s, n, key), key)
    ensures forall rank :: Ranked(SortFirst(s, n, key), key, rank) == Ranked(s[..n], key, rank)
  {
    hide Ranked, Spot, AtMost;
    if n > 0 {
      FirstSorted(s, n - 1, key);
      var t := SortFirst(s, n - 1, key);
      var r := s[n - 1];
      var k := Spot(t, |t|, r, key);
      SpotSplits(t, r, key);
      InsertOrdered(t, r, k, key);
      forall rank ensures Ranked(SortFirst(s, n, key), key, rank) == Ranked(s[..n], key, rank) {
        InsertRanked(t, r, k, key, rank);
        RankedCat(s[..n - 1], [r], key, rank);
        assert s[..n - 1] + [r] == s[..n];
      }
    } else {
      assert s[..0] == SortFirst(s, 0, key);
    }
  }

  /** The sort orders by rank and keeps records of one rank in the order they came. */
  lemma SortedIsStable(s: seq<Record>, key: Record -> Rank)
    ensures Ordered(Sorted(s, key), key)
    ensures forall rank :: Ranked(Sorted(s, key), key, rank) == Ranked(s, key, rank)
  {
    hide Ranked, SortFirst;
    FirstSorted(s, |s|, key);
    assert s[..|s|] == s;
  }

  lemma InsertCounts(t: seq<Record>, k: nat, x: Record)
    requires k <= |t|
    ensures multiset(t[..k] + [x] + t[k..]) == multiset(t) + multiset{x}
  {
    assert t == t[..k] + t[k..];
  }

  lemma OneMoreCounts(s: seq<Record>, n: nat, key: Record -> Rank)
    requires 0 < n <= |s|
    ensures multiset(SortFirst(s, n, key)) == multiset(SortFirst(s, n - 1, key)) + multiset{s[n - 1]}
  {
    hide Spot;
    var t := SortFirst(s, n - 1, key);
    var k := Spot(t, |t|, s[n - 1], key);
    assert SortFirst(s, n, key) == t[..k] + [s[n - 1]] + t[k..];
    hide SortFirst;
    InsertCounts(t, k, s[n - 1]);
  }

  lemma NothingCounts(s: seq<Record>, key: Record -> Rank)
    ensures multiset(SortFirst(s, 0, key)) == multiset(s[..0])
  {}

  lemma {:induction false} SortFirstCounts(s: seq<Record>, n: nat, key: Record -> Rank)
    requires n <= |s|
    ensures multiset(SortFirst(s, n, key)) == multiset(s[..n])
  {
    hide SortFirst;
    if n == 0 {
      NothingCounts(s, key);
    } else {
      SortFirstCounts(s, n - 1, key);
      OneMoreCounts(s, n, key);
      assert s[..n] == s[..n - 1] + [s[n - 1]];
    }
  }

  /** Nothing is lost, made up or doubled. */
  lemma SortedPermutes(s: seq<Record>, key: Record -> Rank)
    ensures multiset(Sorted(s, key)) == multiset(s)
  {
    hide SortFirst;
    SortFirstCounts(s, |s|, key);
    assert s[..|s|] == s;
  }

  lemma SortedMembers(s: seq<Record>, key: Record -> Rank, r: Record)
    ensures r in Sorted(s, key) <==> r in s
  {
    hide SortFirst;
    SortedPermutes(s, key);
    assert r in Sorted(s, key) <==> r in multiset(Sorted(s, key));
  }

  lemma LastSpot(s: seq<Record>, n: nat, key: Record -> Rank)
    requires Ordered(s, key) && 0 < n <= |s|
    ensures Spot(s[..n - 1], n - 1, s[n - 1], key) == n - 1
  {
    assert n > 1 ==> AtMost(key(s[n - 2]), key(s[n - 1]));
  }

  lemma {:induction false} SortOfOrdered(s: seq<Record>, n: nat, key: Record -> Rank)
    requires Ordered(s, key) && n <= |s|
    ensures SortFirst(s, n, key) == s[..n]
  {
    if n == 0 {
    } else {
      hide Spot;
      var t := SortFirst(s, n - 1, key);
      SortOfOrdered(s, n - 1, key);
      LastSpot(s, n, key);
      assert s[..n] == s[..n - 1] + [s[n - 1]];
    }
  }

  /** Sorting what is in order changes nothing. */
  lemma AlreadySorted(s: seq<Record>, key: Record -> Rank)
    requires Ordered(s, key)
    ensures Sorted(s, key) == s
  {
    SortOfOrdered(s, |s|, key);
    assert s[..|s|] == s;
  }
}
