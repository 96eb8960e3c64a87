/** Ranking of items by a real score, highest first, as Python's stable
    `list.sort(key=..., reverse=True)` does it: items with equal scores keep
    their original relative order. `Counter.most_common` is built on it. */
module Ranking {
  import opened Strings

  /** An item, the score it is ranked by, and its position in the input. */
  datatype Ranked<T> = Ranked(item: T, score: real, pos: nat)

  /** `x` is ranked no later than `y`: a higher score, or an equal score
      and an earlier position. */
  predicate Precedes<T>(x: Ranked<T>, y: Ranked<T>) {
    x.score > y.score || (x.score == y.score && x.pos <= y.pos)
  }

  predicate SortedRanked<T>(rs: seq<Ranked<T>>) {
    forall i, j :: 0 <= i < j < |rs| ==> Precedes(rs[i], rs[j])
  }

  function Insert<T>(x: Ranked<T>, rs: seq<Ranked<T>>): (r: seq<Ranked<T>>)
    ensures |r| == |rs| + 1
    ensures multiset(r) == multiset(rs) + multiset{x}
  {
    if rs == [] || Precedes(x, rs[0]) then [x] + rs
    else
      assert rs == [rs[0]] + rs[1..];
      [rs[0]] + Insert(x, rs[1..])
  }

  lemma InsertElements<T>(x: Ranked<T>, rs: seq<Ranked<T>>, y: Ranked<T>)
    requires y in Insert(x, rs)
    ensures y == x || y in rs
  {
    assert y in multiset(Insert(x, rs));
  }

  lemma {:induction false} InsertSorted<T>(x: Ranked<T>, rs: seq<Ranked<T>>)
    requires SortedRanked(rs)
    ensures SortedRanked(Insert(x, rs))
  {
    if rs != [] && !Precedes(x, rs[0]) {
      var t := Insert(x, rs[1..]);
      InsertSorted(x, rs[1..]);
      forall k | 0 <= k < |t| ensures Precedes(rs[0], t[k]) {
        InsertElements(x, rs[1..], t[k]);
      }
    }
  }

  lemma {:induction false} InsertDistinct<T>(x: Ranked<T>, rs: seq<Ranked<T>>)
    requires Distinct(rs) && x !in rs
    ensures Distinct(Insert(x, rs))
  {
    if rs != [] && !Precedes(x, rs[0]) {
      var t := Insert(x, rs[1..]);
      InsertDistinct(x, rs[1..]);
      forall k | 0 <= k < |t| ensures rs[0] != t[k] {
        InsertElements(x, rs[1..], t[k]);
      }
    }
  }

  /** Insertion sort into ranking order. */
  function Sort<T>(rs: seq<Ranked<T>>): (r: seq<Ranked<T>>)
    ensures |r| == |rs|
    ensures multiset(r) == multiset(rs)
  {
    if rs == [] then []
    else
      assert rs == [rs[0]] + rs[1..];
      Insert(rs[0], Sort(rs[1..]))
  }

  lemma {:induction false} SortSorted<T>(rs: seq<Ranked<T>>)
    ensures SortedRanked(Sort(rs))
  {
    if rs != [] {
      SortSorted(rs[1..]);
      InsertSorted(rs[0], Sort(rs[1..]));
    }
  }

  lemma {:induction false} SortDistinct<T>(rs: seq<Ranked<T>>)
    requires Distinct(rs)
    ensures Distinct(Sort(rs))
  {
    if rs != [] {
      var t := Sort(rs[1..]);
      SortDistinct(rs[1..]);
      assert rs[0] !in rs[1..];
      assert rs[0] in t <==> rs[0] in multiset(rs[1..]);
      InsertDistinct(rs[0], t);
    }
  }

  /** Each item paired with its score and its position. */
  function Tag<T>(xs: seq<T>, score: T -> real): (rs: seq<Ranked<T>>)
    ensures |rs| == |xs|
    ensures forall i :: 0 <= i < |xs| ==> rs[i] == Ranked(xs[i], score(xs[i]), i)
  {
    seq(|xs|, i requires 0 <= i < |xs| => Ranked(xs[i], score(xs[i]), i))
  }

  function Items<T>(rs: seq<Ranked<T>>): (xs: seq<T>)
    ensures |xs| == |rs|
    ensures forall i :: 0 <= i < |rs| ==> xs[i] == rs[i].item
  {
    if rs == [] then [] else [rs[0].item] + Items(rs[1..])
  }

  lemma {:induction false} ItemsInsert<T>(x: Ranked<T>, rs: seq<Ranked<T>>)
    ensures multiset(Items(Insert(x, rs))) == multiset(Items(rs)) + multiset{x.item}
  {
    if rs == [] || Precedes(x, rs[0]) {
      assert Items([x] + rs) == [x.item] + Items(rs);
    } else {
      ItemsInsert(x, rs[1..]);
      assert Items([rs[0]] + Insert(x, rs[1..])) == [rs[0].item] + Items(Insert(x, rs[1..]));
      assert Items(rs) == [rs[0].item] + Items(rs[1..]);
    }
  }

  lemma {:induction false} ItemsSort<T>(rs: seq<Ranked<T>>)
    ensures multiset(Items(Sort(rs))) == multiset(Items(rs))
  {
    if rs != [] {
      ItemsSort(rs[1..]);
      ItemsInsert(rs[0], Sort(rs[1..]));
    }
  }

  /** Every element of the sorted tagged sequence is one of the tags. */
  lemma SortedTagsAreTags<T>(xs: seq<T>, score: T -> real, k: int)
    requires 0 <= k < |xs|
    ensures var r := Sort(Tag(xs, score)); r[k].pos < |xs| && r[k] == Tag(xs, score)[r[k].pos]
  {
    var tags := Tag(xs, score);
    var r := Sort(tags);
    assert r[k] in multiset(tags);
    var p :| 0 <= p < |tags| && tags[p] == r[k];
  }

  lemma TagDistinct<T>(xs: seq<T>, score: T -> real)
    ensures Distinct(Tag(xs, score))
  {
  }

  /** The items in order of non-increasing score; equal scores keep their input order. */
  function SortByScore<T>(xs: seq<T>, score: T -> real): (r: seq<T>)
    ensures |r| == |xs|
  {
    Items(Sort(Tag(xs, score)))
  }

  /** Ranking is a permutation into non-increasing score order. */
  lemma SortByScoreSpec<T>(xs: seq<T>, score: T -> real)
    ensures var r := SortByScore(xs, score);
      && multiset(r) == multiset(xs)
      && (forall i :: 0 <= i < |r| ==> r[i] in xs)
      && (forall i, j :: 0 <= i < j < |r| ==> score(r[i]) >= score(r[j]))
  {
    var r := SortByScore(xs, score);
    SortByScorePermutation(xs, score);
    forall i | 0 <= i < |r| ensures r[i] in xs {
      assert r[i] in multiset(xs);
    }
    forall i, j | 0 <= i < j < |r| ensures score(r[i]) >= score(r[j]) {
      SortByScoreOrderAt(xs, score, i, j);
    }
  }

  lemma SortByScorePermutation<T>(xs: seq<T>, score: T -> real)
    ensures multiset(SortByScore(xs, score)) == multiset(xs)
  {
    ItemsSort(Tag(xs, score));
    assert Items(Tag(xs, score)) == xs;
  }

  lemma SortByScoreOrderAt<T>(xs: seq<T>, score: T -> real, i: int, j: int)
    requires 0 <= i < j < |xs|
    ensures var r := SortByScore(xs, score); score(r[i]) >= score(r[j])
  {
    var sorted := Sort(Tag(xs, score));
    SortSorted(Tag(xs, score));
    SortedTagsAreTags(xs, score, i);
    SortedTagsAreTags(xs, score, j);
    assert Precedes(sorted[i], sorted[j]);
  }

  /** Sorting never merges or duplicates items: distinct input, distinct output. */
  lemma SortByScoreDistinct<T>(xs: seq<T>, score: T -> real)
    requires Distinct(xs)
    ensures Distinct(SortByScore(xs, score))
  {
    var tags := Tag(xs, score);
    var sorted := Sort(tags);
    TagDistinct(xs, score);
    SortDistinct(tags);
    var r := SortByScore(xs, score);
    forall i, j | 0 <= i < j < |r| ensures r[i] != r[j] {
      SortedTagsAreTags(xs, score, i);
      SortedTagsAreTags(xs, score, j);
      assert sorted[i] != sorted[j];
    }
  }

  /** Position of the first occurrence of `x` in `xs`. */
  function IndexOf<T(==)>(xs: seq<T>, x: T): (k: nat)
    requires x in xs
    ensures k < |xs| && xs[k] == x && x !in xs[..k]
    ensures forall t :: 0 <= t < k ==> xs[t] != x
  {
    if xs[0] == x then 0
    else
      assert xs == [xs[0]] + xs[1..];
      var k := IndexOf(xs[1..], x);
      assert xs[..k + 1] == [xs[0]] + xs[1..][..k];
      k + 1
  }

  lemma IndexOfDistinct<T>(xs: seq<T>, p: int)
    requires Distinct(xs) && 0 <= p < |xs|
    ensures IndexOf(xs, xs[p]) == p
  {
  }

  /** Ties in score leave the items in their input order (stability). */
  lemma SortByScoreStable<T>(xs: seq<T>, score: T -> real)
    requires Distinct(xs)
    ensures var r := SortByScore(xs, score);
      && (forall i :: 0 <= i < |r| ==> r[i] in xs)
      && forall i, j :: 0 <= i < j < |r| && score(r[i]) == score(r[j]) ==>
        IndexOf(xs, r[i]) < IndexOf(xs, r[j])
  {
    var tags := Tag(xs, score);
    var sorted := Sort(tags);
    TagDistinct(xs, score);
    SortDistinct(tags);
    SortSorted(tags);
    SortByScoreSpec(xs, score);
    var r := SortByScore(xs, score);
    forall i, j | 0 <= i < j < |r| && score(r[i]) == score(r[j])
      ensures IndexOf(xs, r[i]) < IndexOf(xs, r[j])
    {
      SortedTagsAreTags(xs, score, i);
      SortedTagsAreTags(xs, score, j);
      assert Precedes(sorted[i], sorted[j]);
      assert sorted[i] != sorted[j];
      IndexOfDistinct(xs, sorted[i].pos);
      IndexOfDistinct(xs, sorted[j].pos);
    }
  }

  function SumBy<T>(xs: seq<T>, f: T -> int): int {
    if xs == [] then 0 else f(xs[0]) + SumBy(xs[1..], f)
  }

  lemma {:induction false} SumByInsert<T>(x: Ranked<T>, rs: seq<Ranked<T>>, f: T -> int)
    ensures SumBy(Items(Insert(x, rs)), f) == f(x.item) + SumBy(Items(rs), f)
  {
    if rs == [] || Precedes(x, rs[0]) {
      assert Items([x] + rs) == [x.item] + Items(rs);
      assert ([x.item] + Items(rs))[1..] == Items(rs);
    } else {
      SumByInsert(x, rs[1..], f);
      var t := Insert(x, rs[1..]);
      assert Items([rs[0]] + t) == [rs[0].item] + Items(t);
      assert ([rs[0].item] + Items(t))[1..] == Items(t);
      assert Items(rs) == [rs[0].item] + Items(rs[1..]);
      assert ([rs[0].item] + Items(rs[1..]))[1..] == Items(rs[1..]);
    }
  }

  lemma {:induction false} SumBySort<T>(rs: seq<Ranked<T>>, f: T -> int)
    ensures SumBy(Items(Sort(rs)), f) == SumBy(Items(rs), f)
  {
    if rs != [] {
      SumBySort(rs[1..], f);
      SumByInsert(rs[0], Sort(rs[1..]), f);
      assert Items(rs) == [rs[0].item] + Items(rs[1..]);
      assert ([rs[0].item] + Items(rs[1..]))[1..] == Items(rs[1..]);
    }
  }

  /** Ranking neither adds nor loses any weight. */
  lemma SumBySortByScore<T>(xs: seq<T>, score: T -> real, f: T -> int)
    ensures SumBy(SortByScore(xs, score), f) == SumBy(xs, f)
  {
    SumBySort(Tag(xs, score), f);
    assert Items(Tag(xs, score)) == xs;
  }

  /** A prefix weighs no more than the whole when no weight is negative. */
  lemma {:induction false} SumByPrefix<T>(xs: seq<T>, n: nat, f: T -> int)
    requires n <= |xs| && forall x :: x in xs ==> f(x) >= 0
    ensures SumBy(xs[..n], f) <= SumBy(xs, f)
  {
    if n > 0 {
      assert xs[..n][1..] == xs[1..][..n - 1];
      SumByPrefix(xs[1..], n - 1, f);
    } else {
      SumByNonNegative(xs, f);
    }
  }

  lemma {:induction false} SumByNonNegative<T>(xs: seq<T>, f: T -> int)
    requires forall x :: x in xs ==> f(x) >= 0
    ensures SumBy(xs, f) >= 0
  {
    if xs != [] {
      SumByNonNegative(xs[1..], f);
    }
  }

  // ---------------------------------------------------------------------
  // collections.Counter(xs).most_common(n)

  /** The distinct elements of `xs` in order of first occurrence. */
  function FirstSeen<T(==)>(xs: seq<T>): (d: seq<T>)
    ensures Distinct(d)
    ensures forall i :: 0 <= i < |d| ==> d[i] in xs
    ensures forall i :: 0 <= i < |xs| ==> xs[i] in d
  {
    if xs == [] then []
    else
      var n := |xs| - 1;
      var d := FirstSeen(xs[..n]);
      assert xs == xs[..n] + [xs[n]];
      if xs[n] in d then d else d + [xs[n]]
  }

  /** The distinct elements come in the order of their first occurrences. */
  lemma FirstSeenOrder<T>(xs: seq<T>)
    ensures var d := FirstSeen(xs);
      forall i, j :: 0 <= i < j < |d| ==> IndexOf(xs, d[i]) < IndexOf(xs, d[j])
  {
    var d := FirstSeen(xs);
    forall i, j | 0 <= i < j < |d| ensures IndexOf(xs, d[i]) < IndexOf(xs, d[j]) {
      FirstSeenOrderAt(xs, i, j);
    }
  }

  lemma {:induction false} FirstSeenOrderAt<T>(xs: seq<T>, i: int, j: int)
    requires 0 <= i < j < |FirstSeen(xs)|
    ensures var d := FirstSeen(xs); IndexOf(xs, d[i]) < IndexOf(xs, d[j])
  {
    var n := |xs| - 1;
    var init := xs[..n];
    var d0 := FirstSeen(init);
    var d := FirstSeen(xs);
    assert xs == init + [xs[n]];
    assert d[i] == d0[i] && d0[i] in init;
    FirstIndexInPrefix(xs, n, d0[i]);
    if j < |d0| {
      assert d[j] == d0[j] && d0[j] in init;
      FirstIndexInPrefix(xs, n, d0[j]);
      FirstSeenOrderAt(init, i, j);
    } else {
      assert d[j] == xs[n] && xs[n] !in init;
      assert IndexOf(xs, xs[n]) == n;
    }
  }

  lemma FirstIndexInPrefix<T>(xs: seq<T>, n: nat, y: T)
    requires n <= |xs| && y in xs[..n]
    ensures IndexOf(xs, y) == IndexOf(xs[..n], y)
  {
    var k := IndexOf(xs[..n], y);
    var m := IndexOf(xs, y);
    assert xs[k] == y;
    assert m <= k;
    assert xs[..n][m] == y;
  }

  function Occurrences<T(==)>(xs: seq<T>, x: T): nat {
    multiset(xs)[x]
  }

  datatype Tally<T> = Tally(key: T, count: nat)

  function TallyScore<T>(t: Tally<T>): real {
    t.count as real
  }

  function TallyKeys<T>(ts: seq<Tally<T>>): (ks: seq<T>)
    ensures |ks| == |ts| && forall i :: 0 <= i < |ts| ==> ks[i] == ts[i].key
  {
    seq(|ts|, i requires 0 <= i < |ts| => ts[i].key)
  }

  /** Counter(xs).items(): each distinct element with its number of occurrences. */
  function Tallies<T(==)>(xs: seq<T>): (ts: seq<Tally<T>>)
    ensures TallyKeys(ts) == FirstSeen(xs)
    ensures forall t :: t in ts ==> t.key in xs && t.count == Occurrences(xs, t.key)
  {
    var d := FirstSeen(xs);
    var ts := seq(|d|, i requires 0 <= i < |d| => Tally(d[i], Occurrences(xs, d[i])));
    assert TallyKeys(ts) == d;
    ts
  }

  /** Counter(xs).most_common(n). */
  function MostCommon<T(==)>(xs: seq<T>, n: nat): seq<Tally<T>> {
    Take(SortByScore(Tallies(xs), TallyScore), n)
  }

  lemma TalliesDistinct<T>(xs: seq<T>)
    ensures Distinct(Tallies(xs))
  {
    var ts := Tallies(xs);
    forall i, j | 0 <= i < j < |ts| ensures ts[i] != ts[j] {
      assert TallyKeys(ts)[i] != TallyKeys(ts)[j];
    }
  }

  lemma MostCommonPrefix<T>(xs: seq<T>, n: nat)
    ensures var s := SortByScore(Tallies(xs), TallyScore);
      var r := MostCommon(xs, n);
      |s| == |FirstSeen(xs)| && r == s[..|r|]
  {
    var ts := Tallies(xs);
    assert |ts| == |FirstSeen(xs)| by { assert |TallyKeys(ts)| == |ts|; }
  }

  /** most_common(n) keeps `n` entries, or every distinct element when there are fewer. */
  lemma MostCommonLength<T>(xs: seq<T>, n: nat)
    ensures |MostCommon(xs, n)| == if n < |FirstSeen(xs)| then n else |FirstSeen(xs)|
  {
    MostCommonPrefix(xs, n);
  }

  /** Each entry is an element of `xs` with its true, positive count. */
  lemma MostCommonEntries<T>(xs: seq<T>, n: nat)
    ensures forall t :: t in MostCommon(xs, n) ==>
      t.key in xs && t.count == Occurrences(xs, t.key) && t.count >= 1
  {
    var ts := Tallies(xs);
    var s := SortByScore(ts, TallyScore);
    var r := MostCommon(xs, n);
    MostCommonPrefix(xs, n);
    SortByScoreSpec(ts, TallyScore);
    forall t | t in r ensures t.key in xs && t.count == Occurrences(xs, t.key) && t.count >= 1 {
      var k :| 0 <= k < |r| && r[k] == t;
      assert s[k] == t;
      assert t in ts;
    }
  }

  /** No element is counted twice. */
  lemma MostCommonDistinct<T>(xs: seq<T>, n: nat)
    ensures Distinct(TallyKeys(MostCommon(xs, n)))
  {
    var ts := Tallies(xs);
    var s := SortByScore(ts, TallyScore);
    var r := MostCommon(xs, n);
    MostCommonPrefix(xs, n);
    SortByScoreSpec(ts, TallyScore);
    TalliesDistinct(xs);
    SortByScoreDistinct(ts, TallyScore);
    forall i, j | 0 <= i < j < |r| ensures r[i].key != r[j].key {
      assert r[i] == s[i] && r[j] == s[j];
      var a := IndexOf(ts, r[i]);
      var b := IndexOf(ts, r[j]);
      assert a != b;
      assert TallyKeys(ts)[a] != TallyKeys(ts)[b];
    }
  }

  /** Most frequent first. */
  lemma MostCommonOrdered<T>(xs: seq<T>, n: nat)
    ensures var r := MostCommon(xs, n);
      forall i, j :: 0 <= i < j < |r| ==> r[i].count >= r[j].count
  {
    var ts := Tallies(xs);
    var s := SortByScore(ts, TallyScore);
    var r := MostCommon(xs, n);
    MostCommonPrefix(xs, n);
    SortByScoreSpec(ts, TallyScore);
    forall i, j | 0 <= i < j < |r| ensures r[i].count >= r[j].count {
      assert TallyScore(s[i]) >= TallyScore(s[j]);
    }
  }

  /** Equally frequent elements come in order of first occurrence. */
  lemma MostCommonTies<T>(xs: seq<T>, n: nat)
    ensures var r := MostCommon(xs, n);
      && (forall i :: 0 <= i < |r| ==> r[i].key in xs)
      && forall i, j :: 0 <= i < j < |r| && r[i].count == r[j].count ==>
        IndexOf(xs, r[i].key) < IndexOf(xs, r[j].key)
  {
    var ts := Tallies(xs);
    var s := SortByScore(ts, TallyScore);
    var r := MostCommon(xs, n);
    MostCommonPrefix(xs, n);
    SortByScoreSpec(ts, TallyScore);
    TalliesDistinct(xs);
    SortByScoreStable(ts, TallyScore);
    MostCommonEntries(xs, n);
    FirstSeenOrder(xs);
    forall i | 0 <= i < |r| ensures r[i].key in xs {
      assert r[i] in r;
    }
    forall i, j | 0 <= i < j < |r| && r[i].count == r[j].count
      ensures IndexOf(xs, r[i].key) < IndexOf(xs, r[j].key)
    {
      assert r[i] == s[i] && r[j] == s[j];
      assert TallyScore(s[i]) == TallyScore(s[j]);
      var a := IndexOf(ts, r[i]);
      var b := IndexOf(ts, r[j]);
      assert a < b;
      assert FirstSeen(xs)[a] == r[i].key && FirstSeen(xs)[b] == r[j].key;
    }
  }

  /** Nothing left out is more frequent than the last entry kept. */
  lemma MostCommonComplete<T>(xs: seq<T>, n: nat)
    ensures var r := MostCommon(xs, n);
      forall x :: x in xs && x !in TallyKeys(r) ==>
        |r| == n && (n == 0 || Occurrences(xs, x) <= r[n - 1].count)
  {
    forall x | x in xs && x !in TallyKeys(MostCommon(xs, n))
      ensures var r := MostCommon(xs, n); |r| == n && (n == 0 || Occurrences(xs, x) <= r[n - 1].count)
    {
      MostCommonOmitted(xs, n, x);
    }
  }

  /** Every element of `xs` has its tally somewhere in the ranking. */
  lemma TallyRanked<T>(xs: seq<T>, x: T) returns (q: nat)
    requires x in xs
    ensures var s := SortByScore(Tallies(xs), TallyScore);
      q < |s| && s[q].key == x && s[q].count == Occurrences(xs, x)
  {
    var ts := Tallies(xs);
    var s := SortByScore(ts, TallyScore);
    var d := FirstSeen(xs);
    var i :| 0 <= i < |xs| && xs[i] == x;
    assert x in d;
    var p := IndexOf(d, x);
    assert ts[p].key == x && ts[p].count == Occurrences(xs, x) by {
      assert TallyKeys(ts)[p] == x;
      assert ts[p] in ts;
    }
    assert ts[p] in s by {
      SortByScorePermutation(ts, TallyScore);
      assert ts[p] in multiset(s);
    }
    q := IndexOf(s, ts[p]);
  }

  lemma MostCommonOmitted<T>(xs: seq<T>, n: nat, x: T)
    requires x in xs && x !in TallyKeys(MostCommon(xs, n))
    ensures var r := MostCommon(xs, n); |r| == n && (n == 0 || Occurrences(xs, x) <= r[n - 1].count)
  {
    var s := SortByScore(Tallies(xs), TallyScore);
    var r := MostCommon(xs, n);
    MostCommonPrefix(xs, n);
    var q := TallyRanked(xs, x);
    assert q >= |r| by {
      forall k | 0 <= k < |r| ensures s[k].key != x {
        assert TallyKeys(r)[k] in TallyKeys(r);
      }
    }
    assert |r| == n;
    if 0 < n {
      SortByScoreOrderAt(Tallies(xs), TallyScore, n - 1, q);
    }
  }
}
