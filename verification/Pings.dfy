/** The median of the collected ping times. */
module Pings {
  import opened Text

  const MAX_PINGS: nat := 200
  const PING_DURATION_NS: nat := 1_000_000_000

  predicate Sorted(s: seq<nat>) { forall i, j | 0 <= i < j < |s| :: s[i] <= s[j] }

  function Insert(x: nat, s: seq<nat>): (r: seq<nat>)
    requires Sorted(s)
    ensures |r| == |s| + 1 && Sorted(r)
    ensures forall i | 0 <= i < |r| :: r[i] == x || r[i] in s
  {
    if s == [] || x <= s[0] then [x] + s else [s[0]] + Insert(x, s[1..])
  }

  lemma {:induction false} InsertMembers(x: nat, s: seq<nat>)
    requires Sorted(s)
    ensures multiset(Insert(x, s)) == multiset(s) + multiset{x}
  {
    if s != [] && x > s[0] {
      InsertMembers(x, s[1..]);
      assert s == [s[0]] + s[1..];
      assert Insert(x, s) == [s[0]] + Insert(x, s[1..]);
    } else {
      assert Insert(x, s) == [x] + s;
    }
  }

  /** `sort_unstable`. */
  function Sort(s: seq<nat>): (r: seq<nat>)
    ensures |r| == |s| && Sorted(r) && multiset(r) == multiset(s)
  {
    if s == [] then []
    else
      assert s == [s[0]] + s[1..];
      InsertMembers(s[0], Sort(s[1..]));
      Insert(s[0], Sort(s[1..]))
  }

  /** The middle of a sorted vector, with the wrap-around of u64 addition. */
  function MedianOf(s: seq<nat>): nat
    requires s != []
  {
    var mid := |s| / 2;
    if |s| % 2 == 0 then (s[mid - 1] + s[mid]) % U64 / 2 else s[mid]
  }

  /** `get_median_latency`. */
  function Median(times: seq<nat>): nat
    requires times != []
  {
    MedianOf(Sort(times))
  }

  /** How many samples are at most, or at least, a bound. */
  function Below(s: seq<nat>, m: nat): nat { if s == [] then 0 else (if s[0] <= m then 1 else 0) + Below(s[1..], m) }

  function Above(s: seq<nat>, m: nat): nat { if s == [] then 0 else (if s[0] >= m then 1 else 0) + Above(s[1..], m) }

  lemma BelowCons(x: nat, s: seq<nat>, m: nat)
    ensures Below([x] + s, m) == (if x <= m then 1 else 0) + Below(s, m)
    ensures Above([x] + s, m) == (if x >= m then 1 else 0) + Above(s, m)
  {
    assert ([x] + s)[1..] == s;
  }

  lemma {:induction false} BelowInsert(x: nat, s: seq<nat>, m: nat)
    requires Sorted(s)
    ensures Below(Insert(x, s), m) == Below([x] + s, m)
    ensures Above(Insert(x, s), m) == Above([x] + s, m)
  {
    hide Below, Above;
    if s != [] && x > s[0] {
      BelowInsert(x, s[1..], m);
      BelowCons(s[0], Insert(x, s[1..]), m);
      BelowCons(x, s[1..], m);
      BelowCons(x, s, m);
      BelowCons(s[0], s[1..], m);
      assert s == [s[0]] + s[1..];
    }
  }

  lemma {:induction false} BelowSort(s: seq<nat>, m: nat)
    ensures Below(Sort(s), m) == Below(s, m) && Above(Sort(s), m) == Above(s, m)
  {
    if s != [] {
      BelowSort(s[1..], m);
      BelowInsert(s[0], Sort(s[1..]), m);
      assert ([s[0]] + Sort(s[1..]))[1..] == Sort(s[1..]);
    }
  }

  lemma {:induction false} SortedCounts(s: seq<nat>, k: nat, m: nat)
    requires Sorted(s) && k <= |s|
    ensures k > 0 && s[k - 1] <= m ==> Below(s, m) >= k
    ensures k < |s| && s[k] >= m ==> Above(s, m) >= |s| - k
  {
    if s != [] {
      if k > 0 {
        SortedCounts(s[1..], k - 1, m);
      } else {
        SortedCounts(s[1..], 0, m);
      }
    }
  }

  lemma SortedHead(s: seq<nat>, x: nat)
    requires Sorted(s) && x in multiset(s)
    ensures s[0] <= x
  {
    assert x in s;
    var i :| 0 <= i < |s| && s[i] == x;
  }

  lemma TailMultiset(s: seq<nat>)
    requires s != []
    ensures multiset(s[1..]) == multiset(s) - multiset{s[0]} && s[0] in multiset(s)
  {
    assert s == [s[0]] + s[1..];
  }

  lemma SameHeadAndTail<T>(s: seq<T>, t: seq<T>)
    requires s != [] && t != [] && s[0] == t[0] && s[1..] == t[1..]
    ensures s == t
  {
    assert s == [s[0]] + s[1..] && t == [t[0]] + t[1..];
  }

  lemma SortedTail(s: seq<nat>)
    requires Sorted(s) && s != []
    ensures Sorted(s[1..])
  {
  }

  lemma SameFirst(s: seq<nat>, t: seq<nat>)
    requires Sorted(s) && Sorted(t) && multiset(s) == multiset(t) && s != [] && t != []
    ensures s[0] == t[0] && multiset(s[1..]) == multiset(t[1..])
  {
    TailMultiset(s);
    TailMultiset(t);
    SortedHead(s, t[0]);
    SortedHead(t, s[0]);
  }

  lemma {:induction false} SortedPermutation(s: seq<nat>, t: seq<nat>)
    requires Sorted(s) && Sorted(t) && multiset(s) == multiset(t) && |s| == |t|
    ensures s == t
  {
    hide Sorted;
    if s != [] {
      SortedTail(s);
      SortedTail(t);
      SameFirst(s, t);
      SortedPermutation(s[1..], t[1..]);
      SameHeadAndTail(s, t);
    }
  }

  lemma MedianOrderIndependent(s: seq<nat>, t: seq<nat>)
    requires s != [] && multiset(s) == multiset(t)
    ensures t != [] && Median(s) == Median(t)
  {
    SameLength(s, t);
    var s', t' := Sort(s), Sort(t);
    SortedPermutation(s', t');
  }

  /** The two middle samples of a sorted vector, the same one for an odd count. */
  function Middle(s: seq<nat>): (p: (nat, nat))
    requires s != []
  {
    (s[(|s| - 1) / 2], s[|s| / 2])
  }

  lemma HalfBelow(s: seq<nat>, m: nat)
    requires s != [] && Sorted(s) && Middle(s).0 <= m <= Middle(s).1
    ensures 2 * Below(s, m) >= |s| && 2 * Above(s, m) >= |s|
  {
    SortedCounts(s, (|s| - 1) / 2 + 1, m);
    SortedCounts(s, |s| / 2, m);
  }

  lemma WrappedMean(a: nat, b: nat)
    requires a <= b < U64
    ensures a <= (a + b) % U64 / 2 <= b <==> a + b < U64
  {
    if a + b >= U64 {
      assert (a + b) % U64 == a + b - U64;
    }
  }

  lemma MedianOfSorted(s: seq<nat>)
    requires s != [] && Sorted(s) && s[|s| - 1] < U64
    ensures Middle(s).0 <= MedianOf(s) <= Middle(s).1 <==> (|s| % 2 == 0 ==> Middle(s).0 + Middle(s).1 < U64)
  {
    var n := |s|;
    if n % 2 == 0 {
      assert (n - 1) / 2 == n / 2 - 1;
      WrappedMean(s[n / 2 - 1], s[n / 2]);
    } else {
      assert (n - 1) / 2 == n / 2;
    }
  }

  lemma SortMembers(times: seq<nat>, i: nat)
    requires i < |times|
    ensures Sort(times)[i] in times
  {
    var s := Sort(times);
    assert s[i] in multiset(s);
  }

  /** The median lies between the middle samples exactly when their sum, for an
      even count, does not overflow; then half the samples are on each side. */
  lemma MedianInMiddle(times: seq<nat>)
    requires times != [] && forall i | 0 <= i < |times| :: times[i] < U64
    ensures var (m, (a, b)) := (Median(times), Middle(Sort(times)));
      a <= m <= b <==> (|times| % 2 == 0 ==> a + b < U64)
    ensures var (m, (a, b)) := (Median(times), Middle(Sort(times)));
      a <= m <= b ==> 2 * Below(times, m) >= |times| && 2 * Above(times, m) >= |times|
  {
    var s, m := Sort(times), Median(times);
    SortMembers(times, |times| - 1);
    MedianOfSorted(s);
    if Middle(s).0 <= m <= Middle(s).1 {
      HalfBelow(s, m);
      BelowSort(times, m);
    }
  }

  /** The median of an odd count is the middle sample; that of an even count is the
      mean of the middle two, rounded down, less 2^63 when their sum does not fit. */
  lemma MedianIsMean(times: seq<nat>)
    requires times != [] && forall i | 0 <= i < |times| :: times[i] < U64
    ensures var (m, (a, b)) := (Median(times), Middle(Sort(times)));
      var sum := if a + b < U64 then a + b else a + b - U64;
      if |times| % 2 == 1 then m == a == b else 2 * m == sum || 2 * m == sum - 1
  {
    hide Sort, Sorted, MedianOf;
    var n := |times|;
    SortMembers(times, (n - 1) / 2);
    SortMembers(times, n / 2);
    MeanOfMiddle(Sort(times));
  }

  lemma MeanOfMiddle(s: seq<nat>)
    requires s != [] && Middle(s).0 < U64 && Middle(s).1 < U64
    ensures var (m, (a, b)) := (MedianOf(s), Middle(s));
      var sum := if a + b < U64 then a + b else a + b - U64;
      if |s| % 2 == 1 then m == a == b else 2 * m == sum || 2 * m == sum - 1
  {
    var n := |s|;
    if n % 2 == 0 {
      assert (n - 1) / 2 == n / 2 - 1;
      WrappedSum(s[n / 2 - 1], s[n / 2]);
    } else {
      assert (n - 1) / 2 == n / 2;
    }
  }

  lemma WrappedSum(a: nat, b: nat)
    requires a < U64 && b < U64
    ensures (a + b) % U64 == if a + b < U64 then a + b else a + b - U64
  {
  }

  /** Two samples whose sum does not fit: the median is below both. */
  lemma SumWraps(a: nat)
    requires U64 / 2 <= a < U64
    ensures Median([a, a]) == a - U64 / 2 < a
  {
    assert Sort([a, a]) == [a, a] by {
      assert [a, a][1..] == [a] && [a][1..] == [];
    }
  }

  /** Within the range of the samples, whenever the sum fits. */
  lemma MedianInRange(times: seq<nat>, least: nat, most: nat)
    requires times != [] && forall i | 0 <= i < |times| :: least <= times[i] <= most < U64
    requires |times| % 2 == 0 ==> Middle(Sort(times)).0 + Middle(Sort(times)).1 < U64
    ensures least <= Median(times) <= most
  {
    MedianInMiddle(times);
    SortMembers(times, (|times| - 1) / 2);
    SortMembers(times, |times| / 2);
  }
}
