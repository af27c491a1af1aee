/** Order statistics over measured samples: what a middle value of a sorted sample says about
    how many samples lie on either side of a boundary. */
module Samples {
  predicate Sorted(s: seq<real>) { forall i, j | 0 <= i < j < |s| :: s[i] <= s[j] }

  function Insert(x: real, s: seq<real>): (r: seq<real>)
    requires Sorted(s)
    ensures Sorted(r) && |r| == |s| + 1
    ensures r[0] == if s == [] || x <= s[0] then x else s[0]
  {
    if s == [] then [x]
    else if x <= s[0] then [x] + s
    else [s[0]] + Insert(x, s[1..])
  }

  function Sort(s: seq<real>): (r: seq<real>)
    ensures Sorted(r) && |r| == |s|
  {
    if s == [] then [] else Insert(s[0], Sort(s[1..]))
  }

  lemma {:induction false} InsertAdds(x: real, s: seq<real>)
    requires Sorted(s)
    ensures multiset(Insert(x, s)) == multiset(s) + multiset{x}
  {
    if s != [] && x > s[0] {
      InsertAdds(x, s[1..]);
      assert s == [s[0]] + s[1..];
    }
  }

  lemma {:induction false} SortPermutes(s: seq<real>)
    ensures multiset(Sort(s)) == multiset(s)
  {
    if s != [] {
      SortPermutes(s[1..]);
      InsertAdds(s[0], Sort(s[1..]));
      assert s == [s[0]] + s[1..];
    }
  }

  function CountBelow(s: seq<real>, t: real): nat {
    if s == [] then 0 else (if s[0] < t then 1 else 0) + CountBelow(s[1..], t)
  }

  function CountAbove(s: seq<real>, t: real): nat {
    if s == [] then 0 else (if s[0] > t then 1 else 0) + CountAbove(s[1..], t)
  }

  lemma {:induction false} InsertCounts(x: real, s: seq<real>, t: real)
    requires Sorted(s)
    ensures CountBelow(Insert(x, s), t) == CountBelow(s, t) + (if x < t then 1 else 0)
    ensures CountAbove(Insert(x, s), t) == CountAbove(s, t) + (if x > t then 1 else 0)
  {
    if s != [] {
      if x <= s[0] {
        assert ([x] + s)[1..] == s;
      } else {
        InsertCounts(x, s[1..], t);
        var rest := Insert(x, s[1..]);
        assert ([s[0]] + rest)[1..] == rest;
      }
    }
  }

  lemma {:induction false} SortCounts(s: seq<real>, t: real)
    ensures CountBelow(Sort(s), t) == CountBelow(s, t)
    ensures CountAbove(Sort(s), t) == CountAbove(s, t)
  {
    if s != [] {
      SortCounts(s[1..], t);
      InsertCounts(s[0], Sort(s[1..]), t);
    }
  }

  lemma {:induction false} NoneBelow(s: seq<real>, t: real)
    requires Sorted(s) && (s != [] ==> s[0] >= t)
    ensures CountBelow(s, t) == 0
  {
    if s != [] {
      NoneBelow(s[1..], t);
    }
  }

  lemma {:induction false} AllAbove(s: seq<real>, t: real)
    requires Sorted(s) && (s != [] ==> s[0] > t)
    ensures CountAbove(s, t) == |s|
  {
    if s != [] {
      AllAbove(s[1..], t);
    }
  }

  lemma {:induction false} CountAtMost(s: seq<real>, t: real)
    ensures CountBelow(s, t) <= |s| && CountAbove(s, t) <= |s|
  {
    if s != [] {
      CountAtMost(s[1..], t);
    }
  }

  // A sorted sample's k-th value and the number of samples below (above) a boundary.
  lemma {:induction false} RankBelow(s: seq<real>, k: nat, t: real)
    requires Sorted(s) && k < |s|
    ensures s[k] < t <==> CountBelow(s, t) > k
  {
    if s[0] >= t {
      NoneBelow(s, t);
    } else if k > 0 {
      RankBelow(s[1..], k - 1, t);
    }
  }

  lemma {:induction false} RankAbove(s: seq<real>, k: nat, t: real)
    requires Sorted(s) && k < |s|
    ensures s[k] > t <==> CountAbove(s, t) >= |s| - k
  {
    CountAtMost(s[1..], t);
    if s[0] > t {
      AllAbove(s, t);
    } else if k > 0 {
      RankAbove(s[1..], k - 1, t);
    }
  }

  // The middle value, the lower one of two.
  function LowerMedian(s: seq<real>): real { if s == [] then 0.0 else Sort(s)[(|s| - 1) / 2] }

  /** The lower median is below a boundary exactly when at least half the samples are. */
  lemma LowerMedianBelow(s: seq<real>, t: real)
    requires s != []
    ensures LowerMedian(s) < t <==> 2 * CountBelow(s, t) >= |s|
  {
    RankBelow(Sort(s), (|s| - 1) / 2, t);
    SortCounts(s, t);
  }

  /** It is above a boundary exactly when a strict majority is. */
  lemma LowerMedianAbove(s: seq<real>, t: real)
    requires s != []
    ensures LowerMedian(s) > t <==> 2 * CountAbove(s, t) > |s|
  {
    RankAbove(Sort(s), (|s| - 1) / 2, t);
    SortCounts(s, t);
  }

  // The largest sample, zero for none; samples are counts or rates and never negative.
  function WorstOf(s: seq<real>): (w: real)
    ensures w >= 0.0 && (forall i | 0 <= i < |s| :: s[i] <= w)
    ensures w == 0.0 || w in s
  {
    if s == [] then 0.0
    else
      var w := WorstOf(s[..|s| - 1]);
      assert s == s[..|s| - 1] + [s[|s| - 1]];
      if s[|s| - 1] > w then s[|s| - 1] else w
  }
}
