/** `rows.sort((a, b) => key(b) - key(a))`: JavaScript's stable sort with a
    comparator that orders by a numeric key, largest first. */
module Sorting {
  import opened Seqs

  predicate SortedDesc<T>(s: seq<T>, key: T -> int) {
    forall i, j :: 0 <= i < j < |s| ==> key(s[i]) >= key(s[j])
  }

  /** Insert `x` after every element whose key is at least `key(x)`. */
  function Insert<T>(s: seq<T>, x: T, key: T -> int): (r: seq<T>)
    decreases |s|
  {
    if s == [] then [x]
    else if key(s[0]) >= key(x) then [s[0]] + Insert(s[1..], x, key)
    else [x] + s
  }

  /** Insertion sort, stable: of two elements with equal keys the earlier one stays first. */
  function SortDesc<T>(s: seq<T>, key: T -> int): (r: seq<T>)
    decreases |s|
  {
    if s == [] then [] else Insert(SortDesc(s[..|s| - 1], key), s[|s| - 1], key)
  }

  lemma {:induction false} InsertPermutes<T>(s: seq<T>, x: T, key: T -> int)
    ensures multiset(Insert(s, x, key)) == multiset(s) + multiset{x}
    decreases |s|
  {
    if s != [] && key(s[0]) >= key(x) {
      InsertPermutes(s[1..], x, key);
      assert s == [s[0]] + s[1..];
    }
  }

  predicate AllAtMost<T>(s: seq<T>, key: T -> int, b: int) {
    forall i :: 0 <= i < |s| ==> key(s[i]) <= b
  }

  lemma {:induction false} InsertAtMost<T>(s: seq<T>, x: T, key: T -> int, b: int)
    requires AllAtMost(s, key, b) && key(x) <= b
    ensures AllAtMost(Insert(s, x, key), key, b)
    decreases |s|
  {
    if s != [] && key(s[0]) >= key(x) {
      assert AllAtMost(s[1..], key, b) by {
        forall i | 0 <= i < |s[1..]| ensures key(s[1..][i]) <= b {
          assert s[1..][i] == s[i + 1];
        }
      }
      InsertAtMost(s[1..], x, key, b);
      var t := Insert(s[1..], x, key);
      assert Insert(s, x, key) == [s[0]] + t;
      forall i | 0 <= i < |[s[0]] + t| ensures key(([s[0]] + t)[i]) <= b {
        if i > 0 {
          assert ([s[0]] + t)[i] == t[i - 1];
        }
      }
    }
  }

  lemma ConsSorted<T>(h: T, t: seq<T>, key: T -> int)
    requires SortedDesc(t, key) && AllAtMost(t, key, key(h))
    ensures SortedDesc([h] + t, key)
  {
    var r := [h] + t;
    forall i, j | 0 <= i < j < |r| ensures key(r[i]) >= key(r[j]) {
      assert r[j] == t[j - 1];
      if i > 0 {
        assert r[i] == t[i - 1];
      }
    }
  }

  lemma TailSorted<T>(s: seq<T>, key: T -> int)
    requires s != [] && SortedDesc(s, key)
    ensures SortedDesc(s[1..], key) && AllAtMost(s[1..], key, key(s[0])) && AllAtMost(s, key, key(s[0]))
  {
    var tail := s[1..];
    forall i, j | 0 <= i < j < |tail| ensures key(tail[i]) >= key(tail[j]) {
      assert tail[i] == s[i + 1] && tail[j] == s[j + 1];
    }
    forall i | 0 <= i < |tail| ensures key(tail[i]) <= key(s[0]) {
      assert tail[i] == s[i + 1];
    }
    forall i | 0 <= i < |s| ensures key(s[i]) <= key(s[0]) {
      if i > 0 {
        assert key(s[0]) >= key(s[i]);
      }
    }
  }

  lemma {:induction false} InsertSorted<T>(s: seq<T>, x: T, key: T -> int)
    requires SortedDesc(s, key)
    ensures SortedDesc(Insert(s, x, key), key)
    decreases |s|
  {
    if s != [] {
      TailSorted(s, key);
      if key(s[0]) >= key(x) {
        InsertSorted(s[1..], x, key);
        InsertAtMost(s[1..], x, key, key(s[0]));
        ConsSorted(s[0], Insert(s[1..], x, key), key);
      } else {
        assert AllAtMost(s, key, key(x)) by {
          forall i | 0 <= i < |s| ensures key(s[i]) <= key(x) {
            assert key(s[i]) <= key(s[0]);
          }
        }
        ConsSorted(x, s, key);
      }
    }
  }

  /** The sorted rows are ordered by key, largest first, and are a permutation
      of the input rows. */
  lemma {:induction false} SortDescCorrect<T>(s: seq<T>, key: T -> int)
    ensures SortedDesc(SortDesc(s, key), key)
    ensures multiset(SortDesc(s, key)) == multiset(s)
    ensures |SortDesc(s, key)| == |s|
    decreases |s|
  {
    if s != [] {
      var init := s[..|s| - 1];
      SortDescCorrect(init, key);
      InsertSorted(SortDesc(init, key), s[|s| - 1], key);
      InsertPermutes(SortDesc(init, key), s[|s| - 1], key);
      assert s == init + [s[|s| - 1]];
      assert multiset(s) == multiset(init) + multiset{s[|s| - 1]};
      assert |SortDesc(s, key)| == |multiset(SortDesc(s, key))|;
    }
  }

  lemma {:induction false} InsertSum<T>(s: seq<T>, x: T, key: T -> int, f: T -> int)
    ensures SumBy(Insert(s, x, key), f) == SumBy(s, f) + f(x)
    decreases |s|
  {
    if s != [] && key(s[0]) >= key(x) {
      InsertSum(s[1..], x, key, f);
    }
  }

  /** Sorting does not change a sum over the rows. */
  lemma {:induction false} SortDescSum<T>(s: seq<T>, key: T -> int, f: T -> int)
    ensures SumBy(SortDesc(s, key), f) == SumBy(s, f)
    decreases |s|
  {
    if s != [] {
      var init := s[..|s| - 1];
      SortDescSum(init, key, f);
      InsertSum(SortDesc(init, key), s[|s| - 1], key, f);
      assert s == init + [s[|s| - 1]];
      SumByAppend(init, [s[|s| - 1]], f);
    }
  }
}
