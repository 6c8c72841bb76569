/**
 * `Array.prototype.sort` with the comparator `(a, b) => key(b) - key(a)`: a stable sort into
 * non-increasing order of a real-valued key (ECMAScript 2019 and later require stability).
 */
module StableSort {
  import opened Seqs

  predicate NonIncreasing<T>(s: seq<T>, key: T -> real) {
    forall i, j :: 0 <= i < j < |s| ==> key(s[i]) >= key(s[j])
  }

  /** The test "has key `k`", used to state stability. */
  function HasKey<T>(key: T -> real, k: real): T -> bool {
    x => key(x) == k
  }

  /** Places `x` before the first element of the sorted `t` whose key is not greater. */
  function Insert<T>(x: T, t: seq<T>, key: T -> real): (r: seq<T>)
    ensures |r| == |t| + 1
    ensures multiset(r) == multiset(t) + multiset{x}
  {
    if t == [] || key(t[0]) <= key(x) then [x] + t
    else
      assert t == [t[0]] + t[1..];
      [t[0]] + Insert(x, t[1..], key)
  }

  lemma {:induction false} InsertSorted<T>(x: T, t: seq<T>, key: T -> real)
    requires NonIncreasing(t, key)
    ensures NonIncreasing(Insert(x, t, key), key)
    ensures Insert(x, t, key)[0] == if t == [] || key(t[0]) <= key(x) then x else t[0]
  {
    if !(t == [] || key(t[0]) <= key(x)) {
      InsertSorted(x, t[1..], key);
      InsertBelow(x, t[1..], key, key(t[0]));
      ConsSorted(t[0], Insert(x, t[1..], key), key);
    }
  }

  /** A sorted sequence stays sorted under a head whose key is at least all of its keys. */
  lemma ConsSorted<T>(h: T, s: seq<T>, key: T -> real)
    requires NonIncreasing(s, key)
    requires forall k :: 0 <= k < |s| ==> key(s[k]) <= key(h)
    ensures NonIncreasing([h] + s, key)
  {
    var r := [h] + s;
    forall i, j | 0 <= i < j < |r| ensures key(r[i]) >= key(r[j]) {
      assert r[j] == s[j - 1];
      if i > 0 { assert r[i] == s[i - 1]; }
    }
  }

  /** Inserting below a bound that `x` and every element of `t` respect keeps the bound. */
  lemma {:induction false} InsertBelow<T>(x: T, t: seq<T>, key: T -> real, bound: real)
    requires key(x) <= bound
    requires forall k :: 0 <= k < |t| ==> key(t[k]) <= bound
    ensures forall k :: 0 <= k < |Insert(x, t, key)| ==> key(Insert(x, t, key)[k]) <= bound
  {
    if !(t == [] || key(t[0]) <= key(x)) {
      InsertBelow(x, t[1..], key, bound);
      assert Insert(x, t, key) == [t[0]] + Insert(x, t[1..], key);
    }
  }

  /** The sorted copy of `s`. */
  function SortDesc<T>(s: seq<T>, key: T -> real): (r: seq<T>)
    ensures |r| == |s|
    ensures multiset(r) == multiset(s)
  {
    if s == [] then [] else
      assert s == [s[0]] + s[1..];
      Insert(s[0], SortDesc(s[1..], key), key)
  }

  lemma {:induction false} InsertMap<T, U>(x: T, t: seq<T>, key: T -> real, f: T -> U)
    ensures multiset(Map(Insert(x, t, key), f)) == multiset(Map(t, f)) + multiset{f(x)}
  {
    if t == [] || key(t[0]) <= key(x) {
      assert Map([x] + t, f) == [f(x)] + Map(t, f);
    } else {
      InsertMap(x, t[1..], key, f);
      assert Map([t[0]] + Insert(x, t[1..], key), f) == [f(t[0])] + Map(Insert(x, t[1..], key), f);
      assert Map(t, f) == [f(t[0])] + Map(t[1..], f);
    }
  }

  /** Sorting permutes any projection of the elements, e.g. the list of model names. */
  lemma {:induction false} SortDescMap<T, U>(s: seq<T>, key: T -> real, f: T -> U)
    ensures multiset(Map(SortDesc(s, key), f)) == multiset(Map(s, f))
  {
    if s != [] {
      SortDescMap(s[1..], key, f);
      InsertMap(s[0], SortDesc(s[1..], key), key, f);
      assert Map(s, f) == [f(s[0])] + Map(s[1..], f);
    }
  }

  /** The sorted copy is in non-increasing key order. */
  lemma {:induction false} SortDescSorted<T>(s: seq<T>, key: T -> real)
    ensures NonIncreasing(SortDesc(s, key), key)
  {
    if s != [] {
      SortDescSorted(s[1..], key);
      InsertSorted(s[0], SortDesc(s[1..], key), key);
    }
  }

  lemma {:induction false} InsertStable<T>(x: T, t: seq<T>, key: T -> real, k: real)
    ensures Filter(Insert(x, t, key), HasKey(key, k))
         == (if key(x) == k then [x] else []) + Filter(t, HasKey(key, k))
  {
    var p := HasKey(key, k);
    if t == [] || key(t[0]) <= key(x) {
      assert ([x] + t)[1..] == t;
    } else {
      InsertStable(x, t[1..], key, k);
      assert ([t[0]] + Insert(x, t[1..], key))[1..] == Insert(x, t[1..], key);
    }
  }

  /**
   * Stability: the elements that share any one key value appear in the sorted copy
   * in the same order as in the input.
   */
  lemma {:induction false} SortDescStable<T>(s: seq<T>, key: T -> real, k: real)
    ensures Filter(SortDesc(s, key), HasKey(key, k)) == Filter(s, HasKey(key, k))
  {
    if s != [] {
      SortDescStable(s[1..], key, k);
      InsertStable(s[0], SortDesc(s[1..], key), key, k);
    }
  }

  /** Sorting keeps every property that all the elements share. */
  lemma SortDescKeeps<T>(s: seq<T>, key: T -> real, p: T -> bool)
    requires forall i :: 0 <= i < |s| ==> p(s[i])
    ensures forall i :: 0 <= i < |SortDesc(s, key)| ==> p(SortDesc(s, key)[i])
  {
    var r := SortDesc(s, key);
    forall i | 0 <= i < |r|
      ensures p(r[i])
    {
      assert r[i] in multiset(r);
      var j :| 0 <= j < |s| && s[j] == r[i];
    }
  }

  /** The index of the first element with the greatest key. */
  function FirstMaxIndex<T>(s: seq<T>, key: T -> real): (i: nat)
    requires s != []
    ensures i < |s|
    ensures forall j :: 0 <= j < |s| ==> key(s[j]) <= key(s[i])
    ensures forall j :: 0 <= j < i ==> key(s[j]) < key(s[i])
  {
    if |s| == 1 then 0 else
      var j := FirstMaxIndex(s[1..], key);
      if key(s[0]) >= key(s[1..][j]) then 0 else j + 1
  }

  /** The head of the sorted copy is the earliest element among those with the greatest key. */
  lemma {:induction false} SortDescHead<T>(s: seq<T>, key: T -> real)
    requires s != []
    ensures SortDesc(s, key)[0] == s[FirstMaxIndex(s, key)]
  {
    if |s| > 1 {
      SortDescHead(s[1..], key);
      SortDescSorted(s[1..], key);
      InsertSorted(s[0], SortDesc(s[1..], key), key);
    }
  }
}
