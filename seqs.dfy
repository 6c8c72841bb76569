/** Sequence operations of JavaScript arrays: `Array.from(new Set(...))`, `filter`, `slice(0, n)`, `reverse`. */
module Seqs {
  import opened Wrappers

  predicate NoDuplicates<T(==)>(s: seq<T>) {
    forall i, j :: 0 <= i < j < |s| ==> s[i] != s[j]
  }

  /** The index of the first occurrence of `x` in `s`. */
  function FirstIndex<T(==)>(s: seq<T>, x: T): (i: nat)
    requires x in s
    ensures i < |s| && s[i] == x && x !in s[..i]
  {
    if s[0] == x then 0 else
      var j := FirstIndex(s[1..], x);
      assert s[1..][..j] == s[1..j + 1];
      j + 1
  }

  /** `s.find(p)`, as the index of the first element that satisfies `p`. */
  function Find<T>(s: seq<T>, p: T -> bool): (r: Option<nat>)
    ensures r.Some? ==> r.value < |s| && p(s[r.value])
    ensures r.Some? ==> forall k :: 0 <= k < r.value ==> !p(s[k])
    ensures r.None? ==> forall k :: 0 <= k < |s| ==> !p(s[k])
  {
    if s == [] then None
    else if p(s[0]) then Some(0)
    else
      match Find(s[1..], p)
      case None => None
      case Some(i) => Some(i + 1)
  }

  /** `Array.from(new Set(s))`: the distinct elements of `s` in order of first occurrence. */
  function Dedup<T(==, !new)>(s: seq<T>): (r: seq<T>)
    ensures forall x :: x in r <==> x in s
    ensures |r| <= |s|
  {
    if s == [] then []
    else
      var d := Dedup(s[..|s| - 1]);
      assert s == s[..|s| - 1] + [s[|s| - 1]];
      if s[|s| - 1] in d then d else d + [s[|s| - 1]]
  }

  /** Each element appears once in `Dedup(s)`. */
  lemma {:induction false} DedupDistinct<T(!new)>(s: seq<T>)
    ensures NoDuplicates(Dedup(s))
  {
    if s != [] {
      DedupDistinct(s[..|s| - 1]);
    }
  }

  /** Adding an element to a set keeps it when it is new and does nothing otherwise. */
  lemma DedupSnoc<T(!new)>(s: seq<T>, x: T)
    ensures Dedup(s + [x]) == if x in s then Dedup(s) else Dedup(s) + [x]
  {
    assert (s + [x])[..|s|] == s;
  }

  /** `Dedup` keeps elements in the order of their first occurrence in the input. */
  lemma {:induction false} DedupOrder<T(!new)>(s: seq<T>, i: nat, j: nat)
    requires i < j < |Dedup(s)|
    ensures FirstIndex(s, Dedup(s)[i]) < FirstIndex(s, Dedup(s)[j])
  {
    var d := Dedup(s);
    var p := s[..|s| - 1];
    var last := s[|s| - 1];
    assert s == p + [last];
    var dp := Dedup(p);
    if last in dp {
      DedupOrder(p, i, j);
      FirstIndexPrefix(p, last, d[i]);
      FirstIndexPrefix(p, last, d[j]);
    } else {
      FirstIndexPrefix(p, last, d[i]);
      if j < |dp| {
        DedupOrder(p, i, j);
        FirstIndexPrefix(p, last, d[j]);
      } else {
        assert d[j] == last && last !in p;
        FirstIndexLast(p, last);
      }
    }
  }

  lemma FirstIndexPrefix<T>(p: seq<T>, last: T, x: T)
    requires x in p
    ensures FirstIndex(p + [last], x) == FirstIndex(p, x)
  {
    var k := FirstIndex(p, x);
    var q := p + [last];
    assert q[..k] == p[..k];
    var k' := FirstIndex(q, x);
    assert k' <= k by { assert q[k] == x; }
    assert k <= k' by { assert q[..k'] == p[..k'] || k' == |p|; }
  }

  lemma FirstIndexLast<T>(p: seq<T>, last: T)
    requires last !in p
    ensures FirstIndex(p + [last], last) == |p|
  {
    var q := p + [last];
    assert q[..|p|] == p;
  }

  /** Inserting the elements of `a` and then of `b` into a set lists `a`'s first, then the new ones of `b`. */
  lemma {:induction false} DedupConcat<T(!new)>(a: seq<T>, b: seq<T>)
    ensures Dedup(a + b) == Dedup(a) + Filter(Dedup(b), NotIn(a))
    decreases |b|
  {
    if b == [] {
      assert a + b == a;
    } else {
      var b' := b[..|b| - 1];
      assert b == b' + [b[|b| - 1]];
      DedupConcat(a, b');
      DedupConcatStep(a, b', b[|b| - 1]);
    }
  }

  lemma DedupConcatStep<T(!new)>(a: seq<T>, b: seq<T>, y: T)
    requires Dedup(a + b) == Dedup(a) + Filter(Dedup(b), NotIn(a))
    ensures Dedup(a + (b + [y])) == Dedup(a) + Filter(Dedup(b + [y]), NotIn(a))
  {
    var ab := a + b;
    assert a + (b + [y]) == ab + [y];
    DedupSnoc(ab, y);
    if y in ab {
      DedupConcatSeen(a, b, y);
    } else {
      DedupConcatNew(a, b, y);
    }
  }

  /** A new element goes at the end of the new elements of `b`. */
  lemma DedupConcatNew<T(!new)>(a: seq<T>, b: seq<T>, y: T)
    requires y !in a && y !in b
    ensures Dedup(a) + Filter(Dedup(b + [y]), NotIn(a)) == (Dedup(a) + Filter(Dedup(b), NotIn(a))) + [y]
  {
    DedupSnoc(b, y);
    FilterSnoc(Dedup(b), y, NotIn(a));
    SnocAssoc(Dedup(a), Filter(Dedup(b), NotIn(a)), y);
  }

  /** An element already seen in `a` or `b` adds nothing to the new elements of `b`. */
  lemma DedupConcatSeen<T(!new)>(a: seq<T>, b: seq<T>, y: T)
    requires y in a + b
    ensures Filter(Dedup(b + [y]), NotIn(a)) == Filter(Dedup(b), NotIn(a))
  {
    DedupSnoc(b, y);
    if y !in b {
      FilterSnoc(Dedup(b), y, NotIn(a));
    }
  }

  lemma SnocAssoc<T>(s: seq<T>, t: seq<T>, y: T)
    ensures (s + t) + [y] == s + (t + [y])
  {
  }

  /** `for (const x of xs) set.add(x)` on a set holding the distinct elements of `base`. */
  method AddAll<T(==, !new)>(base: seq<T>, seen: seq<T>, xs: seq<T>) returns (r: seq<T>)
    requires seen == Dedup(base)
    ensures r == Dedup(base + xs)
  {
    r := seen;
    var i := 0;
    assert base + xs[..0] == base;
    while i < |xs|
      invariant 0 <= i <= |xs|
      invariant r == Dedup(base + xs[..i])
    {
      DedupExtend(base, xs, i);
      if xs[i] !in r {
        r := r + [xs[i]];
      }
      i := i + 1;
    }
    assert xs[..i] == xs;
  }

  lemma DedupExtend<T(!new)>(base: seq<T>, xs: seq<T>, i: nat)
    requires i < |xs|
    ensures var d := Dedup(base + xs[..i]);
      Dedup(base + xs[..i + 1]) == if xs[i] in d then d else d + [xs[i]]
  {
    assert base + xs[..i + 1] == (base + xs[..i]) + [xs[i]];
    DedupSnoc(base + xs[..i], xs[i]);
  }

  /** The test "not an element of `a`". */
  function NotIn<T(==)>(a: seq<T>): T -> bool {
    x => x !in a
  }

  /** `s.map(f)`. */
  function Map<T, U>(s: seq<T>, f: T -> U): (r: seq<U>)
    ensures |r| == |s|
    ensures forall k :: 0 <= k < |s| ==> r[k] == f(s[k])
  {
    if s == [] then [] else [f(s[0])] + Map(s[1..], f)
  }

  /** `s.filter(p)`. */
  function Filter<T>(s: seq<T>, p: T -> bool): (r: seq<T>)
    ensures |r| <= |s|
    ensures forall k :: 0 <= k < |r| ==> p(r[k])
  {
    if s == [] then [] else (if p(s[0]) then [s[0]] else []) + Filter(s[1..], p)
  }

  lemma {:induction false} FilterMembers<T>(s: seq<T>, p: T -> bool)
    ensures forall x :: x in Filter(s, p) <==> x in s && p(x)
  {
    if s != [] {
      FilterMembers(s[1..], p);
      assert forall x :: x in s <==> x == s[0] || x in s[1..] by {
        assert s == [s[0]] + s[1..];
      }
    }
  }

  lemma {:induction false} FilterSnoc<T>(s: seq<T>, y: T, p: T -> bool)
    ensures Filter(s + [y], p) == Filter(s, p) + (if p(y) then [y] else [])
  {
    if s == [] {
      assert [y][1..] == [];
    } else {
      assert (s + [y])[1..] == s[1..] + [y];
      FilterSnoc(s[1..], y, p);
    }
  }

  /** A filter that rejects nothing returns its input. */
  lemma {:induction false} FilterKeepsAll<T>(s: seq<T>, p: T -> bool)
    requires forall k :: 0 <= k < |s| ==> p(s[k])
    ensures Filter(s, p) == s
  {
    if s != [] {
      FilterKeepsAll(s[1..], p);
      assert [s[0]] + s[1..] == s;
    }
  }

  /** `a` is obtained from `b` by deleting elements, keeping the order of the rest. */
  predicate IsSubsequence<T(==)>(a: seq<T>, b: seq<T>)
    decreases |b|
  {
    if a == [] then true
    else if b == [] then false
    else (a[0] == b[0] && IsSubsequence(a[1..], b[1..])) || IsSubsequence(a, b[1..])
  }

  /** Filtering deletes elements and keeps the order of the others. */
  lemma {:induction false} FilterIsSubsequence<T>(s: seq<T>, p: T -> bool)
    ensures IsSubsequence(Filter(s, p), s)
  {
    if s != [] {
      FilterIsSubsequence(s[1..], p);
      if !p(s[0]) {
        assert Filter(s, p) == Filter(s[1..], p);
      } else {
        assert Filter(s, p)[1..] == Filter(s[1..], p);
      }
    }
  }

  /** `s.slice(0, n)`. */
  function Prefix<T>(s: seq<T>, n: nat): (r: seq<T>)
    ensures |r| == if n < |s| then n else |s|
    ensures r == s[..|r|]
  {
    if n < |s| then s[..n] else s
  }

  /** `[x, ...s].slice(0, cap)`: `x` first, then as many elements of `s` as fit, in their order. */
  function Newest<T>(x: T, s: seq<T>, cap: nat): (r: seq<T>)
    requires cap >= 1
    ensures |r| == if |s| + 1 < cap then |s| + 1 else cap
    ensures r[0] == x
    ensures r[1..] == s[..|r| - 1]
  {
    var r := Prefix([x] + s, cap);
    assert r[1..] == ([x] + s)[1..|r|];
    assert ([x] + s)[1..|r|] == s[..|r| - 1];
    r
  }

  /** `s.slice().reverse()`. */
  function Reverse<T>(s: seq<T>): (r: seq<T>)
    ensures |r| == |s|
    ensures forall k :: 0 <= k < |s| ==> r[k] == s[|s| - 1 - k]
  {
    if s == [] then [] else Reverse(s[1..]) + [s[0]]
  }
}
