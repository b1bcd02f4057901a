/** Sequence operations shared by the client code: `Array.prototype.filter`,
    order-preserving subsequences and a stable sort by an integer key. */
module Seqs {

  /** `s.filter(p)`: the elements of `s` that satisfy `p`, in their order. */
  function Filter<T(!new)>(s: seq<T>, p: T -> bool): (r: seq<T>)
    ensures |r| <= |s|
    ensures forall x :: x in r <==> x in s && p(x)
    ensures forall i :: 0 <= i < |r| ==> p(r[i])
  {
    if s == [] then []
    else if p(s[0]) then [s[0]] + Filter(s[1..], p)
    else Filter(s[1..], p)
  }

  /** `idx` lists, in strictly increasing order, positions of `s` that spell `r`. */
  ghost predicate Embeds<T>(idx: seq<nat>, r: seq<T>, s: seq<T>) {
    && |idx| == |r|
    && (forall k :: 0 <= k < |idx| ==> idx[k] < |s| && s[idx[k]] == r[k])
    && (forall k, l :: 0 <= k < l < |idx| ==> idx[k] < idx[l])
  }

  /** `r` is `s` with some elements dropped and the rest kept in order. */
  ghost predicate IsSubsequence<T>(r: seq<T>, s: seq<T>) {
    exists idx :: Embeds(idx, r, s)
  }

  function Shift(idx: seq<nat>): (r: seq<nat>)
    ensures |r| == |idx| && forall k :: 0 <= k < |idx| ==> r[k] == idx[k] + 1
  {
    seq(|idx|, k requires 0 <= k < |idx| => idx[k] + 1)
  }

  lemma EmbedsCons<T>(idx: seq<nat>, r: seq<T>, s: seq<T>)
    requires s != [] && Embeds(idx, r, s[1..])
    ensures Embeds([0] + Shift(idx), [s[0]] + r, s)
  {
    var e := [0] + Shift(idx);
    forall k | 0 <= k < |e|
      ensures e[k] < |s| && s[e[k]] == ([s[0]] + r)[k]
    {
      if k > 0 {
        assert e[k] == idx[k - 1] + 1;
        assert s[1..][idx[k - 1]] == r[k - 1];
      }
    }
  }

  lemma EmbedsSkip<T>(idx: seq<nat>, r: seq<T>, s: seq<T>)
    requires s != [] && Embeds(idx, r, s[1..])
    ensures Embeds(Shift(idx), r, s)
  {
    var e := Shift(idx);
    forall k | 0 <= k < |e|
      ensures e[k] < |s| && s[e[k]] == r[k]
    {
      assert s[1..][idx[k]] == r[k];
    }
  }

  lemma {:induction false} FilterIsSubsequence<T(!new)>(s: seq<T>, p: T -> bool)
    ensures IsSubsequence(Filter(s, p), s)
  {
    if s == [] {
      assert Embeds([], Filter(s, p), s);
    } else {
      FilterIsSubsequence(s[1..], p);
      var idx :| Embeds(idx, Filter(s[1..], p), s[1..]);
      if p(s[0]) {
        EmbedsCons(idx, Filter(s[1..], p), s);
      } else {
        EmbedsSkip(idx, Filter(s[1..], p), s);
      }
    }
  }

  lemma {:induction false} FilterAllKept<T(!new)>(s: seq<T>, p: T -> bool)
    requires forall i :: 0 <= i < |s| ==> p(s[i])
    ensures Filter(s, p) == s
  {
    if s != [] {
      FilterAllKept(s[1..], p);
    }
  }

  lemma {:induction false} FilterConcat<T(!new)>(a: seq<T>, b: seq<T>, p: T -> bool)
    ensures Filter(a + b, p) == Filter(a, p) + Filter(b, p)
  {
    if a == [] {
      assert a + b == b;
    } else {
      assert (a + b)[1..] == a[1..] + b;
      FilterConcat(a[1..], b, p);
    }
  }

  /** Each element of a filtered list occurs there as often as it is kept in `s`. */
  lemma {:induction false} FilterMultiset<T(!new)>(s: seq<T>, p: T -> bool, x: T)
    ensures multiset(Filter(s, p))[x] == if p(x) then multiset(s)[x] else 0
  {
    if s == [] {
    } else {
      FilterMultiset(s[1..], p, x);
      assert s == [s[0]] + s[1..];
      if p(s[0]) {
        assert Filter(s, p) == [s[0]] + Filter(s[1..], p);
      }
    }
  }

  ghost predicate SortedBy<T>(s: seq<T>, key: T -> int) {
    forall i, j :: 0 <= i < j < |s| ==> key(s[i]) <= key(s[j])
  }

  /** An element no greater than the head of a sorted list can go in front of it. */
  lemma SortedCons<T>(y: T, t: seq<T>, key: T -> int)
    requires SortedBy(t, key) && (t == [] || key(y) <= key(t[0]))
    ensures SortedBy([y] + t, key)
  {
    var r := [y] + t;
    forall i, j | 0 <= i < j < |r|
      ensures key(r[i]) <= key(r[j])
    {
      assert r[j] == t[j - 1];
      if i == 0 {
        assert j == 1 || key(t[0]) <= key(t[j - 1]);
      } else {
        assert r[i] == t[i - 1];
      }
    }
  }

  /** Puts `x` before the first element whose key is not below its own. */
  function Insert<T>(x: T, s: seq<T>, key: T -> int): (r: seq<T>)
    requires SortedBy(s, key)
    ensures |r| == |s| + 1
    ensures r[0] == x || (s != [] && r[0] == s[0])
    ensures SortedBy(r, key)
  {
    if s == [] then [x]
    else if key(x) <= key(s[0]) then SortedCons(x, s, key); [x] + s
    else
      var rest := Insert(x, s[1..], key);
      assert key(s[0]) <= key(rest[0]);
      SortedCons(s[0], rest, key);
      [s[0]] + rest
  }

  /** Inserting adds exactly one occurrence of `x`. */
  lemma {:induction false} InsertMultiset<T>(x: T, s: seq<T>, key: T -> int)
    requires SortedBy(s, key)
    ensures multiset(Insert(x, s, key)) == multiset(s) + multiset{x}
  {
    if s != [] && key(x) > key(s[0]) {
      InsertMultiset(x, s[1..], key);
      assert s == [s[0]] + s[1..];
      assert Insert(x, s, key) == [s[0]] + Insert(x, s[1..], key);
    }
  }

  /** A stable sort by `key`, ascending: `[...s].sort((a, b) => key(a) - key(b))`. */
  function SortBy<T>(s: seq<T>, key: T -> int): (r: seq<T>)
    ensures multiset(r) == multiset(s)
    ensures |r| == |s|
    ensures SortedBy(r, key)
  {
    if s == [] then []
    else
      assert s == [s[0]] + s[1..];
      InsertMultiset(s[0], SortBy(s[1..], key), key);
      Insert(s[0], SortBy(s[1..], key), key)
  }
}
