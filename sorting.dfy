/** Stable sorting by a key, as `Array.prototype.sort` does with a comparator.

    Every comparator in the system compares a few numeric criteria in turn
    (completion, then priority; a prefix flag, then a count; a timestamp; the
    character codes of a time string).  The model therefore sorts by a key of
    type `seq<int>` in lexicographic order.  `Array.prototype.sort` is stable,
    so elements with equal keys keep their relative order; `SortBy` is a
    stable insertion sort and `SortInPlace` performs the same sort on an array. */
module Sorting {

  /** Lexicographic order on integer keys. */
  predicate KeyLe(a: seq<int>, b: seq<int>)
    decreases |a|
  {
    a == [] || (b != [] && (a[0] < b[0] || (a[0] == b[0] && KeyLe(a[1..], b[1..]))))
  }

  lemma {:induction false} KeyLeRefl(a: seq<int>)
    ensures KeyLe(a, a)
    decreases |a|
  {
    if a != [] {
      KeyLeRefl(a[1..]);
    }
  }

  lemma {:induction false} KeyLeTotal(a: seq<int>, b: seq<int>)
    ensures KeyLe(a, b) || KeyLe(b, a)
    decreases |a|
  {
    if a != [] && b != [] && a[0] == b[0] {
      KeyLeTotal(a[1..], b[1..]);
    }
  }

  lemma {:induction false} KeyLeTrans(a: seq<int>, b: seq<int>, c: seq<int>)
    requires KeyLe(a, b) && KeyLe(b, c)
    ensures KeyLe(a, c)
    decreases |a|
  {
    if a != [] && a[0] == b[0] && b[0] == c[0] {
      KeyLeTrans(a[1..], b[1..], c[1..]);
    }
  }

  /** Keys that are not in order are different. */
  lemma {:induction false} KeyNotLeDiffers(a: seq<int>, b: seq<int>)
    requires !KeyLe(a, b)
    ensures a != b
  {
    KeyLeRefl(a);
  }

  /** The character codes of a string: `localeCompare` on the fixed-width digit
      strings the system sorts ("HH:MM") is the order of these codes. */
  function CharCodes(s: string): (r: seq<int>)
    ensures |r| == |s|
    ensures forall i :: 0 <= i < |s| ==> r[i] == s[i] as int
  {
    if s == [] then [] else [s[0] as int] + CharCodes(s[1..])
  }

  predicate SortedBy<T>(s: seq<T>, key: T -> seq<int>) {
    forall i, j :: 0 <= i < j < |s| ==> KeyLe(key(s[i]), key(s[j]))
  }

  /** Insert `x` in front of the first element whose key is not below `key(x)`. */
  function Insert<T>(x: T, r: seq<T>, key: T -> seq<int>): (res: seq<T>)
    ensures |res| == |r| + 1
    ensures multiset(res) == multiset(r) + multiset{x}
  {
    if r == [] || KeyLe(key(x), key(r[0])) then [x] + r
    else
      assert r == [r[0]] + r[1..];
      [r[0]] + Insert(x, r[1..], key)
  }

  /** The stable sort of `s` by `key`. */
  function SortBy<T>(s: seq<T>, key: T -> seq<int>): (r: seq<T>)
    ensures |r| == |s|
  {
    if s == [] then [] else Insert(s[0], SortBy(s[1..], key), key)
  }

  lemma {:induction false} SortByPermutation<T>(s: seq<T>, key: T -> seq<int>)
    ensures multiset(SortBy(s, key)) == multiset(s)
    decreases |s|
  {
    if s != [] {
      SortByPermutation(s[1..], key);
      assert s == [s[0]] + s[1..];
    }
  }

  lemma {:induction false} InsertSorted<T>(x: T, r: seq<T>, key: T -> seq<int>)
    requires SortedBy(r, key)
    ensures SortedBy(Insert(x, r, key), key)
    decreases |r|
  {
    if r == [] || KeyLe(key(x), key(r[0])) {
      var res := [x] + r;
      forall i, j | 0 <= i < j < |res| ensures KeyLe(key(res[i]), key(res[j])) {
        if i == 0 && j > 1 {
          KeyLeTrans(key(x), key(r[0]), key(r[j - 1]));
        }
      }
    } else {
      InsertSorted(x, r[1..], key);
      KeyLeTotal(key(x), key(r[0]));
      var tail := Insert(x, r[1..], key);
      var res := [r[0]] + tail;
      assert multiset(tail) == multiset(r[1..]) + multiset{x};
      forall j | 0 <= j < |tail| ensures KeyLe(key(r[0]), key(tail[j])) {
        assert tail[j] in multiset(tail);
        if tail[j] == x {
        } else {
          assert tail[j] in multiset(r[1..]);
          var m :| 0 <= m < |r[1..]| && r[1..][m] == tail[j];
          assert r[m + 1] == tail[j];
        }
      }
    }
  }

  lemma {:induction false} SortBySorted<T>(s: seq<T>, key: T -> seq<int>)
    ensures SortedBy(SortBy(s, key), key)
    decreases |s|
  {
    if s != [] {
      SortBySorted(s[1..], key);
      InsertSorted(s[0], SortBy(s[1..], key), key);
    }
  }

  /** The elements of `s` whose key is `k`, in order. */
  function WithKey<T>(s: seq<T>, key: T -> seq<int>, k: seq<int>): (r: seq<T>)
    ensures |r| <= |s|
  {
    if s == [] then []
    else if key(s[0]) == k then [s[0]] + WithKey(s[1..], key, k)
    else WithKey(s[1..], key, k)
  }

  lemma {:induction false} InsertWithKey<T>(x: T, r: seq<T>, key: T -> seq<int>, k: seq<int>)
    ensures WithKey(Insert(x, r, key), key, k)
         == if key(x) == k then [x] + WithKey(r, key, k) else WithKey(r, key, k)
    decreases |r|
  {
    if r == [] || KeyLe(key(x), key(r[0])) {
      assert ([x] + r)[1..] == r;
    } else {
      InsertWithKey(x, r[1..], key, k);
      KeyNotLeDiffers(key(x), key(r[0]));
      assert ([r[0]] + Insert(x, r[1..], key))[1..] == Insert(x, r[1..], key);
    }
  }

  /** Stability: elements with equal keys appear in the sorted sequence in
      their original order. */
  lemma {:induction false} SortByStable<T>(s: seq<T>, key: T -> seq<int>, k: seq<int>)
    ensures WithKey(SortBy(s, key), key, k) == WithKey(s, key, k)
    decreases |s|
  {
    if s != [] {
      SortByStable(s[1..], key, k);
      InsertWithKey(s[0], SortBy(s[1..], key), key, k);
    }
  }

  /** Sorting what is already sorted changes nothing. */
  lemma {:induction false} SortBySortedIdentity<T>(s: seq<T>, key: T -> seq<int>)
    requires SortedBy(s, key)
    ensures SortBy(s, key) == s
    decreases |s|
  {
    if s != [] {
      assert SortedBy(s[1..], key);
      SortBySortedIdentity(s[1..], key);
      if |s| > 1 {
        assert KeyLe(key(s[0]), key(s[1]));
      }
    }
  }

  /** The first element after sorting is in the input and no input element
      has a smaller key. */
  lemma {:induction false} SortByFirstLeast<T>(s: seq<T>, key: T -> seq<int>)
    requires s != []
    ensures SortBy(s, key)[0] in s
    ensures forall j :: 0 <= j < |s| ==> KeyLe(key(SortBy(s, key)[0]), key(s[j]))
  {
    var t := SortBy(s, key);
    SortedCut(s, key, 1);
    var top := t[0];
    assert t[..1] == [top];
    assert top in multiset(s);
    forall j | 0 <= j < |s| ensures KeyLe(key(top), key(s[j])) {
      if s[j] == top {
        KeyLeRefl(key(top));
      } else {
        assert s[j] in multiset(s) - multiset(t[..1]);
      }
    }
  }

  lemma {:induction false} SortedCut<T>(s: seq<T>, key: T -> seq<int>, n: nat)
    requires n <= |s|
    ensures multiset(SortBy(s, key)[..n]) <= multiset(s)
    ensures SortedBy(SortBy(s, key)[..n], key)
    ensures forall e, i :: e in multiset(s) - multiset(SortBy(s, key)[..n]) && 0 <= i < n ==>
      KeyLe(key(SortBy(s, key)[i]), key(e))
  {
    var t := SortBy(s, key);
    SortByPermutation(s, key);
    SortBySorted(s, key);
    CutSorted(t, key, n);
  }

  /** Cutting a sorted sequence after `n` elements: the kept part is sorted,
      it is part of the whole, and what is left out has keys no smaller. */
  lemma {:induction false} CutSorted<T>(t: seq<T>, key: T -> seq<int>, n: nat)
    requires n <= |t| && SortedBy(t, key)
    ensures multiset(t[..n]) <= multiset(t)
    ensures SortedBy(t[..n], key)
    ensures forall e, i :: e in multiset(t) - multiset(t[..n]) && 0 <= i < n ==> KeyLe(key(t[i]), key(e))
  {
    assert multiset(t) == multiset(t[..n]) + multiset(t[n..]) by {
      assert t == t[..n] + t[n..];
    }
    forall e, i | e in multiset(t) - multiset(t[..n]) && 0 <= i < n ensures KeyLe(key(t[i]), key(e)) {
      assert e in multiset(t[n..]);
      LeftOutAbove(t, key, n, e, i);
    }
  }

  lemma {:induction false} LeftOutAbove<T>(t: seq<T>, key: T -> seq<int>, n: nat, e: T, i: int)
    requires n <= |t| && SortedBy(t, key) && 0 <= i < n
    requires e in multiset(t[n..])
    ensures KeyLe(key(t[i]), key(e))
  {
    var m :| 0 <= m < |t[n..]| && t[n..][m] == e;
    assert t[n + m] == e;
  }

  lemma {:induction false} InsertAt<T>(x: T, r: seq<T>, key: T -> seq<int>, k: int)
    requires 0 <= k <= |r|
    requires forall m :: 0 <= m < k ==> !KeyLe(key(x), key(r[m]))
    requires k == |r| || KeyLe(key(x), key(r[k]))
    ensures Insert(x, r, key) == r[..k] + [x] + r[k..]
    decreases k
  {
    if k > 0 {
      InsertPast(x, r, key);
      assert forall m :: 0 <= m < k - 1 ==> r[1..][m] == r[m + 1];
      InsertAt(x, r[1..], key, k - 1);
      ConsAround(r, x, k);
    }
  }

  lemma {:induction false} InsertPast<T>(x: T, r: seq<T>, key: T -> seq<int>)
    requires r != [] && !KeyLe(key(x), key(r[0]))
    ensures Insert(x, r, key) == [r[0]] + Insert(x, r[1..], key)
  {
  }

  lemma {:induction false} ConsAround<T>(r: seq<T>, x: T, k: int)
    requires 0 < k <= |r|
    ensures [r[0]] + (r[1..][..k - 1] + [x] + r[1..][k - 1..]) == r[..k] + [x] + r[k..]
  {
    assert r[1..][..k - 1] == r[1..k];
    assert r[1..][k - 1..] == r[k..];
    assert r[..k] == [r[0]] + r[1..k];
  }

  /** Moving the element after the hole one place down keeps the slices
      lined up with the run `r` being inserted into. */
  lemma {:induction false} ShiftStep<T>(b: seq<T>, c: seq<T>, lo: int, j: int, r: seq<T>)
    requires 0 <= lo <= j && j + 1 < |b| && c == b[j := b[j + 1]] && |r| == |b| - lo - 1
    requires b[lo..j] == r[..j - lo] && b[j + 1..] == r[j - lo..]
    ensures c[..lo] == b[..lo]
    ensures c[lo..j + 1] == r[..j + 1 - lo] && c[j + 2..] == r[j + 1 - lo..]
  {
    assert c[lo..j + 1] == b[lo..j] + [b[j + 1]];
    assert r[..j + 1 - lo] == r[..j - lo] + [r[j - lo]];
    assert c[j + 2..] == b[j + 2..];
  }

  method InsertInto<T>(a: array<T>, lo: int, key: T -> seq<int>)
    requires 0 <= lo < a.Length
    modifies a
    ensures a[..lo] == old(a[..lo])
    ensures a[lo..] == Insert(old(a[lo]), old(a[lo + 1..]), key)
  {
    ghost var r := a[lo + 1..];
    ghost var p := a[..lo];
    var x := a[lo];
    var n := a.Length;
    var j := lo;
    while j + 1 < n && !KeyLe(key(x), key(a[j + 1]))
      invariant lo <= j < n
      invariant a[..lo] == p
      invariant a[lo..j] == r[..j - lo]
      invariant a[j + 1..] == r[j - lo..]
      invariant forall m :: 0 <= m < j - lo ==> !KeyLe(key(x), key(r[m]))
      decreases n - j
    {
      ghost var b := a[..];
      a[j] := a[j + 1];
      ShiftStep(b, a[..], lo, j, r);
      j := j + 1;
    }
    a[j] := x;
    InsertAt(x, r, key, j - lo);
    SliceAround(a[..], lo, j);
  }

  lemma {:induction false} SliceAround<T>(s: seq<T>, lo: int, j: int)
    requires 0 <= lo <= j < |s|
    ensures s[lo..] == s[lo..j] + [s[j]] + s[j + 1..]
  {
    assert s[lo..] == s[lo..j] + s[j..];
    assert s[j..] == [s[j]] + s[j + 1..];
  }

  /** `a.sort(cmp)`: sorts the array in place, stably, by `key`. */
  method SortInPlace<T>(a: array<T>, key: T -> seq<int>)
    modifies a
    ensures a[..] == SortBy(old(a[..]), key)
  {
    ghost var o := a[..];
    var i := a.Length;
    while i > 0
      invariant 0 <= i <= a.Length
      invariant a[..i] == o[..i]
      invariant a[i..] == SortBy(o[i..], key)
      decreases i
    {
      ghost var before := a[..];
      assert before[..i - 1] == o[..i - 1] && before[i - 1] == o[i - 1];
      InsertInto(a, i - 1, key);
      ghost var t := o[i - 1..];
      assert t[0] == o[i - 1] && t[1..] == o[i..];
      assert a[i - 1..] == SortBy(t, key);
      i := i - 1;
    }
  }
}
