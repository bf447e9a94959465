/** The in-place `Array.prototype.sort` calls of the screens, all of the form
    `(a, b) => key(b) - key(a)`: order by an integer key, largest first. */
module Sorting {

  /** The keys never increase from left to right. */
  ghost predicate SortedDesc<T>(s: seq<T>, key: T -> int)
  {
    forall i, j :: 0 <= i < j < |s| ==> key(s[i]) >= key(s[j])
  }

  /** Sort `a` in place by `key`, largest first (insertion sort). */
  method SortDescending<T>(a: array<T>, key: T -> int)
    modifies a
    ensures SortedDesc(a[..], key)
    ensures multiset(a[..]) == old(multiset(a[..]))
  {
    var i := 0;
    while i < a.Length
      invariant 0 <= i <= a.Length
      invariant SortedDesc(a[..i], key)
      invariant multiset(a[..]) == old(multiset(a[..]))
    {
      Insert(a, i, key);
      i := i + 1;
    }
    assert a[..a.Length] == a[..];
  }

  /** `s` with the elements at `p` and `q` exchanged. */
  function Swap<T>(s: seq<T>, p: int, q: int): (r: seq<T>)
    requires 0 <= p < |s| && 0 <= q < |s|
    ensures multiset(r) == multiset(s)
  {
    s[p := s[q]][q := s[p]]
  }

  /** While `s[j]` travels left: `s[..i + 1]` is in order apart from position `j`, and
      the element at `j` has a larger key than everything it has passed. */
  ghost predicate Travelling<T>(s: seq<T>, i: int, j: int, key: T -> int)
    requires 0 <= j <= i < |s|
  {
    && (forall p, q :: 0 <= p < q <= i && p != j && q != j ==> key(s[p]) >= key(s[q]))
    && (forall q :: j < q <= i ==> key(s[j]) > key(s[q]))
  }

  /** One swap moves the travelling element one place left. */
  lemma SwapStep<T>(s: seq<T>, i: int, j: int, key: T -> int)
    requires 0 < j <= i < |s| && Travelling(s, i, j, key) && key(s[j - 1]) < key(s[j])
    ensures Travelling(Swap(s, j - 1, j), i, j - 1, key)
  {
  }

  /** Once the element before it has a key at least as large, the prefix is in order. */
  lemma Settled<T>(s: seq<T>, i: int, j: int, key: T -> int)
    requires 0 <= j <= i < |s| && Travelling(s, i, j, key)
    requires j == 0 || key(s[j - 1]) >= key(s[j])
    ensures SortedDesc(s[..i + 1], key)
  {
  }

  /** Move `a[i]` left past every smaller key, so that the sorted prefix `a[..i]` grows
      to the sorted prefix `a[..i + 1]`. */
  method Insert<T>(a: array<T>, i: int, key: T -> int)
    requires 0 <= i < a.Length
    requires SortedDesc(a[..i], key)
    modifies a
    ensures SortedDesc(a[..i + 1], key)
    ensures multiset(a[..]) == old(multiset(a[..]))
  {
    assert forall p :: 0 <= p < i ==> a[..i][p] == a[p];
    var j := i;
    while j > 0 && key(a[j - 1]) < key(a[j])
      invariant 0 <= j <= i
      invariant Travelling(a[..], i, j, key)
      invariant multiset(a[..]) == old(multiset(a[..]))
    {
      ghost var before := a[..];
      a[j - 1], a[j] := a[j], a[j - 1];
      assert a[..] == Swap(before, j - 1, j);
      SwapStep(before, i, j, key);
      j := j - 1;
    }
    Settled(a[..], i, j, key);
  }
}
