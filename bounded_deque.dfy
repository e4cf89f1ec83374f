/** Python's `collections.deque(maxlen=n)` used as an append-only history:
    appending to a full deque first discards the leftmost (oldest) item. */
module BoundedDeque {

  function Min(a: nat, b: nat): nat
  {
    if a <= b then a else b
  }

  /** The last `min(|s|, n)` items of `s`, oldest first. */
  function Window<T>(s: seq<T>, n: nat): (w: seq<T>)
    ensures |w| == Min(|s|, n)
    ensures forall k :: 0 <= k < |w| ==> w[k] == s[|s| - |w| + k]
  {
    s[|s| - Min(|s|, n)..]
  }

  /** `d.append(x)` on a deque `d` with `maxlen`. */
  function Append<T>(d: seq<T>, x: T, maxlen: nat): (r: seq<T>)
    requires |d| <= maxlen
    ensures |r| == Min(|d| + 1, maxlen)
    ensures |r| <= maxlen
    ensures maxlen > 0 ==> r[|r| - 1] == x
    ensures forall k :: 0 <= k < |r| - 1 ==> r[k] == d[|d| + 1 - |r| + k]
  {
    if |d| < maxlen then d + [x] else (d + [x])[1..]
  }

  /** Appending to the window of a history gives the window of the extended
      history: a deque with `maxlen = n` always holds the last `n` items ever
      appended, in order. */
  lemma {:induction false} AppendWindow<T>(s: seq<T>, x: T, n: nat)
    ensures Append(Window(s, n), x, n) == Window(s + [x], n)
  {
    var a := Append(Window(s, n), x, n);
    var b := Window(s + [x], n);
    assert |a| == |b|;
    forall k | 0 <= k < |a|
      ensures a[k] == b[k]
    {
      if k == |a| - 1 {
        assert n > 0;
      }
    }
  }

  /** Once at least `n` items have been appended, the first `|s| - n` are gone. */
  lemma WindowDropsOldest<T>(s: seq<T>, n: nat)
    requires |s| >= n
    ensures Window(s, n) == s[|s| - n..]
  {
  }

  /** `d.append(x)` for each `x` of `xs` in turn. */
  function AppendAll<T>(d: seq<T>, xs: seq<T>, maxlen: nat): (r: seq<T>)
    requires |d| <= maxlen
    ensures |r| <= maxlen
    decreases |xs|
  {
    if xs == [] then d
    else Append(AppendAll(d, xs[..|xs| - 1], maxlen), xs[|xs| - 1], maxlen)
  }

  lemma AppendAllSnoc<T>(d: seq<T>, xs: seq<T>, x: T, maxlen: nat)
    requires |d| <= maxlen
    ensures AppendAll(d, xs + [x], maxlen) == Append(AppendAll(d, xs, maxlen), x, maxlen)
  {
    assert (xs + [x])[..|xs|] == xs;
  }

  /** Appending a run of items to the window of a history gives the window of
      the extended history. */
  lemma {:induction false} AppendAllWindow<T>(s: seq<T>, xs: seq<T>, n: nat)
    ensures AppendAll(Window(s, n), xs, n) == Window(s + xs, n)
    decreases |xs|
  {
    if xs != [] {
      var init, x := xs[..|xs| - 1], xs[|xs| - 1];
      AppendAllWindow(s, init, n);
      AppendWindow(s + init, x, n);
      assert (s + init) + [x] == s + xs;
    }
  }

  /** A deque with `maxlen = n` that starts empty holds, after any run of
      appends, exactly the last `min(len, n)` items appended, in order. */
  lemma AppendAllFromEmpty<T>(xs: seq<T>, n: nat)
    ensures AppendAll([], xs, n) == Window(xs, n)
  {
    var empty: seq<T> := [];
    assert Window(empty, n) == empty;
    AppendAllWindow(empty, xs, n);
    assert empty + xs == xs;
  }
}
