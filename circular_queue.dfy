/** The bounded ring buffer the ball trail is kept in (the `circular_queue`
    crate's `CircularQueue`): a fixed-capacity array that, once full,
    overwrites its oldest element on every push. */
module CircularQueues {

  /** The last `n` elements of `s` (all of `s` when it is shorter). */
  function LastN<T>(s: seq<T>, n: nat): (r: seq<T>)
    ensures |r| <= n && |r| <= |s|
    ensures |r| == if |s| <= n then |s| else n
    ensures |s| <= n ==> r == s
    ensures forall k :: 0 <= k < |r| ==> r[k] == s[|s| - |r| + k]
  {
    if |s| <= n then s else s[|s| - n..]
  }

  /** Keeping only the last `n` elements before an append loses nothing the
      append would have kept: a bounded buffer fed one element at a time
      holds the last `n` elements of everything ever pushed. */
  lemma LastNAppend<T>(s: seq<T>, x: T, n: nat)
    ensures LastN(LastN(s, n) + [x], n) == LastN(s + [x], n)
  {
    var a, b := LastN(LastN(s, n) + [x], n), LastN(s + [x], n);
    assert |a| == |b|;
    forall k | 0 <= k < |a| ensures a[k] == b[k] {
      if k < |a| - 1 {
        assert a[k] == LastN(s, n)[|LastN(s, n)| + 1 - |a| + k];
      }
    }
  }

  /** The slot after `i` in a ring of `n` slots, `(i + 1) % n`. */
  function Next(i: nat, n: nat): (j: nat)
    requires i < n
    ensures j < n && j == (i + 1) % n
  {
    ModRing(i + 1, n);
    if i + 1 == n then 0 else i + 1
  }

  lemma ModRing(a: nat, n: nat)
    requires 0 < a <= n
    ensures a % n == if a == n then 0 else a
  {
  }

  /** Writing the next free slot of a buffer that is not yet full appends. */
  lemma GrowStep<T>(d: seq<T>, n: nat, x: T)
    requires n < |d|
    ensures d[n := x][..n + 1] == d[..n] + [x]
    ensures n + 1 == |d| ==> d[n := x][0..] + d[n := x][..0] == d[..n] + [x]
  {
  }

  /** Overwriting the oldest slot `i` of a full ring and advancing past it
      drops the oldest element and appends the new one. */
  lemma OverwriteStep<T>(d: seq<T>, i: nat, x: T)
    requires i < |d|
    ensures var j := Next(i, |d|);
      d[i := x][j..] + d[i := x][..j] == (d[i..] + d[..i])[1..] + [x]
  {
    var j := Next(i, |d|);
    var e := d[i := x];
    if i + 1 < |d| {
      assert e[j..] == d[i + 1..];
      assert e[..j] == d[..i] + [x];
      assert (d[i..] + d[..i])[1..] == d[i + 1..] + d[..i];
    } else {
      assert j == 0;
      assert e[j..] == d[..i] + [x];
      assert (d[i..] + d[..i])[1..] == d[..i];
    }
  }

  class CircularQueue<T(0)> {
    /** The queued elements, oldest first. */
    ghost var Contents: seq<T>

    const capacity: nat
    const data: array<T>
    var len: nat
    var insertion: nat

    ghost predicate Valid()
      reads this, data
    {
      && data.Length == capacity
      && len <= capacity
      && (capacity == 0 ==> insertion == 0)
      && (capacity > 0 ==> insertion < capacity)
      && (len < capacity ==> insertion == len)
      && Contents == if len < capacity then data[..len] else data[insertion..] + data[..insertion]
    }

    constructor WithCapacity(n: nat)
      ensures Valid() && fresh(data)
      ensures capacity == n && Contents == []
    {
      capacity := n;
      data := new T[n];
      len, insertion := 0, 0;
      Contents := [];
    }

    method Push(x: T)
      requires Valid()
      modifies this, data
      ensures Valid()
      ensures Contents == LastN(old(Contents) + [x], capacity)
    {
      if capacity == 0 {
        Contents := [];
        return;
      }
      ghost var before := data[..];
      if len < capacity {
        data[len] := x;
        len := len + 1;
        GrowStep(before, len - 1, x);
      } else {
        data[insertion] := x;
        OverwriteStep(before, insertion, x);
      }
      insertion := Next(insertion, capacity);
      Contents := LastN(Contents + [x], capacity);
    }
  }
}
