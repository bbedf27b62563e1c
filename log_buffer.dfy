/** The device's in-memory log: a fixed-capacity list that keeps the most recent
    entries and overwrites the oldest one once it is full. */
module LogBuffer {

  function Min(a: int, b: int): int { if a < b then a else b }

  /** The last `n` items of `pushed` (all of them when there are fewer), oldest first. */
  function Window<T>(pushed: seq<T>, n: nat): (r: seq<T>)
    ensures |r| == Min(|pushed|, n)
    ensures forall i :: 0 <= i < |r| ==> r[i] == pushed[|pushed| - |r| + i]
  {
    pushed[|pushed| - Min(|pushed|, n)..]
  }

  /** Pushing one more item appends it to the window and, once the window is
      full, drops the oldest item: the behaviour of a ring buffer. */
  lemma {:induction false} WindowPush<T>(pushed: seq<T>, x: T, n: nat)
    requires n >= 1
    ensures Window(pushed + [x], n) ==
      (if |pushed| < n then Window(pushed, n) else Window(pushed, n)[1..]) + [x]
  {
    var s := pushed + [x];
    if |pushed| < n {
      assert Window(pushed, n) == pushed;
      assert Window(s, n) == s;
    } else {
      assert Window(s, n) == s[|s| - n..];
      assert Window(pushed, n)[1..] == pushed[|pushed| - n + 1..];
      assert s[|s| - n..] == pushed[|pushed| - n + 1..] + [x];
    }
  }

  /** Multiplying by a positive `n` keeps a non-zero factor at least `n` away from zero. */
  lemma {:induction false} MulAwayFromZero(a: int, n: int)
    requires n >= 1
    ensures a >= 1 ==> a * n >= n
    ensures a <= -1 ==> a * n <= -n
    decreases if a < 0 then -a else a
  {
    if a > 1 {
      MulAwayFromZero(a - 1, n);
      assert a * n == (a - 1) * n + n;
    } else if a < -1 {
      MulAwayFromZero(a + 1, n);
      assert a * n == (a + 1) * n - n;
    }
  }

  /** Two positions less than `n` apart never share a slot. */
  lemma {:induction false} ModDistinct(j: int, k: int, n: int)
    requires n >= 1 && 0 <= j < k < j + n
    ensures j % n != k % n
  {
    var qj, qk := j / n, k / n;
    var d := qk - qj;
    if j % n == k % n {
      assert k - j == qk * n - qj * n;
      assert qk * n - qj * n == d * n;
      MulAwayFromZero(d, n);
    }
  }

  /** `a * n + b` lands in slot `b`. */
  lemma {:induction false} ModOfMultiplePlus(a: int, n: int, b: int)
    requires n >= 1 && 0 <= b < n && a * n + b >= 0
    ensures (a * n + b) % n == b
  {
    var x := a * n + b;
    var q := x / n;
    var d := q - a;
    assert x == q * n + x % n;
    assert q * n - a * n == d * n;
    assert d * n == b - x % n;
    MulAwayFromZero(d, n);
  }

  /** The slot that holds the item pushed `n - i` pushes ago. */
  lemma {:induction false} SlotOf(next: nat, n: nat, i: nat)
    requires n >= 1 && next >= n && i < n
    ensures (next - n + i) % n ==
      if i < n - next % n then next % n + i else next % n + i - n
  {
    var q, r := next / n, next % n;
    assert next == q * n + r;
    if i < n - r {
      assert next - n + i == (q - 1) * n + (r + i);
      ModOfMultiplePlus(q - 1, n, r + i);
    } else {
      assert next - n + i == q * n + (r + i - n);
      ModOfMultiplePlus(q, n, r + i - n);
    }
  }

  /** `MaxSizeList`: a backing list of fixed length and a cursor `next` counting
      every push; item number k lives at `list[k % len(list)]`. */
  class MaxSizeList<T(0)> {
    var list: array<T>
    var next: nat
    /** Everything ever pushed, in order. */
    ghost var Pushed: seq<T>

    ghost predicate Valid()
      reads this, list
    {
      && list.Length >= 1
      && next == |Pushed|
      && forall k :: 0 <= k < |Pushed| && |Pushed| - list.Length <= k ==>
           list[k % list.Length] == Pushed[k]
    }

    /** A list of `sizeLimit` empty slots; the source's placeholder `None` is the
        element type's default value here, and is never returned by GetList. */
    constructor (sizeLimit: nat)
      requires sizeLimit >= 1
      ensures Valid() && fresh(list)
      ensures list.Length == sizeLimit && Pushed == []
    {
      list := new T[sizeLimit];
      next := 0;
      Pushed := [];
    }

    /** Writes the item over the slot `next % len(list)` and advances the cursor;
        the backing list keeps its length. */
    method Push(item: T)
      requires Valid()
      modifies this, list
      ensures Valid() && list == old(list) && list.Length == old(list.Length)
      ensures Pushed == old(Pushed) + [item]
    {
      var n := list.Length;
      list[next % n] := item;
      forall k | 0 <= k < |Pushed| && |Pushed| + 1 - n <= k
        ensures list[k % n] == Pushed[k]
      {
        ModDistinct(k, next, n);
      }
      next := next + 1;
      Pushed := Pushed + [item];
    }

    /** The most recent min(M, N) items, oldest first, for M pushes into capacity N. */
    method GetList() returns (r: seq<T>)
      requires Valid()
      ensures r == Window(Pushed, list.Length)
      ensures |r| == Min(|Pushed|, list.Length)
    {
      var n := list.Length;
      if next < n {
        r := list[..next];
        forall k | 0 <= k < next ensures r[k] == Pushed[k] {
          assert k % n == k;
        }
      } else {
        var split := next % n;
        r := list[split..] + list[..split];
        forall i | 0 <= i < n ensures r[i] == Pushed[next - n + i] {
          SlotOf(next, n, i);
        }
      }
    }
  }

  /** A client of the class: with capacity 2, three pushes leave the last two. */
  method OverwriteOldest(a: int, b: int, c: int) returns (r: seq<int>)
    ensures r == [b, c]
  {
    var log := new MaxSizeList<int>(2);
    log.Push(a);
    log.Push(b);
    log.Push(c);
    r := log.GetList();
    assert log.Pushed == [a, b, c];
  }
}
