/** Circular storage: cell numbers that wrap once, and the stretch of a buffer that
    starts at one cell and runs round the end. */
module Ring {

  /** Where position i lies in a ring of n cells, for positions less than one turn past
      the end. */
  function Slot(i: nat, n: nat): nat {
    if i >= n then i - n else i
  }

  function Window<T>(buffer: seq<T>, start: nat, count: nat): (w: seq<T>)
    requires start < |buffer| && count <= |buffer|
    ensures |w| == count
    ensures forall i :: 0 <= i < count ==> w[i] == buffer[Slot(start + i, |buffer|)]
  {
    seq(count, i requires 0 <= i < count => buffer[Slot(start + i, |buffer|)])
  }

  lemma SlotIsModulo(i: nat, n: nat)
    requires 0 < n && i <= 2 * n
    ensures i % n == Slot(Slot(i, n), n)
  {
    if i >= n {
      assert i == n + (i - n);
      if i == 2 * n {
        assert i % n == 0;
      } else {
        assert i % n == i - n;
      }
    }
  }

  lemma PushBack<T>(buffer: seq<T>, start: nat, count: nat, x: T)
    requires start < |buffer| && count < |buffer|
    ensures Window(buffer[Slot(start + count, |buffer|) := x], start, count + 1) == Window(buffer, start, count) + [x]
  {
  }

  lemma PushFront<T>(buffer: seq<T>, start: nat, count: nat, x: T)
    requires start < |buffer| && count < |buffer|
    ensures var before := if start == 0 then |buffer| - 1 else start - 1;
            Window(buffer[before := x], before, count + 1) == [x] + Window(buffer, start, count)
  {
  }

  lemma PopFront<T>(buffer: seq<T>, start: nat, count: nat)
    requires start < |buffer| && 0 < count <= |buffer|
    ensures Window(buffer, Slot(start + 1, |buffer|), count - 1) == Window(buffer, start, count)[1..]
  {
  }

  lemma WindowSplits<T>(buffer: seq<T>, start: nat, count: nat, n: nat)
    requires start < |buffer| && n <= count <= |buffer| && n < |buffer|
    ensures Window(buffer, start, n) == Window(buffer, start, count)[..n]
    ensures Window(buffer, Slot(start + n, |buffer|), count - n) == Window(buffer, start, count)[n..]
  {
    var t := Slot(start + n, |buffer|);
    forall i | 0 <= i < count - n
      ensures Window(buffer, t, count - n)[i] == Window(buffer, start, count)[n..][i]
    {
      assert Slot(t + i, |buffer|) == Slot(start + (n + i), |buffer|);
    }
  }
}
