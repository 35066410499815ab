/** What the kernel's lists hold, as values: `list.c` without its pointers.
    `Lists` proves that the pointer structure implements these functions;
    the timers and the queues are built on them. */
module ListSpec {
  import opened Sequences
  import opened Ticks

  datatype Item<T> = Item(value: Tick, owner: T)

  predicate Sorted<T>(s: seq<Item<T>>) {
    forall i, j :: 0 <= i < j < |s| ==> s[i].value <= s[j].value
  }

  /** `vListInsert` on values: before the first item with a greater value. */
  function Insert<T>(s: seq<Item<T>>, x: Item<T>): (r: seq<Item<T>>)
    ensures |r| == |s| + 1
  {
    if s == [] || x.value < s[0].value then [x] + s else [s[0]] + Insert(s[1..], x)
  }

  /** How many leading items `vListInsert` walks past. */
  function InsertPosition<T>(s: seq<Item<T>>, v: Tick): (k: nat)
    ensures k <= |s|
    ensures forall i :: 0 <= i < k ==> s[i].value <= v
    ensures k < |s| ==> v < s[k].value
  {
    if s == [] || v < s[0].value then 0 else 1 + InsertPosition(s[1..], v)
  }

  lemma {:induction false} InsertSplits<T>(s: seq<Item<T>>, x: Item<T>)
    ensures var k := InsertPosition(s, x.value); Insert(s, x) == s[..k] + [x] + s[k..]
  {
    if s != [] && s[0].value <= x.value {
      InsertSplits(s[1..], x);
      var k := InsertPosition(s[1..], x.value);
      assert s[..k + 1] == [s[0]] + s[1..][..k];
      assert s[k + 1..] == s[1..][k..];
    }
  }

  /** Insertion changes neither the other items nor their order. */
  lemma InsertKeepsOthers<T>(s: seq<Item<T>>, x: Item<T>)
    ensures var r, k := Insert(s, x), InsertPosition(s, x.value);
            r[k] == x && r[..k] + r[k + 1..] == s
  {
    var k := InsertPosition(s, x.value);
    InsertSplits(s, x);
    TakenOut(s[..k], x, s[k..]);
    Rejoin(s, k);
    hide Insert; hide InsertPosition;
  }

  /** Insertion keeps a sorted list sorted and puts the new item behind every item with
      the same value. */
  lemma {:induction false} InsertKeepsSorted<T>(s: seq<Item<T>>, x: Item<T>)
    requires Sorted(s)
    ensures Sorted(Insert(s, x))
    ensures forall i :: InsertPosition(s, x.value) < i <= |s| ==> x.value < Insert(s, x)[i].value
  {
    var k := InsertPosition(s, x.value);
    InsertSplits(s, x);
    forall i | k <= i < |s| ensures x.value < s[i].value {
    }
    forall i, j | 0 <= i < j <= |s| ensures Insert(s, x)[i].value <= Insert(s, x)[j].value {
      InsertAt(s, x, i);
      InsertAt(s, x, j);
    }
    forall i | k < i <= |s| ensures x.value < Insert(s, x)[i].value {
      InsertAt(s, x, i);
    }
  }

  lemma InsertAt<T>(s: seq<Item<T>>, x: Item<T>, i: nat)
    requires i <= |s|
    ensures var k := InsertPosition(s, x.value);
            Insert(s, x)[i] == if i < k then s[i] else if i == k then x else s[i - 1]
  {
    InsertSplits(s, x);
  }
}
