/** A list with its moving index, as values: the items in order and how many of them lie
    up to and including the one the index rests on; 0 means the end marker. */
module RoundRobin {
  import opened Sequences

  datatype Cursor<T> = Cursor(items: seq<T>, at: nat)

  ghost predicate Ok<T>(c: Cursor<T>) {
    c.at <= |c.items|
  }

  /** The order in which `listGET_OWNER_OF_NEXT_ENTRY` is going to return the items. */
  function Order<T>(c: Cursor<T>): seq<T>
    requires Ok(c)
  {
    c.items[c.at..] + c.items[..c.at]
  }

  /** `listGET_OWNER_OF_NEXT_ENTRY` */
  function Advance<T>(c: Cursor<T>): Cursor<T>
    requires Ok(c) && c.items != []
  {
    c.(at := if c.at == |c.items| then 1 else c.at + 1)
  }

  function Current<T>(c: Cursor<T>): T
    requires Ok(c) && 0 < c.at
  {
    c.items[c.at - 1]
  }

  function InsertAt<T>(c: Cursor<T>, k: nat, x: T): Cursor<T>
    requires Ok(c) && k <= |c.items|
  {
    Cursor(c.items[..k] + [x] + c.items[k..], if k < c.at then c.at + 1 else c.at)
  }

  /** `vListInsertEnd`: just behind the item the index rests on, going round. */
  function InsertEnd<T>(c: Cursor<T>, x: T): Cursor<T>
    requires Ok(c)
  {
    InsertAt(c, if c.at == 0 then |c.items| else c.at - 1, x)
  }

  /** `uxListRemove` of the item at position k. */
  function RemoveAt<T>(c: Cursor<T>, k: nat): Cursor<T>
    requires Ok(c) && k < |c.items|
  {
    Cursor(c.items[..k] + c.items[k + 1..], if k < c.at then c.at - 1 else c.at)
  }

  /** The items returned by n calls in a row. */
  function Walk<T>(c: Cursor<T>, n: nat): seq<T>
    requires Ok(c) && c.items != []
    decreases n
  {
    if n == 0 then [] else [Current(Advance(c))] + Walk(Advance(c), n - 1)
  }

  lemma AdvanceRotates<T>(c: Cursor<T>)
    requires Ok(c) && c.items != []
    ensures Ok(Advance(c)) && Current(Advance(c)) == Order(c)[0]
    ensures Order(Advance(c)) == Order(c)[1..] + [Order(c)[0]]
  {
  }

  /** As many walks as there are items return each item once, in the announced order, and
      leave that order as it was. */
  lemma FullRound<T>(c: Cursor<T>)
    requires Ok(c) && c.items != []
    ensures Walk(c, |c.items|) == Order(c)
    ensures multiset(Walk(c, |c.items|)) == multiset(c.items)
  {
    PartialRound(c, |c.items|);
    assert Order(c)[..|c.items|] == Order(c);
    SplitKeepsItems(c.items, c.at);
    hide Walk;
  }

  lemma SplitKeepsItems<T>(s: seq<T>, k: nat)
    requires k <= |s|
    ensures multiset(s[k..] + s[..k]) == multiset(s)
  {
    assert s == s[..k] + s[k..];
  }

  lemma {:induction false} PartialRound<T>(c: Cursor<T>, n: nat)
    requires Ok(c) && c.items != [] && n <= |c.items|
    ensures Walk(c, n) == Order(c)[..n]
    decreases n
  {
    if n > 0 {
      AdvanceRotates(c);
      PartialRound(Advance(c), n - 1);
      assert Order(Advance(c))[..n - 1] == Order(c)[1..][..n - 1];
    }
  }

  /** An item added with `vListInsertEnd` is returned after every other item except the
      one the index rests on. */
  lemma InsertEndComesLast<T>(c: Cursor<T>, x: T)
    requires Ok(c)
    ensures Order(InsertEnd(c, x))
         == if c.at == 0 then Order(c) + [x]
            else Order(c)[..|c.items| - 1] + [x, Current(c)]
    ensures c.at > 0 ==> Order(c) == Order(c)[..|c.items| - 1] + [Current(c)]
  {
    if c.at > 0 {
      var r := InsertEnd(c, x);
      assert r.items[r.at..] == c.items[c.at..];
      assert r.items[..r.at] == c.items[..c.at - 1] + [x, Current(c)];
      assert c.items[..c.at] == c.items[..c.at - 1] + [Current(c)];
    }
  }

  lemma OrderOfParts<T>(u: seq<T>, v: seq<T>)
    ensures Order(Cursor(u + v, |u|)) == v + u
  {
    assert (u + v)[|u|..] == v && (u + v)[..|u|] == u;
  }

  /** The items around the k-th one, and those behind the index. */
  lemma SplitAround<T>(s: seq<T>, k: nat, at: nat)
    requires k < |s| && at <= |s|
    ensures k < at ==> s == s[..k] + [s[k]] + s[k + 1..at] + s[at..] && s[k + 1..] == s[k + 1..at] + s[at..]
    ensures at <= k ==> s == s[..at] + (s[at..k] + [s[k]] + s[k + 1..]) && s[..k] == s[..at] + s[at..k]
  {
  }

  lemma RemoveUpToIndex<T>(c: Cursor<T>, k: nat)
    requires Ok(c) && k < c.at
    ensures var q := |c.items| - c.at + k;
            && Order(c)[q] == c.items[k]
            && Order(RemoveAt(c, k)) == Order(c)[..q] + Order(c)[q + 1..]
  {
    var s, at := c.items, c.at;
    var a, x, b, d := s[..k], s[k], s[k + 1..at], s[at..];
    assert RemoveAt(c, k) == Cursor(a + s[k + 1..], at - 1);
    assert |a| == k && |b| == at - k - 1 && |d| == |s| - at;
    SplitAround(s, k, at);
    OrderOfParts(a + [x] + b, d);
    OrderOfParts(a + b, d);
    hide Order; hide RemoveAt;
    Join(a, b, d);
    Join(d, a + [x], b);
    Join(d, a, [x]);
    Join(d, a, b);
    TakenOut(d + a, x, b);
  }

  lemma RemoveBehindIndex<T>(c: Cursor<T>, k: nat)
    requires Ok(c) && c.at <= k < |c.items|
    ensures var q := k - c.at;
            && Order(c)[q] == c.items[k]
            && Order(RemoveAt(c, k)) == Order(c)[..q] + Order(c)[q + 1..]
  {
    var s, at := c.items, c.at;
    var d, a, x, b := s[..at], s[at..k], s[k], s[k + 1..];
    assert RemoveAt(c, k) == Cursor(s[..k] + b, at);
    assert |a| == k - at && |d| == at;
    SplitAround(s, k, at);
    OrderOfParts(d, a + [x] + b);
    OrderOfParts(d, a + b);
    hide Order; hide RemoveAt;
    Join(d, a, b);
    Join(a + [x], b, d);
    Join(a, b, d);
    TakenOut(a, x, b + d);
  }

  /** Removing an item, even the one the index rests on, leaves the order of the others. */
  lemma RemoveKeepsOrder<T>(c: Cursor<T>, k: nat)
    requires Ok(c) && k < |c.items|
    ensures var q := if k < c.at then |c.items| - c.at + k else k - c.at;
            && Order(c)[q] == c.items[k]
            && Order(RemoveAt(c, k)) == Order(c)[..q] + Order(c)[q + 1..]
  {
    if k < c.at {
      RemoveUpToIndex(c, k);
    } else {
      RemoveBehindIndex(c, k);
    }
    hide RemoveAt;
  }

  /** Removing what has just been inserted restores the list and its index. */
  lemma RemoveUndoesInsert<T>(c: Cursor<T>, k: nat, x: T)
    requires Ok(c) && k <= |c.items|
    ensures RemoveAt(InsertAt(c, k, x), k) == c
  {
    var i := InsertAt(c, k, x);
    assert i.items[..k] == c.items[..k] && i.items[k + 1..] == c.items[k..];
  }
}
