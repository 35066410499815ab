/** `list.c`: circular doubly linked lists with an end marker and a moving index, updated
    through their pointers, and proved to implement `RoundRobin` and `ListSpec`. */
module Lists {
  import opened Ticks
  import opened RoundRobin
  import ListSpec

  /** The object an item belongs to (`pvOwner`). */
  type Handle = nat

  class ListItem {
    var value: Tick
    var next: ListItem?
    var prev: ListItem?
    var owner: Handle
    var container: List?

    constructor (value: Tick, owner: Handle)
      ensures this.value == value && this.owner == owner && container == null
    {
      this.value, this.owner := value, owner;
      next, prev, container := null, null, null;
    }
  }

  ghost predicate Distinct(r: seq<ListItem>) {
    forall i, j :: 0 <= i < j < |r| ==> r[i] != r[j]
  }

  ghost predicate NextAt(r: seq<ListItem>, i: nat)
    requires i < |r|
    reads r`next
  {
    r[i].next == if i + 1 == |r| then r[0] else r[i + 1]
  }

  ghost predicate PrevAt(r: seq<ListItem>, i: nat)
    requires i < |r|
    reads r`prev
  {
    r[i].prev == if i == 0 then r[|r| - 1] else r[i - 1]
  }

  /** Every node points to its neighbours, and the ends to each other. */
  ghost predicate Linked(r: seq<ListItem>)
    reads r`next, r`prev
  {
    |r| > 0 && forall i :: 0 <= i < |r| ==> NextAt(r, i) && PrevAt(r, i)
  }

  // ---------------------------------------------------------------- splicing a ring

  /** The ring with x behind its first k nodes. */
  ghost function Spliced(r: seq<ListItem>, k: nat, x: ListItem): (s: seq<ListItem>)
    requires 1 <= k <= |r|
    ensures |s| == |r| + 1
    ensures forall i :: 0 <= i <= |r| ==> s[i] == if i < k then r[i] else if i == k then x else r[i - 1]
  {
    r[..k] + [x] + r[k..]
  }

  lemma SplicedItems(e: ListItem, items: seq<ListItem>, k: nat, x: ListItem)
    requires k <= |items|
    ensures [e] + (items[..k] + [x] + items[k..]) == Spliced([e] + items, k + 1, x)
  {
  }

  lemma SplicedDistinct(r: seq<ListItem>, k: nat, x: ListItem)
    requires 1 <= k <= |r| && Distinct(r) && x !in r
    ensures Distinct(Spliced(r, k, x))
  {
  }

  function Around(k: nat, n: nat): nat {
    if k == n then 0 else k
  }

  /** A ring but for two neighbours that x has been linked in between. */
  lemma LinkIn(r: seq<ListItem>, k: nat, x: ListItem)
    requires 1 <= k <= |r|
    requires forall i :: 0 <= i < |r| && i != k - 1 ==> NextAt(r, i)
    requires forall i :: 0 <= i < |r| && i != Around(k, |r|) ==> PrevAt(r, i)
    requires r[k - 1].next == x && x.next == r[Around(k, |r|)] && r[Around(k, |r|)].prev == x && x.prev == r[k - 1]
    ensures Linked(Spliced(r, k, x))
  {
    var s := Spliced(r, k, x);
    forall i | 0 <= i < |s| ensures NextAt(s, i) && PrevAt(s, i) {
      if i != k {
        var j := if i < k then i else i - 1;
        assert s[i] == r[j];
        assert j != k - 1 ==> NextAt(r, j);
        assert j != Around(k, |r|) ==> PrevAt(r, j);
      }
    }
  }

  /** The four assignments that link x in between p and q. */
  method LinkBetween(p: ListItem, x: ListItem, q: ListItem, ghost r: seq<ListItem>, ghost k: nat)
    requires Linked(r) && Distinct(r) && x !in r && 1 <= k <= |r|
    requires p == r[k - 1] && q == r[Around(k, |r|)]
    modifies x`next, x`prev, p`next, q`prev
    ensures Linked(Spliced(r, k, x))
  {
    x.next := q;
    x.prev := p;
    p.next := x;
    q.prev := x;
    forall i | 0 <= i < |r| && i != k - 1 ensures NextAt(r, i) {
      assert r[i] != p && old(NextAt(r, i));
    }
    forall i | 0 <= i < |r| && i != Around(k, |r|) ensures PrevAt(r, i) {
      assert r[i] != q && old(PrevAt(r, i));
    }
    LinkIn(r, k, x);
  }

  /** The ring without its k-th node. */
  ghost function Cut(r: seq<ListItem>, k: nat): (s: seq<ListItem>)
    requires 1 <= k < |r|
    ensures |s| == |r| - 1
    ensures forall i :: 0 <= i < |s| ==> s[i] == if i < k then r[i] else r[i + 1]
  {
    r[..k] + r[k + 1..]
  }

  lemma CutItems(e: ListItem, items: seq<ListItem>, k: nat)
    requires k < |items|
    ensures [e] + (items[..k] + items[k + 1..]) == Cut([e] + items, k + 1)
  {
  }

  lemma CutDistinct(r: seq<ListItem>, k: nat)
    requires 1 <= k < |r| && Distinct(r)
    ensures Distinct(Cut(r, k)) && r[k] !in Cut(r, k)
  {
  }

  lemma CutLinked(r: seq<ListItem>, k: nat)
    requires 1 <= k < |r|
    requires forall i :: 0 <= i < |r| && i != k - 1 && i != k ==> NextAt(r, i)
    requires forall i :: 0 <= i < |r| && i != Around(k + 1, |r|) && i != k ==> PrevAt(r, i)
    requires r[k - 1].next == r[Around(k + 1, |r|)] && r[Around(k + 1, |r|)].prev == r[k - 1]
    ensures Linked(Cut(r, k))
  {
    var s := Cut(r, k);
    forall i | 0 <= i < |s| ensures NextAt(s, i) && PrevAt(s, i) {
      var j := if i < k then i else i + 1;
      assert s[i] == r[j];
      assert j != k - 1 ==> NextAt(r, j);
      assert j != Around(k + 1, |r|) ==> PrevAt(r, j);
    }
  }

  /** The two assignments that take x out of its ring. */
  method LinkOut(x: ListItem, ghost r: seq<ListItem>, ghost k: nat)
    requires Linked(r) && Distinct(r) && 1 <= k < |r| && x == r[k]
    requires NextAt(r, k) && PrevAt(r, k)
    modifies x.prev`next, x.next`prev
    ensures Linked(Cut(r, k)) && x.prev == old(x.prev)
  {
    x.next.prev := x.prev;
    x.prev.next := x.next;
    forall i | 0 <= i < |r| && i != k - 1 && i != k ensures NextAt(r, i) {
      assert r[i] != r[k - 1] && old(NextAt(r, i));
    }
    forall i | 0 <= i < |r| && i != Around(k + 1, |r|) && i != k ensures PrevAt(r, i) {
      assert r[i] != r[Around(k + 1, |r|)] && old(PrevAt(r, i));
    }
    CutLinked(r, k);
  }

  class List {
    var numberOfItems: nat
    var index: ListItem
    const listEnd: ListItem
    ghost var cursor: Cursor<ListItem>

    ghost function Ring(): seq<ListItem>
      reads this
    {
      [listEnd] + cursor.items
    }

    ghost predicate Valid()
      reads this, listEnd, cursor.items
    {
      && Ok(cursor)
      && Distinct(Ring()) && Linked(Ring())
      && listEnd.value == MAX_DELAY
      && (forall x :: x in cursor.items ==> x.container == this)
      && numberOfItems == |cursor.items|
      && index == Ring()[cursor.at]
    }

    /** The list's contents as `ListSpec` sees them. */
    ghost function View(): (v: seq<ListSpec.Item<Handle>>)
      reads this, cursor.items`value, cursor.items`owner
      ensures |v| == |cursor.items|
    {
      ViewOf(cursor.items)
    }

    /** `vListInitialise` */
    constructor ()
      ensures Valid() && cursor == Cursor([], 0) && fresh(listEnd)
    {
      var e := new ListItem(MAX_DELAY, 0);
      listEnd, index, numberOfItems := e, e, 0;
      cursor := Cursor([], 0);
      new;
      listEnd.next, listEnd.prev := listEnd, listEnd;
    }

    lemma Neighbours(i: nat)
      requires Valid() && i < |Ring()|
      ensures NextAt(Ring(), i) && PrevAt(Ring(), i)
    {
    }

    /** What is left to show once x has been linked in behind the first k items. */
    twostate lemma LinkedIn(k: nat, new x: ListItem)
      requires old(Valid()) && x !in old(Ring()) && k <= |old(cursor).items|
      requires Linked(Spliced(old(Ring()), k + 1, x))
      requires cursor == RoundRobin.InsertAt(old(cursor), k, x)
      requires index == old(index) && numberOfItems == old(numberOfItems) + 1
      requires x.container == this && listEnd.value == old(listEnd.value)
      requires forall y :: y in old(cursor).items ==> y.container == old(y.container)
      ensures Valid()
    {
      SplicedItems(listEnd, old(cursor).items, k, x);
      SplicedDistinct(old(Ring()), k + 1, x);
    }

    /** Links x in behind `behind` and counts it in: the common end of the two insertions. */
    method LinkBehind(behind: ListItem, x: ListItem, ghost k: nat)
      requires Valid() && x !in Ring() && k <= |cursor.items| && behind == Ring()[k]
      modifies this, Ring()`next, Ring()`prev, x`next, x`prev, x`container
      ensures Valid() && x.container == this
      ensures cursor == InsertAt(old(cursor), k, x)
    {
      ghost var r := Ring();
      Neighbours(k);
      hide Linked; hide Spliced;
      LinkBetween(behind, x, behind.next, r, k + 1);
      x.container := this;
      numberOfItems := numberOfItems + 1;
      cursor := InsertAt(cursor, k, x);
      LinkedIn(k, x);
    }

    lemma ViewDef()
      requires Valid()
      ensures View() == ViewOf(cursor.items) && Ok(cursor)
    {
    }

    /** `vListInsertEnd` */
    method InsertEnd(x: ListItem)
      requires Valid() && x !in Ring()
      modifies this, Ring()`next, Ring()`prev, x`next, x`prev, x`container
      ensures Valid() && x.container == this
      ensures cursor == RoundRobin.InsertEnd(old(cursor), x)
    {
      Neighbours(cursor.at);
      LinkBehind(index.prev, x, if cursor.at == 0 then |cursor.items| else cursor.at - 1);
    }

    lemma NextNode(k: nat)
      requires Valid() && k <= |cursor.items|
      ensures Ring()[k].next == if k == |cursor.items| then listEnd else cursor.items[k]
      ensures k < |cursor.items| ==> cursor.items[k] == Ring()[k + 1] && cursor.items[k].value == View()[k].value
      ensures |Ring()| == |cursor.items| + 1
      ensures listEnd == Ring()[0] && listEnd.prev == Ring()[|cursor.items|] && listEnd.value == MAX_DELAY
    {
      Neighbours(k);
      Neighbours(0);
    }

    /** The walk of `vListInsert`, from the end marker past every item not greater. */
    method FindPlace(value: Tick) returns (walker: ListItem, ghost k: nat)
      requires Valid()
      ensures k == ListSpec.InsertPosition(View(), value)
      ensures walker == Ring()[ListSpec.InsertPosition(View(), value)]
    {
      assert value <= MAX_DELAY;
      hide *;
      ghost var ring, items, v := Ring(), cursor.items, View();
      k := 0;
      walker := listEnd;
      NextNode(0);
      WalkBounds(v, value);
      if value == MAX_DELAY {
        walker, k := listEnd.prev, |items|;
      } else {
        while walker.next.value <= value
          invariant 0 <= k <= |items| && walker == ring[k]
          invariant walker.next == if k == |items| then listEnd else items[k]
          invariant NoneGreater(v, value, k)
          decreases |items| - k
        {
          NextNode(k);
          OneMoreNotGreater(v, value, k);
          walker, k := walker.next, k + 1;
          NextNode(k);
        }
        NextNode(k);
      }
      InsertionPoint(v, value, k);
    }

    /** `vListInsert` */
    method Insert(x: ListItem)
      requires Valid() && x !in Ring()
      modifies this, Ring()`next, Ring()`prev, x`next, x`prev, x`container
      ensures Valid() && x.container == this
      ensures cursor == InsertAt(old(cursor), ListSpec.InsertPosition(old(View()), x.value), x)
      ensures View() == ListSpec.Insert(old(View()), ListSpec.Item(x.value, x.owner))
    {
      hide *;
      var walker, k := FindPlace(x.value);
      ghost var c := cursor;
      ListSpec.InsertSplits(View(), ListSpec.Item(x.value, x.owner));
      ViewDef();
      LinkBehind(walker, x, k);
      ViewDef();
      ViewInsert(c.items, k, x);
      InsertAtItems(c, k, x);
    }

    lemma RemoveReady(x: ListItem, k: nat)
      requires Valid() && k < |cursor.items| && cursor.items[k] == x
      ensures |Ring()| == |cursor.items| + 1 && x == Ring()[k + 1]
      ensures Linked(Ring()) && Distinct(Ring()) && NextAt(Ring(), k + 1) && PrevAt(Ring(), k + 1)
      ensures x.prev == Ring()[k] && x.prev in Ring() && x.next != null && x.next in Ring()
      ensures numberOfItems == |cursor.items| && (index == x <==> cursor.at == k + 1)
      ensures Ok(cursor) && x in Ring()
    {
      Neighbours(k + 1);
    }

    /** Everything Valid() says but that the k-th item is already linked out. */
    ghost predicate ValidBut(k: nat)
      reads this, listEnd, cursor.items
    {
      && Ok(cursor) && k < |cursor.items|
      && Distinct(Ring()) && Linked(Cut(Ring(), k + 1))
      && listEnd.value == MAX_DELAY
      && (forall x :: x in cursor.items ==> x.container == this)
      && numberOfItems == |cursor.items|
      && index == Ring()[cursor.at] && cursor.items[k].prev == Ring()[k]
    }

    lemma DropReady(k: nat)
      requires ValidBut(k)
      ensures var x, r, c := cursor.items[k], Cut(Ring(), k + 1), RemoveAt(cursor, k);
              && r == [listEnd] + c.items && Ok(c)
              && Distinct(r) && Linked(r) && x !in r
              && r[c.at] == (if index == x then x.prev else index)
              && |c.items| == numberOfItems - 1
              && forall y :: y in c.items ==> y in cursor.items
    {
      CutItems(listEnd, cursor.items, k);
      CutDistinct(Ring(), k + 1);
    }

    /** The second half of `uxListRemove`. */
    method Drop(x: ListItem, ghost k: nat)
      requires ValidBut(k) && cursor.items[k] == x
      modifies this, x`container
      ensures Valid() && x.container == null && cursor == RemoveAt(old(cursor), k)
    {
      DropReady(k);
      hide Cut; hide RemoveAt; hide Linked; hide Distinct;
      if index == x {
        index := x.prev;
      }
      x.container := null;
      numberOfItems := numberOfItems - 1;
      cursor := RemoveAt(cursor, k);
    }

    /** `uxListRemove`; the source finds the list through the item's container. */
    method Remove(x: ListItem, ghost k: nat) returns (left: nat)
      requires Valid() && x.container == this && k < |cursor.items| && cursor.items[k] == x
      modifies this, Ring()`next, Ring()`prev, x`container
      ensures Valid() && x.container == null
      ensures cursor == RemoveAt(old(cursor), k)
      ensures left == numberOfItems == |cursor.items|
    {
      RemoveReady(x, k);
      hide Linked; hide Distinct; hide Cut; hide RemoveAt;
      LinkOut(x, Ring(), k + 1);
      Drop(x, k);
      left := numberOfItems;
    }

    /** `listGET_OWNER_OF_NEXT_ENTRY` */
    method NextEntry() returns (owner: Handle)
      requires Valid() && cursor.items != []
      modifies this
      ensures Valid() && cursor == Advance(old(cursor))
      ensures owner == Current(cursor).owner
    {
      Neighbours(cursor.at);
      Neighbours(0);
      index := index.next;
      if index == listEnd {
        index := index.next;
      }
      cursor := Advance(cursor);
      owner := index.owner;
    }
  }

  ghost function ViewOf(items: seq<ListItem>): (v: seq<ListSpec.Item<Handle>>)
    reads items`value, items`owner
    ensures |v| == |items|
    ensures forall i :: 0 <= i < |items| ==> v[i] == ListSpec.Item(items[i].value, items[i].owner)
  {
    if items == [] then [] else [ListSpec.Item(items[0].value, items[0].owner)] + ViewOf(items[1..])
  }

  lemma {:induction false} ViewInsert(items: seq<ListItem>, k: nat, x: ListItem)
    requires k <= |items|
    ensures ViewOf(items[..k] + [x] + items[k..])
         == ViewOf(items)[..k] + [ListSpec.Item(x.value, x.owner)] + ViewOf(items)[k..]
  {
  }

  lemma InsertAtItems(c: Cursor<ListItem>, k: nat, x: ListItem)
    requires Ok(c) && k <= |c.items|
    ensures InsertAt(c, k, x).items == c.items[..k] + [x] + c.items[k..]
  {
  }

  /** The walk has passed no item greater than the value. */
  ghost predicate NoneGreater(v: seq<ListSpec.Item<Handle>>, value: Tick, k: nat) {
    k <= |v| && forall i :: 0 <= i < k ==> v[i].value <= value
  }

  lemma WalkBounds(v: seq<ListSpec.Item<Handle>>, value: Tick)
    ensures NoneGreater(v, value, 0) && (value == MAX_DELAY ==> NoneGreater(v, value, |v|))
  {
  }

  lemma OneMoreNotGreater(v: seq<ListSpec.Item<Handle>>, value: Tick, k: nat)
    requires NoneGreater(v, value, k) && k < |v| && v[k].value <= value
    ensures NoneGreater(v, value, k + 1)
  {
  }

  /** The place where the walk stops is the one `ListSpec` names. */
  lemma InsertionPoint(v: seq<ListSpec.Item<Handle>>, value: Tick, k: nat)
    requires NoneGreater(v, value, k)
    requires k < |v| ==> value < v[k].value
    ensures k == ListSpec.InsertPosition(v, value)
  {
  }
}
