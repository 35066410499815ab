/** Event groups of `event_groups.c` as values. */
module EventGroupSpec {

  /** `EventBits_t`: 24 event bits and, in a waiting task's list item, 8 control bits. */
  type Bits = bv32

  const CLEAR_ON_EXIT: Bits := 0x0100_0000
  const UNBLOCKED: Bits := 0x0200_0000
  const WAIT_FOR_ALL: Bits := 0x0400_0000
  const IN_USE: Bits := 0x8000_0000
  const CONTROL: Bits := 0xff00_0000

  type Task = nat

  /** A task in the waiting list, with the value of its event list item. */
  datatype Waiter = Waiter(task: Task, value: Bits)

  /** `released` is a history: the tasks taken off the list because of their bits, with the
      value each finds in its item. */
  datatype Group = Group(bits: Bits, waiting: seq<Waiter>, released: seq<Waiter>)

  // The bit operations have names so that proofs can treat them as a whole.

  function And(a: Bits, b: Bits): Bits {
    a & b
  }

  function Union(a: Bits, b: Bits): Bits {
    a | b
  }

  function Drop(a: Bits, b: Bits): Bits {
    a & !b
  }

  predicate Within(a: Bits, b: Bits) {
    And(a, b) == a
  }

  /** `prvTestWaitCondition` */
  predicate Met(bits: Bits, wanted: Bits, all: bool) {
    if all then And(bits, wanted) == wanted else And(bits, wanted) != 0
  }

  /** The item value of a task waiting for `wanted`. */
  function Encoded(wanted: Bits, clear: bool, all: bool): Bits {
    Union(Union(wanted, if clear then CLEAR_ON_EXIT else 0), Union(if all then WAIT_FOR_ALL else 0, IN_USE))
  }

  function Wanted(value: Bits): Bits {
    Drop(value, CONTROL)
  }

  predicate ForAll(value: Bits) {
    And(value, WAIT_FOR_ALL) != 0
  }

  predicate Clears(value: Bits) {
    And(value, CLEAR_ON_EXIT) != 0
  }

  lemma EncodedReads(wanted: Bits, clear: bool, all: bool)
    requires And(wanted, CONTROL) == 0
    ensures var v := Encoded(wanted, clear, all);
            Wanted(v) == wanted && ForAll(v) == all && Clears(v) == clear
  {
  }

  predicate Satisfied(w: Waiter, bits: Bits) {
    Met(bits, Wanted(w.value), ForAll(w.value))
  }

  function Satisfying(ws: seq<Waiter>, bits: Bits): seq<Waiter> {
    if ws == [] then []
    else if Satisfied(ws[0], bits) then [ws[0]] + Satisfying(ws[1..], bits)
    else Satisfying(ws[1..], bits)
  }

  function Unsatisfied(ws: seq<Waiter>, bits: Bits): seq<Waiter> {
    if ws == [] then []
    else if Satisfied(ws[0], bits) then Unsatisfied(ws[1..], bits)
    else [ws[0]] + Unsatisfied(ws[1..], bits)
  }

  /** The bits that woken tasks want cleared. */
  function ClearMask(woken: seq<Waiter>): Bits {
    if woken == [] then 0 else Union(Clearing(woken[0]), ClearMask(woken[1..]))
  }

  function Clearing(w: Waiter): Bits {
    if Clears(w.value) then Wanted(w.value) else 0
  }

  /** What a task woken at these bits finds in its list item. */
  function Mark(bits: Bits): Bits {
    Union(bits, Union(UNBLOCKED, IN_USE))
  }

  function Notify(woken: seq<Waiter>, bits: Bits): (r: seq<Waiter>)
    ensures |r| == |woken|
    ensures forall i :: 0 <= i < |r| ==> r[i] == Waiter(woken[i].task, Mark(bits))
  {
    if woken == [] then [] else [Waiter(woken[0].task, Mark(bits))] + Notify(woken[1..], bits)
  }

  // -------------------------------------------------------------------- operations

  /** `xEventGroupSetBits` */
  function SetBits(g: Group, add: Bits): Group {
    var bits := Union(g.bits, add);
    var woken := Satisfying(g.waiting, bits);
    Group(Drop(bits, ClearMask(woken)), Unsatisfied(g.waiting, bits), g.released + Notify(woken, bits))
  }

  /** `xEventGroupClearBits` */
  function ClearBits(g: Group, clear: Bits): Group {
    g.(bits := Drop(g.bits, clear))
  }

  /** How a call ends up: with a return value, or on the waiting list. */
  datatype Outcome = Returned(value: Bits) | Blocked

  /** `xEventGroupWaitBits` up to the point where it returns or blocks. */
  function WaitBits(g: Group, t: Task, wanted: Bits, clear: bool, all: bool, ticks: nat): (Group, Outcome) {
    if Met(g.bits, wanted, all) then
      (if clear then ClearBits(g, wanted) else g, Returned(g.bits))
    else if ticks == 0 then (g, Returned(g.bits))
    else (g.(waiting := g.waiting + [Waiter(t, Encoded(wanted, clear, all))]), Blocked)
  }

  /** `xEventGroupSync` up to the point where it returns or blocks. */
  function Sync(g: Group, t: Task, add: Bits, wanted: Bits, ticks: nat): (Group, Outcome) {
    var g1 := SetBits(g, add);
    if Met(Union(g.bits, add), wanted, true) then
      (ClearBits(g1, wanted), Returned(Union(g.bits, add)))
    else if ticks == 0 then (g1, Returned(g1.bits))
    else (g1.(waiting := g1.waiting + [Waiter(t, Encoded(wanted, true, true))]), Blocked)
  }

  /** The tail of both: a task that finds no `UNBLOCKED` mark has timed out, and looks once
      more at the bits; one that finds it returns the bits it was given. */
  function Resume(g: Group, value: Bits, wanted: Bits, clear: bool, all: bool): (Group, Bits) {
    if And(value, UNBLOCKED) != 0 then (g, Drop(value, CONTROL))
    else
      (if Met(g.bits, wanted, all) && clear then ClearBits(g, wanted) else g, Drop(g.bits, CONTROL))
  }

  /** The tick interrupt takes a task off the list whose time is up. */
  function Expire(g: Group, i: nat): Group
    requires i < |g.waiting|
  {
    g.(waiting := g.waiting[..i] + g.waiting[i + 1..])
  }

  /** `vEventGroupDelete` releases everyone with no bits set. */
  function Delete(g: Group): Group {
    g.(waiting := [], released := g.released + Notify(g.waiting, 0))
  }
}
