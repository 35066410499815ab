/** `event_groups.c` with its group updated in place, proved to do what `EventGroupSpec`
    says. */
module EventGroup {
  import opened EventGroupSpec

  /** Splitting the control bits off first makes no difference to the tests on them. */
  lemma ControlBits(value: Bits)
    ensures And(And(value, CONTROL), WAIT_FOR_ALL) == And(value, WAIT_FOR_ALL)
    ensures And(And(value, CONTROL), CLEAR_ON_EXIT) == And(value, CLEAR_ON_EXIT)
  {
  }

  lemma AndCommutes(a: Bits, b: Bits)
    ensures And(a, b) == And(b, a)
  {
  }

  lemma UnionLaws(a: Bits, b: Bits, c: Bits)
    ensures Union(Union(a, b), c) == Union(a, Union(b, c))
    ensures Union(a, 0) == a && Union(0, a) == a
  {
  }

  lemma {:induction false} ClearMaskAppend(woken: seq<Waiter>, w: Waiter)
    ensures ClearMask(woken + [w]) == Union(ClearMask(woken), Clearing(w))
  {
    UnionLaws(Clearing(w), 0, 0);
    if woken == [] {
      assert woken + [w] == [w];
      assert ClearMask([w]) == Union(Clearing(w), ClearMask([]));
    } else {
      ClearMaskAppend(woken[1..], w);
      assert (woken + [w])[1..] == woken[1..] + [w];
      UnionLaws(Clearing(woken[0]), ClearMask(woken[1..]), Clearing(w));
      hide Union; hide Clearing;
    }
  }

  lemma NotifyAppend(woken: seq<Waiter>, w: Waiter, bits: Bits)
    ensures Notify(woken + [w], bits) == Notify(woken, bits) + [Waiter(w.task, Mark(bits))]
  {
  }

  /** The test on one list item: is it satisfied, and which bits does it want cleared? */
  method Examine(w: Waiter, bits: Bits) returns (matches: bool, clearing: Bits)
    ensures matches == Satisfied(w, bits) && clearing == Clearing(w)
  {
    hide And; hide Drop;
    var waitedFor := Drop(w.value, CONTROL);
    var control := And(w.value, CONTROL);
    matches := false;
    if And(control, WAIT_FOR_ALL) == 0 {
      if And(waitedFor, bits) != 0 {
        matches := true;
      }
    } else if And(waitedFor, bits) == waitedFor {
      matches := true;
    }
    clearing := if And(control, CLEAR_ON_EXIT) != 0 then waitedFor else 0;
    ControlBits(w.value);
    AndCommutes(waitedFor, bits);
  }

  /** The walk so far has told `woken` from `kept`; `todo` is still ahead. */
  ghost predicate Partitioned(all: seq<Waiter>, bits: Bits, woken: seq<Waiter>, kept: seq<Waiter>, todo: seq<Waiter>) {
    && Satisfying(all, bits) == woken + Satisfying(todo, bits)
    && Unsatisfied(all, bits) == kept + Unsatisfied(todo, bits)
  }

  lemma PartitionOne(all: seq<Waiter>, bits: Bits, woken: seq<Waiter>, kept: seq<Waiter>, todo: seq<Waiter>)
    requires Partitioned(all, bits, woken, kept, todo) && todo != []
    ensures Satisfied(todo[0], bits) ==> Partitioned(all, bits, woken + [todo[0]], kept, todo[1..])
    ensures !Satisfied(todo[0], bits) ==> Partitioned(all, bits, woken, kept + [todo[0]], todo[1..])
  {
    hide Satisfied;
  }

  /** What the walk has done so far: besides telling the waiters apart, it has collected the
      bits to clear and told the woken ones. */
  ghost predicate Walked(g: Group, bits: Bits, woken: seq<Waiter>, kept: seq<Waiter>, todo: seq<Waiter>,
                         toClear: Bits, released: seq<Waiter>) {
    && Partitioned(g.waiting, bits, woken, kept, todo)
    && toClear == ClearMask(woken) && released == g.released + Notify(woken, bits)
  }

  lemma WalkStart(g: Group, bits: Bits)
    ensures Walked(g, bits, [], [], g.waiting, 0, g.released)
  {
  }

  lemma WalkOne(g: Group, bits: Bits, woken: seq<Waiter>, kept: seq<Waiter>, todo: seq<Waiter>,
                toClear: Bits, released: seq<Waiter>)
    requires Walked(g, bits, woken, kept, todo, toClear, released) && todo != []
    ensures var w := todo[0];
            if Satisfied(w, bits) then
              Walked(g, bits, woken + [w], kept, todo[1..], Union(toClear, Clearing(w)),
                     released + [Waiter(w.task, Mark(bits))])
            else Walked(g, bits, woken, kept + [w], todo[1..], toClear, released)
  {
    var w := todo[0];
    PartitionOne(g.waiting, bits, woken, kept, todo);
    ClearMaskAppend(woken, w);
    NotifyAppend(woken, w, bits);
    hide Satisfied; hide ClearMask; hide Clearing; hide Union; hide Notify; hide Mark; hide Partitioned;
  }

  lemma StandsBetween(waiting: seq<Waiter>, kept: seq<Waiter>, todo: seq<Waiter>)
    requires waiting == kept + todo && todo != []
    ensures var i := |kept|;
            && waiting[i] == todo[0] && waiting[..i] + waiting[i + 1..] == kept + todo[1..]
            && waiting == kept + [todo[0]] + todo[1..]
  {
  }

  lemma WalkDone(g: Group, add: Bits, woken: seq<Waiter>, kept: seq<Waiter>, toClear: Bits, released: seq<Waiter>)
    requires Walked(g, Union(g.bits, add), woken, kept, [], toClear, released)
    ensures EventGroupSpec.SetBits(g, add) == Group(Drop(Union(g.bits, add), toClear), kept, released)
  {
    assert woken + [] == woken && kept + [] == kept;
    hide Satisfied; hide ClearMask; hide Union; hide Notify; hide Drop;
  }

  class EventGroup {
    var bits: Bits                  // uxEventBits
    var waiting: seq<Waiter>        // xTasksWaitingForBits
    var released: seq<Waiter>       // history: what woken tasks find in their list items

    ghost function State(): Group
      reads this
    {
      Group(bits, waiting, released)
    }

    constructor ()
      ensures State() == Group(0, [], [])
    {
      bits, waiting, released := 0, [], [];
    }

    /** One turn of the walk: the item at i goes, and the next one moves up, or i moves on. */
    method Visit(i: nat, toClear: Bits) returns (next: nat, toClear': Bits)
      requires i < |waiting|
      modifies this`waiting, this`released
      ensures var w := old(waiting)[i];
              if Satisfied(w, bits) then
                && next == i && toClear' == Union(toClear, Clearing(w))
                && waiting == old(waiting)[..i] + old(waiting)[i + 1..]
                && released == old(released) + [Waiter(w.task, Mark(bits))]
              else
                && next == i + 1 && toClear' == toClear
                && waiting == old(waiting) && released == old(released)
    {
      hide *;
      var w := waiting[i];
      var matches, clearing := Examine(w, bits);
      next, toClear' := i + 1, toClear;
      if matches {
        toClear' := Union(toClear, clearing);
        released := released + [Waiter(w.task, Mark(bits))];
        waiting := waiting[..i] + waiting[i + 1..];
        next := i;
      }
    }

    /** Walks the waiting list, taking off whom the new bits satisfy, and clears only at
        the end. */
    method SetBits(add: Bits) returns (now: Bits)
      modifies this
      ensures State() == EventGroupSpec.SetBits(old(State()), add) && now == bits
    {
      hide Satisfied; hide Clearing; hide Union; hide Drop; hide Mark; hide Walked; hide EventGroupSpec.SetBits;
      ghost var g := State();
      WalkStart(g, Union(bits, add));
      var toClear: Bits := 0;
      bits := Union(bits, add);
      ghost var woken, kept, todo := [], [], waiting;
      var i := 0;
      while i < |waiting|
        invariant bits == Union(g.bits, add) && waiting == kept + todo && i == |kept|
        invariant Walked(g, bits, woken, kept, todo, toClear, released)
        decreases |todo|
      {
        ghost var w := todo[0];
        StandsBetween(waiting, kept, todo);
        WalkOne(g, bits, woken, kept, todo, toClear, released);
        if Satisfied(w, bits) {
          woken := woken + [w];
        } else {
          kept := kept + [w];
        }
        i, toClear := Visit(i, toClear);
        todo := todo[1..];
      }
      assert todo == [];
      WalkDone(g, add, woken, kept, toClear, released);
      bits := Drop(bits, toClear);
      return bits;
    }

    /** `xEventGroupClearBits`: returns the bits as they were. */
    method ClearBits(clear: Bits) returns (before: Bits)
      modifies this`bits
      ensures State() == EventGroupSpec.ClearBits(old(State()), clear) && before == old(bits)
    {
      before := bits;
      bits := Drop(bits, clear);
    }

    method WaitBits(t: Task, wanted: Bits, clear: bool, all: bool, ticks: nat) returns (o: Outcome)
      modifies this
      ensures (State(), o) == EventGroupSpec.WaitBits(old(State()), t, wanted, clear, all, ticks)
    {
      var current := bits;
      if Met(current, wanted, all) {
        if clear {
          bits := Drop(bits, wanted);
        }
        return Returned(current);
      } else if ticks == 0 {
        return Returned(current);
      } else {
        waiting := waiting + [Waiter(t, Encoded(wanted, clear, all))];
        return Blocked;
      }
    }

    method Sync(t: Task, add: Bits, wanted: Bits, ticks: nat) returns (o: Outcome)
      modifies this
      ensures (State(), o) == EventGroupSpec.Sync(old(State()), t, add, wanted, ticks)
    {
      hide And; hide Union; hide Drop; hide EventGroupSpec.SetBits;
      var original := bits;
      var _ := SetBits(add);
      if And(Union(original, add), wanted) == wanted {
        bits := Drop(bits, wanted);
        return Returned(Union(original, add));
      } else if ticks != 0 {
        waiting := waiting + [Waiter(t, Encoded(wanted, true, true))];
        return Blocked;
      } else {
        return Returned(bits);
      }
    }

    /** The tails of the two waiting functions; `clear` and `all` hold for a rendezvous. */
    method Resume(value: Bits, wanted: Bits, clear: bool, all: bool) returns (result: Bits)
      modifies this`bits
      ensures (State(), result) == EventGroupSpec.Resume(old(State()), value, wanted, clear, all)
    {
      result := value;
      if And(value, UNBLOCKED) == 0 {
        result := bits;
        if Met(result, wanted, all) {
          if clear {
            bits := Drop(bits, wanted);
          }
        }
      }
      result := Drop(result, CONTROL);
    }

    method Delete()
      modifies this
      ensures State() == EventGroupSpec.Delete(old(State()))
    {
      hide Mark;
      ghost var gone := [];
      assert released == released + Notify(gone, 0);
      hide Notify;
      while waiting != []
        invariant gone + waiting == old(waiting)
        invariant released == old(released) + Notify(gone, 0) && bits == old(bits)
        decreases |waiting|
      {
        released := released + [Waiter(waiting[0].task, Mark(0))];
        NotifyAppend(gone, waiting[0], 0);
        gone := gone + [waiting[0]];
        waiting := waiting[1..];
      }
      assert gone == old(waiting);
    }
  }
}
