/** What event groups promise: no waiting task is overlooked, setting bits wakes exactly
    the tasks it satisfies, and a rendezvous releases everybody at once. */
module EventGroupProperties {
  import opened EventGroupSpec

  // ------------------------------------------------------------------- bit algebra

  lemma DropThenAll(bits: Bits, gone: Bits, wanted: Bits)
    requires And(Drop(bits, gone), wanted) == wanted
    ensures And(bits, wanted) == wanted
  {
  }

  lemma DropThenNone(bits: Bits, gone: Bits, wanted: Bits)
    requires And(bits, wanted) == 0
    ensures And(Drop(bits, gone), wanted) == 0
  {
  }

  /** Clearing bits satisfies nobody. */
  lemma DropKeepsUnmet(bits: Bits, gone: Bits, wanted: Bits, all: bool)
    requires !Met(bits, wanted, all)
    ensures !Met(Drop(bits, gone), wanted, all)
  {
    hide And; hide Drop;
    if all {
      if Met(Drop(bits, gone), wanted, all) {
        DropThenAll(bits, gone, wanted);
      }
    } else {
      DropThenNone(bits, gone, wanted);
    }
  }

  lemma UnionBelow(a: Bits, b: Bits, c: Bits)
    requires Within(Union(a, b), c)
    ensures Within(a, c) && Within(b, c)
  {
  }

  lemma UnionLeast(a: Bits, b: Bits, c: Bits)
    requires Within(a, c) && Within(b, c)
    ensures Within(Union(a, b), c)
  {
  }

  lemma WithinEachOther(a: Bits, b: Bits)
    requires Within(a, b) && Within(b, a)
    ensures a == b
  {
  }

  lemma WithinItself(a: Bits)
    ensures Within(a, a) && Within(0, a)
  {
  }

  lemma UnionBound(a: Bits, b: Bits, c: Bits)
    ensures Within(Union(a, b), c) <==> Within(a, c) && Within(b, c)
  {
    hide Within; hide Union;
    if Within(Union(a, b), c) {
      UnionBelow(a, b, c);
    }
    if Within(a, c) && Within(b, c) {
      UnionLeast(a, b, c);
    }
  }

  // -------------------------------------------------------- whom setting bits wakes

  /** Everyone on the list is either woken or kept, once; woken exactly if satisfied. */
  lemma {:induction false} WakesExactlyTheSatisfied(ws: seq<Waiter>, bits: Bits)
    ensures multiset(ws) == multiset(Satisfying(ws, bits)) + multiset(Unsatisfied(ws, bits))
    ensures forall w :: w in Satisfying(ws, bits) <==> w in ws && Satisfied(w, bits)
    ensures forall w :: w in Unsatisfied(ws, bits) <==> w in ws && !Satisfied(w, bits)
  {
    hide Satisfied;
    if ws != [] {
      WakesExactlyTheSatisfied(ws[1..], bits);
      assert ws == [ws[0]] + ws[1..];
    }
  }

  /** The mask cleared at the end is the least one holding all that the woken tasks want
      cleared. */
  lemma {:induction false} ClearMaskIsUnion(woken: seq<Waiter>, bound: Bits)
    ensures Within(ClearMask(woken), bound) <==> forall w :: w in woken ==> Within(Clearing(w), bound)
  {
    hide Within; hide Union; hide Clearing;
    WithinItself(bound);
    if woken != [] {
      ClearMaskIsUnion(woken[1..], bound);
      UnionBound(Clearing(woken[0]), ClearMask(woken[1..]), bound);
      assert woken == [woken[0]] + woken[1..];
    }
  }

  /** So the order of the list plays no part in it. */
  lemma ClearMaskOrderFree(a: seq<Waiter>, b: seq<Waiter>)
    requires forall w :: w in a <==> w in b
    ensures ClearMask(a) == ClearMask(b)
  {
    hide Within;
    var x, y := ClearMask(a), ClearMask(b);
    WithinItself(x);
    WithinItself(y);
    ClearMaskIsUnion(a, x);
    ClearMaskIsUnion(b, x);
    ClearMaskIsUnion(a, y);
    ClearMaskIsUnion(b, y);
    WithinEachOther(x, y);
  }

  // ------------------------------------------------------------ nobody is overlooked

  ghost predicate NobodyOverlooked(g: Group) {
    forall w :: w in g.waiting ==> !Satisfied(w, g.bits)
  }

  /** One step each of a task, or of the tick interrupt. */
  datatype Action =
    | Set(add: Bits)
    | Clear(clear: Bits)
    | Wait(task: Task, wanted: Bits, clears: bool, all: bool, ticks: nat)
    | Meet(task: Task, add: Bits, wanted: Bits, ticks: nat)
    | Finish(value: Bits, wanted: Bits, clears: bool, all: bool)
    | TimeUp(i: nat)
    | Remove

  /** The assertions at the head of each function. */
  ghost predicate Legal(a: Action) {
    match a
    case Set(add) => And(add, CONTROL) == 0
    case Clear(clear) => And(clear, CONTROL) == 0
    case Wait(_, wanted, _, _, _) => And(wanted, CONTROL) == 0 && wanted != 0
    case Meet(_, add, wanted, _) => And(add, CONTROL) == 0 && And(wanted, CONTROL) == 0 && wanted != 0
    case Finish(_, wanted, _, _) => And(wanted, CONTROL) == 0 && wanted != 0
    case TimeUp(_) => true
    case Remove => true
  }

  function Step(g: Group, a: Action): Group {
    match a
    case Set(add) => SetBits(g, add)
    case Clear(clear) => ClearBits(g, clear)
    case Wait(t, wanted, clears, all, ticks) => WaitBits(g, t, wanted, clears, all, ticks).0
    case Meet(t, add, wanted, ticks) => Sync(g, t, add, wanted, ticks).0
    case Finish(value, wanted, clears, all) => Resume(g, value, wanted, clears, all).0
    case TimeUp(i) => if i < |g.waiting| then Expire(g, i) else g
    case Remove => Delete(g)
  }

  function Run(g: Group, actions: seq<Action>): Group
    decreases |actions|
  {
    if actions == [] then g else Run(Step(g, actions[0]), actions[1..])
  }

  lemma DropOverlooksNobody(g: Group, gone: Bits)
    requires NobodyOverlooked(g)
    ensures NobodyOverlooked(g.(bits := Drop(g.bits, gone)))
  {
    hide Met; hide Drop;
    forall w | w in g.waiting ensures !Satisfied(w, Drop(g.bits, gone)) {
      DropKeepsUnmet(g.bits, gone, Wanted(w.value), ForAll(w.value));
    }
  }

  lemma SetOverlooksNobody(g: Group, add: Bits)
    ensures NobodyOverlooked(SetBits(g, add))
  {
    var bits := Union(g.bits, add);
    WakesExactlyTheSatisfied(g.waiting, bits);
    hide Drop; hide Satisfied; hide Union;
    DropOverlooksNobody(Group(bits, Unsatisfied(g.waiting, bits), []), ClearMask(Satisfying(g.waiting, bits)));
    NobodyDependsOnBits(SetBits(g, add));
  }

  lemma NobodyDependsOnBits(g: Group)
    ensures NobodyOverlooked(g) <==> NobodyOverlooked(Group(g.bits, g.waiting, []))
  {
    hide Satisfied;
  }

  /** A task joins the list only for bits that are not there. */
  lemma JoiningOverlooksNobody(g: Group, t: Task, wanted: Bits, clear: bool, all: bool)
    requires NobodyOverlooked(g) && And(wanted, CONTROL) == 0 && !Met(g.bits, wanted, all)
    ensures NobodyOverlooked(g.(waiting := g.waiting + [Waiter(t, Encoded(wanted, clear, all))]))
  {
    EncodedReads(wanted, clear, all);
    hide Met; hide Encoded; hide Wanted; hide ForAll; hide And;
  }

  lemma StepOverlooksNobody(g: Group, a: Action)
    requires NobodyOverlooked(g) && Legal(a)
    ensures NobodyOverlooked(Step(g, a))
  {
    hide Met; hide And; hide Drop; hide Union; hide SetBits; hide NobodyOverlooked; hide Encoded;
    match a
    case Set(add) => SetOverlooksNobody(g, add);
    case Clear(clear) => DropOverlooksNobody(g, clear);
    case Wait(t, wanted, clears, all, ticks) =>
      DropOverlooksNobody(g, wanted);
      if !Met(g.bits, wanted, all) {
        JoiningOverlooksNobody(g, t, wanted, clears, all);
      }
    case Meet(t, add, wanted, ticks) =>
      SetOverlooksNobody(g, add);
      var g1 := SetBits(g, add);
      DropOverlooksNobody(g1, wanted);
      if !Met(Union(g.bits, add), wanted, true) {
        SetBitsOnly(g, add);
        DropKeepsUnmet(Union(g.bits, add), ClearMask(Satisfying(g.waiting, Union(g.bits, add))), wanted, true);
        JoiningOverlooksNobody(g1, t, wanted, true, true);
      }
    case Finish(value, wanted, clears, all) => DropOverlooksNobody(g, wanted);
    case TimeUp(i) => LeavingOverlooksNobody(g, i);
    case Remove => LeavingOverlooksNobody(g, 0);
  }

  lemma SetBitsOnly(g: Group, add: Bits)
    ensures var bits := Union(g.bits, add);
            SetBits(g, add).bits == Drop(bits, ClearMask(Satisfying(g.waiting, bits)))
  {
  }

  lemma LeavingOverlooksNobody(g: Group, i: nat)
    requires NobodyOverlooked(g)
    ensures i < |g.waiting| ==> NobodyOverlooked(Expire(g, i))
    ensures NobodyOverlooked(Delete(g))
  {
    hide Satisfied;
  }

  /** In no run is a task left waiting for bits that are there. */
  lemma {:induction false} RunOverlooksNobody(g: Group, actions: seq<Action>)
    requires NobodyOverlooked(g) && forall a :: a in actions ==> Legal(a)
    ensures NobodyOverlooked(Run(g, actions))
    decreases |actions|
  {
    if actions != [] {
      hide NobodyOverlooked; hide Step; hide Legal;
      StepOverlooksNobody(g, actions[0]);
      RunOverlooksNobody(Step(g, actions[0]), actions[1..]);
    }
  }
}
