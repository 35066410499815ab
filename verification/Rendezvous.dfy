/** `xEventGroupSync` as a meeting point: tasks that each set their bit and wait for all
    of a mask are released together by the last to arrive. */
module Rendezvous {
  import opened EventGroupSpec
  import opened EventGroupProperties

  datatype Arrival = Arrival(task: Task, add: Bits)

  /** The item value of a task that has arrived and waits for the others. */
  function Waiting(mask: Bits): Bits {
    Encoded(mask, true, true)
  }

  /** The bits that have been brought. */
  function Brought(arrivals: seq<Arrival>): Bits {
    if arrivals == [] then 0 else Union(Brought(arrivals[..|arrivals| - 1]), arrivals[|arrivals| - 1].add)
  }

  predicate Complete(bits: Bits, mask: Bits) {
    And(bits, mask) == mask
  }

  /** Some other user of the group, who clears none of the meeting's bits. */
  predicate Aside(w: Waiter, mask: Bits) {
    And(Clearing(w), mask) == 0
  }

  /** All of `here` are on the list, whoever else is there keeps aside, and of the mask
      exactly the bits brought are set. */
  ghost predicate Assembled(g: Group, here: seq<Arrival>, mask: Bits) {
    && (forall w :: w in g.waiting ==> w.value == Waiting(mask) || Aside(w, mask))
    && (forall a :: a in here ==> Waiter(a.task, Waiting(mask)) in g.waiting)
    && And(g.bits, mask) == And(Brought(here), mask)
  }

  // ------------------------------------------------------------------- bit algebra

  lemma SameUnderMask(a: Bits, b: Bits, add: Bits, mask: Bits)
    requires And(a, mask) == And(b, mask)
    ensures And(Union(a, add), mask) == And(Union(b, add), mask)
  {
    Distribute(a, add, mask);
    Distribute(b, add, mask);
    hide And; hide Union;
  }

  lemma Distribute(a: Bits, b: Bits, mask: Bits)
    ensures And(Union(a, b), mask) == Union(And(a, mask), And(b, mask))
  {
  }

  lemma DropAside(bits: Bits, gone: Bits, mask: Bits)
    requires And(gone, mask) == 0
    ensures And(Drop(bits, gone), mask) == And(bits, mask)
  {
  }

  lemma DropAll(bits: Bits, mask: Bits)
    ensures And(Drop(bits, mask), mask) == 0
  {
  }

  lemma UnionAside(a: Bits, b: Bits, mask: Bits)
    requires And(a, mask) == 0 && And(b, mask) == 0
    ensures And(Union(a, b), mask) == 0
  {
  }

  lemma NothingAside(mask: Bits)
    ensures And(0, mask) == 0
  {
  }

  lemma MarkKeeps(bits: Bits, mask: Bits)
    requires And(bits, mask) == mask
    ensures And(Mark(bits), mask) == mask
  {
  }

  lemma MarkIsSeen(bits: Bits)
    ensures And(Mark(bits), UNBLOCKED) != 0
  {
  }

  lemma ControlApart(value: Bits, mask: Bits)
    requires And(value, mask) == mask && And(mask, CONTROL) == 0
    ensures And(Drop(value, CONTROL), mask) == mask
  {
  }

  lemma {:induction false} ClearMaskAside(woken: seq<Waiter>, mask: Bits)
    requires forall w :: w in woken ==> Aside(w, mask)
    ensures And(ClearMask(woken), mask) == 0
  {
    hide And; hide Union; hide Clearing;
    if woken == [] {
      NothingAside(mask);
    } else {
      assert Aside(woken[0], mask);
      ClearMaskAside(woken[1..], mask);
      UnionAside(Clearing(woken[0]), ClearMask(woken[1..]), mask);
    }
  }

  // ------------------------------------------------------------------------ arrivals

  lemma WaitingSatisfied(t: Task, mask: Bits, bits: Bits)
    requires And(mask, CONTROL) == 0
    ensures Satisfied(Waiter(t, Waiting(mask)), bits) <==> Complete(bits, mask)
  {
    EncodedReads(mask, true, true);
    hide And; hide Encoded; hide Wanted; hide ForAll;
  }

  /** Setting bits that do not complete the meeting leaves everyone of it on the list. */
  lemma SetKeepsAssembly(g: Group, here: seq<Arrival>, add: Bits, mask: Bits)
    requires Assembled(g, here, mask) && And(mask, CONTROL) == 0
    requires !Complete(Union(g.bits, add), mask)
    ensures var r := SetBits(g, add);
            && (forall w :: w in r.waiting ==> w in g.waiting)
            && (forall a :: a in here ==> Waiter(a.task, Waiting(mask)) in r.waiting)
            && And(r.bits, mask) == And(Union(g.bits, add), mask)
  {
    hide And; hide Union; hide Drop; hide Satisfied; hide Complete; hide Encoded; hide Clearing;
    var bits := Union(g.bits, add);
    var woken := Satisfying(g.waiting, bits);
    WakesExactlyTheSatisfied(g.waiting, bits);
    forall w | w in woken ensures Aside(w, mask) {
      WaitingSatisfied(w.task, mask, bits);
      assert w == Waiter(w.task, w.value);
    }
    ClearMaskAside(woken, mask);
    DropAside(bits, ClearMask(woken), mask);
    forall a | a in here ensures Waiter(a.task, Waiting(mask)) in Unsatisfied(g.waiting, bits) {
      WaitingSatisfied(a.task, mask, bits);
    }
  }

  lemma BroughtAppend(here: seq<Arrival>, a: Arrival)
    ensures Brought(here + [a]) == Union(Brought(here), a.add)
  {
    assert (here + [a])[..|here|] == here;
  }

  /** One that is not the last blocks, and joins the others. */
  lemma ArriveAndWait(g: Group, here: seq<Arrival>, a: Arrival, mask: Bits, ticks: nat)
    requires Assembled(g, here, mask) && And(mask, CONTROL) == 0 && ticks > 0
    requires !Complete(Brought(here + [a]), mask)
    ensures var (r, o) := Sync(g, a.task, a.add, mask, ticks);
            o == Blocked && Assembled(r, here + [a], mask)
  {
    hide And; hide Union; hide SetBits; hide Encoded; hide Clearing; hide Brought; hide Drop;
    BroughtAppend(here, a);
    SameUnderMask(g.bits, Brought(here), a.add, mask);
    SetKeepsAssembly(g, here, a.add, mask);
  }

  /** The last to arrive takes the whole mask home, releases everybody with the whole mask
      in hand, and leaves the mask cleared for the next round. */
  lemma LastArrives(g: Group, here: seq<Arrival>, a: Arrival, mask: Bits, ticks: nat)
    requires Assembled(g, here, mask) && And(mask, CONTROL) == 0
    requires Complete(Brought(here + [a]), mask)
    ensures var (r, o) := Sync(g, a.task, a.add, mask, ticks);
            && o.Returned? && Complete(o.value, mask)
            && And(r.bits, mask) == 0
            && (forall w :: w in r.waiting ==> w.value != Waiting(mask) && Aside(w, mask))
            && (forall b :: b in here ==> Released(g, r, b.task, mask))
  {
    hide And; hide Union; hide Satisfied; hide Encoded; hide Clearing; hide Brought; hide Drop;
    BroughtAppend(here, a);
    SameUnderMask(g.bits, Brought(here), a.add, mask);
    var bits := Union(g.bits, a.add);
    DropAll(SetBits(g, a.add).bits, mask);
    SettingReleases(g, here, bits, mask);
    var r := Sync(g, a.task, a.add, mask, ticks).0;
    assert r.waiting == Unsatisfied(g.waiting, bits);
    assert r.released == g.released + Notify(Satisfying(g.waiting, bits), bits);
    hide Released; hide SetBits; hide Satisfying; hide Unsatisfied; hide Notify;
    forall b | b in here ensures Released(g, r, b.task, mask) {
      SameReleased(g, Group(0, [], r.released), r, b.task, mask);
    }
  }

  lemma SameReleased(g: Group, r: Group, r': Group, t: Task, mask: Bits)
    requires r.released == r'.released && Released(g, r, t, mask)
    ensures Released(g, r', t, mask)
  {
    hide ReleasedBy;
  }

  /** Bits that hold the whole mask satisfy everyone of the meeting. */
  lemma SettingReleases(g: Group, here: seq<Arrival>, bits: Bits, mask: Bits)
    requires Assembled(g, here, mask) && And(mask, CONTROL) == 0 && Complete(bits, mask)
    ensures forall w :: w in Unsatisfied(g.waiting, bits) ==> w.value != Waiting(mask) && Aside(w, mask)
    ensures var released := g.released + Notify(Satisfying(g.waiting, bits), bits);
            forall b :: b in here ==> Released(g, Group(0, [], released), b.task, mask)
  {
    hide And; hide Satisfied; hide Waiting; hide Brought; hide Complete; hide Released; hide Aside; hide Notify;
    WakesExactlyTheSatisfied(g.waiting, bits);
    forall w | w in Unsatisfied(g.waiting, bits) ensures w.value != Waiting(mask) && Aside(w, mask) {
      WaitingSatisfied(w.task, mask, bits);
      assert w == Waiter(w.task, w.value);
    }
    forall b | b in here
      ensures Released(g, Group(0, [], g.released + Notify(Satisfying(g.waiting, bits), bits)), b.task, mask)
    {
      WaitingSatisfied(b.task, mask, bits);
      WokenIsReleased(g, Satisfying(g.waiting, bits), bits, b.task, mask);
    }
  }

  lemma WokenIsReleased(g: Group, woken: seq<Waiter>, bits: Bits, t: Task, mask: Bits)
    requires Waiter(t, Waiting(mask)) in woken && And(mask, CONTROL) == 0 && Complete(bits, mask)
    ensures Released(g, Group(0, [], g.released + Notify(woken, bits)), t, mask)
  {
    ReleasedWith(bits, mask);
    hide And; hide ReleasedBy; hide Mark; hide Complete; hide Waiting;
    var i :| 0 <= i < |woken| && woken[i] == Waiter(t, Waiting(mask));
    assert Notify(woken, bits)[i] == Waiter(t, Mark(bits));
    InSecond(g.released, Notify(woken, bits), i);
    hide Notify;
  }

  lemma InSecond(u: seq<Waiter>, v: seq<Waiter>, i: nat)
    requires i < |v|
    ensures (u + v)[|u| + i] == v[i]
  {
  }

  /** Between g and r the task was taken off the list; whenever it goes on, it returns the
      whole mask and leaves the group as it then is. */
  ghost predicate Released(g: Group, r: Group, t: Task, mask: Bits) {
    exists i :: |g.released| <= i < |r.released| && ReleasedBy(r.released[i], t, mask)
  }

  ghost predicate ReleasedBy(item: Waiter, t: Task, mask: Bits) {
    item.task == t &&
      forall later: Group ::
        var (after, result) := Resume(later, item.value, mask, true, true);
        after == later && Complete(result, mask)
  }

  lemma ReleasedWith(bits: Bits, mask: Bits)
    requires Complete(bits, mask) && And(mask, CONTROL) == 0
    ensures forall t :: ReleasedBy(Waiter(t, Mark(bits)), t, mask)
  {
    MarkKeeps(bits, mask);
    MarkIsSeen(bits);
    ControlApart(Mark(bits), mask);
    hide And; hide Drop; hide Mark;
  }

  // ------------------------------------------------------------- others who use the group

  /** A step of somebody else, who neither sets nor clears bits of the mask: setting and
      clearing others, waiting or meeting for whatever bits without clearing any of the mask,
      timing out, and going on after a wait.  Those who have arrived do not time out. */
  ghost predicate StepsAside(g: Group, a: Action, mask: Bits) {
    && Legal(a)
    && match a
       case Set(add) => And(add, mask) == 0
       case Clear(clear) => And(clear, mask) == 0
       case Wait(_, wanted, clears, _, _) => clears ==> And(wanted, mask) == 0
       case Meet(_, add, wanted, _) => And(add, mask) == 0 && And(wanted, mask) == 0
       case Finish(_, wanted, clears, _) => clears ==> And(wanted, mask) == 0
       case TimeUp(i) => i < |g.waiting| ==> g.waiting[i].value != Waiting(mask)
       case Remove => false
  }

  lemma UnionNothing(a: Bits, add: Bits, mask: Bits)
    requires And(add, mask) == 0
    ensures And(Union(a, add), mask) == And(a, mask)
  {
  }

  lemma SameBitsSame(a: Bits, b: Bits, mask: Bits)
    requires And(a, mask) == And(b, mask)
    ensures Complete(a, mask) <==> Complete(b, mask)
  {
    hide And;
  }

  /** Bits outside the mask, set or cleared, leave the meeting as it is. */
  lemma SettingAside(g: Group, here: seq<Arrival>, add: Bits, mask: Bits)
    requires Assembled(g, here, mask) && And(mask, CONTROL) == 0 && !Complete(Brought(here), mask)
    requires And(add, mask) == 0
    ensures Assembled(SetBits(g, add), here, mask)
  {
    UnionNothing(g.bits, add, mask);
    SameBitsSame(g.bits, Brought(here), mask);
    SameBitsSame(Union(g.bits, add), g.bits, mask);
    hide And; hide Union; hide Complete; hide Brought;
    SetKeepsAssembly(g, here, add, mask);
    hide SetBits; hide Encoded; hide Clearing;
  }

  lemma ClearingAside(g: Group, here: seq<Arrival>, gone: Bits, mask: Bits)
    requires Assembled(g, here, mask) && And(gone, mask) == 0
    ensures Assembled(ClearBits(g, gone), here, mask)
  {
    DropAside(g.bits, gone, mask);
    hide And; hide Drop; hide Encoded; hide Clearing; hide Brought;
  }

  lemma WaitingAside(g: Group, here: seq<Arrival>, t: Task, wanted: Bits, clear: bool, all: bool, mask: Bits)
    requires Assembled(g, here, mask) && And(wanted, CONTROL) == 0 && (clear ==> And(wanted, mask) == 0)
    ensures Assembled(g.(waiting := g.waiting + [Waiter(t, Encoded(wanted, clear, all))]), here, mask)
  {
    EncodedReads(wanted, clear, all);
    NothingAside(mask);
    var w := Waiter(t, Encoded(wanted, clear, all));
    assert Aside(w, mask);
    hide And; hide Encoded; hide Clearing; hide Brought; hide Aside;
  }

  lemma LeavingAside(g: Group, here: seq<Arrival>, i: nat, mask: Bits)
    requires Assembled(g, here, mask) && i < |g.waiting| && g.waiting[i].value != Waiting(mask)
    ensures Assembled(Expire(g, i), here, mask)
  {
    hide And; hide Encoded; hide Clearing; hide Brought; hide Aside;
    forall a | a in here ensures Waiter(a.task, Waiting(mask)) in Expire(g, i).waiting {
      var k :| 0 <= k < |g.waiting| && g.waiting[k] == Waiter(a.task, Waiting(mask));
      assert Expire(g, i).waiting[if k < i then k else k - 1] == g.waiting[k];
    }
  }

  lemma StepAsideKeeps(g: Group, here: seq<Arrival>, a: Action, mask: Bits)
    requires Assembled(g, here, mask) && And(mask, CONTROL) == 0 && !Complete(Brought(here), mask)
    requires StepsAside(g, a, mask)
    ensures Assembled(Step(g, a), here, mask)
  {
    hide And; hide Union; hide Drop; hide SetBits; hide ClearBits; hide Encoded; hide Met; hide Brought; hide Complete;
    match a
    case Set(add) => SettingAside(g, here, add, mask);
    case Clear(clear) => ClearingAside(g, here, clear, mask);
    case Wait(t, wanted, clears, all, ticks) =>
      WaitingAside(g, here, t, wanted, clears, all, mask);
      if clears {
        ClearingAside(g, here, wanted, mask);
      }
      hide Assembled;
    case Meet(t, add, wanted, ticks) =>
      SettingAside(g, here, add, mask);
      ClearingAside(SetBits(g, add), here, wanted, mask);
      WaitingAside(SetBits(g, add), here, t, wanted, true, true, mask);
      hide Assembled;
    case Finish(value, wanted, clears, all) =>
      if clears {
        ClearingAside(g, here, wanted, mask);
      }
      hide Assembled;
    case TimeUp(i) =>
      if i < |g.waiting| {
        LeavingAside(g, here, i, mask);
      }
      hide Assembled;
    case Remove =>
  }

  // ---------------------------------------------------------------- the whole meeting

  /** What happens at the group before the last arrival. */
  datatype Deed = Arrives(arrival: Arrival) | Other(action: Action)

  function After(g: Group, deeds: seq<Deed>, mask: Bits, ticks: nat): Group {
    if deeds == [] then g
    else
      var before := After(g, deeds[..|deeds| - 1], mask, ticks);
      match deeds[|deeds| - 1]
      case Arrives(a) => Sync(before, a.task, a.add, mask, ticks).0
      case Other(action) => Step(before, action)
  }

  function Arrivals(deeds: seq<Deed>): seq<Arrival> {
    if deeds == [] then []
    else
      match deeds[|deeds| - 1]
      case Arrives(a) => Arrivals(deeds[..|deeds| - 1]) + [a]
      case Other(_) => Arrivals(deeds[..|deeds| - 1])
  }

  ghost predicate OthersStepAside(g: Group, deeds: seq<Deed>, mask: Bits, ticks: nat) {
    deeds == [] ||
      (var before := deeds[..|deeds| - 1];
       && OthersStepAside(g, before, mask, ticks)
       && (deeds[|deeds| - 1].Other? ==> StepsAside(After(g, before, mask, ticks), deeds[|deeds| - 1].action, mask)))
  }

  lemma BroughtGrows(here: seq<Arrival>, a: Arrival, mask: Bits)
    requires Complete(Brought(here), mask)
    ensures Complete(Brought(here + [a]), mask)
  {
    BroughtAppend(here, a);
    CompleteGrows(Brought(here), a.add, mask);
    hide Complete; hide Union; hide Brought;
  }

  lemma CompleteGrows(bits: Bits, add: Bits, mask: Bits)
    requires Complete(bits, mask)
    ensures Complete(Union(bits, add), mask)
  {
  }

  /** As long as the bits brought do not complete the mask, all who have arrived are on the
      list, whatever the others do in between. */
  lemma {:induction false} AllButLastWait(g: Group, deeds: seq<Deed>, mask: Bits, ticks: nat)
    requires And(mask, CONTROL) == 0 && ticks > 0
    requires Assembled(g, [], mask) && OthersStepAside(g, deeds, mask, ticks)
    requires !Complete(Brought(Arrivals(deeds)), mask)
    ensures Assembled(After(g, deeds, mask, ticks), Arrivals(deeds), mask)
  {
    if deeds != [] {
      var before := deeds[..|deeds| - 1];
      var here, met := Arrivals(before), After(g, before, mask, ticks);
      hide Sync; hide Assembled; hide Brought; hide Complete; hide Step; hide StepsAside; hide And;
      match deeds[|deeds| - 1]
      case Arrives(a) =>
        if Complete(Brought(here), mask) {
          BroughtGrows(here, a, mask);
        }
        AllButLastWait(g, before, mask, ticks);
        ArriveAndWait(met, here, a, mask, ticks);
      case Other(action) =>
        AllButLastWait(g, before, mask, ticks);
        StepAsideKeeps(met, here, action, mask);
    }
  }

  /** N tasks meet, among others who use the group in between: none is let go before the bits
      brought complete the mask, and the task that completes it releases all the others, with
      the whole mask in hand.  It leaves the group as it was found: no bit of the mask set and
      nobody of the meeting on the list, so that the next round can begin. */
  lemma EveryoneIsReleased(g: Group, deeds: seq<Deed>, last: Arrival, mask: Bits, ticks: nat)
    requires And(mask, CONTROL) == 0 && ticks > 0
    requires And(g.bits, mask) == 0 && forall w :: w in g.waiting ==> Aside(w, mask)
    requires OthersStepAside(g, deeds, mask, ticks)
    requires !Complete(Brought(Arrivals(deeds)), mask) && Complete(Brought(Arrivals(deeds) + [last]), mask)
    ensures var met := After(g, deeds, mask, ticks);
            var (r, o) := Sync(met, last.task, last.add, mask, ticks);
            && (forall a :: a in Arrivals(deeds) ==> Waiter(a.task, Waiting(mask)) in met.waiting)
            && o.Returned? && Complete(o.value, mask)
            && (forall a :: a in Arrivals(deeds) ==> Released(met, r, a.task, mask))
            && And(r.bits, mask) == 0 && (forall w :: w in r.waiting ==> Aside(w, mask))
  {
    NothingAside(mask);
    assert Brought([]) == 0;
    hide And; hide Sync; hide Released; hide Aside; hide Complete; hide Brought; hide OthersStepAside;
    AllButLastWait(g, deeds, mask, ticks);
    LastArrives(After(g, deeds, mask, ticks), Arrivals(deeds), last, mask, ticks);
  }
}
