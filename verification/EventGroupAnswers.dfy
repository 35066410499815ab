/** What the calls on an event group return and leave behind, bit by bit: what a woken task is
    told, which bits are set afterwards, and when a call waits. */
module EventGroupAnswers {
  import opened Sequences
  import opened EventGroupSpec
  import opened EventGroupProperties

  // ------------------------------------------------------------------- sets of bits

  lemma AndIsWithin(a: Bits, b: Bits)
    ensures Within(And(a, b), a) && Within(And(a, b), b)
  {
  }

  lemma WithinBoth(x: Bits, a: Bits, b: Bits)
    requires Within(x, a) && Within(x, b) && x != 0
    ensures And(a, b) != 0
  {
  }

  lemma WithinOn(x: Bits, a: Bits, b: Bits)
    requires Within(x, a) && Within(a, b)
    ensures Within(x, b)
  {
  }

  lemma WithinTurned(a: Bits, b: Bits)
    ensures Within(a, b) <==> And(b, a) == a
  {
  }

  /** The two have a bit in common. */
  ghost predicate AnyOf(bits: Bits, wanted: Bits) {
    exists x :: Within(x, bits) && Within(x, wanted) && x != 0
  }

  /** Every part of what is wanted is there. */
  ghost predicate AllOf(bits: Bits, wanted: Bits) {
    forall x :: Within(x, wanted) ==> Within(x, bits)
  }

  lemma MetAny(bits: Bits, wanted: Bits)
    ensures Met(bits, wanted, false) <==> AnyOf(bits, wanted)
  {
    AndIsWithin(bits, wanted);
    hide And; hide Within;
    if AnyOf(bits, wanted) {
      var x :| Within(x, bits) && Within(x, wanted) && x != 0;
      WithinBoth(x, bits, wanted);
    }
  }

  lemma MetAll(bits: Bits, wanted: Bits)
    ensures Met(bits, wanted, true) <==> AllOf(bits, wanted)
  {
    WithinTurned(wanted, bits);
    WithinItself(wanted);
    hide And; hide Within;
    if Within(wanted, bits) {
      forall x | Within(x, wanted) ensures Within(x, bits) {
        WithinOn(x, wanted, bits);
      }
    }
  }

  /** A wait is over when one of the wanted bits is set, or, for all, when none is missing. */
  lemma MetAnswers(bits: Bits, wanted: Bits, all: bool)
    ensures Met(bits, wanted, all) <==> if all then AllOf(bits, wanted) else AnyOf(bits, wanted)
  {
    MetAny(bits, wanted);
    MetAll(bits, wanted);
    hide *;
  }

  // ------------------------------------------------------------ the bits left behind

  lemma ApartFromBoth(x: Bits, a: Bits, b: Bits)
    requires And(x, a) == 0 && And(x, b) == 0
    ensures And(x, Union(a, b)) == 0
  {
  }

  lemma ApartFromEach(x: Bits, a: Bits, b: Bits)
    requires And(x, Union(a, b)) == 0
    ensures And(x, a) == 0 && And(x, b) == 0
  {
  }

  lemma ApartFromNothing(x: Bits)
    ensures And(x, 0) == 0
  {
  }

  lemma {:induction false} ApartFromMask(x: Bits, woken: seq<Waiter>)
    ensures And(x, ClearMask(woken)) == 0 <==> forall w :: w in woken ==> And(x, Clearing(w)) == 0
  {
    hide And; hide Union; hide Clearing;
    ApartFromNothing(x);
    if woken != [] {
      var a, b := Clearing(woken[0]), ClearMask(woken[1..]);
      if And(x, Union(a, b)) == 0 {
        ApartFromEach(x, a, b);
      }
      if And(x, a) == 0 && And(x, b) == 0 {
        ApartFromBoth(x, a, b);
      }
      ApartFromMask(x, woken[1..]);
      HeadAndTail(woken);
    }
  }

  lemma DropLeaves(x: Bits, a: Bits, b: Bits)
    requires Within(x, a) && And(x, b) == 0
    ensures Within(x, Drop(a, b))
  {
  }

  lemma DropTakes(x: Bits, a: Bits, b: Bits)
    requires Within(x, Drop(a, b))
    ensures Within(x, a) && And(x, b) == 0
  {
  }

  lemma WithinDrop(x: Bits, a: Bits, b: Bits)
    ensures Within(x, Drop(a, b)) <==> Within(x, a) && And(x, b) == 0
  {
    hide Within; hide And; hide Drop;
    if Within(x, Drop(a, b)) {
      DropTakes(x, a, b);
    }
    if Within(x, a) && And(x, b) == 0 {
      DropLeaves(x, a, b);
    }
  }

  /** No task that these bits wake asked for any of x to be cleared. */
  ghost predicate TakenByNone(ws: seq<Waiter>, bits: Bits, x: Bits) {
    forall w :: w in ws && Satisfied(w, bits) ==> And(x, Clearing(w)) == 0
  }

  /** Bits are set afterwards exactly if they were set or are added, and no task woken by
      them clears one of them. */
  lemma SetBitsLeaves(g: Group, add: Bits, x: Bits)
    ensures var bits := Union(g.bits, add);
            Within(x, SetBits(g, add).bits) <==> Within(x, bits) && TakenByNone(g.waiting, bits, x)
  {
    var bits := Union(g.bits, add);
    var woken := Satisfying(g.waiting, bits);
    SetBitsOnly(g, add);
    WakesExactlyTheSatisfied(g.waiting, bits);
    ApartFromMask(x, woken);
    WithinDrop(x, bits, ClearMask(woken));
    hide SetBits; hide Within; hide And; hide Satisfied; hide Union; hide Drop; hide Clearing;
    hide Satisfying; hide Unsatisfied; hide ClearMask;
  }

  lemma ClearBitsLeaves(g: Group, clear: Bits, x: Bits)
    ensures var r := ClearBits(g, clear);
            (Within(x, r.bits) <==> Within(x, g.bits) && And(x, clear) == 0) && r == g.(bits := r.bits)
  {
    WithinDrop(x, g.bits, clear);
    hide Within; hide Drop; hide And;
  }

  // -------------------------------------------------------------- what tasks are told

  /** Whoever finds this value in its item returns these bits, whatever the group holds by
      then, and leaves it alone. */
  ghost predicate Tells(value: Bits, bits: Bits) {
    forall later: Group, wanted, clear, all :: Resume(later, value, wanted, clear, all) == (later, bits)
  }

  lemma MarkReads(bits: Bits)
    requires And(bits, CONTROL) == 0
    ensures And(Mark(bits), UNBLOCKED) != 0 && Drop(Mark(bits), CONTROL) == bits
  {
  }

  lemma MarkTells(bits: Bits)
    requires And(bits, CONTROL) == 0
    ensures Tells(Mark(bits), bits)
  {
    MarkReads(bits);
    hide And; hide Mark; hide Drop;
  }

  /** `items` are these tasks, each told the bits. */
  ghost predicate Told(items: seq<Waiter>, tasks: seq<Waiter>, bits: Bits) {
    && |items| == |tasks|
    && forall i :: 0 <= i < |items| ==> items[i].task == tasks[i].task && Tells(items[i].value, bits)
  }

  lemma NotifyTells(woken: seq<Waiter>, bits: Bits)
    requires And(bits, CONTROL) == 0
    ensures Told(Notify(woken, bits), woken, bits)
  {
    MarkTells(bits);
    hide And; hide Mark; hide Tells; hide Notify;
  }

  /** Every task that setting bits wakes, and no other, returns the bits as they were when
      it was woken, before any were cleared, however late it runs. */
  lemma WokenReturnTheBits(g: Group, add: Bits)
    requires And(Union(g.bits, add), CONTROL) == 0
    ensures var r, bits, n := SetBits(g, add), Union(g.bits, add), |g.released|;
            && n <= |r.released| && r.released[..n] == g.released
            && Told(r.released[n..], Satisfying(g.waiting, bits), bits)
            && r.waiting == Unsatisfied(g.waiting, bits)
  {
    var bits := Union(g.bits, add);
    var told := Notify(Satisfying(g.waiting, bits), bits);
    NotifyTells(Satisfying(g.waiting, bits), bits);
    SplitAt(g.released, told);
    hide And; hide Union; hide Drop; hide Told; hide Notify; hide Satisfying; hide Unsatisfied; hide ClearMask;
  }

  /** Deleting the group releases everyone, and each returns no bits. */
  lemma DeletedReturnNothing(g: Group)
    ensures var r, n := Delete(g), |g.released|;
            && r.waiting == [] && r.bits == g.bits
            && n <= |r.released| && r.released[..n] == g.released && Told(r.released[n..], g.waiting, 0)
  {
    NothingControls();
    NotifyTells(g.waiting, 0);
    SplitAt(g.released, Notify(g.waiting, 0));
    hide And; hide Told; hide Notify;
  }

  lemma NothingControls()
    ensures And(0, CONTROL) == 0
  {
  }

  lemma EncodedIsNoMark(wanted: Bits, clear: bool, all: bool)
    requires And(wanted, CONTROL) == 0
    ensures And(Encoded(wanted, clear, all), UNBLOCKED) == 0
  {
  }

  lemma CleanIsWhole(bits: Bits)
    requires And(bits, CONTROL) == 0
    ensures Drop(bits, CONTROL) == bits
  {
  }

  /** A task whose time is up finds its item as it left it, looks once more, and returns the
      bits that it sees then; only if they are what it wanted does it clear them. */
  lemma TimedOutLooksAgain(g: Group, wanted: Bits, clear: bool, all: bool)
    requires And(wanted, CONTROL) == 0 && And(g.bits, CONTROL) == 0
    ensures var (r, result) := Resume(g, Encoded(wanted, clear, all), wanted, clear, all);
            && result == g.bits
            && r == if clear && (if all then AllOf(g.bits, wanted) else AnyOf(g.bits, wanted)) then ClearBits(g, wanted)
                    else g
  {
    EncodedIsNoMark(wanted, clear, all);
    CleanIsWhole(g.bits);
    MetAnswers(g.bits, wanted, all);
    hide And; hide Drop; hide Encoded; hide Met; hide AllOf; hide AnyOf;
  }

  /** The task has joined the list with what it asked for. */
  ghost predicate Waits(before: Group, after: Group, t: Task, wanted: Bits, clear: bool, all: bool) {
    && after == before.(waiting := after.waiting)
    && |after.waiting| == |before.waiting| + 1 && after.waiting[..|before.waiting|] == before.waiting
    && var w := after.waiting[|before.waiting|];
       w.task == t && Wanted(w.value) == wanted && Clears(w.value) == clear && ForAll(w.value) == all
  }

  lemma JoinWaits(g: Group, t: Task, wanted: Bits, clear: bool, all: bool)
    requires And(wanted, CONTROL) == 0
    ensures Waits(g, g.(waiting := g.waiting + [Waiter(t, Encoded(wanted, clear, all))]), t, wanted, clear, all)
  {
    EncodedReads(wanted, clear, all);
    hide And; hide Encoded; hide Wanted; hide Clears; hide ForAll;
  }

  /** A wait for bits that are there returns them at once, and clears the wanted ones if
      asked to; a wait for others returns what there is, if it may not block, and joins the
      list if it may. */
  lemma WaitBitsAnswers(g: Group, t: Task, wanted: Bits, clear: bool, all: bool, ticks: nat)
    requires And(wanted, CONTROL) == 0
    ensures var (r, o) := WaitBits(g, t, wanted, clear, all, ticks);
            var there := if all then AllOf(g.bits, wanted) else AnyOf(g.bits, wanted);
            && (there || ticks == 0 ==> o == Returned(g.bits))
            && (there && clear ==> r == ClearBits(g, wanted))
            && (there && !clear ==> r == g)
            && (!there && ticks == 0 ==> r == g)
            && (!there && ticks > 0 ==> o == Blocked && Waits(g, r, t, wanted, clear, all))
  {
    MetAnswers(g.bits, wanted, all);
    JoinWaits(g, t, wanted, clear, all);
    hide And; hide Drop; hide Encoded; hide Met; hide AllOf; hide AnyOf; hide Waits;
  }

  /** A rendezvous sets its bits first.  If that makes all the wanted ones, it returns them
      as they were then, and clears them; if not, it returns what the woken tasks have left,
      or waits for all. */
  lemma SyncAnswers(g: Group, t: Task, add: Bits, wanted: Bits, ticks: nat)
    requires And(wanted, CONTROL) == 0
    ensures var (r, o) := Sync(g, t, add, wanted, ticks);
            var g1, there := SetBits(g, add), AllOf(Union(g.bits, add), wanted);
            && (there ==> o == Returned(Union(g.bits, add)) && r == ClearBits(g1, wanted))
            && (!there && ticks == 0 ==> o == Returned(g1.bits) && r == g1)
            && (!there && ticks > 0 ==> o == Blocked && Waits(g1, r, t, wanted, true, true))
  {
    MetAnswers(Union(g.bits, add), wanted, true);
    JoinWaits(SetBits(g, add), t, wanted, true, true);
    hide And; hide Drop; hide Encoded; hide Met; hide AllOf; hide Waits; hide Union; hide SetBits;
  }

  lemma ExpireAnswers(g: Group, i: nat)
    requires i < |g.waiting|
    ensures var r := Expire(g, i);
            && r == g.(waiting := r.waiting) && multiset(g.waiting) == multiset(r.waiting) + multiset{g.waiting[i]}
            && r.waiting[..i] == g.waiting[..i] && r.waiting[i..] == g.waiting[i + 1..]
  {
    Rejoin(g.waiting, i);
    HeadAndTail(g.waiting[i..]);
    assert g.waiting[i..][1..] == g.waiting[i + 1..];
  }

  // ------------------------------------------------------ the group keeps to its 24 bits

  ghost predicate Clean(bits: Bits) {
    And(bits, CONTROL) == 0
  }

  lemma UnionClean(a: Bits, b: Bits)
    requires Clean(a) && Clean(b)
    ensures Clean(Union(a, b))
  {
  }

  lemma DropClean(a: Bits, b: Bits)
    requires Clean(a)
    ensures Clean(Drop(a, b))
  {
  }

  lemma SetBitsClean(g: Group, add: Bits)
    requires Clean(g.bits) && Clean(add)
    ensures Clean(Union(g.bits, add)) && Clean(SetBits(g, add).bits)
  {
    var bits := Union(g.bits, add);
    UnionClean(g.bits, add);
    SetBitsOnly(g, add);
    DropClean(bits, ClearMask(Satisfying(g.waiting, bits)));
    hide *;
  }

  lemma WaitClean(g: Group, t: Task, wanted: Bits, clears: bool, all: bool, ticks: nat)
    requires Clean(g.bits)
    ensures Clean(WaitBits(g, t, wanted, clears, all, ticks).0.bits)
  {
    DropClean(g.bits, wanted);
    hide Drop; hide Clean; hide Met; hide Encoded;
  }

  lemma MeetClean(g: Group, t: Task, add: Bits, wanted: Bits, ticks: nat)
    requires Clean(g.bits) && Clean(add)
    ensures Clean(Sync(g, t, add, wanted, ticks).0.bits)
  {
    SetBitsClean(g, add);
    DropClean(SetBits(g, add).bits, wanted);
    hide SetBits; hide Drop; hide Clean; hide Met; hide Encoded; hide Union;
  }

  lemma FinishClean(g: Group, value: Bits, wanted: Bits, clears: bool, all: bool)
    requires Clean(g.bits)
    ensures Clean(Resume(g, value, wanted, clears, all).0.bits)
  {
    DropClean(g.bits, wanted);
    hide Drop; hide Clean; hide Met; hide And;
  }

  lemma StepClean(g: Group, a: Action)
    requires Clean(g.bits) && Legal(a)
    ensures Clean(Step(g, a).bits)
  {
    assert a.Set? ==> Clean(a.add);
    assert a.Meet? ==> Clean(a.add);
    hide And; hide Clean; hide Drop; hide SetBits; hide WaitBits; hide Sync; hide Resume; hide Notify; hide Legal;
    match a
    case Set(add) => SetBitsClean(g, add);
    case Clear(clear) => DropClean(g.bits, clear);
    case Wait(t, wanted, clears, all, ticks) => WaitClean(g, t, wanted, clears, all, ticks);
    case Meet(t, add, wanted, ticks) => MeetClean(g, t, add, wanted, ticks);
    case Finish(value, wanted, clears, all) => FinishClean(g, value, wanted, clears, all);
    case TimeUp(i) =>
    case Remove =>
  }

  /** The control bits of a group are never set, so that what woken tasks are told is
      exactly the bits. */
  lemma {:induction false} RunClean(g: Group, actions: seq<Action>)
    requires Clean(g.bits) && forall a :: a in actions ==> Legal(a)
    ensures Clean(Run(g, actions).bits)
    decreases |actions|
  {
    if actions != [] {
      hide Clean; hide Step; hide Legal;
      StepClean(g, actions[0]);
      RunClean(Step(g, actions[0]), actions[1..]);
    }
  }

  /** Over every run of legal calls, whoever a call that sets bits wakes returns those that
      were set then. */
  lemma WokenAreTold(g: Group, actions: seq<Action>, add: Bits)
    requires g == Group(0, [], []) && (forall a :: a in actions ==> Legal(a)) && And(add, CONTROL) == 0
    ensures var q := Run(g, actions);
            var r, bits := SetBits(q, add), Union(q.bits, add);
            |q.released| <= |r.released| && Told(r.released[|q.released|..], Satisfying(q.waiting, bits), bits)
  {
    NothingControls();
    RunClean(g, actions);
    var q := Run(g, actions);
    UnionClean(q.bits, add);
    WokenReturnTheBits(q, add);
    hide SetBits; hide Union; hide And; hide Run; hide Satisfying; hide Told;
  }
}
