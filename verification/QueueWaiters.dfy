/** Who is woken: the waiting lists stay in the order of priority, wake-ups come from their
    heads, and among tasks of one priority the one that has waited longest goes first. */
module QueueWaiters {
  import opened Ticks
  import opened ListSpec
  import opened Sequences
  import opened QueueSpec
  import opened QueueWakeups

  /** The tasks of one priority, in the order in which they joined the list. */
  function OfValue(w: Waiters, v: Tick): seq<Task> {
    if w == [] then []
    else if w[0].value == v then [w[0].owner] + OfValue(w[1..], v)
    else OfValue(w[1..], v)
  }

  lemma {:induction false} OfValueJoin(u: Waiters, w: Waiters, v: Tick)
    ensures OfValue(u + w, v) == OfValue(u, v) + OfValue(w, v)
  {
    if u == [] {
      Nothing(w);
      Nothing(OfValue(w, v));
    } else {
      OfValueJoin(u[1..], w, v);
      assert (u + w)[1..] == u[1..] + w;
      Join([u[0].owner], OfValue(u[1..], v), OfValue(w, v));
    }
  }

  /** A task joins behind those of its priority, and disturbs no other. */
  lemma {:induction false} OfValueInsert(w: Waiters, x: Item<Task>, v: Tick)
    requires Sorted(w)
    ensures OfValue(Insert(w, x), v) == OfValue(w, v) + (if v == x.value then [x.owner] else [])
    decreases |w|
  {
    if w != [] && w[0].value <= x.value {
      OfValueInsert(w[1..], x, v);
      assert Insert(w, x)[1..] == Insert(w[1..], x);
      Join([w[0].owner], OfValue(w[1..], v), if v == x.value then [x.owner] else []);
    } else {
      assert Insert(w, x)[1..] == w;
      if v == x.value {
        NoneOfValue(w, v);
      }
      Nothing(OfValue(w, v));
    }
  }

  lemma {:induction false} NoneOfValue(w: Waiters, v: Tick)
    requires Sorted(w) && (w != [] ==> v < w[0].value)
    ensures OfValue(w, v) == []
  {
    if w != [] {
      NoneOfValue(w[1..], v);
    }
  }

  /** `woken` left the list `before`, and `after` is what stayed: each task once, the woken
      ones ahead by priority, and by age within each priority. */
  ghost predicate WokenInOrder(before: Waiters, after: Waiters, woken: Waiters) {
    && multiset(before) == multiset(woken) + multiset(after)
    && Sorted(woken)
    && (forall w, x :: w in woken && x in after ==> w.value <= x.value)
    && (forall v :: OfValue(before, v) == OfValue(woken, v) + OfValue(after, v))
  }

  lemma HeadsAreSorted(w: Waiters, k: nat)
    requires Sorted(w) && k <= |w|
    ensures Sorted(w[..k]) && Sorted(w[k..])
    ensures forall x, y :: x in w[..k] && y in w[k..] ==> x.value <= y.value
  {
  }

  lemma HeadsAreAll(w: Waiters, k: nat)
    requires k <= |w|
    ensures multiset(w) == multiset(w[..k]) + multiset(w[k..])
    ensures forall v :: OfValue(w, v) == OfValue(w[..k], v) + OfValue(w[k..], v)
  {
    Rejoin(w, k);
    forall v ensures OfValue(w, v) == OfValue(w[..k], v) + OfValue(w[k..], v) {
      OfValueJoin(w[..k], w[k..], v);
    }
    hide OfValue;
  }

  lemma HeadsGoFirst(w: Waiters, k: nat)
    requires Sorted(w) && k <= |w|
    ensures WokenInOrder(w, w[k..], w[..k]) && Sorted(w[k..])
  {
    HeadsAreSorted(w, k);
    HeadsAreAll(w, k);
    hide Sorted; hide OfValue;
  }

  /** x has joined the list: nobody else has come or gone, and x stands behind those of its
      priority. */
  ghost predicate Joined(before: Waiters, after: Waiters, x: Item<Task>) {
    && multiset(after) == multiset(before) + multiset{x}
    && (forall v :: OfValue(after, v) == OfValue(before, v) + (if v == x.value then [x.owner] else []))
  }

  lemma {:induction false} InsertMembers(w: Waiters, x: Item<Task>)
    ensures multiset(Insert(w, x)) == multiset(w) + multiset{x}
  {
    if w != [] && w[0].value <= x.value {
      InsertMembers(w[1..], x);
      HeadAndTail(w);
    }
  }

  lemma InsertJoins(w: Waiters, x: Item<Task>)
    requires Sorted(w)
    ensures Joined(w, Insert(w, x), x) && Sorted(Insert(w, x))
  {
    InsertMembers(w, x);
    InsertKeepsSorted(w, x);
    forall v ensures OfValue(Insert(w, x), v) == OfValue(w, v) + (if v == x.value then [x.owner] else []) {
      OfValueInsert(w, x, v);
    }
    hide Sorted; hide OfValue; hide Insert;
  }

  /** The i-th waiter has left the list, and the others keep their places. */
  ghost predicate GaveUp(before: Waiters, after: Waiters, i: nat) {
    && i < |before| && |after| == |before| - 1 && multiset(before) == multiset(after) + multiset{before[i]}
    && after[..i] == before[..i] && after[i..] == before[i + 1..]
  }

  // ------------------------------------------------------------------- what happened

  function AsMany(n: int, w: Waiters): nat {
    if n <= 0 then 0 else if n < |w| then n else |w|
  }

  /** How many wake-ups a step has for receivers: one for a message that arrives or is left
      while the queue is not locked, and those counted when it is unlocked. */
  function DueToReceivers<T>(s: State<T>, a: Action<T>): int {
    if !Enabled(s, a) then 0
    else match a
      case TaskSend(_, _, position) => if |s.queue.items| < s.queue.length || position == Overwrite then 1 else 0
      case IsrSend(_, position) =>
        if (|s.queue.items| < s.queue.length || position == Overwrite) && s.queue.txLock == UNLOCKED then 1 else 0
      case TaskPeek(_) => if s.queue.items != [] then 1 else 0
      case UnlockTxLock => s.queue.txLock
      case _ => 0
  }

  function DueToSenders<T>(s: State<T>, a: Action<T>): int {
    if !Enabled(s, a) then 0
    else match a
      case TaskReceive(_) => if s.queue.items != [] then 1 else 0
      case IsrReceive => if s.queue.items != [] && s.queue.rxLock == UNLOCKED then 1 else 0
      case UnlockRxLock => s.queue.rxLock
      case ResetQueue => 1
      case _ => 0
  }

  /** The woken receivers that have not tried again. */
  function StillWokenReceivers<T>(s: State<T>, a: Action<T>): seq<Task> {
    if Enabled(s, a) && a.TaskReceive? then Retry(s.wokenReceivers, a.task)
    else if Enabled(s, a) && a.TaskPeek? then Retry(s.wokenReceivers, a.task)
    else s.wokenReceivers
  }

  function StillWokenSenders<T>(s: State<T>, a: Action<T>): seq<Task> {
    if Enabled(s, a) && a.TaskSend? then Retry(s.wokenSenders, a.task) else s.wokenSenders
  }

  predicate JoinsToReceive<T>(s: State<T>, a: Action<T>) {
    Enabled(s, a) && a.Place? && s.holder.SawEmpty?
  }

  predicate JoinsToSend<T>(s: State<T>, a: Action<T>) {
    Enabled(s, a) && a.Place? && s.holder.SawFull?
  }

  predicate GivesUp<T>(s: State<T>, a: Action<T>, sending: bool) {
    Enabled(s, a) && a.Timeout? && a.sending == sending
  }

  /** A task that tries again is off the list of those woken, once. */
  lemma {:induction false} RetryTakesOne(woken: seq<Task>, t: Task)
    ensures multiset(Retry(woken, t)) == multiset(woken) - multiset{t}
  {
    if woken != [] {
      HeadAndTail(woken);
      if woken[0] == t {
        assert Retry(woken, t) == woken[1..];
      } else {
        assert Retry(woken, t) == [woken[0]] + Retry(woken[1..], t);
        RetryTakesOne(woken[1..], t);
      }
      hide Retry;
    }
  }

  lemma LeavesToReceive<T>(s: State<T>, a: Action<T>)
    requires !JoinsToReceive(s, a) && !GivesUp(s, a, false)
    requires !a.TaskSend? && !a.IsrSend? && !a.TaskPeek? && !a.UnlockTxLock?
    ensures var r := Step(s, a);
            r.queue.toReceive == s.queue.toReceive && r.wokenReceivers == StillWokenReceivers(s, a)
  {
    Nothing(StillWokenReceivers(s, a));
    hide Owners; hide Insert; hide Stored; hide Retry; hide Note; hide NoteOut;
  }

  lemma WakesToReceive<T>(s: State<T>, a: Action<T>)
    requires a.TaskSend? || a.IsrSend? || a.TaskPeek? || a.UnlockTxLock?
    ensures var r, w := Step(s, a), s.queue.toReceive;
            var k := AsMany(DueToReceivers(s, a), w);
            && r.queue.toReceive == w[k..]
            && r.wokenReceivers == StillWokenReceivers(s, a) + Owners(w[..k])
  {
    Nothing(StillWokenReceivers(s, a));
    NobodyThere(s.queue.toReceive);
    hide Owners; hide Insert; hide Stored; hide Retry; hide Note; hide NoteOut;
  }

  /** What a step does to the waiting list, as positions. */
  lemma ReceiversTakeHeads<T>(s: State<T>, a: Action<T>)
    requires !JoinsToReceive(s, a) && !GivesUp(s, a, false)
    ensures var r, w := Step(s, a), s.queue.toReceive;
            var k := AsMany(DueToReceivers(s, a), w);
            && r.queue.toReceive == w[k..]
            && r.wokenReceivers == StillWokenReceivers(s, a) + Owners(w[..k])
  {
    hide Step; hide StillWokenReceivers; hide Owners;
    if a.TaskSend? || a.IsrSend? || a.TaskPeek? || a.UnlockTxLock? {
      WakesToReceive(s, a);
    } else {
      LeavesToReceive(s, a);
      Nothing(StillWokenReceivers(s, a));
      NobodyThere(s.queue.toReceive);
    }
  }

  lemma LeavesToSend<T>(s: State<T>, a: Action<T>)
    requires !JoinsToSend(s, a) && !GivesUp(s, a, true)
    requires !a.TaskReceive? && !a.IsrReceive? && !a.UnlockRxLock? && !a.ResetQueue?
    ensures var r := Step(s, a);
            r.queue.toSend == s.queue.toSend && r.wokenSenders == StillWokenSenders(s, a)
  {
    Nothing(StillWokenSenders(s, a));
    hide Owners; hide Insert; hide Stored; hide Retry; hide Note; hide NoteOut;
  }

  lemma WakesToSend<T>(s: State<T>, a: Action<T>)
    requires a.TaskReceive? || a.IsrReceive? || a.UnlockRxLock? || a.ResetQueue?
    ensures var r, w := Step(s, a), s.queue.toSend;
            var k := AsMany(DueToSenders(s, a), w);
            && r.queue.toSend == w[k..]
            && r.wokenSenders == StillWokenSenders(s, a) + Owners(w[..k])
  {
    Nothing(StillWokenSenders(s, a));
    NobodyThere(s.queue.toSend);
    hide Owners; hide Insert; hide Stored; hide Retry; hide Note; hide NoteOut;
  }

  /** What a step does to the waiting list, as positions. */
  lemma SendersTakeHeads<T>(s: State<T>, a: Action<T>)
    requires !JoinsToSend(s, a) && !GivesUp(s, a, true)
    ensures var r, w := Step(s, a), s.queue.toSend;
            var k := AsMany(DueToSenders(s, a), w);
            && r.queue.toSend == w[k..]
            && r.wokenSenders == StillWokenSenders(s, a) + Owners(w[..k])
  {
    hide Step; hide StillWokenSenders; hide Owners;
    if a.TaskReceive? || a.IsrReceive? || a.UnlockRxLock? || a.ResetQueue? {
      WakesToSend(s, a);
    } else {
      LeavesToSend(s, a);
      Nothing(StillWokenSenders(s, a));
      NobodyThere(s.queue.toSend);
    }
  }

  lemma NobodyThere(w: Waiters)
    ensures w[0..] == w && Owners(w[..0]) == []
  {
  }


  lemma WithoutLeaves(w: Waiters, i: nat)
    requires i < |w|
    ensures GaveUp(w, Without(w, i), i)
  {
    Rejoin(w, i);
    HeadAndTail(w[i..]);
    assert w[i..][1..] == w[i + 1..];
    SplitAt(w[..i], w[i + 1..]);
  }

  lemma WithoutAt(w: Waiters, i: nat, j: nat)
    requires i < |w| && j < |w| - 1
    ensures Without(w, i)[j] == w[if j < i then j else j + 1]
  {
  }

  lemma WithoutKeepsSorted(w: Waiters, i: nat)
    requires Sorted(w) && i < |w|
    ensures Sorted(Without(w, i))
  {
    var r := Without(w, i);
    assert |r| == |w| - 1;
    hide Without;
    forall j, k | 0 <= j < k < |r| ensures r[j].value <= r[k].value {
      WithoutAt(w, i, j);
      WithoutAt(w, i, k);
    }
  }

  /** Whatever happens to a waiting list in one step: a task joins it, gives up, or is one of
      those woken. */
  ghost predicate ListMoves(before: Waiters, after: Waiters, still: seq<Task>, woken: seq<Task>, due: int) {
    var heads := before[..AsMany(due, before)];
    WokenInOrder(before, after, heads) && woken == still + Owners(heads)
  }

  lemma ListMovesOn(w: Waiters, due: int)
    requires Sorted(w)
    ensures var k := AsMany(due, w); WokenInOrder(w, w[k..], w[..k]) && Sorted(w[k..])
  {
    HeadsGoFirst(w, AsMany(due, w));
    hide Sorted; hide WokenInOrder;
  }

  /** Who leaves the receivers' list, and how: a wake-up takes as many from the head of the
      list as it is due to wake, no step loses a task or wakes it twice, and the list stays
      in order. */
  lemma StepMovesReceivers<T>(s: State<T>, a: Action<T>)
    requires Sorted(s.queue.toReceive)
    ensures var r := Step(s, a);
            var before, after := s.queue.toReceive, r.queue.toReceive;
            && Sorted(after)
            && (if JoinsToReceive(s, a) then
                  Joined(before, after, Item(a.priority, s.holder.task)) && r.wokenReceivers == s.wokenReceivers
                else if GivesUp(s, a, false) then
                  GaveUp(before, after, a.waiter) && r.wokenReceivers == s.wokenReceivers
                else
                  ListMoves(before, after, StillWokenReceivers(s, a), r.wokenReceivers, DueToReceivers(s, a)))
  {
    var w := s.queue.toReceive;
    if JoinsToReceive(s, a) {
      InsertJoins(w, Item(a.priority, s.holder.task));
      hide Joined; hide Sorted; hide Insert;
    } else if GivesUp(s, a, false) {
      WithoutLeaves(w, a.waiter);
      WithoutKeepsSorted(w, a.waiter);
      hide GaveUp; hide Sorted; hide Without;
    } else {
      ReceiversTakeHeads(s, a);
      ListMovesOn(w, DueToReceivers(s, a));
      hide Step; hide Sorted; hide WokenInOrder; hide Owners; hide StillWokenReceivers; hide DueToReceivers;
    }
  }

  lemma StepMovesSenders<T>(s: State<T>, a: Action<T>)
    requires Sorted(s.queue.toSend)
    ensures var r := Step(s, a);
            var before, after := s.queue.toSend, r.queue.toSend;
            && Sorted(after)
            && (if JoinsToSend(s, a) then
                  Joined(before, after, Item(a.priority, s.holder.task)) && r.wokenSenders == s.wokenSenders
                else if GivesUp(s, a, true) then
                  GaveUp(before, after, a.waiter) && r.wokenSenders == s.wokenSenders
                else
                  ListMoves(before, after, StillWokenSenders(s, a), r.wokenSenders, DueToSenders(s, a)))
  {
    var w := s.queue.toSend;
    if JoinsToSend(s, a) {
      InsertJoins(w, Item(a.priority, s.holder.task));
      hide Joined; hide Sorted; hide Insert;
    } else if GivesUp(s, a, true) {
      WithoutLeaves(w, a.waiter);
      WithoutKeepsSorted(w, a.waiter);
      hide GaveUp; hide Sorted; hide Without;
    } else {
      SendersTakeHeads(s, a);
      ListMovesOn(w, DueToSenders(s, a));
      hide Step; hide Sorted; hide WokenInOrder; hide Owners; hide StillWokenSenders; hide DueToSenders;
    }
  }

  /** The waiting lists of a new queue stay in order, whatever happens. */
  lemma {:induction false} RunKeepsOrder<T>(s: State<T>, actions: seq<Action<T>>)
    requires Sorted(s.queue.toReceive) && Sorted(s.queue.toSend)
    ensures var r := Run(s, actions); Sorted(r.queue.toReceive) && Sorted(r.queue.toSend)
    decreases |actions|
  {
    if actions != [] {
      StepMovesReceivers(s, actions[0]);
      StepMovesSenders(s, actions[0]);
      hide Step; hide Sorted; hide ListMoves; hide Joined; hide GaveUp;
      RunKeepsOrder(Step(s, actions[0]), actions[1..]);
    }
  }

  /** Over every run of a new queue, of two tasks that wait for the same, the one of the
      higher priority is never passed over: whoever a step wakes has no one more urgent
      behind on the list. */
  lemma NobodyOvertakes<T>(s: State<T>, actions: seq<Action<T>>, a: Action<T>)
    requires Fresh(s)
    ensures var q, r := Run(s, actions), Run(s, actions + [a]);
            && (!JoinsToReceive(q, a) && !GivesUp(q, a, false) ==>
                  ListMoves(q.queue.toReceive, r.queue.toReceive,
                            StillWokenReceivers(q, a), r.wokenReceivers, DueToReceivers(q, a)))
            && (!JoinsToSend(q, a) && !GivesUp(q, a, true) ==>
                  ListMoves(q.queue.toSend, r.queue.toSend,
                            StillWokenSenders(q, a), r.wokenSenders, DueToSenders(q, a)))
  {
    var q := Run(s, actions);
    RunKeepsOrder(s, actions);
    StepMovesReceivers(q, a);
    StepMovesSenders(q, a);
    RunSplits(s, actions, [a]);
    RunOne(q, a, []);
    RunOne(Step(q, a), a, []);
    Nothing([a]);
    hide *;
  }

  // ------------------------------------------------------------------- what is answered

  /** A send succeeds into a free slot, or if it overwrites; the item then stands where it
      was to go, and the others keep their order. */
  ghost predicate SendAnswer<T>(q: Queue<T>, e: Effect<T>, x: T, position: Position) {
    var items := e.queue.items;
    && e.done == (|q.items| < q.length || position == Overwrite)
    && e.queue.length == q.length && e.queue.toSend == q.toSend && e.queue.rxLock == q.rxLock
    && (!e.done ==> e == Effect(q, false, [], []))
    && (e.done && position != Overwrite ==> |items| == |q.items| + 1)
    && (e.done && position == ToBack ==> items[|q.items|] == x && items[..|q.items|] == q.items)
    && (e.done && position == ToFront ==> items[0] == x && items[1..] == q.items)
    && (e.done && position == Overwrite ==> items == [x])
  }

  lemma SendAnswers<T>(q: Queue<T>, x: T, position: Position)
    ensures SendAnswer(q, Send(q, x, position), x, position)
    ensures SendAnswer(q, SendFromISR(q, x, position), x, position)
    ensures Send(q, x, position).queue.txLock == q.txLock
  {
    hide Owners;
  }

  /** Taking an item succeeds if there is one, and takes the front one; a peek leaves it. */
  ghost predicate TakeAnswer<T>(q: Queue<T>, e: Effect<T>, taken: nat) {
    && e.done == (q.items != [])
    && e.queue.length == q.length && e.queue.txLock == q.txLock
    && (!e.done ==> e == Effect(q, false, [], []))
    && (e.done ==> |q.items| == taken + |e.queue.items| && e.queue.items == q.items[taken..])
  }

  lemma TakeAnswers<T>(q: Queue<T>)
    ensures TakeAnswer(q, Receive(q), 1) && TakeAnswer(q, ReceiveFromISR(q), 1) && TakeAnswer(q, Peek(q), 0)
    ensures Receive(q).queue.rxLock == Peek(q).queue.rxLock == q.rxLock
    ensures Receive(q).queue.toReceive == ReceiveFromISR(q).queue.toReceive == q.toReceive
    ensures Peek(q).queue.toSend == q.toSend
  {
    hide Owners;
  }

  /** How many items have come in, and gone out, since the queue was new. */
  function Arrivals<T>(history: seq<Transfer<T>>): nat {
    if history == [] then 0
    else Arrivals(history[..|history| - 1]) + if history[|history| - 1].In? then 1 else 0
  }

  function Departures<T>(history: seq<Transfer<T>>): nat {
    if history == [] then 0
    else Departures(history[..|history| - 1]) + if history[|history| - 1].Out? then 1 else 0
  }

  lemma CountsGrow<T>(history: seq<Transfer<T>>, transfer: Transfer<T>)
    ensures Arrivals(history + [transfer]) == Arrivals(history) + if transfer.In? then 1 else 0
    ensures Departures(history + [transfer]) == Departures(history) + if transfer.Out? then 1 else 0
  {
    assert (history + [transfer])[..|history|] == history;
  }

  /** Between `prvLockQueue` and `prvUnlockQueue`. */
  predicate IsLocked<T>(s: State<T>) {
    && !s.holder.Nobody? && !s.holder.HalfUnlocked?
    && s.queue.txLock >= 0 && s.queue.rxLock >= 0
  }

  lemma LockStarts<T>(s: State<T>, t: Task)
    requires s.holder == Nobody && s.queue.txLock == s.queue.rxLock == UNLOCKED
    ensures var r := Step(s, LockQueue(t));
            IsLocked(r) && r.queue.txLock == r.queue.rxLock == 0 && r.history == s.history
  {
  }

  lemma StepCounts<T>(s: State<T>, a: Action<T>)
    requires IsLocked(s) && !a.UnlockTxLock?
    ensures var r, ts := Step(s, a), TransferOf(s, a);
            && IsLocked(r)
            && r.queue.txLock == s.queue.txLock + (if ts != [] && ts[0].In? then 1 else 0)
            && r.queue.rxLock == s.queue.rxLock + (if ts != [] && ts[0].Out? then 1 else 0)
  {
    hide Owners; hide Insert; hide Stored; hide Without; hide Retry;
  }

  /** While the queue is locked its counters count what interrupts put in and take out, so
      that unlocking wakes one receiver for each arrival and one sender for each departure. */
  lemma {:induction false} LocksCount<T>(s: State<T>, actions: seq<Action<T>>)
    requires IsLocked(s) && forall a :: a in actions ==> !a.UnlockTxLock?
    ensures var r := Run(s, actions);
            && IsLocked(r)
            && r.queue.txLock - s.queue.txLock == Arrivals(r.history) - Arrivals(s.history)
            && r.queue.rxLock - s.queue.rxLock == Departures(r.history) - Departures(s.history)
    decreases |actions|
  {
    if actions != [] {
      var a := actions[0];
      StepCounts(s, a);
      StepTransfers(s, a);
      var ts := TransferOf(s, a);
      hide Step; hide Arrivals; hide Departures; hide TransferOf; hide IsLocked; hide Applied; hide Allowed;
      if ts == [] {
        Nothing(s.history);
      } else {
        assert ts == [ts[0]];
        CountsGrow(s.history, ts[0]);
      }
      LocksCount(Step(s, a), actions[1..]);
    }
  }
}
