/** Blocking on a queue: the critical sections of `QueueSpec` as the steps of tasks and
    interrupts, in every interleaving the scheduler lock allows, and the proof that no
    wake-up is lost. */
module QueueWakeups {
  import opened Ticks
  import opened ListSpec
  import opened QueueSpec

  /** Where the task that has suspended the scheduler and locked the queue stands.  While
      there is one, no other task runs; interrupts do. */
  datatype Holder =
    | Nobody
    | Locked(task: Task)        // behind prvLockQueue
    | SawEmpty(task: Task)      // prvIsQueueEmpty said yes
    | SawFull(task: Task)       // prvIsQueueFull said yes
    | Leaving                   // no more to do but prvUnlockQueue
    | HalfUnlocked              // between its two critical sections

  /** An item accepted, an item handed out, or a reset. */
  datatype Transfer<T> = In(x: T, position: Position) | Out(x: T) | Cleared

  /** Woken tasks stay in `wokenReceivers` or `wokenSenders` until they try again. */
  datatype State<T> = State(
    queue: Queue<T>,
    holder: Holder,
    wokenReceivers: seq<Task>,
    wokenSenders: seq<Task>,
    history: seq<Transfer<T>>)

  datatype Action<T> =
    | TaskSend(task: Task, x: T, position: Position)
    | TaskReceive(task: Task)
    | TaskPeek(task: Task)
    | IsrSend(x: T, position: Position)
    | IsrReceive
    | LockQueue(task: Task)
    | CheckEmpty
    | CheckFull
    | Place(priority: Tick)
    | UnlockTxLock
    | UnlockRxLock
    | Timeout(waiter: nat, sending: bool)
    | ResetQueue

  /** When an action can happen.  The counters must stay below 127, or an assertion fails. */
  predicate Enabled<T>(s: State<T>, a: Action<T>) {
    match a
    case TaskSend(task, x, position) => s.holder == Nobody && (position == Overwrite ==> s.queue.length == 1)
    case TaskReceive(task) => s.holder == Nobody
    case TaskPeek(task) => s.holder == Nobody
    case IsrSend(x, position) => s.queue.txLock < INT8_MAX && (position == Overwrite ==> s.queue.length == 1)
    case IsrReceive => s.queue.rxLock < INT8_MAX
    case LockQueue(task) => s.holder == Nobody
    case CheckEmpty => s.holder.Locked?
    case CheckFull => s.holder.Locked?
    case Place(priority) => s.holder.SawEmpty? || s.holder.SawFull?
    case UnlockTxLock => s.holder.Locked? || s.holder.Leaving?
    case UnlockRxLock => s.holder.HalfUnlocked?
    case Timeout(waiter, sending) =>
      s.holder == Nobody && waiter < if sending then |s.queue.toSend| else |s.queue.toReceive|
    case ResetQueue => s.holder == Nobody
  }

  function Apply<T>(s: State<T>, e: Effect<T>): State<T> {
    s.(queue := e.queue,
       wokenReceivers := s.wokenReceivers + e.wokenReceivers,
       wokenSenders := s.wokenSenders + e.wokenSenders)
  }

  /** A task that tries again is no longer one that has been woken for it. */
  function Retry(woken: seq<Task>, t: Task): (r: seq<Task>)
    ensures |r| == if t in woken then |woken| - 1 else |woken|
  {
    if woken == [] then [] else if woken[0] == t then woken[1..] else [woken[0]] + Retry(woken[1..], t)
  }

  function Note<T>(s: State<T>, transfer: Transfer<T>, done: bool): (r: State<T>)
    ensures r == s.(history := r.history)
  {
    if done then s.(history := s.history + [transfer]) else s
  }

  function NoteOut<T>(s: State<T>, items: seq<T>, done: bool): (r: State<T>)
    ensures r == s.(history := r.history)
  {
    if items != [] then Note(s, Out(items[0]), done) else s
  }

  function Without<A>(s: seq<A>, k: nat): seq<A>
    requires k < |s|
  {
    s[..k] + s[k + 1..]
  }

  /** An action that is not enabled changes nothing. */
  function Step<T>(s: State<T>, a: Action<T>): State<T> {
    if !Enabled(s, a) then s else Act(s, a)
  }

  function Act<T>(s: State<T>, a: Action<T>): State<T>
    requires Enabled(s, a)
  {
    var q := s.queue;
    match a
    case TaskSend(task, x, position) =>
      var e := Send(q, x, position);
      Note(Apply(s.(wokenSenders := Retry(s.wokenSenders, task)), e), In(x, position), e.done)
    case TaskReceive(task) =>
      var e := Receive(q);
      NoteOut(Apply(s.(wokenReceivers := Retry(s.wokenReceivers, task)), e), q.items, e.done)
    case TaskPeek(task) =>
      Apply(s.(wokenReceivers := Retry(s.wokenReceivers, task)), Peek(q))
    case IsrSend(x, position) =>
      var e := SendFromISR(q, x, position);
      Note(Apply(s, e), In(x, position), e.done)
    case IsrReceive =>
      var e := ReceiveFromISR(q);
      NoteOut(Apply(s, e), q.items, e.done)
    case LockQueue(task) => s.(queue := Lock(q), holder := Locked(task))
    case CheckEmpty => s.(holder := if q.items == [] then SawEmpty(s.holder.task) else Leaving)
    case CheckFull => s.(holder := if |q.items| == q.length then SawFull(s.holder.task) else Leaving)
    case Place(priority) =>
      var waiter := Item(priority, s.holder.task);
      s.(queue := if s.holder.SawEmpty? then WaitToReceive(q, waiter) else WaitToSend(q, waiter),
         holder := Leaving)
    case UnlockTxLock => Apply(s, UnlockTx(q)).(holder := HalfUnlocked)
    case UnlockRxLock => Apply(s, UnlockRx(q)).(holder := Nobody)
    case Timeout(waiter, sending) =>
      s.(queue := if sending then q.(toSend := Without(q.toSend, waiter))
                  else q.(toReceive := Without(q.toReceive, waiter)))
    case ResetQueue => Note(Apply(s, Reset(q)), Cleared, true)
  }

  function Pos(n: int): nat {
    if n > 0 then n else 0
  }

  // ---------------------------------------------------------------- the invariants

  ghost predicate Shape<T>(s: State<T>) {
    && 0 < s.queue.length && |s.queue.items| <= s.queue.length
    && (s.holder.Nobody? ==> s.queue.txLock == s.queue.rxLock == UNLOCKED)
    && (s.holder.HalfUnlocked? ==> s.queue.txLock == UNLOCKED && s.queue.rxLock >= 0)
    && (!s.holder.Nobody? && !s.holder.HalfUnlocked? ==> s.queue.txLock >= 0 && s.queue.rxLock >= 0)
  }

  /** Every message that arrived while receivers wait is covered by a receiver that has
      been woken and not tried again yet, or by a wake-up owed when the queue is
      unlocked. */
  ghost predicate ReceiversCovered<T>(s: State<T>) {
    && (s.queue.toReceive != [] ==> |s.queue.items| <= |s.wokenReceivers| + Pos(s.queue.txLock))
    && (s.holder.SawEmpty? ==> |s.queue.items| <= Pos(s.queue.txLock))
  }

  /** The same for free slots and the tasks waiting to send. */
  ghost predicate SendersCovered<T>(s: State<T>) {
    && (s.queue.toSend != [] ==>
          s.queue.length - |s.queue.items| <= |s.wokenSenders| + Pos(s.queue.rxLock))
    && (s.holder.SawFull? ==> s.queue.length - |s.queue.items| <= Pos(s.queue.rxLock))
  }

  lemma StepShape<T>(s: State<T>, a: Action<T>)
    requires Shape(s)
    ensures Shape(Step(s, a)) && Step(s, a).queue.length == s.queue.length
  {
  }

  lemma StepCoversReceivers<T>(s: State<T>, a: Action<T>)
    requires Shape(s) && ReceiversCovered(s)
    ensures ReceiversCovered(Step(s, a))
  {
    hide Owners; hide Stored; hide Note; hide NoteOut; hide Retry; hide Insert;
  }

  /** All steps but a reset. */
  lemma StepCoversSenders<T>(s: State<T>, a: Action<T>)
    requires Shape(s) && SendersCovered(s) && !a.ResetQueue?
    ensures SendersCovered(Step(s, a))
  {
    hide Owners; hide Stored; hide Note; hide NoteOut; hide Retry; hide Insert;
  }

  /** A reset frees every slot but wakes one sender: the senders stay covered exactly when
      at most one was waiting, or enough have been woken already to fill the queue. */
  lemma ResetCoversSendersExactlyWhen<T>(s: State<T>)
    requires Shape(s) && Enabled(s, ResetQueue)
    ensures SendersCovered(Step(s, ResetQueue))
       <==> |s.queue.toSend| <= 1 || s.queue.length <= |s.wokenSenders| + 1
  {
  }

  // ------------------------------------------------------------------------- runs

  function Run<T>(s: State<T>, actions: seq<Action<T>>): State<T>
    decreases |actions|
  {
    if actions == [] then s else Run(Step(s, actions[0]), actions[1..])
  }

  ghost predicate Fresh<T>(s: State<T>) {
    && 0 < s.queue.length
    && s == State(QueueSpec.Queue([], s.queue.length, UNLOCKED, UNLOCKED, [], []), Nobody, [], [], [])
  }

  lemma {:induction false} RunCovers<T>(s: State<T>, actions: seq<Action<T>>)
    requires Shape(s) && ReceiversCovered(s)
    ensures Shape(Run(s, actions)) && ReceiversCovered(Run(s, actions))
    ensures SendersCovered(s) && (forall a :: a in actions ==> !a.ResetQueue?) ==> SendersCovered(Run(s, actions))
    decreases |actions|
  {
    if actions != [] {
      hide Step; hide ReceiversCovered; hide SendersCovered; hide Shape;
      var a := actions[0];
      StepShape(s, a);
      StepCoversReceivers(s, a);
      if SendersCovered(s) && !a.ResetQueue? {
        StepCoversSenders(s, a);
      }
      RunCovers(Step(s, a), actions[1..]);
    }
  }

  /** No wake-up is lost: in no run of a new queue, whatever the interleaving, does a
      message sit in the unlocked queue while every task waiting to receive sleeps with
      nobody woken for it; nor, without resets, a free slot while every sender sleeps. */
  lemma NoLostWakeup<T>(s: State<T>, actions: seq<Action<T>>)
    requires Fresh(s)
    ensures var r := Run(s, actions);
            && (r.holder.Nobody? && r.queue.toReceive != [] ==> |r.queue.items| <= |r.wokenReceivers|)
            && ((forall a :: a in actions ==> !a.ResetQueue?) ==>
                  r.holder.Nobody? && r.queue.toSend != [] ==>
                  r.queue.length - |r.queue.items| <= |r.wokenSenders|)
  {
    RunCovers(s, actions);
  }

  lemma {:induction false} RunSplits<T>(s: State<T>, first: seq<Action<T>>, rest: seq<Action<T>>)
    ensures Run(s, first + rest) == Run(Run(s, first), rest)
    decreases |first|
  {
    hide Step;
    if first == [] {
      assert first + rest == rest;
    } else {
      RunSplits(Step(s, first[0]), first[1..], rest);
      assert (first + rest)[1..] == first[1..] + rest;
    }
  }

  // ------------------------------------------------------------- a sender lost to a reset

  /** What a task does that finds the queue full and waits. */
  function SenderWaits<T>(task: Task, x: T, priority: Tick): seq<Action<T>> {
    [TaskSend(task, x, ToBack), LockQueue(task), CheckFull, Place(priority), UnlockTxLock, UnlockRxLock]
  }

  lemma RunOne<T>(s: State<T>, a: Action<T>, rest: seq<Action<T>>)
    ensures Run(s, [a] + rest) == Run(Step(s, a), rest)
    ensures Run(s, []) == s
  {
    hide Step;
    assert ([a] + rest)[1..] == rest;
  }

  /** A full queue turns the task away, and the task sees that it is full. */
  lemma TurnedAway<T>(s: State<T>, task: Task, x: T)
    requires s.holder == Nobody && s.queue.txLock == s.queue.rxLock == UNLOCKED
    requires |s.queue.items| == s.queue.length && task !in s.wokenSenders
    ensures Step(s, TaskSend(task, x, ToBack)) == s
    ensures Step(Step(s, LockQueue(task)), CheckFull)
         == s.(queue := s.queue.(rxLock := 0, txLock := 0), holder := SawFull(task))
  {
    NotWoken(s.wokenSenders, task);
    assert s.wokenReceivers + [] == s.wokenReceivers && s.wokenSenders + [] == s.wokenSenders;
  }

  lemma NothingOwed<T>(q: Queue<T>)
    ensures q.txLock == 0 ==> UnlockTx(q) == Effect(q.(txLock := UNLOCKED), true, [], [])
    ensures q.rxLock == 0 ==> UnlockRx(q) == Effect(q.(rxLock := UNLOCKED), true, [], [])
  {
    assert q.toReceive[0..] == q.toReceive && q.toSend[0..] == q.toSend;
    assert Owners(q.toReceive[..0]) == [] && Owners(q.toSend[..0]) == [];
  }

  lemma UnlocksQuietly<T>(s: State<T>)
    requires s.holder == Leaving && s.queue.txLock == s.queue.rxLock == 0
    ensures Step(Step(s, UnlockTxLock), UnlockRxLock)
         == s.(queue := s.queue.(rxLock := UNLOCKED, txLock := UNLOCKED), holder := Nobody)
  {
    NothingOwed(s.queue);
    NothingOwed(s.queue.(txLock := UNLOCKED));
    hide UnlockTx; hide UnlockRx;
    assert s.wokenReceivers + [] == s.wokenReceivers && s.wokenSenders + [] == s.wokenSenders;
    var s1 := s.(queue := s.queue.(txLock := UNLOCKED), holder := HalfUnlocked);
    assert Step(s, UnlockTxLock) == s1;
  }

  /** Nobody came in between: the task joins the senders, and unlocking wakes nobody. */
  lemma JoinsSenders<T>(s: State<T>, task: Task, priority: Tick)
    requires s.holder == SawFull(task) && s.queue.txLock == s.queue.rxLock == 0
    ensures Step(Step(Step(s, Place(priority)), UnlockTxLock), UnlockRxLock)
         == s.(queue := WaitToSend(s.queue.(rxLock := UNLOCKED, txLock := UNLOCKED), Item(priority, task)),
               holder := Nobody)
  {
    var s1 := Step(s, Place(priority));
    assert s1 == s.(queue := WaitToSend(s.queue, Item(priority, task)), holder := Leaving);
    hide Step; hide Insert;
    UnlocksQuietly(s1);
  }

  lemma {:induction false} NotWoken(woken: seq<Task>, t: Task)
    requires t !in woken
    ensures Retry(woken, t) == woken
  {
    if woken != [] {
      NotWoken(woken[1..], t);
    }
  }

  lemma SenderWaitsRun<T>(s: State<T>, task: Task, x: T, priority: Tick)
    requires s.holder == Nobody && s.queue.txLock == s.queue.rxLock == UNLOCKED
    requires |s.queue.items| == s.queue.length && task !in s.wokenSenders
    ensures Run(s, SenderWaits(task, x, priority)) == s.(queue := WaitToSend(s.queue, Item(priority, task)))
  {
    TurnedAway(s, task, x);
    JoinsSenders(Step(Step(s, LockQueue(task)), CheckFull), task, priority);
    var a0: Action<T>, a1: Action<T>, a2: Action<T> := TaskSend(task, x, ToBack), LockQueue(task), CheckFull;
    var a3: Action<T>, a4: Action<T>, a5: Action<T> := Place(priority), UnlockTxLock, UnlockRxLock;
    var s1 := Step(s, a0);
    var s2 := Step(s1, a1);
    var s3 := Step(s2, a2);
    var s4 := Step(s3, a3);
    var s5 := Step(s4, a4);
    hide Step; hide WaitToSend;
    RunOne(s, a0, [a1, a2, a3, a4, a5]);
    RunOne(s1, a1, [a2, a3, a4, a5]);
    RunOne(s2, a2, [a3, a4, a5]);
    RunOne(s3, a3, [a4, a5]);
    RunOne(s4, a4, [a5]);
    RunOne(s5, a5, []);
    RunOne(Step(s5, a5), a5, []);
    hide Run;
    assert [a0] + [a1, a2, a3, a4, a5] == SenderWaits(task, x, priority);
    assert [a1] + [a2, a3, a4, a5] == [a1, a2, a3, a4, a5] && [a2] + [a3, a4, a5] == [a2, a3, a4, a5];
    assert [a3] + [a4, a5] == [a3, a4, a5] && [a4] + [a5] == [a4, a5] && [a5] + [] == [a5];
  }

  lemma FillTwo<T>(s: State<T>, x: T)
    requires Fresh(s) && s.queue.length == 2
    ensures var r := Run(s, [TaskSend(1, x, ToBack), TaskSend(1, x, ToBack)]);
            r == s.(queue := s.queue.(items := [x, x]), history := [In(x, ToBack), In(x, ToBack)])
  {
    var a := TaskSend(1, x, ToBack);
    var s1 := Step(s, a);
    assert s1 == s.(queue := s.queue.(items := [x]), history := [In(x, ToBack)]);
    assert Step(s1, a) == s.(queue := s.queue.(items := [x, x]), history := [In(x, ToBack), In(x, ToBack)]);
    hide Step;
    RunOne(s, a, [a]);
    RunOne(s1, a, []);
    RunOne(Step(s1, a), a, []);
    hide Run;
    assert [a] + [a] == [a, a] && [a] + [] == [a];
  }

  /** A run in which the reset loses a sender: two tasks wait to send to a full queue of
      length two; the reset frees both slots and wakes the first task, and the second sleeps
      on beside a slot that nobody has been woken for. */
  lemma ResetLosesSender<T>(s: State<T>, x: T, priority: Tick)
    requires Fresh(s) && s.queue.length == 2
    ensures var fill := [TaskSend(1, x, ToBack), TaskSend(1, x, ToBack)];
            var r := Run(s, fill + (SenderWaits(2, x, priority) + (SenderWaits(3, x, priority) + [ResetQueue])));
            && r.holder == Nobody && r.queue.toSend == [Item(priority, 3)] && r.wokenSenders == [2]
            && r.queue.length - |r.queue.items| == 2 && !SendersCovered(r)
  {
    var fill := [TaskSend(1, x, ToBack), TaskSend(1, x, ToBack)];
    var second, third := SenderWaits(2, x, priority), SenderWaits(3, x, priority);
    FillTwo(s, x);
    hide Step; hide SenderWaits; hide Run;
    InsertBehind(Item(priority, 2), Item(priority, 3));
    var s1 := Run(s, fill);
    SenderWaitsRun(s1, 2, x, priority);
    var s2 := Run(s1, second);
    assert s2.queue.toSend == [Item(priority, 2)];
    SenderWaitsRun(s2, 3, x, priority);
    var s3 := Run(s2, third);
    assert s3.queue.toSend == [Item(priority, 2), Item(priority, 3)];
    ResetWakesFirst(s3, priority);
    RunSplits(s, fill, second + (third + [ResetQueue]));
    RunSplits(s1, second, third + [ResetQueue]);
    RunSplits(s2, third, [ResetQueue]);
    var reset: Action<T> := ResetQueue;
    RunOne(s3, reset, []);
    RunOne(Step(s3, reset), reset, []);
    assert [reset] + [] == [reset];
  }

  lemma InsertBehind(w: Item<Task>, x: Item<Task>)
    requires w.value == x.value
    ensures Insert([], x) == [x] && Insert([w], x) == [w, x]
  {
    assert [w][1..] == [];
    assert [w] + [x] == [w, x];
  }

  lemma ResetWakesFirst<T>(s: State<T>, priority: Tick)
    requires s.holder == Nobody && s.queue.length == 2 && s.wokenSenders == []
    requires s.queue.toSend == [Item(priority, 2), Item(priority, 3)]
    ensures var r := Step(s, ResetQueue);
            && r.holder == Nobody && r.queue.toSend == [Item(priority, 3)] && r.wokenSenders == [2]
            && r.queue.items == [] && r.queue.length == 2 && r.queue.rxLock == UNLOCKED
  {
    assert s.queue.toSend[..1] == [Item(priority, 2)];
    assert Owners([Item(priority, 2)]) == [2];
  }

  // ------------------------------------------------------------------ what comes out

  /** What a transfer does to a deque. */
  function Applied<T>(items: seq<T>, transfer: Transfer<T>): seq<T> {
    match transfer
    case In(x, position) => Stored(items, x, position)
    case Out(x) => if items == [] then [] else items[1..]
    case Cleared => []
  }

  /** The deque has room for the item that goes in, unless it overwrites, and the item that
      comes out is the front one. */
  ghost predicate Allowed<T>(items: seq<T>, transfer: Transfer<T>, length: nat) {
    match transfer
    case In(x, position) => |items| < length || position == Overwrite
    case Out(x) => items != [] && items[0] == x
    case Cleared => true
  }

  /** The deque that the transfers leave, one after the other. */
  function Replay<T>(history: seq<Transfer<T>>): seq<T> {
    if history == [] then [] else Applied(Replay(history[..|history| - 1]), history[|history| - 1])
  }

  ghost predicate Legitimate<T>(history: seq<Transfer<T>>, length: nat) {
    history == [] ||
      (var rest := history[..|history| - 1];
       Legitimate(rest, length) && Allowed(Replay(rest), history[|history| - 1], length))
  }

  lemma HistoryGrows<T>(history: seq<Transfer<T>>, transfer: Transfer<T>, length: nat)
    ensures Replay(history + [transfer]) == Applied(Replay(history), transfer)
    ensures Legitimate(history, length) && Allowed(Replay(history), transfer, length) ==>
              Legitimate(history + [transfer], length)
  {
    hide Applied; hide Allowed;
    assert (history + [transfer])[..|history|] == history;
  }

  ghost predicate HistoryOk<T>(s: State<T>) {
    Replay(s.history) == s.queue.items && Legitimate(s.history, s.queue.length)
  }

  /** The transfer that an action is, if it succeeds. */
  ghost function TransferOf<T>(s: State<T>, a: Action<T>): seq<Transfer<T>> {
    if !Enabled(s, a) then []
    else match a
      case TaskSend(_, x, position) => if CanSend(s.queue, position) then [In(x, position)] else []
      case IsrSend(x, position) => if CanSend(s.queue, position) then [In(x, position)] else []
      case TaskReceive(_) => if s.queue.items != [] then [Out(s.queue.items[0])] else []
      case IsrReceive => if s.queue.items != [] then [Out(s.queue.items[0])] else []
      case ResetQueue => [Cleared]
      case _ => []
  }

  lemma StepTransfers<T>(s: State<T>, a: Action<T>)
    ensures var r, ts := Step(s, a), TransferOf(s, a);
            && r.history == s.history + ts && r.queue.length == s.queue.length && |ts| <= 1
            && r.queue.items == (if ts == [] then s.queue.items else Applied(s.queue.items, ts[0]))
            && (ts != [] ==> Allowed(s.queue.items, ts[0], s.queue.length))
  {
    hide Owners; hide Insert; hide Stored; hide Without; hide Retry;
    assert s.history + [] == s.history;
  }

  lemma StepReplays<T>(s: State<T>, a: Action<T>)
    requires HistoryOk(s)
    ensures HistoryOk(Step(s, a))
  {
    StepTransfers(s, a);
    var ts := TransferOf(s, a);
    hide Step; hide Replay; hide Legitimate; hide Applied; hide Allowed; hide TransferOf;
    if ts == [] {
      assert s.history + [] == s.history;
    } else {
      assert ts == [ts[0]];
      HistoryGrows(s.history, ts[0], s.queue.length);
    }
  }

  /** Over every run, with sends to the back, to the front and overwriting, receives and
      resets of tasks and interrupts in any interleaving, the queue holds what a bounded
      deque would hold after the same transfers, and every item handed out was at its
      front. */
  lemma {:induction false} RunReplays<T>(s: State<T>, actions: seq<Action<T>>)
    requires HistoryOk(s)
    ensures HistoryOk(Run(s, actions))
    decreases |actions|
  {
    if actions != [] {
      hide Step; hide HistoryOk;
      StepReplays(s, actions[0]);
      RunReplays(Step(s, actions[0]), actions[1..]);
    }
  }

  function Ins<T>(history: seq<Transfer<T>>): seq<T> {
    if history == [] then []
    else Ins(history[..|history| - 1]) + (if history[|history| - 1].In? then [history[|history| - 1].x] else [])
  }

  function Outs<T>(history: seq<Transfer<T>>): seq<T> {
    if history == [] then []
    else Outs(history[..|history| - 1]) + (if history[|history| - 1].Out? then [history[|history| - 1].x] else [])
  }

  ghost predicate BackOnly<T>(history: seq<Transfer<T>>) {
    forall transfer :: transfer in history ==> !transfer.Cleared? && (transfer.In? ==> transfer.position == ToBack)
  }

  /** An item joins at the back, or moves on from the front. */
  lemma MovesOn<T>(outs: seq<T>, items: seq<T>, x: T)
    ensures outs + (items + [x]) == outs + items + [x]
    ensures items != [] ==> outs + [items[0]] + items[1..] == outs + items
  {
  }

  lemma {:induction false} BackOnlyIsFifo<T>(history: seq<Transfer<T>>, length: nat)
    requires Legitimate(history, length) && BackOnly(history)
    ensures Ins(history) == Outs(history) + Replay(history)
  {
    if history != [] {
      var rest, last := history[..|history| - 1], history[|history| - 1];
      assert last in history && BackOnly(rest);
      BackOnlyIsFifo(rest, length);
      var ins, outs, before := Ins(rest), Outs(rest), Replay(rest);
      assert Replay(history) == Applied(before, last) && Allowed(before, last, length);
      assert Ins(history) == ins + if last.In? then [last.x] else [];
      assert Outs(history) == outs + if last.Out? then [last.x] else [];
      hide Replay; hide Ins; hide Outs; hide Legitimate; hide BackOnly;
      MovesOn(outs, before, last.x);
      assert ins + [] == ins && outs + [] == outs;
    }
  }

  ghost predicate InOrder<T>(a: Action<T>) {
    && !a.ResetQueue?
    && (a.TaskSend? ==> a.position == ToBack)
    && (a.IsrSend? ==> a.position == ToBack)
  }

  lemma {:induction false} RunBackOnly<T>(s: State<T>, actions: seq<Action<T>>)
    requires BackOnly(s.history) && forall a :: a in actions ==> InOrder(a)
    ensures BackOnly(Run(s, actions).history)
    decreases |actions|
  {
    if actions != [] {
      assert InOrder(actions[0]);
      StepTransfers(s, actions[0]);
      hide Step;
      RunBackOnly(Step(s, actions[0]), actions[1..]);
    }
  }

  /** In particular, sent to the back only and without a reset, items come out in the order
      in which tasks and interrupts put them in: none lost, none twice, none out of thin
      air. */
  lemma RunFifo<T>(s: State<T>, actions: seq<Action<T>>)
    requires HistoryOk(s) && BackOnly(s.history) && forall a :: a in actions ==> InOrder(a)
    ensures var r := Run(s, actions); Ins(r.history) == Outs(r.history) + r.queue.items
  {
    var r := Run(s, actions);
    RunReplays(s, actions);
    RunBackOnly(s, actions);
    BackOnlyIsFifo(r.history, r.queue.length);
    hide Run; hide Ins; hide Outs; hide Replay; hide Legitimate; hide BackOnly;
  }
}
