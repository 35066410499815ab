/** A queue of `queue.c` as a value: what it holds, its lock counters and the tasks
    waiting on it, with one function per critical section. */
module QueueSpec {
  import opened ListSpec

  type Task = nat

  /** Waiting tasks, by priority: a list item's value is `configMAX_PRIORITIES` minus the
      task's priority (`vTaskPlaceOnEventList`). */
  type Waiters = seq<Item<Task>>

  datatype Position = ToBack | ToFront | Overwrite

  datatype Queue<T> = Queue(
    items: seq<T>,
    length: nat,
    rxLock: int,
    txLock: int,
    toSend: Waiters,
    toReceive: Waiters)

  /** `queueUNLOCKED`, `queueLOCKED_UNMODIFIED` and `queueINT8_MAX` */
  const UNLOCKED: int := -1
  const LOCKED_UNMODIFIED: int := 0
  const INT8_MAX: int := 127

  /** The tasks that a critical section takes off the waiting lists; `done` is whether the
      operation succeeded. */
  datatype Effect<T> = Effect(queue: Queue<T>, done: bool, wokenSenders: seq<Task>, wokenReceivers: seq<Task>)

  predicate CanSend<T>(q: Queue<T>, position: Position) {
    |q.items| < q.length || position == Overwrite
  }

  /** `prvCopyDataToQueue`: overwriting is for queues of length one. */
  function Stored<T>(items: seq<T>, x: T, position: Position): (r: seq<T>)
    ensures |r| == if position == Overwrite then 1 else |items| + 1
  {
    match position
    case ToBack => items + [x]
    case ToFront => [x] + items
    case Overwrite => [x]
  }

  function Unchanged<T>(q: Queue<T>): Effect<T> {
    Effect(q, false, [], [])
  }

  /** Takes up to n receivers off their list, first come first woken. */
  function WakeReceivers<T>(q: Queue<T>, n: nat): (e: Effect<T>)
    ensures e.queue.toReceive != [] ==> |e.wokenReceivers| == n
    ensures |e.wokenReceivers| <= n && |e.wokenReceivers| + |e.queue.toReceive| == |q.toReceive|
  {
    var k := if n < |q.toReceive| then n else |q.toReceive|;
    Effect(q.(toReceive := q.toReceive[k..]), true, [], Owners(q.toReceive[..k]))
  }

  function WakeSenders<T>(q: Queue<T>, n: nat): (e: Effect<T>)
    ensures e.queue.toSend != [] ==> |e.wokenSenders| == n
    ensures |e.wokenSenders| <= n && |e.wokenSenders| + |e.queue.toSend| == |q.toSend|
  {
    var k := if n < |q.toSend| then n else |q.toSend|;
    Effect(q.(toSend := q.toSend[k..]), true, Owners(q.toSend[..k]), [])
  }

  function Owners(w: Waiters): (r: seq<Task>)
    ensures |r| == |w|
  {
    seq(|w|, i requires 0 <= i < |w| => w[i].owner)
  }

  // --------------------------------------------------------- the critical sections

  function Send<T>(q: Queue<T>, x: T, position: Position): Effect<T> {
    if !CanSend(q, position) then Unchanged(q)
    else WakeReceivers(q.(items := Stored(q.items, x, position)), 1)
  }

  function SendFromISR<T>(q: Queue<T>, x: T, position: Position): Effect<T> {
    if !CanSend(q, position) then Unchanged(q)
    else
      var q1 := q.(items := Stored(q.items, x, position));
      if q.txLock == UNLOCKED then WakeReceivers(q1, 1)
      else Effect(q1.(txLock := q.txLock + 1), true, [], [])
  }

  function Receive<T>(q: Queue<T>): Effect<T> {
    if q.items == [] then Unchanged(q) else WakeSenders(q.(items := q.items[1..]), 1)
  }

  function ReceiveFromISR<T>(q: Queue<T>): Effect<T> {
    if q.items == [] then Unchanged(q)
    else
      var q1 := q.(items := q.items[1..]);
      if q.rxLock == UNLOCKED then WakeSenders(q1, 1)
      else Effect(q1.(rxLock := q.rxLock + 1), true, [], [])
  }

  /** A peek leaves the item for the next receiver, and so wakes it. */
  function Peek<T>(q: Queue<T>): Effect<T> {
    if q.items == [] then Unchanged(q) else WakeReceivers(q, 1)
  }

  function Lock<T>(q: Queue<T>): Queue<T> {
    q.(rxLock := if q.rxLock == UNLOCKED then LOCKED_UNMODIFIED else q.rxLock,
       txLock := if q.txLock == UNLOCKED then LOCKED_UNMODIFIED else q.txLock)
  }

  /** The two critical sections of `prvUnlockQueue`. */
  function UnlockTx<T>(q: Queue<T>): Effect<T> {
    WakeReceivers(q.(txLock := UNLOCKED), if q.txLock > 0 then q.txLock else 0)
  }

  function UnlockRx<T>(q: Queue<T>): Effect<T> {
    WakeSenders(q.(rxLock := UNLOCKED), if q.rxLock > 0 then q.rxLock else 0)
  }

  function WaitToReceive<T>(q: Queue<T>, t: Item<Task>): Queue<T> {
    q.(toReceive := Insert(q.toReceive, t))
  }

  function WaitToSend<T>(q: Queue<T>, t: Item<Task>): Queue<T> {
    q.(toSend := Insert(q.toSend, t))
  }

  /** `xQueueGenericReset` of a queue in use. */
  function Reset<T>(q: Queue<T>): Effect<T> {
    WakeSenders(q.(items := [], rxLock := UNLOCKED, txLock := UNLOCKED), 1)
  }
}
