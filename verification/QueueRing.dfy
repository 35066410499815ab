/** The queue of `queue.c` as a ring of slots, updated in place, proved to be the bounded
    double-ended queue of `QueueSpec`.

    A slot stands for `uxItemSize` bytes: `readFrom` and `writeTo` are the byte pointers
    `pcReadFrom` and `pcWriteTo` divided by the item size. */
module QueueRing {
  import QueueSpec
  import opened Ring

  class Queue<T(0)> {
    const storage: array<T>
    var writeTo: nat
    var readFrom: nat
    var messagesWaiting: nat
    var rxLock: int
    var txLock: int
    var toSend: QueueSpec.Waiters
    var toReceive: QueueSpec.Waiters

    ghost predicate Valid()
      reads this
    {
      && 0 < storage.Length
      && readFrom < storage.Length && messagesWaiting <= storage.Length
      && writeTo == Slot(Slot(readFrom + 1, storage.Length) + messagesWaiting, storage.Length)
    }

    ghost function Contents(): (c: seq<T>)
      requires Valid()
      ensures |c| == messagesWaiting
      reads this, storage
    {
      Window(storage[..], Slot(readFrom + 1, storage.Length), messagesWaiting)
    }

    ghost function State(): QueueSpec.Queue<T>
      requires Valid()
      reads this, storage
    {
      QueueSpec.Queue(Contents(), storage.Length, rxLock, txLock, toSend, toReceive)
    }

    /** The write pointer is where the read pointer and the count say it is. */
    lemma PointersAgree()
      requires Valid()
      ensures (readFrom + 1 + messagesWaiting) % storage.Length == writeTo
    {
      SlotIsModulo(readFrom + 1 + messagesWaiting, storage.Length);
    }

    constructor (length: nat)
      requires 0 < length
      ensures Valid() && fresh(storage)
      ensures State() == QueueSpec.Queue([], length, QueueSpec.UNLOCKED, QueueSpec.UNLOCKED, [], [])
    {
      storage := new T[length];
      messagesWaiting, writeTo, readFrom := 0, 0, length - 1;
      rxLock, txLock := QueueSpec.UNLOCKED, QueueSpec.UNLOCKED;
      toSend, toReceive := [], [];
    }

    /** `prvCopyDataToQueue` */
    method CopyDataToQueue(x: T, position: QueueSpec.Position)
      requires Valid()
      requires if position == QueueSpec.Overwrite then storage.Length == 1 else messagesWaiting < storage.Length
      modifies this`writeTo, this`readFrom, this`messagesWaiting, storage
      ensures Valid() && Contents() == QueueSpec.Stored(old(Contents()), x, position)
    {
      var waiting := messagesWaiting;
      if position == QueueSpec.ToBack {
        CopyToBack(x);
      } else {
        CopyToFront(x);
        if position == QueueSpec.Overwrite {
          if waiting > 0 {
            waiting := waiting - 1;
          }
        }
      }
      messagesWaiting := waiting + 1;
    }

    method CopyToBack(x: T)
      requires Valid() && messagesWaiting < storage.Length
      modifies this`writeTo, storage
      ensures writeTo == Slot(old(writeTo) + 1, storage.Length)
      ensures Window(storage[..], Slot(readFrom + 1, storage.Length), messagesWaiting + 1) == old(Contents()) + [x]
    {
      PushBack(storage[..], Slot(readFrom + 1, storage.Length), messagesWaiting, x);
      storage[writeTo] := x;
      assert storage[..] == old(storage[..])[writeTo := x];
      writeTo := writeTo + 1;
      if writeTo >= storage.Length {
        writeTo := 0;
      }
    }

    method CopyToFront(x: T)
      requires Valid()
      modifies this`readFrom, storage
      ensures readFrom == if old(readFrom) == 0 then storage.Length - 1 else old(readFrom) - 1
      ensures storage[..] == old(storage[..])[old(readFrom) := x]
      ensures messagesWaiting < storage.Length ==>
                Window(storage[..], old(readFrom), messagesWaiting + 1) == [x] + old(Contents())
    {
      if messagesWaiting < storage.Length {
        PushFront(storage[..], Slot(readFrom + 1, storage.Length), messagesWaiting, x);
      }
      storage[readFrom] := x;
      assert storage[..] == old(storage[..])[readFrom := x];
      if readFrom == 0 {
        readFrom := storage.Length - 1;
      } else {
        readFrom := readFrom - 1;
      }
    }

    /** `prvCopyDataFromQueue`; the caller adjusts the count. */
    method CopyDataFromQueue() returns (x: T)
      requires Valid() && messagesWaiting > 0
      modifies this`readFrom
      ensures readFrom == Slot(old(readFrom) + 1, storage.Length)
      ensures x == old(Contents())[0]
    {
      readFrom := readFrom + 1;
      if readFrom >= storage.Length {
        readFrom := 0;
      }
      x := storage[readFrom];
    }

    // ------------------------------------------------------------ the critical sections

    /** `xTaskRemoveFromEventList` on the receivers, if there are any. */
    method WakeReceiver() returns (woken: seq<QueueSpec.Task>)
      requires Valid()
      modifies this`toReceive
      ensures QueueSpec.Effect(State(), true, [], woken) == QueueSpec.WakeReceivers(old(State()), 1)
    {
      woken := [];
      if toReceive != [] {
        woken := [toReceive[0].owner];
        toReceive := toReceive[1..];
      }
    }

    method WakeSender() returns (woken: seq<QueueSpec.Task>)
      requires Valid()
      modifies this`toSend
      ensures QueueSpec.Effect(State(), true, woken, []) == QueueSpec.WakeSenders(old(State()), 1)
    {
      woken := [];
      if toSend != [] {
        woken := [toSend[0].owner];
        toSend := toSend[1..];
      }
    }

    method Send(x: T, position: QueueSpec.Position) returns (done: bool, woken: seq<QueueSpec.Task>)
      requires Valid() && (position == QueueSpec.Overwrite ==> storage.Length == 1)
      modifies this, storage
      ensures Valid()
      ensures QueueSpec.Effect(State(), done, [], woken) == QueueSpec.Send(old(State()), x, position)
    {
      hide Slot; hide Window; hide QueueSpec.Stored; hide QueueSpec.WakeReceivers;
      if messagesWaiting < storage.Length || position == QueueSpec.Overwrite {
        CopyDataToQueue(x, position);
        assert State() == old(State()).(items := QueueSpec.Stored(old(Contents()), x, position));
        woken := WakeReceiver();
        done := true;
      } else {
        done, woken := false, [];
      }
    }

    method SendFromISR(x: T, position: QueueSpec.Position) returns (done: bool, woken: seq<QueueSpec.Task>)
      requires Valid() && (position == QueueSpec.Overwrite ==> storage.Length == 1)
      requires txLock != QueueSpec.INT8_MAX
      modifies this, storage
      ensures Valid()
      ensures QueueSpec.Effect(State(), done, [], woken) == QueueSpec.SendFromISR(old(State()), x, position)
    {
      hide Slot; hide Window; hide QueueSpec.Stored; hide QueueSpec.WakeReceivers;
      done, woken := false, [];
      if messagesWaiting < storage.Length || position == QueueSpec.Overwrite {
        CopyDataToQueue(x, position);
        assert State() == old(State()).(items := QueueSpec.Stored(old(Contents()), x, position));
        if txLock == QueueSpec.UNLOCKED {
          woken := WakeReceiver();
        } else {
          txLock := txLock + 1;
        }
        done := true;
      }
    }

    /** Takes the front item out. */
    method Take() returns (x: T)
      requires Valid() && messagesWaiting > 0
      modifies this`readFrom, this`messagesWaiting
      ensures Valid()
      ensures x == old(Contents())[0] && Contents() == old(Contents())[1..]
    {
      PopFront(storage[..], Slot(readFrom + 1, storage.Length), messagesWaiting);
      x := CopyDataFromQueue();
      messagesWaiting := messagesWaiting - 1;
    }

    method Receive(default: T) returns (x: T, done: bool, woken: seq<QueueSpec.Task>)
      requires Valid()
      modifies this
      ensures Valid()
      ensures QueueSpec.Effect(State(), done, woken, []) == QueueSpec.Receive(old(State()))
      ensures x == if done then old(Contents())[0] else default
    {
      x, done, woken := default, false, [];
      if messagesWaiting > 0 {
        x := Take();
        woken := WakeSender();
        done := true;
      }
    }

    method ReceiveFromISR(default: T) returns (x: T, done: bool, woken: seq<QueueSpec.Task>)
      requires Valid() && rxLock != QueueSpec.INT8_MAX
      modifies this
      ensures Valid()
      ensures QueueSpec.Effect(State(), done, woken, []) == QueueSpec.ReceiveFromISR(old(State()))
      ensures x == if done then old(Contents())[0] else default
    {
      x, done, woken := default, false, [];
      if messagesWaiting > 0 {
        x := Take();
        if rxLock == QueueSpec.UNLOCKED {
          woken := WakeSender();
        } else {
          rxLock := rxLock + 1;
        }
        done := true;
      }
    }

    /** Reads the front item and puts the read pointer back. */
    method Peek(default: T) returns (x: T, done: bool, woken: seq<QueueSpec.Task>)
      requires Valid()
      modifies this
      ensures Valid()
      ensures QueueSpec.Effect(State(), done, [], woken) == QueueSpec.Peek(old(State()))
      ensures x == if done then old(Contents())[0] else default
    {
      x, done, woken := default, false, [];
      if messagesWaiting > 0 {
        var original := readFrom;
        x := CopyDataFromQueue();
        readFrom := original;
        woken := WakeReceiver();
        done := true;
      }
    }

    method Lock()
      requires Valid()
      modifies this`rxLock, this`txLock
      ensures State() == QueueSpec.Lock(old(State()))
    {
      if rxLock == QueueSpec.UNLOCKED {
        rxLock := QueueSpec.LOCKED_UNMODIFIED;
      }
      if txLock == QueueSpec.UNLOCKED {
        txLock := QueueSpec.LOCKED_UNMODIFIED;
      }
    }

    /** The first critical section of `prvUnlockQueue`. */
    method UnlockTx() returns (woken: seq<QueueSpec.Task>)
      requires Valid()
      modifies this`toReceive, this`txLock
      ensures QueueSpec.Effect(State(), true, [], woken) == QueueSpec.UnlockTx(old(State()))
    {
      var left := txLock;
      ghost var k := 0;
      woken := [];
      while left > QueueSpec.LOCKED_UNMODIFIED
        invariant 0 <= k <= |old(toReceive)| && k + left == txLock == old(txLock)
        invariant left >= 0 || k == 0
        invariant toReceive == old(toReceive)[k..] && woken == QueueSpec.Owners(old(toReceive)[..k])
        decreases left
      {
        if toReceive == [] {
          break;
        }
        assert old(toReceive)[..k + 1] == old(toReceive)[..k] + [toReceive[0]];
        woken := woken + [toReceive[0].owner];
        toReceive := toReceive[1..];
        left, k := left - 1, k + 1;
      }
      assert k == |old(toReceive)| <= txLock || k == txLock < |old(toReceive)| || (k == 0 && txLock <= 0);
      txLock := QueueSpec.UNLOCKED;
    }

    /** The second critical section of `prvUnlockQueue`. */
    method UnlockRx() returns (woken: seq<QueueSpec.Task>)
      requires Valid()
      modifies this`toSend, this`rxLock
      ensures QueueSpec.Effect(State(), true, woken, []) == QueueSpec.UnlockRx(old(State()))
    {
      var left := rxLock;
      ghost var k := 0;
      woken := [];
      while left > QueueSpec.LOCKED_UNMODIFIED
        invariant 0 <= k <= |old(toSend)| && k + left == rxLock == old(rxLock)
        invariant left >= 0 || k == 0
        invariant toSend == old(toSend)[k..] && woken == QueueSpec.Owners(old(toSend)[..k])
        decreases left
      {
        if toSend == [] {
          break;
        }
        assert old(toSend)[..k + 1] == old(toSend)[..k] + [toSend[0]];
        woken := woken + [toSend[0].owner];
        toSend := toSend[1..];
        left, k := left - 1, k + 1;
      }
      assert k == |old(toSend)| <= rxLock || k == rxLock < |old(toSend)| || (k == 0 && rxLock <= 0);
      rxLock := QueueSpec.UNLOCKED;
    }

    /** `xQueueGenericReset` of a queue in use. */
    method Reset() returns (woken: seq<QueueSpec.Task>)
      requires Valid()
      modifies this
      ensures Valid()
      ensures QueueSpec.Effect(State(), true, woken, []) == QueueSpec.Reset(old(State()))
    {
      messagesWaiting, writeTo, readFrom := 0, 0, storage.Length - 1;
      rxLock, txLock := QueueSpec.UNLOCKED, QueueSpec.UNLOCKED;
      woken := WakeSender();
    }
  }
}
