/** What the I2C machine keeps for every stream of events that a bus can produce. */
module I2cProperties {
  import opened I2cSpec
  import opened Options
  import opened Sequences

  // ------------------------------------------------------------------ transmitting

  /** The three bytes a message is on the wire. */
  function Frame(m: Msg): seq<Byte> {
    [m.destination / 2, m.source * 2 % 256, m.data]
  }

  ghost function Messages(ds: seq<Departure>): seq<Msg> {
    seq(|ds|, i requires 0 <= i < |ds| => ds[i].msg)
  }

  /** How the bus behaves towards a master: it answers a start bit once, and only behind that
      answer is the master asked for bytes, or not acknowledged, until the next start or stop
      bit.  Of the errors only those the handler knows come up. */
  ghost predicate MasterContract(s: State, e: Event) {
    match e
    case OnEvent(f, _, _) =>
      && (BranchOf(f) == Started ==> s.phase == StartSent)
      && (BranchOf(f) == MaySend ==> s.phase == AddressSent)
    case OnError(f, _) =>
      && (f.af ==> s.phase == AddressSent)
      && (f.af || f.arlo || f.berr)
    case TaskSends(_, _) => true
    case TaskTakes => true
  }

  /** A departed message was written to the end, or not acknowledged on the way. */
  ghost predicate Proper(d: Departure) {
    if d.nacked then 0 < |d.attempt| && d.attempt <= Frame(d.msg) else d.attempt == Frame(d.msg)
  }

  // ---------------------------------------------------------------- reading the wire

  /** A start bit has gone out, and no stop bit since. */
  function Open(wire: seq<Output>): bool
    decreases |wire|
  {
    wire != [] &&
      match wire[|wire| - 1]
      case StartBit => true
      case StopBit => false
      case Address(_) => Open(wire[..|wire| - 1])
      case Data(_) => Open(wire[..|wire| - 1])
  }

  function Stops(wire: seq<Output>): nat
    decreases |wire|
  {
    if wire == [] then 0
    else Stops(wire[..|wire| - 1]) + if wire[|wire| - 1] == StopBit then 1 else 0
  }

  /** The output `o` fits behind `wire`: start bits and bytes are about the message that is
      next to leave, every byte continues the message's frame from where the last start bit
      began it, and a stop bit ends the attempt that its message left with. */
  ghost predicate Fits(wire: seq<Output>, o: Output, accepted: seq<Msg>, departed: seq<Departure>) {
    var k := Stops(wire);
    match o
    case StartBit => k < |accepted|
    case StopBit => Open(wire) && k < |departed| && departed[k].attempt == Attempt(wire)
    case Address(b) => Open(wire) && k < |accepted| && Attempt(wire) + [b] <= Frame(accepted[k])
    case Data(b) => Open(wire) && k < |accepted| && Attempt(wire) + [b] <= Frame(accepted[k])
  }

  ghost predicate WireOk(wire: seq<Output>, accepted: seq<Msg>, departed: seq<Departure>)
    decreases |wire|
  {
    wire == [] ||
      (var rest := wire[..|wire| - 1];
       Fits(rest, wire[|wire| - 1], accepted, departed) && WireOk(rest, accepted, departed))
  }

  lemma {:induction false} WireStaysOk(wire: seq<Output>, accepted: seq<Msg>, departed: seq<Departure>,
                                       more: seq<Msg>, left: seq<Departure>)
    requires WireOk(wire, accepted, departed)
    ensures WireOk(wire, accepted + more, departed + left)
    decreases |wire|
  {
    if wire != [] {
      hide Frame; hide Attempt; hide Open; hide Stops;
      WireStaysOk(wire[..|wire| - 1], accepted, departed, more, left);
    }
  }

  lemma WireGrows(wire: seq<Output>, o: Output, accepted: seq<Msg>, departed: seq<Departure>)
    ensures WireOk(wire, accepted, departed) && Fits(wire, o, accepted, departed) ==>
              WireOk(wire + [o], accepted, departed)
    ensures Stops(wire + [o]) == Stops(wire) + if o == StopBit then 1 else 0
    ensures o == StartBit ==> Attempt(wire + [o]) == [] && Open(wire + [o])
    ensures o == StopBit ==> Attempt(wire + [o]) == [] && !Open(wire + [o])
    ensures o.Address? || o.Data? ==> Attempt(wire + [o]) == Attempt(wire) + [o.b] && Open(wire + [o]) == Open(wire)
  {
    assert (wire + [o])[..|wire|] == wire;
    hide Fits;
  }

  /** While a start bit is open, the bytes behind it are the first bytes of the message whose
      turn it is. */
  ghost predicate InTurn(wire: seq<Output>, accepted: seq<Msg>) {
    Open(wire) ==> Stops(wire) < |accepted| && Attempt(wire) <= Frame(accepted[Stops(wire)])
  }

  lemma FitsInTurn(wire: seq<Output>, o: Output, accepted: seq<Msg>, departed: seq<Departure>)
    requires Fits(wire, o, accepted, departed)
    ensures InTurn(wire + [o], accepted)
  {
    WireGrows(wire, o, accepted, departed);
    hide Frame; hide Stops; hide Attempt; hide Open; hide WireOk;
  }

  lemma {:induction false} PrefixFits(wire: seq<Output>, accepted: seq<Msg>, departed: seq<Departure>, n: nat)
    requires WireOk(wire, accepted, departed) && n < |wire|
    ensures Fits(wire[..n], wire[n], accepted, departed)
    decreases |wire|
  {
    hide Fits;
    var rest := wire[..|wire| - 1];
    if n < |wire| - 1 {
      PrefixFits(rest, accepted, departed, n);
      assert rest[..n] == wire[..n] && rest[n] == wire[n];
    }
  }

  /** What the wire shows at every moment: each attempt sends its message from the first byte
      on, and no byte goes out without a start bit. */
  lemma EveryStartSendsFromTheFirstByte(wire: seq<Output>, accepted: seq<Msg>, departed: seq<Departure>, n: nat)
    requires WireOk(wire, accepted, departed) && n <= |wire|
    ensures InTurn(wire[..n], accepted)
    ensures n < |wire| && (wire[n].Address? || wire[n].Data?) ==> Open(wire[..n])
  {
    if n > 0 {
      PrefixFits(wire, accepted, departed, n - 1);
      FitsInTurn(wire[..n - 1], wire[n - 1], accepted, departed);
      assert wire[..n] == wire[..n - 1] + [wire[n - 1]];
    }
    if n < |wire| {
      PrefixFits(wire, accepted, departed, n);
    }
    hide InTurn; hide Open; hide WireOk; hide Stops; hide Attempt; hide Frame;
  }

  // ------------------------------------------------------------------- the transmitter

  /** Where the message in hand stands on the wire. */
  ghost predicate PhaseOk(s: State) {
    && (s.tx.occupied ==> s.txQueue != [] && s.tx.slot == Some(s.txQueue[0]))
    && (!s.tx.occupied ==> s.tx == FREE && s.phase == NoStart)
    && (s.phase == NoStart <==> !Open(s.wire))
    && (s.phase == StartSent ==> Attempt(s.wire) == [])
    && (s.phase == AddressSent ==> 1 <= s.tx.bytesProcessed <= 3
                                   && Attempt(s.wire) == Frame(s.txQueue[0])[..s.tx.bytesProcessed])
  }

  ghost predicate TxInv(s: State) {
    && s.accepted == Messages(s.departed) + s.txQueue
    && PhaseOk(s)
    && Stops(s.wire) == |s.departed| && WireOk(s.wire, s.accepted, s.departed)
    && (forall d :: d in s.departed ==> Proper(d))
  }

  lemma NextToLeave(s: State)
    requires TxInv(s) && s.txQueue != []
    ensures Stops(s.wire) < |s.accepted| && s.accepted[Stops(s.wire)] == s.txQueue[0]
  {
    hide PhaseOk; hide Stops; hide WireOk; hide Proper;
  }

  lemma StartBitKeepsTx(s: State)
    requires TxInv(s) && s.tx.occupied
    ensures TxInv(Emit(s.(phase := StartSent), StartBit))
  {
    NextToLeave(s);
    WireGrows(s.wire, StartBit, s.accepted, s.departed);
    hide Attempt; hide Open; hide Stops; hide WireOk; hide Proper; hide Frame;
  }

  lemma ResumeKeepsTx(s: State, busy: bool)
    requires TxInv(s)
    ensures TxInv(ResumeTx(s, busy)) && TxInv(ResumeTxForce(s))
  {
    if s.tx.occupied {
      StartBitKeepsTx(s);
    }
    hide TxInv;
  }

  lemma StartKeepsTx(s: State, busy: bool)
    requires TxInv(s)
    ensures TxInv(StartTx(s, busy)) && TxInv(StartTxFromISR(s, busy))
  {
    hide Attempt; hide Open; hide Stops; hide WireOk; hide Proper; hide Frame; hide Messages;
    ResumeKeepsTx(s, busy);
    if !s.tx.occupied && s.txQueue != [] {
      ResumeKeepsTx(s.(tx := Block(true, Some(s.txQueue[0]), 0)), busy);
    }
    hide ResumeTx;
  }

  ghost function Left(s: State, nacked: bool): Departure
    requires s.txQueue != []
  {
    Departure(s.txQueue[0], nacked, Attempt(s.wire))
  }

  /** A message leaves from the head of the queue, with its last attempt on record. */
  lemma FinishKeepsTx(s: State, nacked: bool, busy: bool)
    requires TxInv(s) && s.phase == AddressSent && (!nacked ==> s.tx.bytesProcessed == 3)
    ensures TxInv(FinishTx(s, nacked, busy))
    ensures FinishTx(s, nacked, busy).departed == s.departed + [Left(s, nacked)]
  {
    var d := Left(s, nacked);
    var s1 := Emit(s.(txQueue := s.txQueue[1..], tx := FREE, phase := NoStart, departed := s.departed + [d]), StopBit);
    StopKeepsTx(s, nacked);
    assert FinishTx(s, nacked, busy) == StartTx(s1, busy);
    hide TxInv; hide FinishTx; hide Left;
    StartKeepsTx(s1, busy);
    StartKeepsDeparted(s1, busy);
    hide StartTx;
  }

  lemma OneMoreLeft(departed: seq<Departure>, d: Departure)
    ensures Messages(departed + [d]) == Messages(departed) + [d.msg]
    requires forall e :: e in departed ==> Proper(e)
    ensures Proper(d) ==> forall e :: e in departed + [d] ==> Proper(e)
  {
    hide Proper;
  }

  lemma AttemptIsProper(s: State, nacked: bool)
    requires TxInv(s) && s.phase == AddressSent && (!nacked ==> s.tx.bytesProcessed == 3)
    ensures s.txQueue != [] && Proper(Left(s, nacked))
  {
    hide Attempt; hide Open; hide Stops; hide WireOk; hide Messages;
  }

  /** With the stop bit the message in hand leaves. */
  lemma StopKeepsTx(s: State, nacked: bool)
    requires TxInv(s) && s.phase == AddressSent && (!nacked ==> s.tx.bytesProcessed == 3)
    ensures s.txQueue != []
    ensures TxInv(Emit(s.(txQueue := s.txQueue[1..], tx := FREE, phase := NoStart,
                         departed := s.departed + [Left(s, nacked)]), StopBit))
  {
    AttemptIsProper(s, nacked);
    var d := Left(s, nacked);
    hide Attempt; hide Open; hide Stops; hide WireOk; hide Proper; hide Frame;
    OneMoreLeft(s.departed, d);
    HeadAndTail(s.txQueue);
    Join(Messages(s.departed), [s.txQueue[0]], s.txQueue[1..]);
    hide Messages;
    Nothing(s.accepted);
    assert Fits(s.wire, StopBit, s.accepted, s.departed + [d]);
    hide Fits;
    WireStaysOk(s.wire, s.accepted, s.departed, [], [d]);
    WireGrows(s.wire, StopBit, s.accepted, s.departed + [d]);
  }

  lemma StartKeepsDeparted(s: State, busy: bool)
    ensures StartTx(s, busy).departed == s.departed
  {
  }

  lemma NextOf(f: seq<Byte>, n: nat)
    requires n < |f|
    ensures f[..n + 1] == f[..n] + [f[n]] && f[..n + 1] <= f
  {
  }

  /** The next byte of the message in hand continues the attempt. */
  lemma NextByteFits(s: State, o: Output, n: nat)
    requires TxInv(s) && s.tx.occupied && n < 3 && (o.Address? || o.Data?) && o.b == Frame(s.txQueue[0])[n]
    requires s.phase != NoStart && (if s.phase == StartSent then n == 0 else n == s.tx.bytesProcessed)
    ensures Fits(s.wire, o, s.accepted, s.departed) && Attempt(s.wire) + [o.b] == Frame(s.txQueue[0])[..n + 1]
  {
    NextToLeave(s);
    var f := Frame(s.txQueue[0]);
    assert Attempt(s.wire) == f[..n] && Open(s.wire);
    hide TxInv; hide Frame; hide Attempt; hide Open; hide Stops;
    NextOf(f, n);
  }

  /** With it, and the counter moved on, the books are kept. */
  lemma ByteKeepsTx(s: State, o: Output, n: nat)
    requires TxInv(s) && s.tx.occupied && n < 3 && (o.Address? || o.Data?) && o.b == Frame(s.txQueue[0])[n]
    requires s.phase != NoStart && (if s.phase == StartSent then n == 0 else n == s.tx.bytesProcessed)
    ensures TxInv(Emit(s.(tx := s.tx.(bytesProcessed := n + 1), phase := AddressSent), o))
  {
    NextByteFits(s, o, n);
    hide Fits; hide Frame; hide Attempt; hide Open; hide Stops; hide WireOk; hide Proper; hide Messages;
    WireGrows(s.wire, o, s.accepted, s.departed);
  }

  lemma SendAddressKeepsTx(s: State)
    requires TxInv(s) && s.phase == StartSent
    ensures TxInv(SendAddress(s))
  {
    hide Attempt; hide Open; hide Stops; hide WireOk; hide Proper; hide Messages;
    ByteKeepsTx(s, Address(s.txQueue[0].destination / 2), 0);
    assert s.tx.slot == Some(s.txQueue[0]);
    hide TxInv;
  }

  lemma SendNextKeepsTx(s: State, busy: bool)
    requires TxInv(s) && s.phase == AddressSent
    ensures TxInv(SendNext(s, busy))
  {
    hide FinishTx; hide Attempt; hide Open; hide Stops; hide WireOk; hide Proper; hide Messages;
    var m, n := s.txQueue[0], s.tx.bytesProcessed;
    assert s.tx.slot == Some(m) && 1 <= n <= 3;
    if n == 3 {
      FinishKeepsTx(s, false, busy);
      hide TxInv;
    } else {
      ByteKeepsTx(s, Data(if n == 1 then m.source * 2 % 256 else m.data), n);
      hide TxInv;
    }
  }

  lemma RxKeepsTx(s: State, b: Byte, busy: bool)
    requires TxInv(s)
    ensures TxInv(BeginRx(s)) && TxInv(ReceiveByte(s, b)) && TxInv(ForwardRx(s, busy))
  {
    hide Attempt; hide Open; hide Stops; hide WireOk; hide Proper; hide Messages; hide Frame;
    if MessageValid(s.rx) {
      var s1 := if s.rx.slot.Some?
                then s.(rxQueue := s.rxQueue + [s.rx.slot.value], published := s.published + [s.rx.slot.value])
                else Fault(s);
      assert TxInv(s1.(rx := FREE));
      StartKeepsTx(s1.(rx := FREE), busy);
      hide StartTxFromISR;
    }
  }

  lemma EnqueueKeepsTx(s: State, m: Msg)
    requires TxInv(s)
    ensures TxInv(Enqueue(s, m))
  {
    if |s.txQueue| < QUEUE_SIZE {
      WireStaysOk(s.wire, s.accepted, s.departed, [m], []);
      assert s.departed + [] == s.departed;
      hide Attempt; hide Open; hide Stops; hide WireOk; hide Proper; hide Messages; hide Frame;
    }
  }

  lemma StepKeepsTx(s: State, e: Event)
    requires TxInv(s) && MasterContract(s, e)
    ensures TxInv(Step(s, e))
  {
    hide SendAddress; hide SendNext; hide FinishTx; hide BeginRx; hide ReceiveByte; hide ForwardRx;
    hide StartTx; hide ResumeTxForce; hide Enqueue; hide Attempt; hide Open; hide Stops; hide WireOk; hide Messages;
    match e
    case OnEvent(f, data, busy) =>
      RxKeepsTx(s, data, busy);
      if s.phase == StartSent {
        SendAddressKeepsTx(s);
      } else if s.phase == AddressSent {
        SendNextKeepsTx(s, busy);
      }
      hide TxInv;
    case OnError(f, busy) =>
      RxKeepsTx(s, 0, busy);
      ResumeKeepsTx(s, busy);
      if f.af {
        FinishKeepsTx(s, true, busy);
      }
      hide TxInv;
    case TaskSends(m, busy) =>
      EnqueueKeepsTx(s, m);
      StartKeepsTx(Enqueue(s, m), busy);
    case TaskTakes =>
  }

  // --------------------------------------------------------------------- receiving

  /** A listener who knows nothing of slots or counters: the bytes of the transaction that
      is open, if any, and the messages of the transactions that were ended. */
  datatype Listener = Listener(open: Option<seq<Byte>>, heard: seq<Msg>)

  function EndTransaction(l: Listener): Listener {
    match l.open
    case None => l
    case Some(bytes) =>
      Listener(None, if |bytes| >= 2 then l.heard + [Msg(MY_ADDRESS, bytes[0], bytes[1])] else l.heard)
  }

  /** A byte outside a transaction is nothing to the listener. */
  function HearByte(l: Listener, b: Byte): Listener {
    match l.open
    case None => l
    case Some(bytes) => l.(open := Some(bytes + [b]))
  }

  predicate EndsReception(f: Flags) {
    !f.af && !f.arlo && f.berr && !f.msl
  }

  function Hear(l: Listener, e: Event): Listener {
    match e
    case OnEvent(f, data, busy) =>
      (match BranchOf(f)
       case Addressed => l.(open := Some([]))
       case Received => HearByte(l, data)
       case Stopped => EndTransaction(l)
       case _ => l)
    case OnError(f, busy) => if EndsReception(f) then EndTransaction(l) else l
    case TaskSends(_, _) => l
    case TaskTakes => l
  }

  /** How the bus behaves towards a slave: no byte comes outside a transaction while the
      slot of a truncated one lacks just its last byte; and the receive queue has room when
      a slot is needed. */
  ghost predicate SlaveContract(s: State, l: Listener, e: Event) {
    e.OnEvent? ==>
      && (BranchOf(e.flags) == Received ==> l.open.Some? || s.rx.bytesProcessed != 2)
      && (BranchOf(e.flags) == Addressed ==> s.rx.occupied || |s.rxQueue| < QUEUE_SIZE)
  }

  ghost predicate SlotHolds(m: Msg, bytes: seq<Byte>) {
    && m.destination == MY_ADDRESS
    && (|bytes| >= 1 ==> m.source == bytes[0])
    && (|bytes| >= 2 ==> m.data == bytes[1])
  }

  ghost predicate RxInv(s: State, l: Listener) {
    && s.published == l.heard
    && s.slotsTaken == |s.published| + (if s.rx.slot.Some? then 1 else 0)
    && |s.rxQueue| <= |s.published| && s.rxQueue == s.published[|s.published| - |s.rxQueue|..]
    && (s.rx.occupied <==> s.rx.slot.Some?)
    && match l.open
       case Some(bytes) =>
         && s.rx.occupied && SlotHolds(s.rx.slot.value, bytes)
         && s.rx.bytesProcessed == 1 + (if |bytes| < 2 then |bytes| else 2)
       case None => s.rx == FREE || (s.rx.occupied && 1 <= s.rx.bytesProcessed <= 2)
  }

  /** The parts of the state that receiving depends on. */
  ghost predicate SameRx(s: State, r: State) {
    && s.rx == r.rx && s.rxQueue == r.rxQueue && s.published == r.published && s.slotsTaken == r.slotsTaken
  }

  lemma StartKeepsRx(s: State, busy: bool)
    ensures SameRx(s, StartTx(s, busy)) && SameRx(s, StartTxFromISR(s, busy)) && SameRx(s, ResumeTxForce(s))
  {
  }

  lemma TxKeepsRx(s: State, m: Msg, nacked: bool, busy: bool)
    ensures SameRx(s, SendAddress(s)) && SameRx(s, SendNext(s, busy)) && SameRx(s, FinishTx(s, nacked, busy))
    ensures SameRx(s, StartTx(Enqueue(s, m), busy)) && SameRx(s, ResumeTxForce(s))
  {
    hide Attempt;
    StartKeepsRx(s, busy);
    StartKeepsRx(Enqueue(s, m), busy);
    FinishKeepsRx(s, nacked, busy);
    FinishKeepsRx(s, false, busy);
    hide FinishTx; hide StartTx;
  }

  lemma FinishKeepsRx(s: State, nacked: bool, busy: bool)
    ensures SameRx(s, FinishTx(s, nacked, busy))
  {
    hide Attempt;
  }

  /** The end of a transaction publishes it if it was long enough, and otherwise keeps its
      slot for the next one. */
  lemma ForwardKeepsRx(s: State, l: Listener, busy: bool)
    requires RxInv(s, l)
    ensures RxInv(ForwardRx(s, busy), EndTransaction(l))
  {
    if MessageValid(s.rx) {
      var s1 := s.(rxQueue := s.rxQueue + [s.rx.slot.value], published := s.published + [s.rx.slot.value]);
      StartKeepsRx(s1.(rx := FREE), busy);
      hide StartTxFromISR;
    }
  }

  lemma BeginKeepsRx(s: State, l: Listener)
    requires RxInv(s, l) && (s.rx.occupied || |s.rxQueue| < QUEUE_SIZE)
    ensures RxInv(BeginRx(s), l.(open := Some([])))
  {
  }

  lemma ByteKeepsRx(s: State, l: Listener, b: Byte)
    requires RxInv(s, l) && (l.open.Some? || s.rx.bytesProcessed != 2)
    ensures RxInv(ReceiveByte(s, b), HearByte(l, b))
  {
  }

  /** The condition on bytes outside a transaction cannot be weakened: such a byte and the
      next stop leave what was published right exactly when it holds. */
  lemma StrayByteIsHarmlessExactlyWhen(s: State, l: Listener, b: Byte, busy: bool)
    requires RxInv(s, l) && l.open.None?
    ensures ForwardRx(ReceiveByte(s, b), busy).published == EndTransaction(HearByte(l, b)).heard
            <==> s.rx.bytesProcessed != 2
  {
    if s.rx.bytesProcessed == 2 {
      var s1 := ReceiveByte(s, b);
      var m := s1.rx.slot.value;
      assert (s.published + [m])[..|s.published|] == s.published;
      StartKeepsRx(s1.(rxQueue := s1.rxQueue + [m], published := s1.published + [m], rx := FREE), busy);
      hide StartTxFromISR;
    } else {
      ByteKeepsRx(s, l, b);
      ForwardKeepsRx(ReceiveByte(s, b), l, busy);
      hide ForwardRx;
    }
  }

  /** Steps that do not touch the receiver, nor the listener. */
  lemma SameRxKeeps(s: State, r: State, l: Listener)
    requires RxInv(s, l) && SameRx(s, r)
    ensures RxInv(r, l)
  {
  }

  lemma TakeKeepsRx(s: State, l: Listener)
    requires RxInv(s, l)
    ensures RxInv(Step(s, TaskTakes), l)
  {
  }

  lemma StepKeepsRx(s: State, l: Listener, e: Event)
    requires RxInv(s, l) && SlaveContract(s, l, e)
    ensures RxInv(Step(s, e), Hear(l, e))
  {
    hide SendAddress; hide SendNext; hide FinishTx; hide ForwardRx; hide StartTx; hide ResumeTxForce;
    hide EndTransaction; hide HearByte; hide BeginRx; hide ReceiveByte; hide SameRx;
    match e
    case OnEvent(f, data, busy) =>
      TxKeepsRx(s, Msg(0, 0, 0), false, busy);
      match BranchOf(f) {
        case Started => SameRxKeeps(s, SendAddress(s), l);
        case Addressed => BeginKeepsRx(s, l);
        case Received => ByteKeepsRx(s, l, data);
        case MaySend => SameRxKeeps(s, SendNext(s, busy), l);
        case Stopped => ForwardKeepsRx(s, l, busy);
        case Ignored =>
      }
      hide RxInv;
    case OnError(f, busy) =>
      TxKeepsRx(s, Msg(0, 0, 0), true, busy);
      ForwardKeepsRx(s, l, busy);
      SameRxKeeps(s, FinishTx(s, true, busy), l);
      SameRxKeeps(s, ResumeTxForce(s), l);
      hide RxInv;
    case TaskSends(m, busy) =>
      TxKeepsRx(s, m, false, busy);
      SameRxKeeps(s, StartTx(Enqueue(s, m), busy), l);
      hide RxInv;
    case TaskTakes => TakeKeepsRx(s, l);
  }

  /** No step of a run within the contracts reaches a breakpoint or a null pointer. */
  lemma StepDoesNotFault(s: State, l: Listener, e: Event)
    requires TxInv(s) && RxInv(s, l) && MasterContract(s, e) && SlaveContract(s, l, e) && !s.fault
    ensures !Step(s, e).fault
  {
    hide Attempt;
  }

  // ------------------------------------------------------------------------- runs

  function HearAll(l: Listener, events: seq<Event>): Listener
    decreases |events|
  {
    if events == [] then l else HearAll(Hear(l, events[0]), events[1..])
  }

  ghost predicate MasterRun(s: State, events: seq<Event>)
    decreases |events|
  {
    events == [] || (MasterContract(s, events[0]) && MasterRun(Step(s, events[0]), events[1..]))
  }

  ghost predicate SlaveRun(s: State, l: Listener, events: seq<Event>)
    decreases |events|
  {
    events == [] ||
      (SlaveContract(s, l, events[0]) && SlaveRun(Step(s, events[0]), Hear(l, events[0]), events[1..]))
  }

  lemma {:induction false} RunKeepsTx(s: State, events: seq<Event>)
    requires TxInv(s) && MasterRun(s, events)
    ensures TxInv(Run(s, events))
    decreases |events|
  {
    if events != [] {
      hide TxInv; hide Step; hide MasterContract;
      StepKeepsTx(s, events[0]);
      RunKeepsTx(Step(s, events[0]), events[1..]);
    }
  }

  lemma {:induction false} RunKeepsRx(s: State, l: Listener, events: seq<Event>)
    requires RxInv(s, l) && SlaveRun(s, l, events)
    ensures RxInv(Run(s, events), HearAll(l, events))
    decreases |events|
  {
    if events != [] {
      hide RxInv; hide Step; hide Hear; hide SlaveContract;
      StepKeepsRx(s, l, events[0]);
      RunKeepsRx(Step(s, events[0]), Hear(l, events[0]), events[1..]);
    }
  }

  lemma {:induction false} RunDoesNotFault(s: State, l: Listener, events: seq<Event>)
    requires TxInv(s) && RxInv(s, l) && !s.fault && MasterRun(s, events) && SlaveRun(s, l, events)
    ensures !Run(s, events).fault
    decreases |events|
  {
    if events != [] {
      hide TxInv; hide RxInv; hide Step; hide Hear; hide MasterContract; hide SlaveContract;
      StepKeepsTx(s, events[0]);
      StepKeepsRx(s, l, events[0]);
      StepDoesNotFault(s, l, events[0]);
      RunDoesNotFault(Step(s, events[0]), Hear(l, events[0]), events[1..]);
    }
  }

  /** For every stream of events within the contract of the bus towards a master, whatever
      the receiver goes through, messages leave the transmit queue in the order in which they
      were put in, each once, each after its three bytes were written behind one start bit or
      after a missing acknowledgement.  On the wire every start bit is about the message that
      is next to leave, and the bytes behind it are that message's from the first on, so that
      a restart sends all of them again. */
  lemma TransmitsInOrder(events: seq<Event>)
    requires MasterRun(INITIAL, events)
    ensures var r := Run(INITIAL, events);
            && r.accepted == Messages(r.departed) + r.txQueue
            && (forall d :: d in r.departed ==> Proper(d))
            && WireOk(r.wire, r.accepted, r.departed) && Stops(r.wire) == |r.departed|
            && (forall n :: 0 <= n <= |r.wire| ==> InTurn(r.wire[..n], r.accepted))
            && (forall n :: 0 <= n < |r.wire| && (r.wire[n].Address? || r.wire[n].Data?) ==> Open(r.wire[..n]))
  {
    RunKeepsTx(INITIAL, events);
    var r := Run(INITIAL, events);
    hide Run; hide Open; hide InTurn; hide PhaseOk;
    assert WireOk(r.wire, r.accepted, r.departed);
    hide WireOk; hide Proper;
    forall n | 0 <= n <= |r.wire|
      ensures InTurn(r.wire[..n], r.accepted)
      ensures n < |r.wire| && (r.wire[n].Address? || r.wire[n].Data?) ==> Open(r.wire[..n])
    {
      EveryStartSendsFromTheFirstByte(r.wire, r.accepted, r.departed, n);
    }
  }

  /** What is published is exactly what a listener makes of the same events: the ended
      transactions with at least two bytes.  Truncated ones reuse their slot, so that at
      most one slot is taken and not published.  What the transmitter goes through plays no
      part. */
  lemma ReceivesEndedTransactions(events: seq<Event>)
    requires SlaveRun(INITIAL, Listener(None, []), events)
    ensures var r := Run(INITIAL, events);
            && r.published == HearAll(Listener(None, []), events).heard
            && r.slotsTaken - |r.published| == (if r.rx.slot.Some? then 1 else 0)
            && |r.rxQueue| <= |r.published| && r.rxQueue == r.published[|r.published| - |r.rxQueue|..]
  {
    RunKeepsRx(INITIAL, Listener(None, []), events);
  }

  /** Within both contracts no run reaches a breakpoint or a null pointer. */
  lemma NoFaults(events: seq<Event>)
    requires MasterRun(INITIAL, events) && SlaveRun(INITIAL, Listener(None, []), events)
    ensures !Run(INITIAL, events).fault
  {
    RunDoesNotFault(INITIAL, Listener(None, []), events);
  }

  lemma RunTakesFirst(s: State, l: Listener, e: Event, rest: seq<Event>)
    ensures Run(s, [e] + rest) == Run(Step(s, e), rest)
    ensures HearAll(l, [e] + rest) == HearAll(Hear(l, e), rest)
  {
    assert ([e] + rest)[1..] == rest;
    hide Step; hide Hear;
  }

  function NoFlags(): Flags {
    Flags(false, false, false, false, false, false, false, false, false, false)
  }

  function AddressMatched(): Event {
    OnEvent(NoFlags().(addr := true), 0, false)
  }

  function ByteArrives(b: Byte): Event {
    OnEvent(NoFlags().(rxne := true), b, false)
  }

  function StopSeen(): Event {
    OnEvent(NoFlags().(stopf := true), 0, false)
  }

  lemma StrayByteSteps(a: Byte, b: Byte)
    ensures var s1 := Step(Step(INITIAL, AddressMatched()), ByteArrives(a));
            var s2 := Step(Step(Step(s1, StopSeen()), ByteArrives(b)), StopSeen());
            Step(s1, StopSeen()) == s1 && s2.published == [Msg(MY_ADDRESS, a, b)]
    ensures var l0 := Listener(None, []);
            var l1 := Hear(Hear(l0, AddressMatched()), ByteArrives(a));
            Hear(Hear(Hear(l1, StopSeen()), ByteArrives(b)), StopSeen()) == l0
  {
  }

  /** A reachable case: a byte that comes after a truncated transaction has ended completes
      that transaction. */
  lemma StrayByteCompletesTruncated(a: Byte, b: Byte)
    ensures var events := [AddressMatched(), ByteArrives(a), StopSeen(), ByteArrives(b), StopSeen()];
            && HearAll(Listener(None, []), events).heard == []
            && Run(INITIAL, events).published == [Msg(MY_ADDRESS, a, b)]
  {
    StrayByteSteps(a, b);
    var e0, e1, e2, e3 := AddressMatched(), ByteArrives(a), StopSeen(), ByteArrives(b);
    hide Step; hide Hear;
    hide AddressMatched; hide ByteArrives; hide StopSeen;
    var s0, l0 := INITIAL, Listener(None, []);
    var s1, l1 := Step(s0, e0), Hear(l0, e0);
    var s2, l2 := Step(s1, e1), Hear(l1, e1);
    var s3, l3 := Step(s2, e2), Hear(l2, e2);
    var s4, l4 := Step(s3, e3), Hear(l3, e3);
    RunTakesFirst(s0, l0, e0, [e1, e2, e3, e2]);
    RunTakesFirst(s1, l1, e1, [e2, e3, e2]);
    RunTakesFirst(s2, l2, e2, [e3, e2]);
    RunTakesFirst(s3, l3, e3, [e2]);
    RunTakesFirst(s4, l4, e2, []);
    hide Run; hide HearAll;
    assert [e0] + [e1, e2, e3, e2] == [e0, e1, e2, e3, e2];
    assert [e1] + [e2, e3, e2] == [e1, e2, e3, e2];
    assert [e2] + [e3, e2] == [e2, e3, e2];
    assert [e3] + [e2] == [e3, e2];
    assert [e2] + [] == [e2];
    NoMoreEvents(Step(s4, e2), Hear(l4, e2));
  }

  lemma NoMoreEvents(s: State, l: Listener)
    ensures Run(s, []) == s && HearAll(l, []) == l
  {
  }

  function StartAnswered(): Event {
    OnEvent(NoFlags().(sb := true, msl := true), 0, true)
  }

  function ByteAsked(): Event {
    OnEvent(NoFlags().(txe := true, msl := true), 0, true)
  }

  function BusError(): Event {
    OnError(NoFlags().(berr := true, msl := true), true)
  }

  function Sent(m: Msg, tx: Block, wire: seq<Output>, phase: Phase): State {
    INITIAL.(tx := tx, txQueue := [m], accepted := [m], wire := wire, phase := phase)
  }

  lemma RestartSteps(m: Msg)
    ensures var begun := [StartBit, Address(m.destination / 2), Data(m.source * 2 % 256)];
            var s := Step(INITIAL, TaskSends(m, false));
            && MasterContract(s, StartAnswered()) && MasterContract(Step(s, StartAnswered()), ByteAsked())
            && Step(Step(s, StartAnswered()), ByteAsked()) == Sent(m, Block(true, Some(m), 2), begun, AddressSent)
  {
    assert [] + [StartBit] == [StartBit];
  }

  lemma BusErrorSteps(m: Msg)
    ensures var begun := [StartBit, Address(m.destination / 2), Data(m.source * 2 % 256)];
            var s := Step(Sent(m, Block(true, Some(m), 2), begun, AddressSent), BusError());
            && !MasterContract(s, ByteAsked()) && MasterContract(s, StartAnswered())
            && MasterContract(Sent(m, Block(true, Some(m), 2), begun, AddressSent), BusError())
            && Step(s, StartAnswered())
            == Sent(m, Block(true, Some(m), 1), begun + [StartBit, Address(m.destination / 2)], AddressSent)
  {
    var begun := [StartBit, Address(m.destination / 2), Data(m.source * 2 % 256)];
    assert begun + [StartBit] + [Address(m.destination / 2)] == begun + [StartBit, Address(m.destination / 2)];
  }

  lemma MasterRunTakesFirst(s: State, e: Event, rest: seq<Event>)
    ensures MasterRun(s, [e] + rest) <==> MasterContract(s, e) && MasterRun(Step(s, e), rest)
    ensures Run(s, [e] + rest) == Run(Step(s, e), rest)
    ensures MasterRun(s, []) && Run(s, []) == s
  {
    assert ([e] + rest)[1..] == rest;
    hide Step; hide MasterContract;
  }

  /** A reachable restart, within the contract of the bus: after a bus error behind the first
      byte the start bit is sent again, no byte may be asked for before it is answered, and
      the answer begins the message anew. */
  lemma RestartBeginsAnew(m: Msg)
    ensures var events := [TaskSends(m, false), StartAnswered(), ByteAsked(), BusError(), StartAnswered()];
            && MasterRun(INITIAL, events)
            && Run(INITIAL, events)
            == Sent(m, Block(true, Some(m), 1),
                    [StartBit, Address(m.destination / 2), Data(m.source * 2 % 256),
                     StartBit, Address(m.destination / 2)], AddressSent)
    ensures var s := Run(INITIAL, [TaskSends(m, false), StartAnswered(), ByteAsked(), BusError()]);
            !MasterContract(s, ByteAsked())
  {
    RestartSteps(m);
    BusErrorSteps(m);
    var begun := [StartBit, Address(m.destination / 2), Data(m.source * 2 % 256)];
    assert begun + [StartBit, Address(m.destination / 2)]
        == [StartBit, Address(m.destination / 2), Data(m.source * 2 % 256), StartBit, Address(m.destination / 2)];
    var e0, e1, e2, e3 := TaskSends(m, false), StartAnswered(), ByteAsked(), BusError();
    hide StartAnswered; hide ByteAsked; hide BusError; hide Step; hide MasterContract; hide Sent;
    var s1 := Step(INITIAL, e0);
    var s2 := Step(s1, e1);
    var s3 := Step(s2, e2);
    var s4 := Step(s3, e3);
    StartsAlways(m);
    FiveEvents(INITIAL, e0, e1, e2, e3, e1);
  }

  lemma StartsAlways(m: Msg)
    ensures MasterContract(INITIAL, TaskSends(m, false))
  {
  }

  lemma FiveEvents(s: State, e0: Event, e1: Event, e2: Event, e3: Event, e4: Event)
    ensures var s3 := Step(Step(Step(s, e0), e1), e2);
            && Run(s, [e0, e1, e2, e3]) == Step(s3, e3)
            && Run(s, [e0, e1, e2, e3, e4]) == Step(Step(s3, e3), e4)
            && (MasterRun(s, [e0, e1, e2, e3, e4]) <==>
                  && MasterContract(s, e0) && MasterContract(Step(s, e0), e1)
                  && MasterContract(Step(Step(s, e0), e1), e2)
                  && MasterContract(s3, e3) && MasterContract(Step(s3, e3), e4))
  {
    var s1 := Step(s, e0);
    var s2 := Step(s1, e1);
    var s3 := Step(s2, e2);
    var s4 := Step(s3, e3);
    hide Step; hide MasterContract;
    MasterRunTakesFirst(s, e0, [e1, e2, e3, e4]);
    MasterRunTakesFirst(s1, e1, [e2, e3, e4]);
    MasterRunTakesFirst(s2, e2, [e3, e4]);
    MasterRunTakesFirst(s3, e3, [e4]);
    MasterRunTakesFirst(s4, e4, []);
    MasterRunTakesFirst(Step(s4, e4), e4, []);
    MasterRunTakesFirst(s, e0, [e1, e2, e3]);
    MasterRunTakesFirst(s1, e1, [e2, e3]);
    MasterRunTakesFirst(s2, e2, [e3]);
    MasterRunTakesFirst(s3, e3, []);
    hide Run; hide MasterRun;
    assert [e0] + [e1, e2, e3, e4] == [e0, e1, e2, e3, e4] && [e1] + [e2, e3, e4] == [e1, e2, e3, e4];
    assert [e2] + [e3, e4] == [e2, e3, e4] && [e3] + [e4] == [e3, e4] && [e4] + [] == [e4];
    assert [e0] + [e1, e2, e3] == [e0, e1, e2, e3] && [e1] + [e2, e3] == [e1, e2, e3] && [e2] + [e3] == [e2, e3];
    assert [e3] + [] == [e3];
  }
}
