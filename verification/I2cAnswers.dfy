/** What each event does to the wire and the queues of the I2C machine, what is accepted and
    handed out over whole runs, and when a message that is queued goes on. */
module I2cAnswers {
  import opened I2cSpec
  import opened I2cProperties
  import opened Options
  import opened Sequences

  /** Nothing waits in the queue while the block is free. */
  ghost predicate InHand(s: State) {
    s.txQueue != [] ==> s.tx.occupied
  }

  /** The transmitter has turned to the head of `queue`: with a start bit behind `wire` if the
      bus is free. */
  ghost predicate TurnsTo(r: State, queue: seq<Msg>, wire: seq<Output>, busy: bool) {
    && r.txQueue == queue
    && (queue == [] ==> r.tx == FREE && r.wire == wire && r.phase == NoStart)
    && (queue != [] ==>
          && r.tx == Block(true, Some(queue[0]), 0)
          && (busy ==> r.wire == wire && r.phase == NoStart)
          && (!busy ==> r.wire == wire + [StartBit] && r.phase == StartSent))
  }

  /** The parts of the state that sending depends on. */
  ghost predicate SameTx(s: State, r: State) {
    && s.tx == r.tx && s.txQueue == r.txQueue && s.wire == r.wire && s.phase == r.phase
    && s.accepted == r.accepted && s.departed == r.departed
  }

  lemma StartAnswers(s: State, busy: bool)
    requires s.tx == FREE && s.phase == NoStart
    ensures TurnsTo(StartTx(s, busy), s.txQueue, s.wire, busy)
    ensures StartTx(s, busy).departed == s.departed && StartTx(s, busy).accepted == s.accepted
  {
  }

  // ---------------------------------------------------------------- what interrupts mean

  predicate StartDone(f: Flags) {
    f.sb
  }

  predicate AddressedAsSlave(f: Flags) {
    !f.sb && f.addr && !f.msl
  }

  predicate ByteIn(f: Flags) {
    !f.sb && !f.addr && f.rxne
  }

  predicate ByteWanted(f: Flags) {
    !f.sb && !f.addr && !f.rxne && f.txe && !f.btf
  }

  predicate StopIn(f: Flags) {
    !f.sb && !f.addr && !f.rxne && !(f.txe && !f.btf) && f.stopf
  }

  predicate LostAsSlave(f: Flags) {
    !f.af && !f.arlo && f.berr && !f.msl
  }

  predicate LostAsMaster(f: Flags) {
    !f.af && !f.arlo && f.berr && f.msl
  }

  lemma Branches(f: Flags)
    ensures BranchOf(f) == Started <==> StartDone(f)
    ensures BranchOf(f) == Addressed <==> AddressedAsSlave(f)
    ensures BranchOf(f) == Received <==> ByteIn(f)
    ensures BranchOf(f) == MaySend <==> ByteWanted(f)
    ensures BranchOf(f) == Stopped <==> StopIn(f)
  {
  }

  // ------------------------------------------------------------------- one event each

  /** The message in hand has left with what was written of it, and the next one follows. */
  ghost predicate Departs(s: State, r: State, nacked: bool, busy: bool) {
    && s.txQueue != []
    && r.departed == s.departed + [Departure(s.txQueue[0], nacked, Attempt(s.wire))]
    && TurnsTo(r, s.txQueue[1..], s.wire + [StopBit], busy)
    && r.accepted == s.accepted
  }

  lemma FinishAnswers(s: State, nacked: bool, busy: bool)
    requires TxInv(s) && s.phase == AddressSent
    ensures Departs(s, FinishTx(s, nacked, busy), nacked, busy) && InHand(FinishTx(s, nacked, busy))
  {
    var d := Departure(s.txQueue[0], nacked, Attempt(s.wire));
    var s1 := Emit(s.(txQueue := s.txQueue[1..], tx := FREE, phase := NoStart, departed := s.departed + [d]), StopBit);
    assert FinishTx(s, nacked, busy) == StartTx(s1, busy);
    StartAnswers(s1, busy);
    hide Attempt; hide StartTx; hide TxInv;
  }

  /** With the start bit answered the address goes out, and behind it, each time a byte is
      wanted, the next one, until behind the third the message leaves. */
  lemma ByteAnswers(s: State, f: Flags, data: Byte, busy: bool)
    requires TxInv(s) && MasterContract(s, OnEvent(f, data, busy)) && (StartDone(f) || ByteWanted(f))
    ensures var r := Step(s, OnEvent(f, data, busy));
            var n := if StartDone(f) then 0 else s.tx.bytesProcessed;
            && s.txQueue != [] && n <= 3
            && (n < 3 ==>
                  && r.wire == s.wire + [if n == 0 then Address(Frame(s.txQueue[0])[n])
                                         else Data(Frame(s.txQueue[0])[n])]
                  && r.tx == s.tx.(bytesProcessed := n + 1) && r.phase == AddressSent
                  && r.txQueue == s.txQueue && r.departed == s.departed)
            && (n == 3 ==> Departs(s, r, false, busy))
  {
    Branches(f);
    assert s.phase != NoStart && s.tx.occupied && s.txQueue != [] && s.tx.slot == Some(s.txQueue[0]);
    assert s.phase == AddressSent ==> 1 <= s.tx.bytesProcessed <= 3;
    hide FinishTx; hide TxInv; hide Departs;
    if s.phase == AddressSent {
      FinishAnswers(s, false, busy);
    }
  }

  /** A message that is not acknowledged leaves, and the next one follows; a bus error sends
      the master's start bit again; a lost arbitration changes nothing. */
  lemma ErrorAnswers(s: State, f: Flags, busy: bool)
    requires TxInv(s) && MasterContract(s, OnError(f, busy)) && !LostAsSlave(f)
    ensures var r := Step(s, OnError(f, busy));
            && (f.af ==> Departs(s, r, true, busy))
            && (LostAsMaster(f) && s.tx.occupied ==>
                  r == s.(wire := s.wire + [StartBit], phase := StartSent))
            && (LostAsMaster(f) && !s.tx.occupied ==> r == s)
            && (!f.af && f.arlo ==> r == s)
  {
    hide FinishTx; hide TxInv; hide Departs;
    if f.af {
      FinishAnswers(s, true, busy);
    }
  }

  /** The transmitter gets its chance: if the bus is free, a start bit for the message in
      hand. */
  ghost predicate Chance(s: State, r: State, busy: bool) {
    && r.txQueue == s.txQueue && r.tx == s.tx && r.departed == s.departed && r.accepted == s.accepted
    && (busy || s.txQueue == [] ==> r.wire == s.wire && r.phase == s.phase)
    && (!busy && s.txQueue != [] ==> r.wire == s.wire + [StartBit] && r.phase == StartSent)
  }

  /** The end of a transaction: a complete message goes to the queue, its block is free
      again, and the transmitter gets its chance; otherwise nothing happens. */
  ghost predicate Forwarded(s: State, r: State, busy: bool) {
    if s.rx.occupied && s.rx.bytesProcessed == 3 then
      && r.rx == FREE && Chance(s, r, busy)
      && (s.rx.slot.Some? ==>
            && r.rxQueue == s.rxQueue + [s.rx.slot.value] && r.published == s.published + [s.rx.slot.value]
            && r.fault == s.fault)
    else r == s
  }

  lemma StopAnswers(s: State, f: Flags, data: Byte, busy: bool)
    requires TxInv(s) && InHand(s)
    ensures StopIn(f) ==> Forwarded(s, Step(s, OnEvent(f, data, busy)), busy)
    ensures LostAsSlave(f) ==> Forwarded(s, Step(s, OnError(f, busy)), busy)
  {
    Branches(f);
    ForwardAnswers(s, busy);
    hide ForwardRx; hide TxInv; hide Forwarded;
  }

  lemma ResumeAnswers(s: State, busy: bool)
    requires (s.tx.occupied <==> s.txQueue != []) && (!s.tx.occupied ==> s.tx == FREE)
    ensures Chance(s, StartTxFromISR(s, busy), busy)
    ensures var r := StartTxFromISR(s, busy); SameRx(s, r) && r.fault == s.fault
  {
  }

  lemma ForwardAnswers(s: State, busy: bool)
    requires TxInv(s) && InHand(s)
    ensures Forwarded(s, ForwardRx(s, busy), busy)
  {
    assert !s.tx.occupied ==> s.tx == FREE;
    assert s.tx.occupied ==> s.txQueue != [];
    hide TxInv;
    if MessageValid(s.rx) {
      var s1 := if s.rx.slot.Some?
                then s.(rxQueue := s.rxQueue + [s.rx.slot.value], published := s.published + [s.rx.slot.value])
                else Fault(s);
      ResumeAnswers(s1.(rx := FREE), busy);
      hide StartTxFromISR;
    }
  }

  /** A message that a task sends joins the queue if there is room; only if nothing is in
      hand does it go on at once. */
  lemma SendAnswers(s: State, m: Msg, busy: bool)
    requires TxInv(s) && InHand(s)
    ensures var r := Step(s, TaskSends(m, busy));
            var queue := if |s.txQueue| < QUEUE_SIZE then s.txQueue + [m] else s.txQueue;
            && r.departed == s.departed
            && (s.txQueue == [] ==> TurnsTo(r, [m], s.wire, busy))
            && (s.txQueue != [] ==> r.txQueue == queue && r.tx == s.tx && r.wire == s.wire && r.phase == s.phase)
  {
    assert !s.tx.occupied ==> s.tx == FREE && s.phase == NoStart;
    assert s.tx.occupied ==> s.txQueue != [];
    hide TxInv;
  }

  /** Receiving leaves the transmitter alone until the transaction ends. */
  lemma OthersLeaveTx(s: State, e: Event)
    requires match e
             case OnEvent(f, _, _) => !StartDone(f) && !ByteWanted(f) && !StopIn(f)
             case OnError(_, _) => false
             case TaskSends(_, _) => false
             case TaskTakes => true
    ensures SameTx(s, Step(s, e))
  {
    if e.OnEvent? {
      Branches(e.flags);
    }
  }

  // ------------------------------------------------------------- when a message goes on

  lemma StepKeepsInHand(s: State, e: Event)
    requires TxInv(s) && InHand(s) && MasterContract(s, e)
    ensures InHand(Step(s, e))
  {
    hide Step; hide TxInv; hide MasterContract;
    match e
    case OnEvent(f, data, busy) =>
      if StartDone(f) || ByteWanted(f) {
        ByteAnswers(s, f, data, busy);
      } else if StopIn(f) {
        StopAnswers(s, f, data, busy);
      } else {
        OthersLeaveTx(s, e);
      }
    case OnError(f, busy) =>
      if LostAsSlave(f) {
        StopAnswers(s, f, 0, busy);
      } else {
        Handled(s, f, busy);
        ErrorAnswers(s, f, busy);
      }
    case TaskSends(m, busy) => SendAnswers(s, m, busy);
    case TaskTakes => OthersLeaveTx(s, e);
  }

  lemma Handled(s: State, f: Flags, busy: bool)
    requires MasterContract(s, OnError(f, busy))
    ensures f.af || f.arlo || LostAsMaster(f) || LostAsSlave(f)
  {
  }

  /** A complete message has come in and its transaction ends, on a free bus. */
  predicate ReceptionEnds(s: State, e: Event) {
    && s.rx.occupied && s.rx.bytesProcessed == 3
    && ((e.OnEvent? && StopIn(e.flags) && !e.busy) || (e.OnError? && LostAsSlave(e.flags) && !e.busy))
  }

  /** A message that came to a busy bus has no start bit yet.  It gets one with the next
      message received, or with a bus error as master, and with nothing else: sending another
      message does not help, even if the bus is free by then. */
  lemma GoesOnExactlyWhen(s: State, e: Event)
    requires TxInv(s) && InHand(s) && MasterContract(s, e) && s.txQueue != [] && s.phase == NoStart
    ensures Step(s, e).phase == StartSent <==> ReceptionEnds(s, e) || (e.OnError? && LostAsMaster(e.flags))
    ensures Step(s, e).phase != StartSent ==> Step(s, e).wire == s.wire && Step(s, e).phase == NoStart
  {
    NothingAnswers(s, e);
    hide Step; hide TxInv; hide MasterContract;
    match e
    case OnEvent(f, data, busy) =>
      if StopIn(f) {
        StopAnswers(s, f, data, busy);
      } else {
        OthersLeaveTx(s, e);
      }
    case OnError(f, busy) =>
      if LostAsSlave(f) {
        StopAnswers(s, f, 0, busy);
      } else {
        Handled(s, f, busy);
        ErrorAnswers(s, f, busy);
      }
    case TaskSends(m, busy) => SendAnswers(s, m, busy);
    case TaskTakes => OthersLeaveTx(s, e);
  }

  /** Without a start bit nobody answers one, or asks for bytes, or misses them. */
  lemma NothingAnswers(s: State, e: Event)
    requires MasterContract(s, e) && s.phase == NoStart
    ensures e.OnEvent? ==> !StartDone(e.flags) && !ByteWanted(e.flags)
    ensures e.OnError? ==> !e.flags.af
  {
    if e.OnEvent? {
      Branches(e.flags);
    }
  }

  /** A reachable case: the first message finds the bus busy, and although it is free when
      the second comes, nothing is sent. */
  lemma SecondSendDoesNotStart(m: Msg, n: Msg)
    ensures var s := Step(Step(INITIAL, TaskSends(m, true)), TaskSends(n, false));
            && s.wire == [] && s.phase == NoStart && s.txQueue == [m, n]
            && MasterRun(INITIAL, [TaskSends(m, true), TaskSends(n, false)])
  {
    var e, e' := TaskSends(m, true), TaskSends(n, false);
    assert [e, e'][1..] == [e'] && [e'][1..] == [];
    assert [m] + [n] == [m, n];
  }

  // ------------------------------------------------------------------ where it breaks

  lemma TxDoesNotFault(s: State, m: Msg, nacked: bool, busy: bool)
    ensures StartTx(s, busy).fault == StartTx(Enqueue(s, m), busy).fault == FinishTx(s, nacked, busy).fault == s.fault
    ensures StartTxFromISR(s, busy).fault == ResumeTxForce(s).fault == s.fault
  {
    hide Attempt;
  }

  lemma RxFaultsExactlyWhen(s: State, l: Listener, b: Byte, busy: bool)
    requires RxInv(s, l) && !s.fault
    ensures BeginRx(s).fault <==> !s.rx.occupied && |s.rxQueue| >= QUEUE_SIZE
    ensures !ReceiveByte(s, b).fault && !ForwardRx(s, busy).fault
  {
    if MessageValid(s.rx) {
      var s1 := s.(rxQueue := s.rxQueue + [s.rx.slot.value], published := s.published + [s.rx.slot.value]);
      TxDoesNotFault(s1.(rx := FREE), Msg(0, 0, 0), false, busy);
      hide StartTxFromISR;
    }
  }

  lemma MasterDoesNotFault(s: State, busy: bool)
    requires TxInv(s) && !s.fault
    ensures s.phase == StartSent ==> !SendAddress(s).fault
    ensures s.phase == AddressSent ==> !SendNext(s, busy).fault
  {
    TxDoesNotFault(s, Msg(0, 0, 0), false, busy);
    hide FinishTx; hide Attempt; hide Open; hide Stops; hide WireOk; hide Frame; hide Proper; hide Messages;
  }

  /** A breakpoint or a null pointer is reached in two cases and no other: a transaction
      begins with the receive queue full and no slot left over, or an error comes up that
      the handler does not know. */
  lemma StepFaultsExactlyWhen(s: State, l: Listener, e: Event)
    requires TxInv(s) && RxInv(s, l) && !s.fault && (e.OnEvent? ==> MasterContract(s, e))
    ensures Step(s, e).fault <==>
              || (e.OnEvent? && AddressedAsSlave(e.flags) && !s.rx.occupied && |s.rxQueue| >= QUEUE_SIZE)
              || (e.OnError? && !e.flags.af && !e.flags.arlo && !e.flags.berr)
  {
    hide TxInv; hide RxInv; hide StartTx; hide Enqueue; hide FinishTx; hide ResumeTxForce;
    hide BeginRx; hide ReceiveByte; hide ForwardRx; hide SendAddress; hide SendNext;
    match e
    case OnEvent(f, data, busy) =>
      Branches(f);
      RxFaultsExactlyWhen(s, l, data, busy);
      MasterDoesNotFault(s, busy);
    case OnError(f, busy) =>
      RxFaultsExactlyWhen(s, l, 0, busy);
      TxDoesNotFault(s, Msg(0, 0, 0), true, busy);
    case TaskSends(m, busy) => TxDoesNotFault(s, m, false, busy);
    case TaskTakes =>
  }

  // ----------------------------------------------------------------------- whole runs

  /** The messages that tasks send while there is room. */
  function Offers(s: State, events: seq<Event>): seq<Msg>
    decreases |events|
  {
    if events == [] then []
    else (if events[0].TaskSends? && |s.txQueue| < QUEUE_SIZE then [events[0].msg] else [])
         + Offers(Step(s, events[0]), events[1..])
  }

  /** The messages that the task takes. */
  function Takes(s: State, events: seq<Event>): seq<Msg>
    decreases |events|
  {
    if events == [] then []
    else (if events[0].TaskTakes? && s.rxQueue != [] then [s.rxQueue[0]] else [])
         + Takes(Step(s, events[0]), events[1..])
  }

  lemma StartAccepts(s: State, busy: bool)
    ensures StartTx(s, busy).accepted == StartTxFromISR(s, busy).accepted == ResumeTxForce(s).accepted == s.accepted
  {
  }

  lemma FinishAccepts(s: State, nacked: bool, busy: bool)
    ensures FinishTx(s, nacked, busy).accepted == s.accepted
  {
    hide Attempt;
  }

  lemma HandlersAccept(s: State, b: Byte, busy: bool)
    ensures SendAddress(s).accepted == SendNext(s, busy).accepted == s.accepted
    ensures BeginRx(s).accepted == ReceiveByte(s, b).accepted == ForwardRx(s, busy).accepted == s.accepted
  {
    FinishAccepts(s, false, busy);
    var s1 := if s.rx.slot.Some?
              then s.(rxQueue := s.rxQueue + [s.rx.slot.value], published := s.published + [s.rx.slot.value])
              else Fault(s);
    StartAccepts(s1.(rx := FREE), busy);
    hide FinishTx; hide StartTxFromISR;
  }

  lemma StepAccepts(s: State, e: Event)
    ensures Step(s, e).accepted == s.accepted + if e.TaskSends? && |s.txQueue| < QUEUE_SIZE then [e.msg] else []
  {
    Nothing(s.accepted);
    hide StartTx; hide FinishTx; hide SendAddress; hide SendNext; hide BeginRx; hide ReceiveByte; hide ForwardRx;
    match e
    case OnEvent(_, data, busy) => HandlersAccept(s, data, busy);
    case OnError(f, busy) =>
      HandlersAccept(s, 0, busy);
      FinishAccepts(s, true, busy);
      StartAccepts(s, busy);
    case TaskSends(m, busy) => StartAccepts(Enqueue(s, m), busy);
    case TaskTakes =>
  }

  /** What is published stands in the receive queue until it is taken, from its head. */
  lemma StepHandsOut(s: State, e: Event, taken: seq<Msg>)
    requires s.published == taken + s.rxQueue
    ensures var r := Step(s, e);
            r.published == taken + (if e.TaskTakes? && s.rxQueue != [] then [s.rxQueue[0]] else []) + r.rxQueue
  {
    Nothing(taken);
    if e.TaskTakes? && s.rxQueue != [] {
      HeadAndTail(s.rxQueue);
      Join(taken, [s.rxQueue[0]], s.rxQueue[1..]);
    } else {
      PublishesOrNot(s, e);
      var r := Step(s, e);
      hide Step;
      if r.published != s.published {
        Join(taken, s.rxQueue, [r.published[|r.published| - 1]]);
      }
    }
  }

  ghost predicate Publishes(s: State, r: State) {
    || (r.published == s.published && r.rxQueue == s.rxQueue)
    || (s.rx.slot.Some? && r.published == s.published + [s.rx.slot.value]
        && r.rxQueue == s.rxQueue + [s.rx.slot.value])
  }

  lemma ReceiversPublish(s: State, b: Byte, busy: bool)
    ensures Publishes(s, BeginRx(s)) && Publishes(s, ReceiveByte(s, b)) && Publishes(s, ForwardRx(s, busy))
  {
    var s1 := if s.rx.slot.Some?
              then s.(rxQueue := s.rxQueue + [s.rx.slot.value], published := s.published + [s.rx.slot.value])
              else Fault(s);
    StartKeepsRx(s1.(rx := FREE), busy);
    hide StartTxFromISR;
  }

  lemma PublishesOrNot(s: State, e: Event)
    requires !e.TaskTakes? || s.rxQueue == []
    ensures Publishes(s, Step(s, e))
  {
    hide StartTx; hide FinishTx; hide SendAddress; hide SendNext; hide BeginRx; hide ReceiveByte; hide ForwardRx;
    hide Enqueue; hide ResumeTxForce;
    match e
    case OnEvent(_, data, busy) =>
      ReceiversPublish(s, data, busy);
      TxKeepsRx(s, Msg(0, 0, 0), false, busy);
    case OnError(f, busy) =>
      ReceiversPublish(s, 0, busy);
      TxKeepsRx(s, Msg(0, 0, 0), true, busy);
    case TaskSends(m, busy) => TxKeepsRx(s, m, false, busy);
    case TaskTakes =>
  }

  lemma {:induction false} RunAccepts(s: State, events: seq<Event>)
    ensures Run(s, events).accepted == s.accepted + Offers(s, events)
    decreases |events|
  {
    Nothing(s.accepted);
    if events != [] {
      var e, rest := events[0], events[1..];
      StepAccepts(s, e);
      hide Step;
      RunAccepts(Step(s, e), rest);
      Join(s.accepted, if e.TaskSends? && |s.txQueue| < QUEUE_SIZE then [e.msg] else [], Offers(Step(s, e), rest));
    }
  }

  lemma {:induction false} RunHandsOut(s: State, events: seq<Event>, taken: seq<Msg>)
    requires s.published == taken + s.rxQueue
    ensures Run(s, events).published == taken + Takes(s, events) + Run(s, events).rxQueue
    decreases |events|
  {
    Nothing(taken);
    if events != [] {
      var e, rest := events[0], events[1..];
      var now := if e.TaskTakes? && s.rxQueue != [] then [s.rxQueue[0]] else [];
      StepHandsOut(s, e, taken);
      hide Step;
      RunHandsOut(Step(s, e), rest, taken + now);
      Join(taken, now, Takes(Step(s, e), rest));
    }
  }

  lemma {:induction false} RunKeepsInHand(s: State, events: seq<Event>)
    requires TxInv(s) && InHand(s) && MasterRun(s, events)
    ensures TxInv(Run(s, events)) && InHand(Run(s, events))
    decreases |events|
  {
    if events != [] {
      hide TxInv; hide InHand; hide Step; hide MasterContract;
      StepKeepsTx(s, events[0]);
      StepKeepsInHand(s, events[0]);
      RunKeepsInHand(Step(s, events[0]), events[1..]);
    }
  }

  /** From end to end: what leaves the transmitter, and what waits there, is what tasks sent
      while there was room, in order, and the oldest that waits is always in hand; what the
      task has taken, and what waits for it, is what was published. */
  lemma NothingIsLeftBehind(events: seq<Event>)
    requires MasterRun(INITIAL, events)
    ensures var r := Run(INITIAL, events);
            && Offers(INITIAL, events) == Messages(r.departed) + r.txQueue
            && (r.txQueue != [] ==> r.tx.occupied && r.tx.slot == Some(r.txQueue[0]))
            && r.published == Takes(INITIAL, events) + r.rxQueue
  {
    RunAccepts(INITIAL, events);
    RunHandsOut(INITIAL, events, []);
    RunKeepsInHand(INITIAL, events);
    Nothing(Offers(INITIAL, events));
    Nothing(Takes(INITIAL, events));
    hide Run; hide Offers; hide Takes; hide MasterRun; hide WireOk; hide Stops; hide Proper; hide Attempt; hide Open;
  }
}
