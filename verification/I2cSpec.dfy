/** The I2C interrupt state machine of `stm32I2C.cpp` as functions on its state.

    The two message queues (`AtomicRingBuffer`) appear as first-in first-out queues with
    allocate, publish, peek and consume.  Registers are inputs (flags read) and outputs
    (what is written to the wire). */
module I2cSpec {
  import opened Options

  type Byte = x: int | 0 <= x < 256

  datatype Msg = Msg(destination: Byte, source: Byte, data: Byte)

  /** `kI2CQueueSize`, `DataModel::kMyAddr`, `kAccessoryMessageLength` */
  const QUEUE_SIZE: nat := 10
  const MY_ADDRESS: Byte := 0x7F
  const MESSAGE_LENGTH: nat := 3

  /** `TransmissionControlBlock`; `slot` is what `msgMemory` points to. */
  datatype Block = Block(occupied: bool, slot: Option<Msg>, bytesProcessed: nat)

  const FREE: Block := Block(false, None, 0)

  datatype Output = StartBit | Address(b: Byte) | Data(b: Byte) | StopBit

  /** How far the message in hand has come: no start bit sent for it yet, or one sent and
      not answered, or its address sent behind the last one. */
  datatype Phase = NoStart | StartSent | AddressSent

  /** A message that has left the transmit queue, and the bytes written since the last
      start bit when it did. */
  datatype Departure = Departure(msg: Msg, nacked: bool, attempt: seq<Byte>)

  /** `fault`: a breakpoint instruction or a null pointer was reached.  The rest are
      histories: `phase` is how far the message in hand has come, `accepted` what was put in
      the transmit queue, `departed` what left it, `published`
      what was put in the receive queue and `slotsTaken` how many slots were taken there. */
  datatype State = State(
    rx: Block,
    tx: Block,
    rxQueue: seq<Msg>,
    txQueue: seq<Msg>,
    fault: bool,
    wire: seq<Output>,
    phase: Phase,
    accepted: seq<Msg>,
    departed: seq<Departure>,
    published: seq<Msg>,
    slotsTaken: nat)

  /** SR1, and MSL of SR2. */
  datatype Flags = Flags(sb: bool, addr: bool, rxne: bool, txe: bool, btf: bool, stopf: bool,
                         af: bool, arlo: bool, berr: bool, msl: bool)

  // ------------------------------------------------------------- the control block

  function TryClaim(b: Block): Block {
    if b.occupied then b else Block(true, None, 0)
  }

  function Fault(s: State): State {
    s.(fault := true)
  }

  function Emit(s: State, o: Output): State {
    s.(wire := s.wire + [o])
  }

  /** The bytes written since the last start bit; none if a stop bit has come since. */
  function Attempt(wire: seq<Output>): seq<Byte>
    decreases |wire|
  {
    if wire == [] then []
    else
      match wire[|wire| - 1]
      case Address(b) => Attempt(wire[..|wire| - 1]) + [b]
      case Data(b) => Attempt(wire[..|wire| - 1]) + [b]
      case StartBit => []
      case StopBit => []
  }

  // ------------------------------------------------------------------ transmitting

  function ResumeTxForce(s: State): State {
    if s.tx.occupied then Emit(s.(phase := StartSent), StartBit) else s
  }

  function ResumeTx(s: State, busy: bool): State {
    if s.tx.occupied && !busy then Emit(s.(phase := StartSent), StartBit) else s
  }

  function StartTx(s: State, busy: bool): State {
    if s.tx.occupied then s
    else if s.txQueue == [] then s.(tx := FREE)
    else ResumeTx(s.(tx := Block(true, Some(s.txQueue[0]), 0)), busy)
  }

  function StartTxFromISR(s: State, busy: bool): State {
    if !s.tx.occupied then StartTx(s, busy) else ResumeTx(s, busy)
  }

  function Consume(q: seq<Msg>, slot: Option<Msg>): seq<Msg> {
    if slot.Some? && q != [] then q[1..] else q
  }

  function FinishTx(s: State, nacked: bool, busy: bool): State {
    var left := if s.tx.slot.Some? then [Departure(s.tx.slot.value, nacked, Attempt(s.wire))] else [];
    var s1 := s.(txQueue := Consume(s.txQueue, s.tx.slot), tx := FREE, phase := NoStart,
                 departed := s.departed + left);
    StartTx(Emit(s1, StopBit), busy)
  }

  // --------------------------------------------------------------------- receiving

  function MessageValid(b: Block): bool {
    b.occupied && b.bytesProcessed == MESSAGE_LENGTH
  }

  function ForwardRx(s: State, busy: bool): State {
    if !MessageValid(s.rx) then s
    else
      var s1 := if s.rx.slot.Some?
                then s.(rxQueue := s.rxQueue + [s.rx.slot.value], published := s.published + [s.rx.slot.value])
                else Fault(s);
      StartTxFromISR(s1.(rx := FREE), busy)
  }

  /** Address match in slave mode: takes a slot unless one is left over. */
  function BeginRx(s: State): State {
    var s1 :=
      if s.rx.occupied then s
      else if |s.rxQueue| < QUEUE_SIZE then
        s.(rx := Block(true, Some(Msg(0, 0, 0)), 0), slotsTaken := s.slotsTaken + 1)
      else s.(rx := Block(true, None, 0));
    match s1.rx.slot
    case Some(m) => s1.(rx := Block(s1.rx.occupied, Some(m.(destination := MY_ADDRESS)), 1))
    case None => Fault(s1.(rx := Block(s1.rx.occupied, None, 1)))
  }

  function ReceiveByte(s: State, b: Byte): State {
    if s.rx.occupied && s.rx.slot.Some? && s.rx.bytesProcessed < 3 then
      var m := s.rx.slot.value;
      var m1 := if s.rx.bytesProcessed == 1 then m.(source := b)
                else if s.rx.bytesProcessed == 2 then m.(data := b)
                else m;
      s.(rx := Block(true, Some(m1), s.rx.bytesProcessed + 1))
    else s
  }

  // --------------------------------------------------------------- interrupt handlers

  function SendAddress(s: State): State {
    match s.tx.slot
    case None => Fault(s)
    case Some(m) =>
      Emit(s.(tx := s.tx.(bytesProcessed := 1), phase := AddressSent), Address(m.destination / 2))
  }

  function SendNext(s: State, busy: bool): State {
    match s.tx.slot
    case None => if s.tx.bytesProcessed == 1 || s.tx.bytesProcessed == 2 then Fault(s) else FinishTx(s, false, busy)
    case Some(m) =>
      if s.tx.bytesProcessed == 1 then Emit(s.(tx := s.tx.(bytesProcessed := 2)), Data(m.source * 2 % 256))
      else if s.tx.bytesProcessed == 2 then Emit(s.(tx := s.tx.(bytesProcessed := 3)), Data(m.data))
      else FinishTx(s, false, busy)
  }

  /** Which branch of `i2c1_ev_isr` runs. */
  datatype Branch = Started | Addressed | Received | MaySend | Stopped | Ignored

  function BranchOf(f: Flags): Branch {
    if f.sb then Started
    else if f.addr then (if f.msl then Ignored else Addressed)
    else if f.rxne then Received
    else if f.txe && !f.btf then MaySend
    else if f.stopf then Stopped
    else Ignored
  }

  function EventIsr(s: State, f: Flags, data: Byte, busy: bool): State {
    match BranchOf(f)
    case Started => SendAddress(s)
    case Addressed => BeginRx(s)
    case Received => ReceiveByte(s, data)
    case MaySend => SendNext(s, busy)
    case Stopped => ForwardRx(s, busy)
    case Ignored => s
  }

  function ErrorIsr(s: State, f: Flags, busy: bool): State {
    if f.af then FinishTx(s, true, busy)
    else if f.arlo then s
    else if f.berr then (if f.msl then ResumeTxForce(s) else ForwardRx(s, busy))
    else Fault(s)
  }

  // ------------------------------------------------------------------- whole runs

  datatype Event =
    | OnEvent(flags: Flags, data: Byte, busy: bool)     // i2c1_ev_isr
    | OnError(flags: Flags, busy: bool)                 // i2c1_er_isr
    | TaskSends(msg: Msg, busy: bool)                   // sendI2CMessage
    | TaskTakes                                         // getI2CMessage, and its release

  function Enqueue(s: State, m: Msg): State {
    if |s.txQueue| < QUEUE_SIZE then s.(txQueue := s.txQueue + [m], accepted := s.accepted + [m]) else s
  }

  function Step(s: State, e: Event): State {
    match e
    case OnEvent(f, data, busy) => EventIsr(s, f, data, busy)
    case OnError(f, busy) => ErrorIsr(s, f, busy)
    case TaskSends(m, busy) => StartTx(Enqueue(s, m), busy)
    case TaskTakes => if s.rxQueue == [] then s else s.(rxQueue := s.rxQueue[1..])
  }

  function Run(s: State, events: seq<Event>): State
    decreases |events|
  {
    if events == [] then s else Run(Step(s, events[0]), events[1..])
  }

  const INITIAL: State := State(FREE, FREE, [], [], false, [], NoStart, [], [], [], 0)
}
