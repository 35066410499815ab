/** The I2C driver as it is written: two control blocks and two queues, updated in place by
    the interrupt handlers and by the task that sends.  Every method does to the state what
    the function of the same name in `I2cSpec` says. */
module I2cDriver {
  import Spec = I2cSpec
  import opened I2cSpec
  import opened Options

  class TransmissionControlBlock {
    var bufferOccupied: bool
    var msgMemory: Option<Msg>
    var bytesProcessed: nat

    constructor ()
      ensures Value() == FREE
    {
      bufferOccupied, msgMemory, bytesProcessed := false, None, 0;
    }

    function Value(): Block
      reads this
    {
      Block(bufferOccupied, msgMemory, bytesProcessed)
    }

    method TryClaim() returns (claimed: bool)
      modifies this
      ensures claimed == !old(bufferOccupied)
      ensures Value() == Spec.TryClaim(old(Value()))
    {
      claimed := !bufferOccupied;
      if claimed {
        bufferOccupied := true;
        bytesProcessed := 0;
        msgMemory := None;
      }
    }

    method Release()
      modifies this
      ensures Value() == FREE
    {
      bytesProcessed := 0;
      msgMemory := None;
      bufferOccupied := false;
    }
  }

  class Driver {
    const rxControl: TransmissionControlBlock
    const txControl: TransmissionControlBlock
    var rxQueue: seq<Msg>
    var txQueue: seq<Msg>
    var fault: bool
    ghost var wire: seq<Output>
    ghost var phase: Phase
    ghost var accepted: seq<Msg>
    ghost var departed: seq<Departure>
    ghost var published: seq<Msg>
    ghost var slotsTaken: nat

    ghost predicate Valid() {
      rxControl != txControl
    }

    ghost function State(): State
      reads this, rxControl, txControl
    {
      Spec.State(rxControl.Value(), txControl.Value(), rxQueue, txQueue, fault, wire, phase,
                 accepted, departed, published, slotsTaken)
    }

    constructor ()
      ensures Valid() && fresh(rxControl) && fresh(txControl)
      ensures State() == INITIAL
    {
      rxControl := new TransmissionControlBlock();
      txControl := new TransmissionControlBlock();
      rxQueue, txQueue, fault := [], [], false;
      wire, phase, accepted, departed, published, slotsTaken := [], NoStart, [], [], [], 0;
    }

    // ---------------------------------------------------------------- transmitting

    method ResumeTx(busy: bool)
      requires Valid()
      modifies this
      ensures State() == Spec.ResumeTx(old(State()), busy)
    {
      if txControl.bufferOccupied && !busy {
        wire, phase := wire + [StartBit], StartSent;
      }
    }

    method ResumeTxForce()
      requires Valid()
      modifies this
      ensures State() == Spec.ResumeTxForce(old(State()))
    {
      if txControl.bufferOccupied {
        wire, phase := wire + [StartBit], StartSent;
      }
    }

    method StartTx(busy: bool)
      requires Valid()
      modifies this, txControl
      ensures State() == Spec.StartTx(old(State()), busy)
    {
      var claimed := txControl.TryClaim();
      if claimed {
        txControl.msgMemory := if txQueue == [] then None else Some(txQueue[0]);
        if txControl.msgMemory.Some? {
          ResumeTx(busy);
        } else {
          txControl.Release();
        }
      }
    }

    method StartTxFromISR(busy: bool)
      requires Valid()
      modifies this, txControl
      ensures State() == Spec.StartTxFromISR(old(State()), busy)
    {
      if !txControl.bufferOccupied {
        StartTx(busy);
      } else {
        ResumeTx(busy);
      }
    }

    method FinishTx(ghost nacked: bool, busy: bool)
      requires Valid()
      modifies this, txControl
      ensures State() == Spec.FinishTx(old(State()), nacked, busy)
    {
      if txControl.msgMemory.Some? {
        departed := departed + [Departure(txControl.msgMemory.value, nacked, Attempt(wire))];
        if txQueue != [] {
          txQueue := txQueue[1..];
        }
      }
      phase := NoStart;
      txControl.Release();
      wire := wire + [StopBit];
      assert State() == Emit(old(State()).(txQueue := txQueue, tx := FREE, phase := NoStart,
                                           departed := departed), StopBit);
      hide Attempt; hide Spec.StartTx;
      StartTx(busy);
    }

    method SendI2CMessage(msg: Msg, busy: bool)
      requires Valid()
      modifies this, txControl
      ensures State() == Step(old(State()), TaskSends(msg, busy))
    {
      if |txQueue| < QUEUE_SIZE {
        txQueue := txQueue + [msg];
        accepted := accepted + [msg];
      }
      assert State() == Enqueue(old(State()), msg);
      hide Spec.StartTx;
      StartTx(busy);
    }

    // ------------------------------------------------------------------- receiving

    method TakeMessage() returns (msg: Option<Msg>)
      requires Valid()
      modifies this
      ensures State() == Step(old(State()), TaskTakes)
      ensures msg == if old(rxQueue) == [] then None else Some(old(rxQueue)[0])
    {
      msg := None;
      if rxQueue != [] {
        msg := Some(rxQueue[0]);
        rxQueue := rxQueue[1..];
      }
    }

    method ForwardRx(busy: bool)
      requires Valid()
      modifies this, rxControl, txControl
      ensures State() == Spec.ForwardRx(old(State()), busy)
    {
      if rxControl.bufferOccupied && rxControl.bytesProcessed == MESSAGE_LENGTH {
        if rxControl.msgMemory.Some? {
          rxQueue := rxQueue + [rxControl.msgMemory.value];
          published := published + [rxControl.msgMemory.value];
          rxControl.msgMemory := None;
        } else {
          fault := true;
        }
        rxControl.Release();
        hide Spec.StartTxFromISR;
        StartTxFromISR(busy);
      }
    }

    method BeginRx()
      requires Valid()
      modifies this, rxControl
      ensures State() == Spec.BeginRx(old(State()))
    {
      var claimed := rxControl.TryClaim();
      if claimed && |rxQueue| < QUEUE_SIZE {
        rxControl.msgMemory := Some(Msg(0, 0, 0));
        slotsTaken := slotsTaken + 1;
      }
      match rxControl.msgMemory {
        case Some(m) => rxControl.msgMemory := Some(m.(destination := MY_ADDRESS));
        case None => fault := true;
      }
      rxControl.bytesProcessed := 1;
    }

    method ReceiveByte(data: Byte)
      requires Valid()
      modifies rxControl
      ensures State() == Spec.ReceiveByte(old(State()), data)
    {
      if rxControl.bufferOccupied && rxControl.msgMemory.Some? {
        if rxControl.bytesProcessed < 3 {
          var m := rxControl.msgMemory.value;
          match rxControl.bytesProcessed {
            case 1 => rxControl.msgMemory := Some(m.(source := data));
            case 2 => rxControl.msgMemory := Some(m.(data := data));
            case _ =>
          }
          rxControl.bytesProcessed := rxControl.bytesProcessed + 1;
        }
      }
    }

    // ---------------------------------------------------------- interrupt handlers

    method SendAddress()
      requires Valid()
      modifies this, txControl
      ensures State() == Spec.SendAddress(old(State()))
    {
      match txControl.msgMemory {
        case Some(m) =>
          txControl.bytesProcessed := 1;
          wire := wire + [Address(m.destination / 2)];
          phase := AddressSent;
        case None => fault := true;
      }
    }

    method SendNext(busy: bool)
      requires Valid()
      modifies this, txControl
      ensures State() == Spec.SendNext(old(State()), busy)
    {
      hide Spec.FinishTx;
      if txControl.bytesProcessed != 1 && txControl.bytesProcessed != 2 {
        FinishTx(false, busy);
      } else if txControl.msgMemory.None? {
        fault := true;
      } else if txControl.bytesProcessed == 1 {
        wire := wire + [Data(txControl.msgMemory.value.source * 2 % 256)];
        txControl.bytesProcessed := 2;
      } else {
        wire := wire + [Data(txControl.msgMemory.value.data)];
        txControl.bytesProcessed := 3;
      }
    }

    /** `i2c1_ev_isr` */
    method EventIsr(sr1: Flags, data: Byte, busy: bool)
      requires Valid()
      modifies this, rxControl, txControl
      ensures State() == Step(old(State()), OnEvent(sr1, data, busy))
    {
      hide Spec.SendAddress; hide Spec.SendNext; hide Spec.BeginRx; hide Spec.ReceiveByte; hide Spec.ForwardRx;
      if sr1.sb {
        SendAddress();
      } else if sr1.addr {
        if !sr1.msl {
          BeginRx();
        }
      } else if sr1.rxne {
        ReceiveByte(data);
      } else if sr1.txe && !sr1.btf {
        SendNext(busy);
      } else if sr1.stopf {
        ForwardRx(busy);
      }
    }

    /** `i2c1_er_isr` */
    method ErrorIsr(sr1: Flags, busy: bool)
      requires Valid()
      modifies this, rxControl, txControl
      ensures State() == Step(old(State()), OnError(sr1, busy))
    {
      hide Spec.FinishTx; hide Spec.ForwardRx;
      if sr1.af {
        FinishTx(true, busy);
      } else if sr1.arlo {
      } else if sr1.berr {
        if sr1.msl {
          ResumeTxForce();
        } else {
          ForwardRx(busy);
        }
      } else {
        fault := true;
      }
    }
  }
}
