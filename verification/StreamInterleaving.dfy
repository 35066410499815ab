/** A stream or message buffer between one writer and one reader that share no lock: every
    interleaving of sampling the other side's index, copying single bytes, and publishing
    one's own index.

    A message is written on one sample of the space, in two copies each with its own
    publication: the header, and then the data.  It is read in two as well, on one sample of
    the bytes.  The caller's buffer is large enough for every message: the path that puts the
    tail back is sequential only. */
module StreamInterleaving {
  import opened Ring
  import opened Sequences
  import opened StreamSpec

  /** The writer has settled on `data`, and `next` behind it, which fitted when it looked,
      and has copied the first `done` bytes of `data` behind the published head. */
  datatype Writer = WriterIdle | Writing(data: seq<Byte>, done: nat, next: Message)

  /** What the reader is taking: bytes of a stream, a header, or the data of the length that
      the header gave; `available` is what it sampled less what it has taken since. */
  datatype Stage = Plain | TakesHeader(available: nat) | TakesData(length: nat, available: nat)

  /** The reader has settled on `count` bytes and has copied `got` so far. */
  datatype Reader = ReaderIdle | Reading(count: nat, got: seq<Byte>, stage: Stage)

  /** The last four are histories: the bytes published by either side, the messages whose
      header has been published, and those handed to the reader's caller. */
  datatype State = State(
    isMessage: bool,
    buffer: seq<Byte>,
    head: nat,
    tail: nat,
    writer: Writer,
    reader: Reader,
    written: seq<Byte>,
    read: seq<Byte>,
    begun: seq<seq<Byte>>,
    received: seq<seq<Byte>>)

  datatype Action =
    | SampleSpace(data: Message)
    | CopyIn
    | PublishHead
    | SampleBytes(max: nat)
    | CopyOut
    | PublishTail

  predicate InRange(s: State) {
    s.head < |s.buffer| && s.tail < |s.buffer|
  }

  /** `prvBytesInBuffer` and `xStreamBufferSpacesAvailable` on sampled indices. */
  function Bytes(s: State): nat
    requires InRange(s)
  {
    var count := |s.buffer| + s.head - s.tail;
    if count >= |s.buffer| then count - |s.buffer| else count
  }

  function Spaces(s: State): nat
    requires InRange(s)
  {
    var space := |s.buffer| + s.tail - s.head - 1;
    if space >= |s.buffer| then space - |s.buffer| else space
  }

  lemma BytesAndSpaces(s: State)
    requires InRange(s)
    ensures Bytes(s) + Spaces(s) == |s.buffer| - 1
  {
  }

  /** Actions come up when their side has got that far; nothing else orders them. */
  predicate Enabled(s: State, a: Action) {
    && InRange(s)
    && match a
       case SampleSpace(data) => s.writer.WriterIdle? && data != []
       case CopyIn => s.writer.Writing? && s.writer.done < |s.writer.data|
       case PublishHead => s.writer.Writing? && s.writer.done == |s.writer.data|
       case SampleBytes(max) => s.reader.ReaderIdle?
       case CopyOut => s.reader.Reading? && |s.reader.got| < s.reader.count
       case PublishTail => s.reader.Reading? && |s.reader.got| == s.reader.count
  }

  function Store(buffer: seq<Byte>, i: nat, b: Byte): seq<Byte> {
    if i < |buffer| then buffer[i := b] else buffer
  }

  function Fetch(buffer: seq<Byte>, i: nat): Byte {
    if i < |buffer| then buffer[i] else 0
  }

  /** The cells of the writer's and the reader's next byte. */
  function Target(s: State): nat
    requires s.writer.Writing?
  {
    Slot(s.head + s.writer.done, |s.buffer|)
  }

  function Source(s: State): nat
    requires s.reader.Reading?
  {
    Slot(s.tail + |s.reader.got|, |s.buffer|)
  }

  /** `xStreamBufferSend`: a stream takes what fits, a message goes in whole or not at all. */
  function Settle(s: State, data: Message): Writer
    requires InRange(s)
  {
    if s.isMessage then
      if |data| + HEADER <= Spaces(s) then Writing(Header(|data|), 0, data) else WriterIdle
    else
      var n := Min(|data|, Spaces(s));
      if n == 0 then WriterIdle else Writing(data[..n], 0, [])
  }

  /** `xStreamBufferReceive` */
  function Begin(s: State, max: nat): Reader
    requires InRange(s)
  {
    if s.isMessage then
      if Bytes(s) > HEADER then Reading(HEADER, [], TakesHeader(Bytes(s))) else ReaderIdle
    else
      var n := Min(Bytes(s), max);
      if n == 0 then ReaderIdle else Reading(n, [], Plain)
  }

  /** What the reader goes on to, with the tail published. */
  function GoOn(r: Reader): Reader
    requires r.Reading?
  {
    match r.stage
    case Plain => ReaderIdle
    case TakesHeader(available) =>
      var length, rest := HeaderOf(r.got), if available > r.count then available - r.count else 0;
      Reading(Min(length, rest), [], TakesData(length, rest))
    case TakesData(_, _) => ReaderIdle
  }

  /** An action that is not enabled changes nothing. */
  function Step(s: State, a: Action): State {
    if !Enabled(s, a) then s
    else match a
      case SampleSpace(data) => s.(writer := Settle(s, data))
      case CopyIn =>
        s.(buffer := Store(s.buffer, Target(s), s.writer.data[s.writer.done]),
           writer := s.writer.(done := s.writer.done + 1))
      case PublishHead =>
        s.(head := Slot(s.head + |s.writer.data|, |s.buffer|),
           writer := if s.writer.next == [] then WriterIdle else Writing(s.writer.next, 0, []),
           written := s.written + s.writer.data,
           begun := if s.writer.next == [] then s.begun else s.begun + [s.writer.next])
      case SampleBytes(max) => s.(reader := Begin(s, max))
      case CopyOut =>
        s.(reader := s.reader.(got := s.reader.got + [Fetch(s.buffer, Source(s))]))
      case PublishTail =>
        s.(tail := Slot(s.tail + s.reader.count, |s.buffer|),
           reader := GoOn(s.reader),
           read := s.read + s.reader.got,
           received := if s.reader.stage.TakesData? then s.received + [s.reader.got] else s.received)
  }

  function Run(s: State, actions: seq<Action>): State
    decreases |actions|
  {
    if actions == [] then s else Run(Step(s, actions[0]), actions[1..])
  }

  // --------------------------------------------------------------- the invariant

  /** The bytes written and not yet read. */
  ghost function Unread(s: State): (u: seq<Byte>)
    requires InRange(s)
    ensures |u| == Bytes(s)
  {
    Window(s.buffer, s.tail, Bytes(s))
  }

  ghost predicate WriterOk(s: State)
    requires InRange(s)
  {
    s.writer.Writing? ==>
      && s.writer.done <= |s.writer.data| && |s.writer.data| + |s.writer.next| <= Spaces(s)
      && Window(s.buffer, s.head, s.writer.done) == s.writer.data[..s.writer.done]
  }

  /** What the reader sampled is still there. */
  ghost predicate StageOk(r: Reader, bytes: nat)
    requires r.Reading?
  {
    match r.stage
    case Plain => true
    case TakesHeader(available) => r.count == HEADER < available <= bytes
    case TakesData(length, available) => r.count == Min(length, available) && available <= bytes
  }

  ghost predicate ReaderOk(s: State)
    requires InRange(s)
  {
    s.reader.Reading? ==>
      && StageOk(s.reader, Bytes(s))
      && |s.reader.got| <= s.reader.count <= Bytes(s)
      && s.reader.got == Unread(s)[..|s.reader.got|]
  }

  ghost predicate Inv(s: State) {
    InRange(s) && s.written == s.read + Unread(s) && WriterOk(s) && ReaderOk(s)
  }

  /** The cell of the i-th unread byte. */
  ghost function UnreadCell(s: State, i: nat): nat {
    Slot(s.tail + i, |s.buffer|)
  }

  /** The writer never touches a cell that holds an unread byte. */
  lemma WriterStaysClear(s: State)
    requires Inv(s) && Enabled(s, CopyIn)
    ensures Target(s) < |s.buffer|
    ensures forall i :: 0 <= i < Bytes(s) ==> Target(s) != UnreadCell(s, i)
  {
  }

  lemma StepCopyIn(s: State)
    requires Inv(s) && Enabled(s, CopyIn)
    ensures Inv(Step(s, CopyIn)) && Unread(Step(s, CopyIn)) == Unread(s)
  {
    CopyInUnread(s);
    PushBack(s.buffer, s.head, s.writer.done, s.writer.data[s.writer.done]);
    WriterStaysClear(s);
    hide Unread; hide StageOk; hide Window; hide Slot;
  }

  lemma CopyInUnread(s: State)
    requires Inv(s) && Enabled(s, CopyIn)
    ensures Unread(Step(s, CopyIn)) == Unread(s)
  {
    var r := Step(s, CopyIn);
    WriterStaysClear(s);
    hide StageOk;
    forall i | 0 <= i < Bytes(s) ensures Unread(r)[i] == Unread(s)[i] {
      assert Target(s) != UnreadCell(s, i);
    }
  }

  /** A window and the data right behind it make a longer window. */
  lemma WindowGrows(buffer: seq<Byte>, tail: nat, used: nat, head: nat, data: seq<Byte>)
    requires tail < |buffer| && head < |buffer| && used < |buffer| && used + |data| <= |buffer|
    requires head == Slot(tail + used, |buffer|) && Window(buffer, head, |data|) == data
    ensures Window(buffer, tail, used + |data|) == Window(buffer, tail, used) + data
  {
    var w := Window(buffer, tail, used + |data|);
    WindowSplits(buffer, tail, used + |data|, used);
    hide Window; hide Slot;
    assert w == w[..used] + w[used..];
  }

  lemma PublishHeadUnread(s: State)
    requires Inv(s) && Enabled(s, PublishHead)
    ensures var r := Step(s, PublishHead);
            InRange(r) && Unread(r) == Unread(s) + s.writer.data
  {
    var n := |s.writer.data|;
    IndexArithmetic(s.head, s.tail, |s.buffer|, n);
    assert s.writer.data[..n] == s.writer.data;
    WindowGrows(s.buffer, s.tail, Bytes(s), s.head, s.writer.data);
    hide Window; hide Slot;
  }

  lemma StepPublishHead(s: State)
    requires Inv(s) && Enabled(s, PublishHead)
    ensures Inv(Step(s, PublishHead))
  {
    PublishHeadUnread(s);
    hide Unread; hide Bytes; hide Slot;
  }

  lemma PublishTailUnread(s: State)
    requires Inv(s) && Enabled(s, PublishTail)
    ensures var r := Step(s, PublishTail);
            && InRange(r) && Unread(s) == s.reader.got + Unread(r)
            && Spaces(s) <= Spaces(r)
  {
    var n, r := s.reader.count, Step(s, PublishTail);
    TailStaysInRange(s);
    WindowSplits(s.buffer, s.tail, Bytes(s), n);
    hide Window; hide Slot; hide Bytes; hide Spaces; hide GoOn;
    Rejoin(Unread(s), n);
  }

  lemma TailStaysInRange(s: State)
    requires Inv(s) && Enabled(s, PublishTail)
    ensures var r := Step(s, PublishTail);
            InRange(r) && Bytes(r) == Bytes(s) - s.reader.count && Spaces(r) == Spaces(s) + s.reader.count
  {
    IndexArithmetic(s.tail, s.head, |s.buffer|, s.reader.count);
    hide Window; hide GoOn; hide WriterOk;
  }

  /** What is left of the sample is enough for what the reader goes on to. */
  lemma StageGoesOn(r: Reader, bytes: nat)
    requires r.Reading? && StageOk(r, bytes) && |r.got| == r.count <= bytes
    ensures GoOn(r).Reading? ==>
              StageOk(GoOn(r), bytes - r.count) && GoOn(r).count <= bytes - r.count && GoOn(r).got == []
  {
    hide HeaderOf;
  }

  lemma StepPublishTail(s: State)
    requires Inv(s) && Enabled(s, PublishTail)
    ensures Inv(Step(s, PublishTail))
  {
    PublishTailUnread(s);
    StageGoesOn(s.reader, Bytes(s));
    hide Unread; hide Bytes; hide Spaces; hide Slot; hide GoOn; hide StageOk; hide Window;
    var r := Step(s, PublishTail);
    Join(s.read, s.reader.got, Unread(r));
    assert WriterOk(r);
    hide WriterOk;
    assert Bytes(r) == Bytes(s) - s.reader.count;
    assert ReaderOk(r);
  }

  /** The distance from b up to a. */
  function Distance(a: nat, b: nat, length: nat): int {
    if a >= b then a - b else length + a - b
  }

  /** Moving an index on by n lengthens the way to it and shortens the way from it. */
  lemma IndexArithmetic(a: nat, b: nat, length: nat, n: nat)
    requires a < length && b < length
    ensures a == Slot(b + Distance(a, b, length), length)
    ensures Distance(a, b, length) + n < length ==>
              Slot(a + n, length) < length
              && Distance(Slot(a + n, length), b, length) == Distance(a, b, length) + n
    ensures n <= Distance(b, a, length) ==>
              Slot(a + n, length) < length
              && Distance(b, Slot(a + n, length), length) == Distance(b, a, length) - n
  {
  }

  lemma StepCopyOut(s: State)
    requires Inv(s) && Enabled(s, CopyOut)
    ensures Inv(Step(s, CopyOut))
  {
    var k := |s.reader.got|;
    OneFurther(Unread(s), k);
    assert Fetch(s.buffer, Source(s)) == Unread(s)[k];
    hide Unread; hide Window; hide Fetch;
  }

  lemma OneFurther(u: seq<Byte>, k: nat)
    requires k < |u|
    ensures u[..k + 1] == u[..k] + [u[k]]
  {
  }

  lemma StepInv(s: State, a: Action)
    requires Inv(s)
    ensures Inv(Step(s, a)) && |Step(s, a).buffer| == |s.buffer|
  {
    if Enabled(s, a) {
      match a
      case CopyIn => StepCopyIn(s);
      case PublishHead => StepPublishHead(s);
      case PublishTail => StepPublishTail(s);
      case CopyOut => StepCopyOut(s);
      case SampleSpace(data) =>
      case SampleBytes(max) =>
    }
  }

  /** To both sides the buffer is a queue of bytes: publishing the head appends the bytes
      written, publishing the tail takes off the bytes read, and no other step shows. */
  lemma StepActsOnUnread(s: State, a: Action)
    requires Inv(s)
    ensures InRange(Step(s, a))
    ensures Unread(Step(s, a))
         == if !Enabled(s, a) then Unread(s)
            else if a.PublishHead? then Unread(s) + s.writer.data
            else if a.PublishTail? then Unread(s)[s.reader.count..]
            else Unread(s)
    ensures Enabled(s, a) && a.PublishTail? ==> s.reader.got == Unread(s)[..s.reader.count]
  {
    if Enabled(s, a) {
      match a
      case CopyIn => StepCopyIn(s);
      case PublishHead => PublishHeadUnread(s);
      case PublishTail => PublishTailUnread(s);
      case CopyOut =>
      case SampleSpace(data) =>
      case SampleBytes(max) =>
      hide Unread;
    }
  }

  ghost predicate Fresh(s: State) {
    && |s.buffer| > 0 && s.head == s.tail == 0
    && s.writer == WriterIdle && s.reader == ReaderIdle && s.written == s.read == []
    && s.begun == s.received == []
  }

  lemma {:induction false} RunInv(s: State, actions: seq<Action>)
    requires Inv(s)
    ensures Inv(Run(s, actions))
    decreases |actions|
  {
    if actions != [] {
      StepInv(s, actions[0]);
      RunInv(Step(s, actions[0]), actions[1..]);
    }
  }

  /** Under every interleaving the bytes the reader has taken, even those of a read in
      progress, are the first bytes written, in order. */
  lemma ReadIsPrefixOfWritten(s: State, actions: seq<Action>)
    requires Fresh(s)
    ensures var r := Run(s, actions);
            && r.read <= r.written
            && (r.reader.Reading? ==> r.read + r.reader.got <= r.written)
  {
    assert Unread(s) == [];
    RunInv(s, actions);
  }
}
