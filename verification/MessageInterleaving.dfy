/** A message buffer between one writer and one reader.  The writer publishes a message in
    two steps, header and data, and the reader takes it in two steps; the other side may
    run in between.  The unread bytes appear as a queue; `MessageRing` proves that the ring,
    with its one sample of space for header and data, moves as this machine does. */
module MessageInterleaving {
  import opened Sequences
  import opened StreamSpec

  datatype Writer = WriterIdle | HeaderOut(m: Message)

  /** `available` is the byte count the reader sampled, less what it has taken since. */
  datatype Reader = ReaderIdle | Sampled(available: nat) | HeaderTaken(length: nat, available: nat)

  /** `begun` and `received` are histories: the messages the writer has begun to publish
      and the data handed to the reader's caller. */
  datatype State = State(
    unread: seq<Byte>,
    writer: Writer,
    reader: Reader,
    begun: seq<seq<Byte>>,
    received: seq<seq<Byte>>)

  datatype Action = WriteHeader(m: Message) | WriteData | SampleBytes | ReadHeader | ReadData

  predicate Enabled(s: State, a: Action) {
    match a
    case WriteHeader(m) => s.writer.WriterIdle? && |m| > 0
    case WriteData => s.writer.HeaderOut?
    case SampleBytes => s.reader.ReaderIdle?
    case ReadHeader => s.reader.Sampled?
    case ReadData => s.reader.HeaderTaken?
  }

  /** `prvReadBytesFromBuffer`: what it takes of the unread bytes. */
  function Taken(s: State, max: nat, available: nat): nat {
    Min(|s.unread|, Min(available, max))
  }

  function Step(s: State, a: Action): State {
    if !Enabled(s, a) then s
    else match a
      case WriteHeader(m) =>
        s.(unread := s.unread + Header(|m|), writer := HeaderOut(m), begun := s.begun + [m])
      case WriteData =>
        s.(unread := s.unread + s.writer.m, writer := WriterIdle)
      case SampleBytes =>
        if |s.unread| <= HEADER then s else s.(reader := Sampled(|s.unread|))
      case ReadHeader =>
        var n := Taken(s, HEADER, s.reader.available);
        s.(unread := s.unread[n..],
           reader := HeaderTaken(HeaderOf(s.unread[..n]), if s.reader.available > n then s.reader.available - n else 0))
      case ReadData =>
        var n := Taken(s, s.reader.length, s.reader.available);
        s.(unread := s.unread[n..], reader := ReaderIdle, received := s.received + [s.unread[..n]])
  }

  function Run(s: State, actions: seq<Action>): State
    decreases |actions|
  {
    if actions == [] then s else Run(Step(s, actions[0]), actions[1..])
  }

  /** The header whose data is still to come. */
  function Dangling(w: Writer): seq<Byte> {
    if w.HeaderOut? then Header(|w.m|) else []
  }

  function Unfinished(w: Writer): seq<seq<Byte>> {
    if w.HeaderOut? then [w.m] else []
  }

  /** What the reader may count on: `now` is the message whose header it has taken. */
  ghost predicate ReaderOk(r: Reader, now: seq<Message>, pending: seq<Message>) {
    match r
    case ReaderIdle => now == []
    case Sampled(available) => now == [] && pending != [] && |Frame(pending[0])| <= available
    case HeaderTaken(length, available) => |now| == 1 && length == |now[0]| <= available
  }

  ghost function Rest(now: seq<Message>): seq<Byte> {
    if now == [] then [] else now[0]
  }

  /** The unread bytes are the rest of `now`, the complete messages behind it, and a header
      if the writer is between its two steps. */
  ghost predicate Holds(s: State, now: seq<Message>, pending: seq<Message>) {
    && NonEmpty(pending) && ReaderOk(s.reader, now, pending)
    && (s.writer.HeaderOut? ==> |s.writer.m| > 0)
    && s.begun == s.received + now + pending + Unfinished(s.writer)
    && s.unread == Rest(now) + Frames(pending) + Dangling(s.writer)
  }

  lemma StepWriteData(s: State, now: seq<Message>, pending: seq<Message>)
    requires Holds(s, now, pending) && s.writer.HeaderOut?
    ensures Holds(Step(s, WriteData), now, pending + [s.writer.m])
  {
    var m := s.writer.m;
    FramesAppend(pending, m);
    assert Frame(m) == Header(|m|) + m;
    hide Frames; hide Frame; hide Header; hide Rest; hide NonEmpty;
    Join(Rest(now) + Frames(pending), Header(|m|), m);
    Join(Rest(now), Frames(pending), Frame(m));
    Nothing(Rest(now) + Frames(pending + [m]));
    Join(s.received + now, pending, [m]);
    Nothing(s.received + now + (pending + [m]));
    OneMore(pending, m);
    StillSampled(s.reader, now, pending, m);
    hide ReaderOk;
  }

  lemma StillSampled(r: Reader, now: seq<Message>, pending: seq<Message>, m: Message)
    requires ReaderOk(r, now, pending)
    ensures ReaderOk(r, now, pending + [m])
  {
    hide Frame;
  }

  lemma StepReadHeader(s: State, pending: seq<Message>)
    requires Holds(s, [], pending) && s.reader.Sampled?
    ensures Holds(Step(s, ReadHeader), [pending[0]], pending[1..])
  {
    var m, later := pending[0], pending[1..];
    var rest := Frames(later) + Dangling(s.writer);
    assert Frames(pending) == Frame(m) + Frames(later);
    assert Rest([]) == [] && Rest([m]) == m && NonEmpty(later);
    assert |Frame(m)| == HEADER + |m|;
    FirstFrame(m, rest);
    FrameIsRead(m, rest);
    hide Frames; hide HeaderValue; hide Header; hide Frame; hide NonEmpty; hide Dangling; hide Rest; hide Unfinished;
    Nothing(Frames(pending));
    Join(Frame(m), Frames(later), Dangling(s.writer));
    assert s.unread == Frame(m) + rest;
    assert Taken(s, HEADER, s.reader.available) == HEADER;
    Join(m, Frames(later), Dangling(s.writer));
    HeadAndTail(pending);
    Nothing(s.received);
    Join(s.received, [m], later);
    Nothing(s.received + pending);
  }

  /** Behind the header of a frame lies the message, and what follows. */
  lemma FrameIsRead(m: Message, rest: seq<Byte>)
    ensures (Frame(m) + rest)[HEADER..] == m + rest
  {
    Join(Header(|m|), m, rest);
    SplitAt(Header(|m|), m + rest);
  }

  lemma StepReadData(s: State, now: seq<Message>, pending: seq<Message>)
    requires Holds(s, now, pending) && s.reader.HeaderTaken?
    ensures Holds(Step(s, ReadData), [], pending)
  {
    var m, rest := now[0], Frames(pending) + Dangling(s.writer);
    assert Rest([]) == [] && Rest(now) == m;
    hide Frames; hide Frame; hide Header; hide HeaderOf; hide NonEmpty; hide Dangling; hide Rest; hide Unfinished;
    Join(m, Frames(pending), Dangling(s.writer));
    assert s.unread == m + rest;
    SplitAt(m, rest);
    assert Taken(s, s.reader.length, s.reader.available) == |m|;
    Nothing(Frames(pending));
    assert now == [m];
    Nothing(s.received + [m]);
  }

  lemma StepHolds(s: State, now: seq<Message>, pending: seq<Message>, a: Action)
    returns (now': seq<Message>, pending': seq<Message>)
    requires Holds(s, now, pending)
    ensures Holds(Step(s, a), now', pending')
  {
    now', pending' := now, pending;
    if Enabled(s, a) {
      match a
      case WriteHeader(m) =>
      case WriteData =>
        pending' := pending + [s.writer.m];
        StepWriteData(s, now, pending);
      case SampleBytes =>
      case ReadHeader =>
        now', pending' := [pending[0]], pending[1..];
        StepReadHeader(s, pending);
      case ReadData =>
        now' := [];
        StepReadData(s, now, pending);
    }
  }

  lemma {:induction false} RunHolds(s: State, now: seq<Message>, pending: seq<Message>, actions: seq<Action>)
    returns (now': seq<Message>, pending': seq<Message>)
    requires Holds(s, now, pending)
    ensures Holds(Run(s, actions), now', pending')
    decreases |actions|
  {
    now', pending' := now, pending;
    if actions != [] {
      now', pending' := StepHolds(s, now, pending, actions[0]);
      now', pending' := RunHolds(Step(s, actions[0]), now', pending', actions[1..]);
    }
  }

  /** Whatever the interleaving, the messages received are the first ones begun, each whole
      and in order, and the one the writer has not finished is not among them. */
  lemma MessagesArriveWhole(s: State, actions: seq<Action>)
    requires s == State([], WriterIdle, ReaderIdle, [], [])
    ensures var r := Run(s, actions);
            && r.received <= r.begun
            && (r.writer.HeaderOut? ==> |r.received| < |r.begun| && r.begun[|r.begun| - 1] == r.writer.m)
            && (r.unread == [] && r.reader.ReaderIdle? ==> r.received == r.begun)
  {
    var now, pending := RunHolds(s, [], [], actions);
  }

  /** A reader that looks while nothing but an unfinished message's header is there takes
      nothing. */
  lemma HeaderAloneIsNotRead(s: State, now: seq<Message>)
    requires Holds(s, now, []) && s.reader.ReaderIdle?
    ensures Step(s, SampleBytes) == s
  {
    assert s.unread == Dangling(s.writer);
  }
}
