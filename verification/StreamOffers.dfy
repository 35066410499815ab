/** What the callers of `StreamInterleaving` ask for, read off their actions and the room and
    the bytes these find, and that writer and reader do just that: nothing that was accepted
    is cut, changed or forgotten, and nothing that was not accepted is written. */
module StreamOffers {
  import opened Sequences
  import opened StreamSpec
  import opened StreamInterleaving

  /** Someone comes with data while the writer is idle. */
  predicate Comes(s: State, a: Action) {
    InRange(s) && a.SampleSpace? && s.writer == WriterIdle && a.data != []
  }

  predicate Asks(s: State, a: Action) {
    InRange(s) && a.SampleBytes? && s.reader == ReaderIdle
  }

  /** A message that comes while there is room for it and its header. */
  function Offered(s: State, a: Action): seq<seq<Byte>> {
    if Comes(s, a) && |a.data| + HEADER <= Spaces(s) then [a.data] else []
  }

  /** As much of a stream as there is room for. */
  function OfferedBytes(s: State, a: Action): seq<Byte> {
    if Comes(s, a) then a.data[..Min(|a.data|, Spaces(s))] else []
  }

  /** A message is there when more than a header is. */
  function AskedMessages(s: State, a: Action): nat {
    if Asks(s, a) && Bytes(s) > HEADER then 1 else 0
  }

  function AskedBytes(s: State, a: Action): nat {
    if Asks(s, a) then Min(Bytes(s), a.max) else 0
  }

  function Offers(s: State, actions: seq<Action>): seq<seq<Byte>>
    decreases |actions|
  {
    if actions == [] then [] else Offered(s, actions[0]) + Offers(Step(s, actions[0]), actions[1..])
  }

  function AllOfferedBytes(s: State, actions: seq<Action>): seq<Byte>
    decreases |actions|
  {
    if actions == [] then [] else OfferedBytes(s, actions[0]) + AllOfferedBytes(Step(s, actions[0]), actions[1..])
  }

  function AllAskedMessages(s: State, actions: seq<Action>): nat
    decreases |actions|
  {
    if actions == [] then 0 else AskedMessages(s, actions[0]) + AllAskedMessages(Step(s, actions[0]), actions[1..])
  }

  function AllAskedBytes(s: State, actions: seq<Action>): nat
    decreases |actions|
  {
    if actions == [] then 0 else AskedBytes(s, actions[0]) + AllAskedBytes(Step(s, actions[0]), actions[1..])
  }

  // --------------------------------------------------------------------- messages

  /** The stages that writer and reader of a message buffer go through. */
  ghost predicate MessageMode(s: State) {
    && s.isMessage
    && (s.writer.Writing? ==>
          if s.writer.next == [] then 0 < |s.writer.data| <= 0xffff_fffb
          else s.writer.data == Header(|s.writer.next|))
    && (s.reader.Reading? ==> !s.reader.stage.Plain?)
  }

  lemma StepKeepsMode(s: State, a: Action)
    requires InRange(s) && MessageMode(s)
    ensures MessageMode(Step(s, a))
  {
    hide HeaderOf; hide Header; hide Store; hide Fetch;
  }

  /** The message whose header is still on its way. */
  function ToBegin(w: Writer): seq<seq<Byte>> {
    if w.Writing? && w.next != [] then [w.next] else []
  }

  function Busy(r: Reader): nat {
    if r.Reading? then 1 else 0
  }

  lemma StepBegins(s: State, a: Action)
    requires InRange(s) && MessageMode(s)
    ensures var r := Step(s, a); r.begun + ToBegin(r.writer) == s.begun + ToBegin(s.writer) + Offered(s, a)
  {
    hide HeaderOf; hide Header; hide Store; hide Fetch; hide Spaces; hide GoOn; hide Begin;
    Nothing(s.begun);
    Nothing(s.begun + ToBegin(s.writer));
  }

  lemma StepReads(s: State, a: Action)
    requires InRange(s) && MessageMode(s)
    ensures var r := Step(s, a);
            |r.received| + Busy(r.reader) == |s.received| + Busy(s.reader) + AskedMessages(s, a)
  {
    hide HeaderOf; hide Header; hide Store; hide Fetch; hide Bytes; hide Settle;
  }

  // ---------------------------------------------------------------------- streams

  ghost predicate StreamMode(s: State) {
    && !s.isMessage
    && (s.writer.Writing? ==> s.writer.next == [])
    && (s.reader.Reading? ==> s.reader.stage == Plain)
  }

  lemma StepKeepsStream(s: State, a: Action)
    requires InRange(s) && StreamMode(s)
    ensures StreamMode(Step(s, a))
  {
    hide Store; hide Fetch;
  }

  /** The data that the writer is copying. */
  function Coming(w: Writer): seq<Byte> {
    if w.Writing? then w.data else []
  }

  function Going(r: Reader): nat {
    if r.Reading? then r.count else 0
  }

  lemma StepWrites(s: State, a: Action)
    requires InRange(s) && StreamMode(s)
    ensures var r := Step(s, a); r.written + Coming(r.writer) == s.written + Coming(s.writer) + OfferedBytes(s, a)
  {
    hide Store; hide Fetch; hide Spaces; hide GoOn; hide Begin;
    Nothing(s.written);
    Nothing(s.written + Coming(s.writer));
  }

  lemma StepTakes(s: State, a: Action)
    requires InRange(s) && StreamMode(s)
    ensures var r := Step(s, a);
            |r.read| + Going(r.reader) == |s.read| + Going(s.reader) + AskedBytes(s, a)
  {
    hide Store; hide Fetch; hide Bytes; hide Settle;
  }

  // ------------------------------------------------------------------------- runs

  /** Whatever the interleaving, the messages begun, and the one about to be, are those that
      came while there was room for them, each as it came; and the reader reads as many times
      as it was asked to while a message was there. */
  lemma {:induction false} MessagesAreOffers(s: State, actions: seq<Action>)
    requires Inv(s) && MessageMode(s)
    ensures var r := Run(s, actions);
            && r.begun + ToBegin(r.writer) == s.begun + ToBegin(s.writer) + Offers(s, actions)
            && |r.received| + Busy(r.reader) == |s.received| + Busy(s.reader) + AllAskedMessages(s, actions)
    decreases |actions|
  {
    Nothing(s.begun + ToBegin(s.writer));
    if actions != [] {
      var a, rest := actions[0], actions[1..];
      var s1 := Step(s, a);
      StepInv(s, a);
      StepKeepsMode(s, a);
      StepBegins(s, a);
      StepReads(s, a);
      hide Step; hide ToBegin; hide Busy; hide Offered; hide AskedMessages; hide WriterOk; hide ReaderOk;
      hide MessageMode;
      MessagesAreOffers(s1, rest);
      Join(s.begun + ToBegin(s.writer), Offered(s, a), Offers(s1, rest));
    }
  }

  lemma {:induction false} StreamIsOffers(s: State, actions: seq<Action>)
    requires Inv(s) && StreamMode(s)
    ensures var r := Run(s, actions);
            && r.written + Coming(r.writer) == s.written + Coming(s.writer) + AllOfferedBytes(s, actions)
            && |r.read| + Going(r.reader) == |s.read| + Going(s.reader) + AllAskedBytes(s, actions)
    decreases |actions|
  {
    Nothing(s.written + Coming(s.writer));
    if actions != [] {
      var a, rest := actions[0], actions[1..];
      var s1 := Step(s, a);
      StepInv(s, a);
      StepKeepsStream(s, a);
      StepWrites(s, a);
      StepTakes(s, a);
      hide Step; hide Coming; hide Going; hide OfferedBytes; hide AskedBytes; hide WriterOk; hide ReaderOk;
      hide StreamMode;
      StreamIsOffers(s1, rest);
      Join(s.written + Coming(s.writer), OfferedBytes(s, a), AllOfferedBytes(s1, rest));
    }
  }

  /** The bytes that come out of a stream are the first of those that came while there was
      room, as many as were asked for while they were there; once both sides are idle and
      nothing is unread, they are all of them. */
  lemma StreamArrivesWhole(s: State, actions: seq<Action>)
    requires Fresh(s) && !s.isMessage
    ensures var r := Run(s, actions);
            var offered := AllOfferedBytes(s, actions);
            && InRange(r) && r.read <= offered && r.written + Coming(r.writer) == offered
            && |r.read| + Going(r.reader) == AllAskedBytes(s, actions)
            && (Bytes(r) == 0 && r.writer == WriterIdle && r.reader == ReaderIdle ==> r.read == offered)
  {
    assert Unread(s) == [];
    assert Inv(s);
    RunInv(s, actions);
    StreamIsOffers(s, actions);
    var r := Run(s, actions);
    Nothing(AllOfferedBytes(s, actions));
    PrefixOf(r.read, Unread(r), Coming(r.writer));
    hide Run; hide AllOfferedBytes; hide AllAskedBytes; hide WriterOk; hide ReaderOk; hide Unread;
  }

  lemma PrefixOf(u: seq<Byte>, v: seq<Byte>, w: seq<Byte>)
    ensures u <= u + v + w && (v == [] && w == [] ==> u + v + w == u)
  {
  }
}
