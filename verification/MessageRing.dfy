/** Messages on the ring of `StreamInterleaving`, copied byte by byte by a writer and a reader
    that share no lock: seen as a queue of unread bytes, each of its steps is a step of
    `MessageInterleaving` or none. */
module MessageRing {
  import opened Ring
  import opened Sequences
  import opened StreamSpec
  import opened StreamInterleaving
  import opened StreamOffers
  import M = MessageInterleaving

  /** A writer shows only once its header is published, and then until its data is. */
  ghost function SeenWriter(w: Writer): M.Writer {
    if w.Writing? && w.next == [] && |w.data| <= 0xffff_fffb then M.HeaderOut(w.data) else M.WriterIdle
  }

  ghost function SeenReader(r: Reader): M.Reader {
    if r.Reading? && r.stage.TakesHeader? then M.Sampled(r.stage.available)
    else if r.Reading? && r.stage.TakesData? then M.HeaderTaken(r.stage.length, r.stage.available)
    else M.ReaderIdle
  }

  ghost function Seen(s: State): M.State
    requires InRange(s)
  {
    M.State(Unread(s), SeenWriter(s.writer), SeenReader(s.reader), s.begun, s.received)
  }

  /** The step of the queue that a step of the ring completes, if any. */
  ghost function Moves(s: State, a: Action): seq<M.Action> {
    if !Enabled(s, a) then []
    else if a.SampleBytes? then [M.SampleBytes]
    else if a.PublishHead? then [if s.writer.next == [] then M.WriteData else M.WriteHeader(s.writer.next)]
    else if a.PublishTail? then [if s.reader.stage.TakesHeader? then M.ReadHeader else M.ReadData]
    else []
  }

  lemma OneMove(s: M.State, a: M.Action)
    ensures M.Run(s, [a]) == M.Step(s, a) && M.Run(s, []) == s
  {
    assert [a][1..] == [];
    hide M.Step;
  }

  lemma PublishHeadSimulates(s: State)
    requires Inv(s) && MessageMode(s) && Enabled(s, PublishHead)
    ensures var m := if s.writer.next == [] then M.WriteData else M.WriteHeader(s.writer.next);
            InRange(Step(s, PublishHead)) && Seen(Step(s, PublishHead)) == M.Step(Seen(s), m)
  {
    PublishHeadUnread(s);
    hide Unread; hide HeaderOf; hide Header; hide Slot; hide WriterOk; hide ReaderOk;
  }

  lemma SampleBytesSimulates(s: State, max: nat)
    requires Inv(s) && MessageMode(s) && Enabled(s, SampleBytes(max))
    ensures InRange(Step(s, SampleBytes(max))) && Seen(Step(s, SampleBytes(max))) == M.Step(Seen(s), M.SampleBytes)
  {
    StepActsOnUnread(s, SampleBytes(max));
    hide HeaderOf; hide Header; hide Slot; hide WriterOk; hide ReaderOk; hide Window;
  }

  lemma PublishTailSimulates(s: State)
    requires Inv(s) && MessageMode(s) && Enabled(s, PublishTail)
    ensures var m := if s.reader.stage.TakesHeader? then M.ReadHeader else M.ReadData;
            InRange(Step(s, PublishTail)) && Seen(Step(s, PublishTail)) == M.Step(Seen(s), m)
  {
    StepActsOnUnread(s, PublishTail);
    hide Unread; hide HeaderOf; hide Header; hide Slot; hide WriterOk; hide Bytes;
  }

  lemma StepSimulates(s: State, a: Action)
    requires Inv(s) && MessageMode(s)
    ensures InRange(Step(s, a)) && Seen(Step(s, a)) == M.Run(Seen(s), Moves(s, a))
  {
    StepActsOnUnread(s, a);
    OneMove(Seen(s), M.SampleBytes);
    if Enabled(s, a) {
      match a
      case PublishHead =>
        PublishHeadSimulates(s);
        OneMove(Seen(s), Moves(s, a)[0]);
      case PublishTail =>
        PublishTailSimulates(s);
        OneMove(Seen(s), Moves(s, a)[0]);
      case SampleBytes(max) => SampleBytesSimulates(s, max);
      case SampleSpace(data) =>
      case CopyIn =>
      case CopyOut =>
    }
    hide M.Step; hide M.Run; hide Unread; hide WriterOk; hide ReaderOk; hide Header; hide HeaderOf;
  }

  lemma {:induction false} MovesCompose(s: M.State, first: seq<M.Action>, rest: seq<M.Action>)
    ensures M.Run(s, first + rest) == M.Run(M.Run(s, first), rest)
    decreases |first|
  {
    hide M.Step;
    if first == [] {
      assert first + rest == rest;
    } else {
      MovesCompose(M.Step(s, first[0]), first[1..], rest);
      assert (first + rest)[1..] == first[1..] + rest;
    }
  }

  /** Every run of the ring is a run of the queue. */
  lemma {:induction false} RunSimulates(s: State, actions: seq<Action>) returns (moves: seq<M.Action>)
    requires Inv(s) && MessageMode(s)
    ensures Inv(Run(s, actions)) && MessageMode(Run(s, actions))
    ensures Seen(Run(s, actions)) == M.Run(Seen(s), moves)
    decreases |actions|
  {
    hide MessageMode; hide Seen; hide Step; hide M.Step; hide WriterOk; hide ReaderOk;
    moves := [];
    if actions != [] {
      var a := actions[0];
      StepInv(s, a);
      StepKeepsMode(s, a);
      StepSimulates(s, a);
      var later := RunSimulates(Step(s, a), actions[1..]);
      MovesCompose(Seen(s), Moves(s, a), later);
      moves := Moves(s, a) + later;
    }
  }

  /** The same against the messages begun. */
  lemma BegunArriveWhole(s: State, actions: seq<Action>)
    requires Fresh(s) && s.isMessage
    ensures var r := Run(s, actions);
            && InRange(r) && r.received <= r.begun
            && (r.writer.Writing? && r.writer.next == [] ==>
                  |r.received| < |r.begun| && r.begun[|r.begun| - 1] == r.writer.data)
            && (Bytes(r) == 0 && r.reader == ReaderIdle ==> r.received == r.begun)
  {
    assert Unread(s) == [];
    assert Inv(s) && Seen(s) == M.State([], M.WriterIdle, M.ReaderIdle, [], []);
    var moves := RunSimulates(s, actions);
    M.MessagesArriveWhole(Seen(s), moves);
    hide Run; hide M.Run; hide WriterOk; hide ReaderOk; hide Header;
  }

  /** `received` against all that came: those begun, and perhaps one about to be. */
  ghost predicate FirstOf(received: seq<seq<Byte>>, w: Writer, offers: seq<seq<Byte>>) {
    && received <= offers
    && (w.Writing? ==>
          && |received| < |offers|
          && offers[|offers| - 1] == if w.next == [] then w.data else w.next)
  }

  lemma ReceivedOfOffers(w: Writer, begun: seq<seq<Byte>>, received: seq<seq<Byte>>)
    requires received <= begun
    requires w.Writing? && w.next == [] ==> |received| < |begun| && begun[|begun| - 1] == w.data
    ensures FirstOf(received, w, begun + ToBegin(w)) && (w == WriterIdle ==> begun + ToBegin(w) == begun)
  {
  }

  lemma StartsFresh(s: State)
    requires Fresh(s) && s.isMessage
    ensures Inv(s) && MessageMode(s) && s.begun + ToBegin(s.writer) == [] && |s.received| + Busy(s.reader) == 0
  {
    assert Unread(s) == [];
  }

  /** Under every interleaving of single bytes the messages received are the first of those
      that came while there was room for them, each whole, as it came and in order; the one
      that is still being written is the last that came, and not among them.  The reader has
      taken one for each time it was asked while a message was there, and once nothing is
      unread and nobody is at work, it has taken all. */
  lemma MessagesArriveWhole(s: State, actions: seq<Action>)
    requires Fresh(s) && s.isMessage
    ensures var r := Run(s, actions);
            var offers := Offers(s, actions);
            && InRange(r) && FirstOf(r.received, r.writer, offers) && r.begun + ToBegin(r.writer) == offers
            && |r.received| + Busy(r.reader) == AllAskedMessages(s, actions)
            && (Bytes(r) == 0 && r.writer == WriterIdle && r.reader == ReaderIdle ==> r.received == offers)
  {
    hide *;
    StartsFresh(s);
    BegunArriveWhole(s, actions);
    MessagesAreOffers(s, actions);
    var r := Run(s, actions);
    Nothing(Offers(s, actions));
    ReceivedOfOffers(r.writer, r.begun, r.received);
  }
}
