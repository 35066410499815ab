/** `stream_buffer.c`: the ring of bytes with its head and tail index, updated in place,
    proved to be the byte sequence of `StreamSpec`. */
module StreamBuffer {
  import opened Ring
  import opened Sequences
  import opened StreamSpec

  ghost function Overlay(before: seq<Byte>, at: nat, src: seq<Byte>): (r: seq<Byte>)
    requires at + |src| <= |before|
    ensures |r| == |before|
  {
    before[..at] + src + before[at + |src|..]
  }

  lemma OverlayOne(before: seq<Byte>, at: nat, src: seq<Byte>, i: nat)
    requires at + |src| <= |before| && i < |src|
    ensures Overlay(before, at, src[..i])[at + i := src[i]] == Overlay(before, at, src[..i + 1])
  {
  }

  /** memcpy into an array */
  method CopyInto(dst: array<Byte>, at: nat, src: seq<Byte>)
    requires at + |src| <= dst.Length
    modifies dst
    ensures dst[..] == Overlay(old(dst[..]), at, src)
  {
    var i := 0;
    while i < |src|
      invariant 0 <= i <= |src|
      invariant dst[..] == Overlay(old(dst[..]), at, src[..i])
    {
      OverlayOne(old(dst[..]), at, src, i);
      hide Overlay;
      dst[at + i] := src[i];
      i := i + 1;
    }
  }

  /** Two memcpys: up to the end of the array, and the rest at its beginning. */
  ghost function OverlayRound(before: seq<Byte>, at: nat, src: seq<Byte>): (r: seq<Byte>)
    requires at < |before| && |src| <= |before|
    ensures |r| == |before|
  {
    var first := Min(|before| - at, |src|);
    Overlay(Overlay(before, at, src[..first]), 0, src[first..])
  }

  method CopyRound(dst: array<Byte>, at: nat, src: seq<Byte>)
    requires at < dst.Length && |src| <= dst.Length
    modifies dst
    ensures dst[..] == OverlayRound(old(dst[..]), at, src)
  {
    hide Overlay;
    var first := Min(dst.Length - at, |src|);
    CopyInto(dst, at, src[..first]);
    if |src| > first {
      CopyInto(dst, 0, src[first..]);
    } else {
      assert src[first..] == [];
      OverlayNothing(dst[..]);
    }
  }

  lemma OverlayNothing(before: seq<Byte>)
    ensures Overlay(before, 0, []) == before
  {
  }

  /** How many bytes lie between tail and head. */
  function Used(head: nat, tail: nat, length: nat): nat
    requires head < length && tail < length
  {
    if head >= tail then head - tail else length + head - tail
  }

  /** The last sample of the space that a waiting writer takes, starting from `space`, and
      how many bytes are left when it goes on. */
  function Waited(space: nat, used: nat, length: nat, required: nat, sleeps: seq<nat>): (r: (nat, nat))
    requires used < length
    ensures r.1 <= used && (r.0 == space || r.0 + r.1 < length)
    decreases |sleeps|
  {
    if sleeps == [] then (space, used)
    else
      var now := length - 1 - used;
      if now >= required then (now, used)
      else Waited(now, used - Min(used, sleeps[0]), length, required, sleeps[1..])
  }

  /** The space that a send goes by: no waiting for what is not feasible, and one more sample
      if the last was zero. */
  function Sampled(used: nat, length: nat, required: nat, sleeps: seq<nat>): (nat, nat)
    requires used < length
  {
    var (space, left) := Waited(0, used, length, required, if required > length then [] else sleeps);
    (if space == 0 then length - 1 - left else space, left)
  }

  lemma SampledFits(used: nat, length: nat, required: nat, sleeps: seq<nat>)
    requires used < length
    ensures var (space, left) := Sampled(used, length, required, sleeps); left <= used && space + left < length
  {
  }

  /** What is left after the first k sleeps. */
  function LeftAfter(used: nat, sleeps: seq<nat>, k: nat): (left: nat)
    requires k <= |sleeps|
    ensures left <= used
  {
    if k == 0 then used else LeftAfter(used - Min(used, sleeps[0]), sleeps[1..], k - 1)
  }

  lemma StartIsForgotten(a: nat, b: nat, used: nat, length: nat, required: nat, sleeps: seq<nat>)
    requires used < length && sleeps != []
    ensures Waited(a, used, length, required, sleeps) == Waited(b, used, length, required, sleeps)
  {
  }

  predicate RoomAt(used: nat, length: nat, required: nat, sleeps: seq<nat>, k: nat) {
    k <= |sleeps| && length - 1 - LeftAfter(used, sleeps, k) >= required
  }

  /** There is room before one of the sleeps. */
  ghost predicate RoomInTime(used: nat, length: nat, required: nat, sleeps: seq<nat>) {
    exists k :: 0 <= k < |sleeps| && RoomAt(used, length, required, sleeps, k)
  }

  /** The buffer is full before the last sleep, and there is room behind it. */
  predicate RoomAtLast(used: nat, length: nat, required: nat, sleeps: seq<nat>)
    requires sleeps != []
  {
    LeftAfter(used, sleeps, |sleeps| - 1) == length - 1 && RoomAt(used, length, required, sleeps, |sleeps|)
  }

  lemma RoomBehindFirst(used: nat, length: nat, required: nat, sleeps: seq<nat>)
    requires sleeps != [] && !RoomAt(used, length, required, sleeps, 0)
    ensures var left := used - Min(used, sleeps[0]);
            && (RoomInTime(used, length, required, sleeps) <==> RoomInTime(left, length, required, sleeps[1..]))
            && (|sleeps| > 1 ==>
                  (RoomAtLast(used, length, required, sleeps) <==> RoomAtLast(left, length, required, sleeps[1..])))
  {
    var left, later := used - Min(used, sleeps[0]), sleeps[1..];
    if RoomInTime(used, length, required, sleeps) {
      var k :| 0 <= k < |sleeps| && RoomAt(used, length, required, sleeps, k);
      assert k > 0 && RoomAt(left, length, required, later, k - 1);
    }
    if RoomInTime(left, length, required, later) {
      var k :| 0 <= k < |later| && RoomAt(left, length, required, later, k);
      assert RoomAt(used, length, required, sleeps, k + 1);
    }
  }

  lemma OneSleep(used: nat, length: nat, required: nat, sleeps: seq<nat>)
    requires used < length && 0 < required <= length && |sleeps| == 1 && length - 1 - used < required
    ensures Sampled(used, length, required, sleeps).0 >= required <==> RoomAtLast(used, length, required, sleeps)
  {
    var left, later := used - Min(used, sleeps[0]), sleeps[1..];
    assert later == [] && Waited(length - 1 - used, left, length, required, later) == (length - 1 - used, left);
    assert LeftAfter(used, sleeps, 0) == used && LeftAfter(used, sleeps, 1) == LeftAfter(left, later, 0) == left;
  }

  /** A sender that may wait sends its message if and only if there is room at one of its
      samples.  The sleep that uses up its time is followed by a sample only if the one before
      showed no space at all: room made in that sleep goes unnoticed otherwise. */
  lemma {:induction false} WaitingSucceedsExactlyWhen(used: nat, length: nat, required: nat, sleeps: seq<nat>)
    requires used < length && 0 < required <= length && sleeps != []
    ensures Sampled(used, length, required, sleeps).0 >= required
       <==> RoomInTime(used, length, required, sleeps) || RoomAtLast(used, length, required, sleeps)
    decreases |sleeps|
  {
    if length - 1 - used >= required {
      assert RoomAt(used, length, required, sleeps, 0);
    } else {
      var left, later := used - Min(used, sleeps[0]), sleeps[1..];
      RoomBehindFirst(used, length, required, sleeps);
      if later == [] {
        assert !RoomInTime(left, length, required, later);
        OneSleep(used, length, required, sleeps);
        hide RoomInTime; hide RoomAtLast; hide RoomAt; hide Sampled;
      } else {
        WaitingSucceedsExactlyWhen(left, length, required, later);
        StartIsForgotten(length - 1 - used, 0, left, length, required, later);
        hide RoomInTime; hide RoomAtLast; hide RoomAt;
      }
    }
  }

  /** A sender that may not wait, or has no hope, goes by the whole free space. */
  lemma NoWaitSeesAll(used: nat, length: nat, required: nat, sleeps: seq<nat>)
    requires used < length && (sleeps == [] || required > length)
    ensures Sampled(used, length, required, sleeps) == (length - 1 - used, used)
  {
  }

  function Total(sleeps: seq<nat>): nat {
    if sleeps == [] then 0 else sleeps[0] + Total(sleeps[1..])
  }

  /** The reader takes what it can in each sleep, as long as there is something. */
  lemma {:induction false} LeftAfterIs(used: nat, sleeps: seq<nat>, k: nat)
    requires k <= |sleeps|
    ensures LeftAfter(used, sleeps, k) == if Total(sleeps[..k]) >= used then 0 else used - Total(sleeps[..k])
  {
    if k > 0 {
      LeftAfterIs(used - Min(used, sleeps[0]), sleeps[1..], k - 1);
      assert sleeps[..k][1..] == sleeps[1..][..k - 1];
    }
  }

  /** The sleep before which there is room for the first time, if there is one. */
  ghost predicate FirstRoom(used: nat, length: nat, required: nat, sleeps: seq<nat>, k: nat) {
    && k <= |sleeps|
    && (forall j :: 0 <= j < k ==> !RoomAt(used, length, required, sleeps, j))
    && (k < |sleeps| ==> RoomAt(used, length, required, sleeps, k))
  }

  lemma FirstRoomLater(used: nat, length: nat, required: nat, sleeps: seq<nat>, k: nat)
    requires used < length && FirstRoom(used, length, required, sleeps, k) && k > 0
    ensures var left, later := used - Min(used, sleeps[0]), sleeps[1..];
            && length - 1 - used < required && FirstRoom(left, length, required, later, k - 1)
            && LeftAfter(used, sleeps, k) == LeftAfter(left, later, k - 1)
            && (k > 1 ==> LeftAfter(used, sleeps, k - 1) == LeftAfter(left, later, k - 2))
  {
    assert !RoomAt(used, length, required, sleeps, 0);
    var left, later := used - Min(used, sleeps[0]), sleeps[1..];
    forall j | 0 <= j < k - 1 ensures !RoomAt(left, length, required, later, j) {
      assert !RoomAt(used, length, required, sleeps, j + 1);
    }
  }

  /** A waiting sender stops at its first sample that shows room, and does not let the reader
      take more; without one it sleeps to the end and keeps its last sample. */
  lemma {:induction false} WaitedIs(space: nat, used: nat, length: nat, required: nat, sleeps: seq<nat>, k: nat)
    requires used < length && sleeps != [] && FirstRoom(used, length, required, sleeps, k)
    ensures var seen := LeftAfter(used, sleeps, if k < |sleeps| then k else k - 1);
            Waited(space, used, length, required, sleeps) == (length - 1 - seen, LeftAfter(used, sleeps, k))
    decreases |sleeps|
  {
    if k > 0 {
      var left, later := used - Min(used, sleeps[0]), sleeps[1..];
      FirstRoomLater(used, length, required, sleeps, k);
      if later != [] {
        WaitedIs(length - 1 - used, left, length, required, later, k - 1);
      }
    }
  }

  class StreamBuffer {
    const buffer: array<Byte>
    const isMessageBuffer: bool
    var head: nat
    var tail: nat

    /** Lengths below 2^31, so that the index arithmetic cannot overflow a `size_t`. */
    ghost predicate Valid()
      reads this
    {
      && HEADER < buffer.Length < 0x8000_0000
      && head < buffer.Length && tail < buffer.Length
    }

    ghost function Contents(): (c: seq<Byte>)
      requires Valid()
      reads this, buffer
      ensures |c| < buffer.Length
    {
      Window(buffer[..], tail, Used(head, tail, buffer.Length))
    }

    constructor (length: nat, isMessageBuffer: bool)
      requires HEADER < length < 0x8000_0000
      ensures Valid() && fresh(buffer) && buffer.Length == length && Contents() == []
      ensures this.isMessageBuffer == isMessageBuffer
    {
      buffer := new Byte[length](_ => 0);
      this.isMessageBuffer := isMessageBuffer;
      head, tail := 0, 0;
    }

    /** `prvBytesInBuffer` */
    method BytesInBuffer() returns (count: nat)
      requires Valid()
      ensures count == |Contents()|
    {
      count := buffer.Length + head;
      count := count - tail;
      if count >= buffer.Length {
        count := count - buffer.Length;
      }
    }

    /** `xStreamBufferSpacesAvailable` */
    method SpacesAvailable() returns (space: nat)
      requires Valid()
      ensures space + |Contents()| == buffer.Length - 1
    {
      space := buffer.Length + tail;
      space := space - head;
      space := space - 1;
      if space >= buffer.Length {
        space := space - buffer.Length;
      }
    }

    /** `prvWriteBytesToBuffer` */
    method WriteBytes(data: seq<Byte>)
      requires Valid() && 0 < |data| && |Contents()| + |data| < buffer.Length
      modifies this`head, buffer
      ensures Valid() && Contents() == old(Contents()) + data
    {
      Copied(buffer[..], tail, |Contents()|, data);
      hide OverlayRound; hide Window;
      var nextHead := head;
      CopyRound(buffer, nextHead, data);
      nextHead := nextHead + |data|;
      if nextHead >= buffer.Length {
        nextHead := nextHead - buffer.Length;
      }
      head := nextHead;
    }

    /** The two copies of `prvReadBytesFromBuffer`. */
    method CopyOut(count: nat) returns (data: seq<Byte>)
      requires Valid() && count < buffer.Length
      ensures data == Window(buffer[..], tail, count)
    {
      ReadRound(buffer[..], tail, count);
      hide Window;
      var first := Min(buffer.Length - tail, count);
      data := buffer[tail..tail + first];
      if count > first {
        data := data + buffer[..count - first];
      } else {
        Nothing(data);
      }
    }

    /** `prvReadBytesFromBuffer`, with the number of bytes the caller knows to be there. */
    method ReadBytes(max: nat, available: nat) returns (data: seq<Byte>)
      requires Valid() && available <= |Contents()|
      modifies this`tail
      ensures Valid()
      ensures var n := Min(available, max);
              data == old(Contents())[..n] && Contents() == old(Contents())[n..]
    {
      var count := Min(available, max);
      data := [];
      WindowSplits(buffer[..], tail, |Contents()|, count);
      TailMovesOn(head, tail, count, buffer.Length);
      hide Window; hide Used;
      if count > 0 {
        data := CopyOut(count);
        var nextTail := tail + count;
        if nextTail >= buffer.Length {
          nextTail := nextTail - buffer.Length;
        }
        tail := nextTail;
      }
    }

    /** `prvWriteMessageToBuffer`, with the space the caller has sampled; the reader may have
        made more since.  The buffer takes what one of just that space would. */
    method WriteMessage(data: seq<Byte>, space: nat, required: nat) returns (n: nat)
      requires Valid() && 0 < |data| <= 0xffff_fffb
      requires space + |Contents()| < buffer.Length
      requires isMessageBuffer ==> required == |data| + HEADER
      modifies this`head, buffer
      ensures Valid()
      ensures var c := old(Contents());
              (Contents(), n) == if isMessageBuffer then SendMessage(c, |c| + space, data)
                                 else SendBytes(c, |c| + space, data)
    {
      n := |data|;
      if space == 0 {
        assert Contents() + data[..0] == Contents();
        return 0;
      } else if !isMessageBuffer {
        n := Min(n, space);
      } else if space >= required {
        WriteBytes(Header(n));
      } else {
        return 0;
      }
      WriteBytes(data[..n]);
      assert isMessageBuffer ==> old(Contents()) + Header(|data|) + data[..n] == old(Contents()) + Frame(data);
    }

    /** The reader takes up to n bytes while the writer sleeps. */
    method ReaderTakes(n: nat)
      requires Valid()
      modifies this`tail
      ensures Valid() && Contents() == old(Contents())[Min(|old(Contents())|, n)..]
    {
      var available := BytesInBuffer();
      var _ := ReadBytes(n, available);
    }

    /** The loop of `xStreamBufferSend`: samples the space, and sleeps as long as it is too
        small and the time is not up.  `sleeps` says how many bytes the reader takes in each
        sleep; the time is up with the last. */
    method WaitForSpace(required: nat, sleeps: seq<nat>) returns (space: nat)
      requires Valid()
      modifies this`tail
      ensures Valid()
      ensures var (last, used) := Waited(0, |old(Contents())|, buffer.Length, required, sleeps);
              space == last && used == |Contents()| <= |old(Contents())|
              && Contents() == old(Contents())[|old(Contents())| - used..]
    {
      hide Window; hide Used; hide Min; hide Suffix; hide Waited;
      space := 0;
      var i := 0;
      ghost var c := Contents();
      SuffixOfItself(c);
      assert sleeps[0..] == sleeps;
      while i < |sleeps|
        invariant Valid() && 0 <= i <= |sleeps| && Suffix(Contents(), c)
        invariant Waited(space, |Contents()|, buffer.Length, required, sleeps[i..])
               == Waited(0, |c|, buffer.Length, required, sleeps)
      {
        WaitsOnce(space, |Contents()|, buffer.Length, required, sleeps, i);
        space := SpacesAvailable();
        if space >= required {
          SuffixIs(Contents(), c);
          return;
        }
        SuffixDrops(Contents(), c, Min(|Contents()|, sleeps[i]));
        ReaderTakes(sleeps[i]);
        i := i + 1;
      }
      NoMoreSleeps(space, |Contents()|, buffer.Length, required, sleeps[i..]);
      SuffixIs(Contents(), c);
    }

    /** `xStreamBufferSend`; no `sleeps` stand for a block time of zero.  The source asserts
        that there is something to send. */
    method Send(data: seq<Byte>, sleeps: seq<nat>) returns (n: nat)
      requires Valid() && 0 < |data| <= 0xffff_fffb
      modifies this`head, this`tail, buffer
      ensures Valid()
      ensures var c := old(Contents());
              var (space, used) := Sampled(|c|, buffer.Length, RequiredSpace(isMessageBuffer, |data|, buffer.Length), sleeps);
              && used <= |c| && used + space < buffer.Length
              && (Contents(), n) == if isMessageBuffer then SendMessage(c[|c| - used..], used + space, data)
                                    else SendBytes(c[|c| - used..], used + space, data)
    {
      hide Window; hide Used; hide SendMessage; hide SendBytes; hide Waited;
      var required := RequiredSpace(isMessageBuffer, |data|, buffer.Length);
      var space := WaitForSpace(required, if required > buffer.Length then [] else sleeps);
      SampledFits(|old(Contents())|, buffer.Length, required, sleeps);
      if space == 0 {
        space := SpacesAvailable();
      }
      n := WriteMessage(data, space, required);
    }

    /** `prvReadMessageFromBuffer`, with the count the caller has sampled; the writer may have
        added more since.  What comes out is what those bytes alone hold. */
    method ReadMessage(max: nat, available: nat) returns (data: seq<Byte>)
      requires Valid() && available <= |Contents()|
      requires isMessageBuffer ==> available > HEADER
      modifies this`tail
      ensures Valid()
      ensures var c := old(Contents());
              var (left, taken) := if isMessageBuffer then ReceiveMessage(c[..available], max)
                                   else ReceiveBytes(c[..available], max);
              data == taken && Contents() == left + c[available..]
    {
      ghost var c := Contents();
      TakeSampled(c, available, max);
      var next, rest := max, available;
      if isMessageBuffer {
        TakeSampledMessage(c, available, max);
        var originalTail := tail;
        var header := ReadBytes(HEADER, available);
        next, rest := HeaderValue(header), available - HEADER;
        if next > max {
          tail := originalTail;
          next := 0;
        }
      }
      data := ReadBytes(next, rest);
    }

    /** `xStreamBufferReceive`; `arriving` is what the writer adds while the reader sleeps, if
        it has to and may. */
    method Receive(max: nat, mayWait: bool, arriving: seq<Byte>) returns (data: seq<Byte>)
      requires Valid() && |Contents()| + |arriving| < buffer.Length
      modifies this`head, this`tail, buffer
      ensures Valid()
      ensures var nothing := |old(Contents())| <= if isMessageBuffer then HEADER else 0;
              var c := if nothing && mayWait then old(Contents()) + arriving else old(Contents());
              (Contents(), data) == if isMessageBuffer then ReceiveMessage(c, max) else ReceiveBytes(c, max)
    {
      var available := BytesInBuffer();
      if mayWait && available <= (if isMessageBuffer then HEADER else 0) {
        if arriving != [] {
          WriteBytes(arriving);
        }
        assert old(Contents()) + [] == old(Contents());
        available := BytesInBuffer();
      }
      ghost var c := Contents();
      data := [];
      if available > if isMessageBuffer then HEADER else 0 {
        data := ReadMessage(max, available);
        ghost var left := if isMessageBuffer then ReceiveMessage(c, max).0 else ReceiveBytes(c, max).0;
        assert c[..available] == c && c[available..] == [] && left + [] == left;
      }
    }

    /** `xStreamBufferNextMessageLengthBytes`; the source asserts that a message buffer
        without a message is empty. */
    method NextMessageLength() returns (n: nat)
      requires Valid()
      requires isMessageBuffer && |Contents()| <= HEADER ==> Contents() == []
      modifies this`tail
      ensures Valid() && Contents() == old(Contents())
      ensures n == if isMessageBuffer && Contents() != [] then HeaderValue(Contents()[..HEADER]) else 0
    {
      var available := BytesInBuffer();
      n := 0;
      if isMessageBuffer && available > HEADER {
        var originalTail := tail;
        var header := ReadBytes(HEADER, available);
        n := HeaderValue(header);
        tail := originalTail;
      }
    }
  }

  /** Taking from the first `available` bytes, and taking from all of them with a limit. */
  lemma TakeSampled(c: seq<Byte>, available: nat, max: nat)
    requires available <= |c|
    ensures var n := Min(available, max);
            ReceiveBytes(c[..available], max) == (c[n..available], c[..n]) && c[n..available] + c[available..] == c[n..]
    ensures c[..available] + c[available..] == c && c[0..] == c && c[..0] == []
  {
    var n := Min(available, max);
    assert c[..available][..n] == c[..n];
    assert c[..available][n..] == c[n..available];
  }

  /** The same for a message, behind its header. */
  lemma TakeSampledMessage(c: seq<Byte>, available: nat, max: nat)
    requires HEADER < available <= |c|
    ensures var length := HeaderValue(c[..HEADER]);
            var n := Min(length, available - HEADER);
            && ReceiveMessage(c[..available], max)
            == (if length > max then (c[..available], []) else (c[HEADER + n..available], c[HEADER..][..n]))
            && c[HEADER + n..available] + c[available..] == c[HEADER..][n..]
  {
    assert c[..available][..HEADER] == c[..HEADER];
    var n := Min(HeaderValue(c[..HEADER]), available - HEADER);
    hide HeaderValue; hide Min;
    assert c[..available][HEADER + n..] == c[HEADER + n..available];
    assert c[..available][HEADER..HEADER + n] == c[HEADER..][..n];
    assert c[HEADER + n..available] + c[available..] == c[HEADER..][n..];
  }

  ghost predicate Suffix<T>(s: seq<T>, c: seq<T>) {
    |s| <= |c| && s == c[|c| - |s|..]
  }

  lemma SuffixOfItself<T>(c: seq<T>)
    ensures Suffix(c, c)
  {
  }

  lemma SuffixIs<T>(s: seq<T>, c: seq<T>)
    requires Suffix(s, c)
    ensures |s| <= |c| && s == c[|c| - |s|..]
  {
  }

  lemma SuffixDrops<T>(s: seq<T>, c: seq<T>, n: nat)
    requires Suffix(s, c) && n <= |s|
    ensures Suffix(s[n..], c) && |s[n..]| == |s| - n
  {
  }

  lemma WaitsOnce(space: nat, used: nat, length: nat, required: nat, sleeps: seq<nat>, i: nat)
    requires used < length && i < |sleeps|
    ensures Waited(space, used, length, required, sleeps[i..])
         == if length - 1 - used >= required then (length - 1 - used, used)
            else Waited(length - 1 - used, used - Min(used, sleeps[i]), length, required, sleeps[i + 1..])
  {
    assert sleeps[i..][1..] == sleeps[i + 1..];
  }

  lemma NoMoreSleeps(space: nat, used: nat, length: nat, required: nat, sleeps: seq<nat>)
    requires used < length && sleeps == []
    ensures Waited(space, used, length, required, sleeps) == (space, used)
  {
  }

  lemma TailMovesOn(head: nat, tail: nat, n: nat, length: nat)
    requires head < length && tail < length && n <= Used(head, tail, length)
    ensures Slot(tail + n, length) < length
    ensures Used(head, Slot(tail + n, length), length) == Used(head, tail, length) - n
  {
  }

  /** Two stretches of the array make up the window. */
  lemma ReadRound(buffer: seq<Byte>, tail: nat, count: nat)
    requires tail < |buffer| && count < |buffer|
    ensures var first := Min(|buffer| - tail, count);
            Window(buffer, tail, count) == buffer[tail..tail + first] + buffer[..count - first]
  {
  }

  /** What a write behind `used` bytes leaves in the buffer: the bytes there were, and then
      the new ones. */
  lemma Copied(before: seq<Byte>, tail: nat, used: nat, data: seq<Byte>)
    requires tail < |before| && 0 < |data| && used + |data| < |before|
    ensures Window(OverlayRound(before, Slot(tail + used, |before|), data), tail, used + |data|)
         == Window(before, tail, used) + data
  {
    var head := Slot(tail + used, |before|);
    var after := OverlayRound(before, head, data);
    var w := Window(after, tail, used + |data|);
    forall i | 0 <= i < used + |data| ensures w[i] == (Window(before, tail, used) + data)[i] {
      OverlayRoundAt(before, head, data, Slot(tail + i, |before|));
      hide OverlayRound;
      assert w[i] == after[Slot(tail + i, |before|)];
    }
  }

  lemma OverlayAt(before: seq<Byte>, at: nat, src: seq<Byte>, i: nat)
    requires at + |src| <= |before| && i < |before|
    ensures Overlay(before, at, src)[i] == if at <= i < at + |src| then src[i - at] else before[i]
  {
  }

  lemma OverlayRoundAt(before: seq<Byte>, at: nat, src: seq<Byte>, i: nat)
    requires at < |before| && |src| <= |before| && i < |before|
    ensures OverlayRound(before, at, src)[i]
         == if at <= i < at + |src| then src[i - at]
            else if i + |before| < at + |src| then src[i + |before| - at]
            else before[i]
  {
    var first := Min(|before| - at, |src|);
    OverlayAt(before, at, src[..first], i);
    OverlayAt(Overlay(before, at, src[..first]), 0, src[first..], i);
    hide Overlay;
  }
}
