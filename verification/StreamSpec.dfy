/** Stream and message buffers of `stream_buffer.c` as byte sequences. */
module StreamSpec {
  import opened Sequences

  type Byte = x: int | 0 <= x < 256

  /** `sbBYTES_TO_STORE_MESSAGE_LENGTH`: a `size_t` of the 32-bit target. */
  const HEADER: nat := 4

  type Size = x: int | 0 <= x <= 0xffff_ffff

  function Min(a: nat, b: nat): nat {
    if a < b then a else b
  }

  // ---------------------------------------------------------------- length headers

  /** The four bytes of a `size_t` in memory, lowest first. */
  function Header(n: Size): (h: seq<Byte>)
    ensures |h| == HEADER
  {
    [n % 256, n / 256 % 256, n / 65536 % 256, n / 16777216]
  }

  function HeaderValue(h: seq<Byte>): Size
    requires |h| == HEADER
  {
    var b0: int, b1: int, b2: int, b3: int := h[0], h[1], h[2], h[3];
    b0 + 256 * b1 + 65536 * b2 + 16777216 * b3
  }

  /** What a reader makes of the bytes it took for a header. */
  function HeaderOf(bytes: seq<Byte>): Size {
    if |bytes| == HEADER then HeaderValue(bytes) else 0
  }

  lemma HeaderRoundTrip(n: Size)
    ensures HeaderValue(Header(n)) == n
  {
    LowestByte(n);
    LowestByte(n / 256);
    LowestByte(n / 65536);
    Quotients(n);
    assert Header(n)[0] == n % 256 && Header(n)[1] == n / 256 % 256;
    assert Header(n)[2] == n / 65536 % 256 && Header(n)[3] == n / 16777216;
    hide Header;
  }

  lemma LowestByte(n: nat)
    ensures n == n % 256 + 256 * (n / 256)
  {
  }

  lemma Quotients(n: nat)
    ensures n / 256 / 256 == n / 65536 && n / 65536 / 256 == n / 16777216
  {
  }

  // -------------------------------------------------------------------- operations

  /** A stream buffer takes what fits. */
  function SendBytes(contents: seq<Byte>, capacity: nat, data: seq<Byte>): (seq<Byte>, nat)
    requires |contents| <= capacity
  {
    var n := Min(|data|, capacity - |contents|);
    (contents + data[..n], n)
  }

  /** The first bytes of the data go in behind those there, and none stays out while there
      is room for it. */
  lemma SendBytesAnswers(contents: seq<Byte>, capacity: nat, data: seq<Byte>)
    requires |contents| <= capacity
    ensures var (c, n) := SendBytes(contents, capacity, data);
            && n <= |data| && |c| <= capacity && c == contents + data[..n]
            && (n == |data| || |c| == capacity)
  {
  }

  type Message = m: seq<Byte> | |m| <= 0xffff_fffb witness []

  function Frame(m: Message): (f: seq<Byte>)
    ensures |f| == HEADER + |m|
  {
    Header(|m|) + m
  }

  /** A message buffer takes the whole message with its header, or nothing. */
  function SendMessage(contents: seq<Byte>, capacity: nat, m: Message): (seq<Byte>, nat)
    requires |contents| <= capacity
  {
    if |m| + HEADER <= capacity - |contents| then (contents + Frame(m), |m|) else (contents, 0)
  }

  /** What is left, and what was read. */
  function ReceiveBytes(contents: seq<Byte>, max: nat): (seq<Byte>, seq<Byte>) {
    var n := Min(|contents|, max);
    (contents[n..], contents[..n])
  }

  /** A message too long for the caller's buffer stays where it is. */
  function ReceiveMessage(contents: seq<Byte>, max: nat): (seq<Byte>, seq<Byte>) {
    if |contents| <= HEADER then (contents, [])
    else
      var length := HeaderValue(contents[..HEADER]);
      if length > max then (contents, [])
      else
        var n := Min(length, |contents| - HEADER);
        (contents[HEADER + n..], contents[HEADER..HEADER + n])
  }

  /** What was read and what is left make up what was there; something is left only if the
      caller's buffer is full. */
  lemma ReceiveBytesAnswers(contents: seq<Byte>, max: nat)
    ensures var (left, taken) := ReceiveBytes(contents, max);
            taken + left == contents && |taken| <= max && (left == [] || |taken| == max)
  {
  }

  /** A message goes in exactly if there is room for it and its header, and then behind
      everything that was there. */
  lemma SendMessageAnswers(contents: seq<Byte>, capacity: nat, m: Message)
    requires |contents| <= capacity && |m| > 0
    ensures var (c, n) := SendMessage(contents, capacity, m);
            && (n == |m| || (n == 0 && c == contents))
            && (n == |m| <==> |contents| + HEADER + |m| <= capacity)
            && (n == |m| ==>
                  && |c| == |contents| + HEADER + |m| && c[..|contents|] == contents
                  && HeaderValue(c[|contents|..|contents| + HEADER]) == |m| && c[|contents| + HEADER..] == m)
  {
    var c := contents + Frame(m);
    SplitAt(contents, Frame(m));
    FirstFrame(m, []);
    Nothing(Frame(m));
    hide Frame; hide HeaderValue;
    assert |contents| + HEADER + |m| <= capacity ==> c[|contents|..|contents| + HEADER] == c[|contents|..][..HEADER];
    assert c[|contents| + HEADER..] == c[|contents|..][HEADER..];
  }

  // ----------------------------------------------------------------------- framing

  function Frames(ms: seq<Message>): seq<Byte> {
    if ms == [] then [] else Frame(ms[0]) + Frames(ms[1..])
  }

  ghost predicate NonEmpty(ms: seq<Message>) {
    forall m :: m in ms ==> |m| > 0
  }

  lemma {:induction false} FramesAppend(ms: seq<Message>, m: Message)
    ensures Frames(ms + [m]) == Frames(ms) + Frame(m)
  {
    if ms == [] {
      assert ms + [m] == [m];
      assert Frames([m]) == Frame(m) + Frames([]);
    } else {
      FramesAppend(ms[1..], m);
      assert (ms + [m])[1..] == ms[1..] + [m];
      assert Frame(ms[0]) + (Frames(ms[1..]) + Frame(m)) == Frame(ms[0]) + Frames(ms[1..]) + Frame(m);
    }
  }

  /** What the reader finds behind the first frame is the first message, whole. */
  lemma FirstFrame(m: Message, rest: seq<Byte>)
    ensures var c := Frame(m) + rest;
            && c[..HEADER] == Header(|m|) && HeaderValue(c[..HEADER]) == |m|
            && c[HEADER..HEADER + |m|] == m && c[HEADER + |m|..] == rest
  {
    HeaderRoundTrip(|m|);
    var c := Frame(m) + rest;
    assert c[..HEADER] == Header(|m|);
  }

  /** Receiving from a buffer of whole messages returns the oldest one, whole, when the
      caller's buffer is large enough, and otherwise nothing, leaving all as it is. */
  lemma ReceiveReturnsOldest(ms: seq<Message>, max: nat)
    requires NonEmpty(ms)
    ensures ReceiveMessage(Frames(ms), max)
         == if ms == [] || |ms[0]| > max then (Frames(ms), []) else (Frames(ms[1..]), ms[0])
  {
    if ms != [] {
      assert ms[0] in ms;
      FirstFrame(ms[0], Frames(ms[1..]));
    }
  }

  /** Whoever sends and receives whole messages through a message buffer, in any order,
      gets them back whole and in order. */
  datatype Op = Put(m: Message) | Get(max: nat)

  datatype Exchange = Exchange(contents: seq<Byte>, accepted: seq<seq<Byte>>, returned: seq<seq<Byte>>)

  function Perform(x: Exchange, capacity: nat, op: Op): (r: Exchange)
    requires |x.contents| <= capacity
    ensures |r.contents| <= capacity
  {
    match op
    case Put(m) =>
      var (c, n) := SendMessage(x.contents, capacity, m);
      Exchange(c, if n > 0 then x.accepted + [m] else x.accepted, x.returned)
    case Get(max) =>
      var (c, m) := ReceiveMessage(x.contents, max);
      Exchange(c, x.accepted, if m != [] then x.returned + [m] else x.returned)
  }

  function PerformAll(x: Exchange, capacity: nat, ops: seq<Op>): (r: Exchange)
    requires |x.contents| <= capacity
    ensures |r.contents| <= capacity
    decreases |ops|
  {
    if ops == [] then x else PerformAll(Perform(x, capacity, ops[0]), capacity, ops[1..])
  }

  ghost predicate Faithful(x: Exchange, pending: seq<Message>) {
    && NonEmpty(pending)
    && x.contents == Frames(pending)
    && x.accepted == x.returned + pending
  }

  lemma {:induction false} FramingRoundTrip(x: Exchange, pending: seq<Message>, capacity: nat, ops: seq<Op>)
    returns (left: seq<Message>)
    requires |x.contents| <= capacity && Faithful(x, pending)
    requires forall op :: op in ops && op.Put? ==> |op.m| > 0
    ensures Faithful(PerformAll(x, capacity, ops), left)
    decreases |ops|
  {
    if ops == [] {
      left := pending;
    } else {
      var next := PerformOne(x, pending, capacity, ops[0]);
      left := FramingRoundTrip(Perform(x, capacity, ops[0]), next, capacity, ops[1..]);
    }
  }

  lemma PerformOne(x: Exchange, pending: seq<Message>, capacity: nat, op: Op) returns (next: seq<Message>)
    requires |x.contents| <= capacity && Faithful(x, pending)
    requires op.Put? ==> |op.m| > 0
    ensures Faithful(Perform(x, capacity, op), next)
  {
    next := pending;
    hide Frame; hide Frames; hide NonEmpty;
    match op
    case Put(m) =>
      if |m| + HEADER <= capacity - |x.contents| {
        FramesAppend(pending, m);
        next := pending + [m];
        Join(x.returned, pending, [m]);
        OneMore(pending, m);
      }
    case Get(max) =>
      hide ReceiveMessage;
      ReceiveReturnsOldest(pending, max);
      if pending != [] && |pending[0]| <= max {
        next := pending[1..];
        HeadAndTail(pending);
        Join(x.returned, [pending[0]], next);
        OneLess(pending);
      }
  }

  lemma OneMore(ms: seq<Message>, m: Message)
    requires NonEmpty(ms) && |m| > 0
    ensures NonEmpty(ms + [m])
  {
  }

  lemma OneLess(ms: seq<Message>)
    requires NonEmpty(ms) && ms != []
    ensures |ms[0]| > 0 && NonEmpty(ms[1..])
  {
    assert ms[0] in ms;
  }

  // ------------------------------------------------------------------- feasibility

  /** What `xStreamBufferSend` asks for before it stops waiting. */
  function RequiredSpace(isMessage: bool, n: nat, length: nat): nat {
    if isMessage then n + HEADER else Min(n, length)
  }

  predicate Feasible(required: nat, length: nat) {
    required <= length
  }

  /** The usable capacity is one byte less than the length.  A message that passes the
      feasibility test goes into a buffer at some fill level if and only if what it needs is
      below the length: one that needs exactly the length passes the test in vain. */
  lemma FeasibleIsNotEnough(m: Message, length: nat)
    requires |m| > 0 && length > 0 && Feasible(RequiredSpace(true, |m|, length), length)
    ensures (exists contents: seq<Byte> ::
               |contents| < length && SendMessage(contents, length - 1, m) == (contents + Frame(m), |m|))
       <==> |m| + HEADER < length
  {
    if |m| + HEADER < length {
      var contents: seq<Byte> := [];
      assert SendMessage(contents, length - 1, m) == (contents + Frame(m), |m|);
    }
  }

  /** A stream is asked to hold no more than its length, and so waits in vain for the last of
      that many bytes; it then takes what fits. */
  lemma StreamWaitsInVain(n: nat, length: nat)
    requires length > 0
    ensures Feasible(RequiredSpace(false, n, length), length)
    ensures (exists contents: seq<Byte> ::
               |contents| < length && RequiredSpace(false, n, length) <= length - 1 - |contents|)
       <==> n < length
  {
    if n < length {
      var contents: seq<Byte> := [];
      assert RequiredSpace(false, n, length) <= length - 1 - |contents|;
    }
  }

  lemma NeverSent(contents: seq<Byte>, length: nat, m: Message)
    requires |contents| < length && |m| + HEADER == length
    ensures Feasible(RequiredSpace(true, |m|, length), length)
    ensures SendMessage(contents, length - 1, m) == (contents, 0)
  {
  }
}
