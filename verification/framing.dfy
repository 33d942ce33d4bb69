/** Messages over a byte stream (`net::MessageStream`). The socket is what it answers:
    how many bytes each send accepts, and which chunks the receives give. */
module Framing {
  import opened Common
  import opened ByteStream

  const HEADER := 6
  const MAX_PAYLOAD := 0x10_0000

  datatype Message = Message(kind: nat, payload: seq<byte>)

  /** What the 16 and 32 bits of a frame's header can say. */
  predicate Fits(m: Message) { m.kind < 0x1_0000 && |m.payload| < 0x1_0000_0000 }

  datatype Stream = Stream(readBuffer: seq<byte>, writeBuffer: seq<byte>, writeOffset: nat)

  // ------------------------------------------------------- what the calls do

  function Header(m: Message): (h: seq<byte>)
    ensures |h| == HEADER
  {
    Little(|m.payload|, 4) + Little(m.kind, 2)
  }

  function Frame(m: Message): seq<byte> { Header(m) + m.payload }

  function Unsent(s: Stream): seq<byte>
    requires s.writeOffset <= |s.writeBuffer|
  {
    s.writeBuffer[s.writeOffset..]
  }

  /** After the socket has taken n more bytes. */
  function Flushed(s: Stream, n: nat): Stream
    requires s.writeOffset + n <= |s.writeBuffer|
  {
    if s.writeOffset + n == |s.writeBuffer| then s.(writeBuffer := [], writeOffset := 0)
    else s.(writeOffset := s.writeOffset + n)
  }

  function Queued(s: Stream, m: Message): Stream { s.(writeBuffer := s.writeBuffer + Frame(m)) }

  /** What a socket takes of `left` bytes whose successive sends accept `grants`. */
  function Accepted(grants: seq<nat>, left: nat): (n: nat)
    ensures n <= left
    decreases |grants|
  {
    if left == 0 || grants == [] || grants[0] == 0 then 0
    else
      var k := Min(grants[0], left);
      k + Accepted(grants[1..], left - k)
  }

  /** Whether it fails before it is full or everything is taken. */
  predicate Breaks(grants: seq<nat>, broken: bool, left: nat)
    decreases |grants|
  {
    if left == 0 then false
    else if grants == [] then broken
    else grants[0] != 0 && Breaks(grants[1..], broken, left - Min(grants[0], left))
  }

  predicate Oversized(buffer: seq<byte>) { |buffer| >= HEADER && Number(buffer[..4]) > MAX_PAYLOAD }

  predicate Whole(buffer: seq<byte>) {
    |buffer| >= HEADER && Number(buffer[..4]) <= MAX_PAYLOAD && |buffer| >= HEADER + Number(buffer[..4])
  }

  function First(buffer: seq<byte>): Message
    requires Whole(buffer)
  {
    Message(Number(buffer[4..6]), buffer[HEADER..HEADER + Number(buffer[..4])])
  }

  function Rest(buffer: seq<byte>): seq<byte>
    requires Whole(buffer)
  {
    buffer[HEADER + Number(buffer[..4])..]
  }

  function Concat(chunks: seq<seq<byte>>): seq<byte> {
    if chunks == [] then [] else Concat(chunks[..|chunks| - 1]) + chunks[|chunks| - 1]
  }

  // ----------------------------------------------------------------- in place

  class MessageStream {
    var readBuffer: seq<byte>
    var writeBuffer: seq<byte>
    var writeOffset: nat

    ghost predicate Valid()
      reads this
    {
      writeOffset <= |writeBuffer|
    }

    ghost function Now(): Stream
      reads this
    {
      Stream(readBuffer, writeBuffer, writeOffset)
    }

    constructor ()
      ensures Valid() && Now() == Stream([], [], 0)
    {
      readBuffer, writeBuffer, writeOffset := [], [], 0;
    }

    /** Drains the socket: `chunks` are there, and then it blocks or is broken. Gives up
        on an oversized claim, with the later chunks unread. */
    method Pump(chunks: seq<seq<byte>>, broken: bool) returns (ok: bool, taken: nat)
      requires Valid() && forall k :: 0 <= k < |chunks| ==> 0 < |chunks[k]| <= 4096
      modifies this
      ensures Valid() && taken <= |chunks|
      ensures Now() == old(Now()).(readBuffer := old(readBuffer) + Concat(chunks[..taken]))
      ensures ok ==> taken == |chunks| && !broken && (taken > 0 ==> !Oversized(readBuffer))
      ensures !ok ==> (taken == |chunks| && broken) || (taken > 0 && Oversized(readBuffer))
      ensures forall k :: 0 < k < taken ==> !Oversized(old(readBuffer) + Concat(chunks[..k]))
    {
      taken := 0;
      while taken < |chunks|
        invariant taken <= |chunks|
        invariant Now() == old(Now()).(readBuffer := old(readBuffer) + Concat(chunks[..taken]))
        invariant forall k :: 0 < k <= taken ==> !Oversized(old(readBuffer) + Concat(chunks[..k]))
      {
        assert chunks[..taken + 1][..taken] == chunks[..taken];
        assert (old(readBuffer) + Concat(chunks[..taken])) + chunks[taken]
            == old(readBuffer) + (Concat(chunks[..taken]) + chunks[taken]);
        readBuffer := readBuffer + chunks[taken];
        taken := taken + 1;
        if Oversized(readBuffer) { return false, taken; }
      }
      ok := !broken;
    }

    method Next() returns (r: Option<Message>)
      requires Valid()
      modifies this`readBuffer
      ensures r.Some? == Whole(old(readBuffer))
      ensures if r.None? then readBuffer == old(readBuffer)
              else r.value == First(old(readBuffer)) && readBuffer == Rest(old(readBuffer))
    {
      if |readBuffer| < HEADER { return None; }
      var payloadSize := Number(readBuffer[..4]);
      if payloadSize > MAX_PAYLOAD { return None; }
      if |readBuffer| < HEADER + payloadSize { return None; }
      r := Some(Message(Number(readBuffer[4..6]), readBuffer[HEADER..HEADER + payloadSize]));
      readBuffer := readBuffer[HEADER + payloadSize..];
    }

    method Send(m: Message, grants: seq<nat>, broken: bool) returns (out: seq<byte>)
      requires Valid()
      modifies this
      ensures Valid()
      ensures var q := Queued(old(Now()), m); var n := Accepted(grants, |Unsent(q)|);
              Now() == Flushed(q, n) && out == Unsent(q)[..n]
    {
      var size := LittleBytes(|m.payload|, 4);
      var kind := LittleBytes(m.kind, 2);
      assert writeBuffer + size + kind + m.payload == writeBuffer + Frame(m);
      writeBuffer := writeBuffer + size + kind + m.payload;
      var ok;
      ok, out := Flush(grants, broken);
    }

    /** `out` is what the socket has taken. */
    method Flush(grants: seq<nat>, broken: bool) returns (ok: bool, out: seq<byte>)
      requires Valid()
      modifies this
      ensures Valid()
      ensures var n := Accepted(grants, |Unsent(old(Now()))|);
              Now() == Flushed(old(Now()), n) && out == Unsent(old(Now()))[..n]
      ensures ok == !Breaks(grants, broken, |Unsent(old(Now()))|)
    {
      out := [];
      var k := 0;
      ghost var unsent := Unsent(Now());
      while writeOffset < |writeBuffer|
        invariant k <= |grants| && writeOffset == old(writeOffset) + |out| <= |writeBuffer|
        invariant Now() == old(Now()).(writeOffset := writeOffset) && out == unsent[..|out|]
        invariant |out| + Accepted(grants[k..], |unsent| - |out|) == Accepted(grants, |unsent|)
        invariant Breaks(grants[k..], broken, |unsent| - |out|) == Breaks(grants, broken, |unsent|)
        decreases |writeBuffer| - writeOffset
      {
        if k == |grants| { return !broken, out; }
        var sent := Min(grants[k], |writeBuffer| - writeOffset);
        assert grants[k..][1..] == grants[k + 1..];
        if sent == 0 { return true, out; }
        assert unsent[..|out|] + writeBuffer[writeOffset..writeOffset + sent] == unsent[..|out| + sent];
        out := out + writeBuffer[writeOffset..writeOffset + sent];
        writeOffset := writeOffset + sent;
        k := k + 1;
      }
      writeBuffer := [];
      writeOffset := 0;
      ok := true;
    }
  }

  // -------------------------------------------------------- what a socket takes

  ghost function Total(grants: seq<nat>): nat { if grants == [] then 0 else grants[0] + Total(grants[1..]) }

  ghost predicate NoneZero(grants: seq<nat>) { forall k :: 0 <= k < |grants| ==> grants[k] != 0 }

  /** Sending goes on to the first send that accepts nothing, and takes in all what was
      accepted up to there, or everything. */
  lemma {:induction false} AcceptedIs(grants: seq<nat>, left: nat, n: nat)
    requires n <= |grants| && NoneZero(grants[..n]) && (n < |grants| ==> grants[n] == 0)
    ensures Accepted(grants, left) == if Total(grants[..n]) < left then Total(grants[..n]) else left
    decreases |grants|
  {
    if n > 0 {
      assert grants[..n][0] == grants[0] && grants[..n][1..] == grants[1..][..n - 1];
      if left > 0 {
        AcceptedIs(grants[1..], left - Min(grants[0], left), n - 1);
      }
    }
  }

  /** The failure of a socket shows just when it had accepted all it was offered and that
      was too little. */
  lemma {:induction false} BreaksIff(grants: seq<nat>, broken: bool, left: nat)
    ensures Breaks(grants, broken, left) <==> broken && NoneZero(grants) && Total(grants) < left
    decreases |grants|
  {
    if grants != [] {
      assert NoneZero(grants) <==> grants[0] != 0 && NoneZero(grants[1..]) by {
        assert forall k :: 0 < k < |grants| ==> grants[k] == grants[1..][k - 1];
      }
      if left > 0 {
        BreaksIff(grants[1..], broken, left - Min(grants[0], left));
      }
    }
  }

  /** So a flush whose sends accept enough, and none of them nothing, leaves nothing unsent. */
  lemma FlushSendsAll(s: Stream, grants: seq<nat>, broken: bool)
    requires s.writeOffset <= |s.writeBuffer| && NoneZero(grants) && Total(grants) >= |s.writeBuffer| - s.writeOffset
    ensures var n := Accepted(grants, |Unsent(s)|);
            Unsent(s)[..n] == Unsent(s) && Flushed(s, n) == Stream(s.readBuffer, [], 0)
    ensures !Breaks(grants, broken, |Unsent(s)|)
  {
    assert grants[..|grants|] == grants;
    AcceptedIs(grants, |Unsent(s)|, |grants|);
    BreaksIff(grants, broken, |Unsent(s)|);
  }

  /** The chunks in their order, each whole. */
  lemma {:induction false} ConcatSplits(chunks: seq<seq<byte>>, k: nat)
    requires k < |chunks|
    ensures Concat(chunks) == Concat(chunks[..k]) + (chunks[k] + Concat(chunks[k + 1..]))
    decreases |chunks|
  {
    var n := |chunks| - 1;
    if k == n {
      assert chunks[n] + Concat(chunks[n + 1..]) == chunks[n];
    } else {
      var front := chunks[..n];
      ConcatSplits(front, k);
      assert front[..k] == chunks[..k] && front[k + 1..] == chunks[k + 1..][..n - k - 1];
      Associate(chunks[k], Concat(front[k + 1..]), chunks[n]);
      Associate(Concat(chunks[..k]), chunks[k] + Concat(front[k + 1..]), chunks[n]);
    }
  }

  // -------------------------------------------------------- one frame, in bytes

  lemma HeaderSays(m: Message)
    requires Fits(m)
    ensures Number(Header(m)[..4]) == |m.payload| && Number(Header(m)[4..6]) == m.kind
  {
    Powers();
    NumberOfLittle(|m.payload|, 4);
    NumberOfLittle(m.kind, 2);
    assert Header(m)[..4] == Little(|m.payload|, 4) && Header(m)[4..6] == Little(m.kind, 2);
  }

  /** A frame in bytes: the size of the payload in four and its type in two, lowest byte
      first, and the payload. */
  lemma FrameBytes(m: Message)
    requires Fits(m)
    ensures var b := Frame(m);
            && |b| == 6 + |m.payload| && b[6..] == m.payload
            && |m.payload| == b[0] + 0x100 * b[1] as int + 0x1_0000 * b[2] as int + 0x100_0000 * b[3] as int
            && m.kind == b[4] + 0x100 * b[5] as int
  {
    Powers();
    LowByteFirst(4, |m.payload|);
    LowByteFirst(2, m.kind);
    var size, kind := Little(|m.payload|, 4), Little(m.kind, 2);
    assert Frame(m) == (size + kind) + m.payload && Header(m)[..4] == size && Header(m)[4..] == kind;
    assert Frame(m)[..4] == size && Frame(m)[4..6] == kind;
  }

  /** Taking the first message off a buffer takes its frame off. */
  lemma FirstIsFrame(buffer: seq<byte>)
    requires Whole(buffer)
    ensures Fits(First(buffer)) && buffer == Frame(First(buffer)) + Rest(buffer)
  {
    Powers();
    LittleOfNumber(buffer[..4]);
    LittleOfNumber(buffer[4..6]);
    assert buffer == (buffer[..4] + buffer[4..6] + First(buffer).payload) + Rest(buffer);
  }

  /** Whatever follows a frame, the buffer says what the frame's message is. */
  lemma FrameFirst(m: Message, rest: seq<byte>)
    requires Fits(m)
    ensures var b := Frame(m) + rest;
            Oversized(b) == (|m.payload| > 0x10_0000) && Whole(b) == !Oversized(b)
            && (Whole(b) ==> First(b) == m && Rest(b) == rest)
  {
    HeaderSays(m);
    var b := Frame(m) + rest;
    assert b[..4] == Header(m)[..4] && b[4..6] == Header(m)[4..6];
    assert b[HEADER..HEADER + |m.payload|] == m.payload && b[HEADER + |m.payload|..] == rest;
  }

  lemma MoreBytes(buffer: seq<byte>, more: seq<byte>)
    ensures |buffer| >= HEADER ==> Oversized(buffer + more) == Oversized(buffer)
    ensures Whole(buffer) ==>
              Whole(buffer + more) && First(buffer + more) == First(buffer) && Rest(buffer + more) == Rest(buffer) + more
  {
    var b := buffer + more;
    if |buffer| >= HEADER { assert b[..4] == buffer[..4] && b[4..6] == buffer[4..6]; }
    if Whole(buffer) { assert First(b).payload == First(buffer).payload; }
  }

  // ------------------------------------------------------- one way of a connection

  function Frames(ms: seq<Message>): seq<byte> {
    if ms == [] then [] else Frame(ms[0]) + Frames(ms[1..])
  }

  lemma {:induction false} FramesSnoc(ms: seq<Message>, m: Message)
    ensures Frames(ms + [m]) == Frames(ms) + Frame(m)
    decreases |ms|
  {
    if ms == [] {
      assert [m][1..] == [] && Frames([m]) == Frame(m) + Frames([]);
    } else {
      FramesSnoc(ms[1..], m);
      assert (ms + [m])[1..] == ms[1..] + [m];
      Associate(Frame(ms[0]), Frames(ms[1..]), Frame(m));
    }
  }

  /** Sender, wire and receiver; `written` is everything the sender's socket took. */
  datatype Channel = Channel(sender: Stream, transit: seq<byte>, receiver: Stream,
                             sent: seq<Message>, written: seq<byte>, popped: seq<Message>)

  datatype Event = Send(m: Message, accepted: nat) | Flush(accepted: nat) | Deliver(n: nat) | Pop

  predicate WellFormed(c: Channel) { c.sender.writeOffset <= |c.sender.writeBuffer| }

  predicate Possible(c: Channel, e: Event)
    requires WellFormed(c)
  {
    match e
    case Send(m, n) => Fits(m) && n <= |Unsent(Queued(c.sender, m))|
    case Flush(n) => n <= |Unsent(c.sender)|
    case Deliver(n) => n <= |c.transit|
    case Pop => true
  }

  function Taken(c: Channel, s: Stream, n: nat): Channel
    requires s.writeOffset <= |s.writeBuffer| && n <= |Unsent(s)|
  {
    c.(sender := Flushed(s, n), transit := c.transit + Unsent(s)[..n], written := c.written + Unsent(s)[..n])
  }

  function Next(c: Channel, e: Event): (r: Channel)
    requires WellFormed(c) && Possible(c, e)
    ensures WellFormed(r)
  {
    match e
    case Send(m, n) => Taken(c, Queued(c.sender, m), n).(sent := c.sent + [m])
    case Flush(n) => Taken(c, c.sender, n)
    case Deliver(n) =>
      c.(transit := c.transit[n..], receiver := c.receiver.(readBuffer := c.receiver.readBuffer + c.transit[..n]))
    case Pop =>
      if Whole(c.receiver.readBuffer) then
        c.(receiver := c.receiver.(readBuffer := Rest(c.receiver.readBuffer)), popped := c.popped + [First(c.receiver.readBuffer)])
      else c
  }

  /** Nothing is lost, made up or reordered: the messages popped are the first ones sent,
      and the bytes on their way are the frames of the others. */
  ghost predicate Conserved(c: Channel) {
    && WellFormed(c) && (forall k :: 0 <= k < |c.sent| ==> Fits(c.sent[k]))
    && c.written + Unsent(c.sender) == Frames(c.sent)
    && c.popped <= c.sent
    && c.receiver.readBuffer + (c.transit + Unsent(c.sender)) == Frames(c.sent[|c.popped|..])
  }

  lemma UnsentTaken(s: Stream, n: nat)
    requires s.writeOffset <= |s.writeBuffer| && n <= |Unsent(s)|
    ensures Unsent(s) == Unsent(s)[..n] + Unsent(Flushed(s, n))
  {
  }

  lemma FlushConserves(c: Channel, n: nat)
    requires Conserved(c) && n <= |Unsent(c.sender)|
    ensures Conserved(Taken(c, c.sender, n))
  {
    UnsentTaken(c.sender, n);
    var taken, left := Unsent(c.sender)[..n], Unsent(Flushed(c.sender, n));
    Associate(c.written, taken, left);
    Associate(c.transit, taken, left);
  }

  /** Queueing alone, before the flush. */
  lemma QueueConserves(c: Channel, m: Message)
    requires Conserved(c) && Fits(m)
    ensures Conserved(c.(sender := Queued(c.sender, m), sent := c.sent + [m]))
  {
    var unsent := Unsent(c.sender);
    assert Unsent(Queued(c.sender, m)) == unsent + Frame(m);
    assert (c.sent + [m])[|c.popped|..] == c.sent[|c.popped|..] + [m];
    FramesSnoc(c.sent, m);
    FramesSnoc(c.sent[|c.popped|..], m);
    Associate(c.written, unsent, Frame(m));
    Associate(c.transit, unsent, Frame(m));
    Associate(c.receiver.readBuffer, c.transit + unsent, Frame(m));
  }

  lemma DeliverConserves(c: Channel, n: nat)
    requires Conserved(c) && n <= |c.transit|
    ensures Conserved(Next(c, Deliver(n)))
  {
    var a, b := c.transit[..n], c.transit[n..];
    assert c.transit == a + b;
    Associate(a, b, Unsent(c.sender));
    Associate(c.receiver.readBuffer, a, b + Unsent(c.sender));
  }

  /** A whole message at the front is the first that was sent and not popped. */
  lemma NextIsWhole(c: Channel)
    requires Conserved(c) && |c.receiver.readBuffer| >= HEADER
    ensures |c.popped| < |c.sent|
    ensures Oversized(c.receiver.readBuffer) == (|c.sent[|c.popped|].payload| > MAX_PAYLOAD)
    ensures Whole(c.receiver.readBuffer) ==>
              First(c.receiver.readBuffer) == c.sent[|c.popped|]
              && Rest(c.receiver.readBuffer) + (c.transit + Unsent(c.sender)) == Frames(c.sent[|c.popped| + 1..])
  {
    var left := c.sent[|c.popped|..];
    var rest := c.transit + Unsent(c.sender);
    assert left != [];
    assert left[1..] == c.sent[|c.popped| + 1..];
    FrameFirst(left[0], Frames(left[1..]));
    MoreBytes(c.receiver.readBuffer, rest);
  }

  lemma PopConserves(c: Channel)
    requires Conserved(c)
    ensures Conserved(Next(c, Pop))
  {
    if Whole(c.receiver.readBuffer) { NextIsWhole(c); }
  }

  lemma NextConserves(c: Channel, e: Event)
    requires Conserved(c) && Possible(c, e)
    ensures Conserved(Next(c, e))
  {
    match e
    case Send(m, n) => {
      QueueConserves(c, m);
      FlushConserves(c.(sender := Queued(c.sender, m), sent := c.sent + [m]), n);
    }
    case Flush(n) => FlushConserves(c, n);
    case Deliver(n) => DeliverConserves(c, n);
    case Pop => PopConserves(c);
  }

  ghost predicate Reaches(c: Channel, events: seq<Event>, d: Channel)
    requires WellFormed(c)
    decreases |events|
  {
    if events == [] then c == d else Possible(c, events[0]) && Reaches(Next(c, events[0]), events[1..], d)
  }

  lemma {:induction false} RunConserves(c: Channel, events: seq<Event>, d: Channel)
    requires Conserved(c) && Reaches(c, events, d)
    ensures Conserved(d)
    decreases |events|
  {
    if events != [] {
      NextConserves(c, events[0]);
      RunConserves(Next(c, events[0]), events[1..], d);
    }
  }

  ghost function Fresh(): Channel { Channel(Stream([], [], 0), [], Stream([], [], 0), [], [], []) }

  /** On every run what was popped are the first messages sent, and what was written and
      what was not make up all the frames. */
  lemma Faithful(events: seq<Event>, d: Channel)
    requires Reaches(Fresh(), events, d)
    ensures d.popped <= d.sent && WellFormed(d) && d.written + Unsent(d.sender) == Frames(d.sent)
  {
    assert Fresh().sent == [] && Frames([]) == [];
    RunConserves(Fresh(), events, d);
  }

  /** A receiver gives up on a connection just when the next message is over the limit:
      never on an honest peer. */
  lemma RejectedIfTooBig(events: seq<Event>, d: Channel)
    requires Reaches(Fresh(), events, d) && |d.receiver.readBuffer| >= 6
    ensures |d.popped| < |d.sent|
    ensures Oversized(d.receiver.readBuffer) <==> |d.sent[|d.popped|].payload| > 0x10_0000
  {
    RunConserves(Fresh(), events, d);
    NextIsWhole(d);
  }

  /** Draining everything gives exactly what was sent. */
  lemma DrainedIsAll(events: seq<Event>, d: Channel)
    requires Reaches(Fresh(), events, d) && WellFormed(d)
    requires forall k :: 0 <= k < |d.sent| ==> |d.sent[k].payload| <= 0x10_0000
    requires Unsent(d.sender) == [] && d.transit == [] && !Whole(d.receiver.readBuffer)
    ensures d.popped == d.sent && d.receiver.readBuffer == []
  {
    RunConserves(Fresh(), events, d);
    var left := d.sent[|d.popped|..];
    assert d.receiver.readBuffer + (d.transit + Unsent(d.sender)) == d.receiver.readBuffer;
    if left != [] { FrameFirst(left[0], Frames(left[1..])); }
  }

  // ----------------------------------------------------------------- progress

  lemma {:induction false} ReachesOn(c: Channel, events: seq<Event>, d: Channel, more: seq<Event>, e: Channel)
    requires WellFormed(c) && WellFormed(d) && Reaches(c, events, d) && Reaches(d, more, e)
    ensures Reaches(c, events + more, e)
    decreases |events|
  {
    if events == [] {
      assert events + more == more;
    } else {
      ReachesOn(Next(c, events[0]), events[1..], d, more, e);
      assert (events + more)[1..] == events[1..] + more;
    }
  }

  ghost predicate AllSmall(ms: seq<Message>) { forall k :: 0 <= k < |ms| ==> |ms[k].payload| <= 0x10_0000 }

  /** With all the bytes there, a message is there to be taken off until none is left. */
  lemma {:induction false} PopsAll(c: Channel) returns (events: seq<Event>, d: Channel)
    requires Conserved(c) && AllSmall(c.sent) && Unsent(c.sender) == [] && c.transit == []
    ensures Reaches(c, events, d) && |events| == |c.sent| - |c.popped| && (forall k :: 0 <= k < |events| ==> events[k] == Pop)
    ensures d.popped == c.sent && d.sent == c.sent && d.receiver.readBuffer == []
    decreases |c.sent| - |c.popped|
  {
    assert c.receiver.readBuffer + (c.transit + Unsent(c.sender)) == c.receiver.readBuffer;
    if |c.popped| == |c.sent| {
      assert c.sent[|c.popped|..] == [];
      return [], c;
    }
    var left := c.sent[|c.popped|..];
    FrameFirst(left[0], Frames(left[1..]));
    PopConserves(c);
    events, d := PopsAll(Next(c, Pop));
    events := [Pop] + events;
  }

  /** From wherever a run has got to, when every message is within the limit and the socket
      takes and brings what is left, the receiver takes off just what it lacks, one message
      after the other, and has all. */
  lemma CanDrain(events: seq<Event>, c: Channel) returns (more: seq<Event>, d: Channel)
    requires Reaches(Fresh(), events, c) && AllSmall(c.sent) && WellFormed(c)
    ensures |c.popped| <= |c.sent| && |more| == 2 + |c.sent| - |c.popped| && more[0] == Flush(|Unsent(c.sender)|)
    ensures more[1] == Deliver(|c.transit + Unsent(c.sender)|) && forall k :: 2 <= k < |more| ==> more[k] == Pop
    ensures Reaches(c, more, d) && d.popped == c.sent == d.sent && d.receiver.readBuffer == []
  {
    RunConserves(Fresh(), events, c);
    var flush := Flush(|Unsent(c.sender)|);
    var c1 := Next(c, flush);
    NextConserves(c, flush);
    assert c1.transit == c.transit + Unsent(c.sender) && Unsent(c1.sender) == [];
    var deliver := Deliver(|c1.transit|);
    var c2 := Next(c1, deliver);
    NextConserves(c1, deliver);
    var pops;
    pops, d := PopsAll(c2);
    more := [deliver] + pops;
    assert Reaches(c1, more, d);
    more := [flush] + more;
  }
}
