/** The length-prefixed framing of src/network/peer.rs: a resumable encoder, a
    resumable decoder, and the proof that they undo each other however the bytes
    between them are chopped up. */
module Framing {
  import opened Basics
  import Hash

  type Bytes = seq<byte>

  // ---------------------------------------------------------------------------
  // The wire format

  /** u32::to_be_bytes of a length that has been cast to u32. */
  function LenBytes(n: nat): (r: Bytes)
    ensures |r| == 4
  {
    var m := n % 0x1_0000_0000;
    [m / 0x100_0000, m / 0x1_0000 % 256, m / 256 % 256, m % 256]
  }

  /** u32::from_be_bytes. */
  function LenOf(b: Bytes): (r: nat)
    requires |b| == 4
    ensures r < 0x1_0000_0000
  {
    (b[0] as int) * 0x100_0000 + (b[1] as int) * 0x1_0000 + (b[2] as int) * 256 + (b[3] as int)
  }

  lemma LenRoundTrip(n: nat)
    ensures LenOf(LenBytes(n)) == n % 0x1_0000_0000
  {
    var m := n % 0x1_0000_0000;
    var a, b := m / 0x1_0000, m / 256;
    assert a / 256 == m / 0x100_0000 && a % 256 == m / 0x1_0000 % 256;
    assert b / 256 == a;
    assert a == (a / 256) * 256 + a % 256;
    assert b == a * 256 + b % 256;
    assert m == b * 256 + m % 256;
  }

  lemma BytesRoundTrip(b: Bytes)
    requires |b| == 4
    ensures LenBytes(LenOf(b)) == b
  {
    var n := LenOf(b);
    var low := (b[1] as int) * 0x1_0000 + (b[2] as int) * 256 + (b[3] as int);
    assert n / 0x100_0000 == b[0] && n % 0x100_0000 == low;
    assert n / 0x1_0000 == (b[0] as int) * 256 + (b[1] as int);
    assert n / 256 == (b[0] as int) * 0x1_0000 + (b[1] as int) * 256 + (b[2] as int);
  }

  /** The length field is a big-endian number. */
  lemma LenIsBigEndian(b: Bytes)
    requires |b| == 4
    ensures LenOf(b) == Hash.BigEndian(b)
  {
    Hash.BigEndianPush([], b[0]);
    Hash.BigEndianPush(b[..1], b[1]);
    Hash.BigEndianPush(b[..2], b[2]);
    Hash.BigEndianPush(b[..3], b[3]);
    assert [] + [b[0]] == b[..1] && b[..1] + [b[1]] == b[..2] && b[..2] + [b[2]] == b[..3] && b[..3] + [b[3]] == b;
  }

  /** Dropping a common prefix. */
  lemma CutPrefix(a: Bytes, b: Bytes, c: Bytes)
    requires a + b <= a + c
    ensures b <= c
  {
    assert b == (a + b)[|a|..];
    assert c == (a + c)[|a|..];
    assert (a + b)[|a|..] <= (a + c)[|a|..];
  }

  function Encode(m: Bytes): (r: Bytes)
    ensures |r| == 4 + |m|
  {
    LenBytes(|m|) + m
  }

  function EncodeAll(ms: seq<Bytes>): Bytes {
    if ms == [] then [] else EncodeAll(ms[..|ms| - 1]) + Encode(ms[|ms| - 1])
  }

  lemma NoFrames()
    ensures EncodeAll([]) == []
  {
  }

  lemma EncodeAllPush(ms: seq<Bytes>, m: Bytes)
    ensures EncodeAll(ms + [m]) == EncodeAll(ms) + Encode(m)
  {
    assert (ms + [m])[..|ms|] == ms;
  }

  lemma {:induction false} EncodeAllSplit(a: seq<Bytes>, b: seq<Bytes>)
    ensures EncodeAll(a + b) == EncodeAll(a) + EncodeAll(b)
  {
    hide Encode, EncodeAll;
    NoFrames();
    if b == [] {
      assert a + b == a;
    } else {
      var b', last := b[..|b| - 1], b[|b| - 1];
      EncodeAllSplit(a, b');
      EncodeAllPush(a + b', last);
      EncodeAllPush(b', last);
      assert b' + [last] == b && (a + b') + [last] == a + b;
    }
  }

  /** What a peer may send: serialized messages are not empty and fit a u32 length. */
  ghost predicate Sendable(ms: seq<Bytes>) {
    forall m :: m in ms ==> 0 < |m| < 0x1_0000_0000
  }

  lemma EncodeAllHead(s: seq<Bytes>)
    requires s != []
    ensures EncodeAll(s) == Encode(s[0]) + EncodeAll(s[1..])
  {
    assert s == [s[0]] + s[1..];
    EncodeAllSplit([s[0]], s[1..]);
    EncodeAllPush([], s[0]);
    assert [] + [s[0]] == [s[0]];
  }

  /** Two frames, each followed by anything: if one stream begins the other, the messages agree. */
  lemma FrameIsUnique(m: Bytes, m': Bytes, rest: Bytes)
    requires |m| < 0x1_0000_0000 && |m'| < 0x1_0000_0000
    requires Encode(m) <= Encode(m') + rest
    ensures m == m'
  {
    assert Encode(m)[..4] == LenBytes(|m|);
    assert (Encode(m') + rest)[..4] == LenBytes(|m'|);
    LenRoundTrip(|m|);
    LenRoundTrip(|m'|);
    assert m == Encode(m)[4..];
    assert m' == (Encode(m') + rest)[4..4 + |m'|];
  }

  /** The encoding of a message sequence is a prefix of another one's only when the
      messages themselves are. */
  lemma {:induction false} PrefixFrames(r: seq<Bytes>, s: seq<Bytes>)
    requires forall m :: m in r ==> |m| < 0x1_0000_0000
    requires forall m :: m in s ==> |m| < 0x1_0000_0000
    requires EncodeAll(r) <= EncodeAll(s)
    ensures r <= s
  {
    hide EncodeAll, Encode;
    if r != [] {
      var r', m := r[..|r| - 1], r[|r| - 1];
      assert r == r' + [m];
      EncodeAllPush(r', m);
      PrefixFrames(r', s);
      var t := s[|r'|..];
      assert s == r' + t;
      EncodeAllSplit(r', t);
      CutPrefix(EncodeAll(r'), Encode(m), EncodeAll(t));
      NoFrames();
      EncodeAllHead(t);
      FrameIsUnique(m, t[0], EncodeAll(t[1..]));
    }
  }

  /** Bytes that do not yet contain a whole frame. */
  ghost predicate Incomplete(p: Bytes) {
    |p| < 4 || |p| < 4 + LenOf(p[..4])
  }

  /** A decoder that has consumed EncodeAll(received) and then `partial` out of a stream
      of frames is behind that stream exactly by the messages not yet received. */
  lemma ReceivedIsPrefix(received: seq<Bytes>, partial: Bytes, sent: seq<Bytes>)
    requires forall m :: m in received ==> |m| < 0x1_0000_0000
    requires forall m :: m in sent ==> |m| < 0x1_0000_0000
    requires EncodeAll(received) + partial <= EncodeAll(sent)
    ensures received <= sent
    ensures partial <= EncodeAll(sent[|received|..])
    ensures EncodeAll(received) + partial == EncodeAll(sent) ==> partial == EncodeAll(sent[|received|..])
  {
    PrefixFrames(received, sent);
    var t := sent[|received|..];
    assert sent == received + t;
    EncodeAllSplit(received, t);
    CutPrefix(EncodeAll(received), partial, EncodeAll(t));
  }

  /** The length field at the head of a stream of frames is the first message's. */
  lemma HeadLength(partial: Bytes, t: seq<Bytes>)
    requires forall m :: m in t ==> |m| < 0x1_0000_0000
    requires partial <= EncodeAll(t) && |partial| >= 4
    ensures t != [] && LenOf(partial[..4]) == |t[0]|
  {
    hide LenBytes, LenOf;
    EncodeAllHead(t);
    LenRoundTrip(|t[0]|);
    TakePrefix(partial, LenBytes(|t[0]|), t[0] + EncodeAll(t[1..]));
    assert EncodeAll(t) == LenBytes(|t[0]|) + (t[0] + EncodeAll(t[1..]));
  }

  lemma TakePrefix(p: Bytes, a: Bytes, b: Bytes)
    requires |a| <= |p| && p <= a + b
    ensures p[..|a|] == a
  {
    assert p[..|a|] == (a + b)[..|a|];
  }

  /** A whole number of frames is never an incomplete one, except none at all. */
  lemma WholeFrames(t: seq<Bytes>)
    requires forall m :: m in t ==> |m| < 0x1_0000_0000
    requires Incomplete(EncodeAll(t))
    ensures t == []
  {
    if t != [] {
      EncodeAllHead(t);
      HeadLength(EncodeAll(t), t);
    }
  }

  // ---------------------------------------------------------------------------
  // The encoder

  /** What one call into the socket does: it fails (would block), or it takes up to n bytes. */
  datatype Io = WouldBlock | Ready(n: nat)

  /** The part of a frame that is being written or read. */
  datatype FramePart = Length | Payload

  datatype WriteResult = Complete | EOF | ChanClosed | Interrupted

  class WriteContext {
    var out: Bytes            // everything the buffered writer has taken
    var queue: seq<Bytes>     // the channel's receiving end
    var closed: bool          // whether the sending end has been dropped
    const lenBuffer: array<byte>
    var msgBuffer: Bytes
    var msgLength: nat
    var writtenLength: nat
    var state: FramePart
    ghost var sent: seq<Bytes>  // every message taken off the queue so far

    /** The bytes of the current frame that are still to be written. */
    ghost function Pending(): Bytes
      reads this, lenBuffer
      requires lenBuffer.Length == 4 && msgLength == |msgBuffer|
      requires writtenLength <= if state.Length? then 4 else msgLength
    {
      if state.Length? then lenBuffer[writtenLength..] + msgBuffer else msgBuffer[writtenLength..]
    }

    ghost predicate Valid()
      reads this, lenBuffer
    {
      && lenBuffer.Length == 4
      && msgLength == |msgBuffer|
      && (writtenLength <= if state.Length? then 4 else msgLength)
      && out + Pending() == EncodeAll(sent)
    }

    constructor ()
      ensures Valid() && fresh(lenBuffer)
      ensures out == [] && queue == [] && sent == [] && !closed && state.Payload?
    {
      out, queue, sent, closed := [], [], [], false;
      lenBuffer := new byte[4](_ => 0);
      msgBuffer, msgLength, writtenLength, state := [], 0, 0, Payload;
    }

    /** The next message leaves the queue and becomes the current frame. */
    method Load()
      requires Valid() && queue != [] && state.Payload? && writtenLength == msgLength
      modifies this`queue, this`msgBuffer, this`msgLength, this`writtenLength, this`state, this`sent, lenBuffer
      ensures Valid() && state.Length? && writtenLength == 0
      ensures sent == old(sent) + [old(queue[0])] && queue == old(queue)[1..]
    {
      hide EncodeAll, LenBytes;
      EncodeAllPush(sent, queue[0]);
      assert out + Pending() == out;
      sent := sent + [queue[0]];
      msgBuffer := queue[0];
      queue := queue[1..];
      msgLength := |msgBuffer|;
      CopyLength(LenBytes(msgLength));
      writtenLength := 0;
      state := Length;
      assert Pending() == Encode(msgBuffer);
    }

    /** The four length bytes, copied into the buffer. */
    method CopyLength(be: Bytes)
      requires |be| == 4 == lenBuffer.Length
      modifies lenBuffer
      ensures lenBuffer[..] == be
    {
      for i := 0 to 4
        invariant lenBuffer[..i] == be[..i]
      {
        lenBuffer[i] := be[i];
      }
    }

    /** One call into the socket with the rest of the length field. */
    method WriteLength(n: nat) returns (written: nat)
      requires Valid() && state.Length? && writtenLength < 4
      modifies this`out, this`writtenLength
      ensures Valid() && old(out) <= out
      ensures written <= n && writtenLength == old(writtenLength) + written
      ensures |out| == |old(out)| + written && (written == 0 ==> n == 0)
    {
      hide EncodeAll;
      written := Min(n, 4 - writtenLength);
      ghost var field := lenBuffer[..];
      TakeField(out, field, msgBuffer, writtenLength, written);
      var chunk := lenBuffer[writtenLength..writtenLength + written];
      assert chunk == field[writtenLength..writtenLength + written];
      assert Pending() == field[writtenLength..] + msgBuffer;
      out := out + chunk;
      writtenLength := writtenLength + written;
      assert Pending() == field[writtenLength..] + msgBuffer;
    }

    /** Nothing of the length field is left: the payload comes next. */
    method StartPayload()
      requires Valid() && state.Length? && writtenLength == 4
      modifies this`writtenLength, this`state
      ensures Valid() && state.Payload? && writtenLength == 0
    {
      assert Pending() == msgBuffer;
      writtenLength := 0;
      state := Payload;
      assert Pending() == msgBuffer;
    }

    lemma Idle()
      requires Valid() && state.Payload? && writtenLength == msgLength
      ensures Pending() == [] && out == EncodeAll(sent)
    {
      assert out + Pending() == out;
    }

    /** One call into the socket with the rest of the payload. */
    method WritePayload(n: nat) returns (written: nat)
      requires Valid() && state.Payload? && writtenLength < msgLength
      modifies this`out, this`writtenLength
      ensures Valid() && old(out) <= out
      ensures written <= n && writtenLength == old(writtenLength) + written
      ensures |out| == |old(out)| + written && (written == 0 ==> n == 0)
    {
      written := Min(n, msgLength - writtenLength);
      Take(out, msgBuffer, writtenLength, written);
      out := out + msgBuffer[writtenLength..writtenLength + written];
      writtenLength := writtenLength + written;
    }

    /** `io` says what each successive call into the socket does; running out of it is
        one more call that would block. Whatever it says, the bytes written and the bytes
        still pending are the encoding of the messages dequeued, in order; `Complete`
        means that nothing is left to write. Every call that succeeds moves something on:
        it takes at least a byte, or it flushes and the next message is dequeued. */
    method Write(io: seq<Io>) returns (r: WriteResult, used: nat)
      requires Valid()
      modifies this, lenBuffer
      ensures Valid() && closed == old(closed)
      ensures old(out) <= out && old(sent) <= sent
      ensures sent + queue == old(sent) + old(queue)
      ensures r.Complete? || r.ChanClosed? ==> queue == [] && Pending() == [] && out == EncodeAll(sent)
      ensures r.ChanClosed? || r.Complete? ==> (r.ChanClosed? <==> closed)
      ensures used <= |io| && forall j | 0 <= j < used :: io[j].Ready?
      ensures r.Interrupted? ==> used == |io| || io[used].WouldBlock?
      ensures r.EOF? ==> used > 0 && io[used - 1].n == 0
      ensures |out| + |sent| >= old(|out| + |sent|) + if r.Interrupted? then used else used - 1
    {
      hide EncodeAll, Pending;
      used := 0;
      while true
        invariant Valid() && used <= |io| && closed == old(closed)
        invariant forall j | 0 <= j < used :: io[j].Ready?
        invariant old(out) <= out && old(sent) <= sent
        invariant sent + queue == old(sent) + old(queue)
        invariant |out| + |sent| >= old(|out| + |sent|) + used
        decreases |io| - used, if state.Length? && writtenLength == 4 then 1 else 0
      {
        if state.Length? && writtenLength == 4 {
          // nothing of the length field is left
          StartPayload();
          continue;
        }
        // every other branch calls the socket: to write, or to flush
        if used == |io| || io[used].WouldBlock? {
          r := Interrupted;
          return;
        }
        var n := io[used].n;
        used := used + 1;
        if state.Length? {
          var written := WriteLength(n);
          if written == 0 {
            r := EOF;
            return;
          }
        } else if writtenLength == msgLength {
          if queue == [] {
            Idle();
            r := if closed then ChanClosed else Complete;
            return;
          }
          Load();
        } else {
          var written := WritePayload(n);
          if written == 0 {
            r := EOF;
            return;
          }
        }
      }
    }
  }

  /** Moving n bytes from the front of what is pending to the end of what is written. */
  lemma Take(out: Bytes, frame: Bytes, at: nat, n: nat)
    requires at + n <= |frame|
    ensures out + frame[at..] == (out + frame[at..at + n]) + frame[at + n..]
  {
    assert frame[at..] == frame[at..at + n] + frame[at + n..];
  }

  lemma TakeField(out: Bytes, field: Bytes, payload: Bytes, at: nat, n: nat)
    requires at + n <= |field|
    ensures out + (field[at..] + payload) == (out + field[at..at + n]) + (field[at + n..] + payload)
  {
    assert field[at..] == field[at..at + n] + field[at + n..];
  }

  function Min(a: nat, b: nat): nat { if a < b then a else b }

  // ---------------------------------------------------------------------------
  // The decoder

  datatype ReadResult = Continue | Message(payload: Bytes) | Eof | Failed

  class ReadContext {
    var buffer: Bytes
    var msgLength: nat
    var readLength: nat
    var state: FramePart       // which part of a frame is being read
    ghost var consumed: Bytes   // everything taken from the socket so far
    ghost var received: seq<Bytes>

    /** The bytes of the current frame read so far. */
    ghost function Partial(): Bytes
      reads this
      requires readLength <= |buffer|
    {
      if state.Length? then buffer[..readLength] else LenBytes(msgLength) + buffer[..readLength]
    }

    ghost predicate Valid()
      reads this
    {
      && 4 <= |buffer| && msgLength <= |buffer| && msgLength < 0x1_0000_0000
      && readLength <= msgLength
      && (readLength == msgLength ==> state.Payload? && msgLength == 0)
      && (state.Length? ==> msgLength == 4)
      && consumed == EncodeAll(received) + Partial()
      && forall m :: m in received ==> |m| < 0x1_0000_0000
    }

    constructor ()
      ensures Valid() && consumed == [] && received == [] && state.Length? && readLength == 0
    {
      buffer, msgLength, readLength, state := [0, 0, 0, 0], 4, 0, Length;
      consumed, received := [], [];
    }

    /** The socket offers `offer` (or fails); the context takes what still fits in the part
        it is reading. The bytes taken are accounted for exactly: the messages delivered,
        encoded, followed by the part read so far. Whatever the buffer held before, a
        payload delivered is made of bytes of its own frame only. */
    method Read(failed: bool, offer: Bytes) returns (r: ReadResult, size: nat)
      requires Valid()
      modifies this
      ensures Valid() && size <= |offer|
      ensures consumed == old(consumed) + offer[..size]
      ensures r.Failed? <==> failed
      ensures !failed ==> (r.Eof? <==> offer == [] || old(state.Payload? && msgLength == 0))
      ensures r.Failed? || r.Eof? <==> size == 0
      ensures received == if r.Message? then old(received) + [r.payload] else old(received)
    {
      if failed {
        return Failed, 0;
      }
      size := Min(|offer|, msgLength - readLength);
      if size == 0 {
        return Eof, 0;
      }
      Absorb(offer[..size]);
      if readLength < msgLength {
        return Continue, size;
      }
      if state.Length? {
        StartPayload();
        r := Continue;
      } else {
        r := Deliver();
      }
    }

    /** The bytes just read go into the buffer, and the cursor moves. */
    method Absorb(data: Bytes)
      requires Valid() && 0 < |data| <= msgLength - readLength
      modifies this`buffer, this`readLength, this`consumed
      ensures |buffer| == old(|buffer|) && readLength == old(readLength) + |data|
      ensures consumed == old(consumed) + data && consumed == EncodeAll(received) + Partial()
    {
      hide EncodeAll, LenBytes;
      ghost var before := Partial();
      buffer := buffer[..readLength] + data + buffer[readLength + |data|..];
      readLength := readLength + |data|;
      consumed := consumed + data;
      assert Partial() == before + data;
      assert (EncodeAll(received) + before) + data == EncodeAll(received) + (before + data);
    }

    /** The length field is complete: the buffer grows if it has to, and keeps its old bytes. */
    method StartPayload()
      requires state.Length? && msgLength == readLength == 4 <= |buffer|
      requires consumed == EncodeAll(received) + Partial()
      requires forall m :: m in received ==> |m| < 0x1_0000_0000
      modifies this`state, this`readLength, this`msgLength, this`buffer
      ensures Valid()
    {
      hide EncodeAll;
      BytesRoundTrip(buffer[0..4]);
      msgLength := LenOf(buffer[0..4]);
      state := Payload;
      readLength := 0;
      if |buffer| < msgLength {
        buffer := buffer + seq(msgLength - |buffer|, _ => 0);
      }
      assert Partial() == LenBytes(msgLength);
    }

    /** The payload is complete: it leaves the buffer as a message. */
    method Deliver() returns (r: ReadResult)
      requires state.Payload? && readLength == msgLength <= |buffer| && 4 <= |buffer|
      requires msgLength < 0x1_0000_0000
      requires consumed == EncodeAll(received) + Partial()
      requires forall m :: m in received ==> |m| < 0x1_0000_0000
      modifies this`state, this`readLength, this`msgLength, this`received
      ensures Valid() && r.Message? && received == old(received) + [r.payload]
    {
      hide EncodeAll, LenBytes;
      var newPayload := buffer[0..msgLength];
      EncodeAllPush(received, newPayload);
      received := received + [newPayload];
      state := Length;
      readLength := 0;
      msgLength := 4;
      assert Partial() == [];
      assert consumed == EncodeAll(received);
      r := Message(newPayload);
    }
  }

  // ---------------------------------------------------------------------------
  // Both ends of one connection

  /** What can happen next: a message is queued, the writer is polled, or the reader is
      polled while at most n bytes have arrived. */
  datatype Event = Send(m: Bytes) | PollWrite(io: seq<Io>) | PollRead(n: nat)

  function SentBy(e: Event): seq<Bytes> {
    if e.Send? then [e.m] else []
  }

  /** The messages queued by a run, in order. */
  function Sends(events: seq<Event>): seq<Bytes> {
    if events == [] then [] else Sends(events[..|events| - 1]) + SentBy(events[|events| - 1])
  }

  lemma NoSends()
    ensures Sends([]) == []
  {
  }

  lemma {:induction false} SendsPrefix(events: seq<Event>, n: nat)
    requires n < |events|
    ensures Sends(events[..n]) + SentBy(events[n]) <= Sends(events)
    decreases |events|
  {
    if n < |events| - 1 {
      SendsPrefix(events[..|events| - 1], n);
      assert events[..|events| - 1][..n] == events[..n];
    }
  }

  lemma SendsPush(events: seq<Event>, n: nat)
    requires n < |events|
    ensures Sends(events[..n + 1]) == Sends(events[..n]) + SentBy(events[n])
  {
    assert events[..n + 1][..n] == events[..n];
  }

  class Link {
    const writer: WriteContext
    const reader: ReadContext
    var wire: Bytes   // bytes written and not yet read, in order

    ghost predicate Valid()
      reads this, writer, writer.lenBuffer, reader
    {
      && writer.Valid() && reader.Valid()
      && writer.out == reader.consumed + wire
      && Sendable(writer.sent + writer.queue)
    }

    constructor ()
      ensures Valid() && fresh(writer) && fresh(writer.lenBuffer) && fresh(reader)
      ensures writer.sent == writer.queue == reader.received == []
    {
      writer := new WriteContext();
      reader := new ReadContext();
      wire := [];
    }

    /** What has been read, with the unfinished frame, is a prefix of what was sent. */
    lemma Behind()
      requires Valid()
      ensures forall m :: m in writer.sent ==> 0 < |m| < 0x1_0000_0000
      ensures reader.received <= writer.sent
      ensures reader.Partial() <= EncodeAll(writer.sent[|reader.received|..])
      ensures reader.consumed == EncodeAll(writer.sent) ==>
                reader.Partial() == EncodeAll(writer.sent[|reader.received|..])
    {
      hide EncodeAll, LenBytes, ReadContext.Partial;
      var sent := writer.sent;
      assert forall m :: m in sent ==> m in sent + writer.queue;
      assert writer.out <= EncodeAll(sent);
      assert reader.consumed <= writer.out;
      ReceivedIsPrefix(reader.received, reader.Partial(), sent);
    }

    /** A reader in the middle of a frame is never waiting for an empty payload. */
    lemma NoEmptyFrame()
      requires Valid() && reader.state.Payload?
      ensures reader.msgLength > 0
    {
      hide EncodeAll, LenBytes, WriteContext.Valid;
      Behind();
      HeadLength(reader.Partial(), writer.sent[|reader.received|..]);
      assert reader.Partial()[..4] == LenBytes(reader.msgLength);
      LenRoundTrip(reader.msgLength);
    }

    /** With nothing pending and nothing in flight, every message sent has been read. */
    lemma CaughtUp()
      requires Valid() && wire == [] && writer.Pending() == []
      ensures reader.received == writer.sent
    {
      hide EncodeAll, LenBytes;
      Behind();
      if reader.state.Payload? {
        NoEmptyFrame();
        assert reader.Partial()[..4] == LenBytes(reader.msgLength);
        LenRoundTrip(reader.msgLength);
      }
      assert Incomplete(reader.Partial());
      assert writer.out == EncodeAll(writer.sent);
      WholeFrames(writer.sent[|reader.received|..]);
    }

    static lemma SplitWire(out: Bytes, consumed: Bytes, wire: Bytes, n: nat, size: nat)
      requires out == consumed + wire && size <= n <= |wire|
      ensures out == (consumed + wire[..n][..size]) + wire[size..]
    {
    }

    static lemma ExtendWire(before: Bytes, out: Bytes, consumed: Bytes, wire: Bytes)
      requires before == consumed + wire && before <= out
      ensures out == consumed + (wire + out[|before|..])
    {
    }

    /** A message is queued for the peer. */
    method Enqueue(m: Bytes)
      requires Valid() && 0 < |m| < 0x1_0000_0000
      modifies writer`queue
      ensures Valid()
      ensures writer.sent + writer.queue == old(writer.sent + writer.queue) + [m]
    {
      hide EncodeAll, LenBytes;
      writer.queue := writer.queue + [m];
      assert writer.sent + writer.queue == old(writer.sent + writer.queue) + [m];
    }

    method PollWriter(io: seq<Io>)
      requires Valid()
      modifies this, writer, writer.lenBuffer
      ensures Valid()
      ensures writer.sent + writer.queue == old(writer.sent + writer.queue)
    {
      hide EncodeAll, LenBytes;
      var taken := |writer.out|;
      ghost var before := writer.out;
      var _, _ := writer.Write(io);
      ExtendWire(before, writer.out, reader.consumed, wire);
      wire := wire + writer.out[taken..];
    }

    /** The reader is polled while at most n bytes have arrived; when none have, the socket
        would block. The end of the stream is never reported. */
    method PollReader(n: nat) returns (r: ReadResult)
      requires Valid()
      modifies this, reader
      ensures Valid() && !r.Eof?
      ensures r.Failed? <==> n == 0 || old(wire) == []
      ensures !r.Failed? ==> |wire| < |old(wire)|
      ensures reader.received == old(reader.received) + if r.Message? then [r.payload] else []
    {
      hide EncodeAll, LenBytes;
      var offer := wire[..Min(n, |wire|)];
      if reader.state.Payload? {
        NoEmptyFrame();
      }
      var size;
      r, size := reader.Read(offer == [], offer);
      SplitWire(writer.out, old(reader.consumed), wire, |offer|, size);
      wire := wire[size..];
    }

    method Step(e: Event)
      requires Valid() && (e.Send? ==> 0 < |e.m| < 0x1_0000_0000)
      modifies this, writer, writer.lenBuffer, reader
      ensures Valid()
      ensures writer.sent + writer.queue == old(writer.sent + writer.queue) + SentBy(e)
    {
      hide Valid, EncodeAll, LenBytes;
      match e {
        case Send(m) =>
          Enqueue(m);
        case PollWrite(io) =>
          PollWriter(io);
        case PollRead(n) =>
          var _ := PollReader(n);
      }
    }

    /** The round trip, for every sequence of events: the messages read are a prefix of the
        messages queued, the bytes written are a prefix of the encoding of the messages
        dequeued, and once nothing is queued, pending or in flight, everything queued has
        been read. */
    method Run(events: seq<Event>)
      requires Valid() && writer.sent == writer.queue == []
      requires Sendable(Sends(events))
      modifies this, writer, writer.lenBuffer, reader
      ensures Valid()
      ensures writer.sent + writer.queue == Sends(events)
      ensures reader.received <= writer.sent <= Sends(events)
      ensures writer.out <= EncodeAll(writer.sent)
      ensures writer.queue == [] && writer.Pending() == [] && wire == [] ==> reader.received == Sends(events)
    {
      hide EncodeAll, LenBytes, Sends;
      NoSends();
      assert events[..0] == [];
      for i := 0 to |events|
        invariant Valid() && writer.sent + writer.queue == Sends(events[..i])
      {
        SendsPush(events, i);
        SendsPrefix(events, i);
        assert SentBy(events[i]) == [] || SentBy(events[i])[0] in Sends(events[..i]) + SentBy(events[i]);
        Step(events[i]);
      }
      assert events[..|events|] == events;
      Behind();
      if wire == [] && writer.Pending() == [] {
        CaughtUp();
      }
    }
  }
}
