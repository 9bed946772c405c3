/**
 The adapter between the agent server's byte stream and WebSocket messages
 (internal/agentproxy/framing.go). Outbound bytes are cut into agent frames, each a 4-byte
 big-endian length and that many bytes (the string encoding of section 5 of RFC 4251), one
 message per frame, in 32-bit arithmetic as the source does it.
 */
module Framing {
  import opened Common

  type Bytes = seq<Byte>

  /** One more than the largest 32-bit length. */
  const WORD: int := 0x1_0000_0000

  function Length(b: Bytes): (n: int)
    requires |b| >= 4
    ensures 0 <= n < WORD
  {
    var w: int, x: int, y: int, z: int := b[0], b[1], b[2], b[3];
    ((w * 256 + x) * 256 + y) * 256 + z
  }

  function Flat(ms: seq<Bytes>): Bytes {
    if ms == [] then [] else ms[0] + Flat(ms[1..])
  }

  // ---------------------------------------------------------------- what the stream means

  /** The stream begins with a whole frame. */
  predicate Complete(b: Bytes) { |b| >= 4 && |b| - 4 >= Length(b) }

  /** The successive frames of a stream. */
  function Frames(b: Bytes): seq<Bytes>
    decreases |b|
  {
    if Complete(b) then [b[..4 + Length(b)]] + Frames(b[4 + Length(b)..]) else []
  }

  /** What is left after its last whole frame. */
  function Rest(b: Bytes): Bytes
    decreases |b|
  {
    if Complete(b) then Rest(b[4 + Length(b)..]) else b
  }

  // ---------------------------------------------------------------- what the code does

  /** uint32(len(b)-4) >= n, with the conversion cutting off high bits. */
  predicate CodeComplete(b: Bytes) { |b| >= 4 && (|b| - 4) % WORD >= Length(b) }

  /** 4+n, an addition of 32-bit numbers. */
  function CodeCut(b: Bytes): (m: nat)
    requires CodeComplete(b)
    ensures m <= |b|
  {
    (4 + Length(b)) % WORD
  }

  datatype Drained = Drained(messages: seq<Bytes>, rest: Bytes, failed: bool)

  function Sending(first: Bytes, d: Drained): Drained { d.(messages := [first] + d.messages) }

  /** The write loop on a socket that takes `accepts` more messages and then fails. */
  function Drain(b: Bytes, accepts: nat): Drained {
    if !CodeComplete(b) then Drained([], b, false)
    else if accepts == 0 then Drained([], b, true)
    else Sending(b[..CodeCut(b)], Drain(b[CodeCut(b)..], accepts - 1))
  }

  function After(out: seq<Bytes>, d: Drained): Drained { d.(messages := out + d.messages) }

  lemma {:induction false} DrainOne(out: seq<Bytes>, b: Bytes, accepts: nat)
    requires CodeComplete(b) && accepts > 0
    ensures After(out, Drain(b, accepts)) == After(out + [b[..CodeCut(b)]], Drain(b[CodeCut(b)..], accepts - 1))
  {
    var first, more := [b[..CodeCut(b)]], Drain(b[CodeCut(b)..], accepts - 1).messages;
    assert out + (first + more) == (out + first) + more;
  }

  datatype Message = Binary(data: Bytes) | Text
  datatype ReadResult = Data(data: Bytes) | ReadError | Eof

  class WsReadWriter {
    var readBuf: Bytes
    var writeBuf: Bytes
    /** Messages the socket took, messages it has yet to give, and whether it was closed with code 4002. */
    var sent: seq<Bytes>
    var inbox: seq<Message>
    var refused: bool

    constructor (inbox: seq<Message>)
      ensures readBuf == [] && writeBuf == [] && sent == [] && this.inbox == inbox && !refused
    {
      readBuf, writeBuf, sent, refused := [], [], [], false;
      this.inbox := inbox;
    }

    /** Bytes still to be read before the stream ends or breaks. */
    ghost function Unread(): Bytes
      reads this
    {
      readBuf + Incoming(inbox, refused)
    }

    method Write(p: Bytes, accepts: nat) returns (n: nat, failed: bool)
      modifies this`writeBuf, this`sent
      ensures
        var d := Drain(old(writeBuf) + p, accepts);
        && sent == old(sent) + d.messages && writeBuf == d.rest
        && failed == d.failed && n == if failed then 0 else |p|
    {
      writeBuf := writeBuf + p;
      ghost var all := Drain(writeBuf, accepts);
      var left := accepts;
      ghost var out: seq<Bytes> := [];
      while |writeBuf| >= 4
        invariant sent == old(sent) + out
        invariant all == After(out, Drain(writeBuf, left))
        decreases left
      {
        if !CodeComplete(writeBuf) {
          break;
        }
        var cut := CodeCut(writeBuf);
        var frame := writeBuf[..cut];
        if left == 0 {
          return 0, true;
        }
        DrainOne(out, writeBuf, left);
        sent := sent + [frame];
        out := out + [frame];
        left := left - 1;
        writeBuf := writeBuf[cut..];
      }
      return |p|, false;
    }

    /** Empty binary messages are passed over; a text message ends the stream for good. */
    method Read(size: nat) returns (r: ReadResult)
      modifies this`readBuf, this`inbox, this`refused
      ensures r.Data? ==> |r.data| <= size && r.data + Unread() == old(Unread())
      ensures r.Data? && r.data == [] ==> size == 0
      ensures !r.Data? ==> old(Unread()) == [] == Unread()
      ensures r.Eof? <==> refused && !old(refused)
    {
      while |readBuf| == 0
        invariant Unread() == old(Unread()) && refused == old(refused)
        decreases |inbox| + if |readBuf| == 0 then 1 else 0
      {
        if refused || inbox == [] {
          return ReadError;
        }
        var msg := inbox[0];
        inbox := inbox[1..];
        if msg.Text? {
          refused := true;
          return Eof;
        }
        readBuf := msg.data;
      }
      var n := if size < |readBuf| then size else |readBuf|;
      r := Data(readBuf[..n]);
      readBuf := readBuf[n..];
    }
  }

  /** The bytes of the binary messages up to the first text message. */
  function Incoming(inbox: seq<Message>, refused: bool): Bytes {
    if refused || inbox == [] || inbox[0].Text? then [] else inbox[0].data + Incoming(inbox[1..], refused)
  }

  function Binaries(datas: seq<Bytes>): seq<Message> { seq(|datas|, i requires 0 <= i < |datas| => Binary(datas[i])) }

  /** What comes in is the contents of the binary messages up to the first text message, end to end. */
  lemma {:induction false} IncomingIsFlat(datas: seq<Bytes>, rest: seq<Message>)
    requires rest == [] || rest[0] == Text
    ensures Incoming(Binaries(datas) + rest, false) == Flat(datas)
  {
    var all := Binaries(datas) + rest;
    if datas == [] {
      assert all == rest;
    } else {
      assert all[0] == Binary(datas[0]) && all[1..] == Binaries(datas[1..]) + rest;
      IncomingIsFlat(datas[1..], rest);
    }
  }

  // ---------------------------------------------------------------- the stream

  /** Nothing is added, lost or moved, and what is left holds no whole frame. */
  lemma {:induction false} FramesAndRest(b: Bytes)
    ensures Flat(Frames(b)) + Rest(b) == b && !Complete(Rest(b))
    decreases |b|
  {
    if Complete(b) {
      var m := 4 + Length(b);
      FramesAndRest(b[m..]);
      assert Frames(b)[1..] == Frames(b[m..]);
      assert b == b[..m] + b[m..];
    }
  }

  lemma {:induction false} Extends(a: Bytes, b: Bytes)
    requires Complete(a)
    ensures Complete(a + b) && Length(a + b) == Length(a)
    ensures (a + b)[..4 + Length(a)] == a[..4 + Length(a)] && (a + b)[4 + Length(a)..] == a[4 + Length(a)..] + b
  {
  }

  /** A frame does not depend on what follows it. */
  lemma {:induction false} FramesJoin(a: Bytes, b: Bytes)
    ensures Frames(a + b) == Frames(a) + Frames(Rest(a) + b)
    ensures Rest(a + b) == Rest(Rest(a) + b)
    decreases |a|
  {
    if Complete(a) {
      var m := 4 + Length(a);
      Extends(a, b);
      FramesJoin(a[m..], b);
      var first, rest := [a[..m]], Frames(a[m..]);
      assert (first + rest) + Frames(Rest(a) + b) == first + (rest + Frames(Rest(a) + b));
    }
  }

  /** A payload as the agent server writes it. */
  function Encode(p: Bytes): (f: Bytes)
    requires |p| < WORD
    ensures |f| == 4 + |p| && f[4..] == p
    ensures var a: int, b: int, c: int, d: int := f[0], f[1], f[2], f[3];
      |p| == a * 0x100_0000 + b * 0x1_0000 + c * 0x100 + d
  {
    var n := |p|;
    [n / 256 / 256 / 256, n / 256 / 256 % 256, n / 256 % 256, n % 256] + p
  }

  function EncodeAll(ps: seq<Bytes>): seq<Bytes>
    requires forall i :: 0 <= i < |ps| ==> |ps[i]| < WORD
  {
    if ps == [] then [] else [Encode(ps[0])] + EncodeAll(ps[1..])
  }

  lemma {:induction false} LengthOfEncoded(p: Bytes)
    requires |p| < WORD
    ensures Length(Encode(p)) == |p|
  {
  }

  /** Payloads written one after the other come back as exactly those frames, with nothing left over. */
  lemma {:induction false} FramesRoundTrip(ps: seq<Bytes>)
    requires forall i :: 0 <= i < |ps| ==> |ps[i]| < WORD
    ensures Frames(Flat(EncodeAll(ps))) == EncodeAll(ps) && Rest(Flat(EncodeAll(ps))) == []
  {
    if ps != [] {
      var f, more := Encode(ps[0]), Flat(EncodeAll(ps[1..]));
      FramesRoundTrip(ps[1..]);
      LengthOfEncoded(ps[0]);
      assert EncodeAll(ps)[1..] == EncodeAll(ps[1..]);
      assert Flat(EncodeAll(ps)) == f + more;
      assert Length(f + more) == Length(f);
      assert (f + more)[..4 + Length(f)] == f && (f + more)[4 + Length(f)..] == more;
    }
  }

  // ---------------------------------------------------------------- the code and the stream

  /** Nothing the server wrote is lost, also when the socket fails: what was not sent stays buffered, in order. */
  lemma {:induction false} DrainConserves(b: Bytes, accepts: nat)
    ensures Flat(Drain(b, accepts).messages) + Drain(b, accepts).rest == b
  {
    if CodeComplete(b) && accepts > 0 {
      var m := CodeCut(b);
      DrainConserves(b[m..], accepts - 1);
      assert Drain(b, accepts).messages[1..] == Drain(b[m..], accepts - 1).messages;
      assert b == b[..m] + b[m..];
    }
  }

  /** While the buffer is shorter than 2^32 bytes, the 32-bit tests are the tests of the stream. */
  lemma {:induction false} StepAgrees(b: Bytes)
    requires |b| < WORD
    ensures CodeComplete(b) == Complete(b) && (Complete(b) ==> CodeCut(b) == 4 + Length(b))
  {
  }

  /** The one test and the one cut agree with the stream exactly when no wrap-around gets in the way. */
  lemma {:induction false} StepAgreesExactlyWhen(b: Bytes)
    requires |b| >= 4
    ensures (CodeComplete(b) == Complete(b) && (Complete(b) ==> CodeCut(b) == 4 + Length(b)))
      <==> (|b| - 4 < Length(b) || (Length(b) <= (|b| - 4) % WORD && Length(b) < WORD - 4))
  {
    if CodeComplete(b) {
      assert CodeCut(b) == if Length(b) < WORD - 4 then 4 + Length(b) else 4 + Length(b) - WORD;
    }
  }

  /** The loop sends the frames of the buffer and keeps the rest; on a failing socket, a prefix of them. */
  lemma {:induction false} DrainIsFrames(b: Bytes, accepts: nat)
    requires |b| < WORD
    ensures Drain(b, accepts).failed <==> accepts < |Frames(b)|
    ensures Drain(b, accepts).messages == if accepts < |Frames(b)| then Frames(b)[..accepts] else Frames(b)
    ensures !Drain(b, accepts).failed ==> Drain(b, accepts).rest == Rest(b)
  {
    StepAgrees(b);
    if Complete(b) && accepts > 0 {
      var m := 4 + Length(b);
      var first, more := [b[..m]], Frames(b[m..]);
      DrainIsFrames(b[m..], accepts - 1);
      assert Frames(b) == first + more && Drain(b, accepts) == Sending(b[..m], Drain(b[m..], accepts - 1));
      if accepts < |Frames(b)| {
        assert (first + more)[..accepts] == first + more[..accepts - 1];
      }
    }
  }

  // ---------------------------------------------------------------- successive writes

  datatype Link = Link(sent: seq<Bytes>, buf: Bytes)

  function OneWrite(link: Link, chunk: Bytes): Link {
    var b := link.buf + chunk;
    var d := Drain(b, |b|);
    Link(link.sent + d.messages, d.rest)
  }

  /** Successive calls of Write on a socket that fails none of them. */
  function Writes(link: Link, chunks: seq<Bytes>): Link
    decreases |chunks|
  {
    if chunks == [] then link else Writes(OneWrite(link, chunks[0]), chunks[1..])
  }

  /** At every call what is left of the last frame and the new bytes together stay below 2^32 bytes. */
  predicate Fits(left: Bytes, chunks: seq<Bytes>)
    decreases |chunks|
  {
    chunks != [] ==> |left| + |chunks[0]| < WORD && Fits(Rest(left + chunks[0]), chunks[1..])
  }

  lemma {:induction false} FewFrames(b: Bytes)
    ensures |Frames(b)| <= |b|
    decreases |b|
  {
    if Complete(b) { FewFrames(b[4 + Length(b)..]); }
  }

  /** What sending a stream in one piece makes of a link. */
  function Framed(sent: seq<Bytes>, b: Bytes): Link { Link(sent + Frames(b), Rest(b)) }

  lemma {:induction false} WriteOne(link: Link, chunk: Bytes)
    requires |link.buf| + |chunk| < WORD
    ensures OneWrite(link, chunk) == Framed(link.sent, link.buf + chunk)
    ensures !Complete(Rest(link.buf + chunk))
  {
    var b := link.buf + chunk;
    FewFrames(b);
    DrainIsFrames(b, |b|);
    FramesAndRest(b);
  }

  lemma {:induction false} FramedJoin(sent: seq<Bytes>, b: Bytes, more: Bytes)
    ensures Framed(Framed(sent, b).sent, Rest(b) + more) == Framed(sent, b + more)
  {
    FramesJoin(b, more);
    var f, g := Frames(b), Frames(Rest(b) + more);
    assert (sent + f) + g == sent + (f + g);
  }

  lemma {:induction false} WritesFrom(link: Link, chunks: seq<Bytes>)
    requires Fits(link.buf, chunks) && !Complete(link.buf)
    ensures Writes(link, chunks) == Framed(link.sent, link.buf + Flat(chunks))
    decreases |chunks|
  {
    if chunks == [] {
      assert link.buf + Flat(chunks) == link.buf;
    } else {
      var b, more := link.buf + chunks[0], Flat(chunks[1..]);
      WriteOne(link, chunks[0]);
      WritesFrom(OneWrite(link, chunks[0]), chunks[1..]);
      FramedJoin(link.sent, b, more);
      assert link.buf + Flat(chunks) == b + more;
    }
  }

  /**
   However the server's output is cut into Write calls, the messages sent are the successive
   frames of the whole stream, the buffer holds the rest of the stream, and that is never a
   whole frame.
   */
  lemma ChunksDoNotMatter(chunks: seq<Bytes>)
    requires Fits([], chunks)
    ensures Writes(Link([], []), chunks) == Link(Frames(Flat(chunks)), Rest(Flat(chunks)))
    ensures !Complete(Writes(Link([], []), chunks).buf)
  {
    WritesFrom(Link([], []), chunks);
    assert [] + Flat(chunks) == Flat(chunks);
    FramesAndRest(Flat(chunks));
  }

  /** One message per response: whatever the cuts, the client receives the encoded payloads, one each. */
  lemma OneMessageEach(ps: seq<Bytes>, chunks: seq<Bytes>)
    requires forall i :: 0 <= i < |ps| ==> |ps[i]| < WORD
    requires Flat(chunks) == Flat(EncodeAll(ps)) && Fits([], chunks)
    ensures Writes(Link([], []), chunks) == Link(EncodeAll(ps), [])
  {
    ChunksDoNotMatter(chunks);
    FramesRoundTrip(ps);
  }

  /**
   At 2^32 bytes the sum wraps: a whole frame is buffered, and the loop sends empty messages until
   the socket fails.
   */
  lemma WrapSendsNothing(b: Bytes, accepts: nat)
    requires |b| == WORD && Length(b) == WORD - 4
    ensures Frames(b) == [b]
    ensures Drain(b, accepts) == Drained(seq(accepts, i => []), b, true)
  {
    assert b[..WORD] == b && b[WORD..] == [];
    Spins(b, accepts);
  }

  lemma {:induction false} Spins(b: Bytes, accepts: nat)
    requires |b| == WORD && Length(b) == WORD - 4
    ensures Drain(b, accepts) == Drained(seq(accepts, i => []), b, true)
  {
    if accepts > 0 {
      Spins(b, accepts - 1);
      assert CodeCut(b) == 0 && b[..0] == [] && b[0..] == b;
    }
  }

  lemma {:induction false} RestShrinks(b: Bytes)
    ensures |Rest(b)| <= |b|
    decreases |b|
  {
    if Complete(b) { RestShrinks(b[4 + Length(b)..]); }
  }

  /** Enough for it: less than 2^32 bytes are written on the connection in all. */
  lemma {:induction false} SmallFits(left: Bytes, chunks: seq<Bytes>)
    requires |left| + |Flat(chunks)| < WORD
    ensures Fits(left, chunks)
    decreases |chunks|
  {
    if chunks != [] {
      RestShrinks(left + chunks[0]);
      SmallFits(Rest(left + chunks[0]), chunks[1..]);
    }
  }
}
