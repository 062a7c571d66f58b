/**
 Size-prefixed frames over a stream socket whose calls may transfer any part of what is asked, be
 interrupted or fail.  The socket's `script` fixes how its next calls behave; a call made when the
 script is empty never returns, which the methods report as Blocked.
 */
module Framing {
  import opened Basics

  const U32: nat := 0x1_0000_0000

  /** A call transfers at most n bytes, is interrupted by a signal, or fails. */
  datatype Outcome = Upto(n: nat) | Interrupted | Broken

  datatype Status = Done | Closed | Failed | NoBuffer | Blocked

  // ---------------------------------------------------------------- frames

  /** The little-endian size prefix. */
  function Prefix(n: nat): seq<Byte>
    requires n < U32
  {
    [n % 256, n / 256 % 256, n / 65536 % 256, n / 16777216]
  }

  function ReadPrefix(p: seq<Byte>): nat
    requires |p| == 4
  {
    p[0] as int + p[1] as int * 256 + p[2] as int * 65536 + p[3] as int * 16777216
  }

  function Frame(body: seq<Byte>): seq<Byte>
    requires |body| < U32
  {
    Prefix(|body|) + body
  }

  predicate Sizes(bodies: seq<seq<Byte>>, limit: nat) {
    forall i :: 0 <= i < |bodies| ==> |bodies[i]| <= limit
  }

  /** The stream that carries a sequence of frames. */
  function Stream(bodies: seq<seq<Byte>>): seq<Byte>
    requires Sizes(bodies, U32 - 1)
  {
    if bodies == [] then [] else Frame(bodies[0]) + Stream(bodies[1..])
  }

  lemma PrefixRoundTrip(n: nat)
    requires n < U32
    ensures ReadPrefix(Prefix(n)) == n
  {
    var a := n / 256;
    var b := a / 256;
    assert n / 65536 == b && n / 16777216 == b / 256;
    assert n == n % 256 + a * 256 && a == a % 256 + b * 256 && b == b % 256 + b / 256 * 256;
  }

  /** A prefix of four bytes denotes one size only. */
  lemma PrefixUnique(p: seq<Byte>)
    requires |p| == 4
    ensures ReadPrefix(p) < U32 && Prefix(ReadPrefix(p)) == p
  {
    var n, p1, p2, p3 := ReadPrefix(p), p[1] as int, p[2] as int, p[3] as int;
    assert n / 256 == p1 + p2 * 256 + p3 * 65536;
    assert n / 65536 == p2 + p3 * 256;
    assert n / 16777216 == p3;
  }

  /** The number denoted by bytes, the least significant one first. */
  function LittleEndian(bytes: seq<Byte>): nat {
    if bytes == [] then 0 else bytes[0] + 256 * LittleEndian(bytes[1..])
  }

  /** The prefix is the size in four bytes, least significant first. */
  lemma PrefixIsLittleEndian(p: seq<Byte>)
    requires |p| == 4
    ensures ReadPrefix(p) == LittleEndian(p)
  {
    assert LittleEndian(p[1..]) == p[1] + 256 * LittleEndian(p[1..][1..]);
    assert p[1..][1..] == [p[2], p[3]] && LittleEndian([p[2], p[3]]) == p[2] + 256 * LittleEndian([p[2], p[3]][1..]);
    assert [p[2], p[3]][1..] == [p[3]] && LittleEndian([p[3]]) == p[3] + 256 * LittleEndian([p[3]][1..]);
  }

  /** No frame is the beginning of another: the first frame of a stream is determined. */
  lemma FrameUnique(a: seq<Byte>, b: seq<Byte>, restA: seq<Byte>, restB: seq<Byte>)
    requires |a| < U32 && |b| < U32 && Frame(a) + restA == Frame(b) + restB
    ensures a == b && restA == restB
  {
    var stream := Frame(a) + restA;
    assert stream[..4] == Prefix(|a|) && (Frame(b) + restB)[..4] == Prefix(|b|);
    PrefixRoundTrip(|a|);
    PrefixRoundTrip(|b|);
    assert stream[4..][..|a|] == a && (Frame(b) + restB)[4..][..|b|] == b;
    assert stream[4..][|a|..] == restA && (Frame(b) + restB)[4..][|b|..] == restB;
  }

  lemma {:induction false} StreamAppend(bodies: seq<seq<Byte>>, body: seq<Byte>)
    requires Sizes(bodies, U32 - 1) && |body| < U32
    ensures Stream(bodies + [body]) == Stream(bodies) + Frame(body)
  {
    var all := bodies + [body];
    if bodies == [] {
      assert all == [body] && Stream([body]) == Frame(body) + [];
    } else {
      StreamAppend(bodies[1..], body);
      assert all[1..] == bodies[1..] + [body] && all[0] == bodies[0];
      Associates(Frame(bodies[0]), Stream(bodies[1..]), Frame(body));
    }
  }

  // ---------------------------------------------------------------- the socket calls

  function Least(a: nat, b: nat): nat { if a <= b then a else b }

  lemma MoreSent(before: seq<Byte>, data: seq<Byte>, n: nat, count: nat)
    requires n + count <= |data|
    ensures before + data[..n] + data[n..][..count] == before + data[..n + count]
  {
    assert data[..n] + data[n..][..count] == data[..n + count];
  }

  /** The first `got` bytes of the data are in place, and nothing outside the range changed. */
  predicate Filling(b0: seq<Byte>, b: seq<Byte>, data: seq<Byte>, at: nat, len: nat, got: nat) {
    && |b| == |b0| && at + len <= |b| && got <= len && got <= |data|
    && b[..at] == b0[..at] && b[at + len..] == b0[at + len..] && b[at..at + got] == data[..got]
  }

  lemma FillingMore(b0: seq<Byte>, b: seq<Byte>, b': seq<Byte>, data: seq<Byte>, at: nat, len: nat, got: nat, count: nat)
    requires Filling(b0, b, data, at, len, got) && got + count <= len && got + count <= |data| && |b'| == |b|
    requires b'[..at + got] == b[..at + got] && b'[at + got + count..] == b[at + got + count..]
    requires b'[at + got..at + got + count] == data[got..][..count]
    ensures Filling(b0, b', data, at, len, got + count)
  {
    assert b'[..at] == b'[..at + got][..at] && b[..at] == b[..at + got][..at];
    var k := len - got - count;
    assert b'[at + len..] == b'[at + got + count..][k..] && b[at + len..] == b[at + got + count..][k..];
    assert b'[at..at + got + count] == b'[..at + got][at..] + b'[at + got..at + got + count];
    assert b[at..at + got] == b[..at + got][at..];
    assert data[..got] + data[got..][..count] == data[..got + count];
  }

  class Socket {
    /** All that the peer writes before it closes its end, and all that was written to the peer. */
    var incoming: seq<Byte>
    var outgoing: seq<Byte>
    var script: seq<Outcome>

    constructor (incoming: seq<Byte>, script: seq<Outcome>)
      ensures this.incoming == incoming && outgoing == [] && this.script == script
    {
      this.incoming, outgoing, this.script := incoming, [], script;
    }

    /** `send`. */
    method SendCall(data: seq<Byte>) returns (count: int, interrupted: bool)
      requires script != []
      modifies this`outgoing, this`script
      ensures script == old(script)[1..] && -1 <= count <= |data|
      ensures interrupted ==> count == -1
      ensures count >= 0 ==> outgoing == old(outgoing) + data[..count]
      ensures count == -1 ==> outgoing == old(outgoing) && (!interrupted ==> old(script)[0].Broken?)
    {
      count, interrupted := -1, script[0].Interrupted?;
      if script[0].Upto? {
        count := Least(script[0].n, |data|);
        outgoing := outgoing + data[..count];
      }
      script := script[1..];
    }

    /** `recv`: 0 when the peer closed and nothing is left. */
    method RecvCall(buf: array<Byte>, at: nat, len: nat) returns (count: int, interrupted: bool)
      requires script != [] && at + len <= buf.Length && (script[0].Upto? ==> script[0].n > 0)
      modifies this`incoming, this`script, buf
      ensures script == old(script)[1..] && -1 <= count <= len
      ensures interrupted ==> count == -1
      ensures count >= 0 ==> |old(incoming)| >= count && incoming == old(incoming)[count..]
      ensures count >= 0 ==> buf[at..at + count] == old(incoming)[..count]
      ensures buf[..at] == old(buf[..at]) && (count >= 0 ==> buf[at + count..] == old(buf[at + count..]))
      ensures count == 0 && len > 0 ==> old(incoming) == []
      ensures count == -1 ==> incoming == old(incoming) && buf[..] == old(buf[..]) && (!interrupted ==> old(script)[0].Broken?)
    {
      count, interrupted := -1, script[0].Interrupted?;
      if script[0].Upto? {
        count := Least(script[0].n, Least(len, |incoming|));
        forall i | 0 <= i < count { buf[at + i] := incoming[i]; }
        incoming := incoming[count..];
      }
      script := script[1..];
    }

    /** `vsg_protocol_send`: the whole buffer is written in order, whatever each call accepts; `sent` bytes of it else. */
    method ProtocolSend(data: seq<Byte>) returns (status: Status, ghost sent: nat)
      modifies this`outgoing, this`script
      ensures status in {Done, Failed, Blocked} && sent <= |data| && outgoing == old(outgoing) + data[..sent]
      ensures status == Done ==> sent == |data| && outgoing == old(outgoing) + data
      ensures status == Failed ==> Broken in old(script)
      ensures status != Done && data != [] ==> sent < |data|
    {
      var curlen: nat, first := |data|, true;
      ghost var k := 0;
      while first || curlen > 0
        invariant (first ==> curlen == |data|) && curlen <= |data| && outgoing == old(outgoing) + data[..|data| - curlen]
        invariant 0 <= k <= |old(script)| && script == old(script)[k..]
        decreases |script|
      {
        if script == [] { return Blocked, |data| - curlen; }
        var count, interrupted := SendCall(data[|data| - curlen..]);
        k, first := k + 1, false;
        if count > 0 {
          MoreSent(old(outgoing), data, |data| - curlen, count);
          curlen := curlen - count;
        } else if count < 0 && !interrupted {
          return Failed, |data| - curlen;
        }
      }
      assert data[..|data|] == data;
      return Done, |data|;
    }

    /** No receive call asks for nothing and gets nothing while bytes are left. */
    predicate Productive()
      reads this
    {
      forall i :: 0 <= i < |script| && script[i].Upto? ==> script[i].n > 0
    }

    /** `vsg_protocol_recv`: exactly the next `len` bytes, whatever each call returns; one call at least. */
    method ProtocolRecv(buf: array<Byte>, len: nat) returns (status: Status)
      requires len <= buf.Length && Productive()
      modifies this`incoming, this`script, buf
      ensures Productive() && status in {Done, Closed, Failed, Blocked}
      ensures status == Done ==>
        |old(incoming)| >= len && incoming == old(incoming)[len..] && buf[..len] == old(incoming)[..len]
      ensures buf[len..] == old(buf[len..])
      ensures status == Closed ==> incoming == [] && |old(incoming)| < len
      ensures status == Failed ==> Broken in old(script)
      ensures forall o :: o in script ==> o in old(script)
    {
      var curlen: nat, first := len, true;
      ghost var k := 0;
      while first || curlen > 0
        invariant curlen <= len && len - curlen <= |old(incoming)| && incoming == old(incoming)[len - curlen..]
        invariant buf[..len - curlen] == old(incoming)[..len - curlen] && buf[len..] == old(buf[len..])
        invariant 0 <= k <= |old(script)| && script == old(script)[k..] && Productive()
        decreases |script|
      {
        if script == [] { return Blocked; }
        var count, interrupted := RecvCall(buf, len - curlen, curlen);
        k, first := k + 1, false;
        if count > 0 {
          assert buf[..len - curlen + count] == buf[..len - curlen] + buf[len - curlen..len - curlen + count];
          curlen := curlen - count;
        } else if count == 0 && curlen > 0 {
          return Closed;
        } else if count < 0 && !interrupted {
          return Failed;
        }
      }
      return Done;
    }

    /** `read_exact`, into `buf[at..at + len]`; an empty buffer needs no call. */
    method ReadExact(buf: array<Byte>, at: nat, len: nat) returns (status: Status)
      requires at + len <= buf.Length && Productive()
      modifies this`incoming, this`script, buf
      ensures Productive() && status in {Done, Closed, Failed, Blocked}
      ensures status == Done ==> |old(incoming)| >= len && incoming == old(incoming)[len..]
      ensures status == Done ==> buf[at..at + len] == old(incoming)[..len]
      ensures buf[..at] == old(buf[..at]) && buf[at + len..] == old(buf[at + len..])
      ensures status == Closed ==> incoming == [] && |old(incoming)| < len
      ensures status == Failed ==> Broken in old(script)
    {
      var got: nat := 0;
      ghost var k, before := 0, buf[..];
      while got < len
        invariant Filling(before, buf[..], old(incoming), at, len, got) && incoming == old(incoming)[got..]
        invariant 0 <= k <= |old(script)| && script == old(script)[k..] && Productive()
        decreases |script|
      {
        if script == [] { return Blocked; }
        ghost var b := buf[..];
        var count, interrupted := RecvCall(buf, at + got, len - got);
        k := k + 1;
        if count >= 0 { FillingMore(before, b, buf[..], old(incoming), at, len, got, count); }
        if count > 0 {
          got := got + count;
        } else if count == 0 {
          return Closed;
        } else if !interrupted {
          return Failed;
        }
      }
      return Done;
    }

    /** `fb_recv`: the next frame goes to the buffer if it fits; else its prefix is lost. */
    method FbRecv(buffer: array<Byte>, bufSize: nat) returns (status: Status, len: nat)
      requires bufSize <= buffer.Length && Productive()
      modifies this`incoming, this`script, buffer
      ensures Productive()
      ensures status == Done ==> len <= bufSize && len < U32 && old(incoming) == Frame(buffer[..len]) + incoming
      ensures status == NoBuffer ==>
        |old(incoming)| >= 4 && ReadPrefix(old(incoming)[..4]) > bufSize && incoming == old(incoming)[4..]
      ensures status == Done || status == NoBuffer ==> |old(incoming)| >= 4
      ensures status == Done ==> HoldsFrame(old(incoming))
      ensures status == Closed ==> !HoldsFrame(old(incoming))
      ensures status == Failed ==> Broken in old(script)
    {
      var lenBuf := new Byte[4];
      status := ProtocolRecv(lenBuf, 4);
      len := 0;
      if status != Done { return; }
      assert lenBuf[..] == old(incoming)[..4];
      len := ReadPrefix(lenBuf[..]);
      PrefixUnique(lenBuf[..]);
      if bufSize < len { return NoBuffer, len; }
      status := ProtocolRecv(buffer, len);
      assert status == Done ==> old(incoming) == old(incoming)[..4] + (old(incoming)[4..][..len] + incoming);
    }

    /** The frames are written one by one; `more` is what was written of the one that failed. */
    method SendFrames(bodies: seq<seq<Byte>>) returns (status: Status, sent: nat, ghost more: seq<Byte>)
      requires Sizes(bodies, U32 - 1)
      modifies this`outgoing, this`script
      ensures sent <= |bodies| && (status == Done ==> sent == |bodies|) && !HoldsFrame(more)
      ensures outgoing == old(outgoing) + Stream(bodies[..sent]) + more
    {
      sent, more := 0, [];
      while sent < |bodies|
        invariant sent <= |bodies| && outgoing == old(outgoing) + Stream(bodies[..sent])
      {
        ghost var before := outgoing;
        ghost var cut;
        status, cut := ProtocolSend(Frame(bodies[sent]));
        if status != Done {
          CutFrameIsNotHeld(bodies[sent], cut);
          return status, sent, Frame(bodies[sent])[..cut];
        }
        StreamAppend(bodies[..sent], bodies[sent]);
        assert bodies[..sent] + [bodies[sent]] == bodies[..sent + 1];
        Associates(old(outgoing), Stream(bodies[..sent]), Frame(bodies[sent]));
        sent := sent + 1;
      }
      status := Done;
    }

    /** Frames are read until one cannot be; `rest` is what was left of the stream at that point. */
    method RecvFrames(buffer: array<Byte>, bufSize: nat) returns (status: Status, got: seq<seq<Byte>>, ghost rest: seq<Byte>)
      requires bufSize <= buffer.Length && Productive()
      modifies this`incoming, this`script, buffer
      ensures Sizes(got, U32 - 1) && old(incoming) == Stream(got) + rest && status in {Closed, Failed, NoBuffer, Blocked}
      ensures status == Closed ==> !HoldsFrame(rest)
      ensures status == NoBuffer ==> |rest| >= 4 && ReadPrefix(rest[..4]) > bufSize
    {
      got := [];
      while true
        invariant Productive() && Sizes(got, U32 - 1) && old(incoming) == Stream(got) + incoming
        decreases |incoming|
      {
        var len;
        rest := incoming;
        status, len := FbRecv(buffer, bufSize);
        if status != Done { return; }
        StreamAppend(got, buffer[..len]);
        Associates(Stream(got), Frame(buffer[..len]), incoming);
        got := got + [buffer[..len]];
      }
    }
  }

  // ---------------------------------------------------------------- sequences of frames

  /** The stream begins with a whole frame; when it does not, `fb_recv` finds the peer's end. */
  predicate HoldsFrame(stream: seq<Byte>) {
    |stream| >= 4 && |stream| >= 4 + ReadPrefix(stream[..4])
  }

  lemma FrameIsHeld(body: seq<Byte>, rest: seq<Byte>)
    requires |body| < U32
    ensures HoldsFrame(Frame(body) + rest)
  {
    assert (Frame(body) + rest)[..4] == Prefix(|body|);
    PrefixRoundTrip(|body|);
  }

  lemma TailSizes(bodies: seq<seq<Byte>>, k: nat)
    requires Sizes(bodies, U32 - 1) && k <= |bodies|
    ensures Sizes(bodies[k..], U32 - 1)
  {}

  lemma WholeFrameLeft(left: seq<seq<Byte>>, more: seq<Byte>)
    requires Sizes(left, U32 - 1) && !HoldsFrame(more)
    ensures HoldsFrame(Stream(left) + more) <==> left != []
  {
    if left == [] {
      assert [] + more == more;
    } else {
      Associates(Frame(left[0]), Stream(left[1..]), more);
      FrameIsHeld(left[0], Stream(left[1..]) + more);
    }
  }

  /** Frames at the beginning of a stream are the first ones sent, and no more than were sent. */
  lemma {:induction false} ReceivedIsSent(sent: seq<seq<Byte>>, more: seq<Byte>, got: seq<seq<Byte>>, rest: seq<Byte>)
    requires Sizes(sent, U32 - 1) && Sizes(got, U32 - 1) && !HoldsFrame(more)
    requires Stream(sent) + more == Stream(got) + rest
    ensures |got| <= |sent| && got == sent[..|got|] && rest == Stream(sent[|got|..]) + more
  {
    if got == [] {
      assert Stream(got) + rest == rest && sent[0..] == sent;
    } else {
      Associates(Frame(got[0]), Stream(got[1..]), rest);
      FrameIsHeld(got[0], Stream(got[1..]) + rest);
      assert [] + more == more;
      assert sent != [];
      Associates(Frame(sent[0]), Stream(sent[1..]), more);
      FrameUnique(sent[0], got[0], Stream(sent[1..]) + more, Stream(got[1..]) + rest);
      ReceivedIsSent(sent[1..], more, got[1..], rest);
      assert got == [got[0]] + got[1..] && sent[1..][..|got| - 1] == sent[..|got|][1..];
      assert sent[1..][|got| - 1..] == sent[|got|..];
    }
  }

  /**
   Round trip: when the stream of the frames sent, with the beginning `more` of one cut off at the end,
   begins with the frames received, these are the first ones sent, in order, with nothing lost, repeated
   or made up; they are all of them exactly when no whole frame is left.
   */
  lemma FramingRoundTrip(sent: seq<seq<Byte>>, more: seq<Byte>, got: seq<seq<Byte>>, rest: seq<Byte>)
    requires Sizes(sent, U32 - 1) && Sizes(got, U32 - 1) && !HoldsFrame(more)
    requires Stream(sent) + more == Stream(got) + rest
    ensures |got| <= |sent| && got == sent[..|got|] && rest == Stream(sent[|got|..]) + more
    ensures !HoldsFrame(rest) <==> got == sent
  {
    ReceivedIsSent(sent, more, got, rest);
    TailSizes(sent, |got|);
    WholeFrameLeft(sent[|got|..], more);
    if |got| == |sent| { assert sent[..|got|] == sent; }
  }

  lemma NextFrame(sent: seq<seq<Byte>>, more: seq<Byte>, got: seq<seq<Byte>>, rest: seq<Byte>)
    requires Sizes(sent, U32 - 1) && |got| <= |sent| && rest == Stream(sent[|got|..]) + more
    ensures |got| < |sent| ==> |rest| >= 4 && ReadPrefix(rest[..4]) == |sent[|got|]|
  {
    if |got| < |sent| {
      assert rest[..4] == Prefix(|sent[|got|]|);
      PrefixRoundTrip(|sent[|got|]|);
    }
  }

  /**
   Two ends of a connection: one writes frames until a call fails, the other reads until it finds the end
   or a call fails.  However the calls cut the stream, the receiver gets the first frames sent, unchanged
   and in order; when it finds the peer's end, all that were sent whole, and when a frame is too large for
   its buffer, all before that one.
   */
  method Transfer(bodies: seq<seq<Byte>>, sender: Socket, receiver: Socket, buffer: array<Byte>, bufSize: nat)
    returns (wrote: Status, sent: nat, read: Status, got: seq<seq<Byte>>)
    requires Sizes(bodies, U32 - 1) && sender != receiver && sender.outgoing == []
    requires receiver.Productive() && bufSize <= buffer.Length
    modifies sender`outgoing, sender`script, receiver`incoming, receiver`script, buffer
    ensures sent <= |bodies| && (wrote == Done ==> sent == |bodies|)
    ensures |got| <= sent && got == bodies[..|got|] && read in {Closed, Failed, NoBuffer, Blocked}
    ensures read == Closed ==> got == bodies[..sent]
    ensures read == NoBuffer && |got| < sent ==> |bodies[|got|]| > bufSize
  {
    ghost var more, rest;
    wrote, sent, more := sender.SendFrames(bodies);
    receiver.incoming := sender.outgoing;
    read, got, rest := receiver.RecvFrames(buffer, bufSize);
    assert [] + Stream(bodies[..sent]) == Stream(bodies[..sent]);
    FramingRoundTrip(bodies[..sent], more, got, rest);
    NextFrame(bodies[..sent], more, got, rest);
  }

  /** A frame cut off before its end is no whole frame. */
  lemma CutFrameIsNotHeld(body: seq<Byte>, cut: nat)
    requires |body| < U32 && cut < |Frame(body)|
    ensures !HoldsFrame(Frame(body)[..cut])
  {
    if cut >= 4 {
      assert Frame(body)[..cut][..4] == Prefix(|body|);
      PrefixRoundTrip(|body|);
    }
  }
}
