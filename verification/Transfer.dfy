/** Frames over short writes and short reads: the send loop of server/parse_command.c and the reassembly loop of
    Android/jni/push.c. */
module Transfer {
  import opened Bytes
  import opened Frames
  import C = Codec
  import opened Wrappers

  const MAXBUF := 4096

  // ----- sending

  class Socket {
    /** All the bytes that have gone out. */
    var wire: seq<byte>

    constructor ()
      ensures wire == []
    {
      wire := [];
    }

    /** send of no more than MAXBUF bytes: it takes some of them, at least one. */
    method Send(data: seq<byte>) returns (n: nat)
      requires data != [] && |data| <= MAXBUF
      modifies this
      ensures 0 < n <= |data| && wire == old(wire) + data[..n]
    {
      n :| 0 < n <= |data|;
      wire := wire + data[..n];
    }
  }

  /** The loop at the end of createServerMessage; no socket is the descriptor -1. */
  method SendFrame(sock: Socket?, retbuf: seq<byte>) returns (sumlen: nat)
    requires retbuf != []
    modifies if sock == null then {} else {sock}
    ensures sock == null ==> sumlen == 0
    ensures sock != null ==> sumlen == |retbuf| && sock.wire == old(sock.wire) + retbuf
  {
    var total := |retbuf|;
    sumlen := 0;
    if sock != null {
      var more := true;
      while more
        invariant sumlen <= total && (more <==> sumlen < total)
        invariant sock.wire == old(sock.wire) + retbuf[..sumlen]
        decreases total - sumlen
      {
        var sendlen;
        label before:
        if total - sumlen > MAXBUF {
          sendlen := sock.Send(retbuf[sumlen..sumlen + MAXBUF]);
        } else {
          sendlen := sock.Send(retbuf[sumlen..total]);
        }
        assert sock.wire == old@before(sock.wire) + retbuf[sumlen..sumlen + sendlen];
        assert retbuf[..sumlen + sendlen] == retbuf[..sumlen] + retbuf[sumlen..sumlen + sendlen];
        sumlen := sumlen + sendlen;
        more := sumlen < total;
      }
      assert retbuf[..total] == retbuf;
    }
  }

  // ----- telling frames apart

  /** A frame's header says how long it is. */
  predicate Framed(frame: seq<byte>) {
    HEADER_SIZE <= |frame| < TWO_32 && FromLittleEndian(frame[4..8]) == |frame|
  }

  function Joined(frames: seq<seq<byte>>): seq<byte> {
    if frames == [] then [] else frames[0] + Joined(frames[1..])
  }

  /** Cutting a stream where the headers say. */
  function Split(stream: seq<byte>): Option<seq<seq<byte>>>
    decreases |stream|
  {
    if stream == [] then Some([])
    else if |stream| < HEADER_SIZE then None
    else
      var total := FromLittleEndian(stream[4..8]);
      if total < HEADER_SIZE || |stream| < total then None
      else match Split(stream[total..])
        case None => None
        case Some(frames) => Some([stream[..total]] + frames)
  }

  lemma {:induction false} SplitJoined(frames: seq<seq<byte>>)
    requires forall i :: 0 <= i < |frames| ==> Framed(frames[i])
    ensures Split(Joined(frames)) == Some(frames)
  {
    hide FromLittleEndian;
    if frames != [] {
      var frame, rest := frames[0], Joined(frames[1..]);
      SplitJoined(frames[1..]);
      var stream := frame + rest;
      assert stream[4..8] == frame[4..8] && stream[..|frame|] == frame && stream[|frame|..] == rest;
      assert [frame] + frames[1..] == frames;
    }
  }

  lemma TotalOfFrame(header: seq<byte>, body: seq<byte>)
    requires |header| == HEADER_SIZE && header[4..] == LittleEndian(4, HEADER_SIZE + |body|)
    requires HEADER_SIZE + |body| < TWO_32
    ensures Framed(header + body)
  {
    PowersOf256();
    LittleEndianRoundTrip(4, HEADER_SIZE + |body|);
    hide FromLittleEndian, LittleEndian;
    assert (header + body)[4..8] == header[4..];
  }

  /** Every frame the two printers make is framed, so a stream of them splits in one way only. */
  lemma ClientFramesAreFramed(clienttype: byte, pad: byte, delytime: int, names: seq<seq<byte>>, content: seq<byte>)
    requires |ClientFrame(clienttype, pad, delytime, names, content)| < TWO_32
    ensures Framed(ClientFrame(clienttype, pad, delytime, names, content))
  {
    hide ClientBody, ClientHeader, Framed;
    var body := ClientBody(delytime, names, content);
    TotalOfFrame(ClientHeader(clienttype, pad, HEADER_SIZE + |body|), body);
  }

  lemma ServerFramesAreFramed(serverid: int, sendtime: int, dest: seq<byte>, messageid: seq<byte>, content: seq<byte>)
    requires |ServerFrame(serverid, sendtime, dest, messageid, content)| < TWO_32
    ensures Framed(ServerFrame(serverid, sendtime, dest, messageid, content))
  {
    hide ServerBody, ServerHeader, Framed;
    var body := ServerBody(sendtime, dest, messageid, content);
    TotalOfFrame(ServerHeader(serverid, HEADER_SIZE + |body|), body);
  }

  lemma {:induction false} JoinedSnoc(frames: seq<seq<byte>>, frame: seq<byte>)
    ensures Joined(frames + [frame]) == Joined(frames) + frame
  {
    if frames != [] {
      JoinedSnoc(frames[1..], frame);
      assert (frames + [frame])[1..] == frames[1..] + [frame];
    }
  }

  /** Whatever the writes take at a time, the receiver's cuts are the sender's frames. */
  method SendFrames(sock: Socket, frames: seq<seq<byte>>)
    requires sock.wire == [] && forall i :: 0 <= i < |frames| ==> Framed(frames[i])
    modifies sock
    ensures Split(sock.wire) == Some(frames)
  {
    var i := 0;
    while i < |frames|
      invariant i <= |frames| && sock.wire == Joined(frames[..i])
    {
      var _ := SendFrame(sock, frames[i]);
      JoinedSnoc(frames[..i], frames[i]);
      assert frames[..i] + [frames[i]] == frames[..i + 1];
      i := i + 1;
    }
    assert frames[..i] == frames;
    SplitJoined(frames);
  }

  // ----- receiving

  class Stream {
    const bytes: seq<byte>
    var taken: nat

    constructor (bytes: seq<byte>, taken: nat)
      requires taken <= |bytes|
      ensures this.bytes == bytes && this.taken == taken
    {
      this.bytes, this.taken := bytes, taken;
    }

    /** recv of at most max bytes: some bytes, at least one, or an error. */
    method Recv(max: nat) returns (chunk: Option<seq<byte>>)
      requires 0 < max <= MAXBUF && taken < |bytes|
      modifies this`taken
      ensures chunk == None ==> taken == old(taken)
      ensures chunk.Some? ==>
        && 0 < |chunk.value| <= max && taken == old(taken) + |chunk.value| <= |bytes|
        && chunk.value == bytes[old(taken)..taken]
    {
      if * {
        return None;
      }
      var n :| 0 < n <= max && taken + n <= |bytes|;
      chunk := Some(bytes[taken..taken + n]);
      taken := taken + n;
    }
  }

  /** thread_recv after its first read of len bytes, which began a frame of totalLength bytes that the peer sends
      whole. The loop is entered for frames longer than MAXBUF alone. */
  method Reassemble(stream: Stream, len: nat, totalLength: nat) returns (tempBuffer: Option<array<byte>>, sum: nat)
    requires len <= stream.taken <= |stream.bytes| && len <= totalLength <= |stream.bytes| - (stream.taken - len)
    modifies stream`taken
    ensures stream.taken <= old(stream.taken) - len + totalLength
    ensures tempBuffer.Some? ==>
      && fresh(tempBuffer.value) && tempBuffer.value.Length == totalLength && sum <= totalLength
      && stream.taken == old(stream.taken) - len + sum
      && tempBuffer.value[..sum] == stream.bytes[old(stream.taken) - len..stream.taken]
    ensures tempBuffer.Some? ==> (sum == totalLength <==> totalLength > MAXBUF || len == totalLength)
  {
    ghost var start := stream.taken - len;
    var buffer := new byte[totalLength];
    sum := C.Store(buffer, 0, stream.bytes[stream.taken - len..stream.taken]);
    if totalLength > MAXBUF && totalLength > len {
      while sum < totalLength
        invariant len <= sum <= totalLength && stream.taken == start + sum
        invariant buffer[..sum] == stream.bytes[start..start + sum]
        decreases totalLength - sum
      {
        var tempret := stream.Recv(if totalLength - sum > MAXBUF then MAXBUF else totalLength - sum);
        match tempret {
          case None => return None, sum;
          case Some(chunk) =>
            assert stream.bytes[start..start + sum] + chunk == stream.bytes[start..start + sum + |chunk|];
            sum := C.Store(buffer, sum, chunk);
        }
      }
    }
    tempBuffer := Some(buffer);
  }
}
