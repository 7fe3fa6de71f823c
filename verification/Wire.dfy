/** Printing, sending, cutting and parsing put together. */
module Wire {
  import opened Bytes
  import opened Frames
  import opened Codec
  import opened Transfer
  import opened Wrappers

  /** What createServerMessage is asked to send as a text message. */
  datatype Outgoing = Outgoing(serverid: int, sendtime: int, dest: seq<byte>, messageid: seq<byte>, content: seq<byte>)

  /** Strings of less than 65536 bytes, and a send time of 32 bits. */
  predicate InRange(m: Outgoing) {
    && |m.dest| < 0x1_0000 && 0 !in m.dest && |m.messageid| < 0x1_0000 && 0 !in m.messageid
    && |m.content| < 0x1_0000 && -0x8000_0000 <= m.sendtime < 0x8000_0000
  }

  function FrameOf(m: Outgoing): seq<byte> {
    ServerFrame(m.serverid, m.sendtime, m.dest, m.messageid, m.content)
  }

  /** A receiver that reads the header of frame, and parses what follows it, has the message. */
  predicate Delivers(frame: seq<byte>, m: Outgoing) {
    8 <= |frame| && ReadServerHead(frame) == ServerHead(0xA2, 0xF1, m.serverid % 0x1_0000, |frame|)
    && ParseServer(frame[HEADER_SIZE..]) == Some(ServerMessage(m.sendtime, m.dest, m.messageid, m.content))
  }

  lemma FrameDelivers(m: Outgoing)
    requires InRange(m)
    ensures Framed(FrameOf(m)) && Delivers(FrameOf(m), m)
  {
    hide ServerBody, ServerHeader, ParseServer, Framed, ReadServerHead, CountedAt, HighFirst4;
    var body := ServerBody(m.sendtime, m.dest, m.messageid, m.content);
    BodySize(m);
    ServerFramesAreFramed(m.serverid, m.sendtime, m.dest, m.messageid, m.content);
    ServerLayout(m.serverid, m.sendtime, m.dest, m.messageid, m.content);
    ServerRoundTrip(m.sendtime, m.dest, m.messageid, m.content);
    assert FrameOf(m)[HEADER_SIZE..] == body;
  }

  lemma BodySize(m: Outgoing)
    ensures |ServerBody(m.sendtime, m.dest, m.messageid, m.content)|
         == 10 + |m.dest| + |m.messageid| + |m.content|
  {}

  /** Messages printed and sent one after the other, over writes however short: cutting the stream where the headers
      say and parsing each piece gives the messages, in order and nothing else. */
  method SendMessages(sock: Socket, messages: seq<Outgoing>)
    requires sock.wire == [] && forall i :: 0 <= i < |messages| ==> InRange(messages[i])
    modifies sock
    ensures Split(sock.wire).Some? && |Split(sock.wire).value| == |messages|
    ensures forall i :: 0 <= i < |messages| ==> Delivers(Split(sock.wire).value[i], messages[i])
  {
    hide Delivers, Framed, FrameOf, InRange, Split;
    ghost var frames := [];
    var i := 0;
    while i < |messages|
      invariant i <= |messages| && |frames| == i && sock.wire == Joined(frames)
      invariant forall j :: 0 <= j < i ==> Framed(frames[j]) && Delivers(frames[j], messages[j])
    {
      var m := messages[i];
      FrameDelivers(m);
      SendOne(sock, m);
      JoinedSnoc(frames, FrameOf(m));
      frames := frames + [FrameOf(m)];
      i := i + 1;
    }
    SplitJoined(frames);
  }

  method SendOne(sock: Socket, m: Outgoing)
    modifies sock
    ensures sock.wire == old(sock.wire) + FrameOf(m)
  {
    var retbuf := CreateServerMessage(m.serverid, m.sendtime, m.dest, m.messageid, m.content);
    var _ := SendFrame(sock, retbuf[..]);
  }
}
