/** server/parse_command.c as it moves through its buffers, text messages only. */
module Codec {
  import opened Bytes
  import opened Frames
  import L = LinkedList
  import opened Wrappers

  const MAX_DRIVCEID_LENGTH := 64

  /** memcpy, or a store through the moving pointer: data at position at. */
  method Store(buf: array<byte>, at: nat, data: seq<byte>) returns (next: nat)
    requires at + |data| <= buf.Length
    modifies buf
    ensures next == at + |data|
    ensures buf[..next] == old(buf[..at]) + data
  {
    forall i | 0 <= i < |data| {
      buf[at + i] := data[i];
    }
    next := at + |data|;
    assert buf[..at] == old(buf[..at]) && buf[at..next] == data;
  }

  /** A length in network order, and the bytes. */
  method StoreCounted(buf: array<byte>, at: nat, data: seq<byte>) returns (next: nat)
    requires at + 2 + |data| <= buf.Length
    modifies buf
    ensures next == at + 2 + |data|
    ensures buf[..next] == old(buf[..at]) + Counted(data)
  {
    next := Store(buf, at, Short(|data|));
    next := Store(buf, next, data);
  }

  ghost predicate Carries(nodes: seq<L.ListNode<seq<byte>>>, names: seq<seq<byte>>)
    reads nodes
  {
    |nodes| == |names| && forall i :: 0 <= i < |nodes| ==> nodes[i].val == names[i]
  }

  /** How many bytes the names have together. */
  function Total(names: seq<seq<byte>>): nat {
    if names == [] then 0 else Total(names[..|names| - 1]) + |names[|names| - 1]|
  }

  lemma {:induction false} RecipientsSize(names: seq<seq<byte>>)
    ensures |Recipients(names)| == Total(names) + 2 * |names|
    decreases names
  {
    if names != [] {
      RecipientsSize(names[..|names| - 1]);
    }
  }

  /** The head of the message fits the buffer createClientMessage allocates for it just in this case. */
  lemma RecipientsFitIff(names: seq<seq<byte>>)
    ensures |Short(|names|) + Recipients(names)| <= MAX_DRIVCEID_LENGTH * |names| + 2 * (|names| + 1)
      <==> Total(names) <= MAX_DRIVCEID_LENGTH * |names|
  {
    RecipientsSize(names);
  }

  lemma {:induction false} TotalGrows(names: seq<seq<byte>>, k: nat)
    requires k <= |names|
    ensures Total(names[..k]) <= Total(names)
    decreases names
  {
    if k < |names| {
      TotalGrows(names[..|names| - 1], k);
      assert names[..|names| - 1][..k] == names[..k];
    } else {
      assert names[..k] == names;
    }
  }

  lemma NextFits(names: seq<seq<byte>>, k: nat, head: seq<byte>)
    requires k < |names| && Total(names) <= MAX_DRIVCEID_LENGTH * |names|
    ensures head + Recipients(names[..k + 1]) == head + Recipients(names[..k]) + Counted(names[k])
    ensures |Recipients(names[..k]) + Counted(names[k])| <= (MAX_DRIVCEID_LENGTH + 2) * |names|
  {
    assert names[..k + 1][..k] == names[..k];
    RecipientsSize(names[..k + 1]);
    TotalGrows(names, k + 1);
  }

  /** One turn of the loop: the first name goes from the list to the buffer. */
  method MoveName(sendto: L.List<seq<byte>>, tempBuf: array<byte>, at: nat, ghost names: seq<seq<byte>>)
    returns (more: bool, next: nat)
    requires sendto.Valid() && Carries(sendto.nodes, names) && at <= tempBuf.Length
    requires names != [] ==> at + 2 + |names[0]| <= tempBuf.Length
    modifies sendto, sendto.nodes, tempBuf
    ensures sendto.Valid() && (more <==> names != []) && next <= tempBuf.Length
    ensures !more ==> sendto.nodes == [] && next == at && tempBuf[..next] == old(tempBuf[..at])
    ensures more ==>
      && sendto.nodes == old(sendto.nodes)[1..] && Carries(sendto.nodes, names[1..])
      && tempBuf[..next] == old(tempBuf[..at]) + Counted(names[0])
  {
    hide Counted;
    var last := sendto.LPop();
    more, next := last != null, at;
    if last != null {
      next := StoreCounted(tempBuf, at, last.val);
    }
  }

  /** The head of createClientMessage: it empties the list into a buffer that is big enough exactly when the names
      have at most MAX_DRIVCEID_LENGTH bytes each on average. */
  method DrainRecipients(sendto: L.List<seq<byte>>, ghost names: seq<seq<byte>>)
    returns (tempBufhead: array<byte>, templenth: nat)
    requires sendto.Valid() && Carries(sendto.nodes, names)
    requires Total(names) <= MAX_DRIVCEID_LENGTH * |names|
    modifies sendto, sendto.nodes
    ensures sendto.Valid() && sendto.nodes == []
    ensures fresh(tempBufhead) && templenth <= tempBufhead.Length
    ensures tempBufhead[..templenth] == Short(|names|) + Recipients(names)
  {
    hide Short, Recipients, Counted;
    ghost var nodes := sendto.nodes;
    var len := sendto.len;
    tempBufhead := new byte[MAX_DRIVCEID_LENGTH * len + 2 * (len + 1)];
    templenth := Store(tempBufhead, 0, Short(len));
    EmptyRecipients(names);
    ghost var k := 0;
    var more := true;
    while more
      invariant sendto.Valid() && k <= |names| == |nodes|
      invariant sendto.nodes == nodes[k..] && Carries(sendto.nodes, names[k..])
      invariant templenth <= tempBufhead.Length && tempBufhead[..templenth] == Short(len) + Recipients(names[..k])
      invariant !more ==> k == |names|
      decreases |names| - k, more
    {
      if k < |names| {
        NextFits(names, k, Short(len));
      }
      more, templenth := MoveName(sendto, tempBufhead, templenth, names[k..]);
      k := if more then k + 1 else k;
    }
    assert names[..k] == names;
  }

  lemma EmptyRecipients(names: seq<seq<byte>>)
    ensures Recipients(names[..0]) == []
  {}

  /** The header structure, field by field as it lies in memory. */
  method StoreClientHeader(buf: array<byte>, clienttype: byte, pad: byte, total: nat) returns (next: nat)
    requires HEADER_SIZE <= buf.Length
    modifies buf
    ensures next == HEADER_SIZE && buf[..next] == ClientHeader(clienttype, pad, total)
  {
    hide LittleEndian;
    buf[0], buf[1], buf[2], buf[3] := COMMAND_MESSAGE, clienttype, MESSAGE_TYPE_TXT, pad;
    assert buf[..4] == [COMMAND_MESSAGE, clienttype, MESSAGE_TYPE_TXT, pad];
    next := Store(buf, 4, LittleEndian(4, total));
  }

  method StoreServerHeader(buf: array<byte>, serverid: int, total: nat) returns (next: nat)
    requires HEADER_SIZE <= buf.Length
    modifies buf
    ensures next == HEADER_SIZE && buf[..next] == ServerHeader(serverid, total)
  {
    hide LittleEndian;
    buf[0], buf[1] := COMMAND_MESSAGE, MESSAGE_TYPE_TXT;
    assert buf[..2] == [COMMAND_MESSAGE, MESSAGE_TYPE_TXT];
    next := Store(buf, 2, LittleEndian(2, serverid % 0x1_0000));
    next := Store(buf, next, LittleEndian(4, total));
  }

  /** The rest of the printing, after the list is drained into head. */
  method PrintClient(clienttype: byte, pad: byte, delytime: int, head: seq<byte>, content: seq<byte>)
    returns (retbuf: array<byte>)
    ensures fresh(retbuf)
    ensures var body := Short(delytime % 0x1_0000) + head + Counted(content);
      retbuf[..] == ClientHeader(clienttype, pad, HEADER_SIZE + |body|) + body
  {
    hide Short, Counted, ClientHeader;
    var length := HEADER_SIZE + 2 + |head| + (2 + |content|);
    retbuf := new byte[length];
    var buf := StoreClientHeader(retbuf, clienttype, pad, length);
    buf := Store(retbuf, buf, Short(delytime % 0x1_0000));
    buf := Store(retbuf, buf, head);
    buf := StoreCounted(retbuf, buf, content);
    assert retbuf[..] == retbuf[..length];
  }

  /** createClientMessage up to the sending: total in the header is the number of bytes printed. */
  method CreateClientMessage(clienttype: byte, pad: byte, delytime: int, content: seq<byte>,
                             sendto: L.List<seq<byte>>, ghost names: seq<seq<byte>>)
    returns (retbuf: array<byte>)
    requires sendto.Valid() && Carries(sendto.nodes, names)
    requires Total(names) <= MAX_DRIVCEID_LENGTH * |names|
    modifies sendto, sendto.nodes
    ensures sendto.Valid() && sendto.nodes == []
    ensures fresh(retbuf) && retbuf[..] == ClientFrame(clienttype, pad, delytime, names, content)
    ensures 8 <= retbuf.Length < TWO_32 ==>
      ReadClientHead(retbuf[..]) == ClientHead(0xA2, clienttype, 0xF1, retbuf.Length)
  {
    hide Short, Recipients, Counted, Carries, ClientHeader, Total, CountedAt, HighFirst2, ReadClientHead;
    var tempBufhead, templenth := DrainRecipients(sendto, names);
    var head := tempBufhead[..templenth];
    retbuf := PrintClient(clienttype, pad, delytime, head, content);
    BodyParts(delytime, names, content);
    ClientLayout(clienttype, pad, delytime, names, content);
  }

  lemma BodyParts(delytime: int, names: seq<seq<byte>>, content: seq<byte>)
    ensures ClientBody(delytime, names, content)
         == Short(delytime % 0x1_0000) + (Short(|names|) + Recipients(names)) + Counted(content)
  {
    hide Short, Recipients, Counted;
  }

  /** createServerMessage up to the sending. */
  method CreateServerMessage(serverid: int, sendtime: int, dest: seq<byte>, messageid: seq<byte>, content: seq<byte>)
    returns (retbuf: array<byte>)
    ensures fresh(retbuf) && retbuf[..] == ServerFrame(serverid, sendtime, dest, messageid, content)
    ensures 8 <= retbuf.Length < TWO_32 ==>
      ReadServerHead(retbuf[..]) == ServerHead(0xA2, 0xF1, serverid % 0x1_0000, retbuf.Length)
  {
    hide BigEndian, Counted, ServerHeader, CountedAt, HighFirst4, ReadServerHead;
    var total := HEADER_SIZE + 4 + (2 + |dest|) + (2 + |messageid|) + (2 + |content|);
    retbuf := new byte[total];
    var buf := StoreServerHeader(retbuf, serverid, total);
    buf := Store(retbuf, buf, BigEndian(4, sendtime % TWO_32));
    buf := StoreCounted(retbuf, buf, dest);
    buf := StoreCounted(retbuf, buf, messageid);
    buf := StoreCounted(retbuf, buf, content);
    assert retbuf[..] == retbuf[..total];
    ServerLayout(serverid, sendtime, dest, messageid, content);
  }

  /** What the parser stores for one recipient. */
  datatype Stored = Stored(dest: seq<byte>, content: seq<byte>, priority: int)

  /** Reading a length and the bytes it counts at a position of the buffer. */
  method LoadCounted(bufs: array<byte>, at: nat) returns (s: seq<byte>, next: nat)
    requires at <= bufs.Length && TakeCounted(bufs[at..]).Some?
    ensures next <= bufs.Length && TakeCounted(bufs[at..]) == Some((s, bufs[next..]))
  {
    assert bufs[at..][..2] == bufs[at..at + 2];
    var len := FromBigEndian(bufs[at..at + 2]);
    s := bufs[at + 2..at + 2 + len];
    next := at + 2 + len;
    assert bufs[at..][2..2 + len] == s && bufs[at..][2 + len..] == bufs[next..];
  }

  lemma {:induction false} TakeFewer(n: nat, m: nat, s: seq<byte>)
    requires m <= n && TakeRecipients(n, s).Some?
    ensures TakeRecipients(m, s).Some?
  {
    if m < n {
      TakeFewer(n - 1, m, s);
    }
  }

  /** parseClientMessage on a text message that has come in whole: its loop over the recipients, and the loop that
      stores the content for each of them. The delay it read goes nowhere. */
  method ParseClientMessage(bufs: array<byte>) returns (message: ClientMessage, stored: seq<Stored>)
    requires ParseClient(bufs[..]).Some?
    ensures Some(message) == ParseClient(bufs[..])
    ensures |stored| == |message.names|
    ensures forall i :: 0 <= i < |stored| ==> stored[i] == Stored(message.names[i], message.content, 0)
  {
    hide FromBigEndian, TakeCounted, UpToNul;
    var delytime := FromBigEndian(bufs[..2]);
    var sendtocount := FromBigEndian(bufs[2..4]);
    assert bufs[..][..2] == bufs[..2] && bufs[..][2..4] == bufs[2..4] && bufs[..][4..] == bufs[4..];
    var buf: nat, sendto := 4, [];
    var i: nat := 0;
    while i < sendtocount
      invariant i <= sendtocount && buf <= bufs.Length
      invariant TakeRecipients(i, bufs[4..]) == Some((sendto, bufs[buf..]))
    {
      TakeFewer(sendtocount, i + 1, bufs[4..]);
      var one;
      one, buf := LoadCounted(bufs, buf);
      sendto := sendto + [UpToNul(one)];
      i := i + 1;
    }
    var content;
    content, buf := LoadCounted(bufs, buf);
    message := ClientMessage(delytime, sendto, UpToNul(content));
    stored := [];
    i := 0;
    while i < |sendto|
      invariant i <= |sendto| && |stored| == i
      invariant forall j :: 0 <= j < i ==> stored[j] == Stored(sendto[j], message.content, 0)
    {
      stored := stored + [Stored(sendto[i], message.content, 0)];
      i := i + 1;
    }
  }

  /** parseServerMessage on a text message that has come in whole. */
  method ParseServerMessage(bufs: array<byte>) returns (message: ServerMessage)
    requires ParseServer(bufs[..]).Some?
    ensures Some(message) == ParseServer(bufs[..])
  {
    hide FromBigEndian, TakeCounted, UpToNul;
    var sendtime := ToInt32(FromBigEndian(bufs[..4]));
    assert bufs[..][..4] == bufs[..4] && bufs[..][4..] == bufs[4..];
    var from, buf := LoadCounted(bufs, 4);
    var messageid;
    messageid, buf := LoadCounted(bufs, buf);
    var content;
    content, buf := LoadCounted(bufs, buf);
    message := ServerMessage(sendtime, UpToNul(from), UpToNul(messageid), content);
  }
}
