/** The frames of server/parse_command.c: what a text message looks like on the wire, and what is read back. */
module Frames {
  import opened Bytes
  import opened Wrappers

  /** client_header_2_t and server_header_2_t both take eight bytes, the last four of them the total. */
  const HEADER_SIZE := 8
  const COMMAND_MESSAGE: byte := 0xA2
  const MESSAGE_TYPE_TXT: byte := 0xF1

  // ----- numbers

  /** The remainder modulo 256 p, from the remainder of the quotient by 256. */
  lemma RemainderOf256(p: nat, x: nat)
    requires p > 0
    ensures 256 * ((x / 256) % p) + x % 256 == x % (256 * p)
  {
    var h, low := x / 256, x % 256;
    var q, r := h / p, h % p;
    assert h == p * q + r;
    assert 256 * (p * q) == (256 * p) * q;
    QuotientIs(x, 256 * p, q, 256 * r + low);
  }

  /** What n bytes in network order keep of a number. */
  lemma {:induction false} BigEndianKeepsRemainder(n: nat, x: nat)
    ensures FromBigEndian(BigEndian(n, x)) == x % Pow256(n)
    decreases n
  {
    if n == 0 {
      assert Pow256(0) == 1 && x % 1 == 0;
    } else {
      BigEndianKeepsRemainder(n - 1, x / 256);
      BigEndianUnfolds(n, x);
      RemainderOf256(Pow256(n - 1), x);
    }
  }

  lemma BigEndianUnfolds(n: nat, x: nat)
    requires n > 0
    ensures FromBigEndian(BigEndian(n, x)) == 256 * FromBigEndian(BigEndian(n - 1, x / 256)) + x % 256
    ensures Pow256(n) == 256 * Pow256(n - 1)
  {
    assert BigEndian(n, x)[..n - 1] == BigEndian(n - 1, x / 256);
  }

  lemma ShortKeeps(n: nat)
    ensures FromBigEndian(Short(n)) == n % 0x1_0000
  {
    PowersOf256();
    hide BigEndian, FromBigEndian, Pow256;
    BigEndianKeepsRemainder(2, n);
  }

  lemma SmallRemainder(n: nat, m: nat)
    requires n < m
    ensures n % m == n
  {}

  // ----- printing

  /** *(uint16_t*)buf = htons(n): the low sixteen bits. */
  function Short(n: nat): (s: seq<byte>)
    ensures |s| == 2
  {
    BigEndian(2, n)
  }

  /** A length and the bytes. */
  function Counted(s: seq<byte>): (r: seq<byte>)
    ensures |r| == 2 + |s|
  {
    Short(|s|) + s
  }

  function Recipients(names: seq<seq<byte>>): seq<byte> {
    if names == [] then [] else Recipients(names[..|names| - 1]) + Counted(names[|names| - 1])
  }

  /** delytime is a short, sendtime a long: the wire has their low sixteen and thirty-two bits. */
  function ClientBody(delytime: int, names: seq<seq<byte>>, content: seq<byte>): seq<byte> {
    Short(delytime % 0x1_0000) + Short(|names|) + Recipients(names) + Counted(content)
  }

  function ServerBody(sendtime: int, dest: seq<byte>, messageid: seq<byte>, content: seq<byte>): seq<byte> {
    BigEndian(4, sendtime % TWO_32) + Counted(dest) + Counted(messageid) + Counted(content)
  }

  /** The structures are copied as they lie in memory; pad is the byte the compiler leaves before total. */
  function ClientHeader(clienttype: byte, pad: byte, total: nat): (s: seq<byte>)
    ensures |s| == HEADER_SIZE && s[4..] == LittleEndian(4, total)
  {
    [COMMAND_MESSAGE, clienttype, MESSAGE_TYPE_TXT, pad] + LittleEndian(4, total)
  }

  function ServerHeader(serverid: int, total: nat): (s: seq<byte>)
    ensures |s| == HEADER_SIZE && s[4..] == LittleEndian(4, total)
  {
    [COMMAND_MESSAGE, MESSAGE_TYPE_TXT] + LittleEndian(2, serverid % 0x1_0000) + LittleEndian(4, total)
  }

  function ClientFrame(clienttype: byte, pad: byte, delytime: int, names: seq<seq<byte>>, content: seq<byte>)
    : seq<byte>
  {
    var body := ClientBody(delytime, names, content);
    ClientHeader(clienttype, pad, HEADER_SIZE + |body|) + body
  }

  function ServerFrame(serverid: int, sendtime: int, dest: seq<byte>, messageid: seq<byte>, content: seq<byte>)
    : seq<byte>
  {
    var body := ServerBody(sendtime, dest, messageid, content);
    ServerHeader(serverid, HEADER_SIZE + |body|) + body
  }

  // ----- parsing

  /** What strncpy copies of some bytes: those before the first zero. */
  function UpToNul(s: seq<byte>): (r: seq<byte>)
    ensures r <= s && 0 !in r
    ensures |r| < |s| ==> s[|r|] == 0
    ensures 0 !in s ==> r == s
  {
    if s == [] || s[0] == 0 then [] else [s[0]] + UpToNul(s[1..])
  }

  function TakeCounted(s: seq<byte>): Option<(seq<byte>, seq<byte>)> {
    if |s| < 2 then None
    else
      var n := FromBigEndian(s[..2]);
      if |s| < 2 + n then None else Some((s[2..2 + n], s[2 + n..]))
  }

  function TakeRecipients(n: nat, s: seq<byte>): Option<(seq<seq<byte>>, seq<byte>)> {
    if n == 0 then Some(([], s))
    else match TakeRecipients(n - 1, s)
      case None => None
      case Some((names, rest)) =>
        match TakeCounted(rest)
        case None => None
        case Some((one, rest')) => Some((names + [UpToNul(one)], rest'))
  }

  datatype ClientMessage = ClientMessage(delytime: int, names: seq<seq<byte>>, content: seq<byte>)
  datatype ServerMessage = ServerMessage(sendtime: int, from: seq<byte>, messageid: seq<byte>, content: seq<byte>)

  function ToInt32(n: nat): int {
    if n < 0x8000_0000 then n else n - TWO_32
  }

  /** parseClientMessage on the bytes after the header; None when it would read beyond them. */
  function ParseClient(s: seq<byte>): Option<ClientMessage> {
    if |s| < 4 then None
    else match TakeRecipients(FromBigEndian(s[2..4]), s[4..])
      case None => None
      case Some((names, rest)) =>
        match TakeCounted(rest)
        case None => None
        case Some((content, _)) => Some(ClientMessage(FromBigEndian(s[..2]), names, UpToNul(content)))
  }

  /** parseServerMessage; the content is copied without looking for a zero byte. */
  function ParseServer(s: seq<byte>): Option<ServerMessage> {
    if |s| < 4 then None
    else match TakeCounted(s[4..])
      case None => None
      case Some((from, rest)) =>
        match TakeCounted(rest)
        case None => None
        case Some((messageid, rest')) =>
          match TakeCounted(rest')
          case None => None
          case Some((content, _)) =>
            Some(ServerMessage(ToInt32(FromBigEndian(s[..4])), UpToNul(from), UpToNul(messageid), content))
  }

  // ----- round trips

  /** A counted string comes back whole when its length fits; otherwise only its length modulo 65536 does. */
  lemma TakeCountedOfCounted(s: seq<byte>, rest: seq<byte>)
    ensures var n := |s| % 0x1_0000;
      TakeCounted(Counted(s) + rest) == Some((s[..n], s[n..] + rest))
  {
    hide Short, FromBigEndian;
    ShortKeeps(|s|);
    var n := |s| % 0x1_0000;
    var t := Counted(s) + rest;
    assert t[..2] == Short(|s|);
    assert t[2..2 + n] == s[..n] && t[2 + n..] == s[n..] + rest;
  }

  lemma TakeCountedWhole(s: seq<byte>, rest: seq<byte>)
    requires |s| < 0x1_0000
    ensures TakeCounted(Counted(s) + rest) == Some((s, rest))
  {
    hide TakeCounted, Counted;
    SmallRemainder(|s|, 0x1_0000);
    TakeCountedOfCounted(s, rest);
    assert s[..|s|] == s && s[|s|..] + rest == rest;
  }

  predicate Sendable(names: seq<seq<byte>>) {
    forall i :: 0 <= i < |names| ==> |names[i]| < 0x1_0000 && 0 !in names[i]
  }

  lemma {:induction false} RecipientsRoundTrip(names: seq<seq<byte>>, rest: seq<byte>)
    requires Sendable(names)
    ensures TakeRecipients(|names|, Recipients(names) + rest) == Some((names, rest))
    decreases names
  {
    hide TakeCounted, Counted;
    if names == [] {
      assert Recipients(names) + rest == rest;
    } else {
      var init, last := names[..|names| - 1], names[|names| - 1];
      RecipientsRoundTrip(init, Counted(last) + rest);
      assert Recipients(names) + rest == Recipients(init) + (Counted(last) + rest);
      TakeCountedWhole(last, rest);
      assert names == init + [last] && UpToNul(last) == last;
    }
  }

  lemma PrefixIsWhole(s: seq<byte>)
    ensures s[..|s| % 0x1_0000] == s <==> |s| < 0x1_0000
  {
    if |s| < 0x1_0000 {
      SmallRemainder(|s|, 0x1_0000);
    }
  }

  /** Parsing what createClientMessage printed: everything comes back, but of a negative delay and of a content of
      65536 bytes or more only what their sixteen bits keep. */
  lemma ClientRoundTrip(delytime: int, names: seq<seq<byte>>, content: seq<byte>)
    requires -0x8000 <= delytime < 0x8000 && |names| < 0x1_0000 && Sendable(names) && 0 !in content
    ensures var d, n := delytime % 0x1_0000, |content| % 0x1_0000;
      ParseClient(ClientBody(delytime, names, content)) == Some(ClientMessage(d, names, content[..n]))
    ensures ParseClient(ClientBody(delytime, names, content)) == Some(ClientMessage(delytime, names, content))
      <==> delytime >= 0 && |content| < 0x1_0000
  {
    hide Short, FromBigEndian, TakeCounted, TakeRecipients, Counted, Recipients;
    var s, d := ClientBody(delytime, names, content), delytime % 0x1_0000;
    ShortKeeps(d);
    SmallRemainder(d, 0x1_0000);
    ShortKeeps(|names|);
    SmallRemainder(|names|, 0x1_0000);
    var counted := Counted(content) + [];
    assert counted == Counted(content);
    assert s == Short(d) + Short(|names|) + (Recipients(names) + counted);
    assert s[..2] == Short(d) && s[2..4] == Short(|names|) && s[4..] == Recipients(names) + counted;
    RecipientsRoundTrip(names, counted);
    TakeCountedOfCounted(content, []);
    PrefixIsWhole(content);
    assert d == delytime <==> delytime >= 0;
  }

  lemma Int32RoundTrip(sendtime: int)
    ensures ToInt32(sendtime % TWO_32) == sendtime <==> -0x8000_0000 <= sendtime < 0x8000_0000
  {}

  lemma LongKeeps(n: nat)
    requires n < TWO_32
    ensures FromBigEndian(BigEndian(4, n)) == n
  {
    PowersOf256();
    hide BigEndian, FromBigEndian, Pow256;
    BigEndianRoundTrip(4, n);
  }

  /** The same for createServerMessage and parseServerMessage: the send time comes back when it fits 32 bits. */
  lemma ServerRoundTrip(sendtime: int, dest: seq<byte>, messageid: seq<byte>, content: seq<byte>)
    requires |dest| < 0x1_0000 && |messageid| < 0x1_0000 && 0 !in dest && 0 !in messageid
    ensures var t, n := ToInt32(sendtime % TWO_32), |content| % 0x1_0000;
      ParseServer(ServerBody(sendtime, dest, messageid, content))
        == Some(ServerMessage(t, dest, messageid, content[..n]))
    ensures ParseServer(ServerBody(sendtime, dest, messageid, content))
         == Some(ServerMessage(sendtime, dest, messageid, content))
      <==> -0x8000_0000 <= sendtime < 0x8000_0000 && |content| < 0x1_0000
  {
    hide BigEndian, FromBigEndian, TakeCounted, Counted, ToInt32;
    var s, t := ServerBody(sendtime, dest, messageid, content), sendtime % TWO_32;
    LongKeeps(t);
    Int32RoundTrip(sendtime);
    var rest' := Counted(content) + [];
    assert rest' == Counted(content);
    var rest := Counted(messageid) + rest';
    assert s == BigEndian(4, t) + (Counted(dest) + rest);
    assert s[..4] == BigEndian(4, t) && s[4..] == Counted(dest) + rest;
    TakeCountedWhole(dest, rest);
    TakeCountedWhole(messageid, rest');
    TakeCountedOfCounted(content, []);
    PrefixIsWhole(content);
  }

  // ----- what lies where

  /** Two bytes of a frame, the first one high or low, and four. */
  function HighFirst2(s: seq<byte>, i: nat): nat
    requires i + 2 <= |s|
  {
    0x100 * s[i] as nat + s[i + 1] as nat
  }

  function HighFirst4(s: seq<byte>, i: nat): nat
    requires i + 4 <= |s|
  {
    0x1_0000 * HighFirst2(s, i) + HighFirst2(s, i + 2)
  }

  function LowFirst2(s: seq<byte>, i: nat): nat
    requires i + 2 <= |s|
  {
    s[i] as nat + 0x100 * s[i + 1] as nat
  }

  function LowFirst4(s: seq<byte>, i: nat): nat
    requires i + 4 <= |s|
  {
    LowFirst2(s, i) + 0x1_0000 * LowFirst2(s, i + 2)
  }

  lemma HighBytes(n: nat)
    ensures HighFirst2(BigEndian(2, n), 0) == n % 0x1_0000
    ensures HighFirst4(BigEndian(4, n), 0) == n % TWO_32
  {
    PowersOf256();
    BigEndianKeepsRemainder(2, n);
    BigEndianKeepsRemainder(4, n);
    TwoBytes(BigEndian(2, n));
    FourHighBytes(BigEndian(4, n));
  }

  lemma TwoBytes(s: seq<byte>)
    requires |s| == 2
    ensures FromBigEndian(s) == HighFirst2(s, 0) && FromLittleEndian(s) == LowFirst2(s, 0)
  {
    assert s[..1][..0] == [] && s[1..][1..] == [];
    assert FromBigEndian(s[..1]) == s[0] as nat && FromLittleEndian(s[1..]) == s[1] as nat;
  }

  lemma FourHighBytes(s: seq<byte>)
    requires |s| == 4
    ensures FromBigEndian(s) == HighFirst4(s, 0)
  {
    TwoBytes(s[..2]);
    assert s[..3][..2] == s[..2];
    assert FromBigEndian(s[..3]) == 256 * FromBigEndian(s[..2]) + s[2] as nat;
  }

  lemma FourLowBytes(s: seq<byte>)
    requires |s| == 4
    ensures FromLittleEndian(s) == LowFirst4(s, 0)
  {
    TwoBytes(s[2..]);
    assert s[1..][1..] == s[2..];
    assert FromLittleEndian(s[1..]) == s[1] as nat + 256 * FromLittleEndian(s[2..]);
  }

  lemma LowBytes(m: nat, n: nat)
    requires m < 0x1_0000 && n < TWO_32
    ensures LowFirst2(LittleEndian(2, m), 0) == m && LowFirst4(LittleEndian(4, n), 0) == n
  {
    PowersOf256();
    LittleEndianRoundTrip(2, m);
    LittleEndianRoundTrip(4, n);
    TwoBytes(LittleEndian(2, m));
    FourLowBytes(LittleEndian(4, n));
  }

  /** server_header_2_t and client_header_2_t as a receiver that knows the structures reads them. */
  datatype Head =
    | ServerHead(command: byte, messagetype: byte, serverid: nat, total: nat)
    | ClientHead(command: byte, clienttype: byte, messagetype: byte, total: nat)

  function ReadServerHead(frame: seq<byte>): Head
    requires |frame| >= 8
  {
    ServerHead(frame[0], frame[1], LowFirst2(frame, 2), LowFirst4(frame, 4))
  }

  function ReadClientHead(frame: seq<byte>): Head
    requires |frame| >= 8
  {
    ClientHead(frame[0], frame[1], frame[2], LowFirst4(frame, 4))
  }

  /** The header of a printed frame says that it is a text message, from which server, and how long. */
  lemma ServerHeadReads(serverid: int, total: nat, body: seq<byte>)
    requires total < TWO_32
    ensures ReadServerHead(ServerHeader(serverid, total) + body) == ServerHead(0xA2, 0xF1, serverid % 0x1_0000, total)
  {
    hide LittleEndian;
    LowBytes(serverid % 0x1_0000, total);
  }

  lemma ClientHeadReads(clienttype: byte, pad: byte, total: nat, body: seq<byte>)
    requires total < TWO_32
    ensures ReadClientHead(ClientHeader(clienttype, pad, total) + body) == ClientHead(0xA2, clienttype, 0xF1, total)
  {
    hide LittleEndian;
    LowBytes(0, total);
  }

  /** From byte i on there is a counted string: two bytes with its length, the high one first, and the string. */
  predicate CountedAt(frame: seq<byte>, i: nat, s: seq<byte>) {
    i + 2 + |s| <= |frame| && HighFirst2(frame, i) == |s| % 0x1_0000 && frame[i + 2..i + 2 + |s|] == s
  }

  lemma CountedIsAt(before: seq<byte>, s: seq<byte>, after: seq<byte>)
    ensures CountedAt(before + Counted(s) + after, |before|, s)
  {
    hide BigEndian;
    HighBytes(|s|);
  }

  /** Every printed server frame, byte by byte: the header, the send time with its high byte first, recipient, message
      id and content, and nothing after it. */
  lemma ServerLayout(serverid: int, sendtime: int, dest: seq<byte>, messageid: seq<byte>, content: seq<byte>)
    ensures var frame := ServerFrame(serverid, sendtime, dest, messageid, content);
      var p, q := 14 + |dest|, 16 + |dest| + |messageid|;
      && |frame| == q + 2 + |content|
      && (|frame| < TWO_32 ==> ReadServerHead(frame) == ServerHead(0xA2, 0xF1, serverid % 0x1_0000, |frame|))
      && HighFirst4(frame, 8) == sendtime % TWO_32
      && CountedAt(frame, 12, dest) && CountedAt(frame, p, messageid) && CountedAt(frame, q, content)
  {
    hide BigEndian, Counted, ServerHeader, CountedAt, HighFirst4;
    var body := ServerBody(sendtime, dest, messageid, content);
    var header, time := ServerHeader(serverid, HEADER_SIZE + |body|), BigEndian(4, sendtime % TWO_32);
    var frame := header + body;
    if |frame| < TWO_32 {
      ServerHeadReads(serverid, |frame|, body);
    }
    HighBytes(sendtime % TWO_32);
    assert frame == header + time + Counted(dest) + Counted(messageid) + Counted(content);
    TimeIsAt(header, time, Counted(dest) + Counted(messageid) + Counted(content));
    assert frame == header + time + (Counted(dest) + Counted(messageid) + Counted(content));
    CountedIsAt(header + time, dest, Counted(messageid) + Counted(content));
    assert frame == header + time + Counted(dest) + (Counted(messageid) + Counted(content));
    CountedIsAt(header + time + Counted(dest), messageid, Counted(content));
    CountedIsAt(header + time + Counted(dest) + Counted(messageid), content, []);
    assert frame == header + time + Counted(dest) + Counted(messageid) + Counted(content) + [];
  }

  lemma TimeIsAt(before: seq<byte>, time: seq<byte>, after: seq<byte>)
    requires |time| == 4
    ensures HighFirst4(before + time + after, |before|) == HighFirst4(time, 0)
  {}

  /** Where name i of the recipients begins. */
  lemma {:induction false} RecipientIsAt(names: seq<seq<byte>>, i: nat, before: seq<byte>, after: seq<byte>)
    requires i < |names|
    ensures CountedAt(before + Recipients(names) + after, |before| + |Recipients(names[..i])|, names[i])
    decreases names
  {
    hide Counted, CountedAt;
    var init, last := names[..|names| - 1], names[|names| - 1];
    assert before + Recipients(names) + after == before + Recipients(init) + (Counted(last) + after);
    if i < |init| {
      RecipientIsAt(init, i, before, Counted(last) + after);
      assert init[..i] == names[..i];
    } else {
      CountedIsAt(before + Recipients(init), last, after);
      assert before + Recipients(init) + Counted(last) + after == before + Recipients(names) + after;
    }
  }

  /** Every printed client frame: the header, the delay, how many recipients, each of them, and the content. */
  lemma ClientLayout(clienttype: byte, pad: byte, delytime: int, names: seq<seq<byte>>, content: seq<byte>)
    ensures var frame := ClientFrame(clienttype, pad, delytime, names, content);
      var p := 12 + |Recipients(names)|;
      && |frame| == p + 2 + |content|
      && (|frame| < TWO_32 ==> ReadClientHead(frame) == ClientHead(0xA2, clienttype, 0xF1, |frame|))
      && HighFirst2(frame, 8) == delytime % 0x1_0000 && HighFirst2(frame, 10) == |names| % 0x1_0000
      && (forall i :: 0 <= i < |names| ==> CountedAt(frame, 12 + |Recipients(names[..i])|, names[i]))
      && CountedAt(frame, p, content)
  {
    hide BigEndian, Counted, ClientHeader, CountedAt, Recipients, HighFirst2;
    var body := ClientBody(delytime, names, content);
    var header := ClientHeader(clienttype, pad, HEADER_SIZE + |body|);
    var delay, count := Short(delytime % 0x1_0000), Short(|names|);
    var frame := header + body;
    if |frame| < TWO_32 {
      ClientHeadReads(clienttype, pad, |frame|, body);
    }
    HighBytes(delytime % 0x1_0000);
    HighBytes(|names|);
    ShortIsAt(header, delay, count + Recipients(names) + Counted(content));
    assert frame == header + delay + (count + Recipients(names) + Counted(content));
    ShortIsAt(header + delay, count, Recipients(names) + Counted(content));
    assert frame == header + delay + count + (Recipients(names) + Counted(content));
    forall i | 0 <= i < |names|
      ensures CountedAt(frame, 12 + |Recipients(names[..i])|, names[i])
    {
      RecipientIsAt(names, i, header + delay + count, Counted(content));
      assert frame == header + delay + count + Recipients(names) + Counted(content);
    }
    CountedIsAt(header + delay + count + Recipients(names), content, []);
    assert frame == header + delay + count + Recipients(names) + Counted(content) + [];
  }

  lemma ShortIsAt(before: seq<byte>, short: seq<byte>, after: seq<byte>)
    requires |short| == 2
    ensures HighFirst2(before + short + after, |before|) == HighFirst2(short, 0)
  {}
}
