/** The part of Redis that server/messagestorage.c uses, and the command pipelines it sends. */
module Redis {
  import opened Wrappers

  /** Sub-message ids and device names are strings; NOBODY is the empty device name, EMPTY the empty id. */
  datatype Id = Id(text: string)
  datatype Device = Device(name: string)
  type Server = int

  const NOBODY: Device := Device("")
  const EMPTY: Id := Id("")

  /** The lists pushlist<server>, <device>_noread and <device>_read. */
  datatype Key = PushList(server: Server) | NoRead(device: Device) | Read(device: Device)

  datatype Field = From | To | FromIp | State | Content | OrgFileName | SendTime | RetryCount | MessageType
                 | SubMessageId | MessageId

  /** What the put functions call the fields of a record. */
  function NameOf(f: Field): string {
    match f
    case From => "from"
    case To => "to"
    case FromIp => "fromip"
    case State => "state"
    case Content => "content"
    case OrgFileName => "orgFileName"
    case SendTime => "sendtime"
    case RetryCount => "retrycount"
    case MessageType => "messagetype"
    case SubMessageId => "submessageid"
    case MessageId => "messageid"
  }

  /** The GUIDs of sub-messages are hexadecimal, so they are neither empty nor the name of a field. */
  predicate Real(id: Id) {
    id != EMPTY && forall f: Field :: id.text != NameOf(f)
  }

  datatype Value = Text(text: string) | Number(n: int) | DeviceName(device: Device) | IdText(id: Id)

  function Digit(d: int): char
    requires 0 <= d < 10
  {
    "0123456789"[d]
  }

  /** A number as %d writes it. */
  function Decimal(n: int): (s: string)
    ensures |s| > 0
    decreases if n < 0 then 1 - n else n
  {
    if n < 0 then "-" + Decimal(-n) else if n < 10 then [Digit(n)] else Decimal(n / 10) + [Digit(n % 10)]
  }

  predicate AllDigits(s: string) {
    forall i :: 0 <= i < |s| ==> '0' <= s[i] <= '9'
  }

  /** What a number says that is written in decimals, the highest digit first. */
  function ValueOfDigits(s: string): int
    requires AllDigits(s)
  {
    if s == "" then 0 else 10 * ValueOfDigits(s[..|s| - 1]) + (s[|s| - 1] - '0') as int
  }

  lemma DigitCounts(d: int)
    requires 0 <= d < 10
    ensures '0' <= Digit(d) <= '9' && (Digit(d) - '0') as int == d
  {}

  /** %d writes a minus for a negative number, and then digits that say how much it is, the first of them a zero for
      zero alone. */
  lemma {:induction false} DecimalSays(n: int)
    ensures n < 0 ==> Decimal(n) == "-" + Decimal(-n)
    ensures n >= 0 ==> AllDigits(Decimal(n)) && ValueOfDigits(Decimal(n)) == n
    ensures n > 0 ==> Decimal(n)[0] != '0'
    decreases if n < 0 then 1 - n else n
  {
    hide Digit;
    if n >= 10 {
      DecimalSays(n / 10);
      DigitCounts(n % 10);
      assert Decimal(n)[..|Decimal(n)| - 1] == Decimal(n / 10);
    } else if n >= 0 {
      DigitCounts(n);
      assert Decimal(n)[..0] == "";
      if n > 0 {
        FirstDigit(n);
      }
    }
  }

  lemma FirstDigit(n: int)
    requires 0 < n < 10
    ensures Digit(n) != '0'
  {}

  /** A value as Redis stores it. */
  function TextOf(v: Value): string {
    match v
    case Text(text) => text
    case Number(n) => Decimal(n)
    case DeviceName(device) => device.name
    case IdText(id) => id.text
  }

  datatype Command =
    | LPush(key: Key, id: Id)
    | RPop(key: Key)
    | LRem(key: Key, id: Id)              // lrem key 0 id: every occurrence
    | ZAdd(score: int, id: Id)            // into dely_pushlist_set
    | HSet(id: Id, field: Field, value: Value)
    | ExpireRecord(id: Id)                // EXPIRE on the record of id
    | Multi
    | QueueZRem(id: Id)                   // zrem between MULTI and EXEC: only queued
    | Exec(id: Id)                        // runs the queued zrem unless a watched key changed
    | Aside(text: string)                 // a command on keys outside this model

  function ListAt(lists: map<Key, seq<Id>>, key: Key): seq<Id> {
    if key in lists then lists[key] else []
  }

  /** All of s but the occurrences of id. */
  function Dropping(s: seq<Id>, id: Id): (r: seq<Id>)
    ensures id !in r
    ensures id !in s ==> r == s
  {
    if s == [] then [] else (if s[0] == id then [] else [s[0]]) + Dropping(s[1..], id)
  }

  datatype Body = TextBody(content: string) | FileBody(orgFileName: string, newFileName: string)

  /** One call of putmessageinfo, or of putmessageinfo2 when there is a group: of the id the sub-messages share, the
      record gets what %d makes of its address. */
  datatype Put = Put(id: Id, to: Device, online: Option<Server>, due: Option<int>, from: string, fromIp: string,
                     body: Body, time: string, messageType: int, group: Option<int>)

  /** Where a new sub-message goes: its device's server, the delayed set, or the device's unread list. */
  function Placing(p: Put): Command {
    match p.online
    case Some(server) => if p.due.Some? then ZAdd(p.due.value, p.id) else LPush(PushList(server), p.id)
    case None => LPush(NoRead(p.to), p.id)
  }

  function Before(p: Put): seq<Command> {
    if p.group.Some? then [Aside("sadd"), Aside("expire")] else []
  }

  function Payload(p: Put): seq<Command> {
    match p.body
    case TextBody(content) => [HSet(p.id, Field.Content, Text(content))]
    case FileBody(orgFileName, newFileName) =>
      [HSet(p.id, OrgFileName, Text(orgFileName)), HSet(p.id, Field.Content, Text(newFileName))]
  }

  function Record(p: Put): seq<Command> {
    [HSet(p.id, From, Text(p.from)), HSet(p.id, To, DeviceName(p.to)), HSet(p.id, FromIp, Text(p.fromIp)),
     HSet(p.id, State, Number(0))]
    + Payload(p)
    + [HSet(p.id, SendTime, Text(p.time)), HSet(p.id, RetryCount, Number(0)),
       HSet(p.id, MessageType, Number(p.messageType)), HSet(p.id, SubMessageId, IdText(p.id))]
    + (if p.group.Some? then [HSet(p.id, MessageId, Number(p.group.value))] else [])
  }

  /** The pipeline of putmessageinfo2, or of putmessageinfo without a group. */
  function PutCommands(p: Put): seq<Command> {
    Before(p) + [Placing(p)] + Record(p) + [ExpireRecord(p.id)]
  }

  /** The pipeline of messageIsSendOK and messageIsSendOK2. */
  function AckCommands(id: Id, to: Device, server: Server): seq<Command> {
    [HSet(id, State, Number(1)), LRem(PushList(server), id), LRem(NoRead(to), id), LPush(Read(to), id)]
  }

  /** What list commands make of the lists when nobody else interferes. */
  function ListsAfter(lists: map<Key, seq<Id>>, commands: seq<Command>): map<Key, seq<Id>> {
    if commands == [] then lists
    else
      var before, c := ListsAfter(lists, commands[..|commands| - 1]), commands[|commands| - 1];
      match c
      case LPush(key, id) => before[key := [id] + ListAt(before, key)]
      case LRem(key, id) => before[key := Dropping(ListAt(before, key), id)]
      case _ => before
  }

  /** An acknowledgement alone takes id from its server's push list and its device's unread list, wherever it is in
      them and however often, to its device's read list. */
  lemma AckMovesToRead(lists: map<Key, seq<Id>>, id: Id, to: Device, server: Server)
    ensures var after := ListsAfter(lists, AckCommands(id, to, server));
      && ListAt(after, Read(to)) == [id] + ListAt(lists, Read(to))
      && id !in ListAt(after, PushList(server)) && id !in ListAt(after, NoRead(to))
      && forall key, other: Id :: other != id ==> (other in ListAt(after, key) <==> other in ListAt(lists, key))
  {
    hide Dropping;
    var pipe := AckCommands(id, to, server);
    assert pipe[..3][..2] == pipe[..2] && pipe[..2][..1] == pipe[..1] && pipe[..1][..0] == [];
    assert ListsAfter(lists, pipe[..1]) == lists;
    var second := lists[PushList(server) := Dropping(ListAt(lists, PushList(server)), id)];
    assert ListsAfter(lists, pipe[..2]) == second;
    var third := second[NoRead(to) := Dropping(ListAt(second, NoRead(to)), id)];
    assert ListsAfter(lists, pipe[..3]) == third;
    forall key, other: Id | other != id
      ensures other in ListAt(third, key) <==> other in ListAt(lists, key)
    {
      DroppingKeeps(ListAt(lists, PushList(server)), id, other);
      DroppingKeeps(ListAt(second, NoRead(to)), id, other);
    }
  }

  lemma {:induction false} DroppingKeeps(s: seq<Id>, id: Id, other: Id)
    requires other != id
    ensures other in Dropping(s, id) <==> other in s
  {
    if s != [] {
      DroppingKeeps(s[1..], id, other);
      assert s == [s[0]] + s[1..];
    }
  }

  /** The transaction that takes id out of the delayed set. */
  function ClaimCommands(id: Id): seq<Command> {
    [Multi, QueueZRem(id), Exec(id)]
  }

  /** delytime: r is what rand() returned. */
  function DelayTime(now: int, delay: int, r: nat): (t: int)
    requires delay != 0
    ensures now < t <= now + (if delay > 0 then delay else -delay)
  {
    now + r % (if delay > 0 then delay else -delay) + 1
  }

  /** And every time in that range is the due time for some r. */
  lemma EveryDelayTime(now: int, delay: int, t: int)
    requires delay != 0 && now < t <= now + (if delay > 0 then delay else -delay)
    ensures exists r: nat :: DelayTime(now, delay, r) == t
  {
    var d, r := if delay > 0 then delay else -delay, t - now - 1;
    assert r % d == r;
    assert DelayTime(now, delay, r) == t;
  }
}
