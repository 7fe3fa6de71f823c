/** server/messagestorage.c as it uses a connection: which commands each function sends, and how many replies it
    reads. */
module MessageStorage {
  import opened Redis
  import opened Wrappers

  /** The message types of server/sc.h that the storage functions tell apart: text, and everything else. */
  const MESSAGE_TYPE_TXT := 0xF1

  /** A hiredis connection: replies come in the order of the commands, so reply k answers issued[k]. */
  class Connection {
    var issued: seq<Command>
    var read: nat

    constructor ()
      ensures issued == [] && read == 0
    {
      issued, read := [], 0;
    }

    ghost predicate Drained()
      reads this
    {
      read == |issued|
    }

    /** redisAppendCommand. */
    method Append(c: Command)
      modifies this`issued
      ensures issued == old(issued) + [c]
    {
      issued := issued + [c];
    }

    /** redisGetReply, which blocks for ever when no command waits for a reply. */
    method GetReply() returns (answers: Command)
      requires read < |issued|
      modifies this`read
      ensures read == old(read) + 1 && answers == issued[old(read)]
    {
      answers := issued[read];
      read := read + 1;
    }

    /** The loops over redisGetReply. */
    method GetReplies(n: nat)
      requires read + n <= |issued|
      modifies this`read
      ensures read == old(read) + n
    {
      var x := 0;
      while x < n
        invariant x <= n && read == old(read) + x
      {
        var _ := GetReply();
        x := x + 1;
      }
    }

    /** redisCommand: it answers what it was asked, unless an earlier reply was left unread. */
    method Ask(c: Command) returns (answers: Command)
      requires read <= |issued|
      modifies this
      ensures issued == old(issued) + [c] && read == old(read) + 1
      ensures answers == if old(Drained()) then c else old(issued)[old(read)]
    {
      Append(c);
      answers := GetReply();
    }
  }

  /** One call of a storage function; of the record only the branches it takes matter here. */
  datatype Call =
    | PutMessageInfo(p: Put)
    | PutMessageInfo2(p: Put)
    | PutClientInfo
    | RemoveClient
    | NextMessageId(server: Server)
    | NextNoReadMessageId(device: Device)
    | SaveInNoread(device: Device, id: Id)
    | SaveInPushlist(server: Server, id: Id)
    | MessageIsSendOK(id: Id, to: Device, server: Server)
    | DelayedMessage(found: Option<Id>)
    | RegUser(taken: bool)
    | UserLogin

  function Asides(texts: seq<string>): (r: seq<Command>)
    ensures |r| == |texts|
  {
    if texts == [] then [] else [Aside(texts[0])] + Asides(texts[1..])
  }

  const CLIENT_TEXTS: seq<string> :=
    ["hset clientip", "hset clientport", "hset logintime", "hset serverip", "hset clienttype", "zdd", "lpush userlist",
     "hset serverid", "hset clientid"]

  /** What a call sends, in order. */
  function Commands(call: Call): seq<Command> {
    match call
    case PutMessageInfo(p) => PutCommands(p)
    case PutMessageInfo2(p) => PutCommands(p)
    case PutClientInfo => Asides(CLIENT_TEXTS)
    case RemoveClient => Asides(["del content", "lrem userlistonline", "zremrangebyscore"])
    case NextMessageId(server) => [RPop(PushList(server))]
    case NextNoReadMessageId(device) => [RPop(NoRead(device))]
    case SaveInNoread(device, id) => [LPush(NoRead(device), id)]
    case SaveInPushlist(server, id) => [LPush(PushList(server), id)]
    case MessageIsSendOK(id, to, server) => AckCommands(id, to, server)
    case DelayedMessage(found) =>
      Asides(["watch", "zrangebyscore"]) + (if found.Some? then ClaimCommands(found.value) else [])
    case RegUser(taken) =>
      Asides(["get"]) + (if taken then [] else Asides(["set id", "set name", "sadd reg_user_list", "sadd drivce_list"]))
    case UserLogin => Asides(["sadd login_user_list", "sadd drivce_list"])
  }

  /** A put whose parameters go together: the body is text exactly when the message type says so, and only
      putmessageinfo2 has an id for the group. */
  predicate WellFormed(call: Call) {
    match call
    case PutMessageInfo(p) => p.group == None && (p.body.TextBody? <==> p.messageType == MESSAGE_TYPE_TXT)
    case PutMessageInfo2(p) => p.group.Some? && (p.body.TextBody? <==> p.messageType == MESSAGE_TYPE_TXT)
    case _ => true
  }

  method AppendPlacing(redis: Connection, p: Put)
    modifies redis`issued
    ensures redis.issued == old(redis.issued) + [Placing(p)]
  {
    if p.online.Some? {
      if p.due == None {
        redis.Append(LPush(PushList(p.online.value), p.id));
      } else {
        redis.Append(ZAdd(p.due.value, p.id));
      }
    } else {
      redis.Append(LPush(NoRead(p.to), p.id));
    }
  }

  method AppendPayload(redis: Connection, p: Put)
    requires p.body.TextBody? <==> p.messageType == MESSAGE_TYPE_TXT
    modifies redis`issued
    ensures redis.issued == old(redis.issued) + Payload(p)
  {
    if p.messageType == MESSAGE_TYPE_TXT {
      redis.Append(HSet(p.id, Field.Content, Text(p.body.content)));
    } else {
      redis.Append(HSet(p.id, OrgFileName, Text(p.body.orgFileName)));
      redis.Append(HSet(p.id, Field.Content, Text(p.body.newFileName)));
    }
  }

  /** The commands both puts share, from the placing to the last field before the group. */
  method AppendRecord(redis: Connection, p: Put)
    requires p.body.TextBody? <==> p.messageType == MESSAGE_TYPE_TXT
    modifies redis`issued
    ensures redis.issued == old(redis.issued) + [Placing(p)] + Record(p.(group := None))
  {
    hide Placing, Payload;
    AppendPlacing(redis, p);
    redis.Append(HSet(p.id, From, Text(p.from)));
    redis.Append(HSet(p.id, To, DeviceName(p.to)));
    redis.Append(HSet(p.id, FromIp, Text(p.fromIp)));
    redis.Append(HSet(p.id, State, Number(0)));
    label head:
    assert redis.issued == old(redis.issued) + [Placing(p)]
      + [HSet(p.id, From, Text(p.from)), HSet(p.id, To, DeviceName(p.to)), HSet(p.id, FromIp, Text(p.fromIp)),
         HSet(p.id, State, Number(0))];
    AppendPayload(redis, p);
    redis.Append(HSet(p.id, SendTime, Text(p.time)));
    redis.Append(HSet(p.id, RetryCount, Number(0)));
    redis.Append(HSet(p.id, MessageType, Number(p.messageType)));
    redis.Append(HSet(p.id, SubMessageId, IdText(p.id)));
    assert redis.issued == old@head(redis.issued) + Payload(p)
      + [HSet(p.id, SendTime, Text(p.time)), HSet(p.id, RetryCount, Number(0)),
         HSet(p.id, MessageType, Number(p.messageType)), HSet(p.id, SubMessageId, IdText(p.id))];
    PayloadIsUngrouped(p);
  }

  lemma PayloadIsUngrouped(p: Put)
    ensures Payload(p.(group := None)) == Payload(p)
  {}

  /** How many replies a put has to read: 11 or 14 for a text, one more for a file. */
  lemma PutSize(p: Put)
    ensures |PutCommands(p)| == (if p.group.Some? then 14 else 11) + (if p.body.TextBody? then 0 else 1)
  {}

  method PutMessage2(redis: Connection, p: Put)
    requires WellFormed(PutMessageInfo2(p)) && redis.Drained()
    modifies redis
    ensures redis.issued == old(redis.issued) + PutCommands(p) && redis.Drained()
  {
    hide Placing, Payload;
    redis.Append(Aside("sadd"));
    redis.Append(Aside("expire"));
    AppendRecord(redis, p);
    redis.Append(HSet(p.id, MessageId, Number(p.group.value)));
    redis.Append(ExpireRecord(p.id));
    PayloadIsUngrouped(p);
    PutSize(p);
    assert redis.issued == old(redis.issued) + PutCommands(p);
    redis.GetReplies(14);
    if p.messageType != MESSAGE_TYPE_TXT {
      var _ := redis.GetReply();
    }
  }

  method PutMessage(redis: Connection, p: Put)
    requires WellFormed(PutMessageInfo(p)) && redis.Drained()
    modifies redis
    ensures redis.issued == old(redis.issued) + PutCommands(p) && redis.Drained()
  {
    AppendRecord(redis, p);
    redis.Append(ExpireRecord(p.id));
    assert p.(group := None) == p;
    PutSize(p);
    assert redis.issued == old(redis.issued) + PutCommands(p);
    redis.GetReplies(11);
    if p.messageType != MESSAGE_TYPE_TXT {
      var _ := redis.GetReply();
    }
  }

  method AppendAsides(redis: Connection, texts: seq<string>)
    modifies redis`issued
    ensures redis.issued == old(redis.issued) + Asides(texts)
  {
    var i := 0;
    while i < |texts|
      invariant i <= |texts| && redis.issued + Asides(texts[i..]) == old(redis.issued) + Asides(texts)
    {
      assert texts[i..][1..] == texts[i + 1..];
      redis.Append(Aside(texts[i]));
      i := i + 1;
    }
  }

  method MessageIsSendOk(redis: Connection, id: Id, to: Device, server: Server)
    requires redis.Drained()
    modifies redis
    ensures redis.issued == old(redis.issued) + AckCommands(id, to, server) && redis.Drained()
  {
    redis.Append(HSet(id, State, Number(1)));
    redis.Append(LRem(PushList(server), id));
    redis.Append(LRem(NoRead(to), id));
    redis.Append(LPush(Read(to), id));
    redis.GetReplies(4);
  }

  /** What the range query replies. Redis answers ZRANGEBYSCORE with an array, never with a string. */
  datatype Reply = StringReply(id: Id) | ArrayReply(ids: seq<Id>)

  /** getDelyMessage as written: it goes on to the transaction for a string reply alone. */
  method GetDelayedMessage(redis: Connection, range: Reply) returns (found: Option<Id>)
    requires redis.Drained()
    modifies redis
    ensures found == if range.StringReply? then Some(range.id) else None
    ensures redis.issued == old(redis.issued) + Commands(DelayedMessage(found)) && redis.Drained()
  {
    AppendAsides(redis, ["watch", "zrangebyscore"]);
    redis.GetReplies(2);
    match range {
      case StringReply(id) =>
        redis.Append(Multi);
        redis.Append(QueueZRem(id));
        redis.Append(Exec(id));
        redis.GetReplies(3);
        found := Some(id);
      case ArrayReply(_) =>
        found := None;
    }
  }

  method PutClient(redis: Connection)
    requires redis.Drained()
    modifies redis
    ensures redis.issued == old(redis.issued) + Commands(PutClientInfo) && redis.Drained()
  {
    AppendAsides(redis, CLIENT_TEXTS);
    redis.GetReplies(9);
  }

  method ForgetClient(redis: Connection)
    requires redis.Drained()
    modifies redis
    ensures redis.issued == old(redis.issued) + Commands(RemoveClient) && redis.Drained()
  {
    AppendAsides(redis, ["del content", "lrem userlistonline", "zremrangebyscore"]);
    redis.GetReplies(3);
  }

  const REGISTER_TEXTS: seq<string> := ["set id", "set name", "sadd reg_user_list", "sadd drivce_list"]

  lemma RegisterCommands(taken: bool)
    ensures Commands(RegUser(taken)) == Asides(["get"]) + (if taken then [] else Asides(REGISTER_TEXTS))
  {
    hide Asides;
  }

  method Register(redis: Connection, taken: bool)
    requires redis.Drained()
    modifies redis
    ensures redis.issued == old(redis.issued) + Commands(RegUser(taken)) && redis.Drained()
  {
    hide Asides, Commands;
    RegisterCommands(taken);
    AppendAsides(redis, ["get"]);
    redis.GetReplies(1);
    if !taken {
      AppendAsides(redis, REGISTER_TEXTS);
      redis.GetReplies(4);
    }
  }

  method Login(redis: Connection)
    requires redis.Drained()
    modifies redis
    ensures redis.issued == old(redis.issued) + Commands(UserLogin) && redis.Drained()
  {
    AppendAsides(redis, ["sadd login_user_list", "sadd drivce_list"]);
    var _ := redis.GetReply();
    var _ := redis.GetReply();
  }

  lemma CommandsOfCall(call: Call)
    ensures call.PutMessageInfo? || call.PutMessageInfo2? ==> Commands(call) == PutCommands(call.p)
    ensures call.NextMessageId? ==> Commands(call) == [RPop(PushList(call.server))]
    ensures call.NextNoReadMessageId? ==> Commands(call) == [RPop(NoRead(call.device))]
    ensures call.SaveInNoread? ==> Commands(call) == [LPush(NoRead(call.device), call.id)]
    ensures call.SaveInPushlist? ==> Commands(call) == [LPush(PushList(call.server), call.id)]
    ensures call.MessageIsSendOK? ==> Commands(call) == AckCommands(call.id, call.to, call.server)
  {}

  /** Any storage function. */
  method Perform(redis: Connection, call: Call)
    requires WellFormed(call) && redis.Drained()
    modifies redis
    ensures redis.issued == old(redis.issued) + Commands(call) && redis.Drained()
  {
    hide PutCommands, AckCommands, Commands;
    CommandsOfCall(call);
    match call {
      case PutMessageInfo(p) => PutMessage(redis, p);
      case PutMessageInfo2(p) => PutMessage2(redis, p);
      case PutClientInfo => PutClient(redis);
      case RemoveClient => ForgetClient(redis);
      case NextMessageId(server) =>
        var _ := redis.Ask(RPop(PushList(server)));
      case NextNoReadMessageId(device) =>
        var _ := redis.Ask(RPop(NoRead(device)));
      case SaveInNoread(device, id) =>
        var _ := redis.Ask(LPush(NoRead(device), id));
      case SaveInPushlist(server, id) =>
        var _ := redis.Ask(LPush(PushList(server), id));
      case MessageIsSendOK(id, to, server) => MessageIsSendOk(redis, id, to, server);
      case DelayedMessage(found) =>
        var _ := GetDelayedMessage(redis, if found.Some? then StringReply(found.value) else ArrayReply([]));
      case RegUser(taken) => Register(redis, taken);
      case UserLogin => Login(redis);
    }
  }

  /** A call and the pooled connection it has leased. */
  datatype Lease = Lease(connection: nat, call: Call)

  /** What a run of calls sends on connection i. */
  function Sent(leases: seq<Lease>, i: nat): seq<Command> {
    if leases == [] then []
    else
      var last := leases[|leases| - 1];
      Sent(leases[..|leases| - 1], i) + (if last.connection == i then Commands(last.call) else [])
  }

  /** The replies a call read: reply k of a connection answers issued[k]. */
  datatype Span = Span(first: nat, end: nat)

  ghost function IssuedBy(pool: seq<Connection>): (all: seq<seq<Command>>)
    reads pool
    ensures |all| == |pool| && forall i :: 0 <= i < |pool| ==> all[i] == pool[i].issued
  {
    seq(|pool|, i requires 0 <= i < |pool| reads pool => pool[i].issued)
  }

  lemma SpanIs(start: seq<Command>, leases: seq<Lease>, k: nat)
    requires k < |leases|
    ensures var c, first := leases[k].connection, |start + Sent(leases[..k], leases[k].connection)|;
      && SpanOf(|start|, leases, k) == Span(first, first + |Commands(leases[k].call)|)
      && first == |start| + |Sent(leases[..k], c)|
  {}

  /** Call k of a run read the replies to its commands, given what the connections had sent before the run. */
  predicate Answered(before: seq<seq<Command>>, leases: seq<Lease>, spans: seq<Span>, k: nat)
    requires |spans| == |leases| && k < |leases| && leases[k].connection < |before|
  {
    Answers(before[leases[k].connection] + Sent(leases, leases[k].connection), spans[k], leases[k].call)
  }

  lemma IsAnswered(before: seq<seq<Command>>, leases: seq<Lease>, spans: seq<Span>, k: nat)
    requires |spans| == |leases| && k < |leases| && leases[k].connection < |before|
    requires spans[k] == SpanOf(|before[leases[k].connection]|, leases, k)
    ensures Answered(before, leases, spans, k)
    ensures spans[k].first == |before[leases[k].connection]| + |Sent(leases[..k], leases[k].connection)|
  {
    SentAt(before[leases[k].connection], leases, k);
  }

  /** Where the replies to call k are, on a connection that had read start of them before. */
  function SpanOf(start: nat, leases: seq<Lease>, k: nat): Span
    requires k < |leases|
  {
    var first := start + |Sent(leases[..k], leases[k].connection)|;
    Span(first, first + |Commands(leases[k].call)|)
  }

  lemma NothingSent()
    ensures forall i :: Sent([], i) == []
  {}

  lemma SentSnoc(leases: seq<Lease>, k: nat)
    requires k < |leases|
    ensures forall i ::
      var more := if leases[k].connection == i then Commands(leases[k].call) else [];
      Sent(leases[..k + 1], i) == Sent(leases[..k], i) + more
  {
    hide Commands;
    assert leases[..k + 1][..k] == leases[..k];
  }

  lemma {:induction false} SentAt(start: seq<Command>, leases: seq<Lease>, k: nat)
    requires k < |leases|
    ensures Answers(start + Sent(leases, leases[k].connection), SpanOf(|start|, leases, k), leases[k].call)
    decreases leases
  {
    hide Commands;
    var c, last := leases[k].connection, |leases| - 1;
    var earlier := leases[..last];
    assert leases[..last + 1] == leases;
    SentSnoc(leases, last);
    if k < last {
      SentAt(start, earlier, k);
      assert earlier[..k] == leases[..k];
      var more := if leases[last].connection == c then Commands(leases[last].call) else [];
      AnswersOn(start + Sent(earlier, c), more, SpanOf(|start|, leases, k), leases[k].call);
      assert start + Sent(leases, c) == start + Sent(earlier, c) + more;
    } else {
      assert start + Sent(leases, c) == start + Sent(earlier, c) + Commands(leases[k].call);
    }
  }

  lemma AnswersOn(issued: seq<Command>, more: seq<Command>, span: Span, call: Call)
    requires Answers(issued, span, call)
    ensures Answers(issued + more, span, call)
  {
    hide Commands;
    assert (issued + more)[span.first..span.end] == issued[span.first..span.end];
  }

  /** The commands whose replies are in span are those of call. */
  predicate Answers(issued: seq<Command>, span: Span, call: Call) {
    span.first <= span.end <= |issued| && issued[span.first..span.end] == Commands(call)
  }

  method PerformOn(redis: Connection, call: Call) returns (span: Span)
    requires WellFormed(call) && redis.Drained()
    modifies redis
    ensures redis.issued == old(redis.issued) + Commands(call) && redis.Drained()
    ensures span == Span(old(redis.read), redis.read) && Answers(redis.issued, span, call)
  {
    hide Commands, WellFormed;
    var first := redis.read;
    Perform(redis, call);
    span := Span(first, redis.read);
  }

  /** Over any run of calls on pooled connections each call reads the replies to its own commands and no others: those
      of its connection from the first it has not yet read to the last there will be. */
  method RunCalls(pool: seq<Connection>, leases: seq<Lease>) returns (spans: seq<Span>)
    requires forall i, j :: 0 <= i < j < |pool| ==> pool[i] != pool[j]
    requires forall i :: 0 <= i < |pool| ==> pool[i].Drained()
    requires forall k :: 0 <= k < |leases| ==> leases[k].connection < |pool| && WellFormed(leases[k].call)
    modifies pool
    ensures forall i :: 0 <= i < |pool| ==> pool[i].Drained() && pool[i].issued == old(pool[i].issued) + Sent(leases, i)
    ensures |spans| == |leases|
    ensures forall k :: 0 <= k < |leases| ==> Answers(pool[leases[k].connection].issued, spans[k], leases[k].call)
    ensures forall k :: 0 <= k < |leases| ==>
      spans[k].first == |old(pool[leases[k].connection].issued)| + |Sent(leases[..k], leases[k].connection)|
  {
    hide Commands, WellFormed, Answers, Sent, SpanOf;
    ghost var before := IssuedBy(pool);
    spans := RunEach(pool, leases, before);
    forall j: nat | j < |leases|
      ensures Answered(before, leases, spans, j)
      ensures spans[j].first == |before[leases[j].connection]| + |Sent(leases[..j], leases[j].connection)|
    {
      IsAnswered(before, leases, spans, j);
    }
  }

  method RunEach(pool: seq<Connection>, leases: seq<Lease>, ghost before: seq<seq<Command>>)
    returns (spans: seq<Span>)
    requires forall i, j :: 0 <= i < j < |pool| ==> pool[i] != pool[j]
    requires forall k :: 0 <= k < |leases| ==> leases[k].connection < |pool| && WellFormed(leases[k].call)
    requires |before| == |pool|
    requires forall i :: 0 <= i < |pool| ==> pool[i].Drained() && pool[i].issued == before[i]
    modifies pool
    ensures forall i :: 0 <= i < |pool| ==> pool[i].Drained() && pool[i].issued == before[i] + Sent(leases, i)
    ensures |spans| == |leases|
    ensures forall j :: 0 <= j < |leases| ==> spans[j] == SpanOf(|before[leases[j].connection]|, leases, j)
  {
    hide Commands, WellFormed, Answers, Sent, SpanOf;
    spans := [];
    var k := 0;
    NothingSent();
    while k < |leases|
      invariant k <= |leases| && |spans| == k
      invariant forall i :: 0 <= i < |pool| ==> pool[i].Drained() && pool[i].issued == before[i] + Sent(leases[..k], i)
      invariant forall j :: 0 <= j < k ==> spans[j] == SpanOf(|before[leases[j].connection]|, leases, j)
    {
      SentSnoc(leases, k);
      SpanIs(before[leases[k].connection], leases, k);
      var span := PerformOn(pool[leases[k].connection], leases[k].call);
      spans := spans + [span];
      k := k + 1;
    }
    assert leases[..k] == leases;
  }
}
