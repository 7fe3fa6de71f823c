/** getmessageinfo: how server/messagestorage.c reads a record back from the reply of HGETALL. */
module MessageInfo {
  import opened Redis
  import opened Wrappers

  /** What it looks for. The put functions write "from", it looks for "form". */
  datatype Name = SubMessageIdName | MessageIdName | ClientPortName | SendTimeName | ToName | StateName
                | MessageTypeName | OrgFileNameName | FormName | FromIpName | ContentName | TimeoutName

  function Lower(c: char): char {
    if 'A' <= c <= 'Z' then c - 'A' + 'a' else c
  }

  /** strncasecmp over the length of the name: s begins with it, whatever the case. */
  predicate Begins(s: string, name: string) {
    |name| <= |s| && forall i :: 0 <= i < |name| ==> Lower(s[i]) == Lower(name[i])
  }

  /** The name a string begins with; no name begins with another. */
  function Match(s: string): (n: Option<Name>) {
    if Begins(s, "submessageid") then Some(SubMessageIdName)
    else if Begins(s, "messageid") then Some(MessageIdName)
    else if Begins(s, "clientport") then Some(ClientPortName)
    else if Begins(s, "sendtime") then Some(SendTimeName)
    else if Begins(s, "to") then Some(ToName)
    else if Begins(s, "state") then Some(StateName)
    else if Begins(s, "messagetype") then Some(MessageTypeName)
    else if Begins(s, "orgFileName") then Some(OrgFileNameName)
    else if Begins(s, "form") then Some(FormName)
    else if Begins(s, "fromip") then Some(FromIpName)
    else if Begins(s, "content") then Some(ContentName)
    else if Begins(s, "timeout") then Some(TimeoutName)
    else None
  }

  type Info = map<Name, string>

  /** An entry nobody filled in is empty: memset. */
  function Got(info: Info, n: Name): string {
    if n in info then info[n] else ""
  }

  /** The scan from element j on: an element that begins with a name gives it the next one, which is skipped. */
  function Scan(elements: seq<string>, j: nat, info: Info): Info
    decreases |elements| - j
  {
    if j + 1 >= |elements| then info
    else match Match(elements[j])
      case Some(n) => Scan(elements, j + 2, info[n := elements[j + 1]])
      case None => Scan(elements, j + 1, info)
  }

  method GetMessageInfo(elements: seq<string>) returns (info: Info)
    ensures info == Scan(elements, 0, map[])
  {
    hide Match;
    info := map[];
    var j := 0;
    while j < |elements| - 1
      invariant 0 <= j <= |elements| + 1
      invariant Scan(elements, j, info) == Scan(elements, 0, map[])
      decreases |elements| - j
    {
      match Match(elements[j]) {
        case Some(n) =>
          info := info[n := elements[j + 1]];
          j := j + 1;
        case None =>
      }
      j := j + 1;
    }
  }

  // ----- a record as HGETALL lists it

  /** The reply: field names and values, in the order order. */
  function Reply(record: map<Field, Value>, order: seq<Field>): (elements: seq<string>)
    requires forall f :: f in order ==> f in record
    ensures |elements| == 2 * |order|
  {
    if order == [] then []
    else [NameOf(order[0]), TextOf(record[order[0]])] + Reply(record, order[1..])
  }

  lemma {:induction false} ReplyAt(record: map<Field, Value>, order: seq<Field>, k: nat)
    requires (forall f :: f in order ==> f in record) && k < |order|
    ensures Reply(record, order)[2 * k] == NameOf(order[k])
    ensures Reply(record, order)[2 * k + 1] == TextOf(record[order[k]])
    decreases k
  {
    if k > 0 {
      ReplyAt(record, order[1..], k - 1);
    }
  }

  /** HGETALL lists every field of the record once, in any order. */
  predicate Lists(record: map<Field, Value>, order: seq<Field>) {
    && (forall f :: f in order <==> f in record)
    && (forall i, j :: 0 <= i < j < |order| ==> order[i] != order[j])
  }

  lemma {:induction false} SomeOrder(record: map<Field, Value>) returns (order: seq<Field>)
    ensures Lists(record, order)
    decreases |record|
  {
    if record == map[] {
      order := [];
    } else {
      var f :| f in record;
      var rest := SomeOrder(record - {f});
      order := [f] + rest;
    }
  }

  /** Any fields may come first. */
  lemma OrderStarting(record: map<Field, Value>, first: seq<Field>) returns (order: seq<Field>)
    requires forall f :: f in first ==> f in record
    requires forall i, j :: 0 <= i < j < |first| ==> first[i] != first[j]
    ensures Lists(record, order) && first <= order
  {
    var fields := set f | f in first;
    var rest := SomeOrder(record - fields);
    order := first + rest;
    assert forall f :: f in order <==> f in first || f in rest;
    assert forall i :: 0 <= i < |first| ==> first[i] in fields;
    assert forall i :: 0 <= i < |rest| ==> rest[i] in rest;
  }

  /** Any field may come last. */
  lemma OrderEnding(record: map<Field, Value>, last: Field) returns (order: seq<Field>)
    requires last in record
    ensures Lists(record, order) && order != [] && order[|order| - 1] == last
  {
    var rest := SomeOrder(record - {last});
    order := rest + [last];
    assert forall i :: 0 <= i < |rest| ==> rest[i] in rest;
  }

  function ReadBack(record: map<Field, Value>, order: seq<Field>): Info
    requires Lists(record, order)
  {
    Scan(Reply(record, order), 0, map[])
  }

  // ----- what it makes of the field names

  /** The entry a field goes to; from and retrycount go nowhere. */
  function Entry(f: Field): Option<Name> {
    match f
    case From => None
    case To => Some(ToName)
    case FromIp => Some(FromIpName)
    case State => Some(StateName)
    case Content => Some(ContentName)
    case OrgFileName => Some(OrgFileNameName)
    case SendTime => Some(SendTimeName)
    case RetryCount => None
    case MessageType => Some(MessageTypeName)
    case SubMessageId => Some(SubMessageIdName)
    case MessageId => Some(MessageIdName)
  }

  lemma NotThere(s: string, name: string, i: nat)
    requires i < |s| && i < |name| && Lower(s[i]) != Lower(name[i])
    ensures !Begins(s, name)
  {}

  lemma BeginsItself(s: string)
    ensures Begins(s, s)
  {}

  /** Two letters tell the names apart, but for the two that begin with "message". */
  lemma TwoLetters(s: string)
    requires |s| > 1
    ensures Lower(s[0]) != 's' || Lower(s[1]) != 'u' ==> !Begins(s, "submessageid")
    ensures Lower(s[0]) != 'm' ==> !Begins(s, "messageid") && !Begins(s, "messagetype")
    ensures Lower(s[0]) != 'c' || Lower(s[1]) != 'l' ==> !Begins(s, "clientport")
    ensures Lower(s[0]) != 's' || Lower(s[1]) != 'e' ==> !Begins(s, "sendtime")
    ensures Lower(s[0]) != 't' || Lower(s[1]) != 'o' ==> !Begins(s, "to")
    ensures Lower(s[0]) != 's' || Lower(s[1]) != 't' ==> !Begins(s, "state")
    ensures Lower(s[0]) != 'o' ==> !Begins(s, "orgFileName")
    ensures Lower(s[0]) != 'f' || Lower(s[1]) != 'o' ==> !Begins(s, "form")
    ensures Lower(s[0]) != 'f' || Lower(s[1]) != 'r' ==> !Begins(s, "fromip")
    ensures Lower(s[0]) != 'c' || Lower(s[1]) != 'o' ==> !Begins(s, "content")
    ensures Lower(s[0]) != 't' || Lower(s[1]) != 'i' ==> !Begins(s, "timeout")
  {}

  lemma EntryIsMatch(f: Field)
    ensures Match(NameOf(f)) == Entry(f)
  {
    hide Begins;
    TwoLetters(NameOf(f));
    BeginsItself(NameOf(f));
    match f
    case MessageId => NotThere("messageid", "messagetype", 7);
    case MessageType => NotThere("messagetype", "messageid", 7);
    case From => TooShort("from", "fromip");
    case To =>
    case FromIp =>
    case State =>
    case Content =>
    case OrgFileName =>
    case SendTime =>
    case RetryCount =>
    case SubMessageId =>
  }

  lemma TooShort(s: string, name: string)
    requires |s| < |name|
    ensures !Begins(s, name)
  {}

  /** How each of the twelve is spelt. */
  function Spelling(n: Name): string {
    match n
    case SubMessageIdName => "submessageid"
    case MessageIdName => "messageid"
    case ClientPortName => "clientport"
    case SendTimeName => "sendtime"
    case ToName => "to"
    case StateName => "state"
    case MessageTypeName => "messagetype"
    case OrgFileNameName => "orgFileName"
    case FormName => "form"
    case FromIpName => "fromip"
    case ContentName => "content"
    case TimeoutName => "timeout"
  }

  lemma Tells(s: string, name: string, other: string, i: nat)
    requires i < |name| && i < |other| && Lower(name[i]) != Lower(other[i]) && Begins(s, name)
    ensures !Begins(s, other)
  {
    assert Lower(s[i]) == Lower(name[i]);
  }

  /** The order in which the names are looked for does not matter: each is found exactly where it stands, as no string
      begins with two of them. */
  lemma MatchIff(s: string, n: Name)
    ensures Match(s) == Some(n) <==> Begins(s, Spelling(n))
  {
    hide Begins;
    if |s| > 1 {
      TwoLetters(s);
      if Begins(s, "messageid") {
        Tells(s, "messageid", "messagetype", 7);
      }
      if Begins(s, Spelling(n)) {
        FirstLetters(s, Spelling(n));
      }
    } else {
      AllLonger(s);
    }
  }

  lemma FirstLetters(s: string, name: string)
    requires Begins(s, name) && |name| > 1
    ensures |s| > 1 && Lower(s[0]) == Lower(name[0]) && Lower(s[1]) == Lower(name[1])
  {}

  lemma AllLonger(s: string)
    requires |s| <= 1
    ensures forall n: Name :: !Begins(s, Spelling(n))
  {}

  /** The put functions spell the names as they are looked for, but for the two that are not. */
  lemma NamesAreSpelt(f: Field)
    ensures match Entry(f)
      case Some(n) => NameOf(f) == Spelling(n)
      case None => NameOf(f) == if f == From then "from" else "retrycount"
  {}

  /** One letter, big or small. */
  predicate SameLetter(c: char, d: char) {
    c == d || ('A' <= c <= 'Z' && d == c + ('a' - 'A')) || ('A' <= d <= 'Z' && c == d + ('a' - 'A'))
  }

  /** Whether letters are big or small makes no difference. */
  lemma MatchIgnoresCase(s: string, t: string)
    requires |s| == |t| && forall i :: 0 <= i < |s| ==> SameLetter(s[i], t[i])
    ensures Match(s) == Match(t)
  {
    hide Lower, Match;
    forall i | 0 <= i < |s|
      ensures Lower(s[i]) == Lower(t[i])
    {
      SameLower(s[i], t[i]);
    }
    forall n: Name
      ensures Match(s) == Some(n) <==> Match(t) == Some(n)
    {
      MatchIff(s, n);
      MatchIff(t, n);
    }
    if Match(s).Some? {
      assert Match(t) == Some(Match(s).value);
    } else if Match(t).Some? {
      assert Match(s) == Some(Match(t).value);
    }
  }

  lemma SameLower(c: char, d: char)
    requires SameLetter(c, d)
    ensures Lower(c) == Lower(d)
  {}

  // ----- values that begin with no name

  lemma NoLetter(s: string)
    requires s == "" || !('a' <= Lower(s[0]) <= 'z')
    ensures Match(s) == None
  {
    if s != "" {
      assert Lower(s[0]) == Lower(s[0]);
    }
  }

  lemma {:induction false} DecimalStarts(n: int)
    ensures Decimal(n)[0] == '-' || '0' <= Decimal(n)[0] <= '9'
    decreases if n < 0 then 1 - n else n
  {
    if n >= 10 {
      DecimalStarts(n / 10);
    }
  }

  lemma NumbersAreNoNames(n: int)
    ensures Match(Decimal(n)) == None
  {
    hide Match, Decimal;
    DecimalStarts(n);
    NoLetter(Decimal(n));
  }

  // ----- scanning in step with the fields

  /** What the scan gives while it meets field names in the places of names. */
  function Fill(record: map<Field, Value>, order: seq<Field>, info: Info): Info
    requires forall f :: f in order ==> f in record
  {
    if order == [] then info
    else Fill(record, order[1..],
              if Entry(order[0]).Some? then info[Entry(order[0]).value := TextOf(record[order[0]])] else info)
  }

  /** The values of from and retrycount, the only ones scanned, begin with no name; the last value is not scanned. */
  predicate Harmless(record: map<Field, Value>, order: seq<Field>)
    requires forall f :: f in order ==> f in record
  {
    forall i :: 0 <= i < |order| - 1 && Entry(order[i]) == None ==> Match(TextOf(record[order[i]])) == None
  }

  lemma {:induction false} ScanInStep(record: map<Field, Value>, order: seq<Field>, k: nat, info: Info)
    requires (forall f :: f in order ==> f in record) && k <= |order| && Harmless(record, order[k..])
    ensures Scan(Reply(record, order), 2 * k, info) == Fill(record, order[k..], info)
    decreases |order| - k
  {
    hide Match, NameOf, TextOf, Reply;
    if k < |order| {
      var f := order[k];
      ReplyAt(record, order, k);
      EntryIsMatch(f);
      assert order[k..][0] == f && order[k..][1..] == order[k + 1..];
      assert f in order[k..];
      assert forall g :: g in order[k + 1..] ==> g in order[k..];
      var next := if Entry(f).Some? then info[Entry(f).value := TextOf(record[f])] else info;
      ScanInStep(record, order, k + 1, next);
    }
  }

  lemma {:induction false} FillGets(record: map<Field, Value>, order: seq<Field>, info: Info, f: Field)
    requires (forall g :: g in order ==> g in record) && Entry(f).Some?
    requires forall i, j :: 0 <= i < j < |order| ==> order[i] != order[j]
    ensures Got(Fill(record, order, info), Entry(f).value)
         == if f in order then TextOf(record[f]) else Got(info, Entry(f).value)
    decreases order
  {
    if order != [] {
      var next := if Entry(order[0]).Some? then info[Entry(order[0]).value := TextOf(record[order[0]])] else info;
      FillGets(record, order[1..], next, f);
      EntriesDiffer(order[0], f);
    }
  }

  lemma EntriesDiffer(f: Field, g: Field)
    ensures f != g && Entry(f).Some? ==> Entry(f) != Entry(g)
  {}

  /** In any order of the reply: when the scanned values begin with no name, every other field is read back. */
  lemma HarmlessIsReadBack(record: map<Field, Value>, order: seq<Field>, f: Field)
    requires Lists(record, order) && Harmless(record, order) && Entry(f).Some?
    ensures Got(ReadBack(record, order), Entry(f).value) == if f in record then TextOf(record[f]) else ""
  {
    hide Match, Reply, TextOf, Fill, Harmless;
    assert order[0..] == order;
    ScanInStep(record, order, 0, map[]);
    FillGets(record, order, map[], f);
  }

  // ----- whatever the sender is called

  /** Where an entry can come from: the field it is for, or the name of some field. */
  predicate Sourced(record: map<Field, Value>, n: Name, s: string) {
    (exists f: Field :: s == NameOf(f)) || (exists f :: f in record && Entry(f) == Some(n) && s == TextOf(record[f]))
  }

  predicate AllSourced(record: map<Field, Value>, info: Info) {
    forall n :: n in info ==> Sourced(record, n, info[n])
  }

  lemma {:induction false} ScanIsSourced(record: map<Field, Value>, order: seq<Field>, j: nat, info: Info)
    requires (forall f :: f in order ==> f in record) && AllSourced(record, info)
    ensures AllSourced(record, Scan(Reply(record, order), j, info))
    decreases 2 * |order| - j
  {
    hide Match, NameOf, TextOf, Reply, Sourced;
    if j + 1 < 2 * |order| {
      var elements := Reply(record, order);
      match Match(elements[j])
      case None => ScanIsSourced(record, order, j + 1, info);
      case Some(n) =>
        NextIsSourced(record, order, j, n);
        ScanIsSourced(record, order, j + 2, info[n := elements[j + 1]]);
    }
  }

  lemma NextIsSourced(record: map<Field, Value>, order: seq<Field>, j: nat, n: Name)
    requires (forall f :: f in order ==> f in record) && j + 1 < 2 * |order|
    requires Match(Reply(record, order)[j]) == Some(n)
    ensures Sourced(record, n, Reply(record, order)[j + 1])
  {
    hide Match, NameOf, TextOf, Reply;
    var k := j / 2;
    if j == 2 * k {
      ReplyAt(record, order, k);
      EntryIsMatch(order[k]);
      assert order[k] in order;
    } else {
      assert j == 2 * k + 1;
      ReplyAt(record, order, k + 1);
    }
  }

  /** The submessageid found is the record's own, or none, or the name of a field: never another message's. */
  lemma SubMessageIdFound(record: map<Field, Value>, order: seq<Field>)
    requires Lists(record, order)
    ensures var s := Got(ReadBack(record, order), SubMessageIdName);
      s == "" || (exists f: Field :: s == NameOf(f)) || (SubMessageId in record && s == TextOf(record[SubMessageId]))
  {
    hide Match, NameOf, TextOf, Reply;
    ScanIsSourced(record, order, 0, map[]);
    assert forall f :: Entry(f) == Some(SubMessageIdName) ==> f == SubMessageId by {
      forall f: Field
        ensures Entry(f) == Some(SubMessageIdName) ==> f == SubMessageId
      {
        EntriesDiffer(f, SubMessageId);
      }
    }
  }

  // ----- the order the fields were written in

  predicate AsWritten(record: map<Field, Value>, order: seq<Field>) {
    && Lists(record, order) && |order| >= 3 && order[0] == From && order[1] == To && order[2] == FromIp
    && Match(TextOf(record[FromIp])) == None
    && (RetryCount in record ==> Match(TextOf(record[RetryCount])) == None)
  }

  /** The recipient found by a scan that starts with "from", in the order of writing. */
  function RecipientFound(from: string, to: string): string {
    if Match(from) == None then to
    else if Match(to) == Some(ToName) then "fromip"
    else if Match(from) == Some(ToName) then "to"
    else ""
  }

  lemma RestIsHarmless(record: map<Field, Value>, order: seq<Field>, k: nat)
    requires AsWritten(record, order) && 1 <= k <= |order|
    ensures Harmless(record, order[k..]) && (forall f :: f in order[k..] ==> f in record)
    ensures forall i, j :: 0 <= i < j < |order[k..]| ==> order[k..][i] != order[k..][j]
    ensures k >= 2 ==> To !in order[k..]
    ensures k <= 3 ==> (SubMessageId in order[k..] <==> SubMessageId in record)
    ensures k == 1 ==> To in order[k..]
  {
    hide Match, TextOf;
    assert forall f :: f in order[k..] ==> f in order;
    assert From !in order[k..] by {
      assert forall i :: k <= i < |order| ==> order[i] != order[0];
    }
    if k >= 2 {
      assert forall i :: k <= i < |order| ==> order[i] != order[1];
    }
    if k <= 3 && SubMessageId in record {
      assert SubMessageId in order;
      var i :| 0 <= i < |order| && order[i] == SubMessageId;
      assert order[k..][i - k] == SubMessageId;
    }
    if k == 1 {
      assert order[k..][0] == To;
    }
  }

  /** From some step on the scan is in step with the fields, and what it finds is settled. */
  lemma InStepFrom(record: map<Field, Value>, order: seq<Field>, k: nat, info: Info)
    requires AsWritten(record, order) && 1 <= k <= 3
    ensures var found := Scan(Reply(record, order), 2 * k, info);
      && Got(found, ToName) == (if k == 1 then TextOf(record[To]) else Got(info, ToName))
      && Got(found, SubMessageIdName)
         == (if SubMessageId in record then TextOf(record[SubMessageId]) else Got(info, SubMessageIdName))
  {
    hide Match, TextOf, Reply, Fill, Harmless, NameOf;
    RestIsHarmless(record, order, k);
    ScanInStep(record, order, k, info);
    FillGets(record, order[k..], info, To);
    FillGets(record, order[k..], info, SubMessageId);
  }

  /** The first six elements: from, its value, to, its value, fromip, its value. */
  lemma ScanStarts(record: map<Field, Value>, order: seq<Field>)
    requires AsWritten(record, order)
    ensures var elements, from, to := Reply(record, order), TextOf(record[From]), TextOf(record[To]);
      Scan(elements, 0, map[]) ==
        match Match(from)
        case None => Scan(elements, 2, map[])
        case Some(n) =>
          match Match(to)
          case None => Scan(elements, 4, map[n := "to"])
          case Some(m) => Scan(elements, 6, map[n := "to"][m := "fromip"])
  {
    hide Match, TextOf, Reply;
    var elements := Reply(record, order);
    ReplyAt(record, order, 0);
    ReplyAt(record, order, 1);
    ReplyAt(record, order, 2);
    EntryIsMatch(From);
    var info: Info := map[];
    assert Scan(elements, 0, info) == Scan(elements, 1, info);
    match Match(TextOf(record[From]))
    case None => assert Scan(elements, 1, info) == Scan(elements, 2, info);
    case Some(n) =>
      var next := info[n := "to"];
      assert Scan(elements, 1, info) == Scan(elements, 3, next);
      match Match(TextOf(record[To]))
      case None => assert Scan(elements, 3, next) == Scan(elements, 4, next);
      case Some(m) =>
        var last := next[m := "fromip"];
        assert Scan(elements, 3, next) == Scan(elements, 5, last);
        assert Scan(elements, 5, last) == Scan(elements, 6, last);
  }

  lemma WrittenIsFound(record: map<Field, Value>, order: seq<Field>)
    requires AsWritten(record, order)
    ensures var info := ReadBack(record, order);
      && Got(info, ToName) == RecipientFound(TextOf(record[From]), TextOf(record[To]))
      && (SubMessageId in record ==> Got(info, SubMessageIdName) == TextOf(record[SubMessageId]))
  {
    hide Match, TextOf, Reply, Scan;
    ScanStarts(record, order);
    match Match(TextOf(record[From]))
    case None => InStepFrom(record, order, 1, map[]);
    case Some(n) =>
      match Match(TextOf(record[To]))
      case None => InStepFrom(record, order, 2, map[n := "to"]);
      case Some(m) => InStepFrom(record, order, 3, map[n := "to"][m := "fromip"]);
  }

  lemma WordsMatch()
    ensures Match("to") == Some(ToName) && Match("fromip") == Some(FromIpName) && Match("") == None
  {
    EntryIsMatch(To);
    EntryIsMatch(FromIp);
    NoLetter("");
  }

  /** In the order written the recipient is read back if and only if the sender begins with no name; or if the
      recipient is empty and the sender does not begin with "to". */
  lemma RecipientIsReadIff(record: map<Field, Value>, order: seq<Field>)
    requires AsWritten(record, order)
    ensures var from, to := TextOf(record[From]), TextOf(record[To]);
      var clear := Match(from) == None || (to == "" && Match(from) != Some(ToName));
      Got(ReadBack(record, order), ToName) == to <==> clear
  {
    hide Match, TextOf, ReadBack, NameOf;
    WrittenIsFound(record, order);
    WordsMatch();
  }

  // ----- another order

  /** When the submessageid comes first, then the sender and the recipient, a sender that begins with "submessageid"
      and a recipient that begins with no name give "to" as the submessageid. */
  lemma SubMessageIdSpoilt(record: map<Field, Value>, order: seq<Field>)
    requires Lists(record, order) && |order| >= 3 && order[0] == SubMessageId && order[1] == From && order[2] == To
    requires Match(TextOf(record[From])) == Some(SubMessageIdName) && Match(TextOf(record[To])) == None
    requires RetryCount in record ==> Match(TextOf(record[RetryCount])) == None
    ensures Got(ReadBack(record, order), SubMessageIdName) == "to"
  {
    hide Match, TextOf, Reply, Fill;
    var elements := Reply(record, order);
    ReplyAt(record, order, 0);
    ReplyAt(record, order, 1);
    ReplyAt(record, order, 2);
    EntryIsMatch(SubMessageId);
    EntryIsMatch(From);
    var none: Info := map[];
    var own := none[SubMessageIdName := elements[1]];
    var spoilt := own[SubMessageIdName := "to"];
    assert Scan(elements, 0, none) == Scan(elements, 2, own);
    assert Scan(elements, 2, own) == Scan(elements, 3, own);
    assert Scan(elements, 3, own) == Scan(elements, 5, spoilt);
    assert Scan(elements, 5, spoilt) == Scan(elements, 6, spoilt);
    assert forall i :: 3 <= i < |order| ==> order[i] != order[0] && order[i] != order[1];
    assert From !in order[3..] && SubMessageId !in order[3..];
    assert forall f :: f in order[3..] ==> f in order;
    ScanInStep(record, order, 3, spoilt);
    FillGets(record, order[3..], spoilt, SubMessageId);
  }
}
