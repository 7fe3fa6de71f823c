/** The user directory of server/extended_storage.c. */
module UserStorage {
  import opened LinkedList
  import opened Wrappers

  datatype UserInfo = UserInfo(userid: string, username: string, devices: set<string>)

  // ----- the keyspace

  /** Keys and values are each other's: looking up twice leads back, and nothing leads to itself. */
  ghost predicate Paired(strings: map<string, string>) {
    forall k :: k in strings ==> strings[k] in strings && strings[strings[k]] == k && strings[k] != k
  }

  /** Of each pair exactly one is a registered id; the other is its name. */
  ghost predicate OneIsId(strings: map<string, string>, ids: set<string>) {
    ids <= strings.Keys && "" !in ids && forall k :: k in strings ==> (k in ids <==> strings[k] !in ids)
  }

  /** The GUIDs the server makes are new: not a key, not the name to register, not empty. */
  predicate Fresh(guid: string, username: string, strings: map<string, string>) {
    guid !in strings && guid != username && guid != ""
  }

  function Lookup(strings: map<string, string>, key: string): string {
    if key in strings then strings[key] else ""
  }

  function Members(sets: map<string, set<string>>, key: string): set<string> {
    if key in sets then sets[key] else {}
  }

  /** The two set commands of regUser. */
  function Registered(strings: map<string, string>, username: string, guid: string): map<string, string> {
    strings[guid := username][username := guid]
  }

  /** A registration that goes through keeps the pairing exactly when the name is not a key already. */
  lemma RegisteringKeepsPairsIff(strings: map<string, string>, ids: set<string>, username: string, guid: string)
    requires Paired(strings) && OneIsId(strings, ids) && Fresh(guid, username, strings)
    ensures Paired(Registered(strings, username, guid)) <==> username !in strings
    ensures username !in strings ==> OneIsId(Registered(strings, username, guid), ids + {guid})
  {
    var strings' := Registered(strings, username, guid);
    if username in strings {
      var other := strings[username];
      assert other != username && other != guid;
      assert strings'[other] == username && strings'[username] == guid;
    }
  }

  /** The one name that must not be registered: the id of the user with the empty name, if there is one. */
  predicate Trap(strings: map<string, string>, username: string) {
    "" in strings && strings[""] == username
  }

  /** regUser goes on when the name leads nowhere, or to the empty string; so it breaks a pair exactly when it is
      asked to register, as a name, the id of the user whose name is empty. */
  lemma RegistrationBreaksPairsIff(strings: map<string, string>, ids: set<string>, username: string, guid: string)
    requires Paired(strings) && OneIsId(strings, ids) && Fresh(guid, username, strings)
    requires Lookup(strings, username) == ""
    ensures Paired(Registered(strings, username, guid)) <==> !Trap(strings, username)
  {
    RegisteringKeepsPairsIff(strings, ids, username, guid);
  }

  /** That happens: the empty name, and then its id, are both accepted. */
  lemma EmptyNameBreaksPairs(guid: string, guid': string)
    requires guid != "" && guid' != "" && guid' != guid
    ensures var s := Registered(map[], "", guid);
      Lookup(s, guid) == "" && Paired(s) && !Paired(Registered(s, guid, guid'))
  {
    var s := Registered(map[], "", guid);
    assert s == map[guid := "", "" := guid];
    RegisteringKeepsPairsIff(s, {guid}, guid, guid');
  }

  // ----- infos

  /** What looking a member up gives: the user registered with this id, or the empty name. */
  function InfoOf(strings: map<string, string>, devices: map<string, set<string>>, userid: string): UserInfo {
    UserInfo(userid, Lookup(strings, userid), Members(devices, userid))
  }

  /** The infos of a reply, last member first, as list_lpush leaves them. */
  function Infos(strings: map<string, string>, devices: map<string, set<string>>, reply: seq<string>)
    : (infos: seq<UserInfo>)
    ensures |infos| == |reply|
  {
    if reply == [] then []
    else [InfoOf(strings, devices, reply[|reply| - 1])] + Infos(strings, devices, reply[..|reply| - 1])
  }

  lemma {:induction false} InfosAt(strings: map<string, string>, devices: map<string, set<string>>,
                                   reply: seq<string>, k: nat)
    requires k < |reply|
    ensures Infos(strings, devices, reply)[|reply| - 1 - k] == InfoOf(strings, devices, reply[k])
    decreases reply
  {
    if k < |reply| - 1 {
      InfosAt(strings, devices, reply[..|reply| - 1], k);
    } else if |reply| > 1 {
      InfosAt(strings, devices, reply[..|reply| - 1], 0);
    }
  }

  // ----- runs

  /** The keys of a directory: name to id and id to name, reg_user_list, login_user_list, <id>_drivce_list,
      <id>_friends. */
  datatype Users = Users(strings: map<string, string>, ids: set<string>, logins: set<string>,
                         devices: map<string, set<string>>, friends: map<string, set<string>>)

  datatype Act =
    | Register(username: string, device: string, guid: string)
    | Login(username: string, device: string)
    | Befriend(username: string, friend: string)

  function Including(sets: map<string, set<string>>, key: string, member: string): map<string, set<string>> {
    sets[key := Members(sets, key) + {member}]
  }

  function Apply(u: Users, a: Act): Users {
    match a
    case Register(username, device, guid) =>
      if Lookup(u.strings, username) != "" then u
      else u.(strings := Registered(u.strings, username, guid), ids := u.ids + {guid},
              devices := Including(u.devices, guid, device))
    case Login(username, device) =>
      var id := Lookup(u.strings, username);
      u.(logins := u.logins + {id}, devices := Including(u.devices, id, device))
    case Befriend(username, friend) =>
      u.(friends := Including(u.friends, Lookup(u.strings, username), Lookup(u.strings, friend)))
  }

  predicate IsName(u: Users, name: string) {
    name in u.strings && name !in u.ids
  }

  /** New ids, any name but the trap, and logins of and friendship between registered names alone. */
  predicate Proper(u: Users, a: Act) {
    match a
    case Register(username, _, guid) => !Trap(u.strings, username) && Fresh(guid, username, u.strings)
    case Login(username, _) => IsName(u, username)
    case Befriend(username, friend) => IsName(u, username) && IsName(u, friend)
  }

  ghost predicate FriendsResolve(friends: map<string, set<string>>, ids: set<string>) {
    forall id :: id in friends ==> id in ids && friends[id] <= ids
  }

  ghost predicate Sound(u: Users) {
    Paired(u.strings) && OneIsId(u.strings, u.ids) && FriendsResolve(u.friends, u.ids)
  }

  lemma StepSound(u: Users, a: Act)
    requires Sound(u) && Proper(u, a)
    ensures Sound(Apply(u, a))
    ensures forall k :: k in u.strings ==> Lookup(Apply(u, a).strings, k) == u.strings[k]
  {
    if a.Register? && Lookup(u.strings, a.username) == "" {
      UnknownName(u, a.username);
      RegisteringKeepsPairsIff(u.strings, u.ids, a.username, a.guid);
    }
    hide Paired, OneIsId;
    FriendsStillResolve(u, a);
  }

  lemma UnknownName(u: Users, username: string)
    requires Sound(u) && Lookup(u.strings, username) == "" && !Trap(u.strings, username)
    ensures username !in u.strings
  {
    hide FriendsResolve;
  }

  lemma FriendsStillResolve(u: Users, a: Act)
    requires Sound(u) && Proper(u, a)
    ensures FriendsResolve(Apply(u, a).friends, Apply(u, a).ids)
  {
    hide Registered;
    if a.Befriend? {
      FriendIsUserIff(u, a.username, a.friend);
      FriendIsUserIff(u, a.friend, a.username);
    }
  }

  function After(acts: seq<Act>): Users {
    if acts == [] then Users(map[], {}, {}, map[], map[]) else Apply(After(acts[..|acts| - 1]), acts[|acts| - 1])
  }

  predicate AllProper(acts: seq<Act>) {
    acts != [] ==> AllProper(acts[..|acts| - 1]) && Proper(After(acts[..|acts| - 1]), acts[|acts| - 1])
  }

  /** After any run of them the keyspace pairs names and ids, and every friend is the id of a registered name. */
  lemma {:induction false} NamesAndIdsPair(acts: seq<Act>)
    requires AllProper(acts)
    ensures var u := After(acts);
      && (forall k :: k in u.strings ==> u.strings[k] != k && Lookup(u.strings, u.strings[k]) == k)
      && (forall k :: k in u.strings ==> (k in u.ids <==> IsName(u, u.strings[k])))
      && (forall id, m :: id in u.friends && m in u.friends[id] ==> m in u.ids && IsName(u, Lookup(u.strings, m)))
    ensures Sound(After(acts))
    decreases acts
  {
    if acts != [] {
      var before := acts[..|acts| - 1];
      NamesAndIdsPair(before);
      StepSound(After(before), acts[|acts| - 1]);
    }
  }

  /** Befriending puts the id of a user into the set exactly when the friend was given by a registered name. */
  lemma FriendIsUserIff(u: Users, username: string, friend: string)
    requires Paired(u.strings) && OneIsId(u.strings, u.ids)
    ensures Lookup(u.strings, friend) in u.ids <==> IsName(u, friend)
    ensures IsName(u, friend) ==> InfoOf(u.strings, u.devices, Lookup(u.strings, friend)).username == friend
  {}

  // ----- who befriended whom, and from which devices

  lemma NamesStay(acts: seq<Act>, name: string)
    requires acts != [] && AllProper(acts) && IsName(After(acts[..|acts| - 1]), name)
    ensures var u, v := After(acts[..|acts| - 1]), After(acts);
      IsName(v, name) && Lookup(v.strings, name) == Lookup(u.strings, name)
  {
    NamesAndIdsPair(acts[..|acts| - 1]);
    NamesAndIdsPair(acts);
    StepSound(After(acts[..|acts| - 1]), acts[|acts| - 1]);
  }

  /** Different names have different ids. */
  lemma IdsDiffer(u: Users, a: string, b: string)
    requires Sound(u) && IsName(u, a) && IsName(u, b) && a != b
    ensures Lookup(u.strings, a) != Lookup(u.strings, b)
  {
    hide FriendsResolve, OneIsId;
  }

  /** Who befriended or was befriended is registered. */
  lemma {:induction false} AskedAreNames(acts: seq<Act>, a: string, b: string)
    requires AllProper(acts) && Befriend(a, b) in acts
    ensures IsName(After(acts), a) && IsName(After(acts), b)
    decreases acts
  {
    hide Apply;
    var init := acts[..|acts| - 1];
    if Befriend(a, b) in init {
      AskedAreNames(init, a, b);
    }
    NamesStay(acts, a);
    NamesStay(acts, b);
  }

  /** Over any run, of two registered users the second is in the first one's set exactly when that was asked for. */
  lemma {:induction false} FriendsWereAsked(acts: seq<Act>, a: string, b: string)
    requires AllProper(acts) && IsName(After(acts), a) && IsName(After(acts), b)
    ensures var u := After(acts);
      Lookup(u.strings, b) in Members(u.friends, Lookup(u.strings, a)) <==> Befriend(a, b) in acts
    decreases acts
  {
    if acts != [] {
      var init, last := acts[..|acts| - 1], acts[|acts| - 1];
      var u := After(init);
      NamesAndIdsPair(init);
      StepSound(u, last);
      if IsName(u, a) && IsName(u, b) {
        FriendsWereAsked(init, a, b);
        FriendStep(u, last, a, b);
      } else {
        if Befriend(a, b) in init {
          AskedAreNames(init, a, b);
        }
        NewHasNoFriends(u, last, a, b);
      }
    }
  }

  lemma FriendStep(u: Users, act: Act, a: string, b: string)
    requires Sound(u) && Proper(u, act) && IsName(u, a) && IsName(u, b)
    ensures var v := Apply(u, act);
      Lookup(v.strings, b) in Members(v.friends, Lookup(v.strings, a)) <==>
        (Lookup(u.strings, b) in Members(u.friends, Lookup(u.strings, a)) || act == Befriend(a, b))
  {
    StepSound(u, act);
    if act.Befriend? {
      if act.username != a {
        IdsDiffer(u, act.username, a);
      }
      if act.friend != b {
        IdsDiffer(u, act.friend, b);
      }
    }
  }

  lemma NewHasNoFriends(u: Users, act: Act, a: string, b: string)
    requires Sound(u) && Proper(u, act) && IsName(Apply(u, act), a) && IsName(Apply(u, act), b)
    requires !IsName(u, a) || !IsName(u, b)
    ensures var v := Apply(u, act);
      act.Register? && Lookup(v.strings, b) !in Members(v.friends, Lookup(v.strings, a))
  {
    hide Paired;
    assert act.Register? && Lookup(u.strings, act.username) == "";
    UnknownName(u, act.username);
  }

  // ----- whose devices

  /** The device a name was first registered from. */
  function FirstDevice(acts: seq<Act>, name: string): Option<string> {
    if acts == [] then None
    else
      var first, last := FirstDevice(acts[..|acts| - 1], name), acts[|acts| - 1];
      if first == None && last.Register? && last.username == name then Some(last.device) else first
  }

  lemma {:induction false} FirstDeviceKnown(acts: seq<Act>, name: string)
    requires AllProper(acts)
    ensures IsName(After(acts), name) ==> FirstDevice(acts, name).Some?
    ensures FirstDevice(acts, name).Some? ==> name in After(acts).strings
    ensures forall d :: Login(name, d) in acts ==> name in After(acts).strings
    ensures After(acts).devices.Keys <= After(acts).ids
    decreases acts
  {
    if acts != [] {
      var init, last := acts[..|acts| - 1], acts[|acts| - 1];
      FirstDeviceKnown(init, name);
      NamesAndIdsPair(init);
      StepSound(After(init), last);
      if last.Login? {
        FriendIsUserIff(After(init), last.username, last.username);
      }
    }
  }

  /** Over any run the devices of a registered user are the one it registered from and those it logged in from. */
  lemma {:induction false} DevicesAreKnown(acts: seq<Act>, name: string, device: string)
    requires AllProper(acts) && IsName(After(acts), name)
    ensures var u := After(acts);
      device in Members(u.devices, Lookup(u.strings, name)) <==>
        (FirstDevice(acts, name) == Some(device) || Login(name, device) in acts)
    decreases acts
  {
    if acts != [] {
      var init, last := acts[..|acts| - 1], acts[|acts| - 1];
      var u := After(init);
      FirstDeviceKnown(init, name);
      NamesAndIdsPair(init);
      StepSound(u, last);
      if IsName(u, name) {
        DevicesAreKnown(init, name, device);
        DeviceStep(u, last, name, device);
      } else {
        NewHasOneDevice(u, last, name, device);
      }
    }
  }

  lemma DeviceStep(u: Users, act: Act, name: string, device: string)
    requires Sound(u) && Proper(u, act) && IsName(u, name)
    ensures var v := Apply(u, act);
      device in Members(v.devices, Lookup(v.strings, name)) <==>
        (device in Members(u.devices, Lookup(u.strings, name)) || act == Login(name, device))
  {
    StepSound(u, act);
    if act.Login? && act.username != name {
      IdsDiffer(u, act.username, name);
    }
    if act.Register? && Lookup(u.strings, act.username) == "" {
      UnknownName(u, act.username);
    }
  }

  lemma NewHasOneDevice(u: Users, act: Act, name: string, device: string)
    requires Sound(u) && Proper(u, act) && IsName(Apply(u, act), name) && !IsName(u, name)
    requires u.devices.Keys <= u.ids
    ensures act.Register? && act.username == name && name !in u.strings
    ensures var v := Apply(u, act);
      device in Members(v.devices, Lookup(v.strings, name)) <==> device == act.device
  {
    hide Paired, FriendsResolve;
    assert act.Register? && Lookup(u.strings, act.username) == "";
    UnknownName(u, act.username);
  }

  // ----- the directory

  class Directory {
    var strings: map<string, string>
    var ids: set<string>
    var logins: set<string>
    var devices: map<string, set<string>>
    var friends: map<string, set<string>>

    ghost function Contents(): Users
      reads this
    {
      Users(strings, ids, logins, devices, friends)
    }

    constructor ()
      ensures Contents() == After([])
    {
      strings, ids, logins, devices, friends := map[], {}, {}, map[], map[];
    }

    /** guid is what createGUID makes. */
    method RegUser(username: string, device: string, guid: string) returns (userid: Option<string>)
      requires Fresh(guid, username, strings)
      modifies this
      ensures Contents() == Apply(old(Contents()), Register(username, device, guid))
      ensures userid == if old(Lookup(strings, username)) != "" then None else Some(guid)
    {
      if Lookup(strings, username) != "" {
        return None;
      }
      strings := strings[guid := username];
      strings := strings[username := guid];
      ids := ids + {guid};
      devices := devices[guid := Members(devices, guid) + {device}];
      userid := Some(guid);
    }

    /** getUserIdByUsername and getUsernameByUserId are the same lookup. */
    method Get(key: string) returns (value: string)
      ensures value == Lookup(strings, key)
      ensures Paired(strings) && value != "" ==> Lookup(strings, value) == key
    {
      value := if key in strings then strings[key] else "";
    }

    /** userLogin. */
    method UserLogin(username: string, device: string) returns (userid: string)
      modifies this`logins, this`devices
      ensures Contents() == Apply(old(Contents()), Login(username, device))
      ensures userid == Lookup(strings, username) && userid in logins && device in Members(devices, userid)
      ensures forall id :: id != userid ==> Members(devices, id) == old(Members(devices, id))
    {
      userid := Get(username);
      logins := logins + {userid};
      devices := devices[userid := Members(devices, userid) + {device}];
    }

    /** addFriendsUseName: the friend's id joins the set of the user who asks, and no other set changes. */
    method AddFriend(username: string, friend: string) returns (info: UserInfo)
      modifies this`friends
      ensures Contents() == Apply(old(Contents()), Befriend(username, friend))
      ensures info == InfoOf(strings, devices, Lookup(strings, friend))
      ensures Members(friends, Lookup(strings, username))
           == old(Members(friends, Lookup(strings, username))) + {Lookup(strings, friend)}
      ensures forall id :: id != Lookup(strings, username) ==> Members(friends, id) == old(Members(friends, id))
    {
      var userid := Get(username);
      var userid2 := Get(friend);
      friends := friends[userid := Members(friends, userid) + {userid2}];
      var name := Get(userid2);
      info := UserInfo(userid2, name, Members(devices, userid2));
    }

    /** getUserFriends: reply is the order in which SMEMBERS listed the set. */
    method Friends(userid: string, reply: seq<string>) returns (list: List<UserInfo>)
      requires multiset(reply) == multiset(Members(friends, userid))
      ensures fresh(list) && fresh(list.nodes) && list.Valid()
      ensures |list.nodes| == |reply|
      ensures forall k :: 0 <= k < |reply| ==> list.nodes[|reply| - 1 - k].val == InfoOf(strings, devices, reply[k])
    {
      list := new List();
      var i := 0;
      while i < |reply|
        invariant i <= |reply| && fresh(list) && fresh(list.nodes) && list.Valid()
        invariant Values(list.nodes) == Infos(strings, devices, reply[..i])
      {
        var name := Get(reply[i]);
        Prepend(list, UserInfo(reply[i], name, Members(devices, reply[i])));
        assert reply[..i + 1][..i] == reply[..i];
        i := i + 1;
      }
      assert reply[..i] == reply;
      forall k: nat | k < |reply|
        ensures Values(list.nodes)[|reply| - 1 - k] == InfoOf(strings, devices, reply[k])
      {
        InfosAt(strings, devices, reply, k);
      }
    }
  }

  /** A registered user who befriends another finds it among its friends, by its name: reply is how SMEMBERS lists
      them. */
  method BefriendAndList(d: Directory, username: string, friend: string, reply: seq<string>)
    returns (list: List<UserInfo>, ghost k: nat)
    requires Sound(d.Contents()) && IsName(d.Contents(), username) && IsName(d.Contents(), friend)
    requires multiset(reply) == multiset(Members(d.friends, d.strings[username]) + {d.strings[friend]})
    modifies d`friends
    ensures list.Valid() && k < |list.nodes|
    ensures list.nodes[k].val.userid == d.strings[friend] && list.nodes[k].val.username == friend
    ensures list.nodes[k].val.devices == Members(d.devices, d.strings[friend])
    ensures d.strings == old(d.strings) && d.devices == old(d.devices)
  {
    ghost var friendid := d.strings[friend];
    var _ := d.AddFriend(username, friend);
    var userid := d.Get(username);
    list := d.Friends(userid, reply);
    assert friendid in multiset(reply);
    ghost var i :| 0 <= i < |reply| && reply[i] == friendid;
    k := |reply| - 1 - i;
    FriendIsUserIff(d.Contents(), username, friend);
  }

  /** list_lpush of a new node. */
  method Prepend(list: List<UserInfo>, info: UserInfo)
    requires list.Valid()
    modifies list, list.nodes
    ensures list.Valid() && |list.nodes| == |old(list.nodes)| + 1 && fresh(list.nodes[0])
    ensures list.nodes[1..] == old(list.nodes)
    ensures Values(list.nodes) == [info] + old(Values(list.nodes))
  {
    var node := new ListNode(info);
    var _ := list.LPush(node);
  }

  ghost function Values(nodes: seq<ListNode<UserInfo>>): (r: seq<UserInfo>)
    reads nodes
    ensures |r| == |nodes|
  {
    seq(|nodes|, i requires 0 <= i < |nodes| reads nodes => nodes[i].val)
  }
}
