/** The application state of the relay: client records, the nickname index and the channels
    (`ClientState`, `ClientRegistry`, `Channel`), and what it means to restrict it to survivors. */
module State {
  import opened Text

  type Fd = nat

  /** `Channel::canonicalNick`: plain lower-casing. */
  function Canonical(nick: string): (r: string)
    ensures r == "" <==> nick == ""
  {
    Lower(nick)
  }

  /** Two nicknames are the same nickname exactly if they differ in the case of letters only. */
  lemma NicknamesFold(a: string, b: string)
    ensures Canonical(a) == Canonical(b) <==> Upper(a) == Upper(b)
    ensures Canonical(a) == Canonical(b) <==>
            |a| == |b| && forall i :: 0 <= i < |a| ==>
              a[i] == b[i] || (UpperChar(a[i]) == UpperChar(b[i]) && LowerChar(a[i]) == LowerChar(b[i]))
  {
    forall i | 0 <= i < |a| == |b|
      ensures Canonical(a)[i] == Canonical(b)[i] <==> Upper(a)[i] == Upper(b)[i]
    {
      CasesAgree(a[i], b[i]);
    }
    if Canonical(a) == Canonical(b) {
      assert |a| == |Canonical(a)| == |b|;
    }
    if Upper(a) == Upper(b) {
      assert |a| == |Upper(a)| == |b|;
      assert forall i :: 0 <= i < |a| ==> Canonical(a)[i] == Canonical(b)[i];
    }
  }

  predicate ValidChannelName(name: string) {
    && |name| >= 2
    && (name[0] == '#' || name[0] == '&')
    && forall i :: 0 <= i < |name| ==> !IsSpace(name[i]) && name[i] != ',' && name[i] != 7 as char
  }

  predicate ValidNickname(nick: string) {
    && 0 < |nick| <= 30
    && !IsDigit(nick[0]) && nick[0] !in "#&:-"
    && forall i :: 0 <= i < |nick| ==> !IsSpace(nick[i]) && nick[i] !in ",*?!@"
  }

  datatype Channel = Channel(
    name: string,
    members: set<Fd>,
    operators: set<Fd>,
    invited: set<string>,
    inviteOnly: bool,
    topicProtected: bool,
    hasTopic: bool,
    topic: string)
  {
    function AddMember(fd: Fd, asOperator: bool): Channel {
      this.(members := members + {fd}, operators := if asOperator then operators + {fd} else operators)
    }

    function RemoveMember(fd: Fd): Channel {
      this.(members := members - {fd}, operators := operators - {fd})
    }

    function SetOperator(fd: Fd, enabled: bool): Channel {
      if fd !in members then this
      else this.(operators := if enabled then operators + {fd} else operators - {fd})
    }

    function Invite(nick: string): Channel {
      this.(invited := invited + {Canonical(nick)})
    }

    predicate IsInvited(nick: string) {
      Canonical(nick) in invited
    }

    function ClearInvite(nick: string): Channel {
      this.(invited := invited - {Canonical(nick)})
    }

    function SetTopic(text: string): Channel {
      this.(hasTopic := true, topic := text)
    }

    /** The channel as its surviving members see it. */
    function Keep(alive: set<Fd>): Channel {
      this.(members := members * alive, operators := operators * alive)
    }
  }

  function NewChannel(name: string): Channel {
    Channel(name, {}, {}, {}, false, true, false, "")
  }

  datatype Client = Client(
    passOk: bool,
    hasNick: bool,
    hasUser: bool,
    registered: bool,
    awaitingPong: bool,
    nick: string,
    user: string,
    realname: string,
    host: string,
    pendingPongToken: string,
    connectedAt: int,
    lastActivityAt: int,
    lastPingAt: int,
    window: seq<int>)

  function NewClient(host: string, passOk: bool, now: int): Client {
    Client(passOk, false, false, false, false, "", "", "", host, "", now, now, 0, [])
  }

  type Clients = map<Fd, Client>
  type Nicknames = map<string, Fd>
  type Rooms = map<string, Channel>

  datatype App = App(clients: Clients, nicks: Nicknames, channels: Rooms, tokens: nat)

  const EMPTY_APP := App(map[], map[], map[], 0)

  // ----- Well-formedness -----

  /** The three registration gates decide `registered`, a nickname is set exactly when non-empty, and what
      goes into a message prefix is made of words. */
  ghost predicate ClientOk(c: Client) {
    && (c.hasNick <==> c.nick != "")
    && (c.registered <==> c.passOk && c.hasNick && c.hasUser)
    && IsWord(c.nick) && IsWord(c.user) && IsWord(c.host)
  }

  /** The index holds, under its folded form, exactly each client's nickname. */
  ghost predicate IndexAgrees(clients: Clients, nicks: Nicknames) {
    && (forall n :: n in nicks ==>
        nicks[n] in clients && clients[nicks[n]].nick != "" && Canonical(clients[nicks[n]].nick) == n)
    && (forall f :: f in clients && clients[f].nick != "" ==>
          Canonical(clients[f].nick) in nicks && nicks[Canonical(clients[f].nick)] == f)
  }

  /** Stored under its own valid name, non-empty, operators among members, members registered clients, and
      a topic of one line. */
  ghost predicate RoomOk(name: string, ch: Channel, clients: Clients) {
    && ValidChannelName(name) && ch.name == name
    && ch.members != {} && ch.operators <= ch.members && Tidy(ch.topic)
    && forall m :: m in ch.members ==> m in clients && clients[m].registered
  }

  ghost predicate RoomsOk(rooms: Rooms, clients: Clients) {
    forall n :: n in rooms ==> RoomOk(n, rooms[n], clients)
  }

  ghost predicate ClientsOk(clients: Clients) {
    forall f :: f in clients ==> ClientOk(clients[f])
  }

  ghost predicate WF(a: App) {
    ClientsOk(a.clients) && IndexAgrees(a.clients, a.nicks) && RoomsOk(a.channels, a.clients)
  }

  /** No two live clients share a folded nickname. */
  lemma NicknamesAreUnique(a: App, f: Fd, g: Fd)
    requires WF(a) && f in a.clients && g in a.clients && f != g && a.clients[f].nick != ""
    ensures Canonical(a.clients[f].nick) != Canonical(a.clients[g].nick)
  {
    assert a.nicks[Canonical(a.clients[f].nick)] == f;
  }

  // ----- What there is to see of a channel, whether or not it exists -----

  function Operators(a: App, name: string): set<Fd> {
    if name in a.channels then a.channels[name].operators else {}
  }

  function Members(a: App, name: string): set<Fd> {
    if name in a.channels then a.channels[name].members else {}
  }

  function Invitations(a: App, name: string): set<string> {
    if name in a.channels then a.channels[name].invited else {}
  }

  predicate InviteOnly(a: App, name: string) {
    name in a.channels && a.channels[name].inviteOnly
  }

  predicate TopicGuarded(a: App, name: string) {
    name in a.channels && a.channels[name].topicProtected
  }

  function TopicOf(a: App, name: string): Option<string> {
    if name in a.channels && a.channels[name].hasTopic then Some(a.channels[name].topic) else None
  }

  // ----- Restriction to survivors -----

  function SurvivingClients(clients: Clients, alive: set<Fd>): Clients {
    map f | f in clients && f in alive :: clients[f]
  }

  function SurvivingNicks(nicks: Nicknames, alive: set<Fd>): Nicknames {
    map n | n in nicks && nicks[n] in alive :: nicks[n]
  }

  function SurvivingRooms(rooms: Rooms, alive: set<Fd>): Rooms {
    map n | n in rooms && rooms[n].members * alive != {} :: rooms[n].Keep(alive)
  }

  /** Exactly the surviving clients, with records unchanged; their index entries; and each channel that
      keeps a member, with its surviving members and operators and everything else unchanged. */
  function Survive(a: App, alive: set<Fd>): App {
    App(SurvivingClients(a.clients, alive), SurvivingNicks(a.nicks, alive), SurvivingRooms(a.channels, alive), a.tokens)
  }

  lemma SurviveKeys(a: App, alive: set<Fd>)
    requires alive <= a.clients.Keys
    ensures Survive(a, alive).clients.Keys == alive
  {}

  lemma KeepAll(ch: Channel, alive: set<Fd>)
    requires ch.members <= alive && ch.operators <= ch.members
    ensures ch.Keep(alive) == ch && ch.members * alive == ch.members
  {
    assert ch.members * alive == ch.members && ch.operators * alive == ch.operators;
  }

  lemma LeaveOne(ch: Channel, fd: Fd, everyone: set<Fd>)
    requires ch.members <= everyone && ch.operators <= ch.members
    ensures ch.RemoveMember(fd) == ch.Keep(everyone - {fd})
    ensures fd !in ch.members ==> ch.Keep(everyone - {fd}) == ch
  {
    assert ch.members * (everyone - {fd}) == ch.members - {fd};
    assert ch.operators * (everyone - {fd}) == ch.operators - {fd};
    assert fd !in ch.members ==> ch.members - {fd} == ch.members && ch.operators - {fd} == ch.operators;
  }

  lemma KeepTwice(ch: Channel, first: set<Fd>, second: set<Fd>)
    requires second <= first
    ensures ch.Keep(first).Keep(second) == ch.Keep(second)
    ensures ch.members * first * second == ch.members * second
  {
    assert ch.members * first * second == ch.members * second;
    assert ch.operators * first * second == ch.operators * second;
  }

  /** When everyone survives nothing changes. */
  lemma SurviveAll(a: App, alive: set<Fd>)
    requires WF(a) && a.clients.Keys <= alive
    ensures Survive(a, alive) == a
  {
    assert SurvivingClients(a.clients, alive) == a.clients;
    assert SurvivingNicks(a.nicks, alive) == a.nicks;
    assert SurvivingRooms(a.channels, alive) == a.channels by {
      forall n | n in a.channels
        ensures n in SurvivingRooms(a.channels, alive) && SurvivingRooms(a.channels, alive)[n] == a.channels[n]
      {
        assert RoomOk(n, a.channels[n], a.clients);
        KeepAll(a.channels[n], alive);
      }
    }
  }

  lemma SurvivingRoomsTwice(rooms: Rooms, first: set<Fd>, second: set<Fd>)
    requires second <= first
    ensures SurvivingRooms(SurvivingRooms(rooms, first), second) == SurvivingRooms(rooms, second)
  {
    var once := SurvivingRooms(rooms, first);
    var twice, direct := SurvivingRooms(once, second), SurvivingRooms(rooms, second);
    forall n | n in rooms
      ensures n in twice <==> n in direct
      ensures n in twice ==> twice[n] == direct[n]
    {
      KeepTwice(rooms[n], first, second);
      assert rooms[n].members * second <= rooms[n].members * first;
    }
  }

  /** Restricting in stages, in whatever nesting, is restricting once to those left at the end. */
  lemma SurviveTwice(a: App, first: set<Fd>, second: set<Fd>)
    requires second <= first
    ensures Survive(Survive(a, first), second) == Survive(a, second)
  {
    SurvivingRoomsTwice(a.channels, first, second);
    assert SurvivingClients(SurvivingClients(a.clients, first), second) == SurvivingClients(a.clients, second);
    assert SurvivingNicks(SurvivingNicks(a.nicks, first), second) == SurvivingNicks(a.nicks, second);
  }

  lemma SurviveWF(a: App, alive: set<Fd>)
    requires WF(a)
    ensures WF(Survive(a, alive))
  {
    var b := Survive(a, alive);
    forall n | n in b.channels
      ensures RoomOk(n, b.channels[n], b.clients)
    {
      assert RoomOk(n, a.channels[n], a.clients);
    }
    assert IndexAgrees(b.clients, b.nicks);
  }

  // ----- Restricting the channels one at a time -----

  /** The channels when those not `waiting` have been restricted. */
  ghost function PartlyKept(rooms: Rooms, waiting: set<string>, alive: set<Fd>): Rooms {
    map n | n in rooms :: if n in waiting then rooms[n] else rooms[n].Keep(alive)
  }

  ghost function Emptied(rooms: Rooms, waiting: set<string>, alive: set<Fd>): set<string> {
    set n | n in rooms && n !in waiting && rooms[n].members * alive == {}
  }

  lemma KeepNext(rooms: Rooms, waiting: set<string>, alive: set<Fd>, name: string)
    requires name in rooms && name in waiting
    ensures PartlyKept(rooms, waiting - {name}, alive) ==
            PartlyKept(rooms, waiting, alive)[name := rooms[name].Keep(alive)]
    ensures Emptied(rooms, waiting - {name}, alive) ==
            Emptied(rooms, waiting, alive) + if rooms[name].members * alive == {} then {name} else {}
  {}

  lemma KeepEnds(rooms: Rooms, alive: set<Fd>)
    ensures PartlyKept(rooms, {}, alive) - Emptied(rooms, {}, alive) == SurvivingRooms(rooms, alive)
    ensures PartlyKept(rooms, rooms.Keys, alive) == rooms && Emptied(rooms, rooms.Keys, alive) == {}
  {}

  // ----- Who shares a channel -----

  function CoMembers(rooms: Rooms, fd: Fd): set<Fd> {
    set n, m | n in rooms && fd in rooms[n].members && m in rooms[n].members && m != fd :: m
  }

  lemma CoMembersShrink(rooms: Rooms, alive: set<Fd>, fd: Fd)
    ensures CoMembers(SurvivingRooms(rooms, alive), fd) <= CoMembers(rooms, fd)
  {
    var left := SurvivingRooms(rooms, alive);
    forall m | m in CoMembers(left, fd)
      ensures m in CoMembers(rooms, fd)
    {
      var n :| n in left && fd in left[n].members && m in left[n].members && m != fd;
      assert n in rooms && fd in rooms[n].members && m in rooms[n].members;
    }
  }

  lemma CoMembersStay(rooms: Rooms, alive: set<Fd>, fd: Fd, m: Fd)
    requires m in CoMembers(rooms, fd) && fd in alive && m in alive
    ensures m in CoMembers(SurvivingRooms(rooms, alive), fd)
  {
    var left := SurvivingRooms(rooms, alive);
    var n :| n in rooms && fd in rooms[n].members && m in rooms[n].members && m != fd;
    assert m in rooms[n].members * alive;
    assert n in left && fd in left[n].members && m in left[n].members;
  }

  /** Everyone in some channel with `fd`, itself included if it is in any. */
  function Circle(rooms: Rooms, fd: Fd): set<Fd> {
    set n, m | n in rooms && fd in rooms[n].members && m in rooms[n].members :: m
  }

  ghost function CircleIn(rooms: Rooms, names: set<string>, fd: Fd): set<Fd>
    requires names <= rooms.Keys
  {
    set n, m | n in names && fd in rooms[n].members && m in rooms[n].members :: m
  }

  lemma CircleStep(rooms: Rooms, names: set<string>, fd: Fd, name: string)
    requires names <= rooms.Keys && name in rooms
    ensures CircleIn(rooms, names + {name}, fd) ==
            CircleIn(rooms, names, fd) + if fd in rooms[name].members then rooms[name].members else {}
  {}

  lemma CircleDone(rooms: Rooms, fd: Fd)
    ensures CircleIn(rooms, rooms.Keys, fd) == Circle(rooms, fd) && CircleIn(rooms, {}, fd) == {}
  {}

  lemma CircleWithoutSelf(rooms: Rooms, fd: Fd)
    ensures CoMembers(rooms, fd) == Circle(rooms, fd) - {fd}
  {}
}
