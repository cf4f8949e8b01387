/** What each command does to the application state, as functions: the meaning against which the handlers
    of the running relay are proved. A send inside a handler may end connections, so a meaning takes the
    set of clients left after it (`alive`) or, where the code looks at its state again between sends, the
    sets left after each stretch (`stages`). */
module Commands {
  import opened Text
  import opened Messages
  import opened State
  import Transport

  const SERVER_NAME: Address := "irc.relay.local"

  datatype Config = Config(
    password: string,
    maxLine: nat,
    maxPending: Transport.Size,
    maxConnections: nat,
    rateLimitCount: nat,
    rateLimitWindow: int,
    idleTimeout: int,
    pingTimeout: int,
    registrationTimeout: int)

  function WithClient(a: App, fd: Fd, c: Client): App {
    a.(clients := a.clients[fd := c])
  }

  function WithRoom(a: App, name: string, ch: Channel): App {
    a.(channels := a.channels[name := ch])
  }

  function FindNick(a: App, nick: string): Option<Fd> {
    if Canonical(nick) in a.nicks then Some(a.nicks[Canonical(nick)]) else None
  }

  lemma IndexIgnoresRest(clients: Clients, nicks: Nicknames, fd: Fd, c: Client)
    requires IndexAgrees(clients, nicks)
    requires if fd in clients then c.nick == clients[fd].nick else c.nick == ""
    ensures IndexAgrees(clients[fd := c], nicks)
  {
    hide Canonical;
  }

  lemma WithClientWF(a: App, fd: Fd, c: Client)
    requires WF(a) && fd in a.clients && ClientOk(c)
    requires c.nick == a.clients[fd].nick && (a.clients[fd].registered ==> c.registered)
    ensures WF(WithClient(a, fd, c))
  {
    hide ValidChannelName, Canonical, IndexAgrees;
    var b := WithClient(a, fd, c);
    IndexIgnoresRest(a.clients, a.nicks, fd, c);
    forall n | n in b.channels
      ensures RoomOk(n, b.channels[n], b.clients)
    {
      assert RoomOk(n, a.channels[n], a.clients);
    }
  }

  lemma WithClientTwice(a: App, fd: Fd, c: Client, d: Client)
    ensures WithClient(WithClient(a, fd, c), fd, d) == WithClient(a, fd, d)
  {
    assert a.clients[fd := c][fd := d] == a.clients[fd := d];
  }

  lemma WithRoomWF(a: App, name: string, ch: Channel)
    requires WF(a) && RoomOk(name, ch, a.clients)
    ensures WF(WithRoom(a, name, ch))
  {
    hide RoomOk;
  }

  // ----- Connecting -----

  function Connected(cfg: Config, a: App, fd: Fd, host: string, now: int): App {
    WithClient(a, fd, NewClient(host, cfg.password == "", now))
  }

  lemma ConnectedWF(cfg: Config, a: App, fd: Fd, host: string, now: int)
    requires WF(a) && fd !in a.clients && IsWord(host)
    ensures WF(Connected(cfg, a, fd, host, now))
  {
    hide ValidChannelName, Canonical, IndexAgrees;
    var b := Connected(cfg, a, fd, host, now);
    IndexIgnoresRest(a.clients, a.nicks, fd, b.clients[fd]);
    forall n | n in b.channels
      ensures RoomOk(n, b.channels[n], b.clients)
    {
      assert RoomOk(n, a.channels[n], a.clients);
    }
  }

  lemma ConnectedAddsOne(cfg: Config, a: App, fd: Fd, host: string, now: int)
    requires fd !in a.clients
    ensures var b := Connected(cfg, a, fd, host, now);
            && b == a.(clients := a.clients[fd := NewClient(host, cfg.password == "", now)])
            && b.clients.Keys == a.clients.Keys + {fd} && !b.clients[fd].registered
            && forall f :: f in a.clients ==> b.clients[f] == a.clients[f]
  {}

  // ----- Registration -----

  /** All three gates passed but not yet registered: register. */
  function Registered(c: Client): Client {
    if !c.registered && c.passOk && c.hasNick && c.hasUser then c.(registered := true) else c
  }

  lemma RegisteredCases(c: Client)
    ensures !c.registered && c.passOk && c.hasNick && c.hasUser ==> Registered(c) == c.(registered := true)
    ensures c.registered || !c.passOk || !c.hasNick || !c.hasUser ==> Registered(c) == c
  {}

  function Passed(cfg: Config, a: App, fd: Fd, params: seq<string>): App
    requires fd in a.clients
  {
    var c := a.clients[fd];
    if c.registered || c.passOk || params == [] || (cfg.password != "" && params[0] != cfg.password) then a
    else WithClient(a, fd, Registered(c.(passOk := true)))
  }

  function Described(a: App, fd: Fd, params: seq<string>): App
    requires fd in a.clients
  {
    var c := a.clients[fd];
    if c.registered || |params| < 4 then a
    else WithClient(a, fd, Registered(c.(user := params[0], realname := params[3], hasUser := true)))
  }

  /** `ClientRegistry::setNickname`. */
  function Nicknamed(a: App, fd: Fd, nick: string): App
    requires fd in a.clients
  {
    var c := a.clients[fd];
    var freed := if c.nick != "" then a.nicks - {Canonical(c.nick)} else a.nicks;
    WithClient(a, fd, c.(nick := nick, hasNick := true)).(nicks := freed[Canonical(nick) := fd])
  }

  predicate MayTake(a: App, fd: Fd, params: seq<string>) {
    && params != [] && ValidNickname(params[0])
    && (FindNick(a, params[0]).None? || FindNick(a, params[0]).value == fd)
  }

  function Renamed(a: App, fd: Fd, params: seq<string>): App
    requires fd in a.clients
  {
    if !MayTake(a, fd, params) then a
    else
      var b := Nicknamed(a, fd, params[0]);
      WithClient(b, fd, Registered(b.clients[fd]))
  }

  /** Taking a nickname keeps the index in step with the client records exactly when nobody else owns it. */
  lemma NicknamedKeepsIndex(a: App, fd: Fd, nick: string)
    requires WF(a) && fd in a.clients && nick != ""
    ensures var b := Nicknamed(a, fd, nick);
            IndexAgrees(b.clients, b.nicks) <==> (FindNick(a, nick).None? || FindNick(a, nick).value == fd)
  {
    hide RoomsOk, ClientsOk, Canonical;
    var b := Nicknamed(a, fd, nick);
    var folded := Canonical(nick);
    if folded in a.nicks && a.nicks[folded] != fd {
      var owner := a.nicks[folded];
      assert b.clients[owner] == a.clients[owner] && b.nicks[folded] == fd;
    }
  }

  lemma RenamedWF(a: App, fd: Fd, params: seq<string>)
    requires WF(a) && fd in a.clients
    ensures WF(Renamed(a, fd, params))
  {
    hide ValidChannelName, Canonical, IndexAgrees, ValidNickname, IsWord;
    if MayTake(a, fd, params) {
      NicknamesAreNotEmpty(params[0]);
      NicknamedKeepsIndex(a, fd, params[0]);
      var b := Renamed(a, fd, params);
      var named := Nicknamed(a, fd, params[0]);
      IndexIgnoresRest(named.clients, named.nicks, fd, Registered(named.clients[fd]));
      forall n | n in b.channels
        ensures RoomOk(n, b.channels[n], b.clients)
      {
        assert RoomOk(n, a.channels[n], a.clients);
      }
    }
  }

  lemma NicknamesAreNotEmpty(nick: string)
    ensures ValidNickname(nick) ==> nick != "" && IsWord(nick)
  {}

  lemma PassedWF(cfg: Config, a: App, fd: Fd, params: seq<string>)
    requires WF(a) && fd in a.clients
    ensures WF(Passed(cfg, a, fd, params))
  {
    var c := a.clients[fd];
    if Passed(cfg, a, fd, params) != a {
      WithClientWF(a, fd, Registered(c.(passOk := true)));
    }
  }

  lemma DescribedWF(a: App, fd: Fd, params: seq<string>)
    requires WF(a) && fd in a.clients && Decent(params)
    ensures WF(Described(a, fd, params))
  {
    var c := a.clients[fd];
    if !(c.registered || |params| < 4) {
      assert !NeedsMarker(params[0]) && Tidy(params[0]);
      WithClientWF(a, fd, Registered(c.(user := params[0], realname := params[3], hasUser := true)));
    }
  }

  // ----- Channels -----

  function JoinOne(a: App, fd: Fd, name: string): App {
    if fd !in a.clients || !ValidChannelName(name) then a
    else if name !in a.channels then
      WithRoom(a, name, NewChannel(name).AddMember(fd, true).ClearInvite(a.clients[fd].nick))
    else
      var ch, nick := a.channels[name], a.clients[fd].nick;
      if fd in ch.members || (ch.inviteOnly && !ch.IsInvited(nick)) then a
      else WithRoom(a, name, ch.AddMember(fd, false).ClearInvite(nick))
  }

  /** JOIN of a list: one name at a time, each followed by what its sends brought about. */
  function JoinRun(a: App, fd: Fd, names: seq<string>, stages: seq<set<Fd>>): App
    requires |stages| <= |names|
  {
    if stages == [] then a
    else
      var k := |stages| - 1;
      Survive(JoinOne(JoinRun(a, fd, names, stages[..k]), fd, names[k]), stages[k])
  }

  function RoomsOf(rooms: Rooms, fd: Fd): set<string> {
    set n | n in rooms && fd in rooms[n].members
  }

  /** Who is left of a channel when `fd` also leaves the channels in `names`. */
  function Staying(fd: Fd, names: set<string>, alive: set<Fd>, name: string): set<Fd> {
    if name in names then alive - {fd} else alive
  }

  function LeftRooms(rooms: Rooms, fd: Fd, names: set<string>, alive: set<Fd>): Rooms {
    map n | n in rooms && rooms[n].members * Staying(fd, names, alive, n) != {} ::
      rooms[n].Keep(Staying(fd, names, alive, n))
  }

  function Left(a: App, fd: Fd, names: set<string>, alive: set<Fd>): App {
    Survive(a, alive).(channels := LeftRooms(a.channels, fd, names, alive))
  }

  /** Take one client out of one channel, if there, and drop the channel if that empties it. */
  function Removed(a: App, name: string, fd: Fd): App {
    if name !in a.channels then a
    else
      var ch := a.channels[name].RemoveMember(fd);
      a.(channels := if ch.members == {} then a.channels - {name} else a.channels[name := ch])
  }

  function KickTarget(a: App, fd: Fd, params: seq<string>): Option<Fd> {
    if |params| < 2 || params[0] !in a.channels then None
    else
      var ch, target := a.channels[params[0]], FindNick(a, params[1]);
      if fd !in ch.members || fd !in ch.operators || target.None? || target.value !in ch.members then None else target
  }

  function Kicked(a: App, fd: Fd, params: seq<string>, alive: set<Fd>): App {
    var target := KickTarget(a, fd, params);
    if target.None? then Survive(a, alive) else Removed(Survive(a, alive), params[0], target.value)
  }

  predicate MayInvite(a: App, fd: Fd, params: seq<string>) {
    && |params| >= 2 && params[1] in a.channels && FindNick(a, params[0]).Some?
    && var ch := a.channels[params[1]];
       && fd in ch.members
       && (ch.inviteOnly ==> fd in ch.operators)
       && FindNick(a, params[0]).value !in ch.members
  }

  function Invited(a: App, fd: Fd, params: seq<string>): App {
    if MayInvite(a, fd, params) then WithRoom(a, params[1], a.channels[params[1]].Invite(params[0])) else a
  }

  predicate MayRetitle(a: App, fd: Fd, params: seq<string>) {
    && |params| >= 2 && params[0] in a.channels
    && var ch := a.channels[params[0]];
       fd in ch.members && (ch.topicProtected ==> fd in ch.operators)
  }

  function Retitled(a: App, fd: Fd, params: seq<string>): App {
    if MayRetitle(a, fd, params) then WithRoom(a, params[0], a.channels[params[0]].SetTopic(params[1])) else a
  }

  // ----- Channel modes -----

  /** The state of the mode-string loop. */
  datatype Modes = Modes(app: App, adding: bool, arg: nat)

  predicate MayChangeModes(a: App, fd: Fd, params: seq<string>) {
    && |params| >= 2 && params[0] in a.channels
    && fd in a.channels[params[0]].members && fd in a.channels[params[0]].operators
  }

  /** The member a `+o` or `-o` names, if its argument is there and names a member. */
  function ModeTarget(a: App, params: seq<string>, arg: nat): Option<Fd>
    requires params != []
  {
    if arg >= |params| || params[0] !in a.channels then None
    else
      var target := FindNick(a, params[arg]);
      if target.Some? && target.value in a.clients && target.value in a.channels[params[0]].members then target
      else None
  }

  function ModeRoom(s: Modes, params: seq<string>, mode: char): App
    requires params != []
  {
    var name := params[0];
    if name !in s.app.channels then s.app
    else
      var ch := s.app.channels[name];
      if mode == 'i' then WithRoom(s.app, name, ch.(inviteOnly := s.adding))
      else if mode == 't' then WithRoom(s.app, name, ch.(topicProtected := s.adding))
      else if mode == 'o' && ModeTarget(s.app, params, s.arg).Some? then
        WithRoom(s.app, name, ch.SetOperator(ModeTarget(s.app, params, s.arg).value, s.adding))
      else s.app
  }

  function ModeStep(s: Modes, params: seq<string>, mode: char, alive: set<Fd>): Modes
    requires params != []
  {
    Modes(Survive(ModeRoom(s, params, mode), alive),
          if mode == '+' then true else if mode == '-' then false else s.adding,
          if mode == 'o' && s.arg < |params| then s.arg + 1 else s.arg)
  }

  function ModeRun(a: App, params: seq<string>, stages: seq<set<Fd>>): Modes
    requires |params| >= 2 && |stages| <= |params[1]|
  {
    if stages == [] then Modes(a, true, 2)
    else
      var k := |stages| - 1;
      ModeStep(ModeRun(a, params, stages[..k]), params, params[1][k], stages[k])
  }

  // ----- Timers -----

  /** What a tick finds for one client. */
  datatype Verdict = RegistrationExpired | PongExpired | Probe | Fine

  function Judge(cfg: Config, c: Client, now: int): Verdict {
    if !c.registered && now - c.connectedAt >= cfg.registrationTimeout then RegistrationExpired
    else if cfg.idleTimeout <= 0 then Fine
    else if c.awaitingPong && now - c.lastPingAt >= cfg.pingTimeout then PongExpired
    else if !c.awaitingPong && now - c.lastActivityAt >= cfg.idleTimeout then Probe
    else Fine
  }

  function Token(fd: Fd, n: nat): string {
    "heartbeat-" + Decimal(fd) + "-" + Decimal(n)
  }

  function Probed(c: Client, token: string, now: int): Client {
    c.(awaitingPong := true, pendingPongToken := token, lastPingAt := now)
  }

  function Maintained(cfg: Config, a: App, fd: Fd, now: int): App {
    if fd in a.clients && Judge(cfg, a.clients[fd], now).Probe? then
      WithClient(a, fd, Probed(a.clients[fd], Token(fd, a.tokens + 1), now)).(tokens := a.tokens + 1)
    else a
  }

  /** A tick: each client in turn, each followed by what its sends brought about. */
  function TickRun(cfg: Config, a: App, now: int, order: seq<Fd>, stages: seq<set<Fd>>): App
    requires |stages| <= |order|
  {
    if stages == [] then a
    else
      var k := |stages| - 1;
      Survive(Maintained(cfg, TickRun(cfg, a, now, order, stages[..k]), order[k], now), stages[k])
  }

  function Ponged(a: App, fd: Fd, params: seq<string>): App
    requires fd in a.clients
  {
    var c := a.clients[fd];
    if !c.awaitingPong || |params| != 1 || params[0] != c.pendingPongToken then a
    else WithClient(a, fd, c.(awaitingPong := false, pendingPongToken := "", lastPingAt := 0))
  }

  // ----- Rate limit -----

  /** Front entries that fell out of the window are popped. */
  function PopOld(window: seq<int>, now: int, width: int): seq<int> {
    if window != [] && now - window[0] >= width then PopOld(window[1..], now, width) else window
  }

  function Recorded(cfg: Config, c: Client, now: int): Client {
    c.(window := PopOld(c.window, now, cfg.rateLimitWindow) + [now])
  }

  predicate WithinRate(cfg: Config, c: Client) {
    cfg.rateLimitCount == 0 || |c.window| <= cfg.rateLimitCount
  }

  // ----- One line -----

  datatype Verb = Pass | Nick | User | Ping | Pong | QuitVerb | Privmsg | Join | Part | Topic | Kick | Invite | Mode
                | List | Names | Metrics | Unknown

  function VerbOf(command: string): Verb {
    match command
    case "PASS" => Pass
    case "NICK" => Nick
    case "USER" => User
    case "PING" => Ping
    case "PONG" => Pong
    case "QUIT" => QuitVerb
    case "PRIVMSG" => Privmsg
    case "JOIN" => Join
    case "PART" => Part
    case "TOPIC" => Topic
    case "KICK" => Kick
    case "INVITE" => Invite
    case "MODE" => Mode
    case "LIST" => List
    case "NAMES" => Names
    case "METRICS" => Metrics
    case _ => Unknown
  }

  predicate IsChannelTarget(target: string) {
    target != "" && (target[0] == '#' || target[0] == '&')
  }

  function SetOf(names: seq<string>): set<string> {
    set n | n in names
  }

  function Joined(a: App, fd: Fd, params: seq<string>, alive: set<Fd>, stages: seq<set<Fd>>): App
    requires params != [] ==> |stages| <= |Pieces(params[0])|
  {
    if params == [] then Survive(a, alive)
    else if params[0] == "0" then Left(a, fd, RoomsOf(a.channels, fd), alive)
    else JoinRun(a, fd, Pieces(params[0]), stages)
  }

  function Moded(a: App, fd: Fd, params: seq<string>, alive: set<Fd>, stages: seq<set<Fd>>): App
    requires |params| >= 2 ==> |stages| <= |params[1]|
  {
    if params != [] && IsChannelTarget(params[0]) && MayChangeModes(a, fd, params) then ModeRun(a, params, stages).app
    else Survive(a, alive)
  }

  /** How a command went: who was left at the end, and at the stages of a JOIN list or a mode string. */
  datatype Course = Course(alive: set<Fd>, stages: seq<set<Fd>>)

  predicate Matches(m: Message, course: Course) {
    && (VerbOf(m.command).Join? && m.params != [] ==> |course.stages| <= |Pieces(m.params[0])|)
    && (VerbOf(m.command).Mode? && |m.params| >= 2 ==> |course.stages| <= |m.params[1]|)
  }

  /** The commands open to registered clients only. */
  function RegisteredHandled(a: App, fd: Fd, m: Message, course: Course): App
    requires Matches(m, course)
  {
    var alive := course.alive;
    match VerbOf(m.command)
    case Join => Joined(a, fd, m.params, alive, course.stages)
    case Part => if m.params == [] then Survive(a, alive) else Left(a, fd, SetOf(Pieces(m.params[0])), alive)
    case Topic => Survive(Retitled(a, fd, m.params), alive)
    case Kick => Kicked(a, fd, m.params, alive)
    case Invite => Survive(Invited(a, fd, m.params), alive)
    case Mode => Moded(a, fd, m.params, alive, course.stages)
    case _ => Survive(a, alive)
  }

  /** `IrcApplication::handleMessage`: registration commands first, the rest only once registered. */
  function Handled(cfg: Config, a: App, fd: Fd, m: Message, course: Course): App
    requires fd in a.clients && Matches(m, course)
  {
    var alive := course.alive;
    match VerbOf(m.command)
    case Pass => Survive(Passed(cfg, a, fd, m.params), alive)
    case Nick => Survive(Renamed(a, fd, m.params), alive)
    case User => Survive(Described(a, fd, m.params), alive)
    case Ping => Survive(a, alive)
    case Pong => Survive(Ponged(a, fd, m.params), alive)
    case QuitVerb => Survive(a, alive)
    case _ => if a.clients[fd].registered then RegisteredHandled(a, fd, m, course) else Survive(a, alive)
  }

  function Touched(a: App, fd: Fd, now: int): App
    requires fd in a.clients
  {
    WithClient(a, fd, a.clients[fd].(lastActivityAt := now))
  }

  function Counted(cfg: Config, a: App, fd: Fd, now: int): App
    requires fd in a.clients
  {
    WithClient(a, fd, Recorded(cfg, a.clients[fd], now))
  }

  predicate LineMatches(line: string, course: Course) {
    Parse(line).Parsed? ==> Matches(Parse(line).message, course)
  }

  /** `IrcApplication::onLine`. */
  function LineHandled(cfg: Config, a: App, fd: Fd, line: string, now: int, course: Course): App
    requires fd in a.clients && LineMatches(line, course)
  {
    var touched := Touched(a, fd, now);
    match Parse(line)
    case Rejected(_) => Survive(touched, course.alive)
    case Parsed(m) =>
      var counted := Counted(cfg, touched, fd, now);
      if WithinRate(cfg, counted.clients[fd]) then Handled(cfg, counted, fd, m, course)
      else Survive(counted, course.alive)
  }
}
