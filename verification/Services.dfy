/** What serving a command means for everybody concerned: which reply its issuer has, which lines the others
    have, command by command. A reply or line counts as had when it was accepted for a client that is neither
    gone nor closing (`Reached`). */
module Services {
  import opened Text
  import opened Transport
  import opened Messages
  import opened State
  import opened Worlds
  import opened Commands
  import opened Runs
  import opened Effects
  import opened Replies

  /** A numeric reply without its closing words. */
  datatype Numeric = Numeric(code: nat, params: seq<string>)

  ghost predicate Answered(w: World, w': World, fd: Fd, reply: Numeric) {
    Reached(w, w', {fd}, NumericLine(w.app.clients, fd, reply.code, reply.params))
  }

  /** The reply is all that was sent. */
  ghost predicate OnlyAnswered(w: World, w': World, fd: Fd, reply: Numeric) {
    Answered(w, w', fd, reply) && Sends(w, w', {}, {fd})
  }

  /** Beyond farewells only those in `free` were sent anything, and those in `once` at most one line each. */
  ghost predicate Sends(w: World, w': World, free: set<Fd>, once: set<Fd>) {
    Confined(w.log.attempts, w'.log.attempts, free, once)
  }

  function PrefixOf(clients: Clients, fd: Fd): string {
    if fd in clients && clients[fd].nick != "" then HostMask(clients[fd]) else SERVER_NAME
  }

  /** A line in the name of `fd`. */
  function LineFrom(clients: Clients, fd: Fd, command: string, params: seq<string>): string {
    Format(Message(PrefixOf(clients, fd), command, params))
  }

  /** The same connections, queues and application state. */
  ghost predicate Alike(u: World, v: World) {
    u.connections == v.connections && u.log == v.log && u.app == v.app
  }

  // ----- Refusals -----

  function ChannelRefusal(a: App, fd: Fd, name: string, membership: bool): Option<Numeric> {
    if name !in a.channels then Some(Numeric(403, [name]))
    else if membership && fd !in a.channels[name].members then Some(Numeric(442, [name]))
    else None
  }

  function PassRefusal(c: Client, params: seq<string>): Option<Numeric> {
    if c.registered || c.passOk then Some(Numeric(462, []))
    else if params == [] then Some(Numeric(461, ["PASS"]))
    else None
  }

  function UserRefusal(c: Client, params: seq<string>): Option<Numeric> {
    if c.registered then Some(Numeric(462, [])) else if |params| < 4 then Some(Numeric(461, ["USER"])) else None
  }

  function NickRefusal(a: App, fd: Fd, params: seq<string>): Option<Numeric> {
    if params == [] then Some(Numeric(431, []))
    else if !ValidNickname(params[0]) then Some(Numeric(432, [params[0]]))
    else if FindNick(a, params[0]).Some? && FindNick(a, params[0]).value != fd then Some(Numeric(433, [params[0]]))
    else None
  }

  function TopicRefusal(a: App, fd: Fd, params: seq<string>): Option<Numeric> {
    if params == [] then Some(Numeric(461, ["TOPIC"]))
    else if ChannelRefusal(a, fd, params[0], true).Some? then ChannelRefusal(a, fd, params[0], true)
    else if |params| > 1 && a.channels[params[0]].topicProtected && fd !in a.channels[params[0]].operators then
      Some(Numeric(482, [params[0]]))
    else None
  }

  function KickRefusal(a: App, fd: Fd, params: seq<string>): Option<Numeric> {
    if |params| < 2 then Some(Numeric(461, ["KICK"]))
    else if ChannelRefusal(a, fd, params[0], true).Some? then ChannelRefusal(a, fd, params[0], true)
    else if fd !in a.channels[params[0]].operators then Some(Numeric(482, [params[0]]))
    else if FindNick(a, params[1]).None? then Some(Numeric(401, [params[1]]))
    else if FindNick(a, params[1]).value !in a.channels[params[0]].members then
      Some(Numeric(441, [params[1], params[0]]))
    else None
  }

  function InviteRefusal(a: App, fd: Fd, params: seq<string>): Option<Numeric> {
    if |params| < 2 then Some(Numeric(461, ["INVITE"]))
    else if FindNick(a, params[0]).None? then Some(Numeric(401, [params[0]]))
    else if ChannelRefusal(a, fd, params[1], true).Some? then ChannelRefusal(a, fd, params[1], true)
    else if a.channels[params[1]].inviteOnly && fd !in a.channels[params[1]].operators then
      Some(Numeric(482, [params[1]]))
    else if FindNick(a, params[0]).value in a.channels[params[1]].members then
      Some(Numeric(443, [params[0], params[1]]))
    else None
  }

  /** `Channel::modeString`. */
  function ModeString(ch: Channel): string {
    "+" + (if ch.inviteOnly then "i" else "") + if ch.topicProtected then "t" else ""
  }

  /** The reply to a MODE that changes nothing. */
  function ModeReply(a: App, fd: Fd, params: seq<string>): Option<Numeric> {
    if params == [] then Some(Numeric(461, ["MODE"]))
    else if !IsChannelTarget(params[0]) then
      var target := FindNick(a, params[0]);
      if target.None? then Some(Numeric(401, [params[0]]))
      else if |params| == 1 then Some(Numeric(221, ["+"]))
      else Some(Numeric(if target.value != fd then 502 else 501, []))
    else if ChannelRefusal(a, fd, params[0], false).Some? then ChannelRefusal(a, fd, params[0], false)
    else if |params| == 1 then Some(Numeric(324, [params[0], ModeString(a.channels[params[0]])]))
    else if ChannelRefusal(a, fd, params[0], true).Some? then ChannelRefusal(a, fd, params[0], true)
    else if fd !in a.channels[params[0]].operators then Some(Numeric(482, [params[0]]))
    else None
  }

  /** A command is refused exactly when it changes nothing: KICK takes nobody out, INVITE stores nothing, TOPIC
      with a text sets nothing, NICK takes nothing, MODE runs nothing. */
  lemma RefusedChangesNothing(a: App, fd: Fd, params: seq<string>)
    requires WF(a) && fd in a.clients
    ensures KickRefusal(a, fd, params).Some? <==> Kickees(a, fd, params) == {}
    ensures InviteRefusal(a, fd, params).Some? <==> !MayAsk(a, fd, params)
    ensures |params| >= 2 ==>
              (TopicRefusal(a, fd, params).None? <==>
               fd in Members(a, params[0]) && (TopicGuarded(a, params[0]) ==> fd in Operators(a, params[0])))
    ensures NickRefusal(a, fd, params).None? <==> params != [] && ValidNickname(params[0]) && Free(a, fd, params[0])
  {
    hide WF, Kickees, MayAsk, FindNick, Free, ValidNickname, Canonical;
    KickeesAreTarget(a, fd, params);
    MayAskIsMayInvite(a, fd, params);
    FreeIsMayTake(a, fd, params);
  }

  lemma ModeActsUnlessAnswered(a: App, fd: Fd, params: seq<string>)
    requires WF(a)
    ensures ModeReply(a, fd, params).None? <==> |params| >= 2 && fd in Operators(a, params[0])
  {
    hide IndexAgrees, ClientsOk, FindNick;
    if params != [] && params[0] in a.channels {
      assert RoomOk(params[0], a.channels[params[0]], a.clients);
    }
  }

  // ----- Registration -----

  /** A client that is gone or closing is owed no greeting. */
  lemma NotWelcomed(w: World, w': World, fd: Fd, nick: string)
    requires Ending(w'.connections, fd)
    ensures Welcomed(w, w', fd, nick)
  {
    hide Format, Code;
  }

  lemma WelcomedSameWires(w: World, v: World, w': World, fd: Fd, nick: string)
    requires Welcomed(w, w', fd, nick) && v.log.lines == w.log.lines
    ensures Welcomed(v, w', fd, nick)
  {
    hide Reached, Format, Code;
    ReachedSameWires(w, v, w', w', {fd}, Format(Message(SERVER_NAME, "001", [nick])));
    ReachedSameWires(w, v, w', w', {fd}, Format(Message(SERVER_NAME, Code(2), [nick])));
    ReachedSameWires(w, v, w', w', {fd}, Format(Message(SERVER_NAME, Code(3), [nick])));
  }

  /** A client just registered has its welcome and the two lines after it. */
  ghost predicate Welcomed(w: World, w': World, fd: Fd, nick: string) {
    && Reached(w, w', {fd}, Format(Message(SERVER_NAME, "001", [nick])))
    && Reached(w, w', {fd}, Format(Message(SERVER_NAME, Code(2), [nick])))
    && Reached(w, w', {fd}, Format(Message(SERVER_NAME, Code(3), [nick])))
  }

  lemma GreetingCodes()
    ensures Code(2) == "002" && Code(3) == "003" && Code(42) == "042" && Code(461) == "461"
  {
    assert Decimal(42) == Decimal(4) + "2" && Decimal(461) == Decimal(46) + "1" && Decimal(46) == Decimal(4) + "6";
  }

  ghost predicate PassServed(cfg: Config, w: World, fd: Fd, params: seq<string>, w': World)
    requires fd in w.app.clients
  {
    var c := w.app.clients[fd];
    if PassRefusal(c, params).Some? then OnlyAnswered(w, w', fd, PassRefusal(c, params).value)
    else if cfg.password != "" && params[0] != cfg.password then
      && Took(w, w', fd, NumericLine(w.app.clients, fd, 464, [])) && Closes(w', fd, WRONG_PASSWORD)
      && Sends(w, w', {}, {fd})
    else Sends(w, w', {fd}, {}) && (c.hasNick && c.hasUser ==> Welcomed(w, w', fd, c.nick))
  }

  /** The connection, if it is still there, is asked to close for this reason. */
  ghost predicate Closes(w: World, fd: Fd, reason: Words) {
    fd in w.connections ==> w.connections[fd].closeRequested && w.connections[fd].closeReason == reason
  }

  ghost predicate UserServed(w: World, fd: Fd, params: seq<string>, w': World)
    requires fd in w.app.clients
  {
    var c := w.app.clients[fd];
    if UserRefusal(c, params).Some? then OnlyAnswered(w, w', fd, UserRefusal(c, params).value)
    else Sends(w, w', {fd}, {}) && (c.passOk && c.hasNick ==> Welcomed(w, w', fd, c.nick))
  }

  ghost predicate NickServed(w: World, fd: Fd, params: seq<string>, w': World)
    requires fd in w.app.clients
  {
    var c := w.app.clients[fd];
    if NickRefusal(w.app, fd, params).Some? then OnlyAnswered(w, w', fd, NickRefusal(w.app, fd, params).value)
    else if c.registered then
      && ToldOnce(Circle(w.app.channels, fd), w.log.attempts, w'.log.attempts, Rename(fd))
      && Reached(w, w', Circle(w.app.channels, fd), LineFrom(w.app.clients, fd, "NICK", [params[0]]))
      && Sends(w, w', {}, Circle(w.app.channels, fd))
    else Sends(w, w', {fd}, {}) && (c.passOk && c.hasUser ==> Welcomed(w, w', fd, params[0]))
  }

  ghost predicate PingServed(w: World, fd: Fd, params: seq<string>, w': World) {
    if params == [] then OnlyAnswered(w, w', fd, Numeric(409, []))
    else
      && Reached(w, w', {fd}, Format(Message(SERVER_NAME, "PONG", [SERVER_NAME, params[0]])))
      && Sends(w, w', {}, {fd})
  }

  ghost predicate QuitServed(w: World, fd: Fd, params: seq<string>, w': World) {
    w'.log == w.log && w'.app == w.app && Closes(w', fd, QuitReason(params)) &&
    (fd in w.connections ==>
       fd in w'.connections && w'.connections == w.connections[fd := w.connections[fd].Closing(QuitReason(params))])
  }

  function QuitReason(params: seq<string>): Words {
    if params != [] && Tidy(params[0]) then params[0] else CLIENT_QUIT
  }

  // ----- Channels -----

  ghost predicate TopicServed(w: World, fd: Fd, params: seq<string>, w': World) {
    var refusal := TopicRefusal(w.app, fd, params);
    if refusal.Some? then OnlyAnswered(w, w', fd, refusal.value)
    else if |params| == 1 then Reached(w, w', {fd}, TopicLine(w.app, fd, params[0])) && Sends(w, w', {}, {fd})
    else
      && Reached(w, w', Members(w.app, params[0]), LineFrom(w.app.clients, fd, "TOPIC", [params[0], params[1]]))
      && Sends(w, w', {}, Members(w.app, params[0]))
  }

  ghost predicate KickServed(w: World, fd: Fd, params: seq<string>, w': World) {
    var refusal := KickRefusal(w.app, fd, params);
    if refusal.Some? then OnlyAnswered(w, w', fd, refusal.value)
    else
      var comment := if |params| > 2 then params[2] else params[1];
      && Reached(w, w', Members(w.app, params[0]), LineFrom(w.app.clients, fd, "KICK", [params[0], params[1], comment]))
      && Sends(w, w', {}, Members(w.app, params[0]))
  }

  ghost predicate InviteServed(w: World, fd: Fd, params: seq<string>, w': World) {
    var refusal := InviteRefusal(w.app, fd, params);
    if refusal.Some? then OnlyAnswered(w, w', fd, refusal.value)
    else
      && Answered(w, w', fd, Numeric(341, [params[0], params[1]]))
      && Reached(w, w', {FindNick(w.app, params[0]).value},
                 LineFrom(w.app.clients, fd, "INVITE", [params[0], params[1]]))
      && Sends(w, w', {}, {fd, FindNick(w.app, params[0]).value})
  }

  /** One name of a PART list. */
  ghost predicate PartServed(w: World, fd: Fd, name: string, reason: string, w': World) {
    var refusal := ChannelRefusal(w.app, fd, name, true);
    if refusal.Some? then OnlyAnswered(w, w', fd, refusal.value)
    else
      && Reached(w, w', Members(w.app, name),
                 LineFrom(w.app.clients, fd, "PART", [name] + if reason == "" then [] else [reason]))
      && Sends(w, w', {}, Members(w.app, name))
  }

  /** One name of a JOIN list. */
  ghost predicate JoinServed(w: World, fd: Fd, name: string, w': World)
    requires fd in w.app.clients
  {
    if !ValidChannelName(name) then OnlyAnswered(w, w', fd, Numeric(403, [name]))
    else if fd in Members(w.app, name) then
      name in w.app.channels && RollCalled(w, w', fd, name) && Sends(w, w', {fd}, {})
    else if !Admits(w.app, fd, name) then OnlyAnswered(w, w', fd, Numeric(473, [name]))
    else
      var b := JoinOne(w.app, fd, name);
      && Reached(w, w', Members(b, name), LineFrom(w.app.clients, fd, "JOIN", [name]))
      && name in b.channels && Reached(w, w', {fd}, TopicLine(b, fd, name)) && RollLater(w, b, w', fd, name)
      && Sends(w, w', {fd}, Members(b, name))
  }

  /** `fd` has had a reply with the members left in `b` when it was sent. */
  ghost predicate RollLater(w: World, b: App, w': World, fd: Fd, name: string) {
    exists u: World :: RollFrom(w, b, u, w', fd, name)
  }

  ghost predicate RollFrom(w: World, b: App, u: World, w': World, fd: Fd, name: string) {
    && u.app == Survive(b, u.app.clients.Keys) && w'.app.clients.Keys <= u.app.clients.Keys
    && (Ending(w'.connections, fd) || (name in u.app.channels && RollCalled(w.(app := u.app), w', fd, name)))
  }

  /** Replies after the announcement, in the state `u` in which they were sent. */
  lemma RollIsLater(w: World, b: App, u: World, w': World, fd: Fd, name: string)
    requires Progress(w, u) && Progress(u, w') && u.app == Survive(b, u.app.clients.Keys)
    requires name in u.app.channels && RollCalled(u, w', fd, name)
    ensures RollLater(w, b, w', fd, name)
  {
    hide Progress, RollCalled, Survive;
    ProgressFacts(u, w');
    ProgressSame(w');
    RollCalledIn(w, u, w', w', fd, name);
    assert RollFrom(w, b, u, w', fd, name);
  }

  lemma NoAnswersOwed(w: World, w': World, fd: Fd, line: string)
    requires Ending(w'.connections, fd)
    ensures Reached(w, w', {fd}, line)
  {}

  /** The entry seen from before it was made. */
  lemma JoinAnnounced(w: World, before: World, w': World, fd: Fd, name: string)
    requires w.log == before.log && w.app.clients == before.app.clients && name in w.app.channels
    requires Reached(w, w', w.app.channels[name].members, LineFrom(w.app.clients, fd, "JOIN", [name]))
    requires Reached(w, w', {fd}, TopicLine(w.app, fd, name)) && RollLater(w, w.app, w', fd, name)
    ensures Reached(before, w', w.app.channels[name].members, LineFrom(before.app.clients, fd, "JOIN", [name]))
    ensures Reached(before, w', {fd}, TopicLine(w.app, fd, name)) && RollLater(before, w.app, w', fd, name)
  {
    hide Reached, LineFrom, TopicLine, RollCalled, Survive;
    ReachedSameWires(w, before, w', w', w.app.channels[name].members, LineFrom(w.app.clients, fd, "JOIN", [name]));
    ReachedSameWires(w, before, w', w', {fd}, TopicLine(w.app, fd, name));
    var u: World :| RollFrom(w, w.app, u, w', fd, name);
    if !Ending(w'.connections, fd) {
      RollSameWires(w.(app := u.app), before.(app := u.app), w', fd, name);
    }
    assert RollFrom(before, w.app, u, w', fd, name);
  }

  lemma RollSameWires(w: World, v: World, w': World, fd: Fd, name: string)
    requires v.log == w.log && v.app == w.app && name in w.app.channels && RollCalled(w, w', fd, name)
    ensures RollCalled(v, w', fd, name)
  {
    hide NumericLine, NamesLine, Lists, Got;
    var order :| Lists(order, w.app.channels[name].members) && Reached(w, w', {fd}, NamesLine(w.app, fd, name, order));
    ReachedSameWires(w, v, w', w', {fd}, NamesLine(w.app, fd, name, order));
    ReachedSameWires(w, v, w', w', {fd}, NumericLine(w.app.clients, fd, 366, [name]));
  }

  lemma NoRollOwed(w: World, b: App, w': World, fd: Fd, name: string)
    requires Ending(w'.connections, fd) && w'.app == Survive(b, w'.app.clients.Keys)
    ensures RollLater(w, b, w', fd, name)
  {
    hide Survive, RollCalled;
    assert RollFrom(w, b, w', w', fd, name);
  }

  // ----- Modes -----

  function ModeLine(clients: Clients, fd: Fd, name: string, mode: string, arg: string): string {
    LineFrom(clients, fd, "MODE", [name, mode] + if arg == "" then [] else [arg])
  }

  /** One character of a mode string: what it changes is announced with the sign in force. */
  ghost predicate ModeServed(w: World, fd: Fd, params: seq<string>, mode: char, adding: bool, arg: nat, w': World)
    requires |params| >= 2
  {
    var name, sign, all := params[0], if adding then "+" else "-", Members(w.app, params[0]);
    if mode == '+' || mode == '-' then Alike(w, w')
    else if mode == 'i' || mode == 't' then
      Reached(w, w', all, ModeLine(w.app.clients, fd, name, sign + [mode], "")) && Sends(w, w', {}, all)
    else if mode == 'o' then
      if arg >= |params| then OnlyAnswered(w, w', fd, Numeric(461, ["MODE"]))
      else
        var target := ModeTarget(w.app, params, arg);
        if target.None? then OnlyAnswered(w, w', fd, Numeric(441, [params[arg], name]))
        else
          && Reached(w, w', all, ModeLine(w.app.clients, fd, name, sign + "o", NickOf(w.app.clients, target.value)))
          && Sends(w, w', {}, all)
    else OnlyAnswered(w, w', fd, Numeric(472, [[mode]]))
  }

  // ----- Messages -----

  /** One target of a PRIVMSG. */
  ghost predicate RelayServed(w: World, fd: Fd, target: string, text: string, w': World) {
    if IsChannelTarget(target) then
      if fd !in Members(w.app, target) then OnlyAnswered(w, w', fd, Numeric(404, [target]))
      else
        && Reached(w, w', Members(w.app, target) - {fd}, LineFrom(w.app.clients, fd, "PRIVMSG", [target, text]))
        && Sends(w, w', {}, Members(w.app, target) - {fd})
    else
      var to := FindNick(w.app, target);
      if to.None? then OnlyAnswered(w, w', fd, Numeric(401, [target]))
      else
        && Reached(w, w', {to.value}, LineFrom(w.app.clients, fd, "PRIVMSG", [target, text]))
        && Sends(w, w', {}, {to.value})
  }

  // ----- Lists served item by item -----

  ghost predicate JoinsServed(ws: seq<World>, fd: Fd, names: seq<string>) {
    && |ws| == |names| + 1
    && forall i :: 0 <= i < |names| ==> fd in ws[i].app.clients && JoinServed(ws[i], fd, names[i], ws[i + 1])
  }

  ghost predicate PartsServed(ws: seq<World>, fd: Fd, names: seq<string>, reason: string) {
    |ws| == |names| + 1 && forall i :: 0 <= i < |names| ==> PartServed(ws[i], fd, names[i], reason, ws[i + 1])
  }

  ghost predicate RelaysServed(ws: seq<World>, fd: Fd, targets: seq<string>, text: string) {
    |ws| == |targets| + 1 && forall i :: 0 <= i < |targets| ==> RelayServed(ws[i], fd, targets[i], text, ws[i + 1])
  }

  /** The characters of a mode string, each with the sign and the argument the string gives it. */
  ghost predicate ModesServed(ws: seq<World>, fd: Fd, params: seq<string>)
    requires |params| >= 2
  {
    && 1 <= |ws| <= |params[1]| + 1
    && forall i :: 0 <= i < |ws| - 1 ==>
         ModeServed(ws[i], fd, params, params[1][i], SignAt(params[1], i), ArgAt(params, i), ws[i + 1])
  }

  /** The argument index at the i-th character. */
  function ArgAt(params: seq<string>, i: nat): nat
    requires |params| >= 2 && i <= |params[1]|
  {
    if 2 + ArgsBefore(params[1], i) <= |params| then 2 + ArgsBefore(params[1], i) else |params|
  }

  lemma JoinsMore(ws: seq<World>, fd: Fd, names: seq<string>, i: nat, w': World)
    requires i < |names| && JoinsServed(ws, fd, names[..i])
    requires fd in ws[i].app.clients && JoinServed(ws[i], fd, names[i], w')
    ensures JoinsServed(ws + [w'], fd, names[..i + 1])
  {
    hide JoinServed;
    var more := ws + [w'];
    forall k | 0 <= k < i + 1
      ensures fd in more[k].app.clients && JoinServed(more[k], fd, names[..i + 1][k], more[k + 1])
    {
      if k < i {
        assert names[..i][k] == names[k];
      }
    }
  }

  lemma PartsMore(ws: seq<World>, fd: Fd, names: seq<string>, reason: string, name: string, w': World)
    requires PartsServed(ws, fd, names, reason) && PartServed(ws[|names|], fd, name, reason, w')
    ensures PartsServed(ws + [w'], fd, names + [name], reason)
  {
    hide PartServed;
  }

  lemma RelaysMore(ws: seq<World>, fd: Fd, targets: seq<string>, text: string, target: string, w': World)
    requires RelaysServed(ws, fd, targets, text) && RelayServed(ws[|targets|], fd, target, text, w')
    ensures RelaysServed(ws + [w'], fd, targets + [target], text)
  {
    hide RelayServed;
  }

  lemma ModesMore(ws: seq<World>, fd: Fd, params: seq<string>, w': World)
    requires |params| >= 2 && ModesServed(ws, fd, params) && |ws| <= |params[1]|
    requires var i := |ws| - 1; ModeServed(ws[i], fd, params, params[1][i], SignAt(params[1], i), ArgAt(params, i), w')
    ensures ModesServed(ws + [w'], fd, params)
  {
    hide ModeServed, SignAt, ArgAt;
  }

  lemma NoJoins(w: World, fd: Fd)
    ensures JoinsServed([w], fd, []) && Leads(w, [w], w)
  {}

  lemma NoParts(w: World, fd: Fd, reason: string)
    ensures PartsServed([w], fd, [], reason) && Leads(w, [w], w)
  {}

  lemma NoRelays(w: World, fd: Fd, text: string)
    ensures RelaysServed([w], fd, [], text) && Leads(w, [w], w)
  {}

  lemma NoModes(w: World, fd: Fd, params: seq<string>)
    requires |params| >= 2
    ensures ModesServed([w], fd, params) && Leads(w, [w], w)
  {}

  /** The sign and the argument in force are those of the string. */
  lemma RunInStep(a: App, params: seq<string>, stages: seq<set<Fd>>)
    requires |params| >= 2 && |stages| <= |params[1]|
    ensures var s := ModeRun(a, params, stages);
            s.adding == SignAt(params[1], |stages|) && s.arg == ArgAt(params, |stages|)
  {
    RunFollowsString(a, params, stages);
  }

  lemma NoTarget(a: App, params: seq<string>, arg: nat)
    requires params != [] && arg >= |params|
    ensures ModeTarget(a, params, arg) == None
  {}

  lemma ModeStringIsTidy(ch: Channel)
    ensures Tidy(ModeString(ch))
  {}

  lemma LeadsOn(w: World, ws: seq<World>, w': World)
    requires ws != [] && Alike(w, ws[0])
    ensures Leads(w, ws + [w'], w')
  {}

  /** A sequence of states from `w` to `w'`. */
  ghost predicate Leads(w: World, ws: seq<World>, w': World) {
    ws != [] && Alike(w, ws[0]) && Alike(ws[|ws| - 1], w')
  }

  lemma LeadsSame(w: World, v: World, ws: seq<World>, w': World, v': World)
    requires Leads(w, ws, w') && Alike(w, v) && Alike(w', v')
    ensures Leads(v, ws, v')
  {}

  // ----- A whole command -----

  ghost predicate JoinCommandServed(w: World, fd: Fd, params: seq<string>, ws: seq<World>, w': World) {
    if params == [] then OnlyAnswered(w, w', fd, Numeric(461, ["JOIN"]))
    else if params[0] == "0" then
      && Leads(w, ws, w')
      && exists names :: SetOf(names) == RoomsOf(w.app.channels, fd) && PartsServed(ws, fd, names, LEAVING_ALL)
    else
      var names := Pieces(params[0]);
      && Leads(w, ws, w') && |ws| <= |names| + 1 && JoinsServed(ws, fd, names[..|ws| - 1])
      && (|ws| == |names| + 1 || Ending(w'.connections, fd))
  }

  ghost predicate PartCommandServed(w: World, fd: Fd, params: seq<string>, ws: seq<World>, w': World) {
    if params == [] then OnlyAnswered(w, w', fd, Numeric(461, ["PART"]))
    else Leads(w, ws, w') && PartsServed(ws, fd, Pieces(params[0]), if |params| > 1 then params[1] else "")
  }

  ghost predicate ModeCommandServed(w: World, fd: Fd, params: seq<string>, ws: seq<World>, w': World) {
    var reply := ModeReply(w.app, fd, params);
    if reply.Some? then OnlyAnswered(w, w', fd, reply.value)
    else
      && Leads(w, ws, w') && |params| >= 2 && ModesServed(ws, fd, params)
      && (|ws| == |params[1]| + 1 || Ending(w'.connections, fd))
  }

  ghost predicate PrivmsgServed(w: World, fd: Fd, params: seq<string>, ws: seq<World>, w': World) {
    if params == [] then OnlyAnswered(w, w', fd, Numeric(411, []))
    else if |params| < 2 || params[1] == "" then OnlyAnswered(w, w', fd, Numeric(412, []))
    else Leads(w, ws, w') && RelaysServed(ws, fd, Pieces(params[0]), params[1])
  }

  ghost predicate ListServed(w: World, fd: Fd, params: seq<string>, w': World) {
    && Answered(w, w', fd, Numeric(321, ["Channel", "Users", "Name"])) && Answered(w, w', fd, Numeric(323, []))
    && Listed(w, w', fd,
              if params == [] || Pieces(params[0]) == [] then w.app.channels.Keys else SetOf(Pieces(params[0])))
    && Sends(w, w', {fd}, {})
  }

  ghost predicate NamesServed(w: World, fd: Fd, params: seq<string>, w': World) {
    && Named(w, w', fd, if params == [] then w.app.channels.Keys else SetOf(Pieces(params[0])))
    && Sends(w, w', {fd}, {})
  }

  /** A NOTICE with some figures. */
  ghost predicate MetricsServed(w: World, fd: Fd, w': World) {
    Sends(w, w', {}, {fd}) && exists text: string ::
      Reached(w, w', {fd}, Format(Message(SERVER_NAME, "NOTICE", [ReplyTarget(w.app.clients, fd), text])))
  }

  lemma AnsweredThen(w: World, w1: World, w2: World, fd: Fd, reply: Numeric)
    requires Progress(w, w1) && Answered(w, w1, fd, reply) && Progress(w1, w2)
    ensures Answered(w, w2, fd, reply)
  {
    hide Progress, Reached, NumericLine;
    ReachedThen(w, w1, w2, {fd}, NumericLine(w.app.clients, fd, reply.code, reply.params));
  }

  /** An answer in the middle of a stretch to a client whose nickname has not changed. */
  lemma AnsweredWithin(w: World, w1: World, w2: World, w3: World, fd: Fd, reply: Numeric)
    requires Progress(w, w1) && Answered(w1, w2, fd, reply) && Progress(w1, w2) && Progress(w2, w3)
    requires fd in w.app.clients && fd in w1.app.clients && w1.app.clients[fd].nick == w.app.clients[fd].nick
    ensures Answered(w, w3, fd, reply)
  {
    hide Progress, Reached, NumericLine;
    NumericLineSame(w.app.clients, w1.app.clients, fd, reply.code, reply.params);
    ReachedWithin(w, w1, w2, w3, {fd}, NumericLine(w1.app.clients, fd, reply.code, reply.params));
  }

  lemma NoAnswerOwed(w: World, w': World, fd: Fd, reply: Numeric)
    requires Ending(w'.connections, fd)
    ensures Answered(w, w', fd, reply)
  {
    hide NumericLine;
  }

  /** What a message of `fd` brings everybody concerned. */
  ghost predicate MessageServed(cfg: Config, w: World, fd: Fd, m: Message, ws: seq<World>, w': World)
    requires fd in w.app.clients
  {
    var verb, params := VerbOf(m.command), m.params;
    if verb.Pass? then PassServed(cfg, w, fd, params, w')
    else if verb.Nick? then NickServed(w, fd, params, w')
    else if verb.User? then UserServed(w, fd, params, w')
    else if verb.Ping? then PingServed(w, fd, params, w')
    else if verb.Pong? then w'.connections == w.connections && w'.log == w.log
    else if verb.QuitVerb? then QuitServed(w, fd, params, w')
    else if !w.app.clients[fd].registered then OnlyAnswered(w, w', fd, Numeric(451, []))
    else if verb.Join? then JoinCommandServed(w, fd, params, ws, w')
    else if verb.Part? then PartCommandServed(w, fd, params, ws, w')
    else if verb.Mode? then ModeCommandServed(w, fd, params, ws, w')
    else if verb.Privmsg? then PrivmsgServed(w, fd, params, ws, w')
    else if verb.Topic? then TopicServed(w, fd, params, w')
    else if verb.Kick? then KickServed(w, fd, params, w')
    else if verb.Invite? then InviteServed(w, fd, params, w')
    else if verb.List? then ListServed(w, fd, params, w')
    else if verb.Names? then NamesServed(w, fd, params, w')
    else if verb.Metrics? then MetricsServed(w, fd, w')
    else OnlyAnswered(w, w', fd, Numeric(421, [m.command]))
  }

  /** What a line of `fd` at time `now` brings: a reply to one that does not parse; past the rate limit a reply
      and a close; and otherwise what its message brings, in the state `u` that has counted it. */
  ghost predicate LineServed(cfg: Config, w: World, fd: Fd, line: string, now: int, w': World) {
    && fd in w.app.clients
    && match Parse(line)
       case Rejected(error) => OnlyAnswered(w, w', fd, Numeric(417, [error]))
       case Parsed(m) =>
         if !WithinRate(cfg, Counted(cfg, Touched(w.app, fd, now), fd, now).clients[fd]) then
           && Took(w, w', fd, NumericLine(w.app.clients, fd, 439, [])) && Closes(w', fd, RATE_EXCEEDED)
           && Sends(w, w', {}, {fd})
         else exists ws: seq<World> :: MessageServed(cfg, CountedIn(cfg, w, fd, now), fd, m, ws, w')
  }

  lemma RejectedServed(cfg: Config, w: World, fd: Fd, line: string, now: int, w': World)
    requires fd in w.app.clients && Parse(line).Rejected? && OnlyAnswered(w, w', fd, Numeric(417, [Parse(line).error]))
    ensures LineServed(cfg, w, fd, line, now, w')
  {
    hide Parse, OnlyAnswered;
  }

  lemma RefusedServed(cfg: Config, w: World, fd: Fd, line: string, now: int, w': World)
    requires fd in w.app.clients && Parse(line).Parsed? && !WithinRate(cfg, CountedIn(cfg, w, fd, now).app.clients[fd])
    requires Took(w, w', fd, NumericLine(w.app.clients, fd, 439, [])) && Closes(w', fd, RATE_EXCEEDED)
    requires Sends(w, w', {}, {fd})
    ensures LineServed(cfg, w, fd, line, now, w')
  {
    hide Parse, Took, NumericLine, PopOld, Sends;
  }

  lemma CountedServed(cfg: Config, w: World, fd: Fd, line: string, now: int, ws: seq<World>, w': World)
    requires fd in w.app.clients && Parse(line).Parsed? && WithinRate(cfg, CountedIn(cfg, w, fd, now).app.clients[fd])
    requires MessageServed(cfg, CountedIn(cfg, w, fd, now), fd, Parse(line).message, ws, w')
    ensures LineServed(cfg, w, fd, line, now, w')
  {
    hide Parse, MessageServed, PopOld;
  }

  // ----- Timers -----

  /** What a tick brings a client: a last line and a close to one that has expired, a PING to one that has been
      idle, nothing to another. */
  ghost predicate Tended(cfg: Config, w: World, fd: Fd, now: int, w': World) {
    if fd !in w.app.clients then Alike(w, w')
    else
      Sends(w, w', {}, {fd}) &&
      match Judge(cfg, w.app.clients[fd], now)
      case RegistrationExpired =>
        Took(w, w', fd, NumericLine(w.app.clients, fd, 451, [])) && Closes(w', fd, REGISTRATION_TIMEOUT)
      case PongExpired => Took(w, w', fd, Format(Message("", "ERROR", [PING_ERROR]))) && Closes(w', fd, PING_TIMEOUT)
      case Probe => Reached(w, w', {fd}, Format(Message(SERVER_NAME, "PING", [Token(fd, w.app.tokens + 1)])))
      case Fine => Alike(w, w')
  }

  ghost predicate TendedAll(cfg: Config, ws: seq<World>, fds: seq<Fd>, now: int) {
    |ws| == |fds| + 1 && forall i :: 0 <= i < |fds| ==> Tended(cfg, ws[i], fds[i], now, ws[i + 1])
  }

  lemma NobodyTended(cfg: Config, w: World, now: int)
    ensures TendedAll(cfg, [w], [], now)
  {}

  lemma TendedMore(cfg: Config, ws: seq<World>, fds: seq<Fd>, fd: Fd, now: int, w': World)
    requires TendedAll(cfg, ws, fds, now) && Tended(cfg, ws[|fds|], fd, now, w')
    ensures TendedAll(cfg, ws + [w'], fds + [fd], now)
  {
    hide Tended;
  }

  // ----- What is served depends on connections, queues and application state alone -----

  lemma ReachedAlike(w: World, v: World, w': World, v': World)
    requires Alike(w, v) && Alike(w', v')
    ensures forall targets, line :: Reached(w, w', targets, line) <==> Reached(v, v', targets, line)
    ensures forall fd, line :: Took(w, w', fd, line) <==> Took(v, v', fd, line)
    ensures forall free, once :: Sends(w, w', free, once) <==> Sends(v, v', free, once)
  {
    hide Got, Full, Confined;
  }

  lemma AnswersAlike(w: World, v: World, w': World, v': World)
    requires Alike(w, v) && Alike(w', v')
    ensures forall fd, reply :: Answered(w, w', fd, reply) <==> Answered(v, v', fd, reply)
    ensures forall fd, reply :: OnlyAnswered(w, w', fd, reply) <==> OnlyAnswered(v, v', fd, reply)
    ensures forall fd, nick :: Welcomed(w, w', fd, nick) <==> Welcomed(v, v', fd, nick)
  {
    hide Reached, Took, Sends, NumericLine, Format, Code;
    ReachedAlike(w, v, w', v');
  }

  lemma RegistrationAlike(cfg: Config, w: World, v: World, fd: Fd, params: seq<string>, w': World, v': World)
    requires Alike(w, v) && Alike(w', v') && fd in w.app.clients
    ensures PassServed(cfg, w, fd, params, w') <==> PassServed(cfg, v, fd, params, v')
    ensures NickServed(w, fd, params, w') <==> NickServed(v, fd, params, v')
    ensures UserServed(w, fd, params, w') <==> UserServed(v, fd, params, v')
    ensures PingServed(w, fd, params, w') <==> PingServed(v, fd, params, v')
    ensures QuitServed(w, fd, params, w') <==> QuitServed(v, fd, params, v')
  {
    hide Reached, Took, NumericLine, Format, Answered, OnlyAnswered, Sends, Welcomed, ToldOnce, Circle,
         ValidNickname, FindNick, PassRefusal, UserRefusal, Tidy;
    ReachedAlike(w, v, w', v');
    AnswersAlike(w, v, w', v');
  }

  lemma InviteAlike(w: World, v: World, fd: Fd, params: seq<string>, w': World, v': World)
    requires Alike(w, v) && Alike(w', v')
    ensures InviteServed(w, fd, params, w') <==> InviteServed(v, fd, params, v')
  {
    hide Reached, Took, NumericLine, Format, Answered, OnlyAnswered, Sends, FindNick, ChannelRefusal;
    ReachedAlike(w, v, w', v');
    AnswersAlike(w, v, w', v');
  }

  lemma ChannelsAlike(w: World, v: World, fd: Fd, params: seq<string>, ws: seq<World>, w': World, v': World)
    requires Alike(w, v) && Alike(w', v')
    ensures TopicServed(w, fd, params, w') <==> TopicServed(v, fd, params, v')
    ensures KickServed(w, fd, params, w') <==> KickServed(v, fd, params, v')
    ensures JoinCommandServed(w, fd, params, ws, w') <==> JoinCommandServed(v, fd, params, ws, v')
    ensures PartCommandServed(w, fd, params, ws, w') <==> PartCommandServed(v, fd, params, ws, v')
    ensures ModeCommandServed(w, fd, params, ws, w') <==> ModeCommandServed(v, fd, params, ws, v')
    ensures PrivmsgServed(w, fd, params, ws, w') <==> PrivmsgServed(v, fd, params, ws, v')
  {
    hide Reached, Took, NumericLine, Format, Answered, OnlyAnswered, Sends, TopicRefusal, KickRefusal, InviteRefusal,
         ModeReply, TopicLine, FindNick, JoinsServed, PartsServed, ModesServed, RelaysServed, Pieces, Members;
    ReachedAlike(w, v, w', v');
    AnswersAlike(w, v, w', v');
  }

  lemma QueriesAlike(w: World, v: World, fd: Fd, params: seq<string>, w': World, v': World)
    requires Alike(w, v) && Alike(w', v')
    ensures ListServed(w, fd, params, w') <==> ListServed(v, fd, params, v')
    ensures NamesServed(w, fd, params, w') <==> NamesServed(v, fd, params, v')
    ensures MetricsServed(w, fd, w') <==> MetricsServed(v, fd, v')
  {
    hide Reached, Took, NumericLine, Format, Answered, OnlyAnswered, Sends, ListLine, NamesLine, Lists, Pieces;
    ReachedAlike(w, v, w', v');
    AnswersAlike(w, v, w', v');
  }

  lemma MessageServedFrom(cfg: Config, w: World, v: World, fd: Fd, m: Message, ws: seq<World>, w': World, v': World)
    requires fd in w.app.clients && Alike(w, v) && Alike(w', v') && MessageServed(cfg, w, fd, m, ws, w')
    ensures MessageServed(cfg, v, fd, m, ws, v')
  {
    hide VerbOf, PassServed, NickServed, UserServed, PingServed, QuitServed, TopicServed, KickServed, InviteServed,
         JoinCommandServed, PartCommandServed, ModeCommandServed, PrivmsgServed, ListServed, NamesServed,
         MetricsServed, Answered, OnlyAnswered, Sends, Welcomed;
    RegistrationAlike(cfg, w, v, fd, m.params, w', v');
    ChannelsAlike(w, v, fd, m.params, ws, w', v');
    InviteAlike(w, v, fd, m.params, w', v');
    QueriesAlike(w, v, fd, m.params, w', v');
    AnswersAlike(w, v, w', v');
  }

  lemma LineServedFrom(cfg: Config, w: World, v: World, fd: Fd, line: string, now: int, w': World, v': World)
    requires Alike(w, v) && Alike(w', v') && LineServed(cfg, w, fd, line, now, w')
    ensures LineServed(cfg, v, fd, line, now, v')
  {
    hide Parse, Answered, OnlyAnswered, Sends, Took, NumericLine, MessageServed, WithinRate, PopOld;
    ReachedAlike(w, v, w', v');
    AnswersAlike(w, v, w', v');
    if Parse(line).Parsed? && WithinRate(cfg, Counted(cfg, Touched(w.app, fd, now), fd, now).clients[fd]) {
      var ws: seq<World> :| MessageServed(cfg, CountedIn(cfg, w, fd, now), fd, Parse(line).message, ws, w');
      MessageServedFrom(cfg, CountedIn(cfg, w, fd, now), CountedIn(cfg, v, fd, now), fd, Parse(line).message, ws, w',
                        v');
    }
  }

  ghost function CountedIn(cfg: Config, w: World, fd: Fd, now: int): (u: World)
    requires fd in w.app.clients
    ensures fd in u.app.clients
  {
    w.(app := Counted(cfg, Touched(w.app, fd, now), fd, now))
  }
}
