/** The running relay: `Server`, `IrcApplication` and `ClientRegistry` over one shared state. */
module Relaying {
  import opened Text
  import opened Framing
  import opened Transport
  import opened Messages
  import opened State
  import opened Worlds
  import opened Commands
  import opened CommandLaws
  import opened Runs
  import opened EventManagers
  import opened Events
  import opened Replies
  import opened Effects
  import opened Services
  import Records
  import Timers

  /** The clients in some order (`ClientRegistry::fds`). */
  method Listing(all: set<Fd>) returns (order: seq<Fd>)
    ensures Distinct(order) && forall f :: f in order <==> f in all
  {
    order := [];
    var waiting := all;
    while waiting != {}
      invariant Distinct(order) && waiting <= all
      invariant forall f :: f in order <==> f in all && f !in waiting
      decreases |waiting|
    {
      var f :| f in waiting;
      waiting, order := waiting - {f}, order + [f];
    }
  }

  /** The front-popping loop of `recordCommand`. */
  method PopFront(window: seq<int>, now: int, width: int) returns (kept: seq<int>)
    ensures kept == PopOld(window, now, width)
  {
    kept := window;
    while kept != [] && now - kept[0] >= width
      invariant PopOld(kept, now, width) == PopOld(window, now, width)
      decreases |kept|
    {
      kept := kept[1..];
    }
  }

  class Relay {
    const config: Config
    /** Whether the event manager throws on its n-th interest update. */
    const updateFails: nat -> bool
    /** Successive readings of the monotone clock. */
    const clock: nat -> int

    var connections: Links
    var interests: Interests
    var updates: nat
    var accepted: nat
    var closed: nat

    var clients: Clients
    var nicknames: Nicknames
    var channels: Rooms
    var tokens: nat
    var readings: nat

    ghost var closing: set<Fd>
    ghost var loose: set<Fd>
    ghost var log: Log
    ghost var history: seq<Step>

    ghost function View(): World
      reads this
    {
      World(connections, interests, accepted, closed, config.maxConnections, App(clients, nicknames, channels, tokens),
            closing, loose, log, Trace(history, readings))
    }

    // ----- Sends that may end connections, which send, which may end connections -----

    method SendTo(fd: Fd, line: string, ghost cause: Cause) returns (ok: bool)
      requires Good(View()) && Due(log, multiset{Attempt(fd, cause)}) && Proper(line, cause)
      modifies this
      ensures Good(View()) && Cascade(Asked(old(View()), multiset{Attempt(fd, cause)}), View())
      ensures ok ==> View().app == old(View()).app
      ensures ok ==> fd in old(connections) && old(connections)[fd].Valid() && fd in interests
      ensures ok ==> connections == old(connections)[fd := QueueLine(old(connections)[fd], line).0]
      ensures ok ==> interests == old(interests)[fd := interests[fd]] && connections[fd].WantsWrite()
      ensures Reached(old(View()), View(), {fd}, line) && Took(old(View()), View(), fd, line)
      ensures !ok ==> fd !in connections || connections[fd].closeRequested
      decreases connections.Keys, 3
    {
      hide Good, Cascade, Due, Noted, QueueLine, Reached, OneLine, Suits, Announced, Took, Full;
      ghost var batch := multiset{Attempt(fd, cause)};
      AskedIsGood(View(), batch);
      if fd in connections {
        AskingAnnounces(View(), fd, line, cause);
      }
      log := Noted(log, batch);
      if fd !in connections {
        CascadeSame(View());
        ReachedByQueue(old(View()), View(), fd, line);
        TookByQueue(old(View()), View(), fd, line);
        return false;
      }
      ghost var w := View();
      QueuedIsGood(w, fd, line);
      var (link, queued) := QueueLine(connections[fd], line);
      connections := connections[fd := link];
      loose := loose + {fd};
      if queued {
        log := log.(lines := log.lines[fd := log.lines[fd] + [line]]);
      } else {
        RefusedIsFull(old(connections)[fd], line);
      }
      var refreshed := RefreshInterest(fd);
      SendIsCascade(w, fd, line, View());
      loose := w.loose;
      ok := queued && refreshed;
      ReachedByQueue(old(View()), View(), fd, line);
      TookByQueue(old(View()), View(), fd, line);
    }

    method RefreshInterest(fd: Fd) returns (ok: bool)
      requires Good(View()) && fd in loose
      modifies this
      ensures Good(View()) && Cascade(old(View()), View()) && Tight(View(), fd)
      ensures ok <==> fd in connections
      ensures ok ==> View().app == old(View()).app && connections == old(connections) && log == old(log)
      ensures fd in old(connections) ==>
                fd in old(interests) && SafeUpdate(old(interests)[fd], Wanted(old(connections)[fd]))
      ensures ok ==> fd in interests && interests == old(interests)[fd := interests[fd]]
      ensures fd in old(connections) && !ok ==>
                fd in old(clients) && GoneFor(old(View()), View(), fd, LeavingReason(old(connections)[fd]))
      ensures ok ==> connections[fd].closeRequested ==> connections[fd].WantsWrite()
      ensures fd !in old(connections) ==> View() == old(View())
      ensures Attended(connections, interests, fd)
      decreases connections.Keys, 2
    {
      hide Confined, Good, Cascade, Tight, Reached, CoMembers, QuitLine;
      if fd !in connections {
        CascadeSame(View());
        TightWhenGone(View(), fd);
        return false;
      }
      var link := connections[fd];
      UpdateIsSafe(View(), fd);
      if link.closeRequested && !link.WantsWrite() {
        Disconnect(fd, link.closeReason);
        TightWhenGone(View(), fd);
        return false;
      }
      var wanted := Wanted(link);
      updates := updates + 1;
      if updateFails(updates) {
        Disconnect(fd, UPDATE_FAILED);
        TightWhenGone(View(), fd);
        return false;
      }
      WatchedIsGood(View(), fd);
      interests := interests[fd := wanted];
      return true;
    }

    method Disconnect(fd: Fd, reason: Words)
      requires Good(View())
      modifies this
      ensures Good(View()) && Cascade(old(View()), View())
      ensures fd !in connections
      ensures fd in old(connections) ==>
                && Farewell(old(channels), old(log.attempts), log.attempts, fd) && fd in old(clients)
                && GoneFor(old(View()), View(), fd, reason)
      decreases connections.Keys, 1
    {
      hide Confined, Good, Cascade, Farewell, Reached, CoMembers, QuitLine;
      if fd !in connections {
        CascadeSame(View());
        return;
      }
      ghost var w := View();
      UnlinkedIsGood(w, fd);
      GoodFacts(w);
      interests := interests - {fd};
      connections := connections - {fd};
      closed := closed + 1;
      closing := closing + {fd};
      ghost var unlinked := View();
      RemoveClientState(fd, reason);
      DisconnectIsCascade(w, fd, View());
      CascadeConfines(w, View());
      ReachedSameWires(unlinked, w, View(), View(), CoMembers(w.app.channels, fd), QuitLine(w.app.clients[fd], reason));
    }

    method RemoveClientState(fd: Fd, reason: Words)
      requires Good(View()) && fd in closing
      modifies this
      ensures Good(View()) && Cascade(old(View()).(closing := old(closing) - {fd}), View())
      ensures fd !in clients
      ensures Farewell(old(channels), old(log.attempts), log.attempts, fd) && fd in old(clients)
      ensures Reached(old(View()), View(), CoMembers(old(channels), fd), QuitLine(old(clients)[fd], reason))
      decreases connections.Keys, 5
    {
      hide Reached, QuitLine, Proper, ClientOk, Good, Cascade, Farewell, CoMembers, Circle, Copies, RoomsOk,
           IndexAgrees, ClientsOk, Noted, WF, Format, Survive;
      GoodFacts(View());
      var peers := CollectPeers(fd);
      RecordIsOk(clients, fd);
      QuitIsProper(clients[fd], fd, reason);
      SendEach(peers, QuitLine(clients[fd], reason), Quit(fd));
      GoodFacts(View());
      CascadeFacts(Asked(old(View()), Copies(peers, Quit(fd))), View());
      ErasureEndsCascade(old(View()), fd, View(), reason);
      ghost var w := View();
      EraseState(fd);
      closing := closing - {fd};
      ReachedSameWires(old(View()), old(View()), w, View(), peers, QuitLine(old(clients)[fd], reason));
    }

    /** Those told of a client's departure: nobody unless it was registered. */
    method CollectPeers(fd: Fd) returns (peers: set<Fd>)
      requires WF(View().app) && fd in clients
      ensures peers == CoMembers(channels, fd)
    {
      PeersAreCircle(View().app, fd);
      peers := {};
      if clients[fd].registered && clients[fd].nick != "" {
        peers := CollectCircle(fd);
        peers := peers - {fd};
      }
    }

    /** Send one line to each descriptor of a set, in any order. */
    method SendEach(targets: set<Fd>, line: string, ghost cause: Cause)
      requires Good(View()) && !cause.Welcome? && Proper(line, cause)
      modifies this
      ensures Good(View()) && Cascade(Asked(old(View()), Copies(targets, cause)), View())
      ensures Reached(old(View()), View(), targets, line)
      decreases connections.Keys, 4
    {
      hide Good, Cascade, Copies, Got, Proper;
      var waiting := targets;
      ghost var told: set<Fd> := {};
      AskedNothing(View(), cause);
      CascadeSame(View());
      while waiting != {}
        invariant Good(View()) && Cascade(Asked(old(View()), Copies(told, cause)), View())
        invariant Reached(old(View()), View(), told, line)
        invariant told + waiting == targets && told !! waiting
        invariant connections.Keys <= old(connections.Keys)
        decreases |waiting|
      {
        var to :| to in waiting;
        ghost var w := View();
        CopiesOneMore(told, to, cause);
        var _ := SendTo(to, line, cause);
        ReachedOneMore(old(View()), Copies(told, cause), w, multiset{Attempt(to, cause)}, View(), told, to, line);
        AskedThen(old(View()), Copies(told, cause), w, multiset{Attempt(to, cause)}, View());
        CascadeFacts(Asked(w, multiset{Attempt(to, cause)}), View());
        waiting, told := waiting - {to}, told + {to};
      }
      assert told == targets;
    }

    // ----- Registry and room bookkeeping -----

    /** Out of every channel, then out of the registry. */
    method EraseState(fd: Fd)
      requires RoomsOk(channels, clients) && IndexAgrees(clients, nicknames) && fd in clients
      modifies `channels, `clients, `nicknames
      ensures View().app == Survive(old(View()).app, old(clients.Keys) - {fd})
    {
      hide RoomsOk, IndexAgrees, SurvivingRooms, SurvivingClients, SurvivingNicks;
      LeaveRooms(fd);
      EraseClient(fd);
    }

    /** Take `fd` out of every channel and drop the channels this empties. */
    method LeaveRooms(fd: Fd)
      requires RoomsOk(channels, clients) && fd in clients
      modifies `channels
      ensures channels == SurvivingRooms(old(channels), clients.Keys - {fd})
    {
      hide PartlyKept, Emptied, RoomOk;
      ghost var rooms, alive := channels, clients.Keys - {fd};
      KeepEnds(rooms, alive);
      var names := channels.Keys;
      var emptied: set<string> := {};
      while names != {}
        invariant names <= rooms.Keys == channels.Keys
        invariant forall n :: n in names ==> channels[n] == rooms[n]
        invariant channels == PartlyKept(rooms, names, alive) && emptied == Emptied(rooms, names, alive)
        decreases |names|
      {
        var name :| name in names;
        KeepNext(rooms, names, alive, name);
        var empty := LeaveRoom(name, fd);
        emptied := emptied + if empty then {name} else {};
        names := names - {name};
      }
      channels := channels - emptied;
    }

    method LeaveRoom(name: string, fd: Fd) returns (empty: bool)
      requires name in channels && RoomOk(name, channels[name], clients)
      modifies `channels
      ensures channels == old(channels)[name := old(channels)[name].Keep(clients.Keys - {fd})]
      ensures empty <==> old(channels)[name].members * (clients.Keys - {fd}) == {}
    {
      LeaveOne(channels[name], fd, clients.Keys);
      if fd in channels[name].members {
        channels := channels[name := channels[name].RemoveMember(fd)];
      }
      empty := channels[name].members == {};
    }

    /** `ClientRegistry::erase`. */
    method EraseClient(fd: Fd)
      requires IndexAgrees(clients, nicknames) && fd in clients
      modifies `clients, `nicknames
      ensures clients == SurvivingClients(old(clients), old(clients.Keys) - {fd})
      ensures nicknames == SurvivingNicks(old(nicknames), old(clients.Keys) - {fd})
    {
      if clients[fd].nick != "" {
        nicknames := nicknames - {Canonical(clients[fd].nick)};
      }
      clients := clients - {fd};
    }

    // ----- Replies and broadcasts -----

    /** The state in which a handler for a line of `fd` starts and in which it may send. */
    ghost predicate Ready(fd: Fd)
      reads this
    {
      Good(View()) && closing == {} && log.owed == {} && fd in loose && fd in clients
    }

    function PrefixFor(fd: Fd): string
      reads this
    {
      PrefixOf(clients, fd)
    }

    lemma PrefixIsWord(fd: Fd)
      requires ClientsOk(clients)
      ensures IsWord(PrefixFor(fd))
    {
      hide HostMask, ClientOk;
      if fd in clients {
        MaskIsWord(clients[fd]);
      }
    }

    /** A line in the name of a client, or of the server when there is no such client. */
    lemma ClientLineIsProper(fd: Fd, command: string, params: seq<string>)
      requires ClientsOk(clients) && AllTidy(params) && Everyday(command)
      ensures Proper(Format(Message(PrefixFor(fd), command, params)), Other)
    {
      hide Format, Proper, IsCommandWord, PrefixFor, ClientsOk, Everyday, AllTidy;
      EverydayIsWord(command);
      PrefixIsWord(fd);
      ProperMessage(Message(PrefixFor(fd), command, params), Other);
    }

    /** A line in the name of the server. */
    lemma ServerLineIsProper(command: string, params: seq<string>)
      requires AllTidy(params) && Everyday(command)
      ensures Proper(Format(Message(SERVER_NAME, command, params)), Other)
    {
      hide Format, Proper, IsCommandWord, Everyday, AllTidy;
      EverydayIsWord(command);
      ProperMessage(Message(SERVER_NAME, command, params), Other);
    }

    /** `sendRaw`: a true answer means nothing changed but that connection's queue and interest. */
    method SendRaw(fd: Fd, line: string) returns (ok: bool)
      requires Good(View()) && Proper(line, Other)
      modifies this
      ensures Good(View()) && Progress(old(View()), View())
      ensures View().app == Survive(old(View()).app, clients.Keys)
      ensures ok ==> View().app == old(View()).app && fd in connections && connections[fd].WantsWrite()
      ensures ok ==> connections == old(connections)[fd := connections[fd]]
      ensures !ok ==> fd !in connections || connections[fd].closeRequested
      ensures Reached(old(View()), View(), {fd}, line) && Took(old(View()), View(), fd, line)
      ensures Cascade(Asked(old(View()), multiset{Attempt(fd, Other)}), View()) && Sends(old(View()), View(), {}, {fd})
    {
      hide Confined, Good, Cascade, Progress, Survive, Reached, Proper, Took;
      ok := SendTo(fd, line, Other);
      AskedProgress(old(View()), multiset{Attempt(fd, Other)}, View());
      AttemptConfines(old(View()), fd, Other, View());
    }

    /** A numeric reply; its wording is not modelled. */
    method SendNumeric(fd: Fd, code: nat, params: seq<string>) returns (ok: bool)
      requires Good(View()) && code != 1 && AllTidy(params)
      modifies this
      ensures Good(View()) && Progress(old(View()), View())
      ensures View().app == Survive(old(View()).app, clients.Keys)
      ensures ok ==> View().app == old(View()).app && fd in connections && connections[fd].WantsWrite()
      ensures ok ==> connections == old(connections)[fd := connections[fd]]
      ensures !ok ==> fd !in connections || connections[fd].closeRequested
      ensures OnlyAnswered(old(View()), View(), fd, Numeric(code, params))
      ensures Answered(old(View()), View(), fd, Numeric(code, params)) && Sends(old(View()), View(), {}, {fd})
      ensures Took(old(View()), View(), fd, NumericLine(old(clients), fd, code, params))
    {
      hide Confined, Good, Progress, Survive, Reached, Proper, NumericLine, WF, RoomsOk, IndexAgrees, ClientsOk,
           AllTidy, Took;
      GoodFacts(View());
      NumericIsProper(clients, fd, code, params);
      ok := SendRaw(fd, NumericLine(clients, fd, code, params));
    }

    /** `broadcastToChannel`: each member but `exceptFd` is sent the line exactly once. */
    method BroadcastToChannel(name: string, line: string, exceptFd: Option<Fd>)
      requires Good(View()) && Proper(line, Other)
      modifies this
      ensures Good(View()) && Progress(old(View()), View())
      ensures View().app == Survive(old(View()).app, clients.Keys)
      ensures Cascade(Asked(old(View()), Copies(Audience(old(channels), name, exceptFd), Other)), View())
      ensures Reached(old(View()), View(), Audience(old(channels), name, exceptFd), line)
      ensures Sends(old(View()), View(), {}, Audience(old(channels), name, exceptFd))
    {
      hide Confined, Good, Cascade, Progress, Survive, Copies, Reached, Proper;
      SendEach(Audience(channels, name, exceptFd), line, Other);
      CopiesProgress(old(View()), Audience(old(channels), name, exceptFd), Other, View());
      CopiesConfine(old(View()), Audience(old(channels), name, exceptFd), Other, View());
    }

    method RequestClose(fd: Fd, reason: Words)
      requires Good(View())
      requires fd in loose || (fd in connections ==> connections[fd].WantsWrite())
      modifies `connections
      ensures Good(View()) && Progress(old(View()), View())
      ensures connections == if fd in old(connections) then old(connections)[fd := old(connections)[fd].Closing(reason)]
                             else old(connections)
      ensures connections.Keys == old(connections.Keys)
    {
      hide Confined, Good, Progress;
      if fd in connections {
        PartingIsGood(View(), fd, reason);
        connections := connections[fd := connections[fd].Closing(reason)];
      } else {
        ProgressSame(View());
      }
    }

    // ----- Registration (section 4.1 of RFC 1459) -----

    method HandlePass(fd: Fd, params: seq<string>)
      requires Ready(fd) && Decent(params)
      modifies this
      ensures Good(View()) && Progress(old(View()), View())
      ensures View().app == Survive(Passed(config, old(View()).app, fd, params), clients.Keys)
      ensures WrongPassword(config, old(clients)[fd], params) ==> Ending(connections, fd)
      ensures PassServed(config, old(View()), fd, params, View())
    {
      hide Confined, Tidy, Proper, Good, Progress, Survive, Registered, WF, RoomsOk, IndexAgrees, ClientsOk,
           Answered, OnlyAnswered, Took, Welcomed, NumericLine;
      var client := clients[fd];
      if client.registered || client.passOk {
        var _ := SendNumeric(fd, 462, []);
        return;
      }
      if params == [] {
        LiteralsAreTidy();
        var _ := SendNumeric(fd, 461, ["PASS"]);
        return;
      }
      if config.password != "" && params[0] != config.password {
        var _ := SendNumeric(fd, 464, []);
        ghost var w := View();
        ProgressFacts(old(View()), w);
        RequestClose(fd, WRONG_PASSWORD);
        ProgressThen(old(View()), w, View());
        TookThen(old(View()), w, View(), fd, NumericLine(old(clients), fd, 464, []));
        return;
      }
      GoodFacts(View());
      PassedWF(config, View().app, fd, params);
      WithClientTwice(View().app, fd, client.(passOk := true), Registered(client.(passOk := true)));
      clients := clients[fd := client.(passOk := true)];
      MaybeRegister(fd, old(View()));
    }

    method HandleUser(fd: Fd, params: seq<string>)
      requires Ready(fd) && Decent(params)
      modifies this
      ensures Good(View()) && Progress(old(View()), View())
      ensures View().app == Survive(Described(old(View()).app, fd, params), clients.Keys)
      ensures UserServed(old(View()), fd, params, View())
    {
      hide Confined, Tidy, Proper, Good, Progress, Survive, Registered, WF, RoomsOk, IndexAgrees, ClientsOk,
           Answered, OnlyAnswered, Welcomed;
      var client := clients[fd];
      if client.registered {
        var _ := SendNumeric(fd, 462, []);
        return;
      }
      if |params| < 4 {
        LiteralsAreTidy();
        var _ := SendNumeric(fd, 461, ["USER"]);
        return;
      }
      GoodFacts(View());
      DescribedWF(View().app, fd, params);
      ghost var described := client.(user := params[0], realname := params[3], hasUser := true);
      WithClientTwice(View().app, fd, described, Registered(described));
      clients := clients[fd := client.(user := params[0], realname := params[3], hasUser := true)];
      MaybeRegister(fd, old(View()));
    }

    /** `maybeRegister`, called with a gate just opened in a state that was good before. */
    method MaybeRegister(fd: Fd, ghost before: World)
      requires Good(before) && before.closing == {} && before.log.owed == {} && fd in before.loose
      requires fd in clients && fd in before.app.clients && View() == before.(app := View().app)
      requires View().app.clients.Keys == before.app.clients.Keys
      requires forall f :: f in clients && f != fd ==> clients[f] == before.app.clients[f]
      requires clients[fd].registered == before.app.clients[fd].registered
      requires WF(WithClient(View().app, fd, Registered(clients[fd])))
      modifies this
      ensures Good(View()) && Progress(before, View())
      ensures View().app == Survive(WithClient(old(View()).app, fd, Registered(old(clients)[fd])), clients.Keys)
      ensures before.app.clients[fd].registered ==> View() == old(View())
      ensures Sends(before, View(), {fd}, {})
      ensures var c := old(clients)[fd];
              !c.registered && c.passOk && c.hasNick && c.hasUser ==>
                Welcomed(before, View(), fd, old(clients)[fd].nick)
    {
      hide Confined, Tidy, Proper, Good, Progress, Survive, WF, Format, Cascade, Registered, RoomsOk, IndexAgrees,
           ClientsOk, Welcomed;
      RegisteredCases(clients[fd]);
      ghost var b := WithClient(View().app, fd, Registered(clients[fd]));
      var client := clients[fd];
      if client.registered || !client.passOk || !client.hasNick || !client.hasUser {
        assert clients[fd := client] == clients;
        AppChangeIsGood(before, View().app);
        SurviveAll(View().app, clients.Keys);
        ConfinedSame(log.attempts, {fd}, {});
        return;
      }
      RegisteringIsGood(before, b, fd);
      NamedHasNick(b, fd);
      clients := clients[fd := client.(registered := true)];
      log := log.(owed := {fd});
      WelcomeClient(fd, before);
    }

    /** The welcome that is owed, and what follows it. */
    method WelcomeClient(fd: Fd, ghost before: World)
      requires Good(View()) && fd in clients && before.log.owed == {} && clients.Keys == before.app.clients.Keys
      requires View() == before.(app := View().app, log := before.log.(owed := {fd}))
      modifies this
      requires clients[fd].nick != ""
      ensures Good(View()) && Progress(before, View())
      ensures View().app == Survive(old(View()).app, clients.Keys)
      ensures Welcomed(before, View(), fd, old(clients)[fd].nick) && Sends(before, View(), {fd}, {})
    {
      hide Confined, Tidy, Proper, Good, Progress, Survive, WF, Format, Cascade, RoomsOk, IndexAgrees, ClientsOk,
           Reached, Welcomed;
      GoodFacts(View());
      ghost var w := View();
      var nick := clients[fd].nick;
      RecordIsOk(clients, fd);
      WelcomeIsProper(nick);
      var line := Format(Message(SERVER_NAME, "001", [nick]));
      var ok := SendTo(fd, line, Welcome);
      WelcomeProgress(before, w, fd, View());
      AttemptConfines(w, fd, Welcome, View());
      ConfinedSame(before.log.attempts, {fd}, {});
      FreeThen(before.log.attempts, before.log.attempts, log.attempts, fd, {});
      ReachedSameWires(w, before, View(), View(), {fd}, line);
      if ok {
        Greet(fd, before);
      } else {
        NotWelcomed(before, View(), fd, nick);
      }
    }

    /** The two lines after the welcome. */
    method Greet(fd: Fd, ghost before: World)
      requires Good(View()) && Progress(before, View()) && fd in clients && clients[fd].nick != ""
      requires Sends(before, View(), {fd}, {})
      requires Reached(before, View(), {fd}, Format(Message(SERVER_NAME, "001", [clients[fd].nick])))
      modifies this
      ensures Good(View()) && Progress(before, View())
      ensures View().app == Survive(old(View()).app, clients.Keys)
      ensures Welcomed(before, View(), fd, old(clients)[fd].nick) && Sends(before, View(), {fd}, {})
    {
      hide Confined, Tidy, Proper, Good, Progress, Survive, Reached, Format, Code, Took;
      ghost var w, nick := View(), clients[fd].nick;
      ghost var first := Format(Message(SERVER_NAME, "001", [nick]));
      ghost var second := Format(Message(SERVER_NAME, Code(2), [nick] + []));
      assert [nick] + [] == [nick];
      var ok := SendNumeric(fd, 2, []);
      ghost var w1 := View();
      ReachedThen(before, w, w1, {fd}, first);
      ReachedLater(before, w, w1, {fd}, second);
      ProgressThen(before, w, w1);
      FreeThen(before.log.attempts, w.log.attempts, w1.log.attempts, fd, {});
      if ok {
        var _ := SendNumeric(fd, 3, []);
        ReachedThen(before, w1, View(), {fd}, first);
        ReachedThen(before, w1, View(), {fd}, second);
        ReachedLater(before, w1, View(), {fd}, Format(Message(SERVER_NAME, Code(3), [nick] + [])));
        ProgressThen(before, w1, View());
        FreeThen(before.log.attempts, w1.log.attempts, log.attempts, fd, {});
      } else {
        NotWelcomed(before, View(), fd, nick);
      }
    }

    method HandleNick(fd: Fd, params: seq<string>)
      requires Ready(fd) && Decent(params)
      modifies this
      ensures Good(View()) && Progress(old(View()), View())
      ensures View().app == Survive(Renamed(old(View()).app, fd, params), clients.Keys)
      ensures MayTake(old(View()).app, fd, params) && old(clients)[fd].registered ==>
                && ToldOnce(Circle(old(channels), fd), old(log.attempts), log.attempts, Rename(fd))
                && Reached(old(View()), View(), Circle(old(channels), fd),
                           Format(Message(old(PrefixFor(fd)), "NICK", [params[0]])))
      ensures NickServed(old(View()), fd, params, View())
    {
      hide Confined, Tidy, Proper, Reached, Good, Progress, Survive, Registered, WF, RoomsOk, IndexAgrees, ClientsOk,
           Format, Canonical, ValidNickname, Circle, Copies, Cascade, ToldOnce, Answered, OnlyAnswered, Welcomed,
           Took, NumericLine;
      if params == [] {
        var _ := SendNumeric(fd, 431, []);
        return;
      }
      var nextNick := params[0];
      if !ValidNickname(nextNick) {
        var _ := SendNumeric(fd, 432, [nextNick]);
        return;
      }
      var collision := FindFdByNickname(nextNick);
      if collision.Some? && collision.value != fd {
        var _ := SendNumeric(fd, 433, [nextNick]);
        return;
      }
      TakeNickname(fd, params);
    }

    /** A nickname that may be taken is; a registered client's rename is told with its old prefix. */
    method TakeNickname(fd: Fd, params: seq<string>)
      requires Ready(fd) && Decent(params) && MayTake(View().app, fd, params)
      modifies this
      ensures Good(View()) && Progress(old(View()), View())
      ensures View().app == Survive(Renamed(old(View()).app, fd, params), clients.Keys)
      ensures old(clients)[fd].registered ==>
                && ToldOnce(Circle(old(channels), fd), old(log.attempts), log.attempts, Rename(fd))
                && Reached(old(View()), View(), Circle(old(channels), fd),
                           Format(Message(old(PrefixFor(fd)), "NICK", [params[0]])))
      ensures if old(clients)[fd].registered then Sends(old(View()), View(), {}, Circle(old(channels), fd))
              else Sends(old(View()), View(), {fd}, {})
      ensures !old(clients)[fd].registered && old(clients)[fd].passOk && old(clients)[fd].hasUser ==>
                Welcomed(old(View()), View(), fd, params[0])
    {
      hide Confined, Tidy, Proper, Reached, Good, Progress, Survive, Registered, WF, RoomsOk, IndexAgrees, ClientsOk,
           Format, Canonical, ValidNickname, Circle, Copies, Cascade, ToldOnce, FindNick, Welcomed;
      var nextNick := params[0];
      var wasRegistered := clients[fd].registered;
      var oldPrefix := PrefixFor(fd);
      GoodFacts(View());
      PrefixIsWord(fd);
      RenamedWF(View().app, fd, params);
      ghost var before, named := View(), Nicknamed(View().app, fd, nextNick);
      WithClientTwice(before.app.(nicks := named.nicks), fd, named.clients[fd], Registered(named.clients[fd]));
      SetNickname(fd, nextNick);
      if wasRegistered {
        RenamedIsNicknamed(before.app, fd, params);
        AppChangeIsGood(before, named);
        ghost var w := View();
        RenameIsProper(oldPrefix, fd, nextNick);
        BroadcastToCommon(fd, Format(Message(oldPrefix, "NICK", [nextNick])), Rename(fd));
        ReachedSameWires(w, before, View(), View(), Circle(w.app.channels, fd),
                         Format(Message(oldPrefix, "NICK", [nextNick])));
        CopiesProgress(w, Circle(w.app.channels, fd), Rename(fd), View());
        ProgressThen(before, w, View());
        CopiesConfine(w, Circle(w.app.channels, fd), Rename(fd), View());
        CopiesToldOnce(w, Circle(w.app.channels, fd), Rename(fd), View());
        if fd !in clients {
          return;
        }
        SurviveRecord(named, clients.Keys, fd);
        ProgressFacts(before, View());
        GoodFacts(View());
        SameRecord(View().app, fd);
        MaybeRegister(fd, View());
      } else {
        MaybeRegister(fd, before);
      }
    }

    /** `ClientRegistry::findFdByNickname`: while the index agrees with the records, the lookup finds what a
        scan of all records for the folded nickname would find. */
    function FindFdByNickname(nick: string): (r: Option<Fd>)
      reads this
      ensures r == FindNick(State.App(clients, nicknames, channels, tokens), nick)
      ensures IndexAgrees(clients, nicknames) ==> ScanFinds(clients, nick, r)
    {
      if Canonical(nick) in nicknames then Some(nicknames[Canonical(nick)]) else None
    }

    /** `ClientRegistry::setNickname`: the old entry goes before the new one comes. */
    method SetNickname(fd: Fd, nick: string)
      requires fd in clients
      modifies `clients, `nicknames
      ensures View().app == Nicknamed(old(View()).app, fd, nick)
    {
      if clients[fd].nick != "" {
        nicknames := nicknames - {Canonical(clients[fd].nick)};
      }
      clients := clients[fd := clients[fd].(nick := nick, hasNick := true)];
      nicknames := nicknames[Canonical(nick) := fd];
    }

    /** `broadcastToCommon` including the client itself. */
    method BroadcastToCommon(fd: Fd, line: string, ghost cause: Cause)
      requires Good(View()) && !cause.Welcome? && Proper(line, cause)
      modifies this
      ensures Good(View()) && Cascade(Asked(old(View()), Copies(Circle(old(channels), fd), cause)), View())
      ensures Reached(old(View()), View(), Circle(old(channels), fd), line)
    {
      hide Tidy, Proper, Good, Cascade, Copies, Circle, Reached, Proper;
      var targets := CollectCircle(fd);
      SendEach(targets, line, cause);
    }

    /** The members of every channel `fd` is in, collected channel by channel without duplicates. */
    method CollectCircle(fd: Fd) returns (targets: set<Fd>)
      ensures targets == Circle(channels, fd)
    {
      targets := {};
      var names := channels.Keys;
      while names != {}
        invariant names <= channels.Keys
        invariant targets == CircleIn(channels, channels.Keys - names, fd)
        decreases |names|
      {
        var name :| name in names;
        CircleStep(channels, channels.Keys - names, fd, name);
        assert channels.Keys - (names - {name}) == channels.Keys - names + {name};
        if fd in channels[name].members {
          targets := targets + channels[name].members;
        }
        names := names - {name};
      }
      CircleDone(channels, fd);
      assert channels.Keys - names == channels.Keys;
    }

    method HandlePing(fd: Fd, params: seq<string>)
      requires Ready(fd) && Decent(params)
      modifies this
      ensures Good(View()) && Progress(old(View()), View())
      ensures View().app == Survive(old(View()).app, clients.Keys)
      ensures params != [] ==>
                Reached(old(View()), View(), {fd}, Format(Message(SERVER_NAME, "PONG", [SERVER_NAME, params[0]])))
      ensures PingServed(old(View()), fd, params, View())
    {
      hide Confined, Tidy, Proper, Good, Progress, Survive, Format, Reached, Answered, OnlyAnswered, Took;
      if params == [] {
        var _ := SendNumeric(fd, 409, []);
        return;
      }
      AddressIsTidy(SERVER_NAME);
      ServerLineIsProper("PONG", [SERVER_NAME, params[0]]);
      var _ := SendRaw(fd, Format(Message(SERVER_NAME, "PONG", [SERVER_NAME, params[0]])));
    }

    /** Only the token of the probe under way ends the wait (section 4.6.3 of RFC 1459). */
    method HandlePong(fd: Fd, params: seq<string>)
      requires Ready(fd) && Decent(params)
      modifies this
      ensures Good(View()) && Progress(old(View()), View())
      ensures View().app == Ponged(old(View()).app, fd, params)
      ensures connections == old(connections) && log == old(log)
    {
      hide Confined, Tidy, Proper, Good, Progress, WF, RoomsOk, IndexAgrees, ClientsOk;
      ghost var before := View();
      GoodFacts(before);
      PongedWF(before.app, fd, params);
      AppChangeIsGood(before, Ponged(before.app, fd, params));
      var client := clients[fd];
      if !client.awaitingPong || |params| != 1 || params[0] != client.pendingPongToken {
        return;
      }
      clients := clients[fd := client.(awaitingPong := false, pendingPongToken := "", lastPingAt := 0)];
    }

    method HandleQuit(fd: Fd, params: seq<string>)
      requires Ready(fd) && Decent(params)
      modifies this
      ensures Good(View()) && Progress(old(View()), View())
      ensures View().app == old(View()).app
      ensures fd in connections ==> connections[fd].closeRequested
      ensures QuitServed(old(View()), fd, params, View())
    {
      hide Confined, Tidy, Proper, Good, Progress;
      RequestClose(fd, if params == [] then CLIENT_QUIT else params[0]);
    }

    // ----- Channels -----

    /** The gate shared by channel commands: the channel exists and, if asked, has `fd` as a member. */
    method FindChannelForCommand(fd: Fd, name: string, requireMembership: bool) returns (found: bool)
      requires Good(View()) && Tidy(name)
      modifies this
      ensures Good(View()) && Progress(old(View()), View())
      ensures View().app == Survive(old(View()).app, clients.Keys)
      ensures found <==> name in old(channels) && (requireMembership ==> fd in old(channels)[name].members)
      ensures found ==> View() == old(View())
      ensures found <==> ChannelRefusal(old(View()).app, fd, name, requireMembership).None?
      ensures !found ==>
                var refusal := ChannelRefusal(old(View()).app, fd, name, requireMembership);
                OnlyAnswered(old(View()), View(), fd, refusal.value)
    {
      hide Confined, Tidy, Proper, Good, Progress, Survive, Answered, OnlyAnswered, Took, NumericLine;
      if name !in channels {
        var _ := SendNumeric(fd, 403, [name]);
        return false;
      }
      if requireMembership && fd !in channels[name].members {
        var _ := SendNumeric(fd, 442, [name]);
        return false;
      }
      NothingHappened(View());
      return true;
    }

    method SendTopicReply(fd: Fd, name: string) returns (ok: bool)
      requires Good(View()) && name in channels
      modifies this
      ensures Good(View()) && Progress(old(View()), View())
      ensures View().app == Survive(old(View()).app, clients.Keys)
      ensures ok ==> View().app == old(View()).app && fd in connections
      ensures !ok ==> fd !in connections || connections[fd].closeRequested
      ensures Reached(old(View()), View(), {fd}, TopicLine(old(View()).app, fd, name))
      ensures Sends(old(View()), View(), {}, {fd})
    {
      hide Confined, Tidy, Proper, Good, Progress, Survive, Reached, NumericLine;
      GoodFacts(View());
      RoomIsTidy(channels, clients, name);
      if channels[name].hasTopic {
        ok := SendNumeric(fd, 332, [name, channels[name].topic]);
      } else {
        ok := SendNumeric(fd, 331, [name]);
      }
    }

    /** The members of a channel in some order, operators marked (`joinWords`). */
    method CallRoll(name: string) returns (text: string)
      requires RoomsOk(channels, clients) && name in channels
      ensures exists order ::
                Lists(order, channels[name].members) && text == Roll(clients, channels[name].operators, order)
    {
      hide Distinct;
      assert RoomOk(name, channels[name], clients);
      var members := Listing(channels[name].members);
      text := "";
      for i := 0 to |members|
        invariant text == Roll(clients, channels[name].operators, members[..i])
      {
        assert members[i] in members;
        assert members[..i + 1][..i] == members[..i];
        var word := (if members[i] in channels[name].operators then "@" else "") + NickOf(clients, members[i]);
        text := if i == 0 then word else text + " " + word;
      }
      assert members[..|members|] == members && Lists(members, channels[name].members);
    }

    method SendNames(fd: Fd, name: string) returns (ok: bool)
      requires Good(View()) && name in channels
      modifies this
      ensures Good(View()) && Progress(old(View()), View())
      ensures View().app == Survive(old(View()).app, clients.Keys)
      ensures ok ==> View().app == old(View()).app && fd in connections
      ensures !ok ==> fd !in connections || connections[fd].closeRequested
      ensures RollCalled(old(View()), View(), fd, name) && Sends(old(View()), View(), {fd}, {})
    {
      hide Confined, Tidy, Proper, Good, Progress, Survive, WF, RoomsOk, IndexAgrees, ClientsOk, Reached,
           NumericLine, Roll, Lists, Took;
      ghost var before := View();
      GoodFacts(before);
      RoomIsTidy(channels, clients, name);
      LiteralsAreTidy();
      var text := CallRoll(name);
      ghost var order :| Lists(order, channels[name].members) && text == Roll(clients, channels[name].operators, order);
      RollIsTidy(clients, channels[name].operators, order);
      ok := SendNumeric(fd, 353, ["=", name, text]);
      ghost var w := View();
      ConfinedSame(before.log.attempts, {fd}, {});
      FreeThen(before.log.attempts, before.log.attempts, w.log.attempts, fd, {});
      assert Reached(before, w, {fd}, NamesLine(before.app, fd, name, order));
      if ok {
        ok := SendNumeric(fd, 366, [name]);
        ReachedThen(before, w, View(), {fd}, NamesLine(before.app, fd, name, order));
        ReachedLater(before, w, View(), {fd}, NumericLine(before.app.clients, fd, 366, [name]));
        ProgressThen(before, w, View());
        FreeThen(before.log.attempts, w.log.attempts, log.attempts, fd, {});
      } else {
        NoAnswerOwed(before, View(), fd, Numeric(366, [name]));
      }
      RollIsCalled(before, View(), fd, name, order);
    }

    method HandleTopic(fd: Fd, params: seq<string>)
      requires Ready(fd) && Decent(params)
      modifies this
      ensures Good(View()) && Progress(old(View()), View())
      ensures View().app == Survive(Retitled(old(View()).app, fd, params), clients.Keys)
      ensures TopicServed(old(View()), fd, params, View())
    {
      hide Confined, Tidy, Proper, Reached, Good, Progress, Survive, WF, RoomsOk, IndexAgrees, ClientsOk, Format,
           Cascade, Answered, OnlyAnswered, Took, NumericLine;
      if params == [] {
        LiteralsAreTidy();
        var _ := SendNumeric(fd, 461, ["TOPIC"]);
        return;
      }
      var found := FindChannelForCommand(fd, params[0], true);
      if !found {
        return;
      }
      if |params| == 1 {
        var _ := SendTopicReply(fd, params[0]);
        return;
      }
      var channel := channels[params[0]];
      if channel.topicProtected && fd !in channel.operators {
        var _ := SendNumeric(fd, 482, [params[0]]);
        return;
      }
      ChangeTopic(fd, params);
    }

    method ChangeTopic(fd: Fd, params: seq<string>)
      requires Ready(fd) && Decent(params) && MayRetitle(View().app, fd, params)
      modifies this
      ensures Good(View()) && Progress(old(View()), View())
      ensures View().app == Survive(Retitled(old(View()).app, fd, params), clients.Keys)
      ensures Reached(old(View()), View(), old(channels)[params[0]].members,
                      Format(Message(old(PrefixFor(fd)), "TOPIC", [params[0], params[1]])))
      ensures Sends(old(View()), View(), {}, old(channels)[params[0]].members)
    {
      hide Confined, Tidy, Proper, Reached, Good, Progress, Survive, WF, RoomsOk, IndexAgrees, ClientsOk, Format,
           Cascade;
      var channel := channels[params[0]];
      ghost var before := View();
      GoodFacts(before);
      RetitledWF(before.app, fd, params);
      AppChangeIsGood(before, Retitled(before.app, fd, params));
      channels := channels[params[0] := channel.SetTopic(params[1])];
      ghost var w := View();
      GoodFacts(w);
      ClientLineIsProper(fd, "TOPIC", [params[0], params[1]]);
      BroadcastToChannel(params[0], Format(Message(PrefixFor(fd), "TOPIC", [params[0], params[1]])), None);
      ProgressThen(before, w, View());
      ReachedSameWires(w, before, View(), View(), channel.members,
                       Format(Message(old(PrefixFor(fd)), "TOPIC", [params[0], params[1]])));
    }

    method HandleKick(fd: Fd, params: seq<string>)
      requires Ready(fd) && Decent(params)
      modifies this
      ensures Good(View()) && Progress(old(View()), View())
      ensures View().app == Kicked(old(View()).app, fd, params, clients.Keys)
      ensures KickServed(old(View()), fd, params, View())
    {
      hide Confined, Tidy, Proper, Reached, Good, Progress, Survive, WF, RoomsOk, IndexAgrees, ClientsOk, Format,
           Cascade, Canonical, Answered, OnlyAnswered, Took, NumericLine;
      if |params| < 2 {
        LiteralsAreTidy();
        var _ := SendNumeric(fd, 461, ["KICK"]);
        return;
      }
      var found := FindChannelForCommand(fd, params[0], true);
      if !found {
        return;
      }
      var name := params[0];
      if fd !in channels[name].operators {
        var _ := SendNumeric(fd, 482, [name]);
        return;
      }
      var target := FindFdByNickname(params[1]);
      if target.None? {
        var _ := SendNumeric(fd, 401, [params[1]]);
        return;
      }
      if target.value !in channels[name].members {
        var _ := SendNumeric(fd, 441, [params[1], name]);
        return;
      }
      var comment := if |params| > 2 then params[2] else params[1];
      GoodFacts(View());
      ClientLineIsProper(fd, "KICK", [name, params[1], comment]);
      var line := Format(Message(PrefixFor(fd), "KICK", [name, params[1], comment]));
      BroadcastToChannel(name, line, None);
      ghost var w := View();
      RemoveFromChannel(name, target.value, old(View()));
      ReachedSameWires(old(View()), old(View()), w, View(), old(channels)[name].members, line);
    }

    /** Take one client out of one channel, if it still exists, and erase the channel if that empties it. */
    method RemoveFromChannel(name: string, fd: Fd, ghost before: World)
      requires Good(View()) && Progress(before, View())
      modifies `channels
      ensures Good(View()) && Progress(before, View())
      ensures View().app == Removed(old(View()).app, name, fd)
    {
      hide Confined, Tidy, Proper, Good, Progress, WF, RoomsOk, IndexAgrees, ClientsOk;
      ghost var w := View();
      GoodFacts(w);
      RemovedWF(w.app, name, fd);
      AppChangeIsGood(w, Removed(w.app, name, fd));
      ProgressThen(before, w, w.(app := Removed(w.app, name, fd)));
      if name !in channels {
        return;
      }
      channels := channels[name := channels[name].RemoveMember(fd)];
      if channels[name].members == {} {
        channels := channels - {name};
        assert channels == w.app.channels - {name};
      }
    }

    method HandleInvite(fd: Fd, params: seq<string>)
      requires Ready(fd) && Decent(params)
      modifies this
      ensures Good(View()) && Progress(old(View()), View())
      ensures View().app == Survive(Invited(old(View()).app, fd, params), clients.Keys)
      ensures InviteServed(old(View()), fd, params, View())
    {
      hide Confined, Tidy, Proper, Reached, Good, Progress, Survive, WF, RoomsOk, IndexAgrees, ClientsOk, Format,
           Canonical, Answered, OnlyAnswered, Took, NumericLine;
      if |params| < 2 {
        LiteralsAreTidy();
        var _ := SendNumeric(fd, 461, ["INVITE"]);
        return;
      }
      var targetNick, name := params[0], params[1];
      var target := FindFdByNickname(targetNick);
      if target.None? {
        var _ := SendNumeric(fd, 401, [targetNick]);
        return;
      }
      var found := FindChannelForCommand(fd, name, true);
      if !found {
        return;
      }
      var channel := channels[name];
      if channel.inviteOnly && fd !in channel.operators {
        var _ := SendNumeric(fd, 482, [name]);
        return;
      }
      if target.value in channel.members {
        var _ := SendNumeric(fd, 443, [targetNick, name]);
        return;
      }
      GiveInvitation(fd, params, target.value);
    }

    method GiveInvitation(fd: Fd, params: seq<string>, target: Fd)
      requires Ready(fd) && Decent(params) && MayInvite(View().app, fd, params)
      requires FindNick(View().app, params[0]) == Some(target)
      modifies this
      ensures Good(View()) && Progress(old(View()), View())
      ensures View().app == Survive(Invited(old(View()).app, fd, params), clients.Keys)
      ensures Reached(old(View()), View(), {target},
                      Format(Message(old(PrefixFor(fd)), "INVITE", [params[0], params[1]])))
      ensures Answered(old(View()), View(), fd, Numeric(341, [params[0], params[1]]))
      ensures Sends(old(View()), View(), {}, {fd, target})
    {
      hide Confined, Tidy, Proper, Reached, Good, Progress, Survive, WF, RoomsOk, IndexAgrees, ClientsOk, Format,
           Canonical, FindNick, Answered, OnlyAnswered, Took;
      var targetNick, name := params[0], params[1];
      var channel := channels[name];
      ghost var before := View();
      GoodFacts(before);
      InvitedWF(before.app, fd, params);
      AppChangeIsGood(before, Invited(before.app, fd, params));
      channels := channels[name := channel.Invite(targetNick)];
      ghost var w := View();
      GoodFacts(w);
      ClientLineIsProper(fd, "INVITE", [targetNick, name]);
      var invitation := Format(Message(PrefixFor(fd), "INVITE", [targetNick, name]));
      var _ := SendNumeric(fd, 341, [targetNick, name]);
      ghost var w1 := View();
      ProgressThen(before, w, w1);
      var _ := SendRaw(target, invitation);
      AnsweredWithin(before, w, w1, View(), fd, Numeric(341, [targetNick, name]));
      ProgressThen(before, w1, View());
      ReachedLater(before, w1, View(), {target}, invitation);
      ConfinedPair(w.log.attempts, w1.log.attempts, log.attempts, fd, target);
      ProgressFacts(w1, View());
      SurviveTwice(w.app, w1.app.clients.Keys, clients.Keys);
    }

    /** JOIN of a list, or JOIN 0. The list is cut short only when the client is gone or its queue refused
        a reply. */
    method HandleJoin(fd: Fd, params: seq<string>) returns (ghost stages: seq<set<Fd>>, ghost ws: seq<World>)
      requires Ready(fd) && clients[fd].registered && Decent(params)
      modifies this
      ensures Good(View()) && Progress(old(View()), View())
      ensures params != [] ==> |stages| <= |Pieces(params[0])|
      ensures View().app == Joined(old(View()).app, fd, params, clients.Keys, stages)
      ensures params != [] && params[0] != "0" ==>
                |stages| == |Pieces(params[0])| || fd !in connections || connections[fd].closeRequested
      ensures JoinCommandServed(old(View()), fd, params, ws, View())
    {
      hide Confined, Tidy, Proper, Good, Progress, Survive, JoinOne, WF, RoomsOk, IndexAgrees, ClientsOk, Pieces,
           Left, RoomsOf, JoinServed, JoinsServed, PartsServed, Answered, OnlyAnswered, Took, NumericLine;
      stages, ws := [], [View()];
      if params == [] {
        LiteralsAreTidy();
        var _ := SendNumeric(fd, 461, ["JOIN"]);
        return;
      }
      if params[0] == "0" {
        ghost var _, parted := PartAllChannels(fd, LEAVING_ALL);
        ws := parted;
        return;
      }
      var names := SplitComma(params[0]);
      PiecesAreTidy(params[0]);
      ghost var a := View().app;
      ProgressSame(View());
      NoJoins(View(), fd);
      assert names[..0] == [];
      var i := 0;
      while i < |names|
        invariant 0 <= i <= |names| && |stages| == i
        invariant Good(View()) && Progress(old(View()), View())
        invariant closing == {} && log.owed == {} && fd in loose
        invariant fd in clients && clients[fd].registered
        invariant View().app == JoinRun(a, fd, names, stages)
        invariant |ws| == i + 1 && ws[0] == old(View()) && ws[i] == View() && JoinsServed(ws, fd, names[..i])
      {
        ghost var w := View();
        var more := JoinChannel(fd, names[i]);
        JoinsMore(ws, fd, names, i, View());
        ws := ws + [View()];
        ProgressThen(old(View()), w, View());
        ProgressFacts(w, View());
        assert (stages + [clients.Keys])[..i] == stages;
        stages := stages + [clients.Keys];
        i := i + 1;
        if !more {
          return;
        }
      }
    }

    /** One name of a JOIN. */
    method JoinChannel(fd: Fd, name: string) returns (more: bool)
      requires Ready(fd) && clients[fd].registered && Tidy(name)
      modifies this
      ensures Good(View()) && Progress(old(View()), View())
      ensures View().app == Survive(JoinOne(old(View()).app, fd, name), clients.Keys)
      ensures more ==> fd in clients && clients[fd].registered
      ensures !more ==> fd !in connections || connections[fd].closeRequested
      ensures JoinServed(old(View()), fd, name, View())
    {
      hide Confined, Tidy, Proper, Reached, Format, Good, Progress, Survive, WF, RoomsOk, IndexAgrees, ClientsOk,
           Cascade, ValidChannelName, Canonical, JoinOne, Answered, OnlyAnswered, Took, NumericLine, RollCalled,
           RollLater;
      ghost var before, b := View(), JoinOne(View().app, fd, name);
      GoodFacts(before);
      JoinOneWF(before.app, fd, name);
      JoinOneCases(before.app, fd, name);
      if !ValidChannelName(name) {
        more := SendNumeric(fd, 403, [name]);
        return;
      }
      EnsureChannel(name);
      var channel, nick := channels[name], clients[fd].nick;
      if fd in channel.members {
        more := SendNames(fd, name);
        return;
      }
      if channel.inviteOnly && !channel.IsInvited(nick) {
        more := SendNumeric(fd, 473, [name]);
        return;
      }
      var firstMember := channel.members == {};
      channel := channel.AddMember(fd, firstMember);
      channel := channel.ClearInvite(nick);
      channels := channels[name := channel];
      AppChangeIsGood(before, b);
      ghost var w := View();
      more := AnnounceJoin(fd, name, before);
      JoinAnnounced(w, before, View(), fd, name);
      SurviveRecord(b, clients.Keys, fd);
    }

    /** Tell the channel of its new member, and the member of the channel. */
    method AnnounceJoin(fd: Fd, name: string, ghost before: World) returns (more: bool)
      requires Good(View()) && Progress(before, View()) && closing == {}
      requires name in channels && fd in channels[name].members
      modifies this
      ensures Good(View()) && Progress(before, View())
      ensures View().app == Survive(old(View()).app, clients.Keys)
      ensures more ==> fd in clients
      ensures !more ==> fd !in connections || connections[fd].closeRequested
      ensures Reached(old(View()), View(), old(channels)[name].members, LineFrom(old(clients), fd, "JOIN", [name]))
      ensures Reached(old(View()), View(), {fd}, TopicLine(old(View()).app, fd, name))
      ensures RollLater(old(View()), old(View()).app, View(), fd, name)
      ensures Sends(old(View()), View(), {fd}, old(channels)[name].members)
    {
      hide Confined, Tidy, Proper, Reached, Good, Progress, Survive, WF, RoomsOk, IndexAgrees, ClientsOk, Format,
           Cascade, TopicLine, RollCalled, RollLater;
      ghost var w, topic := View(), TopicLine(View().app, fd, name);
      GoodFacts(w);
      RoomIsTidy(channels, clients, name);
      ClientLineIsProper(fd, "JOIN", [name]);
      var line := Format(Message(PrefixFor(fd), "JOIN", [name]));
      BroadcastToChannel(name, line, None);
      ghost var w1, all := View(), w.app.channels[name].members;
      ConfinedSame(w1.log.attempts, {fd}, {});
      FreeThen(w.log.attempts, w1.log.attempts, w1.log.attempts, fd, all);
      ProgressThen(before, w, w1);
      ProgressFacts(w, w1);
      MemberKeepsRoom(w.app, clients.Keys, name, fd);
      GoodFacts(w1);
      if fd !in clients {
        NoAnswersOwed(w, View(), fd, topic);
        NoRollOwed(w, w.app, View(), fd, name);
        return false;
      }
      TopicLineSurvives(w.app, clients.Keys, fd, name);
      more := SendTopicReply(fd, name);
      FreeThen(w.log.attempts, w1.log.attempts, log.attempts, fd, all);
      ReachedLater(w, w1, View(), {fd}, topic);
      ProgressThen(before, w1, View());
      ProgressFacts(w1, View());
      ProgressThen(w, w1, View());
      ReachedThen(w, w1, View(), w.app.channels[name].members, line);
      SurviveTwice(w.app, w1.app.clients.Keys, clients.Keys);
      if !more {
        NoRollOwed(w, w.app, View(), fd, name);
        return;
      }
      ghost var w2 := View();
      more := SendNames(fd, name);
      FreeThen(w.log.attempts, w2.log.attempts, log.attempts, fd, all);
      ReachedThen(w, w2, View(), {fd}, topic);
      RollIsLater(w, w.app, w2, View(), fd, name);
      ProgressThen(before, w2, View());
      ProgressFacts(w2, View());
      ReachedThen(w, w2, View(), w.app.channels[name].members, line);
      SurviveTwice(w.app, w2.app.clients.Keys, clients.Keys);
    }

    method EnsureChannel(name: string)
      modifies `channels
      ensures channels == if name in old(channels) then old(channels) else old(channels)[name := NewChannel(name)]
    {
      if name !in channels {
        channels := channels[name := NewChannel(name)];
      }
    }

    method PartChannel(fd: Fd, name: string, reason: string)
      requires Good(View()) && Tidy(name) && Tidy(reason)
      modifies this
      ensures Good(View()) && Progress(old(View()), View())
      ensures View().app == Removed(Survive(old(View()).app, clients.Keys), name, fd)
      ensures PartServed(old(View()), fd, name, reason, View())
    {
      hide Confined, Tidy, Proper, Reached, Good, Progress, Survive, WF, RoomsOk, IndexAgrees, ClientsOk, Format,
           Cascade, Removed, Answered, OnlyAnswered, Took, NumericLine;
      ghost var before := View();
      GoodFacts(before);
      if name !in channels {
        var _ := SendNumeric(fd, 403, [name]);
        RemovedOutsider(before.app, clients.Keys, name, fd);
        return;
      }
      if fd !in channels[name].members {
        var _ := SendNumeric(fd, 442, [name]);
        RemovedOutsider(before.app, clients.Keys, name, fd);
        return;
      }
      var params := [name] + if reason == "" then [] else [reason];
      ClientLineIsProper(fd, "PART", params);
      var line := Format(Message(PrefixFor(fd), "PART", params));
      BroadcastToChannel(name, line, None);
      ghost var w := View();
      RemoveFromChannel(name, fd, before);
      ReachedSameWires(before, before, w, View(), before.app.channels[name].members, line);
    }

    method HandlePart(fd: Fd, params: seq<string>) returns (ghost ws: seq<World>)
      requires Ready(fd) && Decent(params)
      modifies this
      ensures Good(View()) && Progress(old(View()), View())
      ensures View().app == if params == [] then Survive(old(View()).app, clients.Keys)
                            else Left(old(View()).app, fd, SetOf(Pieces(params[0])), clients.Keys)
      ensures PartCommandServed(old(View()), fd, params, ws, View())
    {
      hide Confined, Tidy, Proper, Good, Progress, Survive, Left, Removed, Pieces, PartServed, PartsServed, Answered,
           OnlyAnswered, Took, NumericLine;
      ws := [View()];
      if params == [] {
        LiteralsAreTidy();
        var _ := SendNumeric(fd, 461, ["PART"]);
        return;
      }
      var reason := if |params| > 1 then params[1] else "";
      assert Tidy(reason) by { LiteralsAreTidy(); }
      var names := SplitComma(params[0]);
      PiecesAreTidy(params[0]);
      ghost var before := View();
      LeftNothing(before.app, fd, clients.Keys);
      NothingHappened(before);
      assert SetOf(names[..0]) == {} && names[..0] == [];
      NoParts(before, fd, reason);
      for i := 0 to |names|
        invariant Good(View()) && Progress(before, View())
        invariant View().app == Left(before.app, fd, SetOf(names[..i]), clients.Keys)
        invariant |ws| == i + 1 && ws[0] == before && ws[i] == View() && PartsServed(ws, fd, names[..i], reason)
      {
        ghost var w := View();
        PartChannel(fd, names[i], reason);
        PartsMore(ws, fd, names[..i], reason, names[i], View());
        assert names[..i] + [names[i]] == names[..i + 1];
        ws := ws + [View()];
        ProgressThen(before, w, View());
        ProgressFacts(w, View());
        LeaveOneMore(before.app, fd, SetOf(names[..i]), w.app.clients.Keys, clients.Keys, names[i]);
        assert SetOf(names[..i + 1]) == SetOf(names[..i]) + {names[i]};
      }
      assert names[..|names|] == names;
    }

    method PartAllChannels(fd: Fd, reason: Words) returns (ghost names: seq<string>, ghost ws: seq<World>)
      requires Good(View())
      modifies this
      ensures Good(View()) && Progress(old(View()), View())
      ensures View().app == Left(old(View()).app, fd, RoomsOf(old(channels), fd), clients.Keys)
      ensures SetOf(names) == RoomsOf(old(channels), fd) && PartsServed(ws, fd, names, reason)
      ensures Leads(old(View()), ws, View())
    {
      hide Confined, Tidy, Proper, Good, Progress, Survive, Left, Removed, WF, RoomsOk, IndexAgrees, ClientsOk,
           Reached, Format, PartServed, PartsServed;
      ghost var before := View();
      names, ws := [], [View()];
      NoParts(before, fd, reason);
      LeftNothing(before.app, fd, clients.Keys);
      NothingHappened(before);
      GoodFacts(before);
      var waiting := RoomsOf(channels, fd);
      ghost var all, done: set<string> := waiting, {};
      while waiting != {}
        invariant Good(View()) && Progress(before, View())
        invariant done + waiting == all <= before.app.channels.Keys
        invariant View().app == Left(before.app, fd, done, clients.Keys)
        invariant SetOf(names) == done && |ws| == |names| + 1 && ws[0] == before && ws[|names|] == View()
        invariant PartsServed(ws, fd, names, reason)
        decreases |waiting|
      {
        var name :| name in waiting;
        ghost var w := View();
        assert Tidy(name) by { RoomIsTidy(before.app.channels, before.app.clients, name); }
        PartChannel(fd, name, reason);
        PartsMore(ws, fd, names, reason, name, View());
        assert SetOf(names + [name]) == SetOf(names) + {name};
        names, ws := names + [name], ws + [View()];
        ProgressThen(before, w, View());
        ProgressFacts(w, View());
        LeaveOneMore(before.app, fd, done, w.app.clients.Keys, clients.Keys, name);
        waiting, done := waiting - {name}, done + {name};
      }
      assert done == all;
    }

    // ----- Modes -----

    /** Whether the client and the channel are both still there after the broadcast. */
    method BroadcastMode(fd: Fd, name: string, mode: string, arg: string) returns (ok: bool)
      requires Good(View()) && name in channels && Tidy(mode) && Tidy(arg)
      modifies this
      ensures Good(View()) && Progress(old(View()), View())
      ensures View().app == Survive(old(View()).app, clients.Keys)
      ensures ok <==> fd in clients && name in channels
      ensures Reached(old(View()), View(), old(channels)[name].members, ModeLine(old(clients), fd, name, mode, arg))
      ensures Sends(old(View()), View(), {}, old(channels)[name].members)
    {
      hide Confined, Tidy, Proper, Good, Progress, Survive, Cascade, Reached;
      GoodFacts(View());
      RoomIsTidy(channels, clients, name);
      ClientLineIsProper(fd, "MODE", [name, mode] + if arg == "" then [] else [arg]);
      BroadcastToChannel(name, ModeLine(clients, fd, name, mode, arg), None);
      ok := fd in clients && name in channels;
    }

    /** One character of a mode string. */
    method ModeChar(fd: Fd, params: seq<string>, mode: char, adding: bool, arg: nat)
      returns (adding': bool, arg': nat, more: bool)
      requires Good(View()) && closing == {} && fd in clients
      requires |params| >= 2 && params[0] in channels && fd in channels[params[0]].members
      requires AllTidy(params) && mode in params[1]
      modifies this
      ensures Good(View()) && Progress(old(View()), View())
      ensures Modes(View().app, adding', arg') == ModeStep(Modes(old(View()).app, adding, arg), params, mode,
                                                           clients.Keys)
      ensures more ==> fd in clients && params[0] in channels && fd in channels[params[0]].members
      ensures !more ==> fd !in connections || connections[fd].closeRequested
      ensures ModeServed(old(View()), fd, params, mode, adding, arg, View())
    {
      hide Confined, Tidy, Proper, Good, Progress, Survive, WF, RoomsOk, IndexAgrees, ClientsOk, Cascade, Canonical,
           Answered, OnlyAnswered, Took, NumericLine, Reached, ModeLine, ModeTarget;
      var name := params[0];
      adding', arg' := adding, arg;
      ghost var before, s := View(), Modes(View().app, adding, arg);
      ghost var b := ModeRoom(s, params, mode);
      GoodFacts(before);
      ModeRoomWF(s, params, mode);
      ModeRoomKeeps(s, params, mode, fd);
      AppChangeIsGood(before, b);
      if mode == '+' || mode == '-' {
        adding' := mode == '+';
        NothingHappened(before);
        return adding', arg', true;
      }
      var sign := if adding then "+" else "-";
      SignsAreTidy(sign, mode, params[1]);
      if mode == 'i' {
        channels := channels[name := channels[name].(inviteOnly := adding)];
        more := ShowMode(fd, name, sign + "i", "", before);
        assert sign + "i" == sign + [mode];
      } else if mode == 't' {
        channels := channels[name := channels[name].(topicProtected := adding)];
        more := ShowMode(fd, name, sign + "t", "", before);
        assert sign + "t" == sign + [mode];
      } else if mode == 'o' {
        if arg >= |params| {
          NoTarget(before.app, params, arg);
          LiteralsAreTidy();
          more := SendNumeric(fd, 461, ["MODE"]);
          return;
        }
        arg' := arg + 1;
        more := ModeOperator(fd, params, adding, arg);
      } else {
        more := SendNumeric(fd, 472, [[mode]]);
      }
    }

    /** The mode character that makes or unmakes an operator. */
    method ModeOperator(fd: Fd, params: seq<string>, adding: bool, arg: nat) returns (more: bool)
      requires Good(View()) && closing == {} && fd in clients && AllTidy(params)
      requires 2 <= |params| && arg < |params| && params[0] in channels && fd in channels[params[0]].members
      modifies this
      ensures Good(View()) && Progress(old(View()), View())
      ensures View().app == Survive(ModeRoom(Modes(old(View()).app, adding, arg), params, 'o'), clients.Keys)
      ensures more ==> fd in clients && params[0] in channels && fd in channels[params[0]].members
      ensures !more ==> Ending(connections, fd)
      ensures ModeServed(old(View()), fd, params, 'o', adding, arg, View())
    {
      hide Confined, Tidy, Proper, Good, Progress, Survive, WF, RoomsOk, IndexAgrees, ClientsOk, Cascade, Canonical,
           FindNick, Answered, OnlyAnswered, Took, NumericLine, Reached, ModeLine;
      var name, nick := params[0], params[arg];
      ghost var before, s := View(), Modes(View().app, adding, arg);
      GoodFacts(before);
      ModeRoomWF(s, params, 'o');
      ModeRoomKeeps(s, params, 'o', fd);
      AppChangeIsGood(before, ModeRoom(s, params, 'o'));
      var target := FindFdByNickname(nick);
      if target.None? || target.value !in clients || target.value !in channels[name].members {
        more := SendNumeric(fd, 441, [nick, name]);
        return;
      }
      var targetNick := clients[target.value].nick;
      NickIsTidy(clients, target.value);
      OperatorSignsAreTidy();
      channels := channels[name := channels[name].SetOperator(target.value, adding)];
      assert (if adding then "+" else "-") + "o" == if adding then "+o" else "-o";
      more := ShowMode(fd, name, if adding then "+o" else "-o", targetNick, before);
    }

    /** Broadcast a change just made; false only when the client that made it is gone. */
    method ShowMode(fd: Fd, name: string, mode: string, arg: string, ghost before: World) returns (more: bool)
      requires Good(View()) && Progress(before, View()) && closing == {} && Tidy(mode) && Tidy(arg)
      requires name in channels && fd in channels[name].members
      modifies this
      ensures Good(View()) && Progress(before, View())
      ensures View().app == Survive(old(View()).app, clients.Keys)
      ensures more ==> fd in clients && name in channels && fd in channels[name].members
      ensures !more ==> fd !in connections
      requires clients == before.app.clients && log == before.log
      ensures Reached(before, View(), old(channels)[name].members, ModeLine(old(clients), fd, name, mode, arg))
      ensures Sends(before, View(), {}, old(channels)[name].members)
    {
      hide Confined, Tidy, Proper, Reached, Good, Progress, Survive, WF, RoomsOk, IndexAgrees, ClientsOk, ModeLine;
      ghost var w := View();
      more := BroadcastMode(fd, name, mode, arg);
      ReachedSameWires(w, before, View(), View(), w.app.channels[name].members,
                       ModeLine(w.app.clients, fd, name, mode, arg));
      ProgressThen(before, w, View());
      ProgressFacts(w, View());
      GoodFacts(View());
      MemberKeepsRoom(w.app, clients.Keys, name, fd);
    }

    method HandleChannelMode(fd: Fd, params: seq<string>) returns (ghost stages: seq<set<Fd>>, ghost ws: seq<World>)
      requires Ready(fd) && params != [] && Decent(params) && IsChannelTarget(params[0])
      modifies this
      ensures Good(View()) && Progress(old(View()), View())
      ensures |params| >= 2 ==> |stages| <= |params[1]|
      ensures View().app == if MayChangeModes(old(View()).app, fd, params) then
                              ModeRun(old(View()).app, params, stages).app
                            else Survive(old(View()).app, clients.Keys)
      ensures MayChangeModes(old(View()).app, fd, params) ==>
                |stages| == |params[1]| || fd !in connections || connections[fd].closeRequested
      ensures ModeCommandServed(old(View()), fd, params, ws, View())
    {
      hide Confined, Tidy, Proper, Good, Progress, Survive, ModeStep, ModesServed, ModeServed, Answered,
           OnlyAnswered, Took, NumericLine, SignAt, ArgAt;
      stages, ws := [], [View()];
      var found := FindChannelForCommand(fd, params[0], false);
      if !found {
        return;
      }
      var name := params[0];
      if |params| == 1 {
        ModeStringIsTidy(channels[name]);
        var _ := SendNumeric(fd, 324, [name, ModeString(channels[name])]);
        return;
      }
      if fd !in channels[name].members {
        var _ := SendNumeric(fd, 442, [name]);
        return;
      }
      if fd !in channels[name].operators {
        var _ := SendNumeric(fd, 482, [name]);
        return;
      }
      var adding, arg, i, modes := true, 2, 0, params[1];
      ghost var before := View();
      ProgressSame(before);
      NoModes(before, fd, params);
      while i < |modes|
        invariant 0 <= i <= |modes| && |stages| == i
        invariant Good(View()) && Progress(before, View()) && closing == {}
        invariant fd in clients && name in channels && fd in channels[name].members
        invariant Modes(View().app, adding, arg) == ModeRun(before.app, params, stages)
        invariant |ws| == i + 1 && ws[0] == before && ws[i] == View() && ModesServed(ws, fd, params)
      {
        ghost var w := View();
        var more;
        RunInStep(before.app, params, stages);
        adding, arg, more := ModeChar(fd, params, modes[i], adding, arg);
        ModesMore(ws, fd, params, View());
        ws := ws + [View()];
        ProgressThen(before, w, View());
        ProgressFacts(w, View());
        assert (stages + [clients.Keys])[..i] == stages;
        stages := stages + [clients.Keys];
        i := i + 1;
        if !more {
          return;
        }
      }
    }

    method HandleMode(fd: Fd, params: seq<string>) returns (ghost stages: seq<set<Fd>>, ghost ws: seq<World>)
      requires Ready(fd) && Decent(params)
      modifies this
      ensures Good(View()) && Progress(old(View()), View())
      ensures |params| >= 2 ==> |stages| <= |params[1]|
      ensures View().app == Moded(old(View()).app, fd, params, clients.Keys, stages)
      ensures ModeCommandServed(old(View()), fd, params, ws, View())
    {
      hide Confined, Tidy, Proper, Good, Progress, Survive, ModeRun, Canonical, Answered, OnlyAnswered, Took,
           NumericLine, ModesServed, Leads;
      stages, ws := [], [];
      if params == [] {
        LiteralsAreTidy();
        var _ := SendNumeric(fd, 461, ["MODE"]);
        return;
      }
      if IsChannelTarget(params[0]) {
        stages, ws := HandleChannelMode(fd, params);
        return;
      }
      var target := FindFdByNickname(params[0]);
      if target.None? {
        var _ := SendNumeric(fd, 401, [params[0]]);
        return;
      }
      if |params| == 1 {
        LiteralsAreTidy();
        var _ := SendNumeric(fd, 221, ["+"]);
        return;
      }
      var _ := SendNumeric(fd, if target.value != fd then 502 else 501, []);
    }

    // ----- Queries and messages -----

    /** The channels are walked while replies are sent: each name still denotes a channel when it is used,
        because the walk goes on only while every reply was accepted. */
    method HandleList(fd: Fd, params: seq<string>)
      requires Ready(fd) && Decent(params)
      modifies this
      ensures Good(View()) && Progress(old(View()), View())
      ensures View().app == Survive(old(View()).app, clients.Keys)
      ensures ListServed(old(View()), fd, params, View())
    {
      hide Confined, Tidy, Proper, Good, Progress, Survive, Pieces, Listed, Named, Answered, OnlyAnswered, Took,
           NumericLine;
      ghost var before := View();
      var names: seq<string> := [];
      if params != [] {
        names := SplitComma(params[0]);
      }
      var requested := SetOf(names);
      LiteralsAreTidy();
      var ok := SendNumeric(fd, 321, ["Channel", "Users", "Name"]);
      ConfinedSame(before.log.attempts, {fd}, {});
      FreeThen(before.log.attempts, before.log.attempts, log.attempts, fd, {});
      if !ok {
        NothingOwed(before, View(), fd, before.app.channels.Keys);
        NothingOwed(before, View(), fd, requested);
        NoAnswerOwed(before, View(), fd, Numeric(323, []));
        return;
      }
      ghost var w := View();
      ListChannels(fd, requested, before);
      AnsweredThen(before, w, View(), fd, Numeric(321, ["Channel", "Users", "Name"]));
      assert names != [] ==> names[0] in requested;
      assert requested == {} <==> names == [];
    }

    /** The replies between the first and the last. */
    method ListChannels(fd: Fd, requested: set<string>, ghost before: World)
      requires Good(before) && Good(View()) && Progress(before, View()) && View().app == before.app
      requires Sends(before, View(), {fd}, {})
      modifies this
      ensures Good(View()) && Progress(before, View())
      ensures View().app == Survive(before.app, clients.Keys)
      ensures Listed(before, View(), fd, if requested == {} then before.app.channels.Keys else requested)
      ensures Answered(before, View(), fd, Numeric(323, [])) && Progress(old(View()), View())
      ensures Sends(before, View(), {fd}, {})
    {
      hide Confined, Tidy, Proper, Good, Progress, Survive, Pieces, Listed, Named, ListLine, Reached, Took,
           NumericLine;
      NobodyLeft(View());
      ghost var start := View();
      ProgressSame(start);
      var waiting := channels.Keys;
      ghost var all := if requested == {} then before.app.channels.Keys else requested;
      ghost var done: set<string> := {};
      NothingListed(before, View(), fd);
      while waiting != {}
        invariant Good(View()) && Progress(before, View()) && Progress(start, View()) && View().app == before.app
        invariant Sends(before, View(), {fd}, {})
        invariant waiting <= channels.Keys && Listed(before, View(), fd, done)
        invariant forall n :: n in all && n in before.app.channels ==> n in waiting || n in done
        decreases |waiting|
      {
        var name :| name in waiting;
        waiting := waiting - {name};
        if requested == {} || name in requested {
          ghost var w := View();
          var ok := ListChannel(fd, name);
          ProgressThen(before, w, View());
          FreeThen(before.log.attempts, w.log.attempts, log.attempts, fd, {});
          ProgressThen(start, w, View());
          if !ok {
            NothingOwed(before, View(), fd, all);
            NoAnswerOwed(before, View(), fd, Numeric(323, []));
            return;
          }
          ListedOneMore(before, w, View(), fd, done, name);
          done := done + {name};
        }
      }
      ghost var w := View();
      ListedAmong(before, w, fd, done, all);
      var _ := SendNumeric(fd, 323, []);
      FreeThen(before.log.attempts, w.log.attempts, log.attempts, fd, {});
      ReachedLater(before, w, View(), {fd}, NumericLine(before.app.clients, fd, 323, []));
      ProgressThen(before, w, View());
      ProgressThen(start, w, View());
      ListedThen(before, w, View(), fd, all);
    }

    method ListChannel(fd: Fd, name: string) returns (ok: bool)
      requires Good(View()) && name in channels
      modifies this
      ensures Good(View()) && Progress(old(View()), View())
      ensures View().app == Survive(old(View()).app, clients.Keys)
      ensures ok ==> View().app == old(View()).app
      ensures !ok ==> Ending(connections, fd)
      ensures Reached(old(View()), View(), {fd}, ListLine(old(View()).app, fd, name))
      ensures Sends(old(View()), View(), {}, {fd})
    {
      hide Confined, Tidy, Proper, Good, Progress, Survive, Reached, NumericLine;
      GoodFacts(View());
      RoomIsTidy(channels, clients, name);
      LiteralsAreTidy();
      DigitsAreTidy(|channels[name].members|);
      var topic := if channels[name].hasTopic then channels[name].topic else "open room";
      ok := SendNumeric(fd, 322, [name, Decimal(|channels[name].members|), topic]);
    }

    method HandleNames(fd: Fd, params: seq<string>)
      requires Ready(fd) && Decent(params)
      modifies this
      ensures Good(View()) && Progress(old(View()), View())
      ensures View().app == Survive(old(View()).app, clients.Keys)
      ensures NamesServed(old(View()), fd, params, View())
    {
      hide Confined, Tidy, Proper, Good, Progress, Survive, Pieces, Listed, Named, NameAnswered;
      if params == [] {
        NameAllChannels(fd);
        return;
      }
      var names := SplitComma(params[0]);
      PiecesAreTidy(params[0]);
      ghost var before := View();
      NothingHappened(before);
      NothingListed(before, before, fd);
      ConfinedSame(before.log.attempts, {fd}, {});
      assert SetOf(names[..0]) == {};
      for i := 0 to |names|
        invariant Good(View()) && Progress(before, View()) && View().app == before.app
        invariant Sends(before, View(), {fd}, {})
        invariant Named(before, View(), fd, SetOf(names[..i]))
      {
        ghost var w := View();
        var ok := NameChannel(fd, names[i]);
        ProgressThen(before, w, View());
        FreeThen(before.log.attempts, w.log.attempts, log.attempts, fd, {});
        if !ok {
          NothingOwed(before, View(), fd, SetOf(names));
          return;
        }
        NamedOneMore(before, w, View(), fd, SetOf(names[..i]), names[i]);
        assert SetOf(names[..i + 1]) == SetOf(names[..i]) + {names[i]};
      }
      assert names[..|names|] == names;
    }

    method NameAllChannels(fd: Fd)
      requires Good(View())
      modifies this
      ensures Good(View()) && Progress(old(View()), View())
      ensures View().app == Survive(old(View()).app, clients.Keys)
      ensures Named(old(View()), View(), fd, old(channels).Keys) && Sends(old(View()), View(), {fd}, {})
    {
      hide Confined, Tidy, Proper, Good, Progress, Survive, Listed, Named, RollCalled;
      ghost var before := View();
      NothingHappened(before);
      NothingListed(before, before, fd);
      ConfinedSame(before.log.attempts, {fd}, {});
      var waiting := channels.Keys;
      ghost var done: set<string> := {};
      while waiting != {}
        invariant Good(View()) && Progress(before, View()) && View().app == before.app
        invariant Sends(before, View(), {fd}, {})
        invariant waiting <= channels.Keys && Named(before, View(), fd, done)
        invariant done + waiting == before.app.channels.Keys
        decreases |waiting|
      {
        var name :| name in waiting;
        ghost var w := View();
        var ok := SendNames(fd, name);
        ProgressThen(before, w, View());
        FreeThen(before.log.attempts, w.log.attempts, log.attempts, fd, {});
        if !ok {
          NothingOwed(before, View(), fd, before.app.channels.Keys);
          return;
        }
        NamedOneMore(before, w, View(), fd, done, name);
        waiting, done := waiting - {name}, done + {name};
      }
      assert done == before.app.channels.Keys;
    }

    /** One name of a NAMES list: a channel that does not exist has just the end of a list. */
    method NameChannel(fd: Fd, name: string) returns (ok: bool)
      requires Good(View()) && Tidy(name)
      modifies this
      ensures Good(View()) && Progress(old(View()), View())
      ensures View().app == Survive(old(View()).app, clients.Keys)
      ensures ok ==> View().app == old(View()).app
      ensures !ok ==> Ending(connections, fd)
      ensures NameAnswered(old(View()), View(), fd, name) && Sends(old(View()), View(), {fd}, {})
    {
      hide Confined, Tidy, Proper, Good, Progress, Survive, RollCalled, Reached, NumericLine, Took;
      if name in channels {
        ok := SendNames(fd, name);
      } else {
        ok := SendNumeric(fd, 366, [name]);
        ConfinedSame(old(log.attempts), {fd}, {});
        FreeThen(old(log.attempts), old(log.attempts), log.attempts, fd, {});
      }
    }

    /** Every target is served even after the sender itself is gone; its prefix is then the server's name. */
    method HandlePrivmsg(fd: Fd, params: seq<string>) returns (ghost n: nat, ghost ws: seq<World>)
      requires Ready(fd) && Decent(params)
      modifies this
      ensures Good(View()) && Progress(old(View()), View())
      ensures View().app == Survive(old(View()).app, clients.Keys)
      ensures |params| >= 2 && params[1] != "" ==>
                && Messaged(old(View()), View(), fd, old(PrefixFor(fd)), Pieces(params[0]), params[1], n)
                && n <= |Pieces(params[0])| && (fd in clients ==> n == |Pieces(params[0])|)
      ensures PrivmsgServed(old(View()), fd, params, ws, View())
    {
      hide Confined, Tidy, Proper, Good, Progress, Survive, Pieces, Messaged, RelayServed, RelaysServed, Answered,
           OnlyAnswered, Took, NumericLine;
      n, ws := 0, [View()];
      if params == [] {
        var _ := SendNumeric(fd, 411, []);
        return;
      }
      if |params| < 2 || params[1] == "" {
        var _ := SendNumeric(fd, 412, []);
        return;
      }
      var targets := SplitComma(params[0]);
      PiecesAreTidy(params[0]);
      ghost var before, prefix := View(), PrefixFor(fd);
      MessagedNobody(before, fd, prefix, params[1]);
      NoRelays(before, fd, params[1]);
      assert targets[..0] == [];
      NothingHappened(before);
      for i := 0 to |targets|
        invariant Good(View()) && Progress(before, View())
        invariant View().app == Survive(before.app, clients.Keys)
        invariant n <= i && (fd in clients ==> n == i)
        invariant Messaged(before, View(), fd, prefix, targets[..i], params[1], n)
        invariant |ws| == i + 1 && ws[0] == before && ws[i] == View() && RelaysServed(ws, fd, targets[..i], params[1])
      {
        ghost var w := View();
        SurviveRecord(before.app, clients.Keys, fd);
        RelayTo(fd, targets[i], params[1]);
        RelaysMore(ws, fd, targets[..i], params[1], targets[i], View());
        ws := ws + [View()];
        DeliveredNow(before, w, View(), fd, prefix, targets[i], params[1], fd in w.app.clients);
        MessagedStep(before, w, View(), fd, prefix, targets[..i], params[1], n, targets[i]);
        assert targets[..i] + [targets[i]] == targets[..i + 1];
        n := if fd in w.app.clients then n + 1 else n;
        ProgressThen(before, w, View());
        ProgressFacts(w, View());
        SurviveTwice(before.app, w.app.clients.Keys, clients.Keys);
      }
      assert targets[..|targets|] == targets;
    }

    /** One target of a PRIVMSG: a member's message reaches every other member of the channel once. */
    method RelayTo(fd: Fd, target: string, text: string)
      requires Good(View()) && Tidy(target) && Tidy(text)
      modifies this
      ensures Good(View()) && Progress(old(View()), View())
      ensures View().app == Survive(old(View()).app, clients.Keys)
      ensures IsChannelTarget(target) && target in old(channels) && fd in old(channels)[target].members ==>
                Cascade(Asked(old(View()), Copies(old(channels)[target].members - {fd}, Other)), View())
      ensures !IsChannelTarget(target) && FindNick(old(View()).app, target).Some? ==>
                Cascade(Asked(old(View()), multiset{Attempt(FindNick(old(View()).app, target).value, Other)}), View())
      ensures Reached(old(View()), View(), Recipients(old(View()).app, fd, target),
                      MessageLine(old(PrefixFor(fd)), target, text))
      ensures RelayServed(old(View()), fd, target, text, View())
    {
      hide Confined, Tidy, Proper, Reached, Good, Progress, Survive, Format, Cascade, Copies, Canonical, Answered,
           OnlyAnswered, Took, NumericLine;
      GoodFacts(View());
      ClientLineIsProper(fd, "PRIVMSG", [target, text]);
      var line := MessageLine(PrefixFor(fd), target, text);
      if IsChannelTarget(target) {
        if target !in channels || fd !in channels[target].members {
          var _ := SendNumeric(fd, 404, [target]);
          ReachedNobody(old(View()), View(), line);
        } else {
          BroadcastToChannel(target, line, Some(fd));
        }
      } else {
        var to := FindFdByNickname(target);
        if to.None? {
          var _ := SendNumeric(fd, 401, [target]);
          ReachedNobody(old(View()), View(), line);
        } else {
          var _ := SendRaw(to.value, line);
        }
      }
    }

    // ----- One line -----

    /** `recordCommand`: pop what fell out of the window, push this command, and refuse past the limit. */
    method RecordCommand(fd: Fd, now: int) returns (ok: bool)
      requires Ready(fd)
      modifies this
      ensures Good(View()) && Progress(old(View()), View())
      ensures var counted := Counted(config, old(View()).app, fd, now);
              && ok == WithinRate(config, counted.clients[fd])
              && View().app == if ok then counted else Survive(counted, clients.Keys)
      ensures ok ==> connections == old(connections) && log == old(log)
      ensures !ok ==> Took(old(View()), View(), fd, NumericLine(old(clients), fd, 439, []))
      ensures !ok ==> Closes(View(), fd, RATE_EXCEEDED) && Sends(old(View()), View(), {}, {fd})
    {
      hide Confined, Tidy, Proper, Good, Progress, Survive, WF, RoomsOk, IndexAgrees, ClientsOk, PopOld, Took,
           NumericLine, Answered, OnlyAnswered;
      var window := PopFront(clients[fd].window, now, config.rateLimitWindow);
      window := window + [now];
      ghost var before, counted := View(), Counted(config, View().app, fd, now);
      GoodFacts(before);
      RecordWF(before.app, fd, counted.clients[fd]);
      AppChangeIsGood(before, counted);
      clients := clients[fd := clients[fd].(window := window)];
      if config.rateLimitCount != 0 && |window| > config.rateLimitCount {
        ghost var w := View();
        var _ := SendNumeric(fd, 439, []);
        ProgressThen(before, w, View());
        ghost var w1 := View();
        ProgressFacts(before, w1);
        RequestClose(fd, RATE_EXCEEDED);
        NumericLineSame(before.app.clients, w.app.clients, fd, 439, []);
        TookIn(before, w, w1, View(), fd, NumericLine(w.app.clients, fd, 439, []));
        ProgressThen(before, w1, View());
        return false;
      }
      return true;
    }

    method HandleMessage(fd: Fd, m: Message) returns (ghost course: Course, ghost ws: seq<World>)
      requires Ready(fd) && Decent(m.params) && Tidy(m.command)
      modifies this
      ensures Good(View()) && Progress(old(View()), View())
      ensures Matches(m, course) && View().app == Handled(config, old(View()).app, fd, m, course)
      ensures course.alive == clients.Keys
      ensures MessageServed(config, old(View()), fd, m, ws, View())
    {
      hide Confined, Tidy, Proper, Good, Progress, Survive, VerbOf, Passed, Renamed, Described, Ponged, Joined, Left,
           Retitled, Kicked, Invited, Moded, Pieces, PassServed, NickServed, UserServed, PingServed, QuitServed,
           Answered, OnlyAnswered, Took, NumericLine, JoinCommandServed, PartCommandServed, ModeCommandServed,
           PrivmsgServed, TopicServed, KickServed, InviteServed, ListServed, NamesServed, MetricsServed, Messaged,
           ToldOnce, Reached;
      ghost var stages: seq<set<Fd>> := [];
      ws := [];
      var verb := VerbOf(m.command);
      if verb.Pass? {
        HandlePass(fd, m.params);
      } else if verb.Nick? {
        HandleNick(fd, m.params);
      } else if verb.User? {
        HandleUser(fd, m.params);
      } else if verb.Ping? {
        HandlePing(fd, m.params);
      } else if verb.Pong? {
        HandlePong(fd, m.params);
        NobodyLeft(View());
      } else if verb.QuitVerb? {
        HandleQuit(fd, m.params);
        NobodyLeft(View());
      } else if !clients[fd].registered {
        var _ := SendNumeric(fd, 451, []);
      } else if verb.Join? {
        stages, ws := HandleJoin(fd, m.params);
      } else if verb.Part? {
        ws := HandlePart(fd, m.params);
      } else if verb.Mode? {
        stages, ws := HandleMode(fd, m.params);
      } else {
        ws := HandleRest(fd, m);
      }
      course := Course(clients.Keys, stages);
    }

    method HandleRest(fd: Fd, m: Message) returns (ghost ws: seq<World>)
      requires Ready(fd) && clients[fd].registered && Decent(m.params) && Tidy(m.command)
      requires var v := VerbOf(m.command);
               && !v.Join? && !v.Part? && !v.Mode? && !v.Pass? && !v.Nick? && !v.User? && !v.Ping? && !v.Pong?
               && !v.QuitVerb?
      modifies this
      ensures Good(View()) && Progress(old(View()), View())
      ensures View().app == RegisteredHandled(old(View()).app, fd, m, Course(clients.Keys, []))
      ensures MessageServed(config, old(View()), fd, m, ws, View())
    {
      hide Confined, Tidy, Proper, Good, Progress, Survive, VerbOf, Retitled, Kicked, Invited, Pieces, Answered,
           OnlyAnswered, Took, NumericLine, PrivmsgServed, TopicServed, KickServed, InviteServed, ListServed,
           NamesServed, MetricsServed, Messaged, Reached;
      ws := [];
      var verb := VerbOf(m.command);
      if verb.Privmsg? {
        ghost var _, relayed := HandlePrivmsg(fd, m.params);
        ws := relayed;
      } else if verb.Topic? {
        HandleTopic(fd, m.params);
      } else if verb.Kick? {
        HandleKick(fd, m.params);
      } else if verb.Invite? {
        HandleInvite(fd, m.params);
      } else if verb.List? {
        HandleList(fd, m.params);
      } else if verb.Names? {
        HandleNames(fd, m.params);
      } else if verb.Metrics? {
        HandleMetrics(fd);
      } else {
        var _ := SendNumeric(fd, 421, [m.command]);
      }
    }

    /** Of the figures only the number of connections is modelled. */
    method HandleMetrics(fd: Fd)
      requires Good(View())
      modifies this
      ensures Good(View()) && Progress(old(View()), View())
      ensures View().app == Survive(old(View()).app, clients.Keys)
      ensures MetricsServed(old(View()), fd, View())
    {
      hide Confined, Tidy, Proper, Good, Progress, Survive, WF, RoomsOk, IndexAgrees, ClientsOk, Reached, Format,
           Took;
      GoodFacts(View());
      ReplyTargetIsTidy(clients, fd);
      var text := Decimal(|connections|);
      DigitsAreTidy(|connections|);
      ServerLineIsProper("NOTICE", [ReplyTarget(clients, fd), text]);
      var _ := SendRaw(fd, Format(Message(SERVER_NAME, "NOTICE", [ReplyTarget(clients, fd), text])));
    }

    /** `onLine`: the record of a live connection always exists, so the line starts by touching it. */
    method OnLine(fd: Fd, line: string, now: int) returns (ghost course: Course)
      requires Ready(fd) && Tidy(line)
      modifies this
      ensures Good(View()) && Progress(old(View()), View())
      ensures LineMatches(line, course) && View().app == LineHandled(config, old(View()).app, fd, line, now, course)
      ensures course.alive == clients.Keys
      ensures LineServed(config, old(View()), fd, line, now, View())
    {
      hide Confined, Tidy, Proper, Good, Progress, Survive, WF, RoomsOk, IndexAgrees, ClientsOk, Parse, Matches,
           Handled, PopOld, LineServed, Answered, Took, NumericLine, WithinRate;
      ghost var before, touched := View(), Touched(View().app, fd, now);
      GoodFacts(before);
      RecordWF(before.app, fd, touched.clients[fd]);
      AppChangeIsGood(before, touched);
      clients := clients[fd := clients[fd].(lastActivityAt := now)];
      var parsed := ParseLine(line);
      if parsed.Rejected? {
        ghost var w := View();
        WordsAreTidy(parsed.error);
        var _ := SendNumeric(fd, 417, [parsed.error]);
        ProgressSame(View());
        AnsweredWithin(before, w, View(), View(), fd, Numeric(417, [parsed.error]));
        RejectedServed(config, before, fd, line, now, View());
        ProgressThen(before, w, View());
        return Course(clients.Keys, []);
      }
      course := TakeCommand(fd, line, parsed.message, now, before);
    }

    /** A line that parses, its sender's record already touched: counted, then handled within the rate limit. */
    method TakeCommand(fd: Fd, line: string, m: Message, now: int, ghost before: World) returns (ghost course: Course)
      requires Ready(fd) && Tidy(line) && Parse(line) == Parsed(m) && fd in before.app.clients
      requires Progress(before, View()) && View() == before.(app := Touched(before.app, fd, now))
      modifies this
      ensures Good(View()) && Progress(before, View())
      ensures LineMatches(line, course) && View().app == LineHandled(config, before.app, fd, line, now, course)
      ensures course.alive == clients.Keys
      ensures LineServed(config, before, fd, line, now, View())
    {
      hide Confined, Tidy, Proper, Good, Progress, Survive, Parse, Matches, Handled, PopOld, LineServed, MessageServed,
           Took, NumericLine, WithinRate;
      ghost var w := View();
      var accept := RecordCommand(fd, now);
      ghost var w1 := View();
      ProgressThen(before, w, w1);
      if !accept {
        NumericLineSame(before.app.clients, w.app.clients, fd, 439, []);
        TookSameWires(w, before, w1, w1, fd, NumericLine(w.app.clients, fd, 439, []));
        RefusedServed(config, before, fd, line, now, w1);
        course := NoStages(m, clients.Keys);
        return;
      }
      ProgressFacts(before, w1);
      ParsedIsDecent(line);
      ghost var ws;
      course, ws := HandleMessage(fd, m);
      MessageServedFrom(config, w1, CountedIn(config, before, fd, now), fd, m, ws, View(), View());
      CountedServed(config, before, fd, line, now, ws, View());
      ProgressThen(before, w1, View());
    }

    // ----- Timers -----

    /** What a tick does for one client. A close it asks for always has output pending, so the event loop
        comes back to it although the interest is not refreshed here. */
    method MaintainClient(fd: Fd, now: int)
      requires Good(View()) && closing == {} && loose == {} && log.owed == {}
      modifies this
      ensures Good(View()) && Progress(old(View()), View())
      ensures View().app == Survive(Maintained(config, old(View()).app, fd, now), clients.Keys)
      ensures fd in old(clients) && Expires(config, old(clients)[fd], now) ==>
                fd !in connections || connections[fd].closeRequested
      ensures Tended(config, old(View()), fd, now, View())
    {
      hide Confined, Tidy, Proper, Good, Progress, Survive, Format, Token, Reached, Took, NumericLine;
      ghost var before := View();
      ConfinedSame(log.attempts, {}, {fd});
      if fd !in clients {
        NothingHappened(before);
        return;
      }
      var client := clients[fd];
      if !client.registered && now - client.connectedAt >= config.registrationTimeout {
        GoodFacts(before);
        NumericIsProper(clients, fd, 451, []);
        SayGoodbye(fd, NumericLine(clients, fd, 451, []), REGISTRATION_TIMEOUT);
        return;
      }
      if config.idleTimeout <= 0 {
        NothingHappened(before);
        return;
      }
      if client.awaitingPong && now - client.lastPingAt >= config.pingTimeout {
        ErrorIsProper(PING_ERROR);
        SayGoodbye(fd, Format(Message("", "ERROR", [PING_ERROR])), PING_TIMEOUT);
        return;
      }
      if !client.awaitingPong && now - client.lastActivityAt >= config.idleTimeout {
        SendProbe(fd, now);
        return;
      }
      NothingHappened(before);
    }

    /** A fresh token, remembered and sent (section 4.6.2 of RFC 1459). */
    method SendProbe(fd: Fd, now: int)
      requires Good(View()) && fd in clients && Judge(config, clients[fd], now).Probe?
      modifies this
      ensures Good(View()) && Progress(old(View()), View())
      ensures View().app == Survive(Maintained(config, old(View()).app, fd, now), clients.Keys)
      ensures Reached(old(View()), View(), {fd}, Format(Message(SERVER_NAME, "PING", [Token(fd, old(tokens) + 1)])))
      ensures Sends(old(View()), View(), {}, {fd})
    {
      hide Confined, Tidy, Proper, Good, Progress, Survive, WF, RoomsOk, IndexAgrees, ClientsOk, Format, Token,
           Reached, Cascade;
      ghost var before, b := View(), Maintained(config, View().app, fd, now);
      GoodFacts(before);
      MaintainedWF(config, before.app, fd, now);
      AppChangeIsGood(before, b);
      tokens := tokens + 1;
      var token := Token(fd, tokens);
      clients := clients[fd := Probed(clients[fd], token, now)];
      ghost var w := View();
      TokenIsTidy(fd, tokens);
      ServerLineIsProper("PING", [token]);
      var line := Format(Message(SERVER_NAME, "PING", [token]));
      var _ := SendRaw(fd, line);
      ProgressThen(before, w, View());
      ReachedSameWires(w, before, View(), View(), {fd}, line);
    }

    /** A last line and a close request. */
    method SayGoodbye(fd: Fd, line: string, reason: Words)
      requires Good(View()) && loose == {} && Proper(line, Other)
      modifies this
      ensures Good(View()) && Progress(old(View()), View())
      ensures View().app == Survive(old(View()).app, clients.Keys)
      ensures Took(old(View()), View(), fd, line) && Closes(View(), fd, reason)
      ensures Sends(old(View()), View(), {}, {fd})
    {
      hide Confined, Tidy, Proper, Good, Progress, Survive, Took;
      ghost var before := View();
      var ok := SendRaw(fd, line);
      ghost var w := View();
      ProgressFacts(before, w);
      if fd in connections {
        LinkFacts(w, fd);
      }
      RequestClose(fd, reason);
      ProgressThen(before, w, View());
      TookThen(before, w, View(), fd, line);
    }

    // ----- The event loop -----

    /** The state between events: no disconnect under way, every connection settled, and the application
        state the one its history of steps yields. */
    ghost predicate Valid()
      reads this
    {
      && Good(View()) && closing == {} && loose == {} && log.owed == {}
      && Traced(config, history, View().app, connections, clock, readings)
    }

    /** The same while an event of `fd` is being served. */
    ghost predicate Serving(fd: Fd)
      reads this
    {
      && Good(View()) && closing == {} && loose == {fd} && log.owed == {}
      && Traced(config, history, View().app, connections, clock, readings)
    }

    /** What an observer may rely on between two events: nobody is half connected, nobody is stranded while
        closing, no buffer is over its bound, and a client is welcomed once if it is registered and never
        otherwise, in attempts and in lines accepted. */
    lemma AtRest(fd: Fd)
      requires Valid()
      ensures clients.Keys == connections.Keys == interests.Keys
      ensures accepted - closed == |connections|
      ensures (config.maxConnections != 0 ==> |connections| <= config.maxConnections)
      ensures fd in connections ==>
                var link := connections[fd];
                && (link.closeRequested ==> link.WantsWrite())
                && (link.WantsWrite() <==> interests[fd].write)
                && (!link.closeRequested ==> interests[fd].read)
                && |link.writeBuffer| <= link.maxPending + COMPACT_AFTER
                && '\n' !in link.readBuffer && |link.readBuffer| <= link.maxLine
      ensures fd in clients ==>
                var c, welcomes := clients[fd], if clients[fd].registered then 1 else 0;
                && (c.registered <==> c.passOk && c.hasNick && c.hasUser)
                && fd in log.baseline && fd in log.lines
                && log.attempts[Attempt(fd, Welcome)] - log.baseline[fd] == welcomes
                && Welcomes(log.lines[fd]) <= welcomes
    {
      hide RoomsOk, IndexAgrees, WiresOk, Traced, Welcomes, OneLine;
      if fd in connections {
        LinesAreWhole(View(), fd);
      }
    }

    /** A registered client whose last line was step `said` of the history, ticks having come at most `gap`
        apart since and one of them at or after the idle timeout, the ping timeout and two gaps, was gone at
        some point since, or is closing since a tick that came no later than that. */
    lemma SilentAreClosing(said: nat, fd: Fd, gap: int)
      requires Valid() && said < |history| && Records.Speaks(history[said], fd)
      requires forall k :: said < k < |history| ==> !Records.Speaks(history[k], fd)
      requires config.idleTimeout > 0 && config.pingTimeout > 0 && gap >= 0
      requires fd in Before(config, history, said + 1).clients
      requires Before(config, history, said + 1).clients[fd].registered
      requires Timers.Regular(Timers.TickTimes(history[said + 1..]), history[said].now, gap)
      requires Timers.Reaches(Timers.TickTimes(history[said + 1..]), Timers.Deadline(config, history[said].now, gap))
      ensures (exists k :: said < k <= |history| && fd !in Before(config, history, k).clients) ||
              (fd in connections && connections[fd].closeRequested &&
               exists k: nat :: Timers.ExpiredInTime(config, history, said, k, fd, gap))
    {
      hide Good, Expires, Before, Legal, After;
      if forall k :: said < k <= |history| ==> fd in Before(config, history, k).clients {
        assert Timers.Silent(config, history, said + 1, fd);
        Timers.SilentClientsExpire(config, history, said, fd, gap);
        var k: nat :| Timers.ExpiredInTime(config, history, said, k, fd, gap);
        assert Overstays(config, history, k, fd);
        AtRest(fd);
        AllBefore(config, history);
      }
    }

    /** A client that has not registered, ticks having come at most `gap` apart since it connected at step `entered`
        and one of them at or after the registration timeout, is closing since a tick that came no later than that
        timeout and one gap. */
    lemma LateAreClosing(entered: nat, fd: Fd, gap: int)
      requires Valid() && Timers.Stays(config, history, entered, |history|, fd)
      requires config.registrationTimeout >= 0 && gap >= 0 && fd in clients && !clients[fd].registered
      requires Timers.Regular(Timers.TickTimes(history[entered + 1..]), history[entered].now, gap)
      requires Timers.Reaches(Timers.TickTimes(history[entered + 1..]),
                              history[entered].now + config.registrationTimeout)
      ensures fd in connections && connections[fd].closeRequested
      ensures exists k: nat :: Timers.LateAt(config, history, entered, k, fd, gap)
    {
      hide Good, Expires, Before, Legal, After;
      AllBefore(config, history);
      Timers.LateClientsExpire(config, history, entered, fd, gap);
      var k: nat :| Timers.LateAt(config, history, entered, k, fd, gap);
      assert Overstays(config, history, k, fd);
      AtRest(fd);
    }

    constructor (config: Config, updateFails: nat -> bool, clock: nat -> int)
      requires Forward(clock) && clock(0) >= 0
      ensures Valid() && this.config == config && clients == map[] && connections == map[]
    {
      this.config, this.updateFails, this.clock := config, updateFails, clock;
      connections, interests, updates, accepted, closed, readings := map[], map[], 0, 0, 0, 0;
      clients, nicknames, channels, tokens := map[], map[], map[], 0;
      closing, loose, history := {}, {}, [];
      log := Log(multiset{}, map[], map[], map[], {});
    }

    method ReadClock() returns (now: int)
      modifies `readings
      ensures now == clock(old(readings)) && readings == old(readings) + 1
    {
      now := clock(readings);
      readings := readings + 1;
    }

    /** Disconnect outside any handler. */
    method Drop(fd: Fd, reason: Words)
      requires Serving(fd)
      modifies this
      ensures Serving(fd) && fd !in connections && history == old(history) + [Lose(clients.Keys)]
      ensures Lasting(old(connections), connections)
      ensures fd in old(connections) ==> Farewell(old(channels), old(log.attempts), log.attempts, fd)
      ensures fd in old(connections) ==> fd in old(clients) && GoneFor(old(View()), View(), fd, reason)
    {
      hide Tidy, Proper, Good, Cascade, Survive, Traced, Farewell, GoneFor, Lasting;
      ghost var before := View();
      Disconnect(fd, reason);
      if fd in before.connections {
        GoneForSame(before, before, View(), View().(trace := Trace(history + [Lose(clients.Keys)], readings)), fd,
                    reason);
      }
      CascadeFacts(before, View());
      CascadeApp(before, View());
      TracedLoss(config, history, before.app, before.connections, clock, readings, clients.Keys, connections);
      TraceIsFree(View(), Trace(history + [Lose(clients.Keys)], readings));
      history := history + [Lose(clients.Keys)];
    }

    /** Hand one line to the application. */
    method ServeLine(fd: Fd, line: string)
      requires Serving(fd) && fd in connections && Tidy(line)
      modifies this
      ensures Serving(fd) && |history| == |old(history)| + 1 && Spoke(old(history), history, fd, [line])
      ensures Lasting(old(connections), connections)
      ensures LineServed(config, old(View()), fd, line, clock(old(readings)), View())
    {
      hide Tidy, Proper, Good, Progress, LineHandled, LineMatches, Traced, WF, RoomsOk, IndexAgrees, ClientsOk,
           LineServed, Lasting, Spoke, Persists;
      GoodFacts(View());
      ghost var before := View();
      var now := ReadClock();
      ClockIsRead(before);
      ghost var w := View();
      ghost var course := OnLine(fd, line, now);
      ProgressFacts(w, View());
      LastingPersists(before.app, before.connections, connections);
      TracedStep(config, history, before.app, before.connections, clock, readings - 1, Line(fd, line, now, course),
                 connections);
      ghost var served := View();
      TraceIsFree(served, Trace(history + [Line(fd, line, now, course)], readings));
      SpokeOne(history, Line(fd, line, now, course));
      history := history + [Line(fd, line, now, course)];
      LineServedFrom(config, w, before, fd, line, now, served, View());
    }

    /** Hand complete lines to the application until the connection is gone or asked to close; `vs` are the states
        between them. */
    method DispatchLines(fd: Fd, incoming: seq<string>) returns (alive: bool, ghost vs: seq<World>)
      requires Serving(fd) && fd in connections && AllTidy(incoming)
      modifies this
      ensures Serving(fd) && alive == (fd in connections)
      ensures 1 <= |vs| <= |incoming| + 1 && (incoming != [] ==> |vs| > 1)
      ensures vs[0] == old(View()) && vs[|vs| - 1] == View() && LinesServed(config, clock, vs, fd, incoming[..|vs| - 1])
      ensures Spoke(old(history), history, fd, incoming[..|vs| - 1]) && |history| == |old(history)| + |vs| - 1
      ensures |vs| <= |incoming| ==> Ending(connections, fd)
      ensures old(connections)[fd].closeRequested ==> |vs| <= 2
      ensures Lasting(old(connections), connections)
    {
      hide Tidy, Proper, Spoke, Good, Traced, LineServed, LinesServed, Lasting;
      var i := 0;
      vs := [View()];
      SpokeNothing(history, fd);
      LastingSame(connections);
      NoLines(config, clock, View(), fd);
      assert incoming[..0] == [];
      while i < |incoming|
        invariant 0 <= i == |vs| - 1 <= |incoming|
        invariant Serving(fd) && fd in connections && Lasting(old(connections), connections)
        invariant vs[0] == old(View()) && vs[i] == View() && LinesServed(config, clock, vs, fd, incoming[..i])
        invariant Spoke(old(history), history, fd, incoming[..i]) && |history| == |old(history)| + i
        invariant old(connections)[fd].closeRequested ==> i == 0 && connections[fd].closeRequested
      {
        ghost var w := View();
        ServeLine(fd, incoming[i]);
        LastingThen(old(connections), w.connections, connections);
        LastingCloses(w.connections, connections, fd);
        SpokeThenSpoke(old(history), w.trace.history, history, fd, incoming[..i], incoming[i]);
        LinesMore(config, clock, vs, fd, incoming[..i], incoming[i], View());
        assert incoming[..i] + [incoming[i]] == incoming[..i + 1];
        i, vs := i + 1, vs + [View()];
        if fd !in connections {
          return false, vs;
        }
        if connections[fd].closeRequested {
          break;
        }
      }
      return true, vs;
    }

    /** The read half of an event. */
    method ServeRead(fd: Fd, script: seq<RecvOutcome>) returns (alive: bool, ghost vs: seq<World>)
      requires Serving(fd) && fd in connections
      modifies this
      ensures Serving(fd) && alive == (fd in connections) && fd in old(clients)
      ensures ReadServed(config, clock, old(View()), script, fd, vs, View())
      ensures Lasting(old(connections), connections)
    {
      hide Tidy, Proper, Good, Progress, Receive, Traced, WireAll, Spoke, LinesServed, GoneFor, Lasting, WF, RoomsOk,
           IndexAgrees, ClientsOk;
      GoodFacts(View());
      LinkFacts(View(), fd);
      ReceiveKeeps(connections[fd], script);
      var (link, result) := Receive(connections[fd], script);
      ReplacedIsGood(View(), fd, link, log.delivered[fd]);
      assert log.delivered[fd := log.delivered[fd]] == log.delivered;
      connections := connections[fd := link];
      ghost var w := View();
      LastingPut(old(connections), fd, link);
      TracedStill(config, history, View().app, old(connections), clock, readings, connections);
      if result.hasError {
        Drop(fd, link.closeReason);
        GoneForSame(w, old(View()), View(), View(), fd, link.closeReason);
        LastingThen(old(connections), w.connections, connections);
        Departed(old(history), fd, clients.Keys);
        return false, [];
      }
      alive, vs := DispatchLines(fd, result.lines);
      LastingThen(old(connections), w.connections, connections);
      if alive && result.peerClosed {
        ghost var before := View();
        RequestClose(fd, PEER_CLOSED);
        ProgressFacts(before, View());
        TracedStill(config, history, before.app, before.connections, clock, readings, connections);
        LastingThen(old(connections), before.connections, connections);
      }
    }

    /** The write half of an event. */
    method ServeWrite(fd: Fd, script: seq<SendOutcome>) returns (alive: bool)
      requires Serving(fd) && fd in connections
      modifies this
      ensures Serving(fd) && alive == (fd in connections)
      ensures old(connections)[fd].Valid() && fd in old(log).delivered
      ensures alive == !Flush(old(connections)[fd], script).1.hasError
      ensures alive ==>
                View() == Replaced(old(View()), fd, Flush(old(connections)[fd], script).0,
                                   old(log).delivered[fd] + SentBy(old(connections)[fd], script))
      ensures !alive ==> fd in old(clients) && history == old(history) + [Lose(clients.Keys)]
      ensures !alive ==> GoneFor(old(View()), View(), fd, Flush(old(connections)[fd], script).0.closeReason)
      ensures Lasting(old(connections), connections)
    {
      hide Tidy, Proper, Good, Flush, SentBy, Traced, WireAll, GoneFor, Lasting;
      LinkFacts(View(), fd);
      FlushKeeps(connections[fd], script, log.delivered[fd]);
      var (link, result) := Flush(connections[fd], script);
      ghost var taken := log.delivered[fd] + SentBy(connections[fd], script);
      ReplacedIsGood(View(), fd, link, taken);
      connections := connections[fd := link];
      log := log.(delivered := log.delivered[fd := taken]);
      LastingPut(old(connections), fd, link);
      TracedStill(config, history, View().app, old(connections), clock, readings, connections);
      if result.hasError {
        ghost var w := View();
        Drop(fd, link.closeReason);
        GoneForSame(w, old(View()), View(), View(), fd, link.closeReason);
        LastingThen(old(connections), w.connections, connections);
        return false;
      }
      return true;
    }

    /** Recompute the interest of the connection just served. */
    method FinishEvent(fd: Fd)
      requires Serving(fd)
      modifies this
      ensures Valid() && history == old(history) + [Lose(clients.Keys)] && accepted == old(accepted)
      ensures fd in connections ==> connections == old(connections) && clients == old(clients) && log == old(log)
      ensures Lasting(old(connections), connections)
      ensures fd in old(connections) ==> fd in old(clients) && Finished(old(View()), fd, View())
      ensures fd !in old(connections) ==> Alike(old(View()), View())
      ensures Attended(connections, interests, fd)
    {
      hide Tidy, Proper, Good, Cascade, Survive, Tight, Traced, GoneFor, Lasting, WF, RoomsOk, IndexAgrees, ClientsOk;
      GoodFacts(View());
      ghost var before := View();
      var ok := RefreshInterest(fd);
      CascadeFacts(before, View());
      CascadeApp(before, View());
      if fd in before.connections && !ok {
        GoneForSame(before, before, View(),
                    View().(loose := {}, trace := Trace(history + [Lose(clients.Keys)], readings)), fd,
                    LeavingReason(before.connections[fd]));
      }
      TracedLoss(config, history, before.app, before.connections, clock, readings, clients.Keys, connections);
      Tightened(View(), fd);
      loose := {};
      TraceIsFree(View(), Trace(history + [Lose(clients.Keys)], readings));
      history := history + [Lose(clients.Keys)];
    }

    /** A hangup drops a client without output; then the connection is settled or dropped. */
    method ServeHangup(fd: Fd, hangup: bool)
      requires Serving(fd) && fd in connections
      modifies this
      ensures Valid() && Spoke(old(history), history, fd, []) && Lasting(old(connections), connections)
      ensures fd in old(clients) && Rested(old(View()), fd, hangup, View()) && Attended(connections, interests, fd)
    {
      hide Attended, Tidy, Proper, Good, Traced, Farewell, Spoke, GoneFor, Finished, Lasting;
      ghost var before := View();
      if hangup && !connections[fd].WantsWrite() {
        Drop(fd, PEER_HANGUP);
        ghost var w := View();
        FinishEvent(fd);
        GoneForSame(before, before, w, View(), fd, PEER_HANGUP);
        LastingThen(old(connections), w.connections, connections);
        TwoDepartures(old(history), history, fd);
        return;
      }
      FinishEvent(fd);
      Departed(old(history), fd, clients.Keys);
    }

    /** The rest of an event once its input is served: write, then settle or disconnect. */
    method ServeRest(e: Event)
      requires Serving(e.fd) && e.fd in connections
      modifies this
      ensures Valid() && Spoke(old(history), history, e.fd, []) && Lasting(old(connections), connections)
      ensures RestServed(old(View()), e, View()) && Attended(connections, interests, e.fd)
    {
      hide Attended, Tidy, Proper, Good, Traced, Farewell, Spoke, Flush, SentBy, GoneFor, Rested, Finished, Lasting;
      var fd := e.fd;
      if e.writable && connections[fd].WantsWrite() {
        var alive := ServeWrite(fd, e.sent);
        ghost var w := View();
        if alive {
          ServeHangup(fd, e.hangup);
        } else {
          FinishEvent(fd);
          GoneForSame(old(View()), old(View()), w, View(), fd, Flush(old(connections)[fd], e.sent).0.closeReason);
          TwoDepartures(old(history), history, fd);
        }
        LastingThen(old(connections), w.connections, connections);
      } else {
        ServeHangup(fd, e.hangup);
      }
    }

    /** `handleClientEvent`: read, dispatch, write, then settle or disconnect. */
    method HandleClientEvent(e: Event) returns (ghost vs: seq<World>, ghost mid: World)
      requires Valid()
      modifies this
      ensures Valid() && EventServed(config, clock, old(View()), e, vs, mid, View())
      ensures Lasting(old(connections), connections) && Attended(connections, interests, e.fd)
    {
      hide Tidy, Proper, Good, Traced, Farewell, Spoke, ReadServed, RestServed, GoneFor, Finished, Lasting, WF,
           RoomsOk, IndexAgrees, ClientsOk;
      var fd := e.fd;
      vs, mid := [], View();
      LastingSame(connections);
      if fd !in connections {
        return;
      }
      GoodFacts(View());
      Loosened(View(), fd);
      loose := {fd};
      ghost var w := View();
      if e.error {
        Drop(fd, ReadinessError(e.fault));
        mid := View();
        FinishEvent(fd);
        GoneForSame(w, old(View()), mid, View(), fd, ReadinessError(e.fault));
        LastingThen(old(connections), mid.connections, connections);
        TwoDepartures(old(history), history, fd);
        return;
      }
      var alive := true;
      if e.readable && !connections[fd].closeRequested {
        alive, vs := ServeRead(fd, e.received);
        ReadServedFrom(config, clock, w, old(View()), e.received, fd, vs, View());
      }
      mid := View();
      if alive {
        ServeRest(e);
      } else {
        FinishEvent(fd);
        Departed(mid.trace.history, fd, clients.Keys);
        RestWhenGone(mid, e, View());
      }
      LastingThen(old(connections), mid.connections, connections);
    }

    /** One accepted socket: refused at the connection limit or when its descriptor is already in use. */
    method AcceptClient(arrival: Arrival)
      requires Valid()
      modifies this
      ensures Valid() && ArrivalServed(old(View()), arrival, clock(old(readings)), View())
      ensures arrival.fd in connections && arrival.fd !in old(connections) ==>
                connections == old(connections)[arrival.fd := Fresh(config.maxLine, config.maxPending)]
    {
      hide Tidy, Proper, Good, Traced, LetIn, Fresh;
      if !HasRoom(connections, config.maxConnections) {
        return;
      }
      if arrival.fd in connections {
        return;
      }
      if !arrival.watched {
        return;
      }
      EnterClient(arrival);
    }

    method EnterClient(arrival: Arrival)
      requires Valid() && HasRoom(connections, config.maxConnections) && arrival.fd !in connections
      modifies this
      ensures Valid() && LetIn(old(View()), arrival, clock(old(readings)), View())
      ensures arrival.fd in connections ==>
                connections == old(connections)[arrival.fd := Fresh(config.maxLine, config.maxPending)]
    {
      hide Tidy, Proper, Good, Traced, Fresh, Connected, OpenedLog, HasRoom, Finished, Lasting, GoneFor, Attended;
      var fd := arrival.fd;
      ghost var before := View();
      OpenClient(fd, arrival.host, Fresh(config.maxLine, config.maxPending));
      OpeningIsGood(config, before, fd, arrival.host, clock, View());
      Loosened(View(), fd);
      loose := {fd};
      FinishEvent(fd);
    }

    /** Enter a connection, watched for reading, and its client record. */
    method OpenClient(fd: Fd, host: string, link: Link)
      modifies `connections, `interests, `accepted, `clients, `readings, `log, `history
      ensures connections == old(connections)[fd := link] && interests == old(interests)[fd := Interest(true, false)]
      ensures accepted == old(accepted) + 1
      ensures View().app == Connected(config, old(View()).app, fd, host, clock(old(readings)))
      ensures log == OpenedLog(old(log), fd)
      ensures history == old(history) + [Connect(fd, host, clock(old(readings)))] && readings == old(readings) + 1
    {
      hide Connected, OpenedLog;
      var now := ReadClock();
      connections, interests := connections[fd := link], interests[fd := Interest(true, false)];
      accepted := accepted + 1;
      OnConnect(fd, host, now);
      log, history := OpenedLog(log, fd), history + [Connect(fd, host, now)];
    }

    method OnConnect(fd: Fd, host: string, now: int)
      modifies `clients
      ensures View().app == Connected(config, old(View()).app, fd, host, now)
    {
      clients := clients[fd := NewClient(host, config.password == "", now)];
    }

    /** `onTick`: every client that has overstayed is gone or asked to close when the tick ends. */
    method OnTick() returns (ghost fds: seq<Fd>, ghost stages: seq<set<Fd>>, ghost ws: seq<World>)
      requires Valid()
      modifies this
      ensures Valid()
      ensures history == old(history) + [Tick(clock(old(readings)), fds, stages)]
      ensures TendedAll(config, ws, fds, clock(old(readings))) && Leads(old(View()), ws, View())
      ensures forall f :: f in old(clients) && Expires(config, old(clients)[f], clock(old(readings))) ==>
                Ending(connections, f)
    {
      hide Tidy, Proper, Good, Progress, Traced, Survive, Maintained, Expires, TickRun, Distinct, Lasting, TendedAll,
           Leads, Ending, WF, RoomsOk, IndexAgrees, ClientsOk;
      ghost var before := View();
      var now := ReadClock();
      ClockIsRead(before);
      var order := Listing(clients.Keys);
      fds := order;
      ghost var w := View();
      stages, ws := MaintainAll(order, now);
      ProgressFacts(w, View());
      TracedTick(config, history, before.app, before.connections, clock, readings - 1, fds, stages, connections);
      TraceIsFree(View(), Trace(history + [Tick(now, fds, stages)], readings));
      ghost var tended := View();
      history := history + [Tick(now, fds, stages)];
      LeadsSame(w, before, ws, tended, View());
    }

    /** The clients one after another, each in the state the ones before it left. */
    method MaintainAll(fds: seq<Fd>, now: int) returns (ghost stages: seq<set<Fd>>, ghost ws: seq<World>)
      requires Good(View()) && closing == {} && loose == {} && log.owed == {}
      requires Distinct(fds) && forall f :: f in fds <==> f in clients
      modifies this
      ensures Good(View()) && Progress(old(View()), View()) && |stages| == |fds|
      ensures View().app == TickRun(config, old(View()).app, now, fds, stages)
      ensures forall f :: f in old(clients) && Expires(config, old(clients)[f], now) ==> Ending(connections, f)
      ensures TendedAll(config, ws, fds, now) && Leads(old(View()), ws, View())
    {
      hide Tidy, Proper, Good, Progress, Survive, Maintained, Expires, TickRun, Unvisited, SeenTo, Distinct, WF,
           RoomsOk, IndexAgrees, ClientsOk, Tended, TendedAll;
      ghost var before := View();
      stages, ws := [], [before];
      NobodyTended(config, before, now);
      assert fds[..0] == [];
      VisitsBegin(config, clients, connections, fds, now);
      TickStarts(config, before.app, now, fds);
      ProgressSame(before);
      for i := 0 to |fds|
        invariant |stages| == i && Good(View()) && Progress(before, View())
        invariant closing == {} && loose == {} && log.owed == {}
        invariant View().app == TickRun(config, before.app, now, fds, stages)
        invariant |ws| == i + 1 && TendedAll(config, ws, fds[..i], now) && ws[0] == before && ws[i] == View()
        invariant Unvisited(before.app.clients, clients, fds, i)
        invariant SeenTo(config, before.app.clients, connections, fds, i, now)
      {
        ghost var w := View();
        GoodFacts(w);
        MaintainClient(fds[i], now);
        ProgressThen(before, w, View());
        ProgressFacts(before, View());
        ProgressFacts(w, View());
        OthersUntouched(config, w.app, fds[i], now, clients.Keys);
        TickStep(config, before.app, now, fds, stages, clients.Keys);
        VisitedNext(config, before.app.clients, w.app.clients, clients, w.connections, connections, fds, i, now);
        TendedMore(config, ws, fds[..i], fds[i], now, View());
        assert fds[..i + 1] == fds[..i] + [fds[i]];
        stages, ws := stages + [clients.Keys], ws + [View()];
      }
      assert fds[..|fds|] == fds;
      VisitsEnd(config, before.app.clients, connections, fds, now);
    }

    /** `shutdown`: every connection left has been asked to close and has output pending. */
    method Shutdown(reason: Words)
      requires Valid()
      modifies this
      ensures Valid() && WindingDown()
      ensures forall f :: f in old(clients) ==>
                Took(old(View()), View(), f, Format(Message("", "ERROR", [reason])))
    {
      hide Tidy, Proper, Good, Progress, Traced, Survive, Format, Took;
      var line := Format(Message("", "ERROR", [reason]));
      ghost var before := View();
      NothingHappened(before);
      var fds := Listing(clients.Keys);
      for i := 0 to |fds|
        invariant Good(View()) && Progress(before, View())
        invariant View().app == Survive(before.app, clients.Keys)
        invariant forall k :: 0 <= k < i ==> fds[k] !in connections || connections[fds[k]].closeRequested
        invariant forall k :: 0 <= k < i ==> Took(before, View(), fds[k], line)
        invariant history == old(history) && readings == old(readings)
      {
        ghost var w := View();
        ProgressFacts(before, w);
        ErrorIsProper(reason);
        SayGoodbye(fds[i], line, reason);
        forall k | 0 <= k < i
          ensures Took(before, View(), fds[k], line)
        {
          TookThen(before, w, View(), fds[k], line);
        }
        ProgressSame(View());
        TookIn(before, w, View(), View(), fds[i], line);
        ProgressThen(before, w, View());
        ProgressFacts(w, View());
        SurviveTwice(before.app, w.app.clients.Keys, clients.Keys);
      }
      ProgressFacts(before, View());
      TracedLoss(config, history, before.app, before.connections, clock, readings, clients.Keys, connections);
      TraceIsFree(View(), Trace(history + [Lose(clients.Keys)], readings));
      ghost var told := View();
      history := history + [Lose(clients.Keys)];
      forall f | f in before.app.clients
        ensures Took(before, View(), f, line)
      {
        TookSameWires(before, before, told, View(), f, line);
      }
      GoodFacts(before);
      forall f | f in connections
        ensures connections[f].closeRequested && f in interests && Settled(connections[f], interests[f])
      {
        assert f in before.app.clients;
        LinkFacts(View(), f);
      }
    }

    /** `closeAllConnections`. */
    method CloseAllConnections()
      requires Valid()
      modifies this
      ensures Valid() && connections == map[] && clients == map[]
      ensures closed == accepted
    {
      hide Tidy, Proper, Good, Cascade, Survive, Traced, Farewell, WF, RoomsOk, IndexAgrees, ClientsOk;
      ghost var before := View();
      NothingHappened(before);
      var fds := Listing(connections.Keys);
      for i := 0 to |fds|
        invariant Good(View()) && closing == {} && loose == {} && log.owed == {}
        invariant View().app == Survive(before.app, clients.Keys) && connections.Keys <= before.connections.Keys
        invariant forall k :: 0 <= k < i ==> fds[k] !in connections
        invariant history == old(history) && readings == old(readings)
      {
        ghost var w := View();
        Disconnect(fds[i], SERVER_STOPPED);
        CascadeFacts(w, View());
        CascadeApp(w, View());
        SurviveTwice(before.app, w.app.clients.Keys, clients.Keys);
      }
      TracedLoss(config, history, before.app, before.connections, clock, readings, clients.Keys, connections);
      TraceIsFree(View(), Trace(history + [Lose(clients.Keys)], readings));
      history := history + [Lose(clients.Keys)];
      assert connections.Keys == {};
      NobodyThere(View());
    }

    /** `acceptReadyClients`: every socket waiting to be accepted. */
    method AcceptReadyClients(arrivals: seq<Arrival>)
      requires Valid()
      modifies this
      ensures Valid() && Admitted(clock, old(View()), arrivals, View())
    {
      hide Tidy, Proper, Good, Traced, ArrivalServed;
      for i := 0 to |arrivals|
        invariant Valid() && Admitted(clock, old(View()), arrivals[..i], View())
      {
        ghost var w := View();
        AcceptClient(arrivals[i]);
        AdmittedOneMore(clock, old(View()), arrivals, i, w, View());
      }
      assert arrivals[..|arrivals|] == arrivals;
    }

    /** `pollOnce`: any batch of readiness events, in the order the event manager gave them. */
    method PollOnce(batch: seq<Ready>)
      requires Valid()
      modifies this
      ensures Valid() && Polled(config, clock, old(View()), batch, View())
      ensures NoArrivals(batch) ==> Lasting(old(connections), connections)
    {
      hide Tidy, Proper, Good, Traced, Admitted, EventServed;
      for i := 0 to |batch|
        invariant Valid() && Polled(config, clock, old(View()), batch[..i], View())
        invariant NoArrivals(batch) ==> Lasting(old(connections), connections)
      {
        ghost var w := View();
        match batch[i] {
          case Acceptable(arrivals) => AcceptReadyClients(arrivals);
          case Client(event) => var _, _ := HandleClientEvent(event);
        }
        assert ReadyServed(config, clock, w, batch[i], View());
        PolledOneMore(config, clock, old(View()), batch, i, w, View());
        if NoArrivals(batch) {
          LastingThen(old(connections), w.connections, connections);
        }
      }
      assert batch[..|batch|] == batch;
    }

    /** `Server::run`: any batches until a stop, then every connection is closed. */
    method Run(batches: seq<seq<Ready>>)
      requires Valid()
      modifies this
      ensures Valid() && connections == map[] && clients == map[] && closed == accepted
    {
      hide Tidy, Proper, Good, Traced, Polled;
      for i := 0 to |batches|
        invariant Valid()
      {
        PollOnce(batches[i]);
      }
      CloseAllConnections();
    }

    /** Every connection left is closing and the event loop will come back to write its last output. */
    ghost predicate WindingDown()
      reads this
    {
      forall f :: f in connections ==>
        connections[f].closeRequested && connections[f].WantsWrite() && f in interests && interests[f].write
    }

    /** The loop of the program and its graceful stop: batches with a tick after each, the shutdown lines,
        and a few last polls. If nobody new arrives meanwhile, all that is left at the end is winding down. */
    method Serve(batches: seq<seq<Ready>>, last: seq<seq<Ready>>)
      requires Valid()
      modifies this
      ensures Valid()
      ensures (forall i :: 0 <= i < |last| ==> NoArrivals(last[i])) ==> WindingDown()
    {
      hide Tidy, Proper, Good, Traced, Expires, Polled;
      for i := 0 to |batches|
        invariant Valid()
      {
        PollOnce(batches[i]);
        ghost var _, _, _ := OnTick();
      }
      Shutdown(SHUTTING_DOWN);
      var i := 0;
      while i < 8 && i < |last| && |connections| > 0
        invariant 0 <= i && Valid()
        invariant (forall k :: 0 <= k < |last| ==> NoArrivals(last[k])) ==> WindingDown()
      {
        ghost var links := connections;
        PollOnce(last[i]);
        if forall k :: 0 <= k < |last| ==> NoArrivals(last[k]) {
          assert NoArrivals(last[i]);
          KeepsWindingDown(links);
        }
        i := i + 1;
      }
    }

    lemma KeepsWindingDown(before: Links)
      requires Valid() && Lasting(before, connections)
      requires forall f :: f in before ==> before[f].closeRequested
      ensures WindingDown()
    {
      hide Tidy, Proper, Good, Traced;
      forall f | f in connections
        ensures connections[f].closeRequested && connections[f].WantsWrite() && f in interests && interests[f].write
      {
        LinkFacts(View(), f);
      }
    }
  }
}
