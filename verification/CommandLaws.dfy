/** Every command keeps the application state well-formed, and how leaving channels combines with the
    loss of other clients. */
module CommandLaws {
  import opened Text
  import opened Messages
  import opened State
  import opened Commands

  // ----- One channel changed -----

  lemma JoinOneWF(a: App, fd: Fd, name: string)
    requires WF(a) && (fd in a.clients ==> a.clients[fd].registered)
    ensures WF(JoinOne(a, fd, name))
  {
    hide ValidChannelName, IndexAgrees, ClientsOk, Canonical;
    var b := JoinOne(a, fd, name);
    if fd in a.clients && ValidChannelName(name) {
      if name in a.channels {
        assert RoomOk(name, a.channels[name], a.clients);
        if b != a {
          WithRoomWF(a, name, b.channels[name]);
        }
      } else {
        WithRoomWF(a, name, b.channels[name]);
      }
    }
  }

  lemma RemovedWF(a: App, name: string, fd: Fd)
    requires WF(a)
    ensures WF(Removed(a, name, fd))
  {
    hide ValidChannelName, IndexAgrees, ClientsOk;
    if name in a.channels {
      assert RoomOk(name, a.channels[name], a.clients);
    }
  }

  lemma InvitedWF(a: App, fd: Fd, params: seq<string>)
    requires WF(a)
    ensures WF(Invited(a, fd, params))
  {
    hide ValidChannelName, IndexAgrees, ClientsOk, Canonical;
    if MayInvite(a, fd, params) {
      assert RoomOk(params[1], a.channels[params[1]], a.clients);
      WithRoomWF(a, params[1], a.channels[params[1]].Invite(params[0]));
    }
  }

  lemma RetitledWF(a: App, fd: Fd, params: seq<string>)
    requires WF(a) && Decent(params)
    ensures WF(Retitled(a, fd, params))
  {
    hide ValidChannelName, IndexAgrees, ClientsOk;
    if MayRetitle(a, fd, params) {
      assert RoomOk(params[0], a.channels[params[0]], a.clients);
      WithRoomWF(a, params[0], a.channels[params[0]].SetTopic(params[1]));
    }
  }

  lemma ModeRoomWF(s: Modes, params: seq<string>, mode: char)
    requires WF(s.app) && params != []
    ensures WF(ModeRoom(s, params, mode))
  {
    hide ValidChannelName, IndexAgrees, ClientsOk, FindNick;
    var a, name := s.app, params[0];
    if name in a.channels {
      var ch := a.channels[name];
      assert RoomOk(name, ch, a.clients);
      WithRoomWF(a, name, ch.(inviteOnly := s.adding));
      WithRoomWF(a, name, ch.(topicProtected := s.adding));
      if ModeTarget(a, params, s.arg).Some? {
        WithRoomWF(a, name, ch.SetOperator(ModeTarget(a, params, s.arg).value, s.adding));
      }
    }
  }

  // ----- Leaving -----

  lemma LeftWF(a: App, fd: Fd, names: set<string>, alive: set<Fd>)
    requires WF(a)
    ensures WF(Left(a, fd, names, alive))
  {
    hide ValidChannelName, IndexAgrees, ClientsOk;
    SurviveWF(a, alive);
    var b := Left(a, fd, names, alive);
    forall n | n in b.channels
      ensures RoomOk(n, b.channels[n], b.clients)
    {
      assert RoomOk(n, a.channels[n], a.clients);
    }
  }

  lemma LeftNothing(a: App, fd: Fd, alive: set<Fd>)
    ensures Left(a, fd, {}, alive) == Survive(a, alive)
  {
    assert LeftRooms(a.channels, fd, {}, alive) == SurvivingRooms(a.channels, alive);
  }

  lemma SurviveAfterLeft(rooms: Rooms, fd: Fd, names: set<string>, first: set<Fd>, second: set<Fd>)
    requires second <= first
    ensures SurvivingRooms(LeftRooms(rooms, fd, names, first), second) == LeftRooms(rooms, fd, names, second)
  {
    var left := LeftRooms(rooms, fd, names, first);
    var x, y := SurvivingRooms(left, second), LeftRooms(rooms, fd, names, second);
    forall n | n in rooms
      ensures n in x <==> n in y
      ensures n in x ==> x[n] == y[n]
    {
      var s, t := Staying(fd, names, first, n), Staying(fd, names, second, n);
      assert rooms[n].members * s * second == rooms[n].members * t;
      assert rooms[n].operators * s * second == rooms[n].operators * t;
      assert rooms[n].members * t <= rooms[n].members * s;
    }
  }

  lemma RemoveIsLeave(rooms: Rooms, fd: Fd, names: set<string>, alive: set<Fd>, name: string)
    requires name in LeftRooms(rooms, fd, names, alive)
    ensures var ch := LeftRooms(rooms, fd, names, alive)[name].RemoveMember(fd);
            LeftRooms(rooms, fd, names + {name}, alive) ==
            if ch.members == {} then LeftRooms(rooms, fd, names, alive) - {name}
            else LeftRooms(rooms, fd, names, alive)[name := ch]
  {
    hide Staying, LeftRooms;
    StayingStep(fd, names, alive, name);
    LeftElsewhere(rooms, fd, names, alive, name);
    LeftHere(rooms, fd, names, alive, name);
    LeftHere(rooms, fd, names + {name}, alive, name);
    SameBut(LeftRooms(rooms, fd, names + {name}, alive), LeftRooms(rooms, fd, names, alive), name);
    KeepWithout(rooms[name], Staying(fd, names, alive, name), alive, fd);
  }

  lemma SameBut(x: Rooms, y: Rooms, name: string)
    requires x - {name} == y - {name}
    ensures name in x ==> x == y[name := x[name]]
    ensures name !in x ==> x == y - {name}
    ensures name !in x && name !in y ==> x == y
  {
    assert forall n :: n != name ==> (n in x <==> n in x - {name}) && (n in y <==> n in y - {name});
    assert forall n :: n != name && n in x ==> x[n] == (x - {name})[n] && y[n] == (y - {name})[n];
  }

  lemma LeftHere(rooms: Rooms, fd: Fd, names: set<string>, alive: set<Fd>, name: string)
    ensures var x, s := LeftRooms(rooms, fd, names, alive), Staying(fd, names, alive, name);
            && (name in x <==> name in rooms && rooms[name].Keep(s).members != {})
            && (name in x ==> x[name] == rooms[name].Keep(s))
  {}

  lemma LeftElsewhere(rooms: Rooms, fd: Fd, names: set<string>, alive: set<Fd>, name: string)
    ensures LeftRooms(rooms, fd, names + {name}, alive) - {name} == LeftRooms(rooms, fd, names, alive) - {name}
  {
    hide Staying;
    StayingStep(fd, names, alive, name);
  }

  lemma StayingStep(fd: Fd, names: set<string>, alive: set<Fd>, name: string)
    ensures forall n :: n != name ==> Staying(fd, names + {name}, alive, n) == Staying(fd, names, alive, n)
    ensures Staying(fd, names + {name}, alive, name) == alive - {fd}
    ensures Staying(fd, names, alive, name) == alive || Staying(fd, names, alive, name) == alive - {fd}
  {}

  lemma KeepWithout(ch: Channel, staying: set<Fd>, alive: set<Fd>, fd: Fd)
    requires staying == alive || staying == alive - {fd}
    ensures ch.Keep(staying).RemoveMember(fd) == ch.Keep(alive - {fd})
  {
    assert ch.members * staying - {fd} == ch.members * (alive - {fd});
    assert ch.operators * staying - {fd} == ch.operators * (alive - {fd});
  }

  lemma LeaveIsDone(rooms: Rooms, fd: Fd, names: set<string>, alive: set<Fd>, name: string)
    requires name !in LeftRooms(rooms, fd, names, alive)
    ensures LeftRooms(rooms, fd, names + {name}, alive) == LeftRooms(rooms, fd, names, alive)
  {
    hide Staying, LeftRooms;
    StayingStep(fd, names, alive, name);
    LeftElsewhere(rooms, fd, names, alive, name);
    LeftHere(rooms, fd, names, alive, name);
    LeftHere(rooms, fd, names + {name}, alive, name);
    SameBut(LeftRooms(rooms, fd, names + {name}, alive), LeftRooms(rooms, fd, names, alive), name);
    if name in rooms {
      assert rooms[name].members * (alive - {fd}) <= rooms[name].members * Staying(fd, names, alive, name);
    }
  }

  /** Leaving one more channel after further losses: the order of leaving and of losing does not matter. */
  lemma LeaveOneMore(a: App, fd: Fd, names: set<string>, first: set<Fd>, second: set<Fd>, name: string)
    requires second <= first
    ensures Removed(Survive(Left(a, fd, names, first), second), name, fd) == Left(a, fd, names + {name}, second)
  {
    hide LeftRooms, SurvivingRooms;
    SurviveTwice(a, first, second);
    SurviveAfterLeft(a.channels, fd, names, first, second);
    if name in LeftRooms(a.channels, fd, names, second) {
      RemoveIsLeave(a.channels, fd, names, second, name);
    } else {
      LeaveIsDone(a.channels, fd, names, second, name);
    }
  }

  /** JOIN 0 leaves its issuer in no channel (section 3.2.1 of RFC 2812), whoever else was lost meanwhile. */
  lemma JoinZeroLeavesAll(a: App, fd: Fd, alive: set<Fd>)
    ensures RoomsOf(Left(a, fd, RoomsOf(a.channels, fd), alive).channels, fd) == {}
  {}

  // ----- One record changed -----

  lemma MaintainedWF(cfg: Config, a: App, fd: Fd, now: int)
    requires WF(a)
    ensures WF(Maintained(cfg, a, fd, now))
  {
    hide WF;
    if fd in a.clients && Judge(cfg, a.clients[fd], now).Probe? {
      RecordWF(a, fd, Probed(a.clients[fd], Token(fd, a.tokens + 1), now));
      var b := WithClient(a, fd, Probed(a.clients[fd], Token(fd, a.tokens + 1), now));
      TokensWF(b, a.tokens + 1);
    }
  }

  lemma TokensWF(a: App, n: nat)
    requires WF(a)
    ensures WF(a.(tokens := n))
  {}

  /** Fields that no gate and no index looks at may change freely. */
  lemma RecordWF(a: App, fd: Fd, c: Client)
    requires WF(a) && fd in a.clients
    requires var d := a.clients[fd];
             && c.passOk == d.passOk && c.hasNick == d.hasNick && c.hasUser == d.hasUser && c.registered == d.registered
             && c.nick == d.nick && c.user == d.user && c.host == d.host
    ensures WF(WithClient(a, fd, c))
  {
    assert ClientOk(a.clients[fd]);
    WithClientWF(a, fd, c);
  }

  // ----- Runs within a command -----

  lemma {:induction false} JoinRunWF(a: App, fd: Fd, names: seq<string>, stages: seq<set<Fd>>)
    requires WF(a) && (fd in a.clients ==> a.clients[fd].registered) && |stages| <= |names|
    ensures var b := JoinRun(a, fd, names, stages);
            WF(b) && (fd in b.clients ==> b.clients[fd].registered)
  {
    hide WF, Survive;
    if stages != [] {
      var k := |stages| - 1;
      JoinRunWF(a, fd, names, stages[..k]);
      var b := JoinRun(a, fd, names, stages[..k]);
      JoinOneWF(b, fd, names[k]);
      SurviveWF(JoinOne(b, fd, names[k]), stages[k]);
      SurviveRecord(JoinOne(b, fd, names[k]), stages[k], fd);
    }
  }

  lemma SurviveRecord(a: App, alive: set<Fd>, fd: Fd)
    ensures var b := Survive(a, alive); fd in b.clients ==> fd in a.clients && b.clients[fd] == a.clients[fd]
  {}

  lemma {:induction false} ModeRunWF(a: App, params: seq<string>, stages: seq<set<Fd>>)
    requires WF(a) && |params| >= 2 && |stages| <= |params[1]|
    ensures WF(ModeRun(a, params, stages).app)
  {
    hide WF, Survive, ModeRoom;
    if stages != [] {
      var k := |stages| - 1;
      ModeRunWF(a, params, stages[..k]);
      var s := ModeRun(a, params, stages[..k]);
      ModeRoomWF(s, params, params[1][k]);
      SurviveWF(ModeRoom(s, params, params[1][k]), stages[k]);
    }
  }

  lemma {:induction false} TickRunWF(cfg: Config, a: App, now: int, order: seq<Fd>, stages: seq<set<Fd>>)
    requires WF(a) && |stages| <= |order|
    ensures WF(TickRun(cfg, a, now, order, stages))
  {
    hide WF, Survive, Maintained;
    if stages != [] {
      var k := |stages| - 1;
      TickRunWF(cfg, a, now, order, stages[..k]);
      var b := TickRun(cfg, a, now, order, stages[..k]);
      MaintainedWF(cfg, b, order[k], now);
      SurviveWF(Maintained(cfg, b, order[k], now), stages[k]);
    }
  }

  // ----- Whole commands -----

  lemma RegisteredHandledWF(a: App, fd: Fd, m: Message, course: Course)
    requires WF(a) && fd in a.clients && a.clients[fd].registered && Matches(m, course) && Decent(m.params)
    ensures WF(RegisteredHandled(a, fd, m, course))
  {
    hide WF, Survive, Left, JoinRun, ModeRun, Removed, Invited, Retitled, KickTarget, VerbOf, Pieces, RoomsOf,
         MayChangeModes;
    var alive, params := course.alive, m.params;
    SurviveWF(a, alive);
    match VerbOf(m.command) {
      case Join =>
        if params != [] {
          LeftWF(a, fd, RoomsOf(a.channels, fd), alive);
          JoinRunWF(a, fd, Pieces(params[0]), course.stages);
        }
      case Part =>
        if params != [] {
          LeftWF(a, fd, SetOf(Pieces(params[0])), alive);
        }
      case Topic =>
        RetitledWF(a, fd, params);
        SurviveWF(Retitled(a, fd, params), alive);
      case Kick =>
        if KickTarget(a, fd, params).Some? {
          KickNamesRoom(a, fd, params);
          RemovedWF(Survive(a, alive), params[0], KickTarget(a, fd, params).value);
        }
      case Invite =>
        InvitedWF(a, fd, params);
        SurviveWF(Invited(a, fd, params), alive);
      case Mode =>
        if |params| >= 2 {
          ModeRunWF(a, params, course.stages);
        } else {
          ModesNeedString(a, fd, params);
        }
      case _ =>
    }
  }

  lemma KickNamesRoom(a: App, fd: Fd, params: seq<string>)
    ensures KickTarget(a, fd, params).Some? ==> |params| >= 2
  {}

  lemma ModesNeedString(a: App, fd: Fd, params: seq<string>)
    ensures MayChangeModes(a, fd, params) ==> |params| >= 2
  {}

  lemma HandledWF(cfg: Config, a: App, fd: Fd, m: Message, course: Course)
    requires WF(a) && fd in a.clients && Matches(m, course) && Decent(m.params)
    ensures WF(Handled(cfg, a, fd, m, course))
  {
    hide WF, Survive, RegisteredHandled, VerbOf, Passed, Renamed, Described, Ponged, Matches;
    SurviveWF(a, course.alive);
    match VerbOf(m.command) {
      case Pass =>
        PassedWF(cfg, a, fd, m.params);
        SurviveWF(Passed(cfg, a, fd, m.params), course.alive);
      case Nick =>
        RenamedWF(a, fd, m.params);
        SurviveWF(Renamed(a, fd, m.params), course.alive);
      case User =>
        DescribedWF(a, fd, m.params);
        SurviveWF(Described(a, fd, m.params), course.alive);
      case Pong =>
        PongedWF(a, fd, m.params);
        SurviveWF(Ponged(a, fd, m.params), course.alive);
      case Ping =>
      case QuitVerb =>
      case _ =>
        if a.clients[fd].registered {
          RegisteredHandledWF(a, fd, m, course);
        }
    }
  }

  lemma PongedWF(a: App, fd: Fd, params: seq<string>)
    requires WF(a) && fd in a.clients
    ensures WF(Ponged(a, fd, params))
  {
    hide WF;
    if Ponged(a, fd, params) != a {
      RecordWF(a, fd, a.clients[fd].(awaitingPong := false, pendingPongToken := "", lastPingAt := 0));
    }
  }

  lemma LineHandledWF(cfg: Config, a: App, fd: Fd, line: string, now: int, course: Course)
    requires WF(a) && fd in a.clients && LineMatches(line, course) && Tidy(line)
    ensures WF(LineHandled(cfg, a, fd, line, now, course))
  {
    hide WF, Survive, Handled, Matches, Parse, PopOld;
    var touched := Touched(a, fd, now);
    RecordWF(a, fd, touched.clients[fd]);
    SurviveWF(touched, course.alive);
    if Parse(line).Parsed? {
      var counted := Counted(cfg, touched, fd, now);
      RecordWF(touched, fd, counted.clients[fd]);
      SurviveWF(counted, course.alive);
      if WithinRate(cfg, counted.clients[fd]) {
        ParsedIsDecent(line);
        HandledWF(cfg, counted, fd, Parse(line).message, course);
      }
    }
  }

  lemma NamedHasNick(a: App, fd: Fd)
    requires WF(a) && fd in a.clients && a.clients[fd].hasNick
    ensures a.clients[fd].nick != ""
  {
    hide IndexAgrees, RoomsOk;
    assert ClientOk(a.clients[fd]);
  }

  lemma RenamedIsNicknamed(a: App, fd: Fd, params: seq<string>)
    requires fd in a.clients && a.clients[fd].registered && MayTake(a, fd, params)
    ensures Renamed(a, fd, params) == Nicknamed(a, fd, params[0])
  {
    var b := Nicknamed(a, fd, params[0]);
    assert b.clients[fd := b.clients[fd]] == b.clients;
  }

  lemma SameRecord(a: App, fd: Fd)
    requires fd in a.clients
    ensures WithClient(a, fd, a.clients[fd]) == a
  {
    assert a.clients[fd := a.clients[fd]] == a.clients;
  }

  // ----- Handles stay live -----

  /** A channel outlives any cascade that its member outlives. */
  lemma MemberKeepsRoom(a: App, alive: set<Fd>, name: string, fd: Fd)
    requires name in a.channels && fd in a.channels[name].members
    ensures var b := Survive(a, alive);
            fd in alive ==> name in b.channels && fd in b.channels[name].members
  {
    if fd in alive {
      assert fd in a.channels[name].members * alive;
    }
  }

  lemma RoomIsInhabited(a: App, name: string)
    requires WF(a)
    ensures name in a.channels ==> a.channels[name].members != {}
  {
    assert name in a.channels ==> RoomOk(name, a.channels[name], a.clients);
  }

  /** Creating a missing channel first and then deciding comes to the same as the meaning of JOIN. */
  lemma JoinOneCases(a: App, fd: Fd, name: string)
    requires WF(a) && fd in a.clients
    ensures var b := JoinOne(a, fd, name);
            var rooms := if name in a.channels then a.channels else a.channels[name := NewChannel(name)];
            var ch, nick := rooms[name], a.clients[fd].nick;
            && b == a.(channels := b.channels)
            && (if !ValidChannelName(name) then b == a
                else if fd in ch.members || (ch.inviteOnly && !ch.IsInvited(nick)) then b == a && name in a.channels
                else b.channels == rooms[name := ch.AddMember(fd, ch.members == {}).ClearInvite(nick)])
  {
    hide ValidChannelName, IndexAgrees, ClientsOk, Canonical;
    RoomIsInhabited(a, name);
    if name !in a.channels {
      var ch := NewChannel(name).AddMember(fd, true).ClearInvite(a.clients[fd].nick);
      assert a.channels[name := NewChannel(name)][name := ch] == a.channels[name := ch];
    }
  }

  lemma ModeRoomKeeps(s: Modes, params: seq<string>, mode: char, fd: Fd)
    requires params != []
    ensures var b := ModeRoom(s, params, mode);
            && b.clients == s.app.clients && b.nicks == s.app.nicks && b.tokens == s.app.tokens
            && b.channels.Keys == s.app.channels.Keys
            && (params[0] in s.app.channels ==> b.channels[params[0]].members == s.app.channels[params[0]].members)
  {
    hide ModeTarget;
  }

  lemma RemovedOutsider(a: App, alive: set<Fd>, name: string, fd: Fd)
    requires WF(a) && (name in a.channels ==> fd !in a.channels[name].members)
    ensures Removed(Survive(a, alive), name, fd) == Survive(a, alive)
  {
    hide ValidChannelName, IndexAgrees, ClientsOk;
    var b := Survive(a, alive);
    if name in b.channels {
      assert RoomOk(name, a.channels[name], a.clients);
      assert b.channels[name].RemoveMember(fd) == b.channels[name];
      assert b.channels[name := b.channels[name]] == b.channels;
    }
  }

  /** Only a registered client has peers, and they are the rest of its circle. */
  lemma PeersAreCircle(a: App, fd: Fd)
    requires WF(a) && fd in a.clients
    ensures CoMembers(a.channels, fd) ==
            if a.clients[fd].registered && a.clients[fd].nick != "" then Circle(a.channels, fd) - {fd} else {}
  {
    hide IndexAgrees, ValidChannelName;
    CircleWithoutSelf(a.channels, fd);
    assert ClientOk(a.clients[fd]);
    if !a.clients[fd].registered {
      forall n | n in a.channels
        ensures fd !in a.channels[n].members
      {
        assert RoomOk(n, a.channels[n], a.clients);
      }
    }
  }

  predicate Expires(cfg: Config, c: Client, now: int) {
    Judge(cfg, c, now).RegistrationExpired? || Judge(cfg, c, now).PongExpired?
  }

  function NoStages(m: Message, alive: set<Fd>): (course: Course)
    ensures Matches(m, course) && course.alive == alive
  {
    Course(alive, [])
  }

  lemma OthersUntouched(cfg: Config, a: App, fd: Fd, now: int, alive: set<Fd>)
    ensures var b := Survive(Maintained(cfg, a, fd, now), alive);
            forall f :: f in b.clients && f != fd ==> f in a.clients && b.clients[f] == a.clients[f]
  {}
}
