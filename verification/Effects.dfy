/** What each command does, told without the functions that define it: who is in which channel, with which
    status and under which terms, and what stands in whose record, before and after. `alive` are the clients
    that survive the sends of the command. */
module Effects {
  import opened Text
  import opened Messages
  import opened State
  import opened Commands
  import opened CommandLaws

  /** The terms of a channel: its invitations, flags and topic. */
  ghost predicate SameTerms(a: App, b: App, name: string) {
    && Invitations(b, name) == Invitations(a, name) && InviteOnly(b, name) == InviteOnly(a, name)
    && TopicGuarded(b, name) == TopicGuarded(a, name) && TopicOf(b, name) == TopicOf(a, name)
  }

  /** Channel `name` has lost `lost` and whoever is not alive, and is otherwise as it was. */
  ghost predicate Lost(a: App, b: App, name: string, alive: set<Fd>, lost: set<Fd>) {
    && Members(b, name) == Members(a, name) * alive - lost && Operators(b, name) == Operators(a, name) * alive - lost
    && (Members(b, name) != {} ==> SameTerms(a, b, name))
  }

  /** The records are those of the survivors, unchanged. */
  ghost predicate RecordsOf(a: App, b: App, alive: set<Fd>) {
    forall f :: (f in b.clients <==> f in a.clients && f in alive) && (f in b.clients ==> b.clients[f] == a.clients[f])
  }

  /** A restriction to survivors is just that, channel by channel and record by record. */
  lemma SurvivorsSee(a: App, alive: set<Fd>, name: string)
    requires WF(a)
    ensures Lost(a, Survive(a, alive), name, alive, {}) && RecordsOf(a, Survive(a, alive), alive)
    ensures (name in Survive(a, alive).channels) <==> Members(Survive(a, alive), name) != {}
  {
    hide IndexAgrees, ClientsOk;
    if name in a.channels {
      assert RoomOk(name, a.channels[name], a.clients);
      assert a.channels[name].members * alive == {} ==> a.channels[name].operators * alive == {};
    }
  }

  // ----- Leaving: KICK and PART -----

  lemma RemovedSees(a: App, name: string, fd: Fd, other: string)
    requires WF(a)
    ensures var b := Removed(a, name, fd);
            && Members(b, other) == Members(a, other) - (if other == name then {fd} else {})
            && Operators(b, other) == Operators(a, other) - (if other == name then {fd} else {})
            && (Members(b, other) != {} ==> SameTerms(a, b, other))
            && b.clients == a.clients
  {
    hide IndexAgrees, ClientsOk;
    if other in a.channels {
      assert RoomOk(other, a.channels[other], a.clients);
    }
  }

  /** Whom a KICK by `fd` takes out: the member of the channel with that nickname, if `fd` is an operator. */
  ghost function Kickees(a: App, fd: Fd, params: seq<string>): set<Fd> {
    if |params| < 2 || fd !in Operators(a, params[0]) then {}
    else set t | t in Members(a, params[0]) && t in a.clients && Canonical(a.clients[t].nick) == Canonical(params[1])
  }

  lemma KickeesAreTarget(a: App, fd: Fd, params: seq<string>)
    requires WF(a)
    ensures Kickees(a, fd, params) == match KickTarget(a, fd, params) case Some(t) => {t} case None => {}
  {
    hide ClientsOk, Canonical;
    if |params| >= 2 && params[0] in a.channels {
      assert RoomOk(params[0], a.channels[params[0]], a.clients);
      MembersHaveNicks(a, params[0]);
    }
  }

  lemma MembersHaveNicks(a: App, name: string)
    requires WF(a)
    ensures forall t :: t in Members(a, name) ==> t in a.clients && a.clients[t].nick != ""
  {
    hide IndexAgrees;
    if name in a.channels {
      assert RoomOk(name, a.channels[name], a.clients);
      forall t | t in Members(a, name)
        ensures t in a.clients && a.clients[t].nick != ""
      {
        assert ClientOk(a.clients[t]);
      }
    }
  }

  /** KICK: the named member goes, nobody else does, and no other channel is touched. */
  lemma KickTakesTheTarget(cfg: Config, a: App, fd: Fd, m: Message, course: Course, other: string)
    requires WF(a) && fd in a.clients && a.clients[fd].registered && Matches(m, course) && m.command == "KICK"
    ensures var b := Handled(cfg, a, fd, m, course);
            && Lost(a, b, other, course.alive,
                    if m.params != [] && other == m.params[0] then Kickees(a, fd, m.params) else {})
            && RecordsOf(a, b, course.alive)
  {
    hide WF, Survive, Removed, KickTarget, Kickees, Members, Operators, SameTerms;
    var alive, target := course.alive, KickTarget(a, fd, m.params);
    SurvivorsSee(a, alive, other);
    SurviveWF(a, alive);
    KickeesAreTarget(a, fd, m.params);
    if target.Some? {
      KickNamesRoom(a, fd, m.params);
      RemovedSees(Survive(a, alive), m.params[0], target.value, other);
      LostAlso(a, Survive(a, alive), Removed(Survive(a, alive), m.params[0], target.value), other, alive,
               if other == m.params[0] then {target.value} else {});
    }
  }

  lemma LostAlso(a: App, b: App, c: App, name: string, alive: set<Fd>, lost: set<Fd>)
    requires Lost(a, b, name, alive, {})
    requires Members(c, name) == Members(b, name) - lost && Operators(c, name) == Operators(b, name) - lost
    requires Members(c, name) != {} ==> SameTerms(b, c, name)
    ensures Lost(a, c, name, alive, lost)
  {
    hide Members, Operators;
  }

  /** PART: its issuer leaves the channels named, and nobody else leaves any. */
  lemma PartLeavesTheNamed(cfg: Config, a: App, fd: Fd, m: Message, course: Course, other: string)
    requires WF(a) && fd in a.clients && a.clients[fd].registered && Matches(m, course) && m.command == "PART"
    ensures var b := Handled(cfg, a, fd, m, course);
            && Lost(a, b, other, course.alive, if m.params != [] && other in Pieces(m.params[0]) then {fd} else {})
            && RecordsOf(a, b, course.alive)
  {
    hide WF, Survive, Left, Pieces, Members, Operators, SameTerms;
    SurvivorsSee(a, course.alive, other);
    if m.params != [] {
      LeftSees(a, fd, SetOf(Pieces(m.params[0])), course.alive, other);
    }
  }

  /** JOIN 0 leaves every channel and touches nobody else. */
  lemma JoinZeroLeavesTheRest(cfg: Config, a: App, fd: Fd, m: Message, course: Course, other: string)
    requires WF(a) && fd in a.clients && a.clients[fd].registered && Matches(m, course) && m.command == "JOIN"
    requires m.params != [] && m.params[0] == "0"
    ensures var b := Handled(cfg, a, fd, m, course);
            Lost(a, b, other, course.alive, {fd}) && RecordsOf(a, b, course.alive)
  {
    hide WF, Survive, Left, Pieces, SameTerms;
    LeftSees(a, fd, RoomsOf(a.channels, fd), course.alive, other);
    if other !in RoomsOf(a.channels, fd) {
      OutsidersStayOut(a, other, fd);
    }
  }

  lemma OutsidersStayOut(a: App, other: string, fd: Fd)
    requires WF(a) && other !in RoomsOf(a.channels, fd)
    ensures fd !in Members(a, other) && fd !in Operators(a, other)
  {
    hide IndexAgrees, ClientsOk;
    if other in a.channels {
      assert RoomOk(other, a.channels[other], a.clients);
    }
  }

  /** Each channel is left to those staying in it. */
  lemma LeftRoom(a: App, fd: Fd, names: set<string>, alive: set<Fd>, other: string)
    ensures var b, c := Left(a, fd, names, alive), Survive(a, Staying(fd, names, alive, other));
            SameRoom(b, c, other) && RecordsOf(a, b, alive)
  {
    hide Staying;
  }

  ghost predicate SameRoom(b: App, c: App, name: string) {
    (name in b.channels <==> name in c.channels) && (name in b.channels ==> b.channels[name] == c.channels[name])
  }

  lemma SameViews(b: App, c: App, name: string)
    requires SameRoom(b, c, name)
    ensures Members(b, name) == Members(c, name) && Operators(b, name) == Operators(c, name) && SameTerms(c, b, name)
  {}

  lemma LeftSees(a: App, fd: Fd, names: set<string>, alive: set<Fd>, other: string)
    requires WF(a)
    ensures var b := Left(a, fd, names, alive);
            && Lost(a, b, other, alive, if other in names then {fd} else {})
            && RecordsOf(a, b, alive)
  {
    hide WF, Left, Survive, Members, Operators, Invitations, InviteOnly, TopicGuarded, TopicOf, RecordsOf, SameRoom;
    var staying := Staying(fd, names, alive, other);
    LeftRoom(a, fd, names, alive, other);
    SurvivorsSee(a, staying, other);
    SameViews(Left(a, fd, names, alive), Survive(a, staying), other);
    var lost := if other in names then {fd} else {};
    assert staying == alive - lost;
    assert Members(a, other) * staying == Members(a, other) * alive - lost;
    assert Operators(a, other) * staying == Operators(a, other) * alive - lost;
  }

  // ----- Entering: JOIN -----

  /** Whether a JOIN of `name` by `fd` is let in. */
  ghost predicate Admits(a: App, fd: Fd, name: string) {
    && fd in a.clients && ValidChannelName(name) && fd !in Members(a, name)
    && (InviteOnly(a, name) ==> Canonical(a.clients[fd].nick) in Invitations(a, name))
  }

  /** One name of a JOIN: one let in becomes a member, operator exactly if nobody was there, and its
      invitation is used up; a new channel is open, its topic guarded and unset. Nothing else changes. */
  lemma JoinLetsIn(a: App, fd: Fd, name: string, other: string)
    requires WF(a)
    ensures var b, entered := JoinOne(a, fd, name), if other == name && Admits(a, fd, name) then {fd} else {};
            && Members(b, other) == Members(a, other) + entered
            && Operators(b, other) == Operators(a, other) + (if Members(a, other) == {} then entered else {})
            && Invitations(b, other) ==
               Invitations(a, other) - (if entered != {} then {Canonical(a.clients[fd].nick)} else {})
            && InviteOnly(b, other) == InviteOnly(a, other) && TopicOf(b, other) == TopicOf(a, other)
            && TopicGuarded(b, other) == (TopicGuarded(a, other) || (entered != {} && Members(a, other) == {}))
            && b.clients == a.clients
  {
    hide WF, Members, Operators, Invitations, InviteOnly, TopicGuarded, TopicOf, Canonical, ValidChannelName, JoinOne;
    OperatorsAreMembers(a, other);
    if other != name {
      JoinElsewhere(a, fd, name, other);
      SameViews(JoinOne(a, fd, name), a, other);
    } else {
      JoinHere(a, fd, name);
    }
  }

  lemma JoinElsewhere(a: App, fd: Fd, name: string, other: string)
    requires other != name
    ensures SameRoom(JoinOne(a, fd, name), a, other) && JoinOne(a, fd, name).clients == a.clients
  {
    hide Canonical, ValidChannelName;
  }

  lemma JoinHere(a: App, fd: Fd, name: string)
    requires WF(a)
    ensures var b, ok := JoinOne(a, fd, name), Admits(a, fd, name);
            && Members(b, name) == (if ok then Members(a, name) + {fd} else Members(a, name))
            && Operators(b, name) == (if ok && Members(a, name) == {} then {fd} else Operators(a, name))
            && (Members(a, name) == {} ==> Operators(a, name) == {})
            && Invitations(b, name) ==
               (if ok then Invitations(a, name) - {Canonical(a.clients[fd].nick)} else Invitations(a, name))
            && InviteOnly(b, name) == InviteOnly(a, name) && TopicOf(b, name) == TopicOf(a, name)
            && TopicGuarded(b, name) == (TopicGuarded(a, name) || (ok && Members(a, name) == {}))
            && b.clients == a.clients
  {
    hide IndexAgrees, ClientsOk, Canonical, ValidChannelName;
    if name in a.channels {
      assert RoomOk(name, a.channels[name], a.clients);
    }
  }

  /** After a JOIN list its issuer is in every channel that let it in at its turn, if it is still there. */
  lemma {:induction false} JoinedStays(a: App, fd: Fd, names: seq<string>, stages: seq<set<Fd>>, k: nat)
    requires WF(a) && fd in a.clients && a.clients[fd].registered && k < |stages| <= |names|
    requires var p := JoinRun(a, fd, names, stages[..k]); Admits(p, fd, names[k]) || fd in Members(p, names[k])
    requires fd in JoinRun(a, fd, names, stages).clients
    ensures fd in Members(JoinRun(a, fd, names, stages), names[k])
    decreases |stages|
  {
    hide WF, JoinOne, Survive, Admits, Members;
    var n := |stages| - 1;
    var front := stages[..n];
    var p := JoinRun(a, fd, names, front);
    JoinRunWF(a, fd, names, front);
    JoinOneWF(p, fd, names[n]);
    var q := JoinOne(p, fd, names[n]);
    JoinLetsIn(p, fd, names[n], names[k]);
    SurvivorsSee(q, stages[n], names[k]);
    assert fd in q.clients && fd in stages[n];
    if k < n {
      assert front[..k] == stages[..k];
      JoinedStays(a, fd, names, front, k);
    }
  }

  // ----- Terms: TOPIC and INVITE -----

  /** TOPIC: a member, an operator where the topic is guarded, sets exactly the text given. */
  lemma TopicIsSet(cfg: Config, a: App, fd: Fd, m: Message, course: Course, other: string)
    requires WF(a) && fd in a.clients && a.clients[fd].registered && Matches(m, course) && m.command == "TOPIC"
    ensures var b := Handled(cfg, a, fd, m, course);
            var set_ := |m.params| >= 2 && other == m.params[0] && fd in Members(a, other) &&
                        (TopicGuarded(a, other) ==> fd in Operators(a, other));
            && Members(b, other) == Members(a, other) * course.alive
            && Operators(b, other) == Operators(a, other) * course.alive
            && (Members(b, other) != {} ==>
                  && TopicOf(b, other) == (if set_ then Some(m.params[1]) else TopicOf(a, other))
                  && Invitations(b, other) == Invitations(a, other) && InviteOnly(b, other) == InviteOnly(a, other)
                  && TopicGuarded(b, other) == TopicGuarded(a, other))
            && RecordsOf(a, b, course.alive)
  {
    hide Survive, IndexAgrees, ClientsOk, ValidChannelName, RoomsOk;
    var c := Retitled(a, fd, m.params);
    RetitledSees(a, fd, m.params, other);
    SurvivorsOf(c, course.alive, other, a);
  }

  /** Restriction needs only operators to be members. */
  lemma SurvivorsOf(c: App, alive: set<Fd>, name: string, a: App)
    requires c.clients == a.clients && Operators(c, name) <= Members(c, name)
    ensures Lost(c, Survive(c, alive), name, alive, {}) && RecordsOf(a, Survive(c, alive), alive)
  {
    if name in c.channels {
      var ch := c.channels[name];
      assert ch.members * alive == {} ==> ch.operators * alive == {};
    }
  }

  lemma RetitledSees(a: App, fd: Fd, params: seq<string>, other: string)
    requires WF(a)
    ensures var c := Retitled(a, fd, params);
            var set_ := |params| >= 2 && other == params[0] && fd in Members(a, other) &&
                        (TopicGuarded(a, other) ==> fd in Operators(a, other));
            && Members(c, other) == Members(a, other) && Operators(c, other) == Operators(a, other)
            && TopicOf(c, other) == (if set_ then Some(params[1]) else TopicOf(a, other))
            && Invitations(c, other) == Invitations(a, other) && InviteOnly(c, other) == InviteOnly(a, other)
            && TopicGuarded(c, other) == TopicGuarded(a, other)
            && c.clients == a.clients && Operators(c, other) <= Members(c, other)
  {
    hide IndexAgrees, ClientsOk, ValidChannelName;
    if other in a.channels {
      assert RoomOk(other, a.channels[other], a.clients);
    }
  }

  /** Whether an INVITE by `fd` is honoured. */
  ghost predicate MayAsk(a: App, fd: Fd, params: seq<string>) {
    && |params| >= 2 && fd in Members(a, params[1])
    && (InviteOnly(a, params[1]) ==> fd in Operators(a, params[1]))
    && (exists t :: t in a.clients && a.clients[t].nick != "" && Canonical(a.clients[t].nick) == Canonical(params[0]))
    && forall t :: t in Members(a, params[1]) && t in a.clients ==> Canonical(a.clients[t].nick) != Canonical(params[0])
  }

  lemma MayAskIsMayInvite(a: App, fd: Fd, params: seq<string>)
    requires WF(a)
    ensures MayAsk(a, fd, params) <==> MayInvite(a, fd, params)
  {
    hide ClientsOk, Canonical, RoomsOk;
    if |params| >= 2 {
      MembersHaveNicks(a, params[1]);
    }
  }

  /** INVITE: the invitation of exactly the nickname given is stored, in exactly that channel. */
  lemma InvitationIsStored(cfg: Config, a: App, fd: Fd, m: Message, course: Course, other: string)
    requires WF(a) && fd in a.clients && a.clients[fd].registered && Matches(m, course) && m.command == "INVITE"
    ensures var b := Handled(cfg, a, fd, m, course);
            var given := if MayAsk(a, fd, m.params) && other == m.params[1] then {Canonical(m.params[0])} else {};
            && Members(b, other) == Members(a, other) * course.alive
            && Operators(b, other) == Operators(a, other) * course.alive
            && (Members(b, other) != {} ==>
                  && Invitations(b, other) == Invitations(a, other) + given
                  && InviteOnly(b, other) == InviteOnly(a, other) && TopicOf(b, other) == TopicOf(a, other)
                  && TopicGuarded(b, other) == TopicGuarded(a, other))
            && RecordsOf(a, b, course.alive)
  {
    hide WF, Survive, MayInvite, Canonical, MayAsk;
    var c := Invited(a, fd, m.params);
    InvitedSees(a, fd, m.params, other);
    SurvivorsOf(c, course.alive, other, a);
  }

  lemma InvitedSees(a: App, fd: Fd, params: seq<string>, other: string)
    requires WF(a)
    ensures var c := Invited(a, fd, params);
            var given := if MayAsk(a, fd, params) && other == params[1] then {Canonical(params[0])} else {};
            && Members(c, other) == Members(a, other) && Operators(c, other) == Operators(a, other)
            && Invitations(c, other) == Invitations(a, other) + given
            && InviteOnly(c, other) == InviteOnly(a, other) && TopicOf(c, other) == TopicOf(a, other)
            && TopicGuarded(c, other) == TopicGuarded(a, other)
            && c.clients == a.clients && Operators(c, other) <= Members(c, other)
  {
    hide IndexAgrees, ClientsOk, ValidChannelName, Canonical, MayAsk, FindNick;
    MayAskIsMayInvite(a, fd, params);
    if other in a.channels {
      assert RoomOk(other, a.channels[other], a.clients);
    }
  }

  // ----- MODE -----

  /** The sign in force at the k-th character of a mode string. */
  function SignAt(modes: string, k: nat): bool
    requires k <= |modes|
  {
    k == 0 || (if modes[k - 1] == '+' then true else if modes[k - 1] == '-' then false else SignAt(modes, k - 1))
  }

  /** How many arguments the characters before the k-th ask for. */
  function ArgsBefore(modes: string, k: nat): nat
    requires k <= |modes|
  {
    if k == 0 then 0 else ArgsBefore(modes, k - 1) + if modes[k - 1] == 'o' then 1 else 0
  }

  /** The sign and the next argument at each character of a run are those of the string. */
  lemma {:induction false} RunFollowsString(a: App, params: seq<string>, stages: seq<set<Fd>>)
    requires |params| >= 2 && |stages| <= |params[1]|
    ensures var s, k := ModeRun(a, params, stages), |stages|;
            && s.adding == SignAt(params[1], k)
            && s.arg == if 2 + ArgsBefore(params[1], k) <= |params| then 2 + ArgsBefore(params[1], k) else |params|
  {
    hide ModeRoom, Survive;
    if stages != [] {
      RunFollowsString(a, params, stages[..|stages| - 1]);
    }
  }

  /** The member of the channel that argument `arg` names, if any. */
  ghost function NamedBy(a: App, params: seq<string>, arg: nat): set<Fd>
    requires params != []
  {
    if arg >= |params| then {}
    else set t | t in Members(a, params[0]) && t in a.clients && Canonical(a.clients[t].nick) == Canonical(params[arg])
  }

  lemma NamedIsTarget(a: App, params: seq<string>, arg: nat)
    requires WF(a) && params != []
    ensures NamedBy(a, params, arg) == match ModeTarget(a, params, arg) case Some(t) => {t} case None => {}
  {
    hide ClientsOk, Canonical, RoomsOk;
    MembersHaveNicks(a, params[0]);
  }

  /** One mode character: the flag takes the sign; the member named by an `o` becomes operator under a plus and
      ceases to be one under a minus; nobody else's status and nothing else changes but by departures. */
  lemma ModeCharacterActs(s: Modes, params: seq<string>, mode: char, alive: set<Fd>, other: string)
    requires WF(s.app) && params != []
    ensures var a, b := s.app, ModeStep(s, params, mode, alive).app;
            var here := other == params[0];
            var named := if here && mode == 'o' then NamedBy(a, params, s.arg) else {};
            && Members(b, other) == Members(a, other) * alive
            && Operators(b, other) ==
               (if s.adding then Operators(a, other) + named else Operators(a, other) - named) * alive
            && (Members(b, other) != {} ==>
                  && InviteOnly(b, other) == (if here && mode == 'i' then s.adding else InviteOnly(a, other))
                  && TopicGuarded(b, other) == (if here && mode == 't' then s.adding else TopicGuarded(a, other))
                  && Invitations(b, other) == Invitations(a, other) && TopicOf(b, other) == TopicOf(a, other))
            && RecordsOf(a, b, alive)
  {
    hide WF, Survive, ModeRoom, NamedBy;
    var c := ModeRoom(s, params, mode);
    ModeRoomSees(s, params, mode, other);
    SurvivorsOf(c, alive, other, s.app);
  }

  lemma ModeRoomSees(s: Modes, params: seq<string>, mode: char, other: string)
    requires WF(s.app) && params != []
    ensures var a, c := s.app, ModeRoom(s, params, mode);
            var here := other == params[0];
            var named := if here && mode == 'o' then NamedBy(a, params, s.arg) else {};
            && Members(c, other) == Members(a, other) && Operators(c, other) <= Members(c, other)
            && Operators(c, other) == (if s.adding then Operators(a, other) + named else Operators(a, other) - named)
            && (Members(c, other) != {} ==>
                  && InviteOnly(c, other) == (if here && mode == 'i' then s.adding else InviteOnly(a, other))
                  && TopicGuarded(c, other) == (if here && mode == 't' then s.adding else TopicGuarded(a, other))
                  && Invitations(c, other) == Invitations(a, other) && TopicOf(c, other) == TopicOf(a, other))
            && c.clients == a.clients
  {
    hide WF, Members, Operators, Invitations, InviteOnly, TopicGuarded, TopicOf, ModeTarget, NamedBy, ModeRoom;
    OperatorsAreMembers(s.app, other);
    NamedAreMembers(s.app, params, s.arg);
    if other != params[0] || other !in s.app.channels {
      ModeElsewhere(s, params, mode, other);
    } else if mode == 'o' {
      NamedIsTarget(s.app, params, s.arg);
      TargetIsMember(s.app, params, s.arg);
      ModeOfOperator(s, params);
    } else {
      ModeOfFlags(s, params, mode);
    }
  }

  /** Another channel, or none: nothing there changes. */
  lemma ModeElsewhere(s: Modes, params: seq<string>, mode: char, other: string)
    requires params != [] && (other != params[0] || other !in s.app.channels)
    ensures var a, c := s.app, ModeRoom(s, params, mode);
            && Members(c, other) == Members(a, other) && Operators(c, other) == Operators(a, other)
            && SameTerms(a, c, other) && c.clients == a.clients
            && (other !in a.channels ==> Members(c, other) == {} == Operators(a, other))
  {
    hide ModeTarget;
  }

  lemma ModeOfFlags(s: Modes, params: seq<string>, mode: char)
    requires params != [] && params[0] in s.app.channels && mode != 'o'
    ensures var a, c, name := s.app, ModeRoom(s, params, mode), params[0];
            && Members(c, name) == Members(a, name) && Operators(c, name) == Operators(a, name)
            && InviteOnly(c, name) == (if mode == 'i' then s.adding else InviteOnly(a, name))
            && TopicGuarded(c, name) == (if mode == 't' then s.adding else TopicGuarded(a, name))
            && Invitations(c, name) == Invitations(a, name) && TopicOf(c, name) == TopicOf(a, name)
            && c.clients == a.clients
  {}

  lemma ModeOfOperator(s: Modes, params: seq<string>)
    requires params != [] && params[0] in s.app.channels
    ensures var a, c, name := s.app, ModeRoom(s, params, 'o'), params[0];
            var named := match ModeTarget(a, params, s.arg) case Some(t) => {t} case None => {};
            && Members(c, name) == Members(a, name) && SameTerms(a, c, name) && c.clients == a.clients
            && Operators(c, name) == (if s.adding then Operators(a, name) + named else Operators(a, name) - named)
            && named <= Members(a, name)
  {
    hide FindNick;
  }

  lemma TargetIsMember(a: App, params: seq<string>, arg: nat)
    requires params != []
    ensures var t := ModeTarget(a, params, arg);
            t.Some? ==> params[0] in a.channels && t.value in a.channels[params[0]].members
  {}

  /** The last place of a character before the n-th. */
  function LastOf(modes: string, c: char, n: nat): Option<nat>
    requires n <= |modes|
  {
    if n == 0 then None else if modes[n - 1] == c then Some(n - 1) else LastOf(modes, c, n - 1)
  }

  function SignOfLast(modes: string, c: char, n: nat, before: bool): bool
    requires n <= |modes|
  {
    match LastOf(modes, c, n) case Some(k) => k <= |modes| && SignAt(modes, k) case None => before
  }

  /** After a mode string each flag has the sign of its last mention, if the channel is still there. */
  lemma {:induction false} FlagsAfterRun(a: App, params: seq<string>, stages: seq<set<Fd>>)
    requires WF(a) && |params| >= 2 && |stages| <= |params[1]|
    ensures var b, name := ModeRun(a, params, stages).app, params[0];
            Members(b, name) != {} ==>
              && InviteOnly(b, name) == SignOfLast(params[1], 'i', |stages|, InviteOnly(a, name))
              && TopicGuarded(b, name) == SignOfLast(params[1], 't', |stages|, TopicGuarded(a, name))
  {
    hide WF, ModeStep, Members, InviteOnly, TopicGuarded;
    if stages != [] {
      var k := |stages| - 1;
      var s := ModeRun(a, params, stages[..k]);
      FlagsAfterRun(a, params, stages[..k]);
      ModeRunWF(a, params, stages[..k]);
      RunFollowsString(a, params, stages[..k]);
      ModeCharacterActs(s, params, params[1][k], stages[k], params[0]);
    }
  }

  /** The k-th character of the string names `t`. */
  ghost predicate NamesAt(a: App, params: seq<string>, stages: seq<set<Fd>>, t: Fd, k: nat)
    requires |params| >= 2 && k < |stages| <= |params[1]|
  {
    var s := ModeRun(a, params, stages[..k]);
    params[1][k] == 'o' && t in NamedBy(s.app, params, s.arg)
  }

  /** After a mode string a member is operator by the sign of the last character that named it, and as before
      if none did. */
  lemma {:induction false} StatusAfterRun(a: App, params: seq<string>, stages: seq<set<Fd>>, t: Fd, last: Option<nat>)
    requires WF(a) && |params| >= 2 && |stages| <= |params[1]|
    requires last.Some? ==> last.value < |stages| && NamesAt(a, params, stages, t, last.value)
    requires forall j :: 0 <= j < |stages| && (last.None? || last.value < j) ==> !NamesAt(a, params, stages, t, j)
    ensures var b, name := ModeRun(a, params, stages).app, params[0];
            t in Operators(b, name) <==>
              t in Members(b, name) && (if last.Some? then SignAt(params[1], last.value) else t in Operators(a, name))
    decreases |stages|
  {
    hide WF, ModeStep, NamedBy, Members, Operators;
    if stages == [] {
      OperatorsAreMembers(a, params[0]);
    } else {
      var k := |stages| - 1;
      var front := stages[..k];
      var s := ModeRun(a, params, front);
      forall j | 0 <= j < k
        ensures NamesAt(a, params, front, t, j) == NamesAt(a, params, stages, t, j)
      {
        assert front[..j] == stages[..j];
      }
      ModeRunWF(a, params, front);
      RunFollowsString(a, params, front);
      OperatorsAreMembers(s.app, params[0]);
      ModeCharacterActs(s, params, params[1][k], stages[k], params[0]);
      if last == Some(k) {
        NamedAreMembers(s.app, params, s.arg);
      } else {
        assert !NamesAt(a, params, stages, t, k);
        StatusAfterRun(a, params, front, t, last);
      }
    }
  }

  lemma NamedAreMembers(a: App, params: seq<string>, arg: nat)
    requires params != []
    ensures NamedBy(a, params, arg) <= Members(a, params[0])
  {}

  lemma OperatorsAreMembers(a: App, name: string)
    requires WF(a)
    ensures Operators(a, name) <= Members(a, name)
  {
    hide IndexAgrees, ClientsOk;
    if name in a.channels {
      assert RoomOk(name, a.channels[name], a.clients);
    }
  }

  /** MODE on a channel runs its string exactly for an operator, and otherwise changes nothing. */
  lemma ModeNeedsOperator(cfg: Config, a: App, fd: Fd, m: Message, course: Course)
    requires WF(a) && fd in a.clients && a.clients[fd].registered && Matches(m, course) && m.command == "MODE"
    ensures var b, acts := Handled(cfg, a, fd, m, course), |m.params| >= 2 && fd in Operators(a, m.params[0]);
            b == if acts then ModeRun(a, m.params, course.stages).app else Survive(a, course.alive)
  {
    hide Survive, ModeRun, IndexAgrees, ClientsOk, VerbOf;
    WordsOfVerbs(m.command);
    if m.params != [] && m.params[0] in a.channels {
      assert RoomOk(m.params[0], a.channels[m.params[0]], a.clients);
    }
  }

  // ----- Records -----

  /** Only the record of `fd` is new; channels are only restricted. */
  ghost predicate OwnRecord(a: App, b: App, fd: Fd, d: Client, alive: set<Fd>) {
    && b.channels == Survive(a, alive).channels
    && forall f :: (f in b.clients <==> f in a.clients && f in alive) &&
                   (f in b.clients ==> b.clients[f] == if f == fd then d else a.clients[f])
  }

  /** PASS: an unregistered client whose password gate is closed opens it exactly with the password, or with
      any where there is none; with the other two gates open this registers it. */
  lemma PassOpensGate(cfg: Config, a: App, fd: Fd, m: Message, course: Course)
    requires WF(a) && fd in a.clients && Matches(m, course) && m.command == "PASS"
    ensures var c := a.clients[fd];
            var right := !c.passOk && m.params != [] && (cfg.password == "" || m.params[0] == cfg.password);
            var d := if right then c.(passOk := true, registered := c.hasNick && c.hasUser) else c;
            OwnRecord(a, Handled(cfg, a, fd, m, course), fd, d, course.alive)
  {
    hide IndexAgrees, RoomsOk, SurvivingRooms;
    assert ClientOk(a.clients[fd]);
  }

  /** USER: an unregistered client with four parameters opens its gate with the first and the fourth. */
  lemma UserOpensGate(cfg: Config, a: App, fd: Fd, m: Message, course: Course)
    requires WF(a) && fd in a.clients && Matches(m, course) && m.command == "USER"
    ensures var c := a.clients[fd];
            var d := if c.registered || |m.params| < 4 then c
                     else c.(user := m.params[0], realname := m.params[3], hasUser := true,
                             registered := c.passOk && c.hasNick);
            OwnRecord(a, Handled(cfg, a, fd, m, course), fd, d, course.alive)
  {
    hide IndexAgrees, RoomsOk, SurvivingRooms;
    assert ClientOk(a.clients[fd]);
  }

  /** Nobody else has this nickname, however it is cased. */
  ghost predicate Free(a: App, fd: Fd, nick: string) {
    forall f :: f in a.clients && f != fd && a.clients[f].nick != "" ==> Canonical(a.clients[f].nick) != Canonical(nick)
  }

  lemma FreeIsMayTake(a: App, fd: Fd, params: seq<string>)
    requires WF(a) && fd in a.clients
    ensures MayTake(a, fd, params) <==> params != [] && ValidNickname(params[0]) && Free(a, fd, params[0])
  {
    hide ClientsOk, RoomsOk, Canonical, ValidNickname;
  }

  /** NICK: a valid nickname nobody else has is taken exactly as given, and then leads to its owner. */
  lemma NickIsTaken(cfg: Config, a: App, fd: Fd, m: Message, course: Course)
    requires WF(a) && fd in a.clients && Matches(m, course) && m.command == "NICK" && Decent(m.params)
    ensures var c, b := a.clients[fd], Handled(cfg, a, fd, m, course);
            var taken := m.params != [] && ValidNickname(m.params[0]) && Free(a, fd, m.params[0]);
            var d := if taken then c.(nick := m.params[0], hasNick := true, registered := c.passOk && c.hasUser) else c;
            && OwnRecord(a, b, fd, d, course.alive)
            && (taken && fd in course.alive ==> FindNick(b, m.params[0]) == Some(fd))
  {
    hide IndexAgrees, RoomsOk, SurvivingRooms, MayTake, Free, ValidNickname, Canonical;
    FreeIsMayTake(a, fd, m.params);
    TakingNeedsValid(a, fd, m.params);
    assert ClientOk(a.clients[fd]);
  }

  lemma TakingNeedsValid(a: App, fd: Fd, params: seq<string>)
    ensures MayTake(a, fd, params) ==> params != []
  {}

  /** PONG: the wait of its sender ends exactly on the pending token as the only parameter. */
  lemma PongEndsWait(cfg: Config, a: App, fd: Fd, m: Message, course: Course)
    requires fd in a.clients && Matches(m, course) && m.command == "PONG"
    ensures var c := a.clients[fd];
            var d := if c.awaitingPong && m.params == [c.pendingPongToken]
                     then c.(awaitingPong := false, pendingPongToken := "", lastPingAt := 0) else c;
            OwnRecord(a, Handled(cfg, a, fd, m, course), fd, d, course.alive)
  {
    hide SurvivingRooms, VerbOf;
    WordsOfVerbs(m.command);
    var c := a.clients[fd];
    assert m.params == [c.pendingPongToken] <==> |m.params| == 1 && m.params[0] == c.pendingPongToken;
  }

  predicate OpenToAll(command: string) {
    || command == "PASS" || command == "NICK" || command == "USER" || command == "PING" || command == "PONG"
    || command == "QUIT"
  }

  predicate ChangesChannels(command: string) {
    || command == "JOIN" || command == "PART" || command == "TOPIC" || command == "KICK" || command == "INVITE"
    || command == "MODE"
  }

  /** Every other command, and any but those of registration from an unregistered client, changes nothing. */
  lemma OtherCommandsChangeNothing(cfg: Config, a: App, fd: Fd, m: Message, course: Course)
    requires fd in a.clients && Matches(m, course)
    requires m.command == "PING" || m.command == "QUIT" ||
             (!OpenToAll(m.command) && (!a.clients[fd].registered || !ChangesChannels(m.command)))
    ensures Handled(cfg, a, fd, m, course) == Survive(a, course.alive)
  {
    hide Survive, VerbOf, Passed, Described, Renamed, Ponged;
    WordsOfVerbs(m.command);
  }

  /** Every command word is told from the others. */
  lemma WordsOfVerbs(command: string)
    ensures var v := VerbOf(command);
            && (v.Pass? <==> command == "PASS") && (v.Nick? <==> command == "NICK") && (v.User? <==> command == "USER")
            && (v.Ping? <==> command == "PING") && (v.Pong? <==> command == "PONG")
            && (v.QuitVerb? <==> command == "QUIT") && (v.Join? <==> command == "JOIN")
            && (v.Part? <==> command == "PART") && (v.Topic? <==> command == "TOPIC")
            && (v.Kick? <==> command == "KICK") && (v.Invite? <==> command == "INVITE")
            && (v.Mode? <==> command == "MODE")
  {}

  /** A new client has given nothing yet, and needs no password exactly if there is none. */
  lemma ConnectingStartsAnew(cfg: Config, a: App, fd: Fd, host: string, now: int)
    ensures var b := Connected(cfg, a, fd, host, now);
            && b.channels == a.channels && b.nicks == a.nicks && b.clients.Keys == a.clients.Keys + {fd}
            && (forall f :: f in a.clients && f != fd ==> b.clients[f] == a.clients[f])
            && var c := b.clients[fd];
               && (c.passOk <==> cfg.password == "") && !c.hasNick && !c.hasUser && !c.registered && !c.awaitingPong
               && c.host == host && c.connectedAt == c.lastActivityAt == now && c.window == [] && c.nick == ""
  {}

  // ----- Names that can be addressed -----

  /** A valid channel name is one piece of a list, needs no marker and is a channel target; a valid nickname is
      one piece too, needs no marker and is none. So either can be named in any command. */
  lemma NamesAreAddressable(name: string)
    ensures ValidChannelName(name) ==> Pieces(name) == [name] && !NeedsMarker(name) && IsChannelTarget(name)
    ensures ValidNickname(name) ==> Pieces(name) == [name] && !NeedsMarker(name) && !IsChannelTarget(name)
  {
    if ValidChannelName(name) || ValidNickname(name) {
      assert ',' !in name && ' ' !in name;
      SplitUndoesJoin([name]);
      assert JoinTexts([name]) == name && NonEmpty([name]) == [name];
    }
  }
}
