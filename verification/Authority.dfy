/** Who may run a channel, over whole runs (sections 1.3.1, 4.2.3 and 4.2.7 of RFC 1459). */
module Authority {
  import opened Text
  import opened Messages
  import opened State
  import opened Commands
  import opened CommandLaws
  import opened Runs

  /** Nobody gained a membership, an operator status or an invitation. */
  ghost predicate NothingGained(a: App, b: App) {
    forall name ::
      && Operators(b, name) <= Operators(a, name) && Members(b, name) <= Members(a, name)
      && Invitations(b, name) <= Invitations(a, name)
  }

  lemma SurvivorsGainNothing(a: App, alive: set<Fd>)
    ensures NothingGained(a, Survive(a, alive))
  {}

  lemma GainThen(a: App, b: App, c: App)
    requires NothingGained(a, b) && NothingGained(b, c)
    ensures NothingGained(a, c)
  {
    hide Operators, Members, Invitations;
  }

  lemma SameRoomsGainNothing(a: App, b: App)
    requires b.channels == a.channels
    ensures NothingGained(a, b)
  {}

  // ----- JOIN -----

  /** The state in which the k-th name of a JOIN list is looked at. */
  ghost function AtName(a: App, fd: Fd, names: seq<string>, stages: seq<set<Fd>>, k: nat): App
    requires k <= |stages| <= |names|
  {
    JoinRun(a, fd, names, stages[..k])
  }

  /** What one name of a JOIN list can give: to its issuer only; the operator status only with a channel it
      creates; a +i channel only on an invitation, which is used up. */
  lemma JoinOneGains(a: App, fd: Fd, name: string, other: string, f: Fd)
    ensures var b := JoinOne(a, fd, name);
            && Invitations(b, other) <= Invitations(a, other)
            && (f in Operators(b, other) && f !in Operators(a, other) ==>
                f == fd && other == name && name !in a.channels)
            && (f in Members(b, other) && f !in Members(a, other) ==>
                  && f == fd && other == name && fd in a.clients
                  && (InviteOnly(a, name) ==> Canonical(a.clients[fd].nick) in Invitations(a, name))
                  && Canonical(a.clients[fd].nick) !in Invitations(b, name))
  {
    hide ValidChannelName, Canonical;
  }

  lemma JoinOneKeeps(a: App, fd: Fd, name: string)
    ensures JoinOne(a, fd, name).clients == a.clients
  {}

  /** The name of a JOIN list at which `f` got into `other`, and what allowed it. */
  ghost predicate EnteredAt(a: App, fd: Fd, names: seq<string>, stages: seq<set<Fd>>, other: string, k: nat)
    requires |stages| <= |names|
  {
    && k < |stages| && names[k] == other
    && var p := AtName(a, fd, names, stages, k);
       && fd in p.clients && fd !in Members(p, other)
       && (InviteOnly(p, other) ==> Canonical(p.clients[fd].nick) in Invitations(p, other))
  }

  lemma {:induction false} JoinRunGains(a: App, fd: Fd, names: seq<string>, stages: seq<set<Fd>>, other: string, f: Fd)
    requires |stages| <= |names|
    ensures var b := JoinRun(a, fd, names, stages);
            && Invitations(b, other) <= Invitations(a, other)
            && (f in Operators(b, other) && f !in Operators(a, other) ==>
                  f == fd && exists k :: 0 <= k < |stages| && names[k] == other &&
                                         other !in AtName(a, fd, names, stages, k).channels)
            && (f in Members(b, other) && f !in Members(a, other) ==>
                  f == fd && fd in a.clients && Canonical(a.clients[fd].nick) !in Invitations(b, other) &&
                  exists k: nat :: EnteredAt(a, fd, names, stages, other, k))
            && (fd in b.clients ==> fd in a.clients && b.clients[fd] == a.clients[fd])
  {
    hide JoinOne, Survive, Operators, Members, Invitations, InviteOnly, Canonical;
    if stages != [] {
      var n := |stages| - 1;
      var front := stages[..n];
      JoinRunGains(a, fd, names, front, other, f);
      forall k | 0 <= k <= n
        ensures AtName(a, fd, names, front, k) == AtName(a, fd, names, stages, k)
      {
        assert front[..k] == stages[..k];
      }
      var p := JoinRun(a, fd, names, front);
      assert p == AtName(a, fd, names, stages, n);
      var q := JoinOne(p, fd, names[n]);
      JoinOneGains(p, fd, names[n], other, f);
      JoinOneKeeps(p, fd, names[n]);
      SurviveRecord(q, stages[n], fd);
      SurvivorsGainNothing(q, stages[n]);
      var b := JoinRun(a, fd, names, stages);
      if f in Operators(b, other) && f !in Operators(a, other) {
        if f in Operators(p, other) {
          var k :| 0 <= k < |front| && names[k] == other && other !in AtName(a, fd, names, front, k).channels;
          assert other !in AtName(a, fd, names, stages, k).channels;
        } else {
          assert names[n] == other && other !in AtName(a, fd, names, stages, n).channels;
        }
      }
      if f in Members(b, other) && f !in Members(a, other) {
        if f in Members(p, other) {
          var k: nat :| EnteredAt(a, fd, names, front, other, k);
          assert EnteredAt(a, fd, names, stages, other, k);
        } else {
          assert EnteredAt(a, fd, names, stages, other, n);
        }
      }
    }
  }

  // ----- The other channel commands -----

  lemma LeaversGainNothing(a: App, fd: Fd, names: set<string>, alive: set<Fd>)
    ensures NothingGained(a, Left(a, fd, names, alive))
  {}

  lemma RemovalGainsNothing(a: App, name: string, fd: Fd)
    ensures NothingGained(a, Removed(a, name, fd))
  {}

  lemma RetitlingGainsNothing(a: App, fd: Fd, params: seq<string>)
    ensures NothingGained(a, Retitled(a, fd, params))
  {}

  lemma ModeRoomGains(s: Modes, params: seq<string>, mode: char, other: string, f: Fd)
    requires params != []
    ensures var b := ModeRoom(s, params, mode);
            && Members(b, other) <= Members(s.app, other) && Invitations(b, other) <= Invitations(s.app, other)
            && (f in Operators(b, other) && f !in Operators(s.app, other) ==>
                  && other == params[0] && f in Members(s.app, other)
                  && mode == 'o' && s.adding && ModeTarget(s.app, params, s.arg) == Some(f))
  {
    hide FindNick;
  }

  /** The k-th character of a mode string is an `o` under a plus sign whose argument names `f`, a member, in
      the state the characters before it left. */
  ghost predicate GivenAt(a: App, params: seq<string>, stages: seq<set<Fd>>, f: Fd, k: nat)
    requires |params| >= 2 && |stages| <= |params[1]|
  {
    && k < |stages| && params[1][k] == 'o'
    && var s := ModeRun(a, params, stages[..k]);
       s.adding && ModeTarget(s.app, params, s.arg) == Some(f)
  }

  lemma {:induction false} ModeRunGains(a: App, params: seq<string>, stages: seq<set<Fd>>, other: string, f: Fd)
    requires |params| >= 2 && |stages| <= |params[1]|
    ensures var b := ModeRun(a, params, stages).app;
            && Members(b, other) <= Members(a, other) && Invitations(b, other) <= Invitations(a, other)
            && (f in Operators(b, other) && f !in Operators(a, other) ==>
                  && other == params[0] && f in Members(a, other)
                  && exists k: nat :: GivenAt(a, params, stages, f, k))
  {
    hide ModeRoom, ModeTarget, Survive, Operators, Members, Invitations;
    if stages != [] {
      var n := |stages| - 1;
      var front := stages[..n];
      ModeRunGains(a, params, front, other, f);
      var s := ModeRun(a, params, front);
      ModeRoomGains(s, params, params[1][n], other, f);
      SurvivorsGainNothing(ModeRoom(s, params, params[1][n]), stages[n]);
      if f in Operators(ModeRun(a, params, stages).app, other) && f !in Operators(a, other) {
        if f in Operators(s.app, other) {
          var k: nat :| GivenAt(a, params, front, f, k);
          assert front[..k] == stages[..k];
          assert GivenAt(a, params, stages, f, k);
        } else {
          assert GivenAt(a, params, stages, f, n);
        }
      }
    }
  }

  // ----- One step of a run -----

  /** A registered client's line with this command, within the rate limit, so that its handler is entered. */
  ghost predicate Issues(cfg: Config, a: App, step: Step, verb: Verb) {
    && step.Line? && Enabled(a, step) && Parse(step.line).Parsed?
    && VerbOf(Parse(step.line).message.command) == verb
    && Served(cfg, a, step)
  }

  ghost predicate Served(cfg: Config, a: App, step: Step)
    requires step.Line? && step.fd in a.clients
  {
    a.clients[step.fd].registered && WithinRate(cfg, Begun(cfg, a, step).clients[step.fd])
  }

  ghost function Params(step: Step): seq<string>
    requires step.Line? && Parse(step.line).Parsed?
  {
    Parse(step.line).message.params
  }

  /** `fd` creates the channel: a JOIN of its own finds no such channel. */
  ghost predicate Founds(cfg: Config, a: App, step: Step, name: string, fd: Fd) {
    && Issues(cfg, a, step, Join) && step.fd == fd && Params(step) != []
    && |step.course.stages| <= |Pieces(Params(step)[0])|
    && exists k :: 0 <= k < |step.course.stages| && Pieces(Params(step)[0])[k] == name &&
                   name !in AtName(Begun(cfg, a, step), fd, Pieces(Params(step)[0]), step.course.stages, k).channels
  }

  /** A MODE on the channel by a client that is its operator when the command begins, with a `+o` that names
      the member `fd`. */
  ghost predicate Grants(cfg: Config, a: App, step: Step, name: string, fd: Fd) {
    && Issues(cfg, a, step, Mode) && |Params(step)| >= 2 && Params(step)[0] == name
    && step.fd in Operators(a, name) && fd in Members(a, name)
    && |step.course.stages| <= |Params(step)[1]|
    && exists k: nat :: GivenAt(Begun(cfg, a, step), Params(step), step.course.stages, fd, k)
  }

  /** A JOIN by `fd` that a +i channel admits only on an invitation, and that leaves none behind. */
  ghost predicate Enters(cfg: Config, a: App, step: Step, name: string, fd: Fd) {
    && Issues(cfg, a, step, Join) && step.fd == fd && Params(step) != []
    && |step.course.stages| <= |Pieces(Params(step)[0])|
    && (exists k: nat :: EnteredAt(Begun(cfg, a, step), fd, Pieces(Params(step)[0]), step.course.stages, name, k))
    && Canonical(a.clients[fd].nick) !in Invitations(Apply(cfg, a, step), name)
  }

  /** An INVITE by a member, who is an operator if the channel is +i. */
  ghost predicate Invites(cfg: Config, a: App, step: Step, name: string, folded: string) {
    && Issues(cfg, a, step, Invite) && |Params(step)| >= 2 && Params(step)[1] == name
    && Canonical(Params(step)[0]) == folded
    && step.fd in Members(a, name) && (InviteOnly(a, name) ==> step.fd in Operators(a, name))
  }

  /** What a registered client's command may give. */
  ghost predicate Gains(a: App, fd: Fd, m: Message, course: Course, b: App, name: string, f: Fd, folded: string)
    requires Matches(m, course)
  {
    && (f in Operators(b, name) && f !in Operators(a, name) ==>
          || (VerbOf(m.command).Join? && f == fd && m.params != [] &&
              exists k :: 0 <= k < |course.stages| && Pieces(m.params[0])[k] == name &&
                          name !in AtName(a, fd, Pieces(m.params[0]), course.stages, k).channels)
          || (VerbOf(m.command).Mode? && |m.params| >= 2 && m.params[0] == name &&
              fd in Operators(a, name) && f in Members(a, name) &&
              exists k: nat :: GivenAt(a, m.params, course.stages, f, k)))
    && (f in Members(b, name) && f !in Members(a, name) ==>
          VerbOf(m.command).Join? && f == fd && m.params != [] && fd in a.clients &&
          Canonical(a.clients[fd].nick) !in Invitations(b, name) &&
          exists k: nat :: EnteredAt(a, fd, Pieces(m.params[0]), course.stages, name, k))
    && (folded in Invitations(b, name) && folded !in Invitations(a, name) ==>
          VerbOf(m.command).Invite? && |m.params| >= 2 && m.params[1] == name && Canonical(m.params[0]) == folded &&
          fd in Members(a, name) && (InviteOnly(a, name) ==> fd in Operators(a, name)))
  }

  lemma InvitedGains(a: App, fd: Fd, params: seq<string>, name: string, folded: string)
    ensures var b := Invited(a, fd, params);
            && Operators(b, name) == Operators(a, name) && Members(b, name) == Members(a, name)
            && (folded in Invitations(b, name) && folded !in Invitations(a, name) ==>
                  && |params| >= 2 && params[1] == name && Canonical(params[0]) == folded
                  && fd in Members(a, name) && (InviteOnly(a, name) ==> fd in Operators(a, name)))
  {
    hide Canonical;
  }

  lemma HandledGains(a: App, fd: Fd, m: Message, course: Course, name: string, f: Fd, folded: string)
    requires Matches(m, course)
    ensures Gains(a, fd, m, course, RegisteredHandled(a, fd, m, course), name, f, folded)
  {
    hide Survive, Left, JoinRun, ModeRun, Removed, Invited, Retitled, KickTarget, VerbOf, Pieces, RoomsOf, Operators,
         Members, Invitations, InviteOnly, Canonical, EnteredAt, AtName, GivenAt;
    var alive, params := course.alive, m.params;
    SurvivorsGainNothing(a, alive);
    match VerbOf(m.command) {
      case Join =>
        if params != [] {
          LeaversGainNothing(a, fd, RoomsOf(a.channels, fd), alive);
          JoinRunGains(a, fd, Pieces(params[0]), course.stages, name, f);
        }
      case Part =>
        if params != [] {
          LeaversGainNothing(a, fd, SetOf(Pieces(params[0])), alive);
        }
      case Topic =>
        RetitlingGainsNothing(a, fd, params);
        SurvivorsGainNothing(Retitled(a, fd, params), alive);
      case Kick =>
        if KickTarget(a, fd, params).Some? {
          KickNamesRoom(a, fd, params);
          RemovalGainsNothing(Survive(a, alive), params[0], KickTarget(a, fd, params).value);
        }
      case Invite =>
        InvitedGains(a, fd, params, name, folded);
        SurvivorsGainNothing(Invited(a, fd, params), alive);
      case Mode =>
        ModesNeedOperator(a, fd, params);
        if |params| >= 2 {
          ModeRunGains(a, params, course.stages, name, f);
        }
      case _ =>
    }
  }

  lemma ModesNeedOperator(a: App, fd: Fd, params: seq<string>)
    ensures MayChangeModes(a, fd, params) ==> |params| >= 2 && fd in Operators(a, params[0])
  {}

  lemma {:induction false} TicksGainNothing(cfg: Config, a: App, now: int, order: seq<Fd>, stages: seq<set<Fd>>)
    requires |stages| <= |order|
    ensures NothingGained(a, TickRun(cfg, a, now, order, stages))
  {
    hide NothingGained, Survive, Maintained;
    if stages == [] {
      SameRoomsGainNothing(a, a);
    } else {
      var n := |stages| - 1;
      TicksGainNothing(cfg, a, now, order, stages[..n]);
      var b := TickRun(cfg, a, now, order, stages[..n]);
      var c := Maintained(cfg, b, order[n], now);
      MaintainedKeepsRooms(cfg, b, order[n], now);
      SameRoomsGainNothing(b, c);
      SurvivorsGainNothing(c, stages[n]);
      GainThen(a, b, c);
      GainThen(a, c, Survive(c, stages[n]));
    }
  }

  lemma MaintainedKeepsRooms(cfg: Config, a: App, fd: Fd, now: int)
    ensures Maintained(cfg, a, fd, now).channels == a.channels
  {}

  lemma SurviveSameRooms(a: App, b: App, alive: set<Fd>)
    requires b.channels == a.channels
    ensures NothingGained(a, Survive(b, alive))
  {
    hide NothingGained, Survive;
    SameRoomsGainNothing(a, b);
    SurvivorsGainNothing(b, alive);
    GainThen(a, b, Survive(b, alive));
  }

  /** Every command but those of registered clients leaves the channels to their survivors. */
  lemma EarlyCommandsGainNothing(cfg: Config, a: App, fd: Fd, m: Message, course: Course)
    requires fd in a.clients && Matches(m, course)
    ensures (a.clients[fd].registered && Handled(cfg, a, fd, m, course) == RegisteredHandled(a, fd, m, course)) ||
            NothingGained(a, Handled(cfg, a, fd, m, course))
  {
    hide NothingGained, Survive, RegisteredHandled, VerbOf, Matches, Registered, MayTake, Canonical;
    SurviveSameRooms(a, a, course.alive);
    SurviveSameRooms(a, Passed(cfg, a, fd, m.params), course.alive);
    SurviveSameRooms(a, Renamed(a, fd, m.params), course.alive);
    SurviveSameRooms(a, Described(a, fd, m.params), course.alive);
    SurviveSameRooms(a, Ponged(a, fd, m.params), course.alive);
  }

  lemma LineGains(cfg: Config, a: App, step: Step, name: string, f: Fd, folded: string)
    requires step.Line? && Enabled(a, step)
    ensures NothingGained(a, Apply(cfg, a, step)) ||
            (Parse(step.line).Parsed? && Served(cfg, a, step) &&
             Gains(Begun(cfg, a, step), step.fd, Parse(step.line).message, step.course, Apply(cfg, a, step), name, f,
                   folded))
  {
    hide NothingGained, Gains, Survive, Handled, RegisteredHandled, Matches, Parse, PopOld;
    var touched := Touched(a, step.fd, step.now);
    SurviveSameRooms(a, touched, step.course.alive);
    if Parse(step.line).Parsed? {
      var m, b := Parse(step.line).message, Begun(cfg, a, step);
      SurviveSameRooms(a, b, step.course.alive);
      EarlyCommandsGainNothing(cfg, b, step.fd, m, step.course);
      HandledGains(b, step.fd, m, step.course, name, f, folded);
      SameRoomsGainNothing(a, b);
      if NothingGained(b, Handled(cfg, b, step.fd, m, step.course)) {
        GainThen(a, b, Handled(cfg, b, step.fd, m, step.course));
      }
    }
  }

  lemma BegunKeepsRooms(cfg: Config, a: App, step: Step, name: string)
    requires step.Line? && step.fd in a.clients
    ensures var b := Begun(cfg, a, step);
            && Operators(b, name) == Operators(a, name) && Members(b, name) == Members(a, name)
            && Invitations(b, name) == Invitations(a, name) && InviteOnly(b, name) == InviteOnly(a, name)
            && b.clients[step.fd].nick == a.clients[step.fd].nick
  {
    hide PopOld;
  }

  /** One step: an operator status comes from founding or from a `+o` in an operator's MODE; a membership from a JOIN
      that a +i channel admits on an invitation; an invitation from an INVITE by someone entitled to it. */
  lemma StepGains(cfg: Config, a: App, step: Step, name: string, f: Fd, folded: string)
    requires Enabled(a, step)
    ensures var b := Apply(cfg, a, step);
            && (f in Operators(b, name) && f !in Operators(a, name) ==>
                Founds(cfg, a, step, name, f) || Grants(cfg, a, step, name, f))
            && (f in Members(b, name) && f !in Members(a, name) ==> Enters(cfg, a, step, name, f))
            && (folded in Invitations(b, name) && folded !in Invitations(a, name) ==>
                Invites(cfg, a, step, name, folded))
  {
    hide Operators, Members, Invitations, InviteOnly, Canonical, EnteredAt, AtName, GivenAt, Pieces, VerbOf, Parse,
         LineHandled, TickRun, Survive, Connected, Begun, Served;
    match step {
      case Connect(fd, host, now) =>
        ConnectedAddsOne(cfg, a, fd, host, now);
        SameRoomsGainNothing(a, Connected(cfg, a, fd, host, now));
      case Line(fd, line, now, course) =>
        LineGains(cfg, a, step, name, f, folded);
        BegunKeepsRooms(cfg, a, step, name);
      case Tick(now, order, stages) =>
        TicksGainNothing(cfg, a, now, order, stages);
      case Lose(alive) =>
        SurvivorsGainNothing(a, alive);
    }
  }

  // ----- Whole runs -----

  /** The step by which an operator got the status it has kept ever since. */
  ghost predicate OriginAt(cfg: Config, steps: seq<Step>, name: string, fd: Fd, k: nat)
    requires Legal(cfg, steps)
  {
    && k < |steps|
    && fd !in Operators(Before(cfg, steps, k), name)
    && (Founds(cfg, Before(cfg, steps, k), steps[k], name, fd)
        || Grants(cfg, Before(cfg, steps, k), steps[k], name, fd))
    && forall j :: k < j <= |steps| ==> fd in Operators(Before(cfg, steps, j), name)
  }

  /** Every operator after any run founded the channel or was named in a `+o` of somebody who was an
      operator when that MODE began. */
  lemma {:induction false} OperatorsHaveAnOrigin(cfg: Config, steps: seq<Step>, name: string, fd: Fd)
    requires Legal(cfg, steps) && fd in Operators(After(cfg, steps), name)
    ensures exists k: nat :: OriginAt(cfg, steps, name, fd, k)
    decreases |steps|
  {
    hide Founds, Grants, Operators, Enabled, Apply;
    var n := |steps|;
    if n == 0 {
      NobodyAtTheStart(name);
    } else {
      var front := steps[..n - 1];
      BeforeSteps(cfg, steps, n - 1);
      BeforeInPrefix(cfg, steps, n - 1, n - 1);
      var a := Before(cfg, steps, n - 1);
      assert front[..n - 1] == front;
      if fd in Operators(a, name) {
        OperatorsHaveAnOrigin(cfg, front, name, fd);
        var k: nat :| OriginAt(cfg, front, name, fd, k);
        OriginInLonger(cfg, steps, name, fd, k);
      } else {
        StepGains(cfg, a, steps[n - 1], name, fd, "");
        assert OriginAt(cfg, steps, name, fd, n - 1);
      }
    }
  }

  lemma NobodyAtTheStart(name: string)
    ensures Operators(EMPTY_APP, name) == {} && Members(EMPTY_APP, name) == {} && Invitations(EMPTY_APP, name) == {}
  {}

  lemma OriginInLonger(cfg: Config, steps: seq<Step>, name: string, fd: Fd, k: nat)
    requires steps != [] && Legal(cfg, steps) && Legal(cfg, steps[..|steps| - 1])
    requires OriginAt(cfg, steps[..|steps| - 1], name, fd, k) && fd in Operators(Before(cfg, steps, |steps|), name)
    ensures OriginAt(cfg, steps, name, fd, k)
  {
    hide Founds, Grants, Operators, Before;
    var n := |steps| - 1;
    var front := steps[..n];
    BeforeInPrefix(cfg, steps, n, k);
    forall j | k < j <= |steps|
      ensures fd in Operators(Before(cfg, steps, j), name)
    {
      if j <= n {
        BeforeInPrefix(cfg, steps, n, j);
      }
    }
  }

  /** One link of a chain of authority: who became operator, and at which step. */
  datatype Grant = Grant(who: Fd, at: nat)

  /** Each was made operator by the next, earlier and earlier, back to one that founded the channel. */
  ghost predicate Lineage(cfg: Config, steps: seq<Step>, name: string, chain: seq<Grant>)
    requires Legal(cfg, steps)
  {
    && chain != [] && chain[0].at < |steps|
    && var first := chain[0];
       var a, step := Before(cfg, steps, first.at), steps[first.at];
       if |chain| == 1 then Founds(cfg, a, step, name, first.who)
       else
         && Grants(cfg, a, step, name, first.who)
         && chain[1].who == step.fd && chain[1].at < first.at
         && Lineage(cfg, steps, name, chain[1..])
  }

  lemma {:induction false} LineageInLonger(cfg: Config, steps: seq<Step>, n: nat, name: string, chain: seq<Grant>)
    requires Legal(cfg, steps) && n <= |steps| && Legal(cfg, steps[..n])
    requires Lineage(cfg, steps[..n], name, chain)
    ensures Lineage(cfg, steps, name, chain) && chain[0].at < n
    decreases |chain|
  {
    hide Founds, Grants, Before;
    BeforeInPrefix(cfg, steps, n, chain[0].at);
    if |chain| > 1 {
      LineageInLonger(cfg, steps, n, name, chain[1..]);
    }
  }

  /** Every operator's authority goes back, grant by grant, to the client that founded the channel. */
  lemma {:induction false} OperatorsDescendFromFounder(cfg: Config, steps: seq<Step>, name: string, fd: Fd)
    requires Legal(cfg, steps) && fd in Operators(After(cfg, steps), name)
    ensures exists chain: seq<Grant> :: chain != [] && chain[0].who == fd && Lineage(cfg, steps, name, chain)
    decreases |steps|
  {
    hide Founds, Grants, Operators, Before, Lineage, Legal, After;
    OperatorsHaveAnOrigin(cfg, steps, name, fd);
    var k: nat :| OriginAt(cfg, steps, name, fd, k);
    var a := Before(cfg, steps, k);
    if Founds(cfg, a, steps[k], name, fd) {
      FounderLineage(cfg, steps, name, fd, k);
      assert [Grant(fd, k)][0].who == fd;
    } else {
      GrantNeedsOperator(cfg, a, steps[k], name, fd);
      var granter := steps[k].fd;
      PrefixEndsBefore(cfg, steps, k);
      OperatorsDescendFromFounder(cfg, steps[..k], name, granter);
      var older: seq<Grant> :| older != [] && older[0].who == granter && Lineage(cfg, steps[..k], name, older);
      GrantedLineage(cfg, steps, name, fd, k, older);
      assert ([Grant(fd, k)] + older)[0].who == fd;
    }
  }

  lemma GrantNeedsOperator(cfg: Config, a: App, step: Step, name: string, fd: Fd)
    requires Grants(cfg, a, step, name, fd)
    ensures step.Line? && step.fd in Operators(a, name)
  {
    hide Operators, Members, GivenAt;
  }

  lemma FounderLineage(cfg: Config, steps: seq<Step>, name: string, fd: Fd, k: nat)
    requires Legal(cfg, steps) && k < |steps| && Founds(cfg, Before(cfg, steps, k), steps[k], name, fd)
    ensures Lineage(cfg, steps, name, [Grant(fd, k)])
  {
    hide Founds, Before;
  }

  lemma GrantedLineage(cfg: Config, steps: seq<Step>, name: string, fd: Fd, k: nat, older: seq<Grant>)
    requires Legal(cfg, steps) && k < |steps| && steps[k].Line?
    requires Grants(cfg, Before(cfg, steps, k), steps[k], name, fd)
    requires Legal(cfg, steps[..k]) && Lineage(cfg, steps[..k], name, older) && older[0].who == steps[k].fd
    ensures Lineage(cfg, steps, name, [Grant(fd, k)] + older)
  {
    hide Grants, Founds, Before;
    LineageInLonger(cfg, steps, k, name, older);
    assert ([Grant(fd, k)] + older)[1..] == older;
  }

  lemma PrefixEndsBefore(cfg: Config, steps: seq<Step>, k: nat)
    requires Legal(cfg, steps) && k <= |steps|
    ensures Legal(cfg, steps[..k]) && After(cfg, steps[..k]) == Before(cfg, steps, k)
  {
    LegalPrefix(cfg, steps, k);
  }

  /** The step by which an invitation was stored that has been held ever since. */
  ghost predicate InvitedAt(cfg: Config, steps: seq<Step>, name: string, folded: string, k: nat)
    requires Legal(cfg, steps)
  {
    && k < |steps|
    && folded !in Invitations(Before(cfg, steps, k), name)
    && Invites(cfg, Before(cfg, steps, k), steps[k], name, folded)
    && forall j :: k < j <= |steps| ==> folded in Invitations(Before(cfg, steps, j), name)
  }

  lemma InvitedInLonger(cfg: Config, steps: seq<Step>, name: string, folded: string, k: nat)
    requires steps != [] && Legal(cfg, steps) && Legal(cfg, steps[..|steps| - 1])
    requires InvitedAt(cfg, steps[..|steps| - 1], name, folded, k)
    requires folded in Invitations(Before(cfg, steps, |steps|), name)
    ensures InvitedAt(cfg, steps, name, folded, k)
  {
    hide Invites, Invitations, Before;
    var n := |steps| - 1;
    BeforeInPrefix(cfg, steps, n, k);
    forall j | k < j <= |steps|
      ensures folded in Invitations(Before(cfg, steps, j), name)
    {
      if j <= n {
        BeforeInPrefix(cfg, steps, n, j);
      }
    }
  }

  /** Every invitation held after a run was given by a member, an operator if the channel was then +i, and
      has been held since. */
  lemma {:induction false} InvitationsHaveAnOrigin(cfg: Config, steps: seq<Step>, name: string, folded: string)
    requires Legal(cfg, steps) && folded in Invitations(After(cfg, steps), name)
    ensures exists k: nat :: InvitedAt(cfg, steps, name, folded, k)
    decreases |steps|
  {
    hide Invites, Invitations, Enabled, Apply, Before;
    var n := |steps|;
    if n == 0 {
      NobodyAtTheStart(name);
    } else {
      var front := steps[..n - 1];
      BeforeSteps(cfg, steps, n - 1);
      PrefixEndsBefore(cfg, steps, n - 1);
      var a := Before(cfg, steps, n - 1);
      if folded in Invitations(a, name) {
        InvitationsHaveAnOrigin(cfg, front, name, folded);
        var k: nat :| InvitedAt(cfg, front, name, folded, k);
        InvitedInLonger(cfg, steps, name, folded, k);
      } else {
        StepGains(cfg, a, steps[n - 1], name, 0, folded);
        assert InvitedAt(cfg, steps, name, folded, n - 1);
      }
    }
  }

  /** In any run, a client that gets into a channel does so by a JOIN of its own; if the channel is +i when
      its name is looked at, an invitation for its nickname is stored there, and none is left afterwards. */
  lemma EntryIsByInvitation(cfg: Config, steps: seq<Step>, k: nat, name: string, fd: Fd)
    requires Legal(cfg, steps) && k < |steps|
    requires fd !in Members(Before(cfg, steps, k), name) && fd in Members(Before(cfg, steps, k + 1), name)
    ensures Enters(cfg, Before(cfg, steps, k), steps[k], name, fd)
  {
    hide Enters, Members, Before, Enabled, Apply;
    BeforeSteps(cfg, steps, k);
    StepGains(cfg, Before(cfg, steps, k), steps[k], name, fd, "");
  }
}
