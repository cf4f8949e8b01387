/** What a step can do to the record of one client, and the timers that read it: the heartbeat
    (sections 4.6.2 and 4.6.3 of RFC 1459) and the command-rate window, over whole runs. */
module Records {
  import opened Text
  import opened Messages
  import opened State
  import opened Commands
  import opened CommandLaws
  import opened Runs

  // ----- Records through a step -----

  /** Whoever is left has the record it had. */
  ghost predicate RecordsKept(a: App, b: App) {
    b.tokens == a.tokens && forall f :: f in b.clients ==> f in a.clients && b.clients[f] == a.clients[f]
  }

  lemma SurvivorsKeepRecords(a: App, alive: set<Fd>)
    ensures RecordsKept(a, Survive(a, alive))
  {}

  lemma {:induction false} JoinKeepsRecords(a: App, fd: Fd, names: seq<string>, stages: seq<set<Fd>>)
    requires |stages| <= |names|
    ensures RecordsKept(a, JoinRun(a, fd, names, stages))
  {
    hide ValidChannelName, Canonical;
    if stages != [] {
      var n := |stages| - 1;
      JoinKeepsRecords(a, fd, names, stages[..n]);
      var p := JoinRun(a, fd, names, stages[..n]);
      assert RecordsKept(p, JoinOne(p, fd, names[n]));
    }
  }

  lemma {:induction false} ModesKeepRecords(a: App, params: seq<string>, stages: seq<set<Fd>>)
    requires |params| >= 2 && |stages| <= |params[1]|
    ensures RecordsKept(a, ModeRun(a, params, stages).app)
  {
    hide ModeRoom, Survive;
    if stages != [] {
      var n := |stages| - 1;
      ModesKeepRecords(a, params, stages[..n]);
      var s := ModeRun(a, params, stages[..n]);
      ModeRoomKeeps(s, params, params[1][n], 0);
      SurvivorsKeepRecords(ModeRoom(s, params, params[1][n]), stages[n]);
    }
  }

  lemma RegisteredCommandsKeepRecords(a: App, fd: Fd, m: Message, course: Course)
    requires Matches(m, course)
    ensures RecordsKept(a, RegisteredHandled(a, fd, m, course))
  {
    hide JoinRun, ModeRun, VerbOf, Pieces, FindNick, Canonical;
    if m.params != [] && VerbOf(m.command).Join? {
      JoinKeepsRecords(a, fd, Pieces(m.params[0]), course.stages);
    }
    if |m.params| >= 2 && VerbOf(m.command).Mode? {
      ModesKeepRecords(a, m.params, course.stages);
    }
  }

  /** The timer fields of a record. */
  ghost predicate SameTimers(c: Client, d: Client) {
    && d.awaitingPong == c.awaitingPong && d.pendingPongToken == c.pendingPongToken && d.lastPingAt == c.lastPingAt
    && d.lastActivityAt == c.lastActivityAt && d.window == c.window && Onward(c, d)
  }

  /** The same connection's record at a later time: no gate closes again. */
  ghost predicate Onward(c: Client, d: Client) {
    && d.connectedAt == c.connectedAt && d.host == c.host && (c.registered ==> d.registered)
    && (c.passOk ==> d.passOk) && (c.hasNick ==> d.hasNick) && (c.hasUser ==> d.hasUser)
  }

  /** A PONG carrying exactly the token of the probe under way. */
  ghost predicate Answers(m: Message, c: Client) {
    VerbOf(m.command).Pong? && m.params == [c.pendingPongToken] && c.awaitingPong
  }

  /** Only the record of `fd` may differ, and of its timer fields only those of an answered wait. */
  ghost predicate Touches(a: App, b: App, fd: Fd, m: Message)
    requires fd in a.clients
  {
    && b.tokens == a.tokens
    && (forall f :: f in b.clients && f != fd ==> f in a.clients && b.clients[f] == a.clients[f])
    && (fd in b.clients ==>
          var c, d := a.clients[fd], b.clients[fd];
          if Answers(m, c) then
            !d.awaitingPong && d.window == c.window && d.lastActivityAt == c.lastActivityAt && Onward(c, d)
          else SameTimers(c, d))
  }

  lemma TouchesThenSurvive(a: App, b: App, fd: Fd, m: Message, alive: set<Fd>)
    requires fd in a.clients && Touches(a, b, fd, m)
    ensures Touches(a, Survive(b, alive), fd, m)
  {
    hide Answers, SameTimers;
    SurvivorsKeepRecords(b, alive);
  }

  /** A changed record of `fd` alone. */
  lemma RecordTouches(a: App, fd: Fd, d: Client, nicks: Nicknames, m: Message)
    requires fd in a.clients
    requires !Answers(m, a.clients[fd]) && SameTimers(a.clients[fd], d)
    ensures Touches(a, WithClient(a, fd, d).(nicks := nicks), fd, m)
  {
    hide Answers, SameTimers;
  }

  lemma PassedTouches(cfg: Config, a: App, fd: Fd, m: Message)
    requires fd in a.clients && !VerbOf(m.command).Pong?
    ensures Touches(a, a, fd, m) && Touches(a, Passed(cfg, a, fd, m.params), fd, m)
  {
    hide VerbOf, Touches;
    var c := a.clients[fd];
    KeptIsTouched(a, a, fd, m);
    RecordTouches(a, fd, Registered(c.(passOk := true)), a.nicks, m);
  }

  lemma DescribedTouches(a: App, fd: Fd, m: Message)
    requires fd in a.clients && !VerbOf(m.command).Pong?
    ensures Touches(a, Described(a, fd, m.params), fd, m)
  {
    hide VerbOf, Touches;
    var c := a.clients[fd];
    KeptIsTouched(a, a, fd, m);
    if |m.params| >= 4 {
      RecordTouches(a, fd, Registered(c.(user := m.params[0], realname := m.params[3], hasUser := true)), a.nicks, m);
    }
  }

  lemma RenamedTouches(a: App, fd: Fd, m: Message)
    requires fd in a.clients && !VerbOf(m.command).Pong?
    ensures Touches(a, Renamed(a, fd, m.params), fd, m)
  {
    hide VerbOf, Touches, MayTake, Canonical;
    KeptIsTouched(a, a, fd, m);
    if MayTake(a, fd, m.params) {
      TakingNeedsParam(a, fd, m.params);
      var b := Nicknamed(a, fd, m.params[0]);
      var d := Registered(b.clients[fd]);
      RecordTouches(a, fd, d, b.nicks, m);
      WithClientTwice(a, fd, b.clients[fd], d);
      assert Renamed(a, fd, m.params) == WithClient(a, fd, d).(nicks := b.nicks);
    }
  }

  lemma TakingNeedsParam(a: App, fd: Fd, params: seq<string>)
    ensures MayTake(a, fd, params) ==> params != []
  {}

  lemma PongedTouches(a: App, fd: Fd, m: Message)
    requires fd in a.clients && VerbOf(m.command).Pong?
    ensures Touches(a, Ponged(a, fd, m.params), fd, m)
  {
    hide VerbOf;
    assert m.params == [a.clients[fd].pendingPongToken] <==>
        |m.params| == 1 && m.params[0] == a.clients[fd].pendingPongToken;
  }

  lemma HandledRecords(cfg: Config, a: App, fd: Fd, m: Message, course: Course)
    requires fd in a.clients && Matches(m, course)
    ensures Touches(a, Handled(cfg, a, fd, m, course), fd, m)
  {
    hide RegisteredHandled, VerbOf, Matches, Passed, Described, Renamed, Ponged, Survive, Touches;
    var alive := course.alive;
    if VerbOf(m.command).Pong? {
      PongedTouches(a, fd, m);
      TouchesThenSurvive(a, Ponged(a, fd, m.params), fd, m, alive);
    } else {
      PassedTouches(cfg, a, fd, m);
      DescribedTouches(a, fd, m);
      RenamedTouches(a, fd, m);
      TouchesThenSurvive(a, a, fd, m, alive);
      TouchesThenSurvive(a, Passed(cfg, a, fd, m.params), fd, m, alive);
      TouchesThenSurvive(a, Described(a, fd, m.params), fd, m, alive);
      TouchesThenSurvive(a, Renamed(a, fd, m.params), fd, m, alive);
      RegisteredCommandsKeepRecords(a, fd, m, course);
      KeptIsTouched(a, RegisteredHandled(a, fd, m, course), fd, m);
    }
  }

  lemma KeptIsTouched(a: App, b: App, fd: Fd, m: Message)
    requires fd in a.clients && RecordsKept(a, b) && !VerbOf(m.command).Pong?
    ensures Touches(a, b, fd, m)
  {
    hide VerbOf;
  }

  /** The message of a line, if it parses. */
  ghost predicate Speaks(step: Step, fd: Fd) {
    step.Line? && step.fd == fd
  }

  ghost predicate IsCommand(step: Step, fd: Fd) {
    Speaks(step, fd) && Parse(step.line).Parsed?
  }

  /** A handled line touches the record of its sender only; it ends a wait for PONG only by answering it;
      it enters the command window exactly when it parses. */
  lemma LineRecords(cfg: Config, a: App, step: Step)
    requires step.Line? && Enabled(a, step)
    ensures var b, fd := Apply(cfg, a, step), step.fd;
            && b.tokens == a.tokens
            && (forall f :: f in b.clients && f != fd ==> f in a.clients && b.clients[f] == a.clients[f])
            && (fd in b.clients ==>
                  var c, d := a.clients[fd], b.clients[fd];
                  && Onward(c, d)
                  && d.window == (if Parse(step.line).Parsed?
                                  then PopOld(c.window, step.now, cfg.rateLimitWindow) + [step.now] else c.window)
                  && d.lastActivityAt == step.now
                  && ((Parse(step.line).Parsed? && Answers(Parse(step.line).message, c) && !d.awaitingPong) ||
                      (d.awaitingPong == c.awaitingPong && d.pendingPongToken == c.pendingPongToken
                       && d.lastPingAt == c.lastPingAt)))
  {
    hide Handled, Matches, Parse, PopOld, VerbOf;
    if Parse(step.line).Parsed? {
      var b := Counted(cfg, Touched(a, step.fd, step.now), step.fd, step.now);
      HandledRecords(cfg, b, step.fd, Parse(step.line).message, step.course);
    }
  }

  /** A tick changes a record only by probing it, with a token whose number is fresh. */
  ghost predicate Visited(cfg: Config, a: App, b: App, fd: Fd, now: int)
    requires fd in a.clients && fd in b.clients
  {
    if Judge(cfg, a.clients[fd], now).Probe? then
      exists n: nat :: a.tokens < n <= b.tokens && b.clients[fd] == Probed(a.clients[fd], Token(fd, n), now)
    else b.clients[fd] == a.clients[fd]
  }

  lemma {:induction false} TickRecords(cfg: Config, a: App, now: int, order: seq<Fd>, stages: seq<set<Fd>>, fd: Fd)
    requires |stages| <= |order| && Distinct(order)
    ensures var b := TickRun(cfg, a, now, order, stages);
            && a.tokens <= b.tokens
            && (fd in b.clients ==> fd in a.clients)
            && (fd in b.clients && fd !in order[..|stages|] ==> b.clients[fd] == a.clients[fd])
            && (fd in b.clients && fd in order[..|stages|] ==> Visited(cfg, a, b, fd, now))
  {
    hide Judge, Token, Probed;
    if stages != [] {
      var k := |stages| - 1;
      TickRecords(cfg, a, now, order, stages[..k], fd);
      var p := TickRun(cfg, a, now, order, stages[..k]);
      var q := Maintained(cfg, p, order[k], now);
      var b := Survive(q, stages[k]);
      assert order[..k + 1] == order[..k] + [order[k]];
      if fd in b.clients {
        assert b.clients[fd] == q.clients[fd] && fd in p.clients;
        if fd == order[k] {
          assert fd !in order[..k];
          assert p.clients[fd] == a.clients[fd];
          if Judge(cfg, a.clients[fd], now).Probe? {
            assert b.clients[fd] == Probed(a.clients[fd], Token(fd, p.tokens + 1), now);
          }
        } else {
          assert q.clients[fd] == p.clients[fd];
        }
      }
    }
  }
}
