/** Registration over whole runs (section 4.1 of RFC 1459): a client is registered exactly when it has passed
    three gates, in whatever order and however often it tried. */
module Admission {
  import opened Text
  import opened Messages
  import opened State
  import opened Commands
  import opened CommandLaws
  import opened Runs
  import opened Records
  import opened Effects

  datatype Gate = PassGate | NickGate | UserGate

  predicate IsOpen(c: Client, g: Gate) {
    match g
    case PassGate => c.passOk
    case NickGate => c.hasNick
    case UserGate => c.hasUser
  }

  /** A message that opens a gate for `fd`: the password, or any where there is none; a valid nickname nobody
      else has; four words about the user. */
  ghost predicate Opens(cfg: Config, a: App, fd: Fd, m: Message, g: Gate) {
    match g
    case PassGate => m.command == "PASS" && m.params != [] && (cfg.password == "" || m.params[0] == cfg.password)
    case NickGate => m.command == "NICK" && m.params != [] && ValidNickname(m.params[0]) && Free(a, fd, m.params[0])
    case UserGate => m.command == "USER" && |m.params| >= 4
  }

  /** In `b` the gate of `f` is open exactly if it was in `a`, or `m` has just opened it. */
  ghost predicate GateAfter(cfg: Config, a: App, b: App, fd: Fd, m: Message, g: Gate, f: Fd) {
    f in b.clients ==>
      f in a.clients && (IsOpen(b.clients[f], g) <==> IsOpen(a.clients[f], g) || (f == fd && Opens(cfg, a, fd, m, g)))
  }

  lemma OwnGates(cfg: Config, a: App, b: App, fd: Fd, m: Message, g: Gate, f: Fd, d: Client, alive: set<Fd>)
    requires OwnRecord(a, b, fd, d, alive) && fd in a.clients
    requires IsOpen(d, g) <==> IsOpen(a.clients[fd], g) || Opens(cfg, a, fd, m, g)
    ensures GateAfter(cfg, a, b, fd, m, g, f)
  {
    hide IsOpen, Opens;
  }

  lemma KeptGates(cfg: Config, a: App, b: App, fd: Fd, m: Message, g: Gate, f: Fd)
    requires RecordsKept(a, b) && !Opens(cfg, a, fd, m, g)
    ensures GateAfter(cfg, a, b, fd, m, g, f)
  {
    hide IsOpen, Opens;
  }

  lemma HandledGates(cfg: Config, a: App, fd: Fd, m: Message, course: Course, g: Gate, f: Fd)
    requires WF(a) && fd in a.clients && Matches(m, course) && Decent(m.params)
    ensures GateAfter(cfg, a, Handled(cfg, a, fd, m, course), fd, m, g, f)
  {
    hide WF, Handled, Matches, OwnRecord, GateAfter, Decent;
    var c, b, alive := a.clients[fd], Handled(cfg, a, fd, m, course), course.alive;
    GatesDecide(a, fd);
    if m.command == "PASS" {
      PassOpensGate(cfg, a, fd, m, course);
      var right := !c.passOk && m.params != [] && (cfg.password == "" || m.params[0] == cfg.password);
      OwnGates(cfg, a, b, fd, m, g, f,
               if right then c.(passOk := true, registered := c.hasNick && c.hasUser) else c, alive);
    } else if m.command == "USER" {
      UserOpensGate(cfg, a, fd, m, course);
      var d := if c.registered || |m.params| < 4 then c
               else c.(user := m.params[0], realname := m.params[3], hasUser := true,
                       registered := c.passOk && c.hasNick);
      OwnGates(cfg, a, b, fd, m, g, f, d, alive);
    } else if m.command == "NICK" {
      NickIsTaken(cfg, a, fd, m, course);
      var taken := m.params != [] && ValidNickname(m.params[0]) && Free(a, fd, m.params[0]);
      var d := if taken then c.(nick := m.params[0], hasNick := true, registered := c.passOk && c.hasUser) else c;
      OwnGates(cfg, a, b, fd, m, g, f, d, alive);
    } else {
      OtherGates(cfg, a, fd, m, course, g, f);
    }
  }

  lemma GatesDecide(a: App, fd: Fd)
    requires WF(a) && fd in a.clients
    ensures var c := a.clients[fd]; c.registered <==> c.passOk && c.hasNick && c.hasUser
  {
    hide IndexAgrees, RoomsOk;
    assert ClientOk(a.clients[fd]);
  }

  lemma OtherGates(cfg: Config, a: App, fd: Fd, m: Message, course: Course, g: Gate, f: Fd)
    requires fd in a.clients && Matches(m, course) && m.command != "PASS" && m.command != "USER" && m.command != "NICK"
    ensures GateAfter(cfg, a, Handled(cfg, a, fd, m, course), fd, m, g, f)
  {
    hide OwnRecord, GateAfter, RecordsKept, RegisteredHandled, Matches, Survive, Ponged, VerbOf;
    var c, b, alive := a.clients[fd], Handled(cfg, a, fd, m, course), course.alive;
    if m.command == "PONG" {
      PongEndsWait(cfg, a, fd, m, course);
      var d := if c.awaitingPong && m.params == [c.pendingPongToken]
               then c.(awaitingPong := false, pendingPongToken := "", lastPingAt := 0) else c;
      OwnGates(cfg, a, b, fd, m, g, f, d, alive);
    } else {
      OtherVerbs(m.command);
      SurvivorsKeepRecords(a, alive);
      RegisteredCommandsKeepRecords(a, fd, m, course);
      KeptGates(cfg, a, b, fd, m, g, f);
    }
  }

  lemma OtherVerbs(command: string)
    requires command != "PASS" && command != "USER" && command != "NICK" && command != "PONG"
    ensures var v := VerbOf(command); !v.Pass? && !v.Nick? && !v.User? && !v.Pong?
  {}

  /** The step is a command of `fd`, within the rate limit, that opens the gate; or `fd` has just connected to a
      relay without a password. */
  ghost predicate OpensAt(cfg: Config, a: App, step: Step, fd: Fd, g: Gate) {
    || (IsCommand(step, fd) && fd in a.clients && WithinRate(cfg, Begun(cfg, a, step).clients[fd]) &&
        Opens(cfg, Begun(cfg, a, step), fd, Parse(step.line).message, g))
    || (step.Connect? && step.fd == fd && g.PassGate? && cfg.password == "")
  }

  lemma LineGates(cfg: Config, a: App, step: Step, fd: Fd, g: Gate)
    requires WF(a) && step.Line? && Enabled(a, step) && fd in Apply(cfg, a, step).clients
    ensures fd in a.clients
    ensures IsOpen(Apply(cfg, a, step).clients[fd], g) <==> IsOpen(a.clients[fd], g) || OpensAt(cfg, a, step, fd, g)
  {
    hide WF, Handled, Matches, Parse, PopOld, Opens;
    var b := Begun(cfg, a, step);
    BegunWF(cfg, a, step);
    if Parse(step.line).Parsed? && WithinRate(cfg, b.clients[step.fd]) {
      ParsedIsDecent(step.line);
      HandledGates(cfg, b, step.fd, Parse(step.line).message, step.course, g, fd);
    }
  }

  lemma BegunWF(cfg: Config, a: App, step: Step)
    requires WF(a) && step.Line? && step.fd in a.clients
    ensures WF(Begun(cfg, a, step))
  {
    hide WF, PopOld;
    var touched := Touched(a, step.fd, step.now);
    RecordWF(a, step.fd, touched.clients[step.fd]);
    RecordWF(touched, step.fd, Begun(cfg, a, step).clients[step.fd]);
  }

  /** One step: a gate is open afterwards exactly if it was before or the step opens it. */
  lemma StepOpens(cfg: Config, a: App, step: Step, fd: Fd, g: Gate)
    requires WF(a) && Enabled(a, step) && fd in Apply(cfg, a, step).clients
    ensures IsOpen(Apply(cfg, a, step).clients[fd], g) <==>
            (fd in a.clients && IsOpen(a.clients[fd], g)) || OpensAt(cfg, a, step, fd, g)
  {
    hide WF, LineHandled, TickRun, Judge, Token, Opens, Parse;
    match step {
      case Connect(_, _, _) =>
      case Line(_, _, _, _) => LineGates(cfg, a, step, fd, g);
      case Tick(now, order, stages) =>
        TickRecords(cfg, a, now, order, stages, fd);
        assert order[..|stages|] == order;
      case Lose(alive) => SurvivorsKeepRecords(a, alive);
    }
  }

  /** The step at which a gate was opened for a client that has been connected ever since. */
  ghost predicate OpenedAt(cfg: Config, steps: seq<Step>, fd: Fd, g: Gate, k: nat)
    requires Legal(cfg, steps)
  {
    && k < |steps| && OpensAt(cfg, Before(cfg, steps, k), steps[k], fd, g)
    && forall j :: k < j <= |steps| ==> fd in Before(cfg, steps, j).clients
  }

  lemma OpenedInPrefix(cfg: Config, steps: seq<Step>, fd: Fd, g: Gate, k: nat)
    requires steps != [] && Legal(cfg, steps) && Legal(cfg, steps[..|steps| - 1]) && k < |steps| - 1
    requires fd in Before(cfg, steps, |steps|).clients
    ensures OpenedAt(cfg, steps, fd, g, k) <==> OpenedAt(cfg, steps[..|steps| - 1], fd, g, k)
  {
    hide OpensAt, Before;
    var n := |steps| - 1;
    forall j | 0 <= j <= n
      ensures Before(cfg, steps[..n], j) == Before(cfg, steps, j)
    {
      BeforeInPrefix(cfg, steps, n, j);
    }
  }

  /** In any run a gate of a connected client is open exactly if some step since it connected opened it. */
  lemma {:induction false} GatesAreOpened(cfg: Config, steps: seq<Step>, fd: Fd, g: Gate)
    requires Legal(cfg, steps) && fd in After(cfg, steps).clients
    ensures IsOpen(After(cfg, steps).clients[fd], g) <==> exists k: nat :: OpenedAt(cfg, steps, fd, g, k)
    decreases |steps|
  {
    hide OpensAt, Enabled, Apply, IsOpen, WF;
    if steps != [] {
      var n := |steps| - 1;
      var front := steps[..n];
      BeforeSteps(cfg, steps, n);
      BeforeInPrefix(cfg, steps, n, n);
      assert front[..n] == front;
      var a := Before(cfg, steps, n);
      RunsKeepState(cfg, front);
      StepOpens(cfg, a, steps[n], fd, g);
      if fd in a.clients {
        GatesAreOpened(cfg, front, fd, g);
      }
      GateThenGate(cfg, steps, fd, g);
    }
  }

  lemma GateThenGate(cfg: Config, steps: seq<Step>, fd: Fd, g: Gate)
    requires steps != [] && Legal(cfg, steps) && Legal(cfg, steps[..|steps| - 1])
    requires fd in Before(cfg, steps, |steps|).clients
    ensures var n := |steps| - 1;
            (exists k: nat :: OpenedAt(cfg, steps, fd, g, k)) <==>
            OpensAt(cfg, Before(cfg, steps, n), steps[n], fd, g) ||
            (fd in Before(cfg, steps, n).clients && exists k: nat :: OpenedAt(cfg, steps[..n], fd, g, k))
  {
    hide OpensAt, Before;
    var n := |steps| - 1;
    if k: nat :| OpenedAt(cfg, steps, fd, g, k) {
      if k < n {
        OpenedInPrefix(cfg, steps, fd, g, k);
        assert fd in Before(cfg, steps, n).clients;
      }
    }
    if OpensAt(cfg, Before(cfg, steps, n), steps[n], fd, g) {
      assert OpenedAt(cfg, steps, fd, g, n);
    } else if fd in Before(cfg, steps, n).clients && exists k: nat :: OpenedAt(cfg, steps[..n], fd, g, k) {
      var k: nat :| OpenedAt(cfg, steps[..n], fd, g, k);
      OpenedInPrefix(cfg, steps, fd, g, k);
      assert OpenedAt(cfg, steps, fd, g, k);
    }
  }

  /** In any run a connected client is registered exactly if, since it connected and in whatever order, it gave
      the password where there is one, took a valid nickname that was free, and described its user, each within
      the rate limit. */
  lemma RegistrationIsByThreeGates(cfg: Config, steps: seq<Step>, fd: Fd)
    requires Legal(cfg, steps) && fd in After(cfg, steps).clients
    ensures After(cfg, steps).clients[fd].registered <==>
            && (exists k: nat :: OpenedAt(cfg, steps, fd, PassGate, k))
            && (exists k: nat :: OpenedAt(cfg, steps, fd, NickGate, k))
            && (exists k: nat :: OpenedAt(cfg, steps, fd, UserGate, k))
  {
    hide OpenedAt, After, Legal, WF;
    RunsKeepState(cfg, steps);
    GatesDecide(After(cfg, steps), fd);
    GatesAreOpened(cfg, steps, fd, PassGate);
    GatesAreOpened(cfg, steps, fd, NickGate);
    GatesAreOpened(cfg, steps, fd, UserGate);
  }

  /** On a relay with a password, every registered client sent a PASS with that password on the connection
      it is registered on. */
  lemma RegisteredClientsGavePassword(cfg: Config, steps: seq<Step>, fd: Fd)
    requires Legal(cfg, steps) && cfg.password != ""
    requires fd in After(cfg, steps).clients && After(cfg, steps).clients[fd].registered
    ensures exists k: nat :: OpenedAt(cfg, steps, fd, PassGate, k) && IsCommand(steps[k], fd) &&
                             var m := Parse(steps[k].line).message;
                             m.command == "PASS" && m.params != [] && m.params[0] == cfg.password
  {
    hide After, Legal, Before, Parse, IsCommand;
    RegistrationIsByThreeGates(cfg, steps, fd);
  }
}
