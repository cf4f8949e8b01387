/** Whole runs of the application as sequences of steps, and what holds after every one of them. */
module Runs {
  import opened Text
  import opened Messages
  import opened State
  import opened Commands
  import opened CommandLaws

  /** A client connects; a line is handled; a timer tick visits the clients in some order; or only some
      clients are left after input and output on the sockets. */
  datatype Step =
    | Connect(fd: Fd, host: string, now: int)
    | Line(fd: Fd, line: string, now: int, course: Course)
    | Tick(now: int, order: seq<Fd>, stages: seq<set<Fd>>)
    | Lose(alive: set<Fd>)

  ghost predicate Distinct(order: seq<Fd>) {
    forall i, j :: 0 <= i < j < |order| ==> order[i] != order[j]
  }

  ghost predicate Enabled(a: App, step: Step) {
    match step
    case Connect(fd, host, _) => fd !in a.clients && IsWord(host)
    case Line(fd, line, _, course) => fd in a.clients && LineMatches(line, course) && Tidy(line)
    case Tick(_, order, stages) => |stages| == |order| && Distinct(order) && forall f :: f in order <==> f in a.clients
    case Lose(_) => true
  }

  ghost function Apply(cfg: Config, a: App, step: Step): App
    requires Enabled(a, step)
  {
    match step
    case Connect(fd, host, now) => Connected(cfg, a, fd, host, now)
    case Line(fd, line, now, course) => LineHandled(cfg, a, fd, line, now, course)
    case Tick(now, order, stages) => TickRun(cfg, a, now, order, stages)
    case Lose(alive) => Survive(a, alive)
  }

  /** The state in which the handler of a line starts. */
  ghost function Begun(cfg: Config, a: App, step: Step): App
    requires step.Line? && step.fd in a.clients
  {
    Counted(cfg, Touched(a, step.fd, step.now), step.fd, step.now)
  }

  /** The latest clock reading of a run. */
  function Clock(steps: seq<Step>): int {
    if steps == [] then 0
    else if steps[|steps| - 1].Lose? then Clock(steps[..|steps| - 1])
    else steps[|steps| - 1].now
  }

  /** Steps in which each is enabled where it happens and the clock never runs backwards. */
  ghost predicate Legal(cfg: Config, steps: seq<Step>)
    decreases |steps|, 0
  {
    steps == [] ||
    var front, last := steps[..|steps| - 1], steps[|steps| - 1];
    && Legal(cfg, front)
    && Enabled(After(cfg, front), last)
    && (last.Lose? || Clock(front) <= last.now)
  }

  ghost function After(cfg: Config, steps: seq<Step>): App
    requires Legal(cfg, steps)
    decreases |steps|, 1
  {
    if steps == [] then EMPTY_APP else Apply(cfg, After(cfg, steps[..|steps| - 1]), steps[|steps| - 1])
  }

  lemma ApplyWF(cfg: Config, a: App, step: Step)
    requires WF(a) && Enabled(a, step)
    ensures WF(Apply(cfg, a, step))
  {
    hide WF, LineHandled, TickRun, Survive, LineMatches;
    match step {
      case Connect(fd, host, now) => ConnectedWF(cfg, a, fd, host, now);
      case Line(fd, line, now, course) => LineHandledWF(cfg, a, fd, line, now, course);
      case Tick(now, order, stages) => TickRunWF(cfg, a, now, order, stages);
      case Lose(alive) => SurviveWF(a, alive);
    }
  }

  /** After any run: the nickname index agrees with a scan of the clients; `registered` holds exactly when
      all three gates do; every channel is inhabited, stored under its own valid name, its operators among
      its members and its members registered clients. */
  lemma {:induction false} RunsKeepState(cfg: Config, steps: seq<Step>)
    requires Legal(cfg, steps)
    ensures WF(After(cfg, steps))
  {
    hide WF, Apply;
    if steps == [] {
      EmptyWF();
    } else {
      RunsKeepState(cfg, steps[..|steps| - 1]);
      ApplyWF(cfg, After(cfg, steps[..|steps| - 1]), steps[|steps| - 1]);
    }
  }

  lemma EmptyWF()
    ensures WF(EMPTY_APP)
  {}

  lemma OneMoreStep(cfg: Config, steps: seq<Step>, step: Step)
    requires Legal(cfg, steps) && Enabled(After(cfg, steps), step) && (step.Lose? || Clock(steps) <= step.now)
    ensures Legal(cfg, steps + [step])
    ensures After(cfg, steps + [step]) == Apply(cfg, After(cfg, steps), step)
    ensures Clock(steps + [step]) == if step.Lose? then Clock(steps) else step.now
  {
    hide Apply, Enabled;
    var longer := steps + [step];
    assert longer[..|longer| - 1] == steps && longer[|longer| - 1] == step;
  }

  lemma {:induction false} LegalPrefix(cfg: Config, steps: seq<Step>, k: nat)
    requires Legal(cfg, steps) && k <= |steps|
    ensures Legal(cfg, steps[..k])
  {
    hide Enabled;
    if k == |steps| {
      assert steps[..k] == steps;
    } else {
      var front := steps[..|steps| - 1];
      LegalPrefix(cfg, front, k);
      assert front[..k] == steps[..k];
    }
  }

  /** The state before the k-th step of a run. */
  ghost function Before(cfg: Config, steps: seq<Step>, k: nat): App
    requires Legal(cfg, steps) && k <= |steps|
  {
    LegalPrefix(cfg, steps, k);
    After(cfg, steps[..k])
  }

  lemma BeforeSteps(cfg: Config, steps: seq<Step>, k: nat)
    requires Legal(cfg, steps) && k < |steps|
    ensures Enabled(Before(cfg, steps, k), steps[k])
    ensures Before(cfg, steps, k + 1) == Apply(cfg, Before(cfg, steps, k), steps[k])
    ensures Before(cfg, steps, 0) == EMPTY_APP && Before(cfg, steps, |steps|) == After(cfg, steps)
  {
    hide Enabled, Apply;
    LegalPrefix(cfg, steps, k + 1);
    var upTo := steps[..k + 1];
    assert upTo[..|upTo| - 1] == steps[..k] && upTo[|upTo| - 1] == steps[k];
    assert steps[..|steps|] == steps;
  }

  lemma BeforeInPrefix(cfg: Config, steps: seq<Step>, n: nat, k: nat)
    requires Legal(cfg, steps) && k <= n <= |steps|
    ensures Legal(cfg, steps[..n]) && Before(cfg, steps[..n], k) == Before(cfg, steps, k)
  {
    LegalPrefix(cfg, steps, n);
    assert steps[..n][..k] == steps[..k];
  }
}
