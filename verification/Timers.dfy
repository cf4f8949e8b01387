/** Heartbeat and command rate over whole runs. */
module Timers {
  import opened Text
  import opened Messages
  import opened State
  import opened Commands
  import opened CommandLaws
  import opened Runs
  import opened Records

  // ----- Only the right PONG ends a wait -----

  /** In any run, a client that stops waiting for a PONG while staying connected has just sent a PONG whose
      only parameter is the token it was last probed with. */
  lemma WaitsEndByAnswer(cfg: Config, steps: seq<Step>, k: nat, fd: Fd)
    requires Legal(cfg, steps) && k < |steps|
    requires fd in Before(cfg, steps, k).clients && fd in Before(cfg, steps, k + 1).clients
    requires Before(cfg, steps, k).clients[fd].awaitingPong && !Before(cfg, steps, k + 1).clients[fd].awaitingPong
    ensures IsCommand(steps[k], fd) && Answers(Parse(steps[k].line).message, Before(cfg, steps, k).clients[fd])
  {
    hide Before, LineHandled, TickRun, Parse, Answers, Judge, Token;
    BeforeSteps(cfg, steps, k);
    var a, step := Before(cfg, steps, k), steps[k];
    match step {
      case Connect(_, _, _) =>
      case Line(_, _, _, _) => LineRecords(cfg, a, step);
      case Tick(now, order, stages) =>
        TickRecords(cfg, a, now, order, stages, fd);
      case Lose(alive) => SurvivorsKeepRecords(a, alive);
    }
  }

  // ----- Tokens -----

  lemma TokenIsInjective(f: Fd, n: nat, g: Fd, m: nat)
    requires Token(f, n) == Token(g, m)
    ensures f == g && n == m
  {
    var x, y := Decimal(f) + "-" + Decimal(n), Decimal(g) + "-" + Decimal(m);
    assert Token(f, n) == "heartbeat-" + x && Token(g, m) == "heartbeat-" + y;
    assert x == Token(f, n)[10..] && y == Token(g, m)[10..];
    DashSplits(Decimal(f), Decimal(n), Decimal(g), Decimal(m));
    DecimalRoundTrip(f);
    DecimalRoundTrip(g);
    DecimalRoundTrip(n);
    DecimalRoundTrip(m);
  }

  lemma DashSplits(a: string, b: string, c: string, d: string)
    requires a + "-" + b == c + "-" + d
    requires forall i :: 0 <= i < |a| ==> IsDigit(a[i])
    requires forall i :: 0 <= i < |c| ==> IsDigit(c[i])
    ensures a == c && b == d
  {
    var s, t := a + "-" + b, c + "-" + d;
    assert s[|a|] == '-' && t[|c|] == '-';
    assert forall i :: 0 <= i < |a| ==> s[i] == a[i];
    assert forall i :: 0 <= i < |c| ==> t[i] == c[i];
    assert |a| == |c|;
    assert s[..|a|] == a && t[..|c|] == c && s[|a| + 1..] == b && t[|c| + 1..] == d;
  }

  /** The state in which the i-th client of the tick at step k is visited. */
  ghost function Visiting(cfg: Config, steps: seq<Step>, k: nat, i: nat): App
    requires Legal(cfg, steps) && k < |steps| && steps[k].Tick? && i <= |steps[k].stages| <= |steps[k].order|
  {
    var tick := steps[k];
    TickRun(cfg, Before(cfg, steps, k), tick.now, tick.order, tick.stages[..i])
  }

  /** The i-th client visited by the tick at step k is sent a probe, whether or not it survives the sending. */
  ghost predicate ProbedAt(cfg: Config, steps: seq<Step>, k: nat, i: nat)
    requires Legal(cfg, steps)
  {
    && k < |steps| && steps[k].Tick? && i < |steps[k].stages| <= |steps[k].order|
    && var a, fd := Visiting(cfg, steps, k, i), steps[k].order[i];
       fd in a.clients && Judge(cfg, a.clients[fd], steps[k].now).Probe?
  }

  /** The token of that probe. */
  ghost function IssuedToken(cfg: Config, steps: seq<Step>, k: nat, i: nat): string
    requires Legal(cfg, steps) && ProbedAt(cfg, steps, k, i)
  {
    Token(steps[k].order[i], Visiting(cfg, steps, k, i).tokens + 1)
  }

  lemma TokensGrow(cfg: Config, a: App, step: Step)
    requires Enabled(a, step)
    ensures a.tokens <= Apply(cfg, a, step).tokens
  {
    hide LineHandled, TickRun, Judge, Token, Parse, Answers;
    match step {
      case Connect(_, _, _) =>
      case Line(_, _, _, _) => LineRecords(cfg, a, step);
      case Tick(now, order, stages) => TickRecords(cfg, a, now, order, stages, 0);
      case Lose(alive) =>
    }
  }

  lemma {:induction false} TokensGrowOver(cfg: Config, steps: seq<Step>, k: nat, l: nat)
    requires Legal(cfg, steps) && k <= l <= |steps|
    ensures Before(cfg, steps, k).tokens <= Before(cfg, steps, l).tokens
    decreases l - k
  {
    hide Before, Enabled, Apply;
    if k < l {
      BeforeSteps(cfg, steps, k);
      TokensGrow(cfg, Before(cfg, steps, k), steps[k]);
      TokensGrowOver(cfg, steps, k + 1, l);
    }
  }

  /** Within a tick the count never falls, and it rises with each probe. */
  lemma {:induction false} TokensGrowInTick(cfg: Config, a: App, now: int, order: seq<Fd>, stages: seq<set<Fd>>,
                                            i: nat, j: nat)
    requires i <= j <= |stages| <= |order|
    ensures TickRun(cfg, a, now, order, stages[..i]).tokens <= TickRun(cfg, a, now, order, stages[..j]).tokens
    ensures var p := TickRun(cfg, a, now, order, stages[..i]);
            i < j && order[i] in p.clients && Judge(cfg, p.clients[order[i]], now).Probe? ==>
              p.tokens < TickRun(cfg, a, now, order, stages[..j]).tokens
    decreases j
  {
    hide Judge, Token;
    if i < j {
      TokensGrowInTick(cfg, a, now, order, stages, i, j - 1);
      assert stages[..j][..j - 1] == stages[..j - 1];
    }
  }

  lemma ProbeCounts(cfg: Config, steps: seq<Step>, k: nat, i: nat, j: nat)
    requires Legal(cfg, steps) && ProbedAt(cfg, steps, k, i) && i < j <= |steps[k].stages|
    ensures Before(cfg, steps, k).tokens <= Visiting(cfg, steps, k, i).tokens < Visiting(cfg, steps, k, j).tokens
    ensures Visiting(cfg, steps, k, j).tokens <= Before(cfg, steps, k + 1).tokens
  {
    hide Before, TickRun, Judge;
    BeforeSteps(cfg, steps, k);
    var a, tick := Before(cfg, steps, k), steps[k];
    TokensGrowInTick(cfg, a, tick.now, tick.order, tick.stages, 0, i);
    TokensGrowInTick(cfg, a, tick.now, tick.order, tick.stages, i, j);
    TokensGrowInTick(cfg, a, tick.now, tick.order, tick.stages, j, |tick.stages|);
    assert tick.stages[..|tick.stages|] == tick.stages && tick.stages[..0] == [];
    assert TickRun(cfg, a, tick.now, tick.order, []) == a by { NoVisits(cfg, a, tick.now, tick.order); }
  }

  lemma NoVisits(cfg: Config, a: App, now: int, order: seq<Fd>)
    ensures TickRun(cfg, a, now, order, []) == a
  {}

  /** No token is ever issued twice: not to another client, not to the same one at another tick, and not even
      when the client it was issued to did not survive the tick. */
  lemma TokensNeverRepeat(cfg: Config, steps: seq<Step>, k: nat, i: nat, l: nat, j: nat)
    requires Legal(cfg, steps) && ProbedAt(cfg, steps, k, i) && ProbedAt(cfg, steps, l, j)
    requires k < l || (k == l && i < j)
    ensures IssuedToken(cfg, steps, k, i) != IssuedToken(cfg, steps, l, j)
  {
    hide Before, Token, Visiting, Judge;
    var n, m := Visiting(cfg, steps, k, i).tokens + 1, Visiting(cfg, steps, l, j).tokens + 1;
    ProbeCounts(cfg, steps, k, i, if k == l then j else i + 1);
    ProbeCounts(cfg, steps, l, j, j + 1);
    if k < l {
      TokensGrowOver(cfg, steps, k + 1, l);
    }
    assert n < m;
    if Token(steps[k].order[i], n) == Token(steps[l].order[j], m) {
      TokenIsInjective(steps[k].order[i], n, steps[l].order[j], m);
    }
  }

  // ----- Silence -----

  /** What the heartbeat reads of a registered client. */
  datatype Pulse = Pulse(waiting: bool, pingAt: int, activeAt: int)

  function PulseOf(c: Client): Pulse {
    Pulse(c.awaitingPong, c.lastPingAt, c.lastActivityAt)
  }

  predicate ProbeDue(cfg: Config, p: Pulse, t: int) {
    !p.waiting && t - p.activeAt >= cfg.idleTimeout
  }

  predicate Overdue(cfg: Config, p: Pulse, t: int) {
    p.waiting && t - p.pingAt >= cfg.pingTimeout
  }

  /** The idle timeout, the ping timeout and two tick gaps after the last activity. */
  function Deadline(cfg: Config, lastActivity: int, gap: int): int {
    lastActivity + cfg.idleTimeout + cfg.pingTimeout + 2 * gap
  }

  function Beat(cfg: Config, p: Pulse, t: int): Pulse {
    if ProbeDue(cfg, p, t) then Pulse(true, t, p.activeAt) else p
  }

  function Beats(cfg: Config, p: Pulse, times: seq<int>): Pulse {
    if times == [] then p else Beat(cfg, Beats(cfg, p, times[..|times| - 1]), times[|times| - 1])
  }

  /** Ticks never further apart than `gap`, the first within `gap` of `start`. */
  predicate Regular(times: seq<int>, start: int, gap: int) {
    && (times != [] ==> start <= times[0] <= start + gap)
    && forall i :: 0 <= i < |times| - 1 ==> times[i] <= times[i + 1] <= times[i] + gap
  }

  lemma {:induction false} RegularIsSorted(times: seq<int>, start: int, gap: int, i: nat, j: nat)
    requires Regular(times, start, gap) && i <= j < |times|
    ensures start <= times[i] <= times[j]
    decreases j
  {
    if j > 0 {
      if i < j {
        RegularIsSorted(times, start, gap, i, j - 1);
        assert times[j - 1] <= times[j - 1 + 1];
      } else {
        RegularIsSorted(times, start, gap, j - 1, j - 1);
        assert times[j - 1] <= times[j - 1 + 1];
      }
    }
  }

  /** The first tick at or after a moment comes at most one gap late. */
  lemma {:induction false} FirstTickAfter(times: seq<int>, start: int, gap: int, from: nat, moment: int, n: nat)
    returns (k: nat)
    requires Regular(times, start, gap) && from <= n < |times| && times[n] >= moment && start <= moment
    requires from > 0 ==> times[from - 1] < moment
    ensures from <= k <= n && moment <= times[k] <= moment + gap
    ensures forall i :: from <= i < k ==> times[i] < moment
    decreases n - from
  {
    if times[from] >= moment {
      k := from;
      if from > 0 {
        assert times[from - 1] <= times[from - 1 + 1] <= times[from - 1] + gap;
      }
    } else {
      k := FirstTickAfter(times, start, gap, from + 1, moment, n);
    }
  }

  /** While no probe is due nothing changes. */
  lemma {:induction false} QuietBeats(cfg: Config, p: Pulse, times: seq<int>, k: nat)
    requires k <= |times| && (p.waiting || forall i :: 0 <= i < k ==> times[i] - p.activeAt < cfg.idleTimeout)
    ensures Beats(cfg, p, times[..k]) == p
  {
    if k > 0 {
      QuietBeats(cfg, p, times, k - 1);
      assert times[..k][..k - 1] == times[..k - 1];
    }
  }

  lemma {:induction false} WaitingBeats(cfg: Config, p: Pulse, times: seq<int>, j: nat, k: nat)
    requires j <= k <= |times| && Beats(cfg, p, times[..j]).waiting
    ensures Beats(cfg, p, times[..k]) == Beats(cfg, p, times[..j])
    decreases k
  {
    if j < k {
      WaitingBeats(cfg, p, times, j, k - 1);
      assert times[..k][..k - 1] == times[..k - 1];
    }
  }

  /** A silent client is overdue at some tick no later than its last activity plus the idle timeout, the
      ping timeout and two tick gaps. */
  lemma SilenceIsOverdue(cfg: Config, p: Pulse, times: seq<int>, gap: int) returns (k: nat)
    requires cfg.idleTimeout > 0 && cfg.pingTimeout > 0 && gap >= 0
    requires p.waiting ==> p.pingAt <= p.activeAt
    requires Regular(times, p.activeAt, gap)
    requires times != [] && times[|times| - 1] >= Deadline(cfg, p.activeAt, gap)
    ensures k < |times| && times[k] <= Deadline(cfg, p.activeAt, gap)
    ensures Overdue(cfg, Beats(cfg, p, times[..k]), times[k])
  {
    var last := |times| - 1;
    if p.waiting {
      k := FirstTickAfter(times, p.activeAt, gap, 0, p.activeAt + cfg.pingTimeout, last);
      QuietBeats(cfg, p, times, k);
    } else {
      var j := FirstTickAfter(times, p.activeAt, gap, 0, p.activeAt + cfg.idleTimeout, last);
      QuietBeats(cfg, p, times, j);
      assert times[..j + 1][..j] == times[..j];
      var q := Beats(cfg, p, times[..j + 1]);
      assert q == Pulse(true, times[j], p.activeAt);
      k := FirstTickAfter(times, p.activeAt, gap, j + 1, times[j] + cfg.pingTimeout, last);
      WaitingBeats(cfg, p, times, j + 1, k);
    }
  }

  /** The times of the ticks among some steps. */
  function TickTimes(steps: seq<Step>): seq<int> {
    if steps == [] then []
    else
      var front, last := TickTimes(steps[..|steps| - 1]), steps[|steps| - 1];
      if last.Tick? then front + [last.now] else front
  }

  /** From step `i` on the client stays connected and sends nothing. */
  ghost predicate Silent(cfg: Config, steps: seq<Step>, i: nat, fd: Fd)
    requires Legal(cfg, steps)
  {
    && i <= |steps|
    && (forall k :: i <= k < |steps| ==> !Speaks(steps[k], fd))
    && (forall k :: i <= k <= |steps| ==> fd in Before(cfg, steps, k).clients)
  }

  lemma QuietStep(cfg: Config, a: App, step: Step, fd: Fd)
    requires Enabled(a, step) && fd in a.clients && fd in Apply(cfg, a, step).clients && !Speaks(step, fd)
    requires a.clients[fd].registered && cfg.idleTimeout > 0
    ensures var c, d := a.clients[fd], Apply(cfg, a, step).clients[fd];
            && d.registered
            && PulseOf(d) == (if step.Tick? then Beat(cfg, PulseOf(c), step.now) else PulseOf(c))
            && (step.Tick? ==> (Judge(cfg, c, step.now).PongExpired? <==> Overdue(cfg, PulseOf(c), step.now)))
  {
    hide LineHandled, TickRun, Parse, Answers, Token;
    match step {
      case Connect(_, _, _) =>
      case Line(_, _, _, _) => LineRecords(cfg, a, step);
      case Tick(now, order, stages) =>
        TickRecords(cfg, a, now, order, stages, fd);
        assert order[..|stages|] == order;
      case Lose(alive) => SurvivorsKeepRecords(a, alive);
    }
  }

  lemma {:induction false} SilentPulse(cfg: Config, steps: seq<Step>, i: nat, j: nat, fd: Fd)
    requires Legal(cfg, steps) && Silent(cfg, steps, i, fd) && i <= j <= |steps| && cfg.idleTimeout > 0
    requires Before(cfg, steps, i).clients[fd].registered
    ensures Before(cfg, steps, j).clients[fd].registered
    ensures PulseOf(Before(cfg, steps, j).clients[fd]) ==
            Beats(cfg, PulseOf(Before(cfg, steps, i).clients[fd]), TickTimes(steps[i..j]))
    decreases j
  {
    hide Before, Beat, Enabled, Apply, Speaks;
    if i < j {
      SilentPulse(cfg, steps, i, j - 1, fd);
      BeforeSteps(cfg, steps, j - 1);
      QuietStep(cfg, Before(cfg, steps, j - 1), steps[j - 1], fd);
      assert steps[i..j][..j - i - 1] == steps[i..j - 1] && steps[i..j][j - i - 1] == steps[j - 1];
      if steps[j - 1].Tick? {
        var front := TickTimes(steps[i..j - 1]);
        assert (front + [steps[j - 1].now])[..|front|] == front;
      }
    }
  }

  /** Where the k-th tick among some steps is. */
  lemma {:induction false} FindTick(steps: seq<Step>, k: nat) returns (at: nat)
    requires k < |TickTimes(steps)|
    ensures at < |steps| && steps[at].Tick? && steps[at].now == TickTimes(steps)[k]
    ensures TickTimes(steps[..at]) == TickTimes(steps)[..k]
  {
    var n := |steps| - 1;
    var front := steps[..n];
    if k < |TickTimes(front)| {
      at := FindTick(front, k);
      assert front[..at] == steps[..at];
    } else {
      at := n;
    }
  }

  lemma OverdueInRun(cfg: Config, steps: seq<Step>, i: nat, fd: Fd, gap: int)
    requires Legal(cfg, steps) && Silent(cfg, steps, i, fd)
    requires cfg.idleTimeout > 0 && cfg.pingTimeout > 0 && gap >= 0
    requires var c := Before(cfg, steps, i).clients[fd];
             && c.registered && (c.awaitingPong ==> c.lastPingAt <= c.lastActivityAt)
             && Regular(TickTimes(steps[i..]), c.lastActivityAt, gap)
             && Reaches(TickTimes(steps[i..]), Deadline(cfg, c.lastActivityAt, gap))
    ensures exists k :: i <= k < |steps| &&
              ExpiredAt(cfg, steps, k, fd, Deadline(cfg, Before(cfg, steps, i).clients[fd].lastActivityAt, gap))
  {
    hide Before, Beats, Regular, Judge, Enabled, Apply, Speaks;
    var c, times := Before(cfg, steps, i).clients[fd], TickTimes(steps[i..]);
    var t := SilenceIsOverdue(cfg, PulseOf(c), times, gap);
    var at := FindTick(steps[i..], t);
    var k := i + at;
    SilentPulse(cfg, steps, i, k, fd);
    assert steps[i..][..at] == steps[i..k];
    BeforeSteps(cfg, steps, k);
    QuietStep(cfg, Before(cfg, steps, k), steps[k], fd);
    assert ExpiredAt(cfg, steps, k, fd, Deadline(cfg, c.lastActivityAt, gap));
  }

  predicate Reaches(times: seq<int>, moment: int) {
    times != [] && times[|times| - 1] >= moment
  }

  /** Step k is a tick, no later than `deadline`, that finds the client expired. */
  ghost predicate ExpiredAt(cfg: Config, steps: seq<Step>, k: nat, fd: Fd, deadline: int)
    requires Legal(cfg, steps)
  {
    && k < |steps| && steps[k].Tick? && steps[k].now <= deadline
    && fd in Before(cfg, steps, k).clients && Expires(cfg, Before(cfg, steps, k).clients[fd], steps[k].now)
  }

  lemma {:induction false} PingsArePast(cfg: Config, steps: seq<Step>, fd: Fd)
    requires Legal(cfg, steps) && fd in After(cfg, steps).clients && After(cfg, steps).clients[fd].awaitingPong
    ensures After(cfg, steps).clients[fd].lastPingAt <= Clock(steps)
  {
    hide LineHandled, TickRun, Parse, Answers, Judge, Token;
    if steps != [] {
      var front, step := steps[..|steps| - 1], steps[|steps| - 1];
      var a := After(cfg, front);
      if step.Line? {
        LineRecords(cfg, a, step);
      } else if step.Tick? {
        TickRecords(cfg, a, step.now, step.order, step.stages, fd);
        assert step.order[..|step.stages|] == step.order;
      }
      if fd in a.clients && a.clients[fd].awaitingPong {
        PingsArePast(cfg, front, fd);
      }
    }
  }

  /** A tick at step k, after step `said`, finds the client expired in time. */
  ghost predicate ExpiredInTime(cfg: Config, steps: seq<Step>, said: nat, k: nat, fd: Fd, gap: int)
    requires Legal(cfg, steps) && said < |steps| && Speaks(steps[said], fd)
  {
    said < k && ExpiredAt(cfg, steps, k, fd, Deadline(cfg, steps[said].now, gap))
  }

  /** In any run, a registered client whose last line was step `said`, and that stays connected while ticks
      keep coming at most `gap` apart, is found expired by a tick no later than the time of that line plus
      the idle timeout, the ping timeout and two gaps. (A tick that finds a client expired leaves it gone or
      closing: `Relaying.Relay.OnTick`.) */
  lemma SilentClientsExpire(cfg: Config, steps: seq<Step>, said: nat, fd: Fd, gap: int)
    requires Legal(cfg, steps) && said < |steps| && Speaks(steps[said], fd) && Silent(cfg, steps, said + 1, fd)
    requires cfg.idleTimeout > 0 && cfg.pingTimeout > 0 && gap >= 0
    requires Before(cfg, steps, said + 1).clients[fd].registered
    requires Regular(TickTimes(steps[said + 1..]), steps[said].now, gap)
    requires Reaches(TickTimes(steps[said + 1..]), Deadline(cfg, steps[said].now, gap))
    ensures exists k: nat :: ExpiredInTime(cfg, steps, said, k, fd, gap)
  {
    hide Regular, Judge, Parse, LineHandled, Answers, Reaches, TickTimes, ExpiredAt;
    var i := said + 1;
    LegalPrefix(cfg, steps, i);
    BeforeSteps(cfg, steps, said);
    LineRecords(cfg, Before(cfg, steps, said), steps[said]);
    assert steps[..i][|steps[..i]| - 1] == steps[said];
    if Before(cfg, steps, i).clients[fd].awaitingPong {
      PingsArePast(cfg, steps[..i], fd);
    }
    OverdueInRun(cfg, steps, i, fd, gap);
    var deadline := Deadline(cfg, Before(cfg, steps, i).clients[fd].lastActivityAt, gap);
    var k :| i <= k < |steps| && ExpiredAt(cfg, steps, k, fd, deadline);
    assert ExpiredInTime(cfg, steps, said, k, fd, gap);
  }

  // ----- Registration in time -----

  lemma OnwardStep(cfg: Config, a: App, step: Step, fd: Fd)
    requires Enabled(a, step) && fd in a.clients && fd in Apply(cfg, a, step).clients
    ensures Onward(a.clients[fd], Apply(cfg, a, step).clients[fd])
  {
    hide LineHandled, TickRun, Parse, Answers, Token, Judge;
    match step {
      case Connect(_, _, _) =>
      case Line(_, _, _, _) => LineRecords(cfg, a, step);
      case Tick(now, order, stages) =>
        TickRecords(cfg, a, now, order, stages, fd);
      case Lose(alive) => SurvivorsKeepRecords(a, alive);
    }
  }

  /** The client that connected at step `entered` is still there at step `until`. */
  ghost predicate Stays(cfg: Config, steps: seq<Step>, entered: nat, until: nat, fd: Fd)
    requires Legal(cfg, steps)
  {
    && entered < until <= |steps| && steps[entered].Connect? && steps[entered].fd == fd
    && forall k :: entered < k <= until ==> fd in Before(cfg, steps, k).clients
  }

  /** While a connection lasts its record remembers when it was entered. */
  lemma {:induction false} OpeningIsRemembered(cfg: Config, steps: seq<Step>, entered: nat, until: nat, fd: Fd)
    requires Legal(cfg, steps) && Stays(cfg, steps, entered, until, fd)
    ensures Before(cfg, steps, until).clients[fd].connectedAt == steps[entered].now
    ensures forall k :: entered < k <= until && Before(cfg, steps, k).clients[fd].registered ==>
              Before(cfg, steps, until).clients[fd].registered
    decreases until
  {
    hide Before, Enabled, Apply, LineHandled, TickRun;
    BeforeSteps(cfg, steps, until - 1);
    if until == entered + 1 {
      OpeningIsNoted(cfg, Before(cfg, steps, entered), steps[entered]);
    } else {
      OpeningIsRemembered(cfg, steps, entered, until - 1, fd);
      OnwardStep(cfg, Before(cfg, steps, until - 1), steps[until - 1], fd);
    }
  }

  lemma OpeningIsNoted(cfg: Config, a: App, step: Step)
    requires step.Connect? && Enabled(a, step)
    ensures var b := Apply(cfg, a, step); step.fd in b.clients && b.clients[step.fd].connectedAt == step.now
  {}

  /** A tick finds a client expired exactly when it is not registered although it has been connected for the
      registration timeout, or when heartbeats are on and its PONG has been due for the ping timeout. */
  lemma ExpiryInRun(cfg: Config, steps: seq<Step>, entered: nat, k: nat, fd: Fd)
    requires Legal(cfg, steps) && Stays(cfg, steps, entered, k, fd) && k < |steps| && steps[k].Tick?
    ensures var c, now := Before(cfg, steps, k).clients[fd], steps[k].now;
            Expires(cfg, c, now) <==>
              || (!c.registered && now >= steps[entered].now + cfg.registrationTimeout)
              || (cfg.idleTimeout > 0 && c.awaitingPong && now >= c.lastPingAt + cfg.pingTimeout)
  {
    hide Before;
    OpeningIsRemembered(cfg, steps, entered, k, fd);
  }

  /** A tick at or after a moment, at most one gap late. */
  lemma TickInTime(steps: seq<Step>, i: nat, start: int, gap: int, moment: int) returns (k: nat)
    requires i <= |steps| && start <= moment && Regular(TickTimes(steps[i..]), start, gap)
    requires Reaches(TickTimes(steps[i..]), moment)
    ensures i <= k < |steps| && steps[k].Tick? && moment <= steps[k].now <= moment + gap
  {
    hide Regular;
    var times := TickTimes(steps[i..]);
    var t := FirstTickAfter(times, start, gap, 0, moment, |times| - 1);
    var at := FindTick(steps[i..], t);
    k := i + at;
  }

  /** In any run, a client that stays connected without registering, while ticks keep coming at most `gap` apart,
      is found expired by a tick no later than its entry plus the registration timeout and one gap. */
  lemma LateClientsExpire(cfg: Config, steps: seq<Step>, entered: nat, fd: Fd, gap: int)
    requires Legal(cfg, steps) && Stays(cfg, steps, entered, |steps|, fd)
    requires cfg.registrationTimeout >= 0 && gap >= 0 && !Before(cfg, steps, |steps|).clients[fd].registered
    requires Regular(TickTimes(steps[entered + 1..]), steps[entered].now, gap)
    requires Reaches(TickTimes(steps[entered + 1..]), steps[entered].now + cfg.registrationTimeout)
    ensures exists k: nat :: LateAt(cfg, steps, entered, k, fd, gap)
  {
    hide Before, Legal, Regular, Reaches, Judge, Expires, TickTimes;
    var now := steps[entered].now;
    var k := TickInTime(steps, entered + 1, now, gap, now + cfg.registrationTimeout);
    assert Stays(cfg, steps, entered, k, fd);
    ExpiryInRun(cfg, steps, entered, k, fd);
    OpeningIsRemembered(cfg, steps, entered, |steps|, fd);
    assert LateAt(cfg, steps, entered, k, fd, gap);
  }

  /** A tick at step k, after step `entered`, finds the client expired in time. */
  ghost predicate LateAt(cfg: Config, steps: seq<Step>, entered: nat, k: nat, fd: Fd, gap: int)
    requires Legal(cfg, steps) && entered < |steps| && !steps[entered].Lose?
  {
    entered < k && ExpiredAt(cfg, steps, k, fd, steps[entered].now + cfg.registrationTimeout + gap)
  }

  // ----- Command rate -----

  /** The window after recording commands at these times. */
  function WindowAfter(times: seq<int>, width: int): seq<int> {
    if times == [] then []
    else PopOld(WindowAfter(times[..|times| - 1], width), times[|times| - 1], width) + [times[|times| - 1]]
  }

  predicate Sorted(times: seq<int>) {
    forall i, j :: 0 <= i < j < |times| ==> times[i] <= times[j]
  }

  /** The commands of a history less than `width` before `now`. */
  function Recent(times: seq<int>, now: int, width: int): seq<int> {
    if times == [] then []
    else
      var rest, last := Recent(times[..|times| - 1], now, width), times[|times| - 1];
      if now - last < width then rest + [last] else rest
  }

  lemma {:induction false} RecentIsSuffix(times: seq<int>, now: int, width: int) returns (i: nat)
    requires Sorted(times)
    ensures i <= |times| && Recent(times, now, width) == times[i..]
    ensures forall k :: 0 <= k < |times| ==> (now - times[k] < width <==> i <= k)
  {
    if times == [] {
      i := 0;
    } else {
      var n := |times| - 1;
      i := RecentIsSuffix(times[..n], now, width);
      if now - times[n] < width {
        assert times[i..] == times[..n][i..] + [times[n]];
      } else {
        assert forall k :: 0 <= k < n ==> times[k] <= times[n];
        i := n + 1;
      }
    }
  }

  lemma {:induction false} PopOldOnSuffix(times: seq<int>, i: nat, now: int, width: int, j: nat)
    requires Sorted(times) && i <= j <= |times|
    requires forall k :: 0 <= k < |times| ==> (now - times[k] < width <==> j <= k)
    ensures PopOld(times[i..], now, width) == times[j..]
    decreases j - i
  {
    if i < j {
      assert times[i..][1..] == times[i + 1..];
      PopOldOnSuffix(times, i + 1, now, width, j);
    }
  }

  /** The window kept by popping from the front equals the filter of the whole history to the commands less
      than the window's width ago, whenever the clock does not run backwards. */
  lemma {:induction false} WindowIsRecent(times: seq<int>, width: int)
    requires Sorted(times) && width > 0
    ensures times != [] ==> WindowAfter(times, width) == Recent(times, times[|times| - 1], width)
  {
    if |times| >= 1 {
      var n := |times| - 1;
      var front, now := times[..n], times[n];
      WindowIsRecent(front, width);
      var i := 0;
      if n > 0 {
        i := RecentIsSuffix(front, front[n - 1], width);
      }
      assert WindowAfter(front, width) == front[i..];
      var j := RecentIsSuffix(front, now, width);
      assert i <= j by {
        assert j < n ==> front[j] <= front[n - 1] <= now;
      }
      PopOldOnSuffix(front, i, now, width, j);
      assert Recent(times, now, width) == Recent(front, now, width) + [now];
    }
  }

  /** When a command is within the limit, no more than the limit of commands, itself included, were given
      less than a window's width before it. */
  lemma WithinLimitIsSparse(times: seq<int>, width: int, limit: nat, i: nat)
    requires Sorted(times) && width > 0 && i < |times|
    requires |WindowAfter(times, width)| <= limit && times[|times| - 1] - times[i] < width
    ensures |times| - i <= limit
  {
    WindowIsRecent(times, width);
    var j := RecentIsSuffix(times, times[|times| - 1], width);
  }

  /** The positions of the commands that were within the limit when given. */
  function Accepted(times: seq<int>, width: int, limit: nat): (positions: seq<nat>)
    ensures forall i :: 0 <= i < |positions| ==> positions[i] < |times|
    ensures forall i, j :: 0 <= i < j < |positions| ==> positions[i] < positions[j]
  {
    if times == [] then []
    else
      var front := Accepted(times[..|times| - 1], width, limit);
      if |WindowAfter(times, width)| <= limit then front + [|times| - 1] else front
  }

  lemma {:induction false} AcceptedWithinLimit(times: seq<int>, width: int, limit: nat, i: nat)
    requires i < |Accepted(times, width, limit)|
    ensures |WindowAfter(times[..Accepted(times, width, limit)[i] + 1], width)| <= limit
  {
    var n := |times| - 1;
    var front := Accepted(times[..n], width, limit);
    if i < |front| {
      AcceptedWithinLimit(times[..n], width, limit, i);
      assert times[..n][..front[i] + 1] == times[..front[i] + 1];
    } else {
      assert times[..n + 1] == times;
    }
  }

  lemma {:induction false} PositionsSpread(positions: seq<nat>, i: nat, j: nat)
    requires forall x, y :: 0 <= x < y < |positions| ==> positions[x] < positions[y]
    requires i <= j < |positions|
    ensures j - i <= positions[j] - positions[i]
    decreases j
  {
    if i < j {
      PositionsSpread(positions, i, j - 1);
    }
  }

  /** No trailing window holds more than the limit of accepted commands: any run of accepted commands that
      spans less than the window's width is no longer than the limit. */
  lemma NoWindowIsOverfull(times: seq<int>, width: int, limit: nat, i: nat, j: nat)
    requires Sorted(times) && width > 0 && i <= j < |Accepted(times, width, limit)|
    requires var accepted := Accepted(times, width, limit); times[accepted[j]] - times[accepted[i]] < width
    ensures j - i + 1 <= limit
  {
    var accepted := Accepted(times, width, limit);
    PositionsSpread(accepted, i, j);
    var first, last := accepted[i], accepted[j];
    AcceptedWithinLimit(times, width, limit, j);
    var upTo := times[..last + 1];
    WithinLimitIsSparse(upTo, width, limit, first);
  }

  /** The times at which a client gave commands since it connected. */
  ghost function CommandTimes(steps: seq<Step>, fd: Fd): seq<int> {
    if steps == [] then []
    else
      var front, last := steps[..|steps| - 1], steps[|steps| - 1];
      if last.Connect? && last.fd == fd then []
      else if IsCommand(last, fd) then CommandTimes(front, fd) + [last.now]
      else CommandTimes(front, fd)
  }

  lemma {:induction false} CommandTimesSorted(cfg: Config, steps: seq<Step>, fd: Fd)
    requires Legal(cfg, steps)
    ensures Sorted(CommandTimes(steps, fd))
    ensures forall i :: 0 <= i < |CommandTimes(steps, fd)| ==> CommandTimes(steps, fd)[i] <= Clock(steps)
  {
    hide IsCommand, Enabled;
    if steps != [] {
      CommandTimesSorted(cfg, steps[..|steps| - 1], fd);
      CommandsAreLines(steps[|steps| - 1], fd);
    }
  }

  lemma CommandsAreLines(step: Step, fd: Fd)
    ensures IsCommand(step, fd) ==> step.Line?
  {}

  /** In any run the window of a client is the one its commands since it connected call for. */
  lemma {:induction false} RunWindow(cfg: Config, steps: seq<Step>, fd: Fd)
    requires Legal(cfg, steps) && fd in After(cfg, steps).clients
    ensures After(cfg, steps).clients[fd].window == WindowAfter(CommandTimes(steps, fd), cfg.rateLimitWindow)
  {
    hide LineHandled, TickRun, Parse, Answers, Judge, Token, PopOld;
    if steps != [] {
      var front, step := steps[..|steps| - 1], steps[|steps| - 1];
      var a := After(cfg, front);
      if step.Line? {
        LineRecords(cfg, a, step);
      } else if step.Tick? {
        TickRecords(cfg, a, step.now, step.order, step.stages, fd);
        assert step.order[..|step.stages|] == step.order;
      }
      if fd in a.clients {
        RunWindow(cfg, front, fd);
        var before := CommandTimes(front, fd);
        assert (before + [Clock(steps)])[..|before|] == before;
      }
    }
  }

  /** Step k is a command of `fd` that the rate limiter lets through. */
  ghost predicate AcceptedAt(cfg: Config, steps: seq<Step>, fd: Fd, k: nat)
    requires Legal(cfg, steps)
  {
    && k < |steps| && IsCommand(steps[k], fd) && fd in Before(cfg, steps, k).clients
    && WithinRate(cfg, Begun(cfg, Before(cfg, steps, k), steps[k]).clients[fd])
  }

  /** How many commands of `fd` among the steps from i up to, but not including, j were let through. */
  ghost function AcceptedCount(cfg: Config, steps: seq<Step>, fd: Fd, i: nat, j: nat): nat
    requires Legal(cfg, steps)
  {
    if j <= i then 0 else AcceptedCount(cfg, steps, fd, i, j - 1) + if AcceptedAt(cfg, steps, fd, j - 1) then 1 else 0
  }

  /** The limiter's decision at a step of a run is about the commands since the client connected. */
  lemma AcceptedByWindow(cfg: Config, steps: seq<Step>, fd: Fd, k: nat)
    requires Legal(cfg, steps) && k < |steps| && IsCommand(steps[k], fd)
    ensures AcceptedAt(cfg, steps, fd, k) <==>
            cfg.rateLimitCount == 0 ||
            |WindowAfter(CommandTimes(steps[..k + 1], fd), cfg.rateLimitWindow)| <= cfg.rateLimitCount
    ensures CommandTimes(steps[..k + 1], fd) == CommandTimes(steps[..k], fd) + [steps[k].now]
  {
    hide Parse, PopOld, LineMatches;
    BeforeSteps(cfg, steps, k);
    LegalPrefix(cfg, steps, k);
    RunWindow(cfg, steps[..k], fd);
    assert steps[..k + 1][..k] == steps[..k];
    var times, now := CommandTimes(steps[..k], fd), steps[k].now;
    assert CommandTimes(steps[..k + 1], fd) == times + [now];
    assert (times + [now])[..|times|] == times;
  }

  /** On one connection, commands only add to the history, one each. */
  lemma {:induction false} CountIsBounded(cfg: Config, steps: seq<Step>, fd: Fd, i: nat, j: nat)
    requires Legal(cfg, steps) && i <= j <= |steps|
    requires forall k :: i <= k <= j ==> fd in Before(cfg, steps, k).clients
    ensures CommandTimes(steps[..i], fd) <= CommandTimes(steps[..j], fd)
    ensures AcceptedCount(cfg, steps, fd, i, j) <= |CommandTimes(steps[..j], fd)| - |CommandTimes(steps[..i], fd)|
    decreases j
  {
    hide IsCommand, Before, Apply, WithinRate;
    if i < j {
      CountIsBounded(cfg, steps, fd, i, j - 1);
      BeforeSteps(cfg, steps, j - 1);
      assert steps[..j][..j - 1] == steps[..j - 1];
    }
  }

  /** In any run with a limit, the commands of one connection let through between two of them that lie less
      than the window apart, both included, are at most the limit. */
  lemma AcceptedCommandsAreSparse(cfg: Config, steps: seq<Step>, fd: Fd, i: nat, j: nat)
    requires Legal(cfg, steps) && cfg.rateLimitCount > 0 && cfg.rateLimitWindow > 0
    requires i <= j && AcceptedAt(cfg, steps, fd, i) && AcceptedAt(cfg, steps, fd, j)
    requires forall k :: i <= k <= j ==> fd in Before(cfg, steps, k).clients
    requires steps[j].now - steps[i].now < cfg.rateLimitWindow
    ensures AcceptedCount(cfg, steps, fd, i, j + 1) <= cfg.rateLimitCount
  {
    hide IsCommand, Before, WithinRate, WindowAfter, CommandTimes;
    var times := CommandTimes(steps[..j + 1], fd);
    var first := |CommandTimes(steps[..i], fd)|;
    CountIsBounded(cfg, steps, fd, i, j);
    AcceptedByWindow(cfg, steps, fd, i);
    AcceptedByWindow(cfg, steps, fd, j);
    if i < j {
      CountIsBounded(cfg, steps, fd, i + 1, j);
    }
    CommandsAreLines(steps[i], fd);
    CommandsAreLines(steps[j], fd);
    assert times[first] == steps[i].now && times[|times| - 1] == steps[j].now;
    LegalPrefix(cfg, steps, j + 1);
    CommandTimesSorted(cfg, steps[..j + 1], fd);
    WithinLimitIsSparse(times, cfg.rateLimitWindow, cfg.rateLimitCount, first);
  }
}
