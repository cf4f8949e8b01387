/** What the event loop is given and what serving it does: the history of steps behind a state, ticks, lines
    read from a socket, output written to it, sockets accepted, and batches of all these. */
module Events {
  import opened Text
  import opened Framing
  import opened Transport
  import opened Messages
  import opened State
  import opened Worlds
  import opened Commands
  import opened CommandLaws
  import opened Runs
  import opened EventManagers
  import opened Replies
  import opened Services

  /** A readiness event of a client socket, with the description of its error, if it has a code, and with what
      its reads and writes will meet. */
  datatype Event = Event(
    fd: Fd, readable: bool, writable: bool, error: bool, fault: Option<Words>, hangup: bool,
    received: seq<RecvOutcome>, sent: seq<SendOutcome>)

  /** A socket handed out by accept, and whether the event manager agrees to watch it. */
  datatype Arrival = Arrival(fd: Fd, host: Address, watched: bool)

  datatype Ready = Acceptable(arrivals: seq<Arrival>) | Client(event: Event)

  ghost predicate Forward(clock: nat -> int) {
    forall i: nat, j: nat :: i <= j ==> clock(i) <= clock(j)
  }

  /** A tick found the client expired, and it has been connected ever since. */
  ghost predicate Overstays(cfg: Config, steps: seq<Step>, k: nat, fd: Fd)
    requires Legal(cfg, steps)
  {
    && k < |steps| && steps[k].Tick?
    && (forall j :: k <= j <= |steps| ==> fd in Before(cfg, steps, j).clients)
    && Expires(cfg, Before(cfg, steps, k).clients[fd], steps[k].now)
  }

  /** Every client that overstays has been asked to close. */
  ghost predicate Dismissed(cfg: Config, steps: seq<Step>, links: Links)
    requires Legal(cfg, steps)
  {
    forall k: nat, fd :: Overstays(cfg, steps, k, fd) && fd in links ==> links[fd].closeRequested
  }

  /** No close request of a client was withdrawn. */
  predicate Persists(a: App, before: Links, after: Links) {
    forall f :: f in after && f in a.clients ==> f in before && (before[f].closeRequested ==> after[f].closeRequested)
  }

  lemma LastingPersists(a: App, before: Links, after: Links)
    requires Lasting(before, after)
    ensures Persists(a, before, after)
  {}

  /** A step leaves those that overstay asked to close: the old ones still are, and a tick sees to the new. */
  lemma DismissedStep(cfg: Config, steps: seq<Step>, step: Step, links: Links, links': Links)
    requires Legal(cfg, steps) && Legal(cfg, steps + [step]) && Dismissed(cfg, steps, links)
    requires Persists(After(cfg, steps), links, links')
    requires step.Tick? ==>
               var a := After(cfg, steps);
               forall f :: f in links' && f in a.clients && Expires(cfg, a.clients[f], step.now) ==>
                   links'[f].closeRequested
    ensures Dismissed(cfg, steps + [step], links')
  {
    hide Expires, Before, After, Legal;
    var longer, n := steps + [step], |steps|;
    assert longer[..n] == steps;
    forall k: nat, fd | Overstays(cfg, longer, k, fd) && fd in links'
      ensures links'[fd].closeRequested
    {
      BeforeInPrefix(cfg, longer, n, n);
      BeforeSteps(cfg, longer, n);
      AllBefore(cfg, steps);
      assert fd in Before(cfg, longer, n).clients;
      if k < n {
        OverstaysInPrefix(cfg, longer, n, k, fd);
      }
    }
  }

  lemma AllBefore(cfg: Config, steps: seq<Step>)
    requires Legal(cfg, steps)
    ensures Before(cfg, steps, |steps|) == After(cfg, steps)
  {
    assert steps[..|steps|] == steps;
  }

  lemma OverstaysInPrefix(cfg: Config, steps: seq<Step>, n: nat, k: nat, fd: Fd)
    requires Legal(cfg, steps) && k < n <= |steps| && Legal(cfg, steps[..n]) && Overstays(cfg, steps, k, fd)
    ensures Overstays(cfg, steps[..n], k, fd)
  {
    hide Expires, Before, Legal;
    forall j | k <= j <= n
      ensures Before(cfg, steps[..n], j) == Before(cfg, steps, j)
    {
      BeforeInPrefix(cfg, steps, n, j);
    }
  }

  /** The application state is what its history yields, those that overstay have been asked to close, and the
      clock has moved on. */
  ghost predicate Traced(cfg: Config, history: seq<Step>, a: App, links: Links, clock: nat -> int, readings: nat) {
    && Forward(clock) && Legal(cfg, history) && a == After(cfg, history) && Clock(history) <= clock(readings)
    && Dismissed(cfg, history, links)
  }

  lemma TracedStep(cfg: Config, history: seq<Step>, a: App, links: Links, clock: nat -> int, readings: nat,
                   step: Step, links': Links)
    requires Traced(cfg, history, a, links, clock, readings) && Enabled(a, step)
    requires !step.Lose? && step.now == clock(readings) && Persists(a, links, links')
    requires step.Tick? ==>
               forall f :: f in links' && f in a.clients && Expires(cfg, a.clients[f], step.now) ==>
                   links'[f].closeRequested
    ensures Traced(cfg, history + [step], Apply(cfg, a, step), links', clock, readings + 1)
  {
    hide Apply, Enabled, Dismissed, Expires, Persists;
    OneMoreStep(cfg, history, step);
    DismissedStep(cfg, history, step, links, links');
  }

  lemma TracedLoss(cfg: Config, history: seq<Step>, a: App, links: Links, clock: nat -> int, readings: nat,
                   alive: set<Fd>, links': Links)
    requires Traced(cfg, history, a, links, clock, readings) && Lasting(links, links')
    ensures Traced(cfg, history + [Lose(alive)], Survive(a, alive), links', clock, readings)
  {
    hide Dismissed, Lasting, Persists;
    OneMoreStep(cfg, history, Lose(alive));
    LastingPersists(a, links, links');
    DismissedStep(cfg, history, Lose(alive), links, links');
  }

  /** Without a step, close requests only add up. */
  lemma TracedStill(cfg: Config, history: seq<Step>, a: App, links: Links, clock: nat -> int, readings: nat,
                    links': Links)
    requires Traced(cfg, history, a, links, clock, readings) && Lasting(links, links')
    ensures Traced(cfg, history, a, links', clock, readings)
  {
    hide Overstays, Legal, After;
  }

  lemma TracedTick(cfg: Config, history: seq<Step>, a: App, links: Links, clock: nat -> int, readings: nat,
                   order: seq<Fd>, stages: seq<set<Fd>>, links': Links)
    requires Traced(cfg, history, a, links, clock, readings) && |stages| == |order|
    requires Distinct(order) && forall f :: f in order <==> f in a.clients
    requires Lasting(links, links')
    requires forall f :: f in a.clients && Expires(cfg, a.clients[f], clock(readings)) ==> Ending(links', f)
    ensures var now := clock(readings);
            Traced(cfg, history + [Tick(now, order, stages)], TickRun(cfg, a, now, order, stages), links', clock,
                   readings + 1)
  {
    hide Traced, TickRun, Expires, Persists;
    LastingPersists(a, links, links');
    TracedStep(cfg, history, a, links, clock, readings, Tick(clock(readings), order, stages), links');
  }

  lemma TickStarts(cfg: Config, a: App, now: int, order: seq<Fd>)
    ensures TickRun(cfg, a, now, order, []) == a
  {}

  lemma TickStep(cfg: Config, a: App, now: int, order: seq<Fd>, stages: seq<set<Fd>>, alive: set<Fd>)
    requires |stages| < |order|
    ensures TickRun(cfg, a, now, order, stages + [alive]) ==
            Survive(Maintained(cfg, TickRun(cfg, a, now, order, stages), order[|stages|], now), alive)
  {
    hide Survive, Maintained;
    assert (stages + [alive])[..|stages|] == stages;
  }

  /** The clients not yet visited have the records they had when the tick began. */
  ghost predicate Unvisited(before: Clients, now: Clients, fds: seq<Fd>, i: nat) {
    forall k :: i <= k < |fds| && fds[k] in now ==> fds[k] in before && now[fds[k]] == before[fds[k]]
  }

  /** The clients visited that had overstayed are gone or closing. */
  ghost predicate SeenTo(cfg: Config, before: Clients, links: Links, fds: seq<Fd>, i: nat, now: int) {
    forall k :: 0 <= k < i && k < |fds| && fds[k] in before && Expires(cfg, before[fds[k]], now) ==>
        Ending(links, fds[k])
  }

  lemma VisitsBegin(cfg: Config, clients: Clients, links: Links, fds: seq<Fd>, now: int)
    requires forall f :: f in fds <==> f in clients
    ensures Unvisited(clients, clients, fds, 0) && SeenTo(cfg, clients, links, fds, 0, now)
  {}

  lemma VisitsEnd(cfg: Config, clients: Clients, links: Links, fds: seq<Fd>, now: int)
    requires SeenTo(cfg, clients, links, fds, |fds|, now) && forall f :: f in fds <==> f in clients
    ensures forall f :: f in clients && Expires(cfg, clients[f], now) ==> Ending(links, f)
  {
    hide Expires;
  }

  lemma VisitedNext(cfg: Config, before: Clients, at: Clients, after: Clients, links: Links, links': Links,
                    fds: seq<Fd>, i: nat, now: int)
    requires i < |fds| && Distinct(fds) && Unvisited(before, at, fds, i) && SeenTo(cfg, before, links, fds, i, now)
    requires forall f :: f in after && f != fds[i] ==> f in at && after[f] == at[f]
    requires Lasting(links, links')
    requires fds[i] in at && Expires(cfg, at[fds[i]], now) ==> Ending(links', fds[i])
    requires fds[i] !in at ==> fds[i] !in links'
    ensures Unvisited(before, after, fds, i + 1) && SeenTo(cfg, before, links', fds, i + 1, now)
  {
    hide Expires;
  }

  ghost function Entered(cfg: Config, w: World, fd: Fd, host: string, link: Link, now: int): World {
    Opened(w, fd, link, Connected(cfg, w.app, fd, host, now))
      .(trace := Trace(w.trace.history + [Connect(fd, host, now)], w.trace.readings + 1))
  }

  /** Entering a connection and its record, seen as one change of the whole state. */
  lemma OpeningIsGood(cfg: Config, w: World, fd: Fd, host: string, clock: nat -> int, w': World)
    requires Good(w) && w.closing == {} && w.log.owed == {} && fd !in w.connections
    requires HasRoom(w.connections, w.limit)
    requires Traced(cfg, w.trace.history, w.app, w.connections, clock, w.trace.readings)
    requires w' == Entered(cfg, w, fd, host, Fresh(cfg.maxLine, cfg.maxPending), clock(w.trace.readings))
    requires IsWord(host)
    ensures Good(w') && w'.closing == {} && w'.loose == w.loose && w'.log.owed == {}
    ensures Traced(cfg, w'.trace.history, w'.app, w'.connections, clock, w'.trace.readings)
  {
    hide Good, Traced, WF, RoomsOk, IndexAgrees, ClientsOk, Connected, OpenedLog, HasRoom;
    var now := clock(w.trace.readings);
    GoodFacts(w);
    ConnectedWF(cfg, w.app, fd, host, now);
    ConnectedAddsOne(cfg, w.app, fd, host, now);
    var b := Connected(cfg, w.app, fd, host, now);
    var link := Fresh(cfg.maxLine, cfg.maxPending);
    OpenedIsGood(w, fd, link, b);
    OpenedLogOwes(w.log, fd);
    TraceIsFree(Opened(w, fd, link, b), w'.trace);
    TracedStep(cfg, w.trace.history, w.app, w.connections, clock, w.trace.readings, Connect(fd, host, now),
               w'.connections);
  }

  // ----- What an event does -----

  /** The steps added are these lines of `fd`, in order, and then only departures. */
  ghost predicate Spoke(before: seq<Step>, after: seq<Step>, fd: Fd, lines: seq<string>) {
    && before <= after && |before| + |lines| <= |after|
    && (forall k :: |before| <= k < |before| + |lines| ==>
          after[k].Line? && after[k].fd == fd && after[k].line == lines[k - |before|])
    && (forall k :: |before| + |lines| <= k < |after| ==> after[k].Lose?)
  }

  lemma SpokeNothing(history: seq<Step>, fd: Fd)
    ensures Spoke(history, history, fd, [])
  {}

  lemma SpokeThenSpoke(before: seq<Step>, middle: seq<Step>, after: seq<Step>, fd: Fd, lines: seq<string>, line: string)
    requires Spoke(before, middle, fd, lines) && |middle| == |before| + |lines| && Spoke(middle, after, fd, [line])
    ensures Spoke(before, after, fd, lines + [line])
  {}

  lemma SpokeThenDeparted(before: seq<Step>, middle: seq<Step>, after: seq<Step>, fd: Fd, lines: seq<string>)
    requires Spoke(before, middle, fd, lines) && Spoke(middle, after, fd, [])
    ensures Spoke(before, after, fd, lines)
  {}

  lemma SpokeOne(history: seq<Step>, step: Step)
    requires step.Line?
    ensures Spoke(history, history + [step], step.fd, [step.line])
  {}

  lemma Departed(history: seq<Step>, fd: Fd, alive: set<Fd>)
    ensures Spoke(history, history + [Lose(alive)], fd, [])
  {}

  lemma TwoDepartures(before: seq<Step>, after: seq<Step>, fd: Fd)
    requires |after| == |before| + 2 && before <= after && after[|before|].Lose? && after[|before| + 1].Lose?
    ensures Spoke(before, after, fd, [])
  {}

  /** These lines of `fd` served one after another, each at the next reading of the clock. */
  ghost predicate LinesServed(cfg: Config, clock: nat -> int, vs: seq<World>, fd: Fd, lines: seq<string>) {
    && |vs| == |lines| + 1
    && forall i :: 0 <= i < |lines| ==> LineServed(cfg, vs[i], fd, lines[i], clock(vs[i].trace.readings), vs[i + 1])
  }

  lemma NoLines(cfg: Config, clock: nat -> int, w: World, fd: Fd)
    ensures LinesServed(cfg, clock, [w], fd, [])
  {}

  lemma LinesMore(cfg: Config, clock: nat -> int, vs: seq<World>, fd: Fd, lines: seq<string>, line: string, w': World)
    requires LinesServed(cfg, clock, vs, fd, lines)
    requires LineServed(cfg, vs[|lines|], fd, line, clock(vs[|lines|].trace.readings), w')
    ensures LinesServed(cfg, clock, vs + [w'], fd, lines + [line])
  {
    hide LineServed;
  }

  /** What one read does: a failed read drops the client for its reason without any line being handled; after
      another, the lines are handled in order until the client is ending, only the first of them if the peer
      has closed its side, and then the client is asked to close. */
  ghost predicate ReadServed(cfg: Config, clock: nat -> int, w: World, script: seq<RecvOutcome>, fd: Fd,
                             vs: seq<World>, w': World)
    requires fd in w.connections && fd in w.app.clients
  {
    var (link, result) := Receive(w.connections[fd], script);
    if result.hasError then GoneFor(w, w', fd, link.closeReason) && Spoke(w.trace.history, w'.trace.history, fd, [])
    else
      && 1 <= |vs| <= |result.lines| + 1 && (result.lines != [] ==> |vs| > 1) && (result.peerClosed ==> |vs| <= 2)
      && Alike(vs[0], w.(connections := w.connections[fd := link])) && vs[0].trace == w.trace
      && LinesServed(cfg, clock, vs, fd, result.lines[..|vs| - 1])
      && Spoke(w.trace.history, w'.trace.history, fd, result.lines[..|vs| - 1])
      && var last := vs[|vs| - 1];
         && (|vs| <= |result.lines| ==> Ending(last.connections, fd))
         && w' == if result.peerClosed && fd in last.connections then Parting(last, fd, PEER_CLOSED) else last
  }

  /** The last thing done for a connection: it goes if it is closing and has no output, or if its interest
      cannot be updated; otherwise nothing changes. */
  ghost predicate Finished(w: World, fd: Fd, w': World)
    requires fd in w.connections && fd in w.app.clients
  {
    var link := w.connections[fd];
    GoneFor(w, w', fd, LeavingReason(link)) || (Alike(w, w') && (link.closeRequested ==> link.WantsWrite()))
  }

  /** After the writing: a hangup drops a client without output. */
  ghost predicate Rested(w: World, fd: Fd, hangup: bool, w': World)
    requires fd in w.connections && fd in w.app.clients
  {
    if hangup && !w.connections[fd].WantsWrite() then GoneFor(w, w', fd, PEER_HANGUP) else Finished(w, fd, w')
  }

  /** The queue handed to the socket: the client is dropped on a failure, and otherwise what was taken is
      on its wire and no longer pending. */
  ghost predicate Flushed(w: World, fd: Fd, script: seq<SendOutcome>, hangup: bool, w': World)
    requires fd in w.connections && fd in w.app.clients
  {
    var link := w.connections[fd];
    && link.Valid() && fd in w.log.delivered
    && var (link', result) := Flush(link, script);
       if result.hasError then GoneFor(w, w', fd, link'.closeReason)
       else Rested(Replaced(w, fd, link', w.log.delivered[fd] + SentBy(link, script)), fd, hangup, w')
  }

  /** The part of an event after its input. */
  ghost predicate RestServed(w: World, e: Event, w': World) {
    if e.fd !in w.connections then Alike(w, w')
    else
      && e.fd in w.app.clients
      && if e.writable && w.connections[e.fd].WantsWrite() then Flushed(w, e.fd, e.sent, e.hangup, w')
         else Rested(w, e.fd, e.hangup, w')
  }

  /** What an event does: nothing for an unknown descriptor; an error drops the client; otherwise input is
      read unless the client is closing, and the rest follows in the state `mid` this leaves. */
  ghost predicate EventServed(cfg: Config, clock: nat -> int, w: World, e: Event, vs: seq<World>, mid: World,
                              w': World) {
    if e.fd !in w.connections then w' == w
    else
      && e.fd in w.app.clients
      && if e.error then
           GoneFor(w, w', e.fd, ReadinessError(e.fault)) && Spoke(w.trace.history, w'.trace.history, e.fd, [])
         else
           && (if e.readable && !w.connections[e.fd].closeRequested then
                 ReadServed(cfg, clock, w, e.received, e.fd, vs, mid)
               else Alike(w, mid) && mid.trace == w.trace)
           && Spoke(mid.trace.history, w'.trace.history, e.fd, []) && RestServed(mid, e, w')
  }

  lemma RestWhenGone(w: World, e: Event, w': World)
    requires e.fd !in w.connections && Alike(w, w')
    ensures RestServed(w, e, w')
  {}

  lemma ReadServedFrom(cfg: Config, clock: nat -> int, w: World, v: World, script: seq<RecvOutcome>, fd: Fd,
                       vs: seq<World>, w': World)
    requires fd in w.connections && fd in w.app.clients && Alike(w, v) && v.trace == w.trace
    requires ReadServed(cfg, clock, w, script, fd, vs, w')
    ensures ReadServed(cfg, clock, v, script, fd, vs, w')
  {
    hide Receive, LinesServed, Spoke, GoneFor;
    var (link, result) := Receive(w.connections[fd], script);
    if result.hasError {
      GoneForSame(w, v, w', w', fd, link.closeReason);
    }
  }

  // ----- Farewells -----

  /** The reason with which a client goes whose last line asked to quit. */
  function Parted(params: seq<string>, peerClosed: bool, hangup: bool): Words {
    if hangup then PEER_HANGUP else if peerClosed then PEER_CLOSED else QuitReason(params)
  }

  /** Nothing is left to write for a connection once the event has written what it can. */
  ghost predicate WritesAll(link: Link, e: Event) {
    link.WantsWrite() ==>
      e.writable && link.Valid() && !Flush(link, e.sent).1.hasError && !Flush(link, e.sent).0.WantsWrite()
  }

  lemma QuitAsksToClose(cfg: Config, w: World, fd: Fd, line: string, now: int, w': World)
    requires LineServed(cfg, w, fd, line, now, w') && Parse(line).Parsed? && Parse(line).message.command == "QUIT"
    requires WithinRate(cfg, CountedIn(cfg, w, fd, now).app.clients[fd]) && fd in w.connections
    ensures w'.log == w.log && w'.app == CountedIn(cfg, w, fd, now).app
    ensures w'.connections == w.connections[fd := w.connections[fd].Closing(QuitReason(Parse(line).message.params))]
  {
    hide Parse, WithinRate, PopOld, Answered, Took, NumericLine;
    var m := Parse(line).message;
    var ws: seq<World> :| MessageServed(cfg, CountedIn(cfg, w, fd, now), fd, m, ws, w');
    assert QuitServed(CountedIn(cfg, w, fd, now), fd, m.params, w');
  }

  /** The record kept for counting commands does not show in a farewell. */
  lemma SameFarewell(cfg: Config, u: World, fd: Fd, now: int, w: World, w': World, reason: Words)
    requires fd in u.app.clients && w.app == CountedIn(cfg, u, fd, now).app && w.log == u.log
    requires GoneFor(w, w', fd, reason)
    ensures GoneFor(u, w', fd, reason)
  {
    hide CoMembers, Format, PopOld, Got;
  }

  /** A closing connection for which everything is written goes for the reason it was closed with. */
  lemma ClosingGoes(w: World, e: Event, w': World)
    requires e.fd in w.connections && RestServed(w, e, w') && w.connections[e.fd].closeRequested
    requires WritesAll(w.connections[e.fd], e)
    ensures e.fd in w.app.clients
    ensures GoneFor(w, w', e.fd, if e.hangup then PEER_HANGUP else w.connections[e.fd].closeReason)
  {
    hide Flush, SentBy, GoneFor;
    var fd, link := e.fd, w.connections[e.fd];
    var reason := if e.hangup then PEER_HANGUP else link.closeReason;
    if link.WantsWrite() {
      var u := Replaced(w, fd, Flush(link, e.sent).0, w.log.delivered[fd] + SentBy(link, e.sent));
      assert GoneFor(u, w', fd, reason);
      GoneForSame(u, w, w', w', fd, reason);
    }
  }

  /** A line QUIT within the rate limit, served while nothing stays pending, ends the connection, and every
      co-member that is neither gone nor closing has had the QUIT of the client with its own parameter, unless the
      peer had closed its side or hung up. */
  lemma QuitIsPassedOn(cfg: Config, clock: nat -> int, w: World, e: Event, vs: seq<World>, mid: World, w': World)
    requires EventServed(cfg, clock, w, e, vs, mid, w') && e.fd in w.connections && !e.error && e.readable
    requires !w.connections[e.fd].closeRequested && !Receive(w.connections[e.fd], e.received).1.hasError
    requires |vs| >= 2 && e.fd in vs[|vs| - 2].connections && e.fd in vs[|vs| - 2].app.clients
    requires e.fd in mid.connections ==> WritesAll(mid.connections[e.fd], e)
    requires |vs| - 2 < |Receive(w.connections[e.fd], e.received).1.lines|
    requires var u, line := vs[|vs| - 2], Receive(w.connections[e.fd], e.received).1.lines[|vs| - 2];
             && Parse(line).Parsed? && Parse(line).message.command == "QUIT"
             && WithinRate(cfg, CountedIn(cfg, u, e.fd, clock(u.trace.readings)).app.clients[e.fd])
    ensures var u, read := vs[|vs| - 2], Receive(w.connections[e.fd], e.received).1;
            var params := Parse(read.lines[|vs| - 2]).message.params;
            GoneFor(u, w', e.fd, Parted(params, read.peerClosed, e.hangup))
  {
    hide Spoke, Parse, WithinRate, PopOld, RestServed, WritesAll, Receive, GoneFor, LineServed, CountedIn, QuitReason;
    var fd, n := e.fd, |vs| - 2;
    var read := Receive(w.connections[fd], e.received).1;
    var u, last, line := vs[n], vs[n + 1], read.lines[n];
    var now := clock(u.trace.readings);
    assert read.lines[..n + 1][n] == line;
    QuitAsksToClose(cfg, u, fd, line, now, last);
    ClosingGoes(mid, e, w');
    SameFarewell(cfg, u, fd, now, mid, w', Parted(Parse(line).message.params, read.peerClosed, e.hangup));
  }

  /** An arrival let in: the client is entered, unless watching it fails at once. */
  ghost predicate LetIn(w: World, arrival: Arrival, now: int, w': World) {
    && w'.accepted == w.accepted + 1
    && w'.trace.history == w.trace.history + [Connect(arrival.fd, arrival.host, now), Lose(w'.app.clients.Keys)]
    && (arrival.fd in w'.connections ==> w'.connections.Keys == w.connections.Keys + {arrival.fd})
  }

  /** What an arrival does: nothing if it is refused, at the limit on connections, for a descriptor in use, or
      when it cannot be watched. */
  ghost predicate ArrivalServed(w: World, arrival: Arrival, now: int, w': World) {
    if (w.limit != 0 && |w.connections| >= w.limit) || arrival.fd in w.connections || !arrival.watched then w' == w
    else LetIn(w, arrival, now, w')
  }

  /** Arrivals served one after another. */
  ghost predicate Admitted(clock: nat -> int, w: World, arrivals: seq<Arrival>, w': World) {
    if arrivals == [] then w' == w
    else
      var last := |arrivals| - 1;
      exists m: World ::
        Admitted(clock, w, arrivals[..last], m) && ArrivalServed(m, arrivals[last], clock(m.trace.readings), w')
  }

  ghost predicate ReadyServed(cfg: Config, clock: nat -> int, w: World, ready: Ready, w': World) {
    match ready
    case Acceptable(arrivals) => Admitted(clock, w, arrivals, w')
    case Client(event) => exists vs: seq<World>, mid: World :: EventServed(cfg, clock, w, event, vs, mid, w')
  }

  /** A batch of readiness served in order, each item in the state the ones before it left. */
  ghost predicate Polled(cfg: Config, clock: nat -> int, w: World, batch: seq<Ready>, w': World) {
    if batch == [] then w' == w
    else
      var last := |batch| - 1;
      exists m: World :: Polled(cfg, clock, w, batch[..last], m) && ReadyServed(cfg, clock, m, batch[last], w')
  }

  predicate NoArrivals(batch: seq<Ready>) {
    forall i :: 0 <= i < |batch| ==> batch[i].Client?
  }

  lemma AdmittedOneMore(clock: nat -> int, w: World, arrivals: seq<Arrival>, i: nat, m: World, w': World)
    requires i < |arrivals| && Admitted(clock, w, arrivals[..i], m)
    requires ArrivalServed(m, arrivals[i], clock(m.trace.readings), w')
    ensures Admitted(clock, w, arrivals[..i + 1], w')
  {
    assert arrivals[..i + 1][..i] == arrivals[..i];
  }

  lemma PolledOneMore(cfg: Config, clock: nat -> int, w: World, batch: seq<Ready>, i: nat, m: World, w': World)
    requires i < |batch| && Polled(cfg, clock, w, batch[..i], m) && ReadyServed(cfg, clock, m, batch[i], w')
    ensures Polled(cfg, clock, w, batch[..i + 1], w')
  {
    hide ReadyServed;
    assert batch[..i + 1][..i] == batch[..i];
  }
}
