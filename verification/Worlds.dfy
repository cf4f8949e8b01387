/** What the relay keeps about its connections, as predicates on values: who the event loop watches, what
    is on each wire, which notices were attempted; and how each elementary change keeps it. */
module Worlds {
  import opened Text
  import opened Framing
  import opened Transport
  import opened Messages
  import opened State
  import opened Runs
  import opened EventManagers

  /** What a line that is sent is; kept in the ghost record of send attempts. */
  datatype Cause = Welcome | Quit(who: Fd) | Rename(who: Fd) | Other

  datatype Attempt = Attempt(to: Fd, cause: Cause)

  /** The text of a line decides what it is: a welcome is a 001, a farewell a QUIT, a rename a NICK. */
  predicate Suits(cause: Cause, line: string) {
    && (cause.Welcome? <==> CommandWord(line) == "001")
    && (cause.Quit? <==> CommandWord(line) == "QUIT")
    && (cause.Rename? <==> CommandWord(line) == "NICK")
  }

  /** A line fit for a queue: one line, recorded as what its text says it is. */
  predicate Proper(line: string, cause: Cause) {
    OneLine(line) && Suits(cause, line)
  }

  /** How many of these lines are welcomes. */
  function Welcomes(lines: seq<string>): nat {
    if lines == [] then 0
    else Welcomes(lines[..|lines| - 1]) + if CommandWord(lines[|lines| - 1]) == "001" then 1 else 0
  }

  function HostMask(c: Client): string {
    c.nick + "!" + (if c.user == "" then "unknown" else c.user) + "@" + if c.host == "" then "localhost" else c.host
  }

  function QuitLine(c: Client, reason: string): string {
    Format(Message(HostMask(c), "QUIT", [reason]))
  }

  type Links = map<Fd, Link>

  /** A connection the event loop will come back to: asked to close only while output is pending, and watched
      for writing exactly while output is pending. */
  ghost predicate Settled(link: Link, interest: Interest) {
    && (link.closeRequested ==> link.WantsWrite())
    && (interest.write <==> link.WantsWrite())
  }

  /** Every connection is watched for reading unless it is closing, and settled unless it is loose. */
  ghost predicate AllSettled(links: Links, interests: Interests, loose: set<Fd>) {
    && interests.Keys == links.Keys
    && forall k :: k in links ==>
         && (!links[k].closeRequested ==> interests[k].read)
         && (k !in loose ==> Settled(links[k], interests[k]))
  }

  /** A connection whose interest has just been recomputed: watched for reading exactly unless it is closing, and
      for writing exactly while output is pending. */
  ghost predicate Attended(links: Links, interests: Interests, fd: Fd) {
    fd in links ==>
      && fd in interests && (interests[fd].read <==> !links[fd].closeRequested)
      && (interests[fd].write <==> links[fd].WantsWrite())
  }

  /** The interest `refreshInterest` computes. */
  function Wanted(link: Link): Interest {
    Interest(!link.closeRequested, link.closeRequested || link.WantsWrite())
  }

  ghost predicate LinksValid(links: Links) {
    forall k :: k in links ==> links[k].Valid() && links[k].Retains()
  }

  /** Octets taken by the socket followed by octets still queued are the accepted lines on the wire. */
  ghost predicate WiresOk(links: Links, delivered: map<Fd, string>, lines: map<Fd, seq<string>>) {
    forall k :: k in links ==>
      && k in delivered && k in lines && links[k].writeOffset <= |links[k].writeBuffer|
      && delivered[k] + links[k].Pending() == WireAll(lines[k])
  }

  /** The same connection with possibly more output queued or a close requested. */
  ghost predicate Grown(before: Link, after: Link) {
    && after == before.(writeBuffer := after.writeBuffer, closeRequested := after.closeRequested,
                        closeReason := after.closeReason)
    && before.writeBuffer <= after.writeBuffer
    && (before.closeRequested ==> after.closeRequested)
  }

  ghost predicate Shrunk(before: Links, after: Links) {
    && after.Keys <= before.Keys
    && forall k :: k in after ==> Grown(before[k], after[k])
  }

  /** Against `before`, the attempts made are QUIT notices of clients that went: at most one for each such
      client and each of its co-members, exactly one if the co-member is still there, none to anybody else. */
  ghost predicate Notices(rooms: Rooms, before: multiset<Attempt>, after: multiset<Attempt>, gone: set<Fd>,
                          left: set<Fd>) {
    forall x: Attempt ::
      if x.cause.Quit? && x.cause.who in gone then
        && before[x] <= after[x] <= before[x] + (if x.to in CoMembers(rooms, x.cause.who) then 1 else 0)
        && (x.to in left && x.to in CoMembers(rooms, x.cause.who) ==> after[x] == before[x] + 1)
      else after[x] == before[x]
  }

  /** Every co-member of `fd` was sent its QUIT exactly once, nobody else was. */
  ghost predicate Farewell(rooms: Rooms, before: multiset<Attempt>, after: multiset<Attempt>, fd: Fd) {
    forall p :: after[Attempt(p, Quit(fd))] == before[Attempt(p, Quit(fd))] + if p in CoMembers(rooms, fd) then 1 else 0
  }

  ghost function Copies(targets: set<Fd>, cause: Cause): multiset<Attempt> {
    multiset(set t | t in targets :: Attempt(t, cause))
  }

  // ----- Elementary changes -----

  lemma QueueKeeps(links: Links, interests: Interests, loose: set<Fd>, delivered: map<Fd, string>,
                   lines: map<Fd, seq<string>>, fd: Fd, line: string)
    requires LinksValid(links) && AllSettled(links, interests, loose) && WiresOk(links, delivered, lines)
    requires fd in links
    ensures var (link, ok) := QueueLine(links[fd], line);
            var links' := links[fd := link];
            && LinksValid(links')
            && AllSettled(links', interests, loose + {fd})
            && WiresOk(links', delivered, if ok then lines[fd := lines[fd] + [line]] else lines)
            && Shrunk(links, links')
            && links'.Keys == links.Keys
  {
    hide QueueLine, Shrunk, LinksValid, AllSettled, WiresOk, WireAll;
    LinkHolds(links, delivered, lines, fd);
    QueueKeepsOne(links[fd], delivered[fd], lines[fd], line);
    var (link, ok) := QueueLine(links[fd], line);
    PutValid(links, fd, link);
    PutSettled(links, interests, loose, fd, link);
    PutWires(links, delivered, lines, fd, link, if ok then lines[fd] + [line] else lines[fd]);
    PutShrunk(links, fd, link);
    assert !ok ==> lines[fd := lines[fd]] == lines;
  }

  lemma LinkHolds(links: Links, delivered: map<Fd, string>, lines: map<Fd, seq<string>>, fd: Fd)
    requires LinksValid(links) && WiresOk(links, delivered, lines) && fd in links
    ensures links[fd].Valid() && links[fd].Retains() && fd in delivered && fd in lines
    ensures delivered[fd] + links[fd].Pending() == WireAll(lines[fd])
  {
    hide WireAll;
  }

  lemma PutValid(links: Links, fd: Fd, link: Link)
    requires LinksValid(links) && link.Valid() && link.Retains()
    ensures LinksValid(links[fd := link])
  {}

  lemma PutSettled(links: Links, interests: Interests, loose: set<Fd>, fd: Fd, link: Link)
    requires AllSettled(links, interests, loose) && fd in links && (links[fd].closeRequested ==> link.closeRequested)
    ensures AllSettled(links[fd := link], interests, loose + {fd})
  {
    hide Settled;
  }

  lemma PutWires(links: Links, delivered: map<Fd, string>, lines: map<Fd, seq<string>>, fd: Fd, link: Link,
                 said: seq<string>)
    requires WiresOk(links, delivered, lines) && fd in links && fd in delivered
    requires link.Valid() && delivered[fd] + link.Pending() == WireAll(said)
    ensures WiresOk(links[fd := link], delivered, lines[fd := said])
  {
    hide WireAll;
  }

  lemma PutShrunk(links: Links, fd: Fd, link: Link)
    requires fd in links && Grown(links[fd], link)
    ensures Shrunk(links, links[fd := link]) && links[fd := link].Keys == links.Keys
  {}

  lemma QueueKeepsOne(link: Link, taken: string, lines: seq<string>, line: string)
    requires link.Valid() && link.Retains() && taken + link.Pending() == WireAll(lines)
    ensures var (link', ok) := QueueLine(link, line);
            && link'.Valid() && link'.Retains() && Grown(link, link')
            && taken + link'.Pending() == WireAll(if ok then lines + [line] else lines)
  {
    hide Wire, WireAll;
    WireAllSnoc(lines, line);
    assert taken + (link.Pending() + Wire(line)) == (taken + link.Pending()) + Wire(line);
  }

  lemma RemovalKeeps(links: Links, interests: Interests, loose: set<Fd>, delivered: map<Fd, string>,
                     lines: map<Fd, seq<string>>, fd: Fd)
    requires LinksValid(links) && AllSettled(links, interests, loose) && WiresOk(links, delivered, lines)
    requires fd in links
    ensures var links' := links - {fd};
            && LinksValid(links')
            && AllSettled(links', interests - {fd}, loose)
            && WiresOk(links', delivered, lines)
            && Shrunk(links, links')
            && links'.Keys == links.Keys - {fd} && |links| == |links'| + 1
  {
    hide LinksValid, AllSettled, WiresOk, Shrunk;
    OneFewer(links, fd);
    RemovalSettles(links, interests, loose, fd);
    RemovalFrees(links, delivered, lines, fd);
  }

  lemma OneFewer(links: Links, fd: Fd)
    requires fd in links
    ensures (links - {fd}).Keys == links.Keys - {fd} && |links| == |links - {fd}| + 1
  {
    assert links.Keys == (links - {fd}).Keys + {fd};
  }

  lemma RemovalSettles(links: Links, interests: Interests, loose: set<Fd>, fd: Fd)
    requires AllSettled(links, interests, loose)
    ensures AllSettled(links - {fd}, interests - {fd}, loose)
  {
    hide Settled;
  }

  lemma RemovalFrees(links: Links, delivered: map<Fd, string>, lines: map<Fd, seq<string>>, fd: Fd)
    requires LinksValid(links) && WiresOk(links, delivered, lines)
    ensures LinksValid(links - {fd}) && WiresOk(links - {fd}, delivered, lines) && Shrunk(links, links - {fd})
  {
    hide WireAll;
  }

  lemma RefreshKeeps(links: Links, interests: Interests, loose: set<Fd>, fd: Fd)
    requires AllSettled(links, interests, loose) && fd in links
    requires !links[fd].closeRequested || links[fd].WantsWrite()
    ensures Settled(links[fd], Wanted(links[fd]))
    ensures AllSettled(links, interests[fd := Wanted(links[fd])], loose - {fd})
  {}

  lemma SettledLoosely(links: Links, interests: Interests, loose: set<Fd>, fd: Fd)
    requires AllSettled(links, interests, loose - {fd})
    ensures AllSettled(links, interests, loose)
  {}

  lemma StrictlySettled(links: Links, interests: Interests, loose: set<Fd>, fd: Fd)
    requires AllSettled(links, interests, loose) && fd !in links
    ensures AllSettled(links, interests, loose - {fd})
  {}

  lemma ShrunkSame(links: Links)
    ensures Shrunk(links, links)
  {}

  /** No connection appears and no request to close is withdrawn. */
  predicate Lasting(before: Links, after: Links) {
    && after.Keys <= before.Keys
    && forall k :: k in after ==> before[k].closeRequested ==> after[k].closeRequested
  }

  lemma LastingThen(a: Links, b: Links, c: Links)
    requires Lasting(a, b) && Lasting(b, c)
    ensures Lasting(a, c)
  {
    forall k | k in c
      ensures a[k].closeRequested ==> c[k].closeRequested
    {
      assert k in b;
    }
  }

  lemma LastingSame(links: Links)
    ensures Lasting(links, links)
  {}

  lemma LastingPut(links: Links, fd: Fd, link: Link)
    requires fd in links && (links[fd].closeRequested ==> link.closeRequested)
    ensures Lasting(links, links[fd := link])
  {}

  lemma LastingCloses(before: Links, after: Links, fd: Fd)
    requires Lasting(before, after)
    ensures fd in after ==> fd in before && (before[fd].closeRequested ==> after[fd].closeRequested)
  {}

  /** Gone, or asked to close. */
  predicate Ending(links: Links, fd: Fd) {
    fd !in links || links[fd].closeRequested
  }

  lemma ShrunkKeys(a: Links, b: Links)
    requires Shrunk(a, b)
    ensures b.Keys <= a.Keys
  {}

  lemma ShrunkThen(a: Links, b: Links, c: Links)
    requires Shrunk(a, b) && Shrunk(b, c)
    ensures Shrunk(a, c)
  {
    forall k | k in c
      ensures Grown(a[k], c[k])
    {
      assert Grown(a[k], b[k]) && Grown(b[k], c[k]);
    }
  }

  lemma NoticesSame(rooms: Rooms, x: multiset<Attempt>, left: set<Fd>)
    ensures Notices(rooms, x, x, {}, left)
  {}

  /** Two stretches of a cascade in a row. */
  lemma NoticesThen(rooms: Rooms, x: multiset<Attempt>, y: multiset<Attempt>, z: multiset<Attempt>,
                    all: set<Fd>, left: set<Fd>, fewer: set<Fd>)
    requires fewer <= left <= all
    requires Notices(rooms, x, y, all - left, left)
    requires Notices(SurvivingRooms(rooms, left), y, z, left - fewer, fewer)
    ensures Notices(rooms, x, z, all - fewer, fewer)
  {
    hide CoMembers, SurvivingRooms;
    forall a: Attempt | a.cause.Quit?
      ensures a.to in CoMembers(SurvivingRooms(rooms, left), a.cause.who) ==> a.to in CoMembers(rooms, a.cause.who)
      ensures a.cause.who in left && a.to in left && a.to in CoMembers(rooms, a.cause.who) ==>
                a.to in CoMembers(SurvivingRooms(rooms, left), a.cause.who)
    {
      CoMembersShrink(rooms, left, a.cause.who);
      if a.cause.who in left && a.to in left && a.to in CoMembers(rooms, a.cause.who) {
        CoMembersStay(rooms, left, a.cause.who, a.to);
      }
    }
  }

  /** Attempts made on top of a cascade, none of them a QUIT of somebody who went in it. */
  lemma NoticesPlus(rooms: Rooms, x: multiset<Attempt>, y: multiset<Attempt>, more: multiset<Attempt>, gone: set<Fd>,
                    left: set<Fd>)
    requires Notices(rooms, x, y, gone, left)
    ensures Notices(rooms, x + more, y + more, gone, left)
  {
    hide CoMembers;
  }

  /** When `fd` itself goes last, its own notices join the account. */
  lemma NoticesOwn(rooms: Rooms, x: multiset<Attempt>, y: multiset<Attempt>, all: set<Fd>, left: set<Fd>, fd: Fd)
    requires fd in left && left <= all
    requires Notices(rooms, x + Copies(CoMembers(rooms, fd), Quit(fd)), y, all - left, left)
    ensures Notices(rooms, x, y, all - (left - {fd}), left - {fd})
    ensures Farewell(rooms, x, y, fd)
  {
    hide CoMembers;
    var own := Copies(CoMembers(rooms, fd), Quit(fd));
    assert forall a: Attempt :: own[a] == if a.cause == Quit(fd) && a.to in CoMembers(rooms, fd) then 1 else 0;
  }

  lemma CopiesOneMore(told: set<Fd>, peer: Fd, cause: Cause)
    requires peer !in told
    ensures Copies(told + {peer}, cause) == Copies(told, cause) + multiset{Attempt(peer, cause)}
  {}

  // ----- The whole state as one value -----

  /** Ghost record: all send attempts so far; for each live connection the octets its socket took, the
      lines its queue accepted and the number of 001 attempts before it was opened; and the clients whose
      001 is about to be attempted. */
  datatype Log = Log(
    attempts: multiset<Attempt>,
    delivered: map<Fd, string>,
    lines: map<Fd, seq<string>>,
    baseline: map<Fd, nat>,
    owed: set<Fd>)

  function LinesOf(lines: map<Fd, seq<string>>, fd: Fd): seq<string> {
    if fd in lines then lines[fd] else []
  }

  /** Nothing accepted for a connection is taken back. */
  ghost predicate Heard(alive: set<Fd>, before: map<Fd, seq<string>>, after: map<Fd, seq<string>>) {
    forall k :: k in alive ==> LinesOf(before, k) <= LinesOf(after, k)
  }

  lemma HeardThen(alive: set<Fd>, fewer: set<Fd>,
                  a: map<Fd, seq<string>>, b: map<Fd, seq<string>>, c: map<Fd, seq<string>>)
    requires Heard(alive, a, b) && Heard(fewer, b, c) && fewer <= alive
    ensures Heard(fewer, a, c)
  {
    forall k | k in fewer
      ensures LinesOf(a, k) <= LinesOf(c, k)
    {
      assert LinesOf(a, k) <= LinesOf(b, k) && LinesOf(b, k) <= LinesOf(c, k);
    }
  }

  /** Since a client connected, 001 was attempted once if it is registered and never if it is not. */
  ghost predicate GreetedOnce(clients: Clients, attempts: multiset<Attempt>, baseline: map<Fd, nat>, owed: set<Fd>) {
    forall f :: f in clients ==>
      && f in baseline
      && attempts[Attempt(f, Welcome)] + (if f in owed then 1 else 0) ==
         baseline[f] + if clients[f].registered then 1 else 0
  }

  /** Each accepted line is one line, and the welcomes among them do not outnumber the attempts since the
      connection was opened. */
  ghost predicate Said(lines: seq<string>, baseline: nat, attempted: nat) {
    (forall line :: line in lines ==> OneLine(line)) && baseline + Welcomes(lines) <= attempted
  }

  ghost predicate SpokenOk(links: Links, log: Log) {
    forall k :: k in links ==>
      k in log.lines && k in log.baseline && Said(log.lines[k], log.baseline[k], log.attempts[Attempt(k, Welcome)])
  }

  lemma SaidMore(lines: seq<string>, baseline: nat, attempted: nat, line: string)
    requires Said(lines, baseline, attempted) && OneLine(line)
    requires CommandWord(line) == "001" ==> baseline + Welcomes(lines) < attempted
    ensures Said(lines + [line], baseline, attempted)
  {
    hide CommandWord, OneLine;
    assert (lines + [line])[..|lines|] == lines;
  }

  /** The steps of the run so far and the number of clock readings taken. */
  datatype Trace = Trace(history: seq<Step>, readings: nat)

  /** `closing` are the descriptors whose disconnect is under way; `loose` the ones whose interest is to be
      recomputed before the event loop sees them again. */
  datatype World = World(
    connections: Links,
    interests: Interests,
    accepted: nat,
    closed: nat,
    limit: nat,
    app: App,
    closing: set<Fd>,
    loose: set<Fd>,
    log: Log,
    trace: Trace)

  /** What holds at every point from which a line may be sent, however deep in a cascade. */
  ghost predicate Good(w: World) {
    && WF(w.app)
    && w.app.clients.Keys == w.connections.Keys + w.closing && w.connections.Keys !! w.closing
    && w.accepted == w.closed + |w.connections|
    && (w.limit != 0 ==> |w.connections| <= w.limit)
    && LinksValid(w.connections)
    && AllSettled(w.connections, w.interests, w.loose)
    && WiresOk(w.connections, w.log.delivered, w.log.lines)
    && GreetedOnce(w.app.clients, w.log.attempts, w.log.baseline, w.log.owed)
    && SpokenOk(w.connections, w.log)
  }

  /** The QUIT of a client, with some reason, is among what was accepted since. */
  ghost predicate Mourning(before: seq<string>, after: seq<string>, c: Client) {
    exists reason: string :: Got(before, after, QuitLine(c, reason))
  }

  /** Every co-member of a client that went, itself still connected and not closing, has had its QUIT. */
  ghost predicate Mourned(w: World, w': World) {
    forall who, to ::
      && who in w.app.clients && who !in w'.app.clients && to in CoMembers(w.app.channels, who)
      && to in w'.app.clients && to in w'.connections && !w'.connections[to].closeRequested ==>
      Mourning(LinesOf(w.log.lines, to), LinesOf(w'.log.lines, to), w.app.clients[who])
  }

  /** The whole effect of a send cascade: the application state restricted to the survivors, queues of
      surviving connections extended, and each QUIT of those that went attempted once to each surviving
      co-member and accepted for it unless it is closing. */
  ghost predicate Cascade(w: World, w': World) {
    && w'.app.clients.Keys <= w.app.clients.Keys
    && w'.app == Survive(w.app, w'.app.clients.Keys)
    && w'.closing == w.closing && w'.loose == w.loose && w'.limit == w.limit
    && w'.accepted == w.accepted && w'.log.owed == w.log.owed && w'.trace == w.trace
    && Shrunk(w.connections, w'.connections)
    && Heard(w'.connections.Keys, w.log.lines, w'.log.lines)
    && Notices(w.app.channels, w.log.attempts, w'.log.attempts, w.app.clients.Keys - w'.app.clients.Keys,
               w'.app.clients.Keys)
    && Mourned(w, w')
  }

  /** `fd` is not among the connections whose interest is still to be recomputed. */
  ghost predicate Tight(w: World, fd: Fd) {
    AllSettled(w.connections, w.interests, w.loose - {fd})
  }

  lemma CascadeSame(w: World)
    requires Good(w)
    ensures Cascade(w, w)
  {
    hide Notices, Shrunk, LinksValid, AllSettled, WiresOk, GreetedOnce, SpokenOk, CoMembers, Mourning;
    SurviveAll(w.app, w.app.clients.Keys);
    ShrunkSame(w.connections);
    NoticesSame(w.app.channels, w.log.attempts, w.app.clients.Keys);
    assert w.app.clients.Keys - w.app.clients.Keys == {};
  }

  lemma MourningThen(a: seq<string>, b: seq<string>, c: seq<string>, d: seq<string>, who: Client)
    requires a <= b && Mourning(b, c, who) && c <= d
    ensures Mourning(a, d, who)
  {
    hide QuitLine;
    var reason: string :| Got(b, c, QuitLine(who, reason));
    GotThen(a, b, c, d, QuitLine(who, reason));
  }

  lemma MournedThen(w: World, w1: World, w2: World)
    requires Mourned(w, w1) && Mourned(w1, w2)
    requires w1.app == Survive(w.app, w1.app.clients.Keys)
    requires w2.app.clients.Keys <= w1.app.clients.Keys <= w.app.clients.Keys
    requires Shrunk(w1.connections, w2.connections)
    requires Heard(w1.connections.Keys, w.log.lines, w1.log.lines)
    requires Heard(w2.connections.Keys, w1.log.lines, w2.log.lines)
    ensures Mourned(w, w2)
  {
    hide Survive, CoMembers, Mourning, LinesOf;
    var k1 := w1.app.clients.Keys;
    forall who, to | && who in w.app.clients && who !in w2.app.clients && to in CoMembers(w.app.channels, who)
                     && to in w2.app.clients && to in w2.connections && !w2.connections[to].closeRequested
      ensures Mourning(LinesOf(w.log.lines, to), LinesOf(w2.log.lines, to), w.app.clients[who])
    {
      var x, y, z := LinesOf(w.log.lines, to), LinesOf(w1.log.lines, to), LinesOf(w2.log.lines, to);
      assert Grown(w1.connections[to], w2.connections[to]);
      assert x <= y && y <= z;
      if who in w1.app.clients {
        SurvivesRooms(w.app, k1);
        SurvivesRecord(w.app, k1, who);
        CoMembersStay(w.app.channels, k1, who, to);
        assert Mourning(y, z, w1.app.clients[who]);
        MourningThen(x, y, z, z, w.app.clients[who]);
      } else {
        assert Mourning(x, y, w.app.clients[who]);
        MourningThen(x, x, y, z, w.app.clients[who]);
      }
    }
  }

  lemma SurvivesRecord(a: App, alive: set<Fd>, who: Fd)
    ensures who in Survive(a, alive).clients ==> who in a.clients && Survive(a, alive).clients[who] == a.clients[who]
  {}

  /** What was accepted in between only adds. */
  lemma MournedSince(v: World, w: World, w1: World, w2: World)
    requires Mourned(w, w1) && v.app == w.app && w2.app.clients == w1.app.clients && w2.connections == w1.connections
    requires Heard(w1.connections.Keys, v.log.lines, w.log.lines) && w2.log.lines == w1.log.lines
    ensures Mourned(v, w2)
  {
    hide CoMembers, Mourning, LinesOf;
    forall who, to | && who in v.app.clients && who !in w2.app.clients && to in CoMembers(v.app.channels, who)
                     && to in w2.app.clients && to in w2.connections && !w2.connections[to].closeRequested
      ensures Mourning(LinesOf(v.log.lines, to), LinesOf(w2.log.lines, to), v.app.clients[who])
    {
      var y, z := LinesOf(w.log.lines, to), LinesOf(w1.log.lines, to);
      assert Mourning(y, z, w.app.clients[who]);
      MourningThen(LinesOf(v.log.lines, to), y, z, z, w.app.clients[who]);
    }
  }

  lemma CascadeThen(w: World, w1: World, w2: World)
    requires Cascade(w, w1) && Cascade(w1, w2)
    ensures Cascade(w, w2)
  {
    hide Notices, Shrunk, Survive, Heard, Mourned;
    var k, k1, k2 := w.app.clients.Keys, w1.app.clients.Keys, w2.app.clients.Keys;
    SurviveTwice(w.app, k1, k2);
    ShrunkThen(w.connections, w1.connections, w2.connections);
    ShrunkKeys(w1.connections, w2.connections);
    HeardThen(w1.connections.Keys, w2.connections.Keys, w.log.lines, w1.log.lines, w2.log.lines);
    assert w1.app.channels == SurvivingRooms(w.app.channels, k1) by { SurvivesRooms(w.app, k1); }
    NoticesThen(w.app.channels, w.log.attempts, w1.log.attempts, w2.log.attempts, k, k1, k2);
    MournedThen(w, w1, w2);
  }

  lemma SurvivesRooms(a: App, alive: set<Fd>)
    ensures Survive(a, alive).channels == SurvivingRooms(a.channels, alive)
  {}

  lemma GoodFacts(w: World)
    requires Good(w)
    ensures WF(w.app) && RoomsOk(w.app.channels, w.app.clients) && IndexAgrees(w.app.clients, w.app.nicks)
    ensures ClientsOk(w.app.clients)
    ensures w.app.clients.Keys == w.connections.Keys + w.closing
  {}

  lemma CascadeFacts(w: World, w': World)
    requires Cascade(w, w')
    ensures w'.connections.Keys <= w.connections.Keys && w'.app.clients.Keys <= w.app.clients.Keys
    ensures w'.closing == w.closing && w'.loose == w.loose && w'.log.owed == w.log.owed && w'.trace == w.trace
    ensures w'.accepted == w.accepted && Lasting(w.connections, w'.connections)
  {}

  lemma TraceIsFree(w: World, trace: Trace)
    requires Good(w)
    ensures Good(w.(trace := trace))
  {
    hide WF, LinksValid, AllSettled, WiresOk, GreetedOnce, SpokenOk;
  }

  lemma ClockIsRead(w: World)
    requires Good(w)
    ensures Good(w.(trace := w.trace.(readings := w.trace.readings + 1)))
  {
    TraceIsFree(w, w.trace.(readings := w.trace.readings + 1));
  }

  lemma CascadeApp(w: World, w': World)
    requires Cascade(w, w')
    ensures w'.app == Survive(w.app, w'.app.clients.Keys)
  {}

  lemma NobodyThere(w: World)
    requires Good(w) && w.connections.Keys == {} && w.closing == {}
    ensures w.connections == map[] && w.app.clients == map[] && w.accepted == w.closed
  {}

  /** What every piece of a handler keeps: no new connections, queues only extended. */
  ghost predicate Progress(w: World, w': World) {
    && w'.app.clients.Keys <= w.app.clients.Keys
    && w'.closing == w.closing && w'.loose == w.loose && w'.limit == w.limit
    && w'.accepted == w.accepted && w'.log.owed == w.log.owed && w'.trace == w.trace
    && Shrunk(w.connections, w'.connections)
    && Heard(w'.connections.Keys, w.log.lines, w'.log.lines)
  }

  lemma ProgressFacts(w: World, w': World)
    requires Progress(w, w')
    ensures w'.connections.Keys <= w.connections.Keys && w'.app.clients.Keys <= w.app.clients.Keys
    ensures w'.closing == w.closing && w'.loose == w.loose && w'.log.owed == w.log.owed && w'.trace == w.trace
    ensures Lasting(w.connections, w'.connections)
  {}

  lemma ProgressSame(w: World)
    ensures Progress(w, w)
  {}

  lemma ProgressThen(w: World, w1: World, w2: World)
    requires Progress(w, w1) && Progress(w1, w2)
    ensures Progress(w, w2)
  {
    hide Shrunk, Heard;
    ShrunkThen(w.connections, w1.connections, w2.connections);
    ShrunkKeys(w1.connections, w2.connections);
    HeardThen(w1.connections.Keys, w2.connections.Keys, w.log.lines, w1.log.lines, w2.log.lines);
  }

  /** A changed application state in which the same clients are connected and registered. */
  lemma AppChangeIsGood(w: World, b: App)
    requires Good(w) && WF(b)
    requires b.clients.Keys == w.app.clients.Keys
    requires forall f :: f in b.clients ==> b.clients[f].registered == w.app.clients[f].registered
    ensures Good(w.(app := b)) && Progress(w, w.(app := b))
  {
    hide WF, LinksValid, AllSettled, WiresOk, GreetedOnce, SpokenOk, Shrunk;
    SameGreetings(w.app.clients, b.clients, w.log);
    ShrunkSame(w.connections);
  }

  lemma SameGreetings(clients: Clients, changed: Clients, log: Log)
    requires GreetedOnce(clients, log.attempts, log.baseline, log.owed) && changed.Keys == clients.Keys
    requires forall f :: f in changed ==> changed[f].registered == clients[f].registered
    ensures GreetedOnce(changed, log.attempts, log.baseline, log.owed)
  {}

  /** Registering a client: its 001 is now owed. */
  lemma RegisteringIsGood(w: World, b: App, fd: Fd)
    requires Good(w) && WF(b) && w.log.owed == {}
    requires b.clients.Keys == w.app.clients.Keys && fd in b.clients
    requires !w.app.clients[fd].registered && b.clients[fd].registered
    requires forall f :: f in b.clients && f != fd ==> b.clients[f].registered == w.app.clients[f].registered
    ensures Good(w.(app := b, log := w.log.(owed := {fd})))
  {
    hide WF, LinksValid, AllSettled, WiresOk, SpokenOk;
    SpokenSame(w.connections, w.log, w.connections, w.log.(owed := {fd}));
  }

  /** One connection's value replaced, `taken` being all its socket took so far. */
  ghost function Replaced(w: World, fd: Fd, link: Link, taken: string): World {
    w.(connections := w.connections[fd := link], log := w.log.(delivered := w.log.delivered[fd := taken]))
  }

  lemma ReplacementKeeps(links: Links, interests: Interests, loose: set<Fd>, delivered: map<Fd, string>,
                         lines: map<Fd, seq<string>>, fd: Fd, link: Link, taken: string)
    requires LinksValid(links) && AllSettled(links, interests, loose) && WiresOk(links, delivered, lines)
    requires fd in links && link.Valid() && link.Retains() && (fd in loose || Settled(link, interests[fd]))
    requires links[fd].closeRequested ==> link.closeRequested
    requires taken + link.Pending() == WireAll(lines[fd])
    ensures LinksValid(links[fd := link])
    ensures AllSettled(links[fd := link], interests, loose)
    ensures WiresOk(links[fd := link], delivered[fd := taken], lines)
    ensures links[fd := link].Keys == links.Keys && |links[fd := link]| == |links|
  {
    hide LinksValid, AllSettled, WiresOk, Settled, WireAll;
    LinkHolds(links, delivered, lines, fd);
    PutValid(links, fd, link);
    ReplaceSettled(links, interests, loose, fd, link);
    ReplaceWires(links, delivered, lines, fd, link, taken);
    SameSize(links, fd, link);
  }

  lemma ReplaceSettled(links: Links, interests: Interests, loose: set<Fd>, fd: Fd, link: Link)
    requires AllSettled(links, interests, loose) && fd in links && (links[fd].closeRequested ==> link.closeRequested)
    requires fd in loose || Settled(link, interests[fd])
    ensures AllSettled(links[fd := link], interests, loose)
  {
    hide Settled;
  }

  lemma ReplaceWires(links: Links, delivered: map<Fd, string>, lines: map<Fd, seq<string>>, fd: Fd, link: Link,
                     taken: string)
    requires WiresOk(links, delivered, lines) && fd in links && fd in lines
    requires link.Valid() && taken + link.Pending() == WireAll(lines[fd])
    ensures WiresOk(links[fd := link], delivered[fd := taken], lines)
  {
    hide WireAll;
  }

  lemma SameSize(links: Links, fd: Fd, link: Link)
    requires fd in links
    ensures links[fd := link].Keys == links.Keys && |links[fd := link]| == |links|
  {
    assert |links[fd := link].Keys| == |links.Keys|;
  }

  lemma ReplacedIsGood(w: World, fd: Fd, link: Link, taken: string)
    requires Good(w) && fd in w.connections && fd in w.log.lines
    requires link.Valid() && link.Retains() && (fd in w.loose || (fd in w.interests && Settled(link, w.interests[fd])))
    requires w.connections[fd].closeRequested ==> link.closeRequested
    requires taken + link.Pending() == WireAll(w.log.lines[fd])
    ensures Good(Replaced(w, fd, link, taken))
  {
    hide WF, GreetedOnce, SpokenOk, LinksValid, AllSettled, WiresOk, Settled, WireAll;
    InterestsMatch(w.connections, w.interests, w.loose);
    SpokenSame(w.connections, w.log, Replaced(w, fd, link, taken).connections, Replaced(w, fd, link, taken).log);
    ReplacementKeeps(w.connections, w.interests, w.loose, w.log.delivered, w.log.lines, fd, link, taken);
  }

  lemma SpokenSame(links: Links, log: Log, links': Links, log': Log)
    requires SpokenOk(links, log) && links'.Keys <= links.Keys
    requires log'.lines == log.lines && log'.baseline == log.baseline && log.attempts <= log'.attempts
    ensures SpokenOk(links', log')
  {
    hide Said;
    forall k | k in links'
      ensures k in log'.lines && k in log'.baseline
      ensures Said(log'.lines[k], log'.baseline[k], log'.attempts[Attempt(k, Welcome)])
    {
      SaidStill(log.lines[k], log.baseline[k], log.attempts[Attempt(k, Welcome)], log'.attempts[Attempt(k, Welcome)]);
    }
  }

  lemma SaidStill(lines: seq<string>, baseline: nat, attempted: nat, more: nat)
    requires Said(lines, baseline, attempted) && attempted <= more
    ensures Said(lines, baseline, more)
  {}

  lemma InterestsMatch(links: Links, interests: Interests, loose: set<Fd>)
    requires AllSettled(links, interests, loose)
    ensures interests.Keys == links.Keys
  {}

  lemma LinkFacts(w: World, fd: Fd)
    requires Good(w) && fd in w.connections
    ensures w.connections[fd].Valid() && w.connections[fd].Retains()
    ensures fd in w.log.lines && fd in w.log.delivered && fd in w.interests
    ensures w.log.delivered[fd] + w.connections[fd].Pending() == WireAll(w.log.lines[fd])
    ensures fd !in w.loose ==> Settled(w.connections[fd], w.interests[fd])
  {
    hide WF, GreetedOnce, SpokenOk, WireAll;
  }

  ghost function Parting(w: World, fd: Fd, reason: Words): World
    requires fd in w.connections
  {
    w.(connections := w.connections[fd := w.connections[fd].Closing(reason)])
  }

  /** Asking a connection to close is safe when its interest is still to be recomputed or it has output. */
  lemma PartingIsGood(w: World, fd: Fd, reason: Words)
    requires Good(w) && fd in w.connections && (fd in w.loose || w.connections[fd].WantsWrite())
    ensures Good(Parting(w, fd, reason)) && Progress(w, Parting(w, fd, reason))
  {
    hide Good, WireAll;
    LinkFacts(w, fd);
    var link := w.connections[fd].Closing(reason);
    ReplacedIsGood(w, fd, link, w.log.delivered[fd]);
    assert w.log.delivered[fd := w.log.delivered[fd]] == w.log.delivered;
    ShrunkSame(w.connections);
  }

  // ----- Sending -----

  ghost function Noted(log: Log, batch: multiset<Attempt>): (noted: Log)
    ensures noted.lines == log.lines && noted.baseline == log.baseline
  {
    log.(attempts := log.attempts + batch, owed := set f | f in log.owed && Attempt(f, Welcome) !in batch)
  }

  ghost function Asked(w: World, batch: multiset<Attempt>): World {
    w.(log := Noted(w.log, batch))
  }

  /** A 001 is attempted only when it is owed. */
  ghost predicate Due(log: Log, batch: multiset<Attempt>) {
    forall f :: batch[Attempt(f, Welcome)] <= if f in log.owed then 1 else 0
  }

  lemma AskedIsGood(w: World, batch: multiset<Attempt>)
    requires Good(w) && Due(w.log, batch)
    ensures Good(Asked(w, batch))
  {
    hide WF, LinksValid, AllSettled, WiresOk, SpokenOk;
    SpokenSame(w.connections, w.log, w.connections, Noted(w.log, batch));
  }

  lemma CopiesAreDue(log: Log, targets: set<Fd>, cause: Cause)
    requires !cause.Welcome?
    ensures Due(log, Copies(targets, cause)) && Noted(log, Copies(targets, cause)).owed == log.owed
  {}

  lemma AskedProgress(w: World, batch: multiset<Attempt>, w1: World)
    requires Cascade(Asked(w, batch), w1)
    ensures w1.app == Survive(w.app, w1.app.clients.Keys)
    ensures (forall f :: Attempt(f, Welcome) !in batch) ==> Progress(w, w1)
  {
    hide Shrunk, Survive, Notices, Mourned;
    if forall f :: Attempt(f, Welcome) !in batch {
      assert Noted(w.log, batch).owed == w.log.owed;
    }
  }

  lemma CopiesProgress(w: World, targets: set<Fd>, cause: Cause, w1: World)
    requires !cause.Welcome? && Cascade(Asked(w, Copies(targets, cause)), w1)
    ensures w1.app == Survive(w.app, w1.app.clients.Keys) && Progress(w, w1)
  {
    hide Cascade, Asked, Progress, Survive;
    AskedProgress(w, Copies(targets, cause), w1);
  }

  /** Each of `targets` was sent exactly one line for `cause`, nobody else any. */
  ghost predicate ToldOnce(targets: set<Fd>, before: multiset<Attempt>, after: multiset<Attempt>, cause: Cause) {
    forall p :: after[Attempt(p, cause)] == before[Attempt(p, cause)] + if p in targets then 1 else 0
  }

  /** Beyond QUIT notices, nobody was sent anything but those in `free`, and each in `once` at most one line. */
  ghost predicate Confined(before: multiset<Attempt>, after: multiset<Attempt>, free: set<Fd>, once: set<Fd>) {
    forall x: Attempt :: !x.cause.Quit? && x.to !in free ==>
      before[x] <= after[x] <= before[x] + if x.to in once then 1 else 0
  }

  lemma ConfinedSame(attempts: multiset<Attempt>, free: set<Fd>, once: set<Fd>)
    ensures Confined(attempts, attempts, free, once)
  {}

  lemma ConfinedPair(a: multiset<Attempt>, b: multiset<Attempt>, c: multiset<Attempt>, f: Fd, g: Fd)
    requires Confined(a, b, {}, {f}) && Confined(b, c, {}, {g}) && f != g
    ensures Confined(a, c, {}, {f, g})
  {}

  /** One more line to somebody who may be sent any. */
  lemma FreeThen(a: multiset<Attempt>, b: multiset<Attempt>, c: multiset<Attempt>, fd: Fd, once: set<Fd>)
    requires (Confined(a, b, {fd}, once) || Confined(a, b, {}, once))
    requires Confined(b, c, {}, {fd}) || Confined(b, c, {fd}, {})
    ensures Confined(a, c, {fd}, once)
  {}

  lemma CascadeConfines(w: World, w1: World)
    requires Cascade(w, w1)
    ensures Confined(w.log.attempts, w1.log.attempts, {}, {})
  {
    hide Survive, Shrunk, Heard, Mourned, CoMembers;
  }

  lemma AttemptConfines(w: World, fd: Fd, cause: Cause, w1: World)
    requires Cascade(Asked(w, multiset{Attempt(fd, cause)}), w1)
    ensures Confined(w.log.attempts, w1.log.attempts, {}, {fd})
  {
    hide Survive, Shrunk, Heard, Mourned, CoMembers;
  }

  lemma CopiesConfine(w: World, targets: set<Fd>, cause: Cause, w1: World)
    requires Cascade(Asked(w, Copies(targets, cause)), w1)
    ensures Confined(w.log.attempts, w1.log.attempts, {}, targets)
  {
    hide Survive, Shrunk, Heard, Mourned, CoMembers;
    var own := Copies(targets, cause);
    assert forall a: Attempt :: own[a] == if a.cause == cause && a.to in targets then 1 else 0;
  }

  lemma CopiesToldOnce(w: World, targets: set<Fd>, cause: Cause, w1: World)
    requires !cause.Quit? && Cascade(Asked(w, Copies(targets, cause)), w1)
    ensures ToldOnce(targets, w.log.attempts, w1.log.attempts, cause)
  {
    hide Survive, Shrunk;
    var own := Copies(targets, cause);
    assert forall a: Attempt :: own[a] == if a.cause == cause && a.to in targets then 1 else 0;
  }

  lemma NothingHappened(w: World)
    requires Good(w)
    ensures Progress(w, w) && w.app == Survive(w.app, w.app.clients.Keys)
  {
    hide Survive, Shrunk;
    SurviveAll(w.app, w.app.clients.Keys);
    ShrunkSame(w.connections);
  }

  lemma NobodyLeft(w: World)
    requires Good(w)
    ensures w.app == Survive(w.app, w.app.clients.Keys)
  {
    hide Survive;
    SurviveAll(w.app, w.app.clients.Keys);
  }

  /** The attempt of the 001 that was owed. */
  lemma WelcomeProgress(before: World, w: World, fd: Fd, w1: World)
    requires w == before.(app := w.app, log := before.log.(owed := {fd})) && before.log.owed == {}
    requires w.app.clients.Keys == before.app.clients.Keys
    requires Cascade(Asked(w, multiset{Attempt(fd, Welcome)}), w1)
    ensures w1.app == Survive(w.app, w1.app.clients.Keys) && Progress(before, w1)
  {
    hide Shrunk, Survive, Notices, Mourned;
    assert Noted(w.log, multiset{Attempt(fd, Welcome)}).owed == {};
  }

  /** More attempts, each with its own cascade, on top of earlier ones. */
  lemma AskedThen(w: World, batch: multiset<Attempt>, w1: World, more: multiset<Attempt>, w2: World)
    requires Cascade(Asked(w, batch), w1) && Cascade(Asked(w1, more), w2)
    ensures Cascade(Asked(w, batch + more), w2)
  {
    hide Notices, Mourned, Survive, Shrunk;
    var k, k1 := w.app.clients.Keys, w1.app.clients.Keys;
    NoticesPlus(w.app.channels, w.log.attempts + batch, w1.log.attempts, more, k - k1, k1);
    assert w.log.attempts + batch + more == w.log.attempts + (batch + more);
    assert Noted(w.log, batch + more).owed == Noted(w1.log, more).owed;
    assert Mourned(Asked(w, batch + more), Asked(w1, more)) by {
      HeardSame(w1);
      MournedSince(Asked(w, batch + more), Asked(w, batch), w1, Asked(w1, more));
    }
    assert Cascade(Asked(w, batch + more), Asked(w1, more));
    CascadeThen(Asked(w, batch + more), Asked(w1, more), w2);
  }

  ghost function Queued(w: World, fd: Fd, line: string): World
    requires fd in w.connections && w.connections[fd].Valid() && fd in w.log.lines
  {
    var (link, ok) := QueueLine(w.connections[fd], line);
    w.(connections := w.connections[fd := link], loose := w.loose + {fd},
       log := if ok then w.log.(lines := w.log.lines[fd := w.log.lines[fd] + [line]]) else w.log)
  }

  lemma QueuedIsHeard(w: World, fd: Fd, line: string)
    requires fd in w.connections && w.connections[fd].Valid() && fd in w.log.lines
    ensures Heard(w.connections.Keys, w.log.lines, Queued(w, fd, line).log.lines)
  {}

  lemma QueuedIsSpoken(w: World, fd: Fd, line: string)
    requires SpokenOk(w.connections, w.log) && fd in w.connections && w.connections[fd].Valid() && fd in w.log.lines
    requires OneLine(line) && Announced(w, fd, line)
    ensures SpokenOk(Queued(w, fd, line).connections, Queued(w, fd, line).log)
  {
    hide Said, OneLine, QueueLine;
    SaidMore(w.log.lines[fd], w.log.baseline[fd], w.log.attempts[Attempt(fd, Welcome)], line);
  }

  /** A welcome is queued only after its attempt was noted. */
  ghost predicate Announced(w: World, fd: Fd, line: string) {
    CommandWord(line) == "001" && fd in w.log.lines && fd in w.log.baseline ==>
      w.log.baseline[fd] + Welcomes(w.log.lines[fd]) < w.log.attempts[Attempt(fd, Welcome)]
  }

  /** Noting an attempt for what the line is announces the line. */
  lemma AskingAnnounces(w: World, fd: Fd, line: string, cause: Cause)
    requires Good(w) && fd in w.connections && Suits(cause, line)
    ensures Announced(Asked(w, multiset{Attempt(fd, cause)}), fd, line)
  {
    hide WF, LinksValid, AllSettled, WiresOk, GreetedOnce, CommandWord, Welcomes, OneLine;
  }

  lemma QueuedIsGood(w: World, fd: Fd, line: string)
    requires Good(w) && fd in w.connections && OneLine(line) && Announced(w, fd, line)
    ensures w.connections[fd].Valid() && fd in w.log.lines
    ensures Good(Queued(w, fd, line)) && Queued(w, fd, line).connections.Keys == w.connections.Keys
    ensures Shrunk(w.connections, Queued(w, fd, line).connections)
    ensures Heard(w.connections.Keys, w.log.lines, Queued(w, fd, line).log.lines)
  {
    hide WF, GreetedOnce, SpokenOk, Shrunk, Heard, LinksValid, AllSettled, WiresOk, OneLine, Announced;
    LinkHolds(w.connections, w.log.delivered, w.log.lines, fd);
    QueuedIsHeard(w, fd, line);
    QueuedIsSpoken(w, fd, line);
    QueueKeeps(w.connections, w.interests, w.loose, w.log.delivered, w.log.lines, fd, line);
    assert |w.connections.Keys| == |w.connections|;
    assert |Queued(w, fd, line).connections.Keys| == |Queued(w, fd, line).connections|;
  }

  /** Queueing a line and then whatever refreshing its interest brought about. */
  lemma SendIsCascade(w: World, fd: Fd, line: string, w1: World)
    requires Good(w) && fd in w.connections && w.connections[fd].Valid() && fd in w.log.lines
    requires OneLine(line) && Announced(w, fd, line)
    requires Good(w1) && Cascade(Queued(w, fd, line), w1) && Tight(w1, fd)
    ensures Good(w1.(loose := w.loose)) && Cascade(w, w1.(loose := w.loose))
  {
    hide Good, Tight, Shrunk, Notices, Mourned, Survive, Heard, QueueLine, OneLine, Announced;
    QueuedIsGood(w, fd, line);
    var queued := Queued(w, fd, line);
    LooseAgain(w1, w.loose, fd);
    ShrunkThen(w.connections, queued.connections, w1.connections);
    ShrunkKeys(queued.connections, w1.connections);
    HeardThen(w.connections.Keys, w1.connections.Keys, w.log.lines, queued.log.lines, w1.log.lines);
    HeardAmong(w.connections.Keys, w1.connections.Keys, w.log.lines, queued.log.lines);
    MournedSince(w, queued, w1, w1.(loose := w.loose));
  }

  lemma LooseAgain(w: World, loose: set<Fd>, fd: Fd)
    requires Good(w) && w.loose == loose + {fd} && Tight(w, fd)
    ensures Good(w.(loose := loose))
  {
    hide WF, GreetedOnce, SpokenOk, LinksValid, WiresOk;
  }

  // ----- What recipients get -----

  /** `line` is among what was accepted since. */
  ghost predicate Got(before: seq<string>, after: seq<string>, line: string) {
    before <= after && line in after[|before|..]
  }

  /** Each of `targets` still connected and not being closed has had `line` accepted for it since. */
  ghost predicate Reached(w: World, w': World, targets: set<Fd>, line: string) {
    forall t :: t in targets && t in w'.connections && !w'.connections[t].closeRequested ==>
      Got(LinesOf(w.log.lines, t), LinesOf(w'.log.lines, t), line)
  }

  /** There is no room for `line` behind what is pending. */
  ghost predicate Full(link: Link, line: string) {
    link.writeOffset <= |link.writeBuffer| && |link.Pending()| + |Wire(line)| > link.maxPending
  }

  /** `line` was accepted for `fd`, closing or not, unless it is gone or its queue has no room. */
  ghost predicate Took(w: World, w': World, fd: Fd, line: string) {
    fd in w'.connections ==>
      Got(LinesOf(w.log.lines, fd), LinesOf(w'.log.lines, fd), line) || Full(w'.connections[fd], line)
  }

  lemma TookIn(w: World, w1: World, w2: World, w3: World, fd: Fd, line: string)
    requires Progress(w, w1) && Took(w1, w2, fd, line) && Progress(w1, w2) && Progress(w2, w3)
    ensures Took(w, w3, fd, line)
  {
    hide Wire;
    if fd in w3.connections {
      assert Grown(w2.connections[fd], w3.connections[fd]) && fd in w2.connections && fd in w1.connections;
      if Got(LinesOf(w1.log.lines, fd), LinesOf(w2.log.lines, fd), line) {
        GotThen(LinesOf(w.log.lines, fd), LinesOf(w1.log.lines, fd), LinesOf(w2.log.lines, fd),
                LinesOf(w3.log.lines, fd), line);
      }
    }
  }

  lemma TookThen(w: World, w1: World, w2: World, fd: Fd, line: string)
    requires Progress(w, w1) && Took(w, w1, fd, line) && Progress(w1, w2)
    ensures Took(w, w2, fd, line)
  {
    hide Progress, Took;
    ProgressSame(w);
    TookIn(w, w, w1, w2, fd, line);
  }

  lemma TookSameWires(w: World, v: World, w1: World, w2: World, fd: Fd, line: string)
    requires Took(w, w1, fd, line)
    requires v.log.lines == w.log.lines && w2.connections == w1.connections && w2.log == w1.log
    ensures Took(v, w2, fd, line)
  {}

  /** Why a connection goes when its interest is refreshed. */
  function LeavingReason(link: Link): Words {
    if link.closeRequested && !link.WantsWrite() then link.closeReason else UPDATE_FAILED
  }

  const UPDATE_FAILED: Words := "event interest update failed"

  /** `fd` is gone, its co-members have its QUIT with this reason, and nobody was sent anything but farewells. */
  ghost predicate GoneFor(w: World, w': World, fd: Fd, reason: Words)
    requires fd in w.app.clients
  {
    && fd !in w'.connections && fd !in w'.app.clients
    && Reached(w, w', CoMembers(w.app.channels, fd), QuitLine(w.app.clients[fd], reason))
    && Confined(w.log.attempts, w'.log.attempts, {}, {})
  }

  lemma GoneForSame(w: World, v: World, w1: World, w2: World, fd: Fd, reason: Words)
    requires fd in w.app.clients && GoneFor(w, w1, fd, reason) && v.app == w.app
    requires v.log.lines == w.log.lines && v.log.attempts == w.log.attempts
    requires w2.connections == w1.connections && w2.app == w1.app && w2.log == w1.log
    ensures GoneFor(v, w2, fd, reason)
  {
    hide CoMembers, QuitLine, Got, Confined;
  }

  lemma GotThen(a: seq<string>, b: seq<string>, c: seq<string>, d: seq<string>, line: string)
    requires a <= b && Got(b, c, line) && c <= d
    ensures Got(a, d, line)
  {
    var i :| |b| <= i < |c| && c[i] == line;
    assert d[|a|..][i - |a|] == line;
  }

  lemma ReachedIn(w: World, w1: World, w2: World, w3: World, targets: set<Fd>, line: string)
    requires Heard(w1.connections.Keys, w.log.lines, w1.log.lines)
    requires Reached(w1, w2, targets, line) && Shrunk(w1.connections, w2.connections)
    requires Shrunk(w2.connections, w3.connections) && Heard(w3.connections.Keys, w2.log.lines, w3.log.lines)
    ensures Reached(w, w3, targets, line)
  {
    forall t | t in targets && t in w3.connections && !w3.connections[t].closeRequested
      ensures Got(LinesOf(w.log.lines, t), LinesOf(w3.log.lines, t), line)
    {
      assert Grown(w2.connections[t], w3.connections[t]);
      GotThen(LinesOf(w.log.lines, t), LinesOf(w1.log.lines, t), LinesOf(w2.log.lines, t), LinesOf(w3.log.lines, t),
              line);
    }
  }

  /** What was reached in the middle of a stretch stays reached. */
  lemma ReachedWithin(w: World, w1: World, w2: World, w3: World, targets: set<Fd>, line: string)
    requires Progress(w, w1) && Reached(w1, w2, targets, line) && Progress(w1, w2) && Progress(w2, w3)
    ensures Reached(w, w3, targets, line)
  {
    hide Shrunk, Heard, Reached;
    ReachedIn(w, w1, w2, w3, targets, line);
  }

  lemma ReachedThen(w: World, w1: World, w2: World, targets: set<Fd>, line: string)
    requires Progress(w, w1) && Reached(w, w1, targets, line) && Progress(w1, w2)
    ensures Reached(w, w2, targets, line)
  {
    hide Progress, Reached;
    ProgressSame(w);
    ReachedWithin(w, w, w1, w2, targets, line);
  }

  lemma ReachedLater(w: World, w1: World, w2: World, targets: set<Fd>, line: string)
    requires Progress(w, w1) && Reached(w1, w2, targets, line) && Progress(w1, w2)
    ensures Reached(w, w2, targets, line)
  {
    hide Progress, Reached;
    ProgressSame(w2);
    ReachedWithin(w, w1, w2, w2, targets, line);
  }

  /** The next recipient after some that were reached, each send with its own cascade. */
  lemma ReachedOneMore(w: World, batch: multiset<Attempt>, w1: World, more: multiset<Attempt>, w2: World,
                       told: set<Fd>, to: Fd, line: string)
    requires Cascade(Asked(w, batch), w1) && Reached(w, w1, told, line)
    requires Cascade(Asked(w1, more), w2) && Reached(w1, w2, {to}, line)
    ensures Reached(w, w2, told + {to}, line)
  {
    hide Notices, Mourned, Survive, Shrunk, Heard, Reached, Got;
    HeardSame(w); HeardSame(w2);
    ShrunkSame(w2.connections);
    ReachedIn(w, w, w1, w2, told, line);
    ReachedIn(w, w1, w2, w2, {to}, line);
    ReachedUnion(w, w2, told, {to}, line);
  }

  lemma HeardAmong(alive: set<Fd>, fewer: set<Fd>, a: map<Fd, seq<string>>, b: map<Fd, seq<string>>)
    requires Heard(alive, a, b) && fewer <= alive
    ensures Heard(fewer, a, b)
  {}

  lemma HeardSelf(alive: set<Fd>, lines: map<Fd, seq<string>>)
    ensures Heard(alive, lines, lines)
  {}

  lemma HeardSame(w: World)
    ensures Heard(w.connections.Keys, w.log.lines, w.log.lines)
  {}

  /** Being reached is about queues alone. */
  lemma ReachedSameWires(w: World, v: World, w1: World, w2: World, targets: set<Fd>, line: string)
    requires Reached(w, w1, targets, line)
    requires v.log.lines == w.log.lines && w2.connections == w1.connections && w2.log == w1.log
    ensures Reached(v, w2, targets, line)
  {}

  lemma ReachedByQueue(w: World, w1: World, fd: Fd, line: string)
    requires fd in w1.connections && !w1.connections[fd].closeRequested ==>
               LinesOf(w1.log.lines, fd) == LinesOf(w.log.lines, fd) + [line]
    ensures Reached(w, w1, {fd}, line)
  {
    if fd in w1.connections && !w1.connections[fd].closeRequested {
      var before, after := LinesOf(w.log.lines, fd), LinesOf(w1.log.lines, fd);
      assert after[|before|..] == [line];
    }
  }

  lemma TookByQueue(w: World, w1: World, fd: Fd, line: string)
    requires fd in w1.connections ==>
               LinesOf(w1.log.lines, fd) == LinesOf(w.log.lines, fd) + [line] || Full(w1.connections[fd], line)
    ensures Took(w, w1, fd, line)
  {
    hide Full;
    if fd in w1.connections && LinesOf(w1.log.lines, fd) == LinesOf(w.log.lines, fd) + [line] {
      var before, after := LinesOf(w.log.lines, fd), LinesOf(w1.log.lines, fd);
      assert after[|before|..] == [line];
    }
  }

  /** A refused line did not fit. */
  lemma RefusedIsFull(link: Link, line: string)
    requires link.Valid() && !QueueLine(link, line).1
    ensures Full(QueueLine(link, line).0, line)
  {}

  lemma ReachedNobody(w: World, w': World, line: string)
    ensures Reached(w, w', {}, line)
  {}

  /** Those no longer connected do not matter. */
  lemma ReachedAmong(w: World, w': World, some: set<Fd>, all: set<Fd>, line: string)
    requires Reached(w, w', some, line) && forall t :: t in all && t in w'.connections ==> t in some
    ensures Reached(w, w', all, line)
  {}

  lemma ReachedUnion(w: World, w': World, s: set<Fd>, t: set<Fd>, line: string)
    requires Reached(w, w', s, line) && Reached(w, w', t, line)
    ensures Reached(w, w', s + t, line)
  {}

  lemma AskedNothing(w: World, cause: Cause)
    ensures Asked(w, Copies({}, cause)) == w
  {
    assert Noted(w.log, Copies({}, cause)).owed == w.log.owed;
  }

  // ----- Refreshing an interest -----

  lemma TightWhenGone(w: World, fd: Fd)
    requires Good(w) && fd !in w.connections
    ensures Tight(w, fd)
  {
    hide WF, GreetedOnce, SpokenOk, WiresOk, LinksValid;
    StrictlySettled(w.connections, w.interests, w.loose, fd);
  }

  ghost function Watched(w: World, fd: Fd): World
    requires fd in w.connections
  {
    w.(interests := w.interests[fd := Wanted(w.connections[fd])])
  }

  lemma WatchedIsGood(w: World, fd: Fd)
    requires Good(w) && fd in w.connections && fd in w.loose
    requires !w.connections[fd].closeRequested || w.connections[fd].WantsWrite()
    ensures Good(Watched(w, fd)) && Tight(Watched(w, fd), fd) && Cascade(w, Watched(w, fd))
  {
    hide WF, GreetedOnce, SpokenOk, WiresOk, LinksValid, AllSettled, Notices, Mourned, Shrunk, Survive;
    RefreshKeeps(w.connections, w.interests, w.loose, fd);
    SettledLoosely(w.connections, Watched(w, fd).interests, w.loose, fd);
    CascadeSame(w);
    HeardSelf(w.connections.Keys, w.log.lines);
    MournedSince(w, w, w, Watched(w, fd));
  }

  lemma UpdateIsSafe(w: World, fd: Fd)
    requires Good(w) && fd in w.connections
    ensures fd in w.interests && SafeUpdate(w.interests[fd], Wanted(w.connections[fd]))
  {
    hide WF, LinksValid, WiresOk, GreetedOnce, SpokenOk, Settled;
  }

  /** No update the relay asks for can leave a filter behind in the kernel when it fails: a connection not
      watched for reading is closing, and a closing one is not watched for reading again. */
  lemma RefreshIsSafe(w: World, fd: Fd, kernel: set<Registration>, readFails: bool, writeFails: bool)
    requires Good(w) && fd in w.connections && InStep(kernel, w.interests)
    ensures Undone(kernel, w.interests, fd, Wanted(w.connections[fd]), readFails, writeFails)
  {
    hide Good, InStep, Undone;
    UpdateIsSafe(w, fd);
    FailedDiffIsUndone(kernel, w.interests, fd, Wanted(w.connections[fd]));
  }

  /** Nor can the one asked for when a connection is accepted. */
  lemma OpeningIsSafe(w: World, fd: Fd, kernel: set<Registration>, readFails: bool, writeFails: bool)
    requires Good(w) && fd !in w.connections && InStep(kernel, w.interests)
    ensures Undone(kernel, w.interests, fd, Interest(true, false), readFails, writeFails)
  {
    hide WF, LinksValid, WiresOk, GreetedOnce, SpokenOk, Settled, InStep, Undone;
    FailedDiffIsUndone(kernel, w.interests, fd, Interest(true, false));
  }

  // ----- Opening a connection -----

  /** A connection accepted and watched for reading, and its client record created. */
  ghost function Opened(w: World, fd: Fd, link: Link, b: App): World {
    w.(connections := w.connections[fd := link], interests := w.interests[fd := Interest(true, false)],
       accepted := w.accepted + 1, app := b, log := OpenedLog(w.log, fd))
  }

  ghost function OpenedLog(log: Log, fd: Fd): Log {
    log.(delivered := log.delivered[fd := ""], lines := log.lines[fd := []],
         baseline := log.baseline[fd := log.attempts[Attempt(fd, Welcome)]])
  }

  /** One more connection is within the limit, zero meaning no limit. */
  predicate HasRoom(links: Links, limit: nat) {
    limit == 0 || |links| < limit
  }

  lemma OpenedLogOwes(log: Log, fd: Fd)
    ensures OpenedLog(log, fd).owed == log.owed
  {}

  lemma OpenedKeys(links: Links, fd: Fd, link: Link)
    requires fd !in links
    ensures links[fd := link].Keys == links.Keys + {fd} && |links[fd := link]| == |links| + 1
  {
    assert |links[fd := link].Keys| == |links.Keys + {fd}|;
  }

  lemma OpenedLinks(links: Links, interests: Interests, loose: set<Fd>, fd: Fd, link: Link)
    requires LinksValid(links) && AllSettled(links, interests, loose)
    requires fd !in links && link.Valid() && link.Retains() && link.Pending() == "" && !link.closeRequested
    ensures LinksValid(links[fd := link])
    ensures AllSettled(links[fd := link], interests[fd := Interest(true, false)], loose)
  {
    hide Settled;
    FreshIsSettled(link);
  }

  lemma OpenedWires(links: Links, delivered: map<Fd, string>, lines: map<Fd, seq<string>>, fd: Fd, link: Link)
    requires WiresOk(links, delivered, lines)
    requires fd !in links && link.Valid() && link.Pending() == ""
    ensures WiresOk(links[fd := link], delivered[fd := ""], lines[fd := []])
  {
    assert "" + link.Pending() == WireAll([]);
    hide WireAll;
  }

  lemma FreshIsSettled(link: Link)
    requires link.writeOffset <= |link.writeBuffer| && link.Pending() == "" && !link.closeRequested
    ensures Settled(link, Interest(true, false))
  {}

  lemma OpenedGreetings(clients: Clients, more: Clients, attempts: multiset<Attempt>, baseline: map<Fd, nat>, fd: Fd)
    requires GreetedOnce(clients, attempts, baseline, {}) && fd !in clients
    requires more.Keys == clients.Keys + {fd} && !more[fd].registered
    requires forall f :: f in clients ==> more[f] == clients[f]
    ensures GreetedOnce(more, attempts, baseline[fd := attempts[Attempt(fd, Welcome)]], {})
  {}

  lemma OpenedIsGood(w: World, fd: Fd, link: Link, b: App)
    requires Good(w) && w.closing == {} && w.log.owed == {} && fd !in w.connections
    requires HasRoom(w.connections, w.limit)
    requires link.Valid() && link.Retains() && link.Pending() == "" && !link.closeRequested
    requires WF(b) && b.clients.Keys == w.app.clients.Keys + {fd} && !b.clients[fd].registered
    requires forall f :: f in w.app.clients ==> b.clients[f] == w.app.clients[f]
    ensures Good(Opened(w, fd, link, b))
  {
    hide WF, LinksValid, AllSettled, WiresOk, GreetedOnce, SpokenOk;
    OpenedGreetings(w.app.clients, b.clients, w.log.attempts, w.log.baseline, fd);
    assert w.connections.Keys + {fd} + {} == w.connections.Keys + {fd};
    OpenedKeys(w.connections, fd, link);
    OpenedLinks(w.connections, w.interests, w.loose, fd, link);
    OpenedWires(w.connections, w.log.delivered, w.log.lines, fd, link);
    OpenedSpoken(w.connections, w.log, fd, link);
  }

  lemma OpenedSpoken(links: Links, log: Log, fd: Fd, link: Link)
    requires SpokenOk(links, log)
    ensures SpokenOk(links[fd := link], OpenedLog(log, fd))
  {
    hide OneLine, CommandWord;
  }

  // ----- Settling -----

  lemma Loosened(w: World, fd: Fd)
    requires Good(w) && w.loose == {}
    ensures Good(w.(loose := {fd}))
  {
    hide WF, LinksValid, WiresOk, GreetedOnce, SpokenOk;
  }

  lemma Tightened(w: World, fd: Fd)
    requires Good(w) && w.loose == {fd} && Tight(w, fd)
    ensures Good(w.(loose := {}))
  {
    hide WF, LinksValid, WiresOk, GreetedOnce, SpokenOk, AllSettled;
    assert {fd} - {fd} == {};
  }

  // ----- Disconnecting -----

  ghost function Unlinked(w: World, fd: Fd): World {
    w.(connections := w.connections - {fd}, interests := w.interests - {fd}, closed := w.closed + 1,
       closing := w.closing + {fd})
  }

  lemma UnlinkedIsGood(w: World, fd: Fd)
    requires Good(w) && fd in w.connections
    ensures Good(Unlinked(w, fd)) && Unlinked(w, fd).connections.Keys < w.connections.Keys
    ensures w.closing + {fd} - {fd} == w.closing
  {
    hide WF, GreetedOnce, SpokenOk, Shrunk, AllSettled, LinksValid, WiresOk;
    RemovalKeeps(w.connections, w.interests, w.loose, w.log.delivered, w.log.lines, fd);
    SpokenSame(w.connections, w.log, w.connections - {fd}, w.log);
    MoveAcross(w.connections.Keys, w.closing, fd);
  }

  lemma MoveAcross(from: set<Fd>, to: set<Fd>, fd: Fd)
    requires fd in from && from !! to
    ensures (from - {fd}) + (to + {fd}) == from + to && (from - {fd}) !! (to + {fd})
    ensures from - {fd} < from
  {}

  lemma DropOne(kept: set<Fd>, other: set<Fd>, fd: Fd)
    requires fd in other && kept !! other
    ensures kept + other - {fd} == kept + (other - {fd}) && kept !! (other - {fd})
  {}

  lemma DisconnectIsCascade(w: World, fd: Fd, w1: World)
    requires Good(w) && fd in w.connections && fd !in w1.app.clients
    requires Good(w1) && Cascade(Unlinked(w, fd).(closing := w.closing), w1)
    ensures Cascade(w, w1) && fd !in w1.connections
  {
    hide WF, GreetedOnce, SpokenOk, Shrunk, AllSettled, LinksValid, WiresOk, Notices, Mourned, Survive;
    RemovalKeeps(w.connections, w.interests, w.loose, w.log.delivered, w.log.lines, fd);
    ShrunkThen(w.connections, w.connections - {fd}, w1.connections);
    HeardSame(w1);
    var unlinked := Unlinked(w, fd).(closing := w.closing);
    assert Heard(w1.connections.Keys, w.log.lines, w.log.lines) by { HeardSelf(w1.connections.Keys, w.log.lines); }
    MournedSince(w, unlinked, w1, w1);
  }

  ghost function Erased(w: World, fd: Fd): World {
    w.(app := Survive(w.app, w.app.clients.Keys - {fd}), closing := w.closing - {fd})
  }

  lemma GreetedSubset(a: App, alive: set<Fd>, log: Log)
    requires GreetedOnce(a.clients, log.attempts, log.baseline, log.owed)
    ensures GreetedOnce(Survive(a, alive).clients, log.attempts, log.baseline, log.owed)
  {}

  lemma ErasedIsGood(w: World, fd: Fd)
    requires Good(w) && fd in w.closing
    ensures Good(Erased(w, fd)) && Erased(w, fd).app.clients.Keys == w.app.clients.Keys - {fd}
  {
    hide WF, AllSettled, LinksValid, WiresOk, Survive, GreetedOnce, SpokenOk;
    var left := w.app.clients.Keys - {fd};
    SurviveWF(w.app, left);
    SurviveKeys(w.app, left);
    DropOne(w.connections.Keys, w.closing, fd);
    GreetedSubset(w.app, left, w.log);
  }

  /** After its peers were told, the client's own record goes; the whole is again a cascade. */
  lemma ErasureEndsCascade(w: World, fd: Fd, w1: World, reason: string)
    requires Good(w) && fd in w.closing && fd in w.app.clients
    requires Reached(w, w1, CoMembers(w.app.channels, fd), QuitLine(w.app.clients[fd], reason))
    requires Good(w1) && Cascade(Asked(w, Copies(CoMembers(w.app.channels, fd), Quit(fd))), w1)
    ensures Good(Erased(w1, fd)) && Cascade(w.(closing := w.closing - {fd}), Erased(w1, fd))
    ensures Farewell(w.app.channels, w.log.attempts, Erased(w1, fd).log.attempts, fd)
    ensures fd !in Erased(w1, fd).app.clients
  {
    hide Good, Farewell, Shrunk, Heard, Notices, Mourned, Survive, CoMembers, Copies, Noted, WF, RoomsOk,
         IndexAgrees, ClientsOk, Reached, QuitLine;
    var k, k1 := w.app.clients.Keys, w1.app.clients.Keys;
    GoodFacts(w1);
    ErasedIsGood(w1, fd);
    NotedCopies(w.log, CoMembers(w.app.channels, fd), Quit(fd));
    SurviveTwice(w.app, k1, k1 - {fd});
    OneMoreGone(k, k1, fd);
    NoticesOwn(w.app.channels, w.log.attempts, w1.log.attempts, k, k1, fd);
    OwnMourning(w, fd, w1, reason);
  }

  /** The client's own QUIT was accepted for its co-members, and those of the ones that went before it. */
  lemma OwnMourning(w: World, fd: Fd, w1: World, reason: string)
    requires fd in w.app.clients && Mourned(Asked(w, Copies(CoMembers(w.app.channels, fd), Quit(fd))), w1)
    requires Reached(w, w1, CoMembers(w.app.channels, fd), QuitLine(w.app.clients[fd], reason))
    requires Erased(w1, fd).app.clients.Keys == w1.app.clients.Keys - {fd}
    ensures Mourned(w.(closing := w.closing - {fd}), Erased(w1, fd))
  {
    hide CoMembers, QuitLine, Survive, Copies, Noted, Got;
    var v, w2 := w.(closing := w.closing - {fd}), Erased(w1, fd);
    forall who, to | && who in v.app.clients && who !in w2.app.clients && to in CoMembers(v.app.channels, who)
                     && to in w2.app.clients && to in w2.connections && !w2.connections[to].closeRequested
      ensures Mourning(LinesOf(v.log.lines, to), LinesOf(w2.log.lines, to), v.app.clients[who])
    {
      if who == fd {
        assert Got(LinesOf(w.log.lines, to), LinesOf(w1.log.lines, to), QuitLine(w.app.clients[fd], reason));
      }
    }
  }

  lemma NotedCopies(log: Log, targets: set<Fd>, cause: Cause)
    requires !cause.Welcome?
    ensures Noted(log, Copies(targets, cause)) == log.(attempts := log.attempts + Copies(targets, cause))
  {
    CopiesAreDue(log, targets, cause);
  }

  lemma OneMoreGone(all: set<Fd>, left: set<Fd>, fd: Fd)
    requires fd in left && left <= all
    ensures (all - left) + {fd} == all - (left - {fd}) && fd !in all - left
  {}

  // ----- What an observer may rely on between two events -----

  /** Whatever the socket did to the octets and however the peer reads them, the peer has a prefix of the
      lines accepted for it, one frame for each, and all of them once nothing is pending, unless one is too
      long for it. */
  lemma PeerSeesAcceptedLines(w: World, fd: Fd, chunks: seq<string>, limit: nat)
    requires Good(w) && fd in w.connections && fd in w.log.delivered && Concat(chunks) == w.log.delivered[fd]
    ensures w.connections[fd].writeOffset <= |w.connections[fd].writeBuffer|
    ensures Reads(LinesOf(w.log.lines, fd), w.connections[fd].Pending(), FeedAll(chunks, limit), limit)
  {
    hide Good, WireAll, OneLine, Reads;
    LinkFacts(w, fd);
    assert forall line :: line in w.log.lines[fd] ==> OneLine(line) by { LinesAreWhole(w, fd); }
    ReaderSeesPrefix(w.log.lines[fd], w.log.delivered[fd], w.connections[fd].Pending(), chunks, limit);
  }

  lemma LinesAreWhole(w: World, fd: Fd)
    requires Good(w) && fd in w.connections
    ensures fd in w.log.lines && fd in w.log.baseline && forall line :: line in w.log.lines[fd] ==> OneLine(line)
    ensures w.log.baseline[fd] + Welcomes(w.log.lines[fd]) <= w.log.attempts[Attempt(fd, Welcome)]
  {
    hide WF, LinksValid, AllSettled, WiresOk, GreetedOnce, OneLine;
  }
}
