/** The lines the relay sends (`Replies`): their text, that each is one line and is what its command says, and
    what it means that a request was answered or a message delivered. */
module Replies {
  import opened Text
  import opened Framing
  import opened Messages
  import opened State
  import opened Worlds
  import opened Commands
  import opened CommandLaws
  import opened Runs

  /** `Replies::code`: at least three digits. */
  function Code(numeric: nat): string {
    (if numeric < 10 then "00" else if numeric < 100 then "0" else "") + Decimal(numeric)
  }

  const CLIENT_QUIT: Words := "Client Quit"
  const WRONG_PASSWORD: Words := "Password incorrect"
  const RATE_EXCEEDED: Words := "command rate limit exceeded"
  const REGISTRATION_TIMEOUT: Words := "registration timeout"
  const PING_TIMEOUT: Words := "ping timeout"
  const READINESS_ERROR: Words := "socket readiness error"
  const PEER_HANGUP: Words := "peer hangup"
  const SERVER_STOPPED: Words := "server stopped"
  const SHUTTING_DOWN: Words := "Server shutting down"
  const LEAVING_ALL: Words := "Leaving all channels"
  const PING_ERROR: Words := "Ping timeout"

  /** Why a connection is dropped on a readiness error, with the description of its code if it has one. */
  function ReadinessError(fault: Option<Words>): Words {
    match fault
    case None => READINESS_ERROR
    case Some(text) => READINESS_ERROR + ": " + text
  }

  // ----- Lines fit to be sent -----

  /** A printed message is one line, and is what its command says. */
  lemma ProperMessage(m: Message, cause: Cause)
    requires Sayable(m)
    requires cause.Welcome? <==> m.command == "001"
    requires cause.Quit? <==> m.command == "QUIT"
    requires cause.Rename? <==> m.command == "NICK"
    ensures Proper(Format(m), cause)
  {
    hide CommandWord, Tidy, Body, Sayable;
    FormatSaysCommand(m);
    BodyIsTidy(m);
    FormatIsOneLine(m);
  }

  lemma FormatIsOneLine(m: Message)
    requires Tidy(Body(m))
    ensures OneLine(Format(m))
  {
    hide Body;
    FormatTrims(m);
    var t := TrimLineEnd(Format(m));
    assert forall i :: 0 <= i < |t| ==> t[i] == Body(m)[i];
  }

  lemma LiteralsAreTidy()
    ensures Tidy("") && Tidy("=") && Tidy("+") && Tidy("-") && Tidy("open room")
    ensures Tidy("PASS") && Tidy("USER") && Tidy("JOIN") && Tidy("PART") && Tidy("KICK") && Tidy("MODE")
    ensures Tidy("TOPIC") && Tidy("INVITE") && Tidy("Channel") && Tidy("Users") && Tidy("Name")
  {}

  lemma SignsAreTidy(sign: string, mode: char, modes: string)
    requires (sign == "+" || sign == "-") && Tidy(modes) && mode in modes
    ensures Tidy(sign + "i") && Tidy(sign + "t") && Tidy("") && Tidy([mode])
  {}

  lemma NickIsTidy(clients: Clients, fd: Fd)
    requires ClientsOk(clients) && fd in clients
    ensures Tidy(clients[fd].nick)
  {
    assert ClientOk(clients[fd]);
  }

  lemma DigitsAreTidy(n: nat)
    ensures Tidy(Decimal(n))
  {
    var digits := Decimal(n);
    assert forall i :: 0 <= i < |digits| ==> IsDigit(digits[i]);
  }

  lemma TokenIsTidy(fd: Fd, n: nat)
    ensures Tidy(Token(fd, n))
  {
    DigitsAreTidy(fd);
    DigitsAreTidy(n);
  }

  lemma OperatorSignsAreTidy()
    ensures Tidy("+o") && Tidy("-o")
  {}

  lemma WordsAreTidy(text: Words)
    ensures Tidy(text)
  {}

  lemma AddressIsTidy(host: Address)
    ensures Tidy(host)
  {}

  lemma RoomIsTidy(rooms: Rooms, clients: Clients, name: string)
    requires RoomsOk(rooms, clients) && name in rooms
    ensures Tidy(name) && Tidy(rooms[name].topic)
  {
    assert RoomOk(name, rooms[name], clients);
  }

  lemma CodeIsWord(numeric: nat)
    ensures IsCommandWord(Code(numeric)) && Code(numeric) != "QUIT" && Code(numeric) != "NICK"
    ensures Code(numeric) == "001" <==> numeric == 1
  {
    var digits := Code(numeric);
    assert forall i :: 0 <= i < |digits| ==> IsDigit(digits[i]);
    DecimalRoundTrip(numeric);
    OneInDigits();
    if numeric < 10 {
      assert digits[2..] == Decimal(numeric) && "001"[2..] == "1";
    } else if numeric < 100 {
      assert digits[1..] == Decimal(numeric) && "001"[1..] == "01";
    } else {
      assert digits == Decimal(numeric);
    }
  }

  lemma OneInDigits()
    ensures DecimalValue("001") == 1 && DecimalValue("01") == 1 && DecimalValue("1") == 1 && Decimal(1) == "1"
  {
    assert "001"[..2] == "00" && "00"[..1] == "0" && "01"[..1] == "0" && "0"[..0] == "" && "1"[..0] == "";
  }

  lemma RecordIsOk(clients: Clients, fd: Fd)
    requires ClientsOk(clients) && fd in clients
    ensures ClientOk(clients[fd])
  {}

  /** A client's mask is one word. */
  lemma MaskIsWord(c: Client)
    requires ClientOk(c)
    ensures IsWord(HostMask(c))
  {}

  /** A reader of a mask has the nickname before the first exclamation mark, and the host at its end. */
  lemma MaskIsReadable(c: Client)
    requires '!' !in c.nick
    ensures Find(HostMask(c), '!') < |HostMask(c)| && HostMask(c)[..Find(HostMask(c), '!')] == c.nick
    ensures c.host != "" ==> |c.host| < |HostMask(c)| && HostMask(c)[|HostMask(c)| - |c.host| - 1..] == "@" + c.host
    ensures c.user != "" ==> c.nick + "!" + c.user + "@" <= HostMask(c)
  {
    var mask, n := HostMask(c), |c.nick|;
    assert mask[n] == '!' && mask[..n] == c.nick;
    assert forall i :: 0 <= i < n ==> mask[i] == c.nick[i];
  }

  /** Whom a message of `fd` for `target` is for: the other members of its channel, or one nickname. */
  function Recipients(a: App, fd: Fd, target: string): set<Fd> {
    if IsChannelTarget(target) then
      if target in a.channels && fd in a.channels[target].members then a.channels[target].members - {fd} else {}
    else
      var to := FindNick(a, target);
      if to.Some? then {to.value} else {}
  }

  /** The farewell of a client is fit to be sent. */
  lemma QuitIsProper(c: Client, fd: Fd, reason: Words)
    requires ClientOk(c)
    ensures Proper(QuitLine(c, reason), Quit(fd))
  {
    hide ClientOk, HostMask, Proper, Format, IsCommandWord;
    MaskIsWord(c);
    NoticesAreWords();
    ProperMessage(Message(HostMask(c), "QUIT", [reason]), Quit(fd));
  }

  /** A first PASS with another password than the relay's. */
  predicate WrongPassword(cfg: Config, c: Client, params: seq<string>) {
    !c.registered && !c.passOk && params != [] && cfg.password != "" && params[0] != cfg.password
  }

  /** The commands of the lines sent besides numerics, farewells and renames. */
  predicate Everyday(command: string) {
    || command == "JOIN" || command == "PART" || command == "KICK" || command == "MODE" || command == "TOPIC"
    || command == "INVITE" || command == "PRIVMSG" || command == "PING" || command == "PONG" || command == "ERROR"
    || command == "NOTICE"
  }

  lemma EverydayIsWord(command: string)
    requires Everyday(command)
    ensures IsCommandWord(command) && command != "001" && command != "QUIT" && command != "NICK"
  {}

  lemma NoticesAreWords()
    ensures IsCommandWord("001") && IsCommandWord("QUIT") && IsCommandWord("NICK")
  {}

  function ReplyTarget(clients: Clients, fd: Fd): string {
    if fd in clients && clients[fd].nick != "" then clients[fd].nick else "*"
  }

  /** What a scan of the records for a folded nickname finds: the one client that has it, if any. */
  ghost predicate ScanFinds(clients: Clients, nick: string, r: Option<Fd>) {
    match r
    case None => forall f :: f in clients && clients[f].nick != "" ==> Canonical(clients[f].nick) != Canonical(nick)
    case Some(fd) =>
      && fd in clients && clients[fd].nick != ""
      && forall f :: f in clients && clients[f].nick != "" ==>
          (Canonical(clients[f].nick) == Canonical(nick) <==> f == fd)
  }

  /** A numeric reply without its closing words. */
  function NumericLine(clients: Clients, fd: Fd, code: nat, params: seq<string>): string {
    Format(Message(SERVER_NAME, Code(code), [ReplyTarget(clients, fd)] + params))
  }

  /** The line depends on the nickname alone. */
  lemma NumericLineSame(a: Clients, b: Clients, fd: Fd, code: nat, params: seq<string>)
    requires fd in a && fd in b && a[fd].nick == b[fd].nick
    ensures NumericLine(a, fd, code, params) == NumericLine(b, fd, code, params)
  {}

  lemma ReplyTargetIsTidy(clients: Clients, fd: Fd)
    requires ClientsOk(clients)
    ensures Tidy(ReplyTarget(clients, fd))
  {
    if fd in clients {
      NickIsTidy(clients, fd);
    }
  }

  lemma NumericIsProper(clients: Clients, fd: Fd, code: nat, params: seq<string>)
    requires ClientsOk(clients) && code != 1 && AllTidy(params)
    ensures Proper(NumericLine(clients, fd, code, params), Other)
  {
    hide Format, Proper, Code, IsCommandWord, ReplyTarget;
    CodeIsWord(code);
    ReplyTargetIsTidy(clients, fd);
    ProperMessage(Message(SERVER_NAME, Code(code), [ReplyTarget(clients, fd)] + params), Other);
  }

  // ----- Replies about channels -----

  function TopicLine(a: App, fd: Fd, name: string): string
    requires name in a.channels
  {
    var ch := a.channels[name];
    if ch.hasTopic then NumericLine(a.clients, fd, 332, [name, ch.topic]) else NumericLine(a.clients, fd, 331, [name])
  }

  /** The reply about the topic does not depend on who else is left. */
  lemma TopicLineSurvives(a: App, alive: set<Fd>, fd: Fd, name: string)
    requires name in a.channels && name in Survive(a, alive).channels && fd in Survive(a, alive).clients
    ensures TopicLine(Survive(a, alive), fd, name) == TopicLine(a, fd, name)
  {
    hide Format, Code;
  }

  function ListLine(a: App, fd: Fd, name: string): string
    requires name in a.channels
  {
    var ch := a.channels[name];
    NumericLine(a.clients, fd, 322, [name, Decimal(|ch.members|), if ch.hasTopic then ch.topic else "open room"])
  }

  function NickOf(clients: Clients, fd: Fd): string {
    if fd in clients then clients[fd].nick else ""
  }

  /** Nicknames separated by spaces, operators marked. */
  function Roll(clients: Clients, operators: set<Fd>, order: seq<Fd>): string {
    if order == [] then ""
    else
      var front, last := order[..|order| - 1], order[|order| - 1];
      var word := (if last in operators then "@" else "") + NickOf(clients, last);
      if front == [] then word else Roll(clients, operators, front) + " " + word
  }

  ghost predicate Lists(order: seq<Fd>, members: set<Fd>) {
    Distinct(order) && forall f :: f in order <==> f in members
  }

  function NamesLine(a: App, fd: Fd, name: string, order: seq<Fd>): string
    requires name in a.channels
  {
    NumericLine(a.clients, fd, 353, ["=", name, Roll(a.clients, a.channels[name].operators, order)])
  }

  /** `fd` has had a reply with all members of the channel and the end of the list, unless it is gone or
      closing. */
  ghost predicate RollCalled(w: World, w': World, fd: Fd, name: string)
    requires name in w.app.channels
  {
    && Reached(w, w', {fd}, NumericLine(w.app.clients, fd, 366, [name]))
    && exists order ::
         Lists(order, w.app.channels[name].members) && Reached(w, w', {fd}, NamesLine(w.app, fd, name, order))
  }

  lemma RollIsCalled(w: World, w': World, fd: Fd, name: string, order: seq<Fd>)
    requires name in w.app.channels && Lists(order, w.app.channels[name].members)
    requires Reached(w, w', {fd}, NamesLine(w.app, fd, name, order))
    requires Reached(w, w', {fd}, NumericLine(w.app.clients, fd, 366, [name]))
    ensures RollCalled(w, w', fd, name)
  {}

  /** A roll called in the middle of a stretch. */
  lemma RollCalledIn(w: World, w1: World, w2: World, w3: World, fd: Fd, name: string)
    requires Progress(w, w1) && Progress(w1, w2) && Progress(w2, w3)
    requires name in w1.app.channels && RollCalled(w1, w2, fd, name)
    ensures RollCalled(w.(app := w1.app), w3, fd, name)
  {
    hide Progress, Reached, NamesLine, Lists, NumericLine;
    var v, members := w.(app := w1.app), w1.app.channels[name].members;
    var order :| Lists(order, members) && Reached(w1, w2, {fd}, NamesLine(w1.app, fd, name, order));
    var line, end := NamesLine(w1.app, fd, name, order), NumericLine(w1.app.clients, fd, 366, [name]);
    ReachedWithin(w, w1, w2, w3, {fd}, line);
    ReachedWithin(w, w1, w2, w3, {fd}, end);
    ReachedSameWires(w, v, w3, w3, {fd}, line);
    ReachedSameWires(w, v, w3, w3, {fd}, end);
  }

  lemma {:induction false} RollIsTidy(clients: Clients, operators: set<Fd>, order: seq<Fd>)
    requires ClientsOk(clients)
    ensures Tidy(Roll(clients, operators, order))
  {
    hide ClientsOk;
    if order != [] {
      var last := order[|order| - 1];
      RollIsTidy(clients, operators, order[..|order| - 1]);
      if last in clients {
        NickIsTidy(clients, last);
      }
    }
  }

  /** A reply about each of these channels was accepted for `fd`, unless it is gone or closing. */
  ghost predicate Listed(w: World, w': World, fd: Fd, names: set<string>) {
    forall n :: n in names && n in w.app.channels ==> Reached(w, w', {fd}, ListLine(w.app, fd, n))
  }

  /** A reply about a name: the members, or just the end of a list if there is no such channel. */
  ghost predicate NameAnswered(w: World, w': World, fd: Fd, name: string) {
    if name in w.app.channels then RollCalled(w, w', fd, name)
    else Reached(w, w', {fd}, NumericLine(w.app.clients, fd, 366, [name]))
  }

  ghost predicate Named(w: World, w': World, fd: Fd, names: set<string>) {
    forall n :: n in names ==> NameAnswered(w, w', fd, n)
  }

  lemma ListedOneMore(w: World, w1: World, w2: World, fd: Fd, names: set<string>, name: string)
    requires Progress(w, w1) && Progress(w1, w2) && Listed(w, w1, fd, names) && w1.app == w.app
    requires name in w.app.channels && Reached(w1, w2, {fd}, ListLine(w.app, fd, name))
    ensures Listed(w, w2, fd, names + {name})
  {
    hide Progress, Reached, ListLine;
    forall n | n in names + {name} && n in w.app.channels
      ensures Reached(w, w2, {fd}, ListLine(w.app, fd, n))
    {
      if n in names {
        ReachedThen(w, w1, w2, {fd}, ListLine(w.app, fd, n));
      } else {
        ReachedLater(w, w1, w2, {fd}, ListLine(w.app, fd, n));
      }
    }
  }

  lemma NamedOneMore(w: World, w1: World, w2: World, fd: Fd, names: set<string>, name: string)
    requires Progress(w, w1) && Progress(w1, w2) && Named(w, w1, fd, names) && w1.app == w.app
    requires NameAnswered(w1, w2, fd, name)
    ensures Named(w, w2, fd, names + {name})
  {
    hide Progress, NameAnswered;
    ProgressSame(w);
    ProgressSame(w2);
    forall n | n in names + {name}
      ensures NameAnswered(w, w2, fd, n)
    {
      if n in names {
        NameAnsweredIn(w, w, w1, w2, fd, n);
      } else {
        NameAnsweredIn(w, w1, w2, w2, fd, n);
      }
    }
  }

  lemma NameAnsweredIn(w: World, w1: World, w2: World, w3: World, fd: Fd, name: string)
    requires Progress(w, w1) && Progress(w1, w2) && Progress(w2, w3) && w1.app == w.app
    requires NameAnswered(w1, w2, fd, name)
    ensures NameAnswered(w, w3, fd, name)
  {
    hide Progress, RollCalled, Reached, NumericLine;
    if name in w.app.channels {
      RollCalledIn(w, w1, w2, w3, fd, name);
      assert w.(app := w1.app) == w;
    } else {
      ReachedWithin(w, w1, w2, w3, {fd}, NumericLine(w.app.clients, fd, 366, [name]));
    }
  }

  lemma NothingListed(w: World, w': World, fd: Fd)
    ensures Listed(w, w', fd, {}) && Named(w, w', fd, {})
  {}

  lemma ListedAmong(w: World, w': World, fd: Fd, names: set<string>, all: set<string>)
    requires Listed(w, w', fd, names) && forall n :: n in all && n in w.app.channels ==> n in names
    ensures Listed(w, w', fd, all)
  {
    hide Reached, ListLine;
  }

  lemma ListedThen(w: World, w1: World, w2: World, fd: Fd, names: set<string>)
    requires Progress(w, w1) && Progress(w1, w2) && Listed(w, w1, fd, names)
    ensures Listed(w, w2, fd, names)
  {
    hide Progress, Reached, ListLine;
    forall n | n in names && n in w.app.channels
      ensures Reached(w, w2, {fd}, ListLine(w.app, fd, n))
    {
      ReachedThen(w, w1, w2, {fd}, ListLine(w.app, fd, n));
    }
  }

  /** Nothing is owed to a client that is gone or closing. */
  lemma NothingOwed(w: World, w': World, fd: Fd, names: set<string>)
    requires Ending(w'.connections, fd)
    ensures Listed(w, w', fd, names) && Named(w, w', fd, names)
  {
    forall n | n in names
      ensures NameAnswered(w, w', fd, n)
    {
      if n in w.app.channels {
        var order := SomeOrder(w.app.channels[n].members);
        RollIsCalled(w, w', fd, n, order);
      }
    }
  }

  lemma SomeOrder(all: set<Fd>) returns (order: seq<Fd>)
    ensures Lists(order, all)
    decreases |all|
  {
    if all == {} {
      order := [];
    } else {
      var f :| f in all;
      order := SomeOrder(all - {f});
      order := order + [f];
    }
  }

  lemma WelcomeIsProper(nick: string)
    requires IsWord(nick)
    ensures Proper(Format(Message(SERVER_NAME, "001", [nick])), Welcome)
  {
    hide Format, Proper, IsCommandWord;
    NoticesAreWords();
    ProperMessage(Message(SERVER_NAME, "001", [nick]), Welcome);
  }

  lemma RenameIsProper(prefix: string, fd: Fd, nick: string)
    requires IsWord(prefix) && Tidy(nick)
    ensures Proper(Format(Message(prefix, "NICK", [nick])), Rename(fd))
  {
    hide Format, Proper, IsCommandWord, IsWord;
    NoticesAreWords();
    ProperMessage(Message(prefix, "NICK", [nick]), Rename(fd));
  }

  lemma ErrorIsProper(reason: Words)
    ensures Proper(Format(Message("", "ERROR", [reason])), Other)
  {
    hide Format, Proper, IsCommandWord;
    EverydayIsWord("ERROR");
    ProperMessage(Message("", "ERROR", [reason]), Other);
  }

  function MessageLine(prefix: string, target: string, text: string): string {
    Format(Message(prefix, "PRIVMSG", [target, text]))
  }

  /** Each recipient of a target has had the message accepted. Once the sender is gone it is in no channel,
      and what still goes to a nickname goes in the server's name. */
  ghost predicate Delivered(w: World, w': World, fd: Fd, prefix: string, target: string, text: string, present: bool) {
    present || !IsChannelTarget(target) ==>
      Reached(w, w', Recipients(w.app, fd, target), MessageLine(if present then prefix else SERVER_NAME, target, text))
  }

  /** Every target was served, the first n of them while the sender was there. */
  ghost predicate Messaged(w: World, w': World, fd: Fd, prefix: string, targets: seq<string>, text: string, n: nat) {
    forall i :: 0 <= i < |targets| ==> Delivered(w, w', fd, prefix, targets[i], text, i < n)
  }

  lemma MessagedNobody(w: World, fd: Fd, prefix: string, text: string)
    ensures Messaged(w, w, fd, prefix, [], text, 0)
  {}

  lemma RecipientsSurvive(a: App, alive: set<Fd>, fd: Fd, target: string, to: Fd)
    requires RoomsOk(a.channels, a.clients) && to in alive && to in Recipients(a, fd, target)
    requires fd in alive || !IsChannelTarget(target)
    ensures to in Recipients(Survive(a, alive), fd, target)
  {}

  lemma DeliveredThen(w: World, w1: World, w2: World, fd: Fd, prefix: string, target: string, text: string,
                      present: bool)
    requires Progress(w, w1) && Progress(w1, w2) && Delivered(w, w1, fd, prefix, target, text, present)
    ensures Delivered(w, w2, fd, prefix, target, text, present)
  {
    hide Progress, Reached, MessageLine, Recipients, IsChannelTarget;
    if present || !IsChannelTarget(target) {
      ReachedThen(w, w1, w2, Recipients(w.app, fd, target),
                  MessageLine(if present then prefix else SERVER_NAME, target, text));
    }
  }

  /** One target, served in the state the ones before it left. */
  lemma DeliveredNow(w: World, w1: World, w2: World, fd: Fd, prefix: string, target: string, text: string,
                     present: bool)
    requires Good(w) && Good(w1) && Progress(w, w1) && Progress(w1, w2)
    requires w1.app == Survive(w.app, w1.app.clients.Keys) && present == (fd in w1.app.clients)
    requires Reached(w1, w2, Recipients(w1.app, fd, target),
                     MessageLine(if present then prefix else SERVER_NAME, target, text))
    ensures Delivered(w, w2, fd, prefix, target, text, present)
  {
    hide Good, Progress, Survive, Reached, MessageLine, WF, RoomsOk, IndexAgrees, ClientsOk, Recipients,
         IsChannelTarget;
    GoodFacts(w);
    GoodFacts(w1);
    ProgressFacts(w1, w2);
    if present || !IsChannelTarget(target) {
      var some, all := Recipients(w1.app, fd, target), Recipients(w.app, fd, target);
      var line := MessageLine(if present then prefix else SERVER_NAME, target, text);
      ReachedLater(w, w1, w2, some, line);
      forall to | to in all && to in w2.connections
        ensures to in some
      {
        RecipientsSurvive(w.app, w1.app.clients.Keys, fd, target, to);
      }
      ReachedAmong(w, w2, some, all, line);
    }
  }

  lemma MessagedStep(w: World, w1: World, w2: World, fd: Fd, prefix: string, targets: seq<string>, text: string,
                     n: nat, target: string)
    requires Progress(w, w1) && Progress(w1, w2)
    requires Messaged(w, w1, fd, prefix, targets, text, n) && n <= |targets|
    requires (fd in w1.app.clients ==> n == |targets|)
    requires Delivered(w, w2, fd, prefix, target, text, fd in w1.app.clients)
    ensures Messaged(w, w2, fd, prefix, targets + [target], text, if fd in w1.app.clients then n + 1 else n)
  {
    hide Progress, Delivered;
    forall i | 0 <= i < |targets|
      ensures Delivered(w, w2, fd, prefix, targets[i], text, i < n)
    {
      DeliveredThen(w, w1, w2, fd, prefix, targets[i], text, i < n);
    }
  }

  function Audience(rooms: Rooms, name: string, exceptFd: Option<Fd>): set<Fd> {
    if name !in rooms then {}
    else if exceptFd.Some? then rooms[name].members - {exceptFd.value}
    else rooms[name].members
  }
}
