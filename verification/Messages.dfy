/** IRC messages on the wire: the parser of `IrcMessage` and the two printers, `Replies::formatMessage`
    and `IrcMessage::toLine` (sections 2.3 and 2.3.1 of RFC 1459). */
module Messages {
  import opened Text

  const MAX_FRAME: nat := 510

  datatype Message = Message(prefix: string, command: string, params: seq<string>)

  datatype Parsed = Parsed(message: Message) | Rejected(error: Words)

  const EMPTY_FRAME: Words := "empty IRC frame"
  const LONG_FRAME: Words := "IRC frame exceeds 510 octets before CRLF"
  const BARE_PREFIX: Words := "message prefix is missing a command"
  const NO_COMMAND: Words := "IRC command is missing"

  // ----- Printing -----

  predicate NeedsMarker(value: string) {
    value == "" || ' ' in value || value[0] == ':'
  }

  function Marked(value: string): string {
    if NeedsMarker(value) then ":" + value else value
  }

  /** The parameters as `formatMessage` prints them: only the last may carry the marker. */
  function Tail(params: seq<string>): string {
    if params == [] then ""
    else if |params| == 1 then " " + Marked(params[0])
    else " " + params[0] + Tail(params[1..])
  }

  /** The parameters as `toLine` prints them: any may carry the marker. */
  function MarkedTail(params: seq<string>): string {
    if params == [] then "" else " " + Marked(params[0]) + MarkedTail(params[1..])
  }

  function Head(m: Message): string {
    (if m.prefix != "" then ":" + m.prefix + " " else "") + m.command
  }

  function Body(m: Message): string {
    Head(m) + Tail(m.params)
  }

  function Format(m: Message): string {
    Body(m) + "\r\n"
  }

  function ToLine(m: Message): string {
    Head(m) + MarkedTail(m.params) + "\r\n"
  }

  // ----- Parsing -----

  function SkipSpaces(s: string): (r: string)
    ensures |r| <= |s| && forall c :: c in r ==> c in s
    ensures r != "" ==> r[0] != ' '
    ensures s != "" && s[0] == ' ' ==> |r| < |s|
  {
    if s != "" && s[0] == ' ' then SkipSpaces(s[1..]) else s
  }

  function ParseParams(s: string): seq<string>
    decreases |s|
  {
    var t := SkipSpaces(s);
    if t == "" then []
    else if t[0] == ':' then [t[1..]]
    else
      var n := Find(t, ' ');
      [t[..n]] + ParseParams(t[n..])
  }

  function ParseCommand(prefix: string, s: string): Parsed {
    var c := SkipSpaces(s);
    var n := Find(c, ' ');
    if n == 0 then Rejected(NO_COMMAND)
    else Parsed(Message(prefix, Upper(c[..n]), ParseParams(c[n..])))
  }

  function ParseFrame(t: string): Parsed {
    if t == "" then Rejected(EMPTY_FRAME)
    else if |t| > MAX_FRAME then Rejected(LONG_FRAME)
    else if t[0] == ':' then
      var end := Find(t, ' ');
      if end == |t| || end == 1 then Rejected(BARE_PREFIX)
      else ParseCommand(t[1..end], t[end + 1..])
    else ParseCommand("", t)
  }

  function Parse(line: string): Parsed {
    ParseFrame(TrimLineEnd(line))
  }

  // ----- The command word of a printed line -----

  function WordEnd(s: string): (n: nat)
    ensures n <= |s|
  {
    if s == "" || s[0] == ' ' || IsLineEnd(s[0]) then 0 else 1 + WordEnd(s[1..])
  }

  /** The first word of a line after its prefix, if it has one. */
  function CommandWord(line: string): string {
    var end := Find(line, ' ');
    var s := if line == "" || line[0] != ':' then line else if end == |line| then "" else line[end + 1..];
    s[..WordEnd(s)]
  }

  predicate IsCommandWord(command: string) {
    command != "" && command[0] != ':' && forall c :: c in command ==> c != ' ' && !IsLineEnd(c)
  }

  /** A message whose prefix and command are words and whose parameters have no line feed. */
  predicate Sayable(m: Message) {
    IsWord(m.prefix) && IsCommandWord(m.command) && AllTidy(m.params)
  }

  lemma {:induction false} WordEnds(word: string, more: string)
    requires forall c :: c in word ==> c != ' ' && !IsLineEnd(c)
    requires more != "" && (more[0] == ' ' || IsLineEnd(more[0]))
    ensures WordEnd(word + more) == |word|
  {
    if word == "" {
      assert word + more == more;
    } else {
      assert word[0] in word && forall c :: c in word[1..] ==> c in word;
      assert (word + more)[1..] == word[1..] + more;
      WordEnds(word[1..], more);
    }
  }

  lemma PrefixedWord(prefix: string, after: string)
    requires ' ' !in prefix
    ensures CommandWord(":" + prefix + (" " + after)) == after[..WordEnd(after)]
  {
    hide WordEnd, Find;
    var start := ":" + prefix;
    var line := start + (" " + after);
    TokenEnds(start, " " + after);
    assert line[|start| + 1..] == after;
  }

  /** The command word of a printed message is its command. */
  lemma FormatSaysCommand(m: Message)
    requires Sayable(m)
    ensures CommandWord(Format(m)) == m.command
  {
    hide WordEnd, Find, Tail, CommandWord, AllTidy;
    var more := Tail(m.params) + "\r\n";
    TailStarts(m.params);
    WordEnds(m.command, more);
    var after := m.command + more;
    assert after[..|m.command|] == m.command;
    if m.prefix == "" {
      assert Format(m) == after;
      PlainWord(after);
    } else {
      assert Format(m) == ":" + m.prefix + (" " + after);
      PrefixedWord(m.prefix, after);
    }
  }

  lemma PlainWord(line: string)
    requires line != "" && line[0] != ':'
    ensures CommandWord(line) == line[..WordEnd(line)]
  {}

  lemma TailStarts(params: seq<string>)
    ensures Tail(params) == "" || Tail(params)[0] == ' '
  {}

  lemma {:induction false} TailIsTidy(params: seq<string>)
    requires AllTidy(params)
    ensures Tidy(Tail(params))
  {
    if params != [] {
      assert Tidy(params[0]);
      TailIsTidy(params[1..]);
    }
  }

  /** The body of such a message has no line feed. */
  lemma BodyIsTidy(m: Message)
    requires Sayable(m)
    ensures Tidy(Body(m))
  {
    TailIsTidy(m.params);
    assert Tidy(m.command) by {
      assert forall c :: c in m.command ==> !IsLineEnd(c);
    }
  }

  // ----- What the parser returns -----

  ghost predicate LeadingPlain(params: seq<string>) {
    forall i :: 0 <= i < |params| - 1 ==> !NeedsMarker(params[i])
  }

  /** Parameters as a line of one line yields them. */
  ghost predicate Decent(params: seq<string>) {
    LeadingPlain(params) && AllTidy(params)
  }

  lemma {:induction false} ParsedParamsAreTidy(s: string)
    requires Tidy(s)
    ensures AllTidy(ParseParams(s))
    decreases |s|
  {
    var t := SkipSpaces(s);
    if t != "" && t[0] != ':' {
      var n := Find(t, ' ');
      ParsedParamsAreTidy(t[n..]);
    }
  }

  /** What a line without a line feed parses to has none either. */
  lemma ParsedIsDecent(line: string)
    requires Tidy(line) && Parse(line).Parsed?
    ensures Decent(Parse(line).message.params) && Tidy(Parse(line).message.command)
  {
    hide Find, SkipSpaces, ParseParams, Upper;
    var t := TrimLineEnd(line);
    ParsedShape(t);
    if t[0] == ':' {
      CommandIsTidy(t[1..Find(t, ' ')], t[Find(t, ' ') + 1..]);
    } else {
      CommandIsTidy("", t);
    }
  }

  lemma CommandIsTidy(prefix: string, s: string)
    requires ParseCommand(prefix, s).Parsed? && Tidy(s)
    ensures var m := ParseCommand(prefix, s).message;
            Tidy(m.command) && AllTidy(m.params)
  {
    hide Find, SkipSpaces, ParseParams;
    var c := SkipSpaces(s);
    ParsedParamsAreTidy(c[Find(c, ' ')..]);
  }

  lemma {:induction false} ParsedParamsArePlain(s: string)
    ensures LeadingPlain(ParseParams(s))
    decreases |s|
  {
    var t := SkipSpaces(s);
    if t != "" && t[0] != ':' {
      var n := Find(t, ' ');
      ParsedParamsArePlain(t[n..]);
    }
  }

  lemma ParsedShape(t: string)
    requires ParseFrame(t).Parsed?
    ensures var m := ParseFrame(t).message;
            && ' ' !in m.prefix
            && m.command != "" && ' ' !in m.command && Upper(m.command) == m.command
            && LeadingPlain(m.params)
            && (m.prefix == "" <==> t[0] != ':')
  {
    hide Find, SkipSpaces, ParseParams, ParseCommand;
    if t[0] == ':' {
      var end := Find(t, ' ');
      CommandShape(t[1..end], t[end + 1..]);
      assert t[1..end] != "" && ' ' !in t[1..end];
    } else {
      CommandShape("", t);
    }
  }

  lemma CommandShape(prefix: string, s: string)
    requires ParseCommand(prefix, s).Parsed?
    ensures var m := ParseCommand(prefix, s).message;
            && m.prefix == prefix
            && m.command != "" && ' ' !in m.command && Upper(m.command) == m.command
            && LeadingPlain(m.params)
            && |m.command + Tail(m.params)| <= |s|
  {
    hide Find, SkipSpaces, ParseParams, Tail, LeadingPlain, Upper;
    var c := SkipSpaces(s);
    var n := Find(c, ' ');
    UpperTwice(c[..n]);
    assert ' ' !in c[..n];
    ParsedParamsArePlain(c[n..]);
    ParamsNeverGrow(c[n..]);
  }

  lemma {:induction false} ParamsNeverGrow(s: string)
    requires s == "" || s[0] == ' '
    ensures |Tail(ParseParams(s))| <= |s|
    decreases |s|
  {
    hide Find, SkipSpaces;
    var t := SkipSpaces(s);
    if t != "" && t[0] != ':' {
      var n := Find(t, ' ');
      var token, rest := t[..n], ParseParams(t[n..]);
      ParamsNeverGrow(t[n..]);
      assert ParseParams(s) == [token] + rest;
      assert token != "" && token[0] != ':' && ' ' !in token;
      TailCons(token, rest);
    }
  }

  lemma TailCons(token: string, rest: seq<string>)
    requires !NeedsMarker(token)
    ensures |Tail([token] + rest)| == 1 + |token| + |Tail(rest)|
  {
    assert ([token] + rest)[1..] == rest;
    assert |[token] + rest| == 1 ==> rest == [];
  }

  /** Printing what was parsed never lengthens the frame. */
  lemma FramesNeverGrow(t: string)
    requires ParseFrame(t).Parsed?
    ensures |Body(ParseFrame(t).message)| <= |t|
  {
    hide Find, SkipSpaces, ParseParams, ParseCommand, Tail;
    if t[0] == ':' {
      var end := Find(t, ' ');
      CommandShape(t[1..end], t[end + 1..]);
    } else {
      CommandShape("", t);
    }
  }

  // ----- What a parse is, for every text -----

  predicate Blank(s: string) {
    forall i :: 0 <= i < |s| ==> s[i] == ' '
  }

  lemma {:induction false} SkipBlank(blank: string, more: string)
    requires Blank(blank) && (more == "" || more[0] != ' ')
    ensures SkipSpaces(blank + more) == more
  {
    if blank == "" {
      assert blank + more == more;
    } else {
      assert (blank + more)[1..] == blank[1..] + more;
      SkipBlank(blank[1..], more);
    }
  }

  /** Parameters are read off one by one, however many spaces stand between them: a plain token, or after a
      colon all the rest. */
  lemma ParamsByShape(blank: string, token: string, more: string)
    requires Blank(blank)
    ensures ParseParams(blank) == [] && ParseParams(blank + (":" + more)) == [more]
    ensures !NeedsMarker(token) && (more == "" || more[0] == ' ') ==>
              ParseParams(blank + (token + more)) == [token] + ParseParams(more)
  {
    hide Find, SkipSpaces;
    SkipBlank(blank, "");
    assert blank + "" == blank;
    SkipBlank(blank, ":" + more);
    assert (":" + more)[1..] == more;
    if !NeedsMarker(token) && (more == "" || more[0] == ' ') {
      SkipBlank(blank, token + more);
      TokenEnds(token, more);
    }
  }

  /** A frame is read as an optional prefix, a command and parameters. */
  lemma FrameByShape(prefix: string, blank: string, command: string, more: string)
    requires Blank(blank) && command != "" && ' ' !in command && (more == "" || more[0] == ' ')
    ensures ParseCommand(prefix, blank + (command + more)) == Parsed(Message(prefix, Upper(command), ParseParams(more)))
    ensures prefix != "" && ' ' !in prefix && |prefix| + |blank| + |command| + |more| + 2 <= MAX_FRAME ==>
              ParseFrame(":" + prefix + (" " + (blank + (command + more)))) ==
              Parsed(Message(prefix, Upper(command), ParseParams(more)))
  {
    hide Find, SkipSpaces, ParseParams, Upper;
    SkipBlank(blank, command + more);
    TokenEnds(command, more);
    if prefix != "" && ' ' !in prefix && |prefix| + |blank| + |command| + |more| + 2 <= MAX_FRAME {
      PrefixParses(prefix, blank + (command + more));
    }
  }

  /** The frames that are refused: empty, too long, a prefix without text or without an end, no command. */
  lemma RejectedFrames(t: string)
    ensures ParseFrame(t).Rejected? <==>
            t == "" || |t| > 510 || (t[0] == ':' && (' ' !in t || t[1] == ' ')) || FromCommand(t) == ""
    ensures ParseFrame(t).Rejected? ==>
              ParseFrame(t).error == if t == "" then EMPTY_FRAME else if |t| > 510 then LONG_FRAME
                                     else if t[0] == ':' && (' ' !in t || t[1] == ' ') then BARE_PREFIX
                                     else NO_COMMAND
  {
    hide SkipSpaces, ParseParams, Upper, Tidy;
  }

  // ----- Parsing undoes printing -----

  lemma SkipOneSpace(s: string)
    requires s != "" && s[0] != ' '
    ensures SkipSpaces(" " + s) == s && SkipSpaces(s) == s
  {
    assert (" " + s)[1..] == s;
  }

  lemma TokenEnds(token: string, more: string)
    requires ' ' !in token && (more == "" || more[0] == ' ')
    ensures Find(token + more, ' ') == |token|
    ensures (token + more)[..|token|] == token && (token + more)[|token|..] == more
  {
    var s := token + more;
    assert forall k :: 0 <= k < |token| ==> s[k] == token[k];
    assert more != "" ==> s[|token|] == more[0];
  }

  lemma {:induction false} ParamsRoundTrip(params: seq<string>)
    requires LeadingPlain(params)
    ensures ParseParams(Tail(params)) == params
  {
    hide Find, SkipSpaces;
    if |params| == 1 {
      LastRoundTrip(params[0]);
      assert params == [params[0]];
    } else if params != [] {
      var p, rest := params[0], params[1..];
      assert LeadingPlain(rest);
      ParamsRoundTrip(rest);
      assert Tail(params) == " " + (p + Tail(rest));
      TokenParses(p, Tail(rest));
      assert params == [p] + rest;
    }
  }

  lemma TokenParses(p: string, more: string)
    requires !NeedsMarker(p) && (more == "" || more[0] == ' ')
    ensures ParseParams(" " + (p + more)) == [p] + ParseParams(more)
  {
    hide Find, SkipSpaces;
    SkipOneSpace(p + more);
    TokenEnds(p, more);
    assert (p + more)[0] == p[0];
  }

  lemma LastRoundTrip(p: string)
    ensures ParseParams(" " + Marked(p)) == [p]
  {
    hide Find, SkipSpaces;
    SkipOneSpace(Marked(p));
    if NeedsMarker(p) {
      assert (":" + p)[1..] == p;
    } else {
      TokenParses(p, "");
      assert p + "" == p;
      assert SkipSpaces("") == "";
      assert ParseParams("") == [];
    }
  }

  /** The messages that survive the wire: every condition is on the message alone. */
  predicate Printable(m: Message) {
    && |Body(m)| <= MAX_FRAME
    && ' ' !in m.prefix
    && m.command != "" && ' ' !in m.command
    && (m.prefix == "" ==> m.command[0] != ':')
    && (forall i :: 0 <= i < |m.params| - 1 ==> !NeedsMarker(m.params[i]))
    && !IsLineEnd(Body(m)[|Body(m)| - 1])
  }

  function Shouted(m: Message): Message {
    m.(command := Upper(m.command))
  }

  lemma CommandRoundTrip(prefix: string, command: string, params: seq<string>)
    requires command != "" && ' ' !in command && LeadingPlain(params)
    ensures ParseCommand(prefix, command + Tail(params)) == Parsed(Message(prefix, Upper(command), params))
  {
    hide Find, SkipSpaces, ParseParams;
    assert Tail(params) == "" || Tail(params)[0] == ' ';
    SkipOneSpace(command + Tail(params));
    TokenEnds(command, Tail(params));
    ParamsRoundTrip(params);
  }

  lemma PrefixParses(prefix: string, after: string)
    requires prefix != "" && ' ' !in prefix && |prefix| + |after| + 2 <= MAX_FRAME
    ensures ParseFrame(":" + prefix + (" " + after)) == ParseCommand(prefix, after)
  {
    hide Find, ParseCommand;
    var start := ":" + prefix;
    var t := start + (" " + after);
    TokenEnds(start, " " + after);
    assert t[1..|start|] == prefix;
    assert t[|start| + 1..] == after;
  }

  lemma CommandParses(after: string)
    requires after != "" && after[0] != ':' && |after| <= MAX_FRAME
    ensures ParseFrame(after) == ParseCommand("", after)
  {
    hide ParseCommand;
  }

  lemma BodyRoundTrip(m: Message)
    requires Printable(m)
    ensures ParseFrame(Body(m)) == Parsed(Shouted(m))
  {
    hide ParseFrame, ParseCommand, Tail, Upper, NeedsMarker, IsLineEnd;
    var after := m.command + Tail(m.params);
    assert LeadingPlain(m.params);
    CommandRoundTrip(m.prefix, m.command, m.params);
    if m.prefix != "" {
      assert Body(m) == ":" + m.prefix + (" " + after);
      PrefixParses(m.prefix, after);
    } else {
      assert Body(m) == after;
      CommandParses(after);
    }
  }

  lemma FormatTrims(m: Message)
    ensures |TrimLineEnd(Format(m))| <= |Body(m)|
    ensures |TrimLineEnd(Format(m))| == |Body(m)| ==> TrimLineEnd(Format(m)) == Body(m)
    ensures Body(m) != "" && !IsLineEnd(Body(m)[|Body(m)| - 1]) ==> TrimLineEnd(Format(m)) == Body(m)
  {
    var t := TrimLineEnd(Format(m));
    if Body(m) != "" && !IsLineEnd(Body(m)[|Body(m)| - 1]) {
      TrimUnique(Body(m), "\r\n");
    }
    assert forall i :: |Body(m)| <= i < |Format(m)| ==> IsLineEnd(Format(m)[i]);
    assert Format(m)[..|Body(m)|] == Body(m);
  }

  lemma OnlyPrintablesReturn(m: Message)
    requires Parse(Format(m)) == Parsed(Shouted(m))
    ensures Printable(m)
  {
    hide TrimLineEnd, Tail, ParseCommand, Find;
    var t := TrimLineEnd(Format(m));
    FormatTrims(m);
    ParsedShape(t);
    FramesNeverGrow(t);
    assert |Body(Shouted(m))| == |Body(m)|;
    assert t == Body(m);
    assert m.prefix == "" ==> t[0] == m.command[0];
  }

  /** `parseLine` undoes `formatMessage`, up to upper-casing the command, exactly on the printable messages. */
  lemma ParseUndoesFormat(m: Message)
    ensures Printable(m) <==> Parse(Format(m)) == Parsed(Shouted(m))
  {
    hide TrimLineEnd, ParseFrame, Tail, Upper;
    if Printable(m) {
      FormatTrims(m);
      BodyRoundTrip(m);
    }
    if Parse(Format(m)) == Parsed(Shouted(m)) {
      OnlyPrintablesReturn(m);
    }
  }

  // ----- Printing is a normal form of parsing -----

  /** The condition on the message: neither a colon command without a prefix, nor a final CR or LF. */
  lemma ReprintCondition(t: string)
    requires ParseFrame(t).Parsed?
    ensures var m := ParseFrame(t).message;
            && |Body(m)| <= |t|
            && (Parse(Format(m)) == Parsed(m) <==>
                (m.prefix == "" ==> m.command[0] != ':') && !IsLineEnd(Body(m)[|Body(m)| - 1]))
  {
    var m := ParseFrame(t).message;
    ParsedShape(t);
    FramesNeverGrow(t);
    ParseUndoesFormat(m);
    assert Shouted(m) == m;
  }

  /** The last character that is not a space, or a space if there is none. */
  function LastInk(s: string): char {
    if s == "" then ' ' else if s[|s| - 1] != ' ' then s[|s| - 1] else LastInk(s[..|s| - 1])
  }

  /** A parameter after the command starts with a colon. */
  predicate Trails(s: string) {
    exists i :: 0 <= i < |s| - 1 && s[i] == ' ' && s[i + 1] == ':'
  }

  /** What follows the prefix, without the spaces before the command. */
  function FromCommand(t: string): string {
    var end := Find(t, ' ');
    SkipSpaces(if t == "" || t[0] != ':' then t else if end == |t| then "" else t[end + 1..])
  }

  function AfterCommand(t: string): string {
    var c := FromCommand(t);
    c[Find(c, ' ')..]
  }

  /** The frames whose reprint reads back the same: no colon right after leading spaces, and no CR or LF
      before trailing spaces unless they belong to a trailing parameter. */
  predicate Steady(t: string) {
    && (t != "" && t[0] == ' ' ==> SkipSpaces(t) == "" || SkipSpaces(t)[0] != ':')
    && (Trails(AfterCommand(t)) || !IsLineEnd(LastInk(t)))
  }

  lemma {:induction false} InkOfTwo(a: string, b: string)
    ensures LastInk(a + b) == if LastInk(b) != ' ' then LastInk(b) else LastInk(a)
  {
    if b == "" {
      assert a + b == a;
    } else {
      assert (a + b)[..|a + b| - 1] == a + b[..|b| - 1];
      if b[|b| - 1] == ' ' {
        InkOfTwo(a, b[..|b| - 1]);
      }
    }
  }

  lemma {:induction false} SkippedIsSuffix(s: string) returns (n: nat)
    ensures n <= |s| && SkipSpaces(s) == s[n..]
    ensures forall i :: 0 <= i < n ==> s[i] == ' '
    ensures LastInk(SkipSpaces(s)) == LastInk(s)
  {
    n := 0;
    if s != "" && s[0] == ' ' {
      var k := SkippedIsSuffix(s[1..]);
      n := k + 1;
      InkOfTwo([s[0]], s[1..]);
      assert s == [s[0]] + s[1..];
    }
  }

  /** How the printed parameters end: with the last of the text if they trail, else with its last ink. */
  lemma {:induction false} TailEnds(s: string)
    requires s == "" || s[0] == ' '
    ensures var tail := Tail(ParseParams(s));
            && (Trails(s) ==> s != "" && tail != "" && tail[|tail| - 1] in [':', s[|s| - 1]])
            && (!Trails(s) ==> (tail == "" <==> LastInk(s) == ' '))
            && (!Trails(s) && tail != "" ==> tail[|tail| - 1] == LastInk(s))
    decreases |s|, 1
  {
    hide Find, SkipSpaces, ParseParams, Tail, Trails, LastInk;
    var n := SkippedIsSuffix(s);
    var t := SkipSpaces(s);
    if t == "" {
      BlankTail(s, n);
    } else if t[0] == ':' {
      TrailingTail(s, n);
    } else {
      TokenTailEnds(s, n, t);
    }
  }

  lemma BlankTail(s: string, n: nat)
    requires n <= |s| && SkipSpaces(s) == s[n..] == "" && forall i :: 0 <= i < n ==> s[i] == ' '
    requires LastInk(SkipSpaces(s)) == LastInk(s)
    ensures !Trails(s) && LastInk(s) == ' ' && Tail(ParseParams(s)) == ""
  {
    hide Find, SkipSpaces;
  }

  lemma TrailingTail(s: string, n: nat)
    requires n <= |s| && SkipSpaces(s) == s[n..] && s[n..] != "" && s[n] == ':'
    requires s[0] == ' ' && forall i :: 0 <= i < n ==> s[i] == ' '
    ensures var tail := Tail(ParseParams(s));
            Trails(s) && tail != "" && tail[|tail| - 1] in [':', s[|s| - 1]]
  {
    hide Find, SkipSpaces;
    assert s[n] == ':' && s[n - 1] == ' ';
    var last := s[n..][1..];
    assert ParseParams(s) == [last];
    var tail := Tail([last]);
    assert tail == " " + Marked(last);
    assert last != "" ==> tail[|tail| - 1] == last[|last| - 1];
  }

  lemma TokenTailEnds(s: string, n: nat, t: string)
    requires n <= |s| && t == SkipSpaces(s) == s[n..] && forall i :: 0 <= i < n ==> s[i] == ' '
    requires t != "" && t[0] != ':' && s[0] == ' ' && LastInk(t) == LastInk(s)
    ensures var tail := Tail(ParseParams(s));
            && (Trails(s) ==> s != "" && tail != "" && tail[|tail| - 1] in [':', s[|s| - 1]])
            && (!Trails(s) ==> (tail == "" <==> LastInk(s) == ' '))
            && (!Trails(s) && tail != "" ==> tail[|tail| - 1] == LastInk(s))
    decreases |s|, 0
  {
    hide Find, SkipSpaces, ParseParams, Tail, Trails, LastInk;
    var k := Find(t, ' ');
    var token, rest := t[..k], t[k..];
    TokenIsPlain(t);
    TailEnds(rest);
    TokenTrails(s, n, t);
    TokenInks(t);
    assert t[|t| - 1] == s[|s| - 1] && (rest != "" ==> rest[|rest| - 1] == t[|t| - 1]);
    ParamsOfToken(s);
    TailOfToken(token, ParseParams(rest));
    TokenThenTail(s, token, rest, Tail(ParseParams(rest)));
  }

  lemma TokenIsPlain(t: string)
    requires t != "" && t[0] != ':' && t[0] != ' '
    ensures var k := Find(t, ' ');
            && 0 < k && ' ' !in t[..k] && !NeedsMarker(t[..k]) && (t[k..] == "" || t[k..][0] == ' ')
  {
    hide Find;
  }

  lemma TokenTrails(s: string, n: nat, t: string)
    requires n <= |s| && t == s[n..] && t != "" && t[0] != ':' && forall i :: 0 <= i < n ==> s[i] == ' '
    ensures Trails(s) <==> Trails(t[Find(t, ' ')..])
  {
    hide Find, Trails;
    var k := Find(t, ' ');
    NoColonYet(s, n, t);
    assert s[n + k..] == t[k..];
    TrailsLater(s, n + k);
  }

  lemma TokenInks(t: string)
    requires t != "" && t[0] != ':' && t[0] != ' '
    ensures var k := Find(t, ' ');
            0 < k && LastInk(t) == (if LastInk(t[k..]) != ' ' then LastInk(t[k..]) else t[k - 1]) != ' '
  {
    hide Find, LastInk;
    var k := Find(t, ' ');
    TokenIsPlain(t);
    assert t == t[..k] + t[k..];
    InkOfTwo(t[..k], t[k..]);
    TokenInk(t[..k]);
  }

  lemma TokenThenTail(s: string, token: string, rest: string, more: string)
    requires token != "" && s != "" && (rest != "" ==> rest[|rest| - 1] == s[|s| - 1])
    requires Trails(s) <==> Trails(rest)
    requires LastInk(s) == (if LastInk(rest) != ' ' then LastInk(rest) else token[|token| - 1]) != ' '
    requires Trails(rest) ==> rest != "" && more != "" && more[|more| - 1] in [':', rest[|rest| - 1]]
    requires !Trails(rest) ==> (more == "" <==> LastInk(rest) == ' ')
    requires !Trails(rest) && more != "" ==> more[|more| - 1] == LastInk(rest)
    ensures var tail := " " + token + more;
            && (Trails(s) ==> tail[|tail| - 1] in [':', s[|s| - 1]])
            && (!Trails(s) ==> LastInk(s) != ' ' && tail[|tail| - 1] == LastInk(s))
  {
    hide Trails, LastInk;
    var tail := " " + token + more;
    assert tail[|tail| - 1] == if more != "" then more[|more| - 1] else token[|token| - 1];
  }

  lemma NoColonYet(s: string, n: nat, t: string)
    requires n <= |s| && t == s[n..] && t != "" && t[0] != ':' && forall i :: 0 <= i < n ==> s[i] == ' '
    ensures forall i :: 0 <= i < n + Find(t, ' ') && i + 1 < |s| && s[i] == ' ' ==> s[i + 1] != ':'
  {
    var k := Find(t, ' ');
    assert forall i :: n <= i < n + k ==> s[i] == t[i - n] != ' ';
    assert n < |s| && s[n] == t[0];
  }

  lemma ParamsOfToken(s: string)
    requires var t := SkipSpaces(s); t != "" && t[0] != ':'
    ensures var t := SkipSpaces(s);
            var k := Find(t, ' ');
            ParseParams(s) == [t[..k]] + ParseParams(t[k..])
  {
    hide Find, SkipSpaces;
  }

  lemma TokenInk(token: string)
    requires token != "" && ' ' !in token
    ensures LastInk(token) == token[|token| - 1] != ' '
  {}

  lemma TailOfToken(token: string, params: seq<string>)
    requires !NeedsMarker(token)
    ensures Tail([token] + params) == " " + token + Tail(params)
  {
    assert ([token] + params)[1..] == params;
    if params == [] {
      assert [token] + params == [token];
      assert " " + token + "" == " " + token;
    }
  }

  lemma TrailsLater(s: string, n: nat)
    requires n <= |s| && forall i :: 0 <= i < n && i + 1 < |s| && s[i] == ' ' ==> s[i + 1] != ':'
    ensures Trails(s) <==> Trails(s[n..])
  {
    var later := s[n..];
    if Trails(s) {
      var i :| 0 <= i < |s| - 1 && s[i] == ' ' && s[i + 1] == ':';
      assert later[i - n] == ' ' && later[i - n + 1] == ':';
    }
    if Trails(later) {
      var i :| 0 <= i < |later| - 1 && later[i] == ' ' && later[i + 1] == ':';
      assert s[n + i] == ' ' && s[n + i + 1] == ':';
    }
  }

  /** The last ink of a frame is that of its parameters, or of its command if they have none. */
  lemma FrameInk(t: string)
    requires ParseFrame(t).Parsed?
    ensures var c := FromCommand(t);
            var k := Find(c, ' ');
            && k > 0
            && LastInk(t) == (if LastInk(c[k..]) != ' ' then LastInk(c[k..]) else c[k - 1])
            && (c[k..] != "" ==> c[|c| - 1] == t[|t| - 1])
  {
    hide ParseFrame, SkipSpaces, FromCommand, Find, LastInk;
    var n := CommandIsLater(t);
    var c := FromCommand(t);
    var k := Find(c, ' ');
    CommandParts(t);
    assert c == c[..k] + c[k..];
    InkOfTwo(c[..k], c[k..]);
    TokenInk(c[..k]);
    assert t == t[..n] + c;
    InkOfTwo(t[..n], c);
  }

  lemma CommandIsLater(t: string) returns (n: nat)
    ensures n <= |t| && FromCommand(t) == t[n..]
  {
    hide Find, SkipSpaces;
    var end := Find(t, ' ');
    if t == "" || t[0] != ':' {
      n := SkippedIsSuffix(t);
    } else if end == |t| {
      var k := SkippedIsSuffix("");
      n := |t|;
    } else {
      var k := SkippedIsSuffix(t[end + 1..]);
      n := end + 1 + k;
    }
  }

  /** How the reprint of an accepted frame ends. */
  lemma BodyEnds(t: string)
    requires ParseFrame(t).Parsed?
    ensures var m := ParseFrame(t).message;
            var last := Body(m)[|Body(m)| - 1];
            && (Trails(AfterCommand(t)) ==> last == ':' || last == t[|t| - 1])
            && (!Trails(AfterCommand(t)) ==> last == LastInk(t) || last == UpperChar(LastInk(t)))
  {
    hide Find, SkipSpaces, ParseParams, Tail, Upper, Trails, LastInk;
    var c := FromCommand(t);
    var k := Find(c, ' ');
    var m := ParseFrame(t).message;
    FrameInk(t);
    CommandParts(t);
    TailEnds(c[k..]);
    var tail := Tail(m.params);
    assert AfterCommand(t) == c[k..];
    if tail != "" {
      assert Body(m)[|Body(m)| - 1] == tail[|tail| - 1];
      assert c[k..] != "" ==> c[k..][|c| - k - 1] == t[|t| - 1];
    } else {
      assert Body(m) == Head(m);
      assert Head(m)[|Head(m)| - 1] == m.command[|m.command| - 1];
      assert m.command[k - 1] == UpperChar(c[..k][k - 1]);
    }
  }

  lemma CommandParts(t: string)
    requires ParseFrame(t).Parsed?
    ensures var c, m := FromCommand(t), ParseFrame(t).message;
            var k := Find(c, ' ');
            && 0 < k && m.command == Upper(c[..k]) && m.params == ParseParams(c[k..])
            && (c[k..] == "" || c[k..][0] == ' ')
            && (m.prefix == "" ==> c == SkipSpaces(t))
  {
    hide SkipSpaces, ParseParams, Upper;
  }

  /** Parsing then printing is a stable normal form: the reprint of an accepted line is no longer than its
      frame, and it reads back the same exactly when the frame is steady. */
  lemma ReprintIsStable(line: string)
    requires Parse(line).Parsed?
    ensures var t, m := TrimLineEnd(line), Parse(line).message;
            |Body(m)| <= |t| && (Parse(Format(m)) == Parsed(m) <==> Steady(t))
  {
    hide Find, SkipSpaces, ParseParams, ParseCommand, Tail, Upper, Trails, LastInk, AfterCommand, FromCommand, Parse,
         Format;
    var t := TrimLineEnd(line);
    assert Parse(line) == ParseFrame(t) by { ParseTrims(line); }
    var m := ParseFrame(t).message;
    ReprintCondition(t);
    ParsedShape(t);
    BodyEnds(t);
    CommandParts(t);
    SkipNothing(t);
    assert m.prefix == "" ==> m.command[0] == UpperChar(SkipSpaces(t)[0]);
  }

  lemma ParseTrims(line: string)
    ensures Parse(line) == ParseFrame(TrimLineEnd(line))
  {}

  /** A CR before a trailing space ends the reprint, where framing strips it. */
  lemma CarriageReturnIsNotStable()
    ensures Parse("A\r ") == Parsed(Message("", "A\r", []))
    ensures Parse(Format(Message("", "A\r", []))) == Parsed(Message("", "A", []))
  {
    TrimUnique("A\r ", "");
    assert "A\r " + "" == "A\r ";
    TokenEnds("A\r", " ");
    assert "A\r" + " " == "A\r ";
    assert SkipSpaces(" ") == "" by { assert " "[1..] == ""; }
    assert ParseParams(" ") == [];
    assert Upper("A\r") == "A\r";
    TrimUnique("A", "\r\r\n");
    assert Format(Message("", "A\r", [])) == "A" + "\r\r\n";
    TokenEnds("A", "");
    assert "A" + "" == "A" && Upper("A") == "A" && ParseParams("") == [];
  }

  /** Leading spaces can hide a colon command, whose reprint reads as a prefix without a command. */
  lemma LeadingSpaceIsNotStable()
    ensures ParseFrame(" :a") == Parsed(Message("", ":A", []))
    ensures Parse(Format(Message("", ":A", []))).Rejected?
  {
    ColonBehindSpace();
    ColonReprinted();
  }

  lemma ColonBehindSpace()
    ensures ParseFrame(" :a") == Parsed(Message("", ":A", []))
  {
    assert SkipSpaces(" :a") == ":a" by { SkipOneSpace(":a"); }
    TokenEnds(":a", "");
    assert ":a" + "" == ":a" && Upper(":a") == ":A";
    assert SkipSpaces("") == "" && ParseParams("") == [];
  }

  lemma ColonReprinted()
    ensures Parse(Format(Message("", ":A", []))).Rejected?
  {
    hide ParseCommand, TrimLineEnd, Find;
    var m := Message("", ":A", []);
    assert Body(m) == ":A";
    FormatTrims(m);
    TokenEnds(":A", "");
    assert ":A" + "" == ":A";
  }

  predicate Clean(s: string) {
    forall c :: c in s ==> !IsLineEnd(c)
  }

  lemma {:induction false} ParsedParamsAreClean(s: string)
    requires Clean(s)
    ensures forall p :: p in ParseParams(s) ==> Clean(p)
    decreases |s|
  {
    var t := SkipSpaces(s);
    if t != "" && t[0] != ':' {
      var n := Find(t, ' ');
      ParsedParamsAreClean(t[n..]);
    }
  }

  lemma {:induction false} TailIsClean(params: seq<string>)
    requires forall p :: p in params ==> Clean(p)
    ensures Clean(Tail(params))
  {
    if params != [] {
      assert Clean(params[0]);
      if |params| > 1 {
        TailIsClean(params[1..]);
      }
    }
  }

  lemma UpperIsClean(s: string)
    requires Clean(s)
    ensures Clean(Upper(s))
  {
    forall i | 0 <= i < |s|
      ensures !IsLineEnd(Upper(s)[i])
    {
      assert s[i] in s;
    }
  }

  /** A frame free of CR and LF that does not start with a space is stable under parse and print. */
  lemma CleanFramesAreStable(t: string)
    requires ParseFrame(t).Parsed? && Clean(t) && t[0] != ' '
    ensures Parse(Format(ParseFrame(t).message)) == ParseFrame(t)
  {
    hide Find, SkipSpaces, ParseParams, ParseCommand, Tail, Upper;
    var m := ParseFrame(t).message;
    ReprintCondition(t);
    ParsedShape(t);
    if t[0] == ':' {
      var end := Find(t, ' ');
      assert Clean(t[1..end]) && Clean(t[end + 1..]);
      CommandIsClean(t[1..end], t[end + 1..]);
    } else {
      CommandIsClean("", t);
    }
    assert Body(m)[|Body(m)| - 1] in Body(m);
  }

  lemma CommandIsClean(prefix: string, s: string)
    requires ParseCommand(prefix, s).Parsed? && Clean(prefix) && Clean(s)
    ensures Clean(Body(ParseCommand(prefix, s).message))
    ensures s[0] != ' ' ==> ParseCommand(prefix, s).message.command[0] == UpperChar(s[0])
  {
    hide Find, SkipSpaces, ParseParams, Tail;
    var m := ParseCommand(prefix, s).message;
    var c := SkipSpaces(s);
    var n := Find(c, ' ');
    ParsedParamsAreClean(c[n..]);
    TailIsClean(m.params);
    UpperIsClean(c[..n]);
    SkipNothing(s);
  }

  lemma SkipNothing(s: string)
    ensures s != "" && s[0] != ' ' ==> SkipSpaces(s) == s
  {}

  // ----- The two printers -----

  lemma {:induction false} MarkersOnlyAdd(params: seq<string>)
    ensures |MarkedTail(params)| >= |Tail(params)|
    ensures LeadingPlain(params) ==> MarkedTail(params) == Tail(params)
    ensures |MarkedTail(params)| == |Tail(params)| ==> LeadingPlain(params)
  {
    if |params| == 1 {
      assert MarkedTail(params[1..]) == "";
    } else if params != [] {
      MarkersOnlyAdd(params[1..]);
      assert LeadingPlain(params) <==> !NeedsMarker(params[0]) && LeadingPlain(params[1..]) by {
        assert params == [params[0]] + params[1..];
      }
    }
  }

  /** `toLine` and `formatMessage` print the same text exactly when no parameter but the last needs the
      trailing marker. */
  lemma PrintersAgree(m: Message)
    ensures ToLine(m) == Format(m) <==> LeadingPlain(m.params)
  {
    MarkersOnlyAdd(m.params);
    if ToLine(m) == Format(m) {
      assert |ToLine(m)| == |Format(m)|;
    }
  }

  // ----- The loops -----

  /** `IrcMessage::trimFrame`. */
  method TrimFrame(line: string) returns (trimmed: string)
    ensures trimmed == TrimLineEnd(line)
  {
    trimmed := line;
    while trimmed != "" && IsLineEnd(trimmed[|trimmed| - 1])
      decreases |trimmed|
      invariant TrimLineEnd(trimmed) == TrimLineEnd(line)
    {
      trimmed := trimmed[..|trimmed| - 1];
    }
  }

  /** Advance past spaces. */
  method SkipBlanks(t: string, start: nat) returns (pos: nat)
    requires start <= |t|
    ensures start <= pos <= |t|
    ensures t[pos..] == SkipSpaces(t[start..])
  {
    pos := start;
    while pos < |t| && t[pos] == ' '
      invariant start <= pos <= |t|
      invariant SkipSpaces(t[pos..]) == SkipSpaces(t[start..])
    {
      assert t[pos..][1..] == t[pos + 1..];
      pos := pos + 1;
    }
  }

  /** Advance to the next space or the end. */
  method SkipToken(t: string, start: nat) returns (pos: nat)
    requires start <= |t|
    ensures start <= pos <= |t|
    ensures pos - start == Find(t[start..], ' ')
  {
    pos := start;
    while pos < |t| && t[pos] != ' '
      invariant start <= pos <= |t|
      invariant Find(t[start..], ' ') == pos - start + Find(t[pos..], ' ')
    {
      assert t[pos..][1..] == t[pos + 1..];
      pos := pos + 1;
    }
  }

  /** `IrcMessage::parseLine`. */
  method ParseLine(line: string) returns (result: Parsed)
    ensures result == Parse(line)
  {
    hide Find, ParseCommand;
    var t := TrimFrame(line);
    if t == "" {
      return Rejected(EMPTY_FRAME);
    }
    if |t| > 510 {
      return Rejected(LONG_FRAME);
    }
    var prefix, pos := "", 0;
    if t[0] == ':' {
      var end := Find(t, ' ');
      if end == |t| || end == 1 {
        return Rejected(BARE_PREFIX);
      }
      prefix, pos := t[1..end], end + 1;
    }
    assert t[0..] == t;
    result := ParseFrom(prefix, t, pos);
  }

  method ParseFrom(prefix: string, t: string, start: nat) returns (result: Parsed)
    requires start <= |t|
    ensures result == ParseCommand(prefix, t[start..])
  {
    hide Find, SkipSpaces, ParseParams, Upper;
    var pos := start;
    var commandStart := SkipBlanks(t, pos);
    pos := SkipToken(t, commandStart);
    if commandStart == pos {
      return Rejected(NO_COMMAND);
    }
    assert t[commandStart..][..pos - commandStart] == t[commandStart..pos];
    assert t[commandStart..][pos - commandStart..] == t[pos..];
    var params := ParseRest(t, pos);
    return Parsed(Message(prefix, Upper(t[commandStart..pos]), params));
  }

  method ParseRest(t: string, start: nat) returns (params: seq<string>)
    requires start <= |t|
    ensures params == ParseParams(t[start..])
  {
    hide Find, SkipSpaces;
    params := [];
    var pos := start;
    while pos < |t|
      invariant start <= pos <= |t|
      invariant params + ParseParams(t[pos..]) == ParseParams(t[start..])
      decreases |t| - pos
    {
      ParamsStep(t[pos..], params);
      var at := SkipBlanks(t, pos);
      if at == |t| {
        return;
      }
      if t[at] == ':' {
        assert t[at..][1..] == t[at + 1..];
        return params + [t[at + 1..]];
      }
      pos := SkipToken(t, at);
      assert t[at..][..pos - at] == t[at..pos] && t[at..][pos - at..] == t[pos..];
      params := params + [t[at..pos]];
    }
    assert t[pos..] == "" && SkipSpaces("") == "";
    assert ParseParams("") == [];
  }

  lemma ParamsStep(s: string, params: seq<string>)
    ensures var t := SkipSpaces(s);
            var n := Find(t, ' ');
            params + ParseParams(s) ==
            if t == "" then params
            else if t[0] == ':' then params + [t[1..]]
            else params + [t[..n]] + ParseParams(t[n..])
  {
    hide Find, SkipSpaces;
    var t := SkipSpaces(s);
    if t != "" && t[0] != ':' {
      var n := Find(t, ' ');
      var later := ParseParams(t[n..]);
      assert params + ([t[..n]] + later) == params + [t[..n]] + later;
    }
  }

  /** `Replies::formatMessage`. */
  method FormatMessage(prefix: string, command: string, params: seq<string>) returns (out: string)
    ensures out == Format(Message(prefix, command, params))
  {
    out := "";
    if prefix != "" {
      out := out + ":" + prefix + " ";
    }
    out := out + command;
    ghost var head := out;
    assert head == Head(Message(prefix, command, params));
    assert params[0..] == params;
    for i := 0 to |params|
      invariant out + Tail(params[i..]) == head + Tail(params)
    {
      var rest := params[i..];
      var piece := " " + if i + 1 == |params| && NeedsMarker(params[i]) then ":" + params[i] else params[i];
      assert Tail(rest) == piece + Tail(params[i + 1..]) by {
        assert rest[1..] == params[i + 1..];
        assert piece + "" == piece;
      }
      assert out + (piece + Tail(params[i + 1..])) == out + piece + Tail(params[i + 1..]);
      out := out + piece;
    }
    assert params[|params|..] == [];
    assert out + "" == out;
    out := out + "\r\n";
  }

  /** `IrcMessage::toLine`. */
  method PrintLine(m: Message) returns (out: string)
    ensures out == ToLine(m)
  {
    out := Head(m);
    assert m.params[0..] == m.params;
    for i := 0 to |m.params|
      invariant out + MarkedTail(m.params[i..]) == Head(m) + MarkedTail(m.params)
    {
      var rest := m.params[i..];
      var piece := " " + if NeedsMarker(m.params[i]) then ":" + m.params[i] else m.params[i];
      assert MarkedTail(rest) == piece + MarkedTail(m.params[i + 1..]) by {
        assert rest[1..] == m.params[i + 1..];
      }
      assert out + (piece + MarkedTail(m.params[i + 1..])) == out + piece + MarkedTail(m.params[i + 1..]);
      out := out + piece;
    }
    assert m.params[|m.params|..] == [];
    assert out + "" == out;
    out := out + "\r\n";
  }
}
