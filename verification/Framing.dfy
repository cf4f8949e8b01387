/** Line framing of the inbound byte stream (`Connection::extractLines`). */
module Framing {
  import opened Text

  /** What one pass over a buffer yields: the complete lines, the unterminated tail that stays in the
      buffer, and whether some line ran over the limit (which empties the buffer). */
  datatype Framed = Framed(lines: seq<string>, rest: string, overflow: bool)

  function StripCr(line: string): string {
    if line != "" && line[|line| - 1] == '\r' then line[..|line| - 1] else line
  }

  function Frame(buffer: string, limit: nat): (f: Framed)
    ensures '\n' !in f.rest && |f.rest| <= limit
    ensures f.overflow ==> f.rest == ""
    ensures forall line :: line in f.lines ==> '\n' !in line && |line| < limit
    decreases |buffer|
  {
    var newline := Find(buffer, '\n');
    if newline == |buffer| then
      if newline > limit then Framed([], "", true) else Framed([], buffer, false)
    else if newline + 1 > limit then
      Framed([], "", true)
    else
      var later := Frame(buffer[newline + 1..], limit);
      later.(lines := [StripCr(buffer[..newline])] + later.lines)
  }

  /** Framing takes the first line off the front. */
  lemma FrameTakes(buffer: string, limit: nat)
    requires var n := Find(buffer, '\n'); n < |buffer| && n + 1 <= limit
    ensures var n := Find(buffer, '\n');
            var later := Frame(buffer[n + 1..], limit);
            Frame(buffer, limit) == later.(lines := [StripCr(buffer[..n])] + later.lines)
  {
    hide Find, StripCr;
  }

  /** Framing stops where there is no complete line or the next one is too long. */
  lemma FrameStops(buffer: string, limit: nat)
    requires var n := Find(buffer, '\n'); n == |buffer| || n + 1 > limit
    ensures var overlong := Find(buffer, '\n') < |buffer| || |buffer| > limit;
            Frame(buffer, limit) == if overlong then Framed([], "", true) else Framed([], buffer, false)
  {
    hide Find, StripCr;
  }

  /** One `recv` worth of bytes arriving after earlier ones; an overflow is final. */
  function Feed(f: Framed, chunk: string, limit: nat): Framed {
    if f.overflow then f
    else
      var next := Frame(f.rest + chunk, limit);
      Framed(f.lines + next.lines, next.rest, next.overflow)
  }

  function FeedAll(chunks: seq<string>, limit: nat): Framed {
    if chunks == [] then Framed([], "", false)
    else Feed(FeedAll(chunks[..|chunks| - 1], limit), chunks[|chunks| - 1], limit)
  }

  lemma FindIs(s: string, c: char, i: nat)
    requires i < |s| && s[i] == c && forall k :: 0 <= k < i ==> s[k] != c
    ensures Find(s, c) == i
  {}

  /** How framing meets its first newline. */
  lemma FrameStep(line: string, more: string, limit: nat)
    requires '\n' !in line
    ensures var f := Frame(more, limit);
            Frame(line + "\n" + more, limit) ==
            if |line| + 1 > limit then Framed([], "", true) else f.(lines := [StripCr(line)] + f.lines)
  {
    var s := line + "\n" + more;
    assert s[|line|] == '\n' && forall k :: 0 <= k < |line| ==> s[k] == line[k];
    FindIs(s, '\n', |line|);
    assert s[..|line|] == line && s[|line| + 1..] == more;
  }

  lemma PrependLine(line: string, f: Framed, chunk: string, limit: nat)
    ensures var g := f.(lines := [line] + f.lines);
            Feed(g, chunk, limit) == Feed(f, chunk, limit).(lines := [line] + Feed(f, chunk, limit).lines)
  {
    var next := Frame(f.rest + chunk, limit);
    assert ([line] + f.lines) + next.lines == [line] + (f.lines + next.lines);
  }

  lemma LongTailOverflows(a: string, b: string, limit: nat)
    requires '\n' !in a && |a| > limit
    ensures Frame(a + b, limit) == Framed([], "", true)
  {
    var n := Find(a + b, '\n');
    assert forall k :: 0 <= k < |a| ==> (a + b)[k] == a[k];
  }

  /** Framing `a` and then the retained tail followed by `b` is framing `a + b`. */
  lemma {:induction false} FrameInTwoReads(a: string, b: string, limit: nat)
    ensures Feed(Frame(a, limit), b, limit) == Frame(a + b, limit)
    decreases |a|
  {
    var n := Find(a, '\n');
    if n < |a| {
      var line, tail := a[..n], a[n + 1..];
      assert a == line + "\n" + tail;
      assert a + b == line + "\n" + (tail + b);
      FrameStep(line, tail, limit);
      FrameStep(line, tail + b, limit);
      FrameInTwoReads(tail, b, limit);
      PrependLine(StripCr(line), Frame(tail, limit), b, limit);
    } else if n > limit {
      LongTailOverflows(a, b, limit);
    } else {
      assert Frame(a, limit) == Framed([], a, false);
      var next := Frame(a + b, limit);
      assert [] + next.lines == next.lines;
    }
  }

  /** Framing does not depend on how the stream was cut into reads: lines, retained tail and overflow
      all equal those of a single pass over the whole stream. */
  lemma {:induction false} ChunkingIsInvisible(chunks: seq<string>, limit: nat)
    ensures FeedAll(chunks, limit) == Frame(Concat(chunks), limit)
  {
    if chunks != [] {
      var front, last := chunks[..|chunks| - 1], chunks[|chunks| - 1];
      ChunkingIsInvisible(front, limit);
      FrameInTwoReads(Concat(front), last, limit);
      ConcatSnoc(front, last);
      assert chunks == front + [last];
    }
  }

  /** The octets `queueLine` appends for a line. */
  function Wire(line: string): string {
    TrimLineEnd(line) + "\r\n"
  }

  function WireAll(lines: seq<string>): string {
    if lines == [] then "" else Wire(lines[0]) + WireAll(lines[1..])
  }

  /** A reader with this limit takes the line whole. */
  predicate Fits(line: string, limit: nat) {
    |Wire(line)| <= limit
  }

  predicate OneLine(line: string) {
    '\n' !in TrimLineEnd(line)
  }

  function TrimAll(lines: seq<string>): (r: seq<string>)
    ensures |r| == |lines|
    ensures forall i :: 0 <= i < |lines| ==> r[i] == TrimLineEnd(lines[i])
  {
    seq(|lines|, i requires 0 <= i < |lines| => TrimLineEnd(lines[i]))
  }

  lemma {:induction false} WireAllSnoc(lines: seq<string>, last: string)
    ensures WireAll(lines + [last]) == WireAll(lines) + Wire(last)
  {
    if lines == [] {
      assert lines + [last] == [last];
      assert WireAll([last]) == Wire(last) + WireAll([]);
    } else {
      assert (lines + [last])[1..] == lines[1..] + [last];
      WireAllSnoc(lines[1..], last);
      assert WireAll(lines) + Wire(last) == Wire(lines[0]) + (WireAll(lines[1..]) + Wire(last));
    }
  }

  /** One line followed by anything: the reader takes it off the front when it fits, and overflows when
      it does not. */
  lemma FrameTakesOneLine(line: string, more: string, limit: nat)
    requires OneLine(line)
    ensures Fits(line, limit) ==>
              Frame(Wire(line) + more, limit) ==
              var f := Frame(more, limit); f.(lines := [TrimLineEnd(line)] + f.lines)
    ensures !Fits(line, limit) ==> Frame(Wire(line) + more, limit) == Framed([], "", true)
  {
    hide Frame, TrimLineEnd;
    var raw := TrimLineEnd(line) + "\r";
    assert Wire(line) + more == raw + "\n" + more;
    FrameStep(raw, more, limit);
    assert StripCr(raw) == TrimLineEnd(line);
  }

  predicate AllFit(lines: seq<string>, limit: nat) {
    forall l :: l in lines ==> Fits(l, limit)
  }

  lemma AllFitStep(lines: seq<string>, limit: nat)
    requires lines != []
    ensures AllFit(lines, limit) <==> Fits(lines[0], limit) && AllFit(lines[1..], limit)
  {
    assert lines == [lines[0]] + lines[1..];
  }

  /** The reader recovers exactly the lines written, each with its trailing CR and LF stripped, and it
      does so if and only if every one of them fits its limit; otherwise it recovers the ones before the
      first that does not. */
  lemma {:induction false} FramingInvertsWire(lines: seq<string>, limit: nat)
    requires forall l :: l in lines ==> OneLine(l)
    ensures AllFit(lines, limit) <==> !Frame(WireAll(lines), limit).overflow
    ensures AllFit(lines, limit) ==> Frame(WireAll(lines), limit) == Framed(TrimAll(lines), "", false)
    ensures Frame(WireAll(lines), limit).lines <= TrimAll(lines)
  {
    hide Frame, TrimLineEnd, Wire, AllFit, TrimAll, OneLine;
    if lines == [] {
      NothingToFrame(limit);
    } else {
      FramingInvertsWire(lines[1..], limit);
      FrameTakesOneLine(lines[0], WireAll(lines[1..]), limit);
      AllFitStep(lines, limit);
      TrimAllStep(lines);
    }
  }

  lemma TrimAllStep(lines: seq<string>)
    requires lines != []
    ensures TrimAll(lines) == [TrimLineEnd(lines[0])] + TrimAll(lines[1..])
  {
    hide TrimLineEnd;
  }

  lemma NothingToFrame(limit: nat)
    ensures Frame(WireAll([]), limit) == Framed([], "", false)
    ensures AllFit([], limit) && TrimAll([]) == []
  {}
}
