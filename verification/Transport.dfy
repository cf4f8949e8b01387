/** The byte-level transport of one client (`Connection`).

    `Link` is the value of a connection between two calls. Its functions say what each call does to
    that value for an arbitrary script of socket outcomes; the object itself, whose methods change its
    fields step by step, is in module `Sockets` and is proved against these functions.
  */
module Transport {
  import opened Text
  import opened Framing

  const WORD: nat := 0x1_0000_0000_0000_0000
  const COMPACT_AFTER: nat := 16384

  /** `std::size_t`. */
  type Size = n: nat | n < 0x1_0000_0000_0000_0000

  /** Unsigned subtraction as the machine does it. */
  function WrapSub(a: Size, b: Size): Size {
    (a - b) % WORD
  }

  /** `detail::canAppendPending`: no wrap can let an append past the limit. */
  predicate CanAppendPending(pending: Size, byteCount: nat, limit: Size)
    ensures CanAppendPending(pending, byteCount, limit) <==> pending + byteCount <= limit
  {
    pending <= limit && byteCount <= WrapSub(limit, pending)
  }

  const QUEUE_FULL: Words := "outbound queue limit exceeded"
  const OVERSENT: Words := "send returned more bytes than requested"
  const OVERLONG: Words := "incoming line exceeds maximum length"
  const PEER_CLOSED: Words := "peer closed connection"

  datatype Link = Link(
    readBuffer: string,
    writeBuffer: string,
    writeOffset: nat,
    maxLine: nat,
    maxPending: Size,
    peerClosed: bool,
    closeRequested: bool,
    closeReason: Words)
  {
    /** What holds between two calls. */
    ghost predicate Valid() {
      && writeOffset <= |writeBuffer|
      && writeOffset <= COMPACT_AFTER
      && |writeBuffer| - writeOffset <= maxPending
    }

    /** What the read side keeps between two calls. */
    ghost predicate Retains() {
      '\n' !in readBuffer && |readBuffer| <= maxLine
    }

    predicate WantsWrite() {
      writeOffset < |writeBuffer|
    }

    function Pending(): string
      requires writeOffset <= |writeBuffer|
    {
      writeBuffer[writeOffset..]
    }

    function Closing(reason: Words): Link {
      this.(closeRequested := true, closeReason := reason)
    }
  }

  /** Zero limits stand for the defaults. */
  function Fresh(maxLine: nat, maxPending: Size): (l: Link)
    ensures l.Valid() && l.Retains() && l.Pending() == "" && !l.closeRequested && !l.peerClosed
    ensures l.maxLine == (if maxLine == 0 then 512 else maxLine) > 0
    ensures l.maxPending == (if maxPending == 0 then 1048576 else maxPending) > 0
  {
    Link("", "", 0, if maxLine == 0 then 512 else maxLine, if maxPending == 0 then 1048576 else maxPending,
         false, false, "")
  }

  // ----- Queueing -----

  function QueueRaw(l: Link, bytes: string): (r: (Link, bool))
    requires l.Valid()
    ensures r.0.Valid()
    ensures r.1 <==> |l.Pending()| + |bytes| <= l.maxPending
    ensures r.0.Pending() == if r.1 then l.Pending() + bytes else l.Pending()
    ensures r.1 ==> r.0 == l.(writeBuffer := r.0.writeBuffer)
    ensures !r.1 ==> r.0 == l.Closing(QUEUE_FULL)
  {
    if CanAppendPending(|l.Pending()|, |bytes|, l.maxPending) then
      (l.(writeBuffer := l.writeBuffer + bytes), true)
    else
      (l.Closing(QUEUE_FULL), false)
  }

  /** `queueLine` is `queueRaw` of the normalised line, though it tests the limit in two steps. */
  function QueueLine(l: Link, line: string): (r: (Link, bool))
    requires l.Valid()
    ensures r.0.Valid()
    ensures r.1 <==> |l.Pending()| + |TrimLineEnd(line)| + 2 <= l.maxPending
    ensures r.1 ==> r.0.WantsWrite() && r.0 == l.(writeBuffer := r.0.writeBuffer)
    ensures r.0.Pending() == if r.1 then l.Pending() + (TrimLineEnd(line) + "\r\n") else l.Pending()
    ensures !r.1 ==> r.0 == l.Closing(QUEUE_FULL)
  {
    QueueRaw(l, Wire(line))
  }

  // ----- Sending -----

  /** One outcome of the send operation: a byte count (possibly zero, possibly more than was offered),
      or an error kind. */
  datatype SendOutcome = Sent(count: nat) | SendInterrupted | SendWouldBlock | SendFailed(reason: Words)

  datatype WriteResult = WriteResult(finished: bool, wouldBlock: bool, hasError: bool)

  /** The send loop: consume outcomes until the queue is drained or the socket stops taking bytes. A
      script that runs out stands for a socket that would block. */
  function Drain(l: Link, script: seq<SendOutcome>): (r: (Link, WriteResult))
    requires l.writeOffset <= |l.writeBuffer|
    ensures l.writeOffset <= r.0.writeOffset <= |l.writeBuffer|
    ensures r.0 == l.(writeOffset := r.0.writeOffset, closeRequested := r.0.closeRequested,
                      closeReason := r.0.closeReason)
    ensures l.closeRequested || r.1.hasError <==> r.0.closeRequested
    ensures !r.1.hasError ==> r.0.closeReason == l.closeReason
    decreases |script|
  {
    var size := |l.writeBuffer| - l.writeOffset;
    if size == 0 then (l, WriteResult(true, false, false))
    else if script == [] then (l, WriteResult(false, true, false))
    else
      match script[0]
      case Sent(count) =>
        if count > size then
          (l.Closing(OVERSENT), WriteResult(false, false, true))
        else if count > 0 then
          Drain(l.(writeOffset := l.writeOffset + count), script[1..])
        else
          (l, WriteResult(false, true, false))
      case SendInterrupted => Drain(l, script[1..])
      case SendWouldBlock => (l, WriteResult(false, true, false))
      case SendFailed(reason) => (l.Closing(reason), WriteResult(false, false, true))
  }

  /** The octets these outcomes take, each some octets or an interruption. */
  function Total(script: seq<SendOutcome>): nat {
    if script == [] then 0 else (if script[0].Sent? then script[0].count else 0) + Total(script[1..])
  }

  predicate Smooth(script: seq<SendOutcome>) {
    forall i :: 0 <= i < |script| ==> script[i].SendInterrupted? || (script[i].Sent? && script[i].count > 0)
  }

  /** Outcomes that take octets or interrupt move the loop on by exactly what they take. */
  lemma {:induction false} DrainMovesOn(l: Link, smooth: seq<SendOutcome>, rest: seq<SendOutcome>)
    requires l.writeOffset + Total(smooth) <= |l.writeBuffer| && Smooth(smooth)
    ensures Drain(l, smooth + rest) == Drain(l.(writeOffset := l.writeOffset + Total(smooth)), rest)
    decreases |smooth|
  {
    hide Tidy;
    if smooth == [] {
      assert smooth + rest == rest;
    } else {
      assert (smooth + rest)[1..] == smooth[1..] + rest && (smooth + rest)[0] == smooth[0];
      var count := if smooth[0].Sent? then smooth[0].count else 0;
      DrainMovesOn(l.(writeOffset := l.writeOffset + count), smooth[1..], rest);
    }
  }

  /** The outcome that ends the loop while octets are pending decides its verdict, and takes nothing. */
  lemma DrainStops(l: Link, script: seq<SendOutcome>)
    requires l.writeOffset < |l.writeBuffer|
    ensures var (l', r) := Drain(l, script);
            var size := |l.writeBuffer| - l.writeOffset;
            if script == [] || script[0].SendWouldBlock? || script[0] == Sent(0) then
              l' == l && r.wouldBlock && !r.hasError
            else if script[0].SendFailed? then l' == l.Closing(script[0].reason) && r.hasError
            else if script[0].Sent? && script[0].count > size then l' == l.Closing(OVERSENT) && r.hasError
            else true
  {}

  /** Forget sent bytes: all of them once the queue is empty, otherwise only past the threshold. */
  function Compact(l: Link): (c: Link)
    requires l.writeOffset <= |l.writeBuffer|
    ensures c.writeOffset <= |c.writeBuffer| && c.writeOffset <= COMPACT_AFTER
    ensures c.Pending() == l.Pending()
    ensures c == l.(writeBuffer := c.writeBuffer, writeOffset := c.writeOffset)
  {
    if !l.WantsWrite() then l.(writeBuffer := "", writeOffset := 0)
    else if l.writeOffset > COMPACT_AFTER then l.(writeBuffer := l.writeBuffer[l.writeOffset..], writeOffset := 0)
    else l
  }

  function Flush(l: Link, script: seq<SendOutcome>): (r: (Link, WriteResult))
    requires l.Valid()
    ensures r.0.Valid()
    ensures l.closeRequested || r.1.hasError <==> r.0.closeRequested
    ensures !r.1.hasError ==> r.0 == l.(writeBuffer := r.0.writeBuffer, writeOffset := r.0.writeOffset)
  {
    var (d, outcome) := Drain(l, script);
    (Compact(d), outcome.(finished := !d.WantsWrite()))
  }

  /** The octets the socket took during a flush. */
  function SentBy(l: Link, script: seq<SendOutcome>): (sent: string)
    requires l.Valid()
    ensures sent + Flush(l, script).0.Pending() == l.Pending()
  {
    var d := Drain(l, script).0;
    var sent := l.writeBuffer[l.writeOffset..d.writeOffset];
    assert sent + d.writeBuffer[d.writeOffset..] == l.writeBuffer[l.writeOffset..];
    sent
  }

  // ----- Receiving -----

  datatype RecvOutcome = Data(bytes: string) | PeerFin | RecvInterrupted | RecvWouldBlock | RecvFailed(reason: Words)

  datatype ReadResult = ReadResult(lines: seq<string>, wouldBlock: bool, peerClosed: bool, hasError: bool)

  function Receive(l: Link, script: seq<RecvOutcome>): (r: (Link, ReadResult))
    ensures r.0 == l.(readBuffer := r.0.readBuffer, peerClosed := r.0.peerClosed,
                      closeRequested := r.0.closeRequested, closeReason := r.0.closeReason)
    ensures l.closeRequested || r.1.hasError || r.1.peerClosed <==> r.0.closeRequested
    ensures forall line :: line in r.1.lines ==> '\n' !in line
    decreases |script|
  {
    if script == [] then (l, ReadResult([], true, false, false))
    else
      match script[0]
      case Data(bytes) =>
        var f := Frame(l.readBuffer + bytes, l.maxLine);
        if f.overflow then
          (l.(readBuffer := "").Closing(OVERLONG), ReadResult(f.lines, false, false, true))
        else
          var (l', later) := Receive(l.(readBuffer := f.rest), script[1..]);
          (l', later.(lines := f.lines + later.lines))
      case PeerFin => (l.(peerClosed := true).Closing(PEER_CLOSED), ReadResult([], false, true, false))
      case RecvInterrupted => Receive(l, script[1..])
      case RecvWouldBlock => (l, ReadResult([], true, false, false))
      case RecvFailed(reason) => (l.Closing(reason), ReadResult([], false, false, true))
  }

  /** The bytes a script delivers before anything stops the read loop from the socket side. */
  function Arriving(script: seq<RecvOutcome>): string {
    if script == [] then ""
    else
      match script[0]
      case Data(bytes) => bytes + Arriving(script[1..])
      case RecvInterrupted => Arriving(script[1..])
      case _ => ""
  }

  /** The outcome that ends the read loop from the socket side; a script that runs out would block. */
  function Stopping(script: seq<RecvOutcome>): RecvOutcome {
    if script == [] then RecvWouldBlock
    else if script[0].Data? || script[0].RecvInterrupted? then Stopping(script[1..])
    else script[0]
  }

  /** Why a read asks for a close, if it does. */
  function ReadReason(l: Link, overlong: bool, stop: RecvOutcome): Words {
    if overlong then OVERLONG
    else
      match stop
      case PeerFin => PEER_CLOSED
      case RecvFailed(reason) => reason
      case _ => l.closeReason
  }

  lemma FrameRetained(buffer: string, limit: nat)
    requires '\n' !in buffer && |buffer| <= limit
    ensures Frame(buffer, limit) == Framed([], buffer, false)
  {}

  /** A read is one framing pass over what was retained followed by everything that arrived: how the
      socket cut the bytes into chunks changes neither the lines nor the verdict nor what is retained. The
      verdict is an error exactly on an overlong line or a failed receive, and otherwise that of the outcome
      that ended the loop. */
  lemma {:induction false} ReceiveIsOneFramingPass(l: Link, script: seq<RecvOutcome>)
    requires l.Retains()
    ensures var f := Frame(l.readBuffer + Arriving(script), l.maxLine);
            var (l', r) := Receive(l, script);
            && r.lines == f.lines
            && l'.readBuffer == f.rest
            && (r.hasError <==> f.overflow || Stopping(script).RecvFailed?)
            && (r.peerClosed <==> !f.overflow && Stopping(script).PeerFin?)
            && (r.wouldBlock <==> !f.overflow && Stopping(script).RecvWouldBlock?)
            && l'.Retains()
    decreases |script|
  {
    hide Frame;
    if script == [] || !(script[0].Data? || script[0].RecvInterrupted?) {
      assert l.readBuffer + Arriving(script) == l.readBuffer;
      FrameRetained(l.readBuffer, l.maxLine);
    } else if script[0].RecvInterrupted? {
      ReceiveIsOneFramingPass(l, script[1..]);
    } else {
      var first, rest := l.readBuffer + script[0].bytes, Arriving(script[1..]);
      assert l.readBuffer + Arriving(script) == first + rest;
      FrameInTwoReads(first, rest, l.maxLine);
      var f := Frame(first, l.maxLine);
      if !f.overflow {
        ReceiveIsOneFramingPass(l.(readBuffer := f.rest), script[1..]);
      }
    }
  }

  /** What a read leaves as the reason of a close, and when it notes that the peer is done. */
  lemma {:induction false} ReadCloses(l: Link, script: seq<RecvOutcome>)
    requires l.Retains()
    ensures var overlong := Frame(l.readBuffer + Arriving(script), l.maxLine).overflow;
            var (l', r) := Receive(l, script);
            && l'.closeReason == ReadReason(l, overlong, Stopping(script))
            && l'.peerClosed == (l.peerClosed || r.peerClosed)
    decreases |script|
  {
    hide Frame, Tidy, Receive, ReadReason;
    ReceiveUnfolds(l, script);
    if script == [] || !(script[0].Data? || script[0].RecvInterrupted?) {
      assert l.readBuffer + Arriving(script) == l.readBuffer;
      FrameRetained(l.readBuffer, l.maxLine);
    } else if script[0].RecvInterrupted? {
      ReadCloses(l, script[1..]);
    } else {
      var first, rest := l.readBuffer + script[0].bytes, Arriving(script[1..]);
      assert l.readBuffer + Arriving(script) == first + rest;
      FrameInTwoReads(first, rest, l.maxLine);
      var f := Frame(first, l.maxLine);
      if !f.overflow {
        ReadCloses(l.(readBuffer := f.rest), script[1..]);
      }
      SameReason(l, f.rest, Frame(first + rest, l.maxLine).overflow, Stopping(script));
    }
  }

  lemma SameReason(l: Link, rest: string, overlong: bool, stop: RecvOutcome)
    ensures ReadReason(l.(readBuffer := rest), overlong, stop) == ReadReason(l, overlong, stop)
    ensures overlong ==> ReadReason(l, overlong, stop) == OVERLONG
  {
    hide Tidy;
  }

  lemma ReceiveUnfolds(l: Link, script: seq<RecvOutcome>)
    ensures var (l', r) := Receive(l, script);
            if script == [] || !(script[0].Data? || script[0].RecvInterrupted?) then
              && l'.closeReason == ReadReason(l, false, Stopping(script))
              && l'.peerClosed == (l.peerClosed || r.peerClosed)
            else if script[0].RecvInterrupted? then Receive(l, script) == Receive(l, script[1..])
            else
              var f := Frame(l.readBuffer + script[0].bytes, l.maxLine);
              if f.overflow then l'.closeReason == OVERLONG && l'.peerClosed == l.peerClosed && !r.peerClosed
              else
                var (l'', later) := Receive(l.(readBuffer := f.rest), script[1..]);
                l' == l'' && r.peerClosed == later.peerClosed
  {
    hide Frame, Tidy;
  }

  lemma ReceiveKeeps(l: Link, script: seq<RecvOutcome>)
    requires l.Valid() && l.Retains()
    ensures var l' := Receive(l, script).0; l'.Valid() && l'.Retains() && l'.Pending() == l.Pending()
    ensures AllTidy(Receive(l, script).1.lines)
  {
    ReceiveIsOneFramingPass(l, script);
  }

  lemma FlushKeeps(l: Link, script: seq<SendOutcome>, taken: string)
    requires l.Valid() && l.Retains()
    ensures var l' := Flush(l, script).0;
            l'.Valid() && l'.Retains() && taken + SentBy(l, script) + l'.Pending() == taken + l.Pending()
  {
    var l' := Flush(l, script).0;
    assert taken + SentBy(l, script) + l'.Pending() == taken + (SentBy(l, script) + l'.Pending());
  }

  // ----- Whole histories of one connection -----

  datatype Op =
    | AskRaw(bytes: string)
    | AskLine(line: string)
    | AskFlush(script: seq<SendOutcome>)
    | AskClose(reason: Words)

  /** A connection together with everything it accepted and everything the socket took so far. */
  datatype Ledger = Ledger(link: Link, lines: seq<string>, accepted: string, sent: string)

  function Perform(g: Ledger, op: Op): (g': Ledger)
    requires g.link.Valid()
    ensures g'.link.Valid()
  {
    match op
    case AskRaw(bytes) =>
      var (l, ok) := QueueRaw(g.link, bytes);
      g.(link := l, accepted := if ok then g.accepted + bytes else g.accepted)
    case AskLine(line) =>
      var (l, ok) := QueueLine(g.link, line);
      if ok then g.(link := l, lines := g.lines + [line], accepted := g.accepted + Wire(line)) else g.(link := l)
    case AskFlush(script) =>
      g.(link := Flush(g.link, script).0, sent := g.sent + SentBy(g.link, script))
    case AskClose(reason) => g.(link := g.link.Closing(reason))
  }

  function PerformAll(l: Link, ops: seq<Op>): (g: Ledger)
    requires l.Valid()
    ensures g.link.Valid()
  {
    if ops == [] then Ledger(l, [], "", "")
    else Perform(PerformAll(l, ops[..|ops| - 1]), ops[|ops| - 1])
  }

  /** Nothing is lost, duplicated or reordered, and both buffer bounds hold, whatever the calls and
      whatever the socket does. */
  lemma {:induction false} BytesAreConserved(l: Link, ops: seq<Op>)
    requires l.Valid()
    ensures var g := PerformAll(l, ops);
            && g.sent + g.link.Pending() == l.Pending() + g.accepted
            && |g.link.Pending()| <= l.maxPending
            && |g.link.writeBuffer| <= l.maxPending + COMPACT_AFTER
            && g.link.maxPending == l.maxPending
  {
    if ops != [] {
      var g, op := PerformAll(l, ops[..|ops| - 1]), ops[|ops| - 1];
      BytesAreConserved(l, ops[..|ops| - 1]);
      ConservedByOne(l.Pending(), g, op);
    }
  }

  lemma AppendBothSides(a: string, b: string, c: string, d: string, x: string)
    requires a + b == c + d
    ensures a + (b + x) == c + (d + x)
  {
    assert a + (b + x) == (a + b) + x;
    assert c + (d + x) == (c + d) + x;
  }

  lemma ConservedByOne(start: string, g: Ledger, op: Op)
    requires g.link.Valid() && g.sent + g.link.Pending() == start + g.accepted
    ensures var g' := Perform(g, op);
            g'.sent + g'.link.Pending() == start + g'.accepted && g'.link.maxPending == g.link.maxPending
  {
    hide Wire, Flush, SentBy, CanAppendPending;
    match op
    case AskRaw(bytes) =>
      AppendBothSides(g.sent, g.link.Pending(), start, g.accepted, bytes);
    case AskLine(line) =>
      AppendBothSides(g.sent, g.link.Pending(), start, g.accepted, Wire(line));
    case AskFlush(script) =>
      FlushConserves(g.link, script, g.sent);
    case AskClose(_) =>
  }

  lemma FlushConserves(l: Link, script: seq<SendOutcome>, sent: string)
    requires l.Valid()
    ensures var l' := Flush(l, script).0;
            sent + SentBy(l, script) + l'.Pending() == sent + l.Pending() && l'.maxPending == l.maxPending
  {
    var l' := Flush(l, script).0;
    assert sent + SentBy(l, script) + l'.Pending() == sent + (SentBy(l, script) + l'.Pending());
  }

  lemma {:induction false} LinesOnlyWire(l: Link, ops: seq<Op>)
    requires l.Valid() && forall op :: op in ops ==> !op.AskRaw?
    ensures PerformAll(l, ops).accepted == WireAll(PerformAll(l, ops).lines)
  {
    if ops != [] {
      var g, op := PerformAll(l, ops[..|ops| - 1]), ops[|ops| - 1];
      LinesOnlyWire(l, ops[..|ops| - 1]);
      assert op in ops;
      if op.AskLine? {
        WireAllSnoc(g.lines, op.line);
      }
    }
  }

  /** What a reader with a limit has of some lines when it was given all but `pending` of their octets: the
      lines in order, each with trailing CR and LF stripped; never a line that was not written; an overflow
      only if some line is too long for it; and all of them once nothing is pending. */
  ghost predicate Reads(lines: seq<string>, pending: string, read: Framed, limit: nat) {
    && read.lines <= TrimAll(lines)
    && (AllFit(lines, limit) ==> !read.overflow)
    && (pending == "" ==> (read.overflow <==> !AllFit(lines, limit)))
    && (pending == "" && AllFit(lines, limit) ==> read == Framed(TrimAll(lines), "", false))
  }

  /** The line channel, end to end: lines queued on one side, flushed through any sends and cut into any
      chunks, are what a reader on the other side has. */
  lemma LineChannel(l: Link, ops: seq<Op>, chunks: seq<string>, limit: nat)
    requires l.Valid() && l.Pending() == ""
    requires forall op :: op in ops ==> !op.AskRaw?
    requires Concat(chunks) == PerformAll(l, ops).sent
    requires forall line :: line in PerformAll(l, ops).lines ==> OneLine(line)
    ensures var g := PerformAll(l, ops);
            Reads(g.lines, g.link.Pending(), FeedAll(chunks, limit), limit)
  {
    hide Reads, OneLine;
    var g := PerformAll(l, ops);
    BytesAreConserved(l, ops);
    LinesOnlyWire(l, ops);
    assert "" + g.accepted == g.accepted;
    ReaderSeesPrefix(g.lines, g.sent, g.link.Pending(), chunks, limit);
  }

  lemma ReaderSeesPrefix(lines: seq<string>, sent: string, pending: string, chunks: seq<string>, limit: nat)
    requires forall line :: line in lines ==> OneLine(line)
    requires sent + pending == WireAll(lines) && Concat(chunks) == sent
    ensures Reads(lines, pending, FeedAll(chunks, limit), limit)
  {
    hide Frame, AllFit, OneLine, WireAll, TrimAll;
    ChunkingIsInvisible(chunks, limit);
    FramingInvertsWire(lines, limit);
    FrameInTwoReads(sent, pending, limit);
    if pending == "" {
      assert sent + pending == sent;
    }
  }
}
