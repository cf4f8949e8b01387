/** The connection object: fields updated in place by the send, receive and extract loops
    (`Connection`), each method proved against the value functions of `Transport`. */
module Sockets {
  import opened Text
  import opened Framing
  import opened Transport
  import T = Transport

  ghost function Prepended(before: seq<string>, f: Framed): Framed {
    f.(lines := before + f.lines)
  }

  ghost function After(before: seq<string>, r: (Link, ReadResult)): (c: (Link, ReadResult))
    ensures before == [] ==> c == r
    ensures r.1.lines == [] ==> c == (r.0, r.1.(lines := before))
  {
    assert [] + r.1.lines == r.1.lines && before + [] == before;
    (r.0, r.1.(lines := before + r.1.lines))
  }

  lemma DataStep(before: seq<string>, l: Link, script: seq<RecvOutcome>)
    requires script != [] && script[0].Data?
    ensures var f := Frame(l.readBuffer + script[0].bytes, l.maxLine);
            After(before, Receive(l, script)) ==
            if f.overflow then
              (l.(readBuffer := "").Closing(OVERLONG),
               ReadResult(before + f.lines, false, false, true))
            else After(before + f.lines, Receive(l.(readBuffer := f.rest), script[1..]))
  {
    var f := Frame(l.readBuffer + script[0].bytes, l.maxLine);
    var later := Receive(l.(readBuffer := f.rest), script[1..]).1.lines;
    assert before + (f.lines + later) == before + f.lines + later;
  }

  lemma TakeFront(before: seq<string>, buffer: string, limit: nat)
    requires var n := Find(buffer, '\n'); n < |buffer| && n + 1 <= limit
    ensures var n := Find(buffer, '\n');
            Prepended(before, Frame(buffer, limit)) ==
            Prepended(before + [StripCr(buffer[..n])], Frame(buffer[n + 1..], limit))
  {
    hide Frame, Find, StripCr;
    var n := Find(buffer, '\n');
    FrameTakes(buffer, limit);
    var later := Frame(buffer[n + 1..], limit).lines;
    assert before + ([StripCr(buffer[..n])] + later) == before + [StripCr(buffer[..n])] + later;
  }

  lemma NothingPrepended(before: seq<string>, f: Framed, lines: seq<string>, g: Framed)
    requires Prepended(before, f) == Prepended(lines, g) && g.lines == []
    ensures before + f.lines == lines && f.rest == g.rest && f.overflow == g.overflow
  {
    assert lines + [] == lines;
  }

  /** Where the body of a line ends, found backwards. */
  method BodyEnd(line: string) returns (end: nat)
    ensures end <= |line| && line[..end] == TrimLineEnd(line)
  {
    end := |line|;
    assert line[..end] == line;
    while end > 0 && IsLineEnd(line[end - 1])
      invariant end <= |line|
      invariant TrimLineEnd(line[..end]) == TrimLineEnd(line)
    {
      assert line[..end][..end - 1] == line[..end - 1];
      end := end - 1;
    }
  }

  class Connection {
    var readBuffer: string
    var writeBuffer: string
    var writeOffset: nat
    const maxLineLength: nat
    const maxPendingBytes: Size
    var peerClosed: bool
    var closeRequested: bool
    var closeReason: Words

    ghost function View(): Link
      reads this
    {
      Link(readBuffer, writeBuffer, writeOffset, maxLineLength, maxPendingBytes, peerClosed, closeRequested,
           closeReason)
    }

    ghost predicate Valid()
      reads this
    {
      View().Valid()
    }

    constructor (maxLineLength: nat, maxPendingBytes: Size)
      ensures View() == Fresh(maxLineLength, maxPendingBytes)
    {
      readBuffer, writeBuffer, writeOffset := "", "", 0;
      this.maxLineLength := if maxLineLength == 0 then 512 else maxLineLength;
      this.maxPendingBytes := if maxPendingBytes == 0 then 1048576 else maxPendingBytes;
      peerClosed, closeRequested, closeReason := false, false, "";
    }

    method RequestClose(reason: Words)
      modifies this
      ensures View() == old(View()).Closing(reason)
    {
      closeRequested, closeReason := true, reason;
    }

    method QueueRaw(bytes: string) returns (ok: bool)
      requires Valid()
      modifies this
      ensures (View(), ok) == T.QueueRaw(old(View()), bytes)
    {
      ok := CanAppendPending(|writeBuffer| - writeOffset, |bytes|, maxPendingBytes);
      if !ok {
        RequestClose(QUEUE_FULL);
        return;
      }
      writeBuffer := writeBuffer + bytes;
    }

    /** Trims backwards, then tests the limit for the body and for the two CRLF octets separately. */
    method QueueLine(line: string) returns (ok: bool)
      requires Valid()
      modifies this
      ensures (View(), ok) == T.QueueLine(old(View()), line)
    {
      hide Tidy, TrimLineEnd;
      var end := BodyEnd(line);
      var pending: nat := |writeBuffer| - writeOffset;
      ok := CanAppendPending(pending, end, maxPendingBytes) && CanAppendPending(pending + end, 2, maxPendingBytes);
      if !ok {
        RequestClose(QUEUE_FULL);
        return;
      }
      assert writeBuffer + line[..end] + "\r\n" == writeBuffer + Wire(line);
      writeBuffer := writeBuffer + line[..end];
      writeBuffer := writeBuffer + "\r\n";
    }

    method FlushPending(script: seq<SendOutcome>) returns (result: WriteResult)
      requires Valid()
      modifies this
      ensures (View(), result) == Flush(old(View()), script)
    {
      result := WriteResult(true, false, false);
      var next := 0;
      ghost var stopped := false;
      while writeOffset < |writeBuffer|
        invariant 0 <= next <= |script|
        invariant writeOffset <= |writeBuffer|
        invariant !stopped ==> Drain(View(), script[next..]) == Drain(old(View()), script)
        invariant !stopped ==> result == WriteResult(true, false, false)
        decreases |script| - next
      {
        var size := |writeBuffer| - writeOffset;
        if next == |script| {
          result := WriteResult(false, true, false);
          stopped := true;
          break;
        }
        var outcome := script[next];
        assert script[next..][1..] == script[next + 1..];
        next := next + 1;
        match outcome {
          case Sent(count) =>
            if count > size {
              RequestClose(OVERSENT);
              result := WriteResult(false, false, true);
              stopped := true;
              break;
            } else if count > 0 {
              writeOffset := writeOffset + count;
            } else {
              result := WriteResult(false, true, false);
              stopped := true;
              break;
            }
          case SendInterrupted =>
          case SendWouldBlock =>
            result := WriteResult(false, true, false);
            stopped := true;
            break;
          case SendFailed(reason) =>
            RequestClose(reason);
            result := WriteResult(false, false, true);
            stopped := true;
            break;
        }
      }
      assert (View(), result) == Drain(old(View()), script);
      if writeOffset >= |writeBuffer| {
        writeBuffer, writeOffset := "", 0;
        result := result.(finished := true);
      } else {
        result := result.(finished := false);
        if writeOffset > 16384 {
          writeBuffer, writeOffset := writeBuffer[writeOffset..], 0;
        }
      }
    }

    method Overflow()
      modifies this
      ensures View() == old(View()).(readBuffer := "").Closing(OVERLONG)
    {
      RequestClose(OVERLONG);
      readBuffer := "";
    }

    /** Takes complete lines off the front of the buffer until none is left or one is too long. */
    method ExtractLines(before: seq<string>) returns (ok: bool, lines: seq<string>)
      modifies this
      ensures var f := Frame(old(readBuffer), maxLineLength);
              && lines == before + f.lines
              && ok == !f.overflow
              && View() == if ok then old(View()).(readBuffer := f.rest)
                           else old(View()).(readBuffer := "").Closing(OVERLONG)
    {
      hide Frame, Find, StripCr, Prepended;
      lines := before;
      while true
        invariant View() == old(View()).(readBuffer := readBuffer)
        invariant Prepended(before, Frame(old(readBuffer), maxLineLength)) ==
                  Prepended(lines, Frame(readBuffer, maxLineLength))
        decreases |readBuffer|
      {
        var newline := Find(readBuffer, '\n');
        if newline == |readBuffer| || newline + 1 > maxLineLength {
          FrameStops(readBuffer, maxLineLength);
          NothingPrepended(before, Frame(old(readBuffer), maxLineLength), lines, Frame(readBuffer, maxLineLength));
        }
        if newline == |readBuffer| {
          if |readBuffer| > maxLineLength {
            Overflow();
            return false, lines;
          }
          return true, lines;
        }
        if newline + 1 > maxLineLength {
          Overflow();
          return false, lines;
        }
        TakeFront(lines, readBuffer, maxLineLength);
        var line := StripCr(readBuffer[..newline]);
        readBuffer := readBuffer[newline + 1..];
        lines := lines + [line];
      }
    }

    method ReadAvailable(script: seq<RecvOutcome>) returns (result: ReadResult)
      modifies this
      ensures (View(), result) == Receive(old(View()), script)
    {
      result := ReadResult([], false, false, false);
      var next := 0;
      assert script[next..] == script;
      while next < |script|
        invariant 0 <= next <= |script|
        invariant result == ReadResult(result.lines, false, false, false)
        invariant Receive(old(View()), script) == After(result.lines, Receive(View(), script[next..]))
      {
        var outcome := script[next];
        assert script[next..][1..] == script[next + 1..];
        next := next + 1;
        match outcome {
          case Data(bytes) =>
            DataStep(result.lines, View(), script[next - 1..]);
            readBuffer := readBuffer + bytes;
            var ok, lines := ExtractLines(result.lines);
            result := result.(lines := lines);
            if !ok {
              return result.(hasError := true);
            }
          case PeerFin =>
            peerClosed := true;
            RequestClose(PEER_CLOSED);
            return result.(peerClosed := true);
          case RecvInterrupted =>
          case RecvWouldBlock =>
            return result.(wouldBlock := true);
          case RecvFailed(reason) =>
            RequestClose(reason);
            return result.(hasError := true);
        }
      }
      result := result.(wouldBlock := true);
    }
  }

}
