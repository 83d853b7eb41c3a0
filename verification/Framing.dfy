/** Newline framing of a TCP session (`TcpJsonServer::Session`, server/src/tcp-json-server.cpp). */
module Framing {
  import opened Sequences

  type Byte = x: int | 0 <= x < 256

  type Bytes = seq<Byte>

  const NEWLINE: Byte := 10
  const CARRIAGE_RETURN: Byte := 13

  // The reference: what a whole stream asks, however it arrives.

  /** Position of the first newline, or the length when there is none. */
  function FirstNewline(s: Bytes): (i: nat)
    ensures i <= |s| && (i < |s| ==> s[i] == NEWLINE)
    ensures forall j | 0 <= j < i :: s[j] != NEWLINE
  {
    if s == [] || s[0] == NEWLINE then 0 else 1 + FirstNewline(s[1..])
  }

  /** The lines of a stream that have their newline, without it. */
  function CompleteLines(s: Bytes): seq<Bytes>
    decreases |s|
  {
    var i := FirstNewline(s);
    if i == |s| then [] else [s[..i]] + CompleteLines(s[i + 1..])
  }

  /** The lines before the first one that exceeds the limit together with its newline. */
  function WithinLimit(lines: seq<Bytes>, limit: nat): seq<Bytes> {
    if lines == [] || |lines[0]| + 1 > limit then [] else [lines[0]] + WithinLimit(lines[1..], limit)
  }

  function StripCarriageReturn(line: Bytes): Bytes {
    if line != [] && line[|line| - 1] == CARRIAGE_RETURN then line[..|line| - 1] else line
  }

  function StripAll(lines: seq<Bytes>): (r: seq<Bytes>)
    ensures |r| == |lines| && forall i | 0 <= i < |lines| :: r[i] == StripCarriageReturn(lines[i])
  {
    seq(|lines|, i requires 0 <= i < |lines| => StripCarriageReturn(lines[i]))
  }

  function Requests(stream: Bytes, limit: nat): seq<Bytes> {
    StripAll(WithinLimit(CompleteLines(stream), limit))
  }

  /** The handler's answer to the `n`-th request may depend on everything before it. */
  type Handle = (nat, Bytes) -> Bytes

  function Responses(handle: Handle, requests: seq<Bytes>): seq<Bytes> {
    seq(|requests|, i requires 0 <= i < |requests| => handle(i, requests[i]) + [NEWLINE])
  }

  lemma ResponsesAppend(handle: Handle, requests: seq<Bytes>, request: Bytes)
    ensures Responses(handle, requests + [request]) == Responses(handle, requests) + [handle(|requests|, request) + [NEWLINE]]
  {
  }

  // Streams cut after whole lines.

  predicate AtLineEnd(s: Bytes) {
    s == [] || s[|s| - 1] == NEWLINE
  }

  predicate AllWithin(lines: seq<Bytes>, limit: nat) {
    forall i | 0 <= i < |lines| :: |lines[i]| + 1 <= limit
  }

  lemma LinesOfCut(s: Bytes, i: nat)
    requires i < |s| && i == FirstNewline(s)
    ensures CompleteLines(s) == [s[..i]] + CompleteLines(s[i + 1..])
  {
  }

  lemma LineEndHasNewline(a: Bytes)
    requires AtLineEnd(a) && a != []
    ensures FirstNewline(a) < |a| && AtLineEnd(a[FirstNewline(a) + 1..])
  {
    assert a[|a| - 1] == NEWLINE;
    var rest := a[FirstNewline(a) + 1..];
    if rest != [] {
      assert rest[|rest| - 1] == a[|a| - 1];
    }
  }

  lemma CutOfAppend<T>(a: seq<T>, b: seq<T>, i: nat)
    requires i < |a|
    ensures (a + b)[..i] == a[..i] && (a + b)[i + 1..] == a[i + 1..] + b
  {
  }

  lemma Split<T>(a: seq<T>, i: nat)
    requires i <= |a|
    ensures a == a[..i] + a[i..]
  {
  }

  lemma FirstLineOfAppend(a: Bytes, b: Bytes)
    requires AtLineEnd(a) && a != []
    ensures var i := FirstNewline(a);
            && i < |a|
            && CompleteLines(a) == [a[..i]] + CompleteLines(a[i + 1..])
            && CompleteLines(a + b) == [a[..i]] + CompleteLines(a[i + 1..] + b)
  {
    var i := FirstNewline(a);
    LineEndHasNewline(a);
    FirstNewlineOfAppend(a, b);
    LinesOfCut(a, i);
    LinesOfCut(a + b, i);
    CutOfAppend(a, b, i);
  }

  lemma {:induction false} LinesOfAppend(a: Bytes, b: Bytes)
    requires AtLineEnd(a)
    ensures CompleteLines(a + b) == CompleteLines(a) + CompleteLines(b)
    decreases |a|
  {
    if a == [] {
      assert a + b == b;
      assert CompleteLines(a) == [];
    } else {
      FirstLineOfAppend(a, b);
      LineEndHasNewline(a);
      var i := FirstNewline(a);
      LinesOfAppend(a[i + 1..], b);
      Regroup([a[..i]], CompleteLines(a[i + 1..]), CompleteLines(b));
    }
  }

  lemma FirstNewlineOfAppend(a: Bytes, b: Bytes)
    ensures FirstNewline(a) < |a| ==> FirstNewline(a + b) == FirstNewline(a)
  {
    var i, j := FirstNewline(a), FirstNewline(a + b);
    if i < |a| {
      assert (a + b)[i] == NEWLINE;
      assert forall k | 0 <= k < i :: (a + b)[k] == a[k];
    }
  }

  lemma {:induction false} WithinLimitOfAppend(a: seq<Bytes>, b: seq<Bytes>, limit: nat)
    requires AllWithin(a, limit)
    ensures WithinLimit(a + b, limit) == a + WithinLimit(b, limit)
  {
    if a == [] {
      assert a + b == b;
    } else {
      assert (a + b)[1..] == a[1..] + b;
      WithinLimitOfAppend(a[1..], b, limit);
    }
  }

  datatype Phase = Reading | Writing(response: Bytes) | TooLarge | Failed

  /** One session: bytes wait in the socket, then in the stream buffer, then become a request. */
  class Session {
    const limit: nat
    const handle: Handle
    var socket: Bytes
    var buffer: Bytes
    var phase: Phase
    var handled: seq<Bytes>
    var sent: seq<Bytes>
    ghost var received: Bytes
    ghost var consumed: Bytes

    /** Consumed, buffered and waiting bytes are the bytes received; handled are the consumed lines. */
    ghost predicate Valid()
      reads this
    {
      && received == consumed + buffer + socket
      && AtLineEnd(consumed)
      && AllWithin(CompleteLines(consumed), limit)
      && handled == StripAll(CompleteLines(consumed))
      && (phase.Reading? || phase.TooLarge? ==> sent == Responses(handle, handled))
      && (phase.Writing? ==> sent + [phase.response] == Responses(handle, handled))
      && (phase.Failed? ==> sent <= Responses(handle, handled))
      && (phase.TooLarge? ==> FirstNewline(buffer) < |buffer| && FirstNewline(buffer) + 1 > limit)
    }

    constructor (limit: nat, handle: Handle)
      ensures Valid() && this.limit == limit && this.handle == handle
      ensures received == [] && phase.Reading?
    {
      this.limit := limit;
      this.handle := handle;
      socket, buffer, phase, handled, sent := [], [], Reading, [], [];
      received, consumed := [], [];
    }

    method Arrive(chunk: Bytes)
      requires Valid()
      modifies this
      ensures Valid() && received == old(received) + chunk
      ensures phase == old(phase) && handled == old(handled)
    {
      socket := socket + chunk;
      received := received + chunk;
    }

    /** `async_read_until` takes some bytes off the socket while its buffer has no newline. */
    method ReadSome(n: nat)
      requires Valid() && phase.Reading? && FirstNewline(buffer) == |buffer| && 0 < n <= |socket|
      modifies this
      ensures Valid() && received == old(received) && phase == old(phase)
      ensures |buffer| == old(|buffer|) + n && |socket| == old(|socket|) - n
    {
      Split(socket, n);
      Regroup(consumed, buffer, socket[..n]);
      Regroup(consumed + buffer, socket[..n], socket[n..]);
      buffer := buffer + socket[..n];
      socket := socket[n..];
    }

    /** `on_read`: one line, a request unless it is too large. */
    method OnRead()
      requires Valid() && phase.Reading? && FirstNewline(buffer) < |buffer|
      modifies this
      ensures Valid() && received == old(received) && socket == old(socket)
      ensures var i := FirstNewline(old(buffer));
              if i + 1 > limit then phase.TooLarge? && buffer == old(buffer) && handled == old(handled)
              else phase.Writing? && handled == old(handled) + [StripCarriageReturn(old(buffer)[..i])]
                   && buffer == old(buffer)[i + 1..]
    {
      var bytesTransferred := FirstNewline(buffer) + 1;
      if bytesTransferred > limit {
        phase := TooLarge;
        return;
      }
      var line := buffer[..bytesTransferred - 1];
      ghost var taken := buffer[..bytesTransferred];
      Split(buffer, bytesTransferred);
      Regroup(consumed, taken, buffer[bytesTransferred..]);
      ResponsesAppend(handle, handled, StripCarriageReturn(line));
      buffer := buffer[bytesTransferred..];
      var request := StripCarriageReturn(line);
      var response := handle(|handled|, request);
      ConsumeLine(consumed, taken, line, limit);
      consumed := consumed + taken;
      handled := handled + [request];
      phase := Writing(response + [NEWLINE]);
    }

    method WriteDone()
      requires Valid() && phase.Writing?
      modifies this
      ensures Valid() && received == old(received) && phase.Reading?
      ensures buffer == old(buffer) && socket == old(socket) && handled == old(handled)
    {
      sent := sent + [phase.response];
      phase := Reading;
    }

    /** A read or write error ends the session: what was handled stays a prefix of what was asked. */
    method Fail()
      requires Valid()
      modifies this
      ensures Valid() && phase.Failed? && received == old(received) && handled == old(handled)
    {
      phase := Failed;
    }

    /** Nothing the session could still do. */
    ghost predicate Settled()
      reads this
    {
      phase.TooLarge? || (phase.Reading? && FirstNewline(buffer) == |buffer| && socket == [])
    }

    ghost function Cost(): nat
      reads this
    {
      4 * |socket| + 3 * |buffer| + if phase.Writing? then 2 else if phase.Reading? then 1 else 0
    }

    /** Whatever is due next: a completed read, a completed write, or up to `n` more bytes. */
    method Step(n: nat)
      requires Valid() && !phase.Failed?
      modifies this
      ensures Valid() && !phase.Failed? && received == old(received)
      ensures !old(Settled()) ==> Cost() < old(Cost())
    {
      if phase.Writing? {
        WriteDone();
      } else if phase.Reading? {
        if FirstNewline(buffer) < |buffer| {
          OnRead();
        } else if socket != [] {
          ReadSome(if n < 1 then 1 else if n > |socket| then |socket| else n);
        }
      }
    }
  }

  lemma NewlineAfterLine(line: Bytes, rest: Bytes)
    requires NEWLINE !in line
    ensures FirstNewline(line + ([NEWLINE] + rest)) == |line|
  {
    var s := line + ([NEWLINE] + rest);
    assert s[|line|] == NEWLINE;
    assert forall j | 0 <= j < |line| :: s[j] == line[j];
  }

  /** A consumed line extends the consumed lines by itself. */
  lemma ConsumeLine(consumed: Bytes, taken: Bytes, line: Bytes, limit: nat)
    requires AtLineEnd(consumed) && AllWithin(CompleteLines(consumed), limit)
    requires taken == line + [NEWLINE] && NEWLINE !in line && |taken| <= limit
    ensures AtLineEnd(consumed + taken) && CompleteLines(consumed + taken) == CompleteLines(consumed) + [line]
    ensures AllWithin(CompleteLines(consumed + taken), limit)
    ensures StripAll(CompleteLines(consumed + taken)) == StripAll(CompleteLines(consumed)) + [StripCarriageReturn(line)]
  {
    LinesOfAppend(consumed, taken);
    NewlineAfterLine(line, []);
    assert line + ([NEWLINE] + []) == taken;
    assert taken[..|line|] == line && taken[|line| + 1..] == [];
    assert CompleteLines(taken) == [line];
  }

  /** A settled session has handled exactly what the received bytes ask. */
  lemma SettledHandledAll(s: Session)
    requires s.Valid() && s.Settled()
    ensures s.handled == Requests(s.received, s.limit)
  {
    var rest := s.buffer + s.socket;
    assert s.received == s.consumed + rest;
    LinesOfAppend(s.consumed, rest);
    WithinLimitOfAppend(CompleteLines(s.consumed), CompleteLines(rest), s.limit);
    if s.phase.TooLarge? {
      FirstNewlineOfAppend(s.buffer, s.socket);
      assert |CompleteLines(rest)[0]| + 1 > s.limit;
    } else {
      assert rest == s.buffer;
    }
    assert WithinLimit(CompleteLines(rest), s.limit) == [];
    assert CompleteLines(s.consumed) + [] == CompleteLines(s.consumed);
  }

  // What the requests of a stream are, byte by byte: 10 is the newline, 13 the carriage return.

  lemma LinesOfLine(line: Bytes, rest: Bytes)
    requires 10 !in line
    ensures CompleteLines(line + ([10] + rest)) == [line] + CompleteLines(rest)
  {
    var s := line + ([10] + rest);
    NewlineAfterLine(line, rest);
    assert s[..|line|] == line && s[|line| + 1..] == rest;
  }

  lemma StripAllCons(line: Bytes, lines: seq<Bytes>)
    ensures StripAll([line] + lines) == [StripCarriageReturn(line)] + StripAll(lines)
  {
  }

  lemma RequestsOfLine(line: Bytes, rest: Bytes, limit: nat)
    requires 10 !in line && |line| + 1 <= limit
    ensures Requests(line + ([10] + rest), limit) == [StripCarriageReturn(line)] + Requests(rest, limit)
  {
    LinesOfLine(line, rest);
    var lines := CompleteLines(rest);
    assert ([line] + lines)[1..] == lines;
    StripAllCons(line, WithinLimit(lines, limit));
  }

  /** A line within the limit is a request, without the carriage return it may end in. */
  lemma RequestIsItsLine(line: Bytes, rest: Bytes, limit: nat)
    requires 10 !in line
    ensures |line| + 2 <= limit ==> Requests(line + [13, 10] + rest, limit) == [line] + Requests(rest, limit)
    ensures |line| + 1 <= limit && (line == [] || line[|line| - 1] != 13) ==>
              Requests(line + [10] + rest, limit) == [line] + Requests(rest, limit)
  {
    var returned := line + [13];
    assert line + [13, 10] + rest == returned + ([10] + rest);
    assert line + [10] + rest == line + ([10] + rest);
    assert returned[..|line|] == line;
    if |line| + 2 <= limit {
      RequestsOfLine(returned, rest, limit);
    }
    if |line| + 1 <= limit {
      RequestsOfLine(line, rest, limit);
    }
  }

  /** Nothing is asked by an unfinished line, nor from a line on that is too long with its newline. */
  lemma NoRequestThere(line: Bytes, rest: Bytes, limit: nat)
    requires 10 !in line
    ensures Requests(line, limit) == []
    ensures |line| + 1 > limit ==> Requests(line + [10] + rest, limit) == []
  {
    assert FirstNewline(line) == |line|;
    assert line + [10] + rest == line + ([10] + rest);
    LinesOfLine(line, rest);
  }

  // Any schedule of arrivals and callbacks.

  datatype Event = Arrival(chunk: Bytes) | Callback(n: nat)

  function Arrived(events: seq<Event>): Bytes {
    if events == [] then []
    else Arrived(events[..|events| - 1]) + if events[|events| - 1].Arrival? then events[|events| - 1].chunk else []
  }

  /**
   * Framing is independent of chunking: however the stream is cut into arrivals and interleaved with
   * callbacks, the session handles the requests of the whole stream, in order, and sends one
   * response for each.
   */
  method ServeStream(limit: nat, handle: Handle, events: seq<Event>) returns (handled: seq<Bytes>, sent: seq<Bytes>)
    ensures handled == Requests(Arrived(events), limit)
    ensures |sent| == |handled| && forall i | 0 <= i < |sent| :: sent[i] == handle(i, handled[i]) + [10]
  {
    var session := new Session(limit, handle);
    var i := 0;
    while i < |events|
      invariant i <= |events|
      invariant fresh(session) && session.Valid() && !session.phase.Failed?
      invariant session.received == Arrived(events[..i])
    {
      match events[i] {
        case Arrival(chunk) => session.Arrive(chunk);
        case Callback(n) => session.Step(n);
      }
      assert events[..i + 1][..i] == events[..i];
      i := i + 1;
    }
    assert events[..i] == events;
    while !session.phase.TooLarge? && !(session.phase.Reading? && FirstNewline(session.buffer) == |session.buffer| && session.socket == [])
      invariant fresh(session) && session.Valid() && !session.phase.Failed?
      invariant session.received == Arrived(events)
      decreases session.Cost()
    {
      session.Step(|session.socket|);
    }
    SettledHandledAll(session);
    return session.handled, session.sent;
  }
}
