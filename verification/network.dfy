/**
 * The message layer of core/network.py: newline-delimited JSON envelopes
 * `{type, data, timestamp}` over a byte stream, dispatched to handlers
 * registered per message type, and the connection flags around them.
 *
 * JSON text is abstract: an encoder `Json -> bytes` (`json.dumps` followed
 * by UTF-8 encoding) and a parser `bytes -> ParseResult` (UTF-8 decoding
 * followed by `json.loads`) are parameters. Handlers are opaque
 * identities; a call of one is recorded in a dispatch log.
 */
module Network {
  import opened Wrappers

  newtype byte = x: int | 0 <= x < 256

  /** `b'\n'`, the frame delimiter. */
  const Newline: byte := 10

  const MsgSyncRequest: string := "sync_request"
  const MsgSyncResponse: string := "sync_response"
  const MsgStartRanging: string := "start_ranging"
  const MsgChirpSent: string := "chirp_sent"
  const MsgDetectionResult: string := "detection"
  const MsgDistanceResult: string := "distance"
  const MsgHeartbeat: string := "heartbeat"
  const MsgDisconnect: string := "disconnect"

  datatype Json =
    | JNull
    | JBool(b: bool)
    | JNum(n: real)
    | JStr(s: string)
    | JArr(items: seq<Json>)
    | JObj(fields: map<string, Json>)

  /** What decoding one line yields. */
  datatype ParseResult =
    | Parsed(value: Json)
    | BadJson   // `json.JSONDecodeError`: the line is skipped
    | BadText   // the line is not UTF-8: the error escapes to the receive loop

  /** Opaque identity of a registered handler function. */
  type HandlerId = nat

  /** One call `handler(data, timestamp)`. */
  datatype Dispatch = Dispatch(handler: HandlerId, msgType: string, data: Json, timestamp: Json)

  // ---------------------------------------------------------------------
  // Framing

  /** The index of the first occurrence of `b` in `s`. */
  function IndexOf(s: seq<byte>, b: byte): (i: nat)
    requires b in s
    ensures i < |s| && s[i] == b
  {
    if s[0] == b then 0
    else
      assert b in s[1..] by {
        assert s == [s[0]] + s[1..];
      }
      IndexOf(s[1..], b) + 1
  }

  /** `IndexOf` finds the first occurrence. */
  lemma {:induction false} IndexOfIsFirst(s: seq<byte>, b: byte)
    requires b in s
    ensures b !in s[..IndexOf(s, b)]
  {
    if s[0] != b {
      assert b in s[1..] by {
        assert s == [s[0]] + s[1..];
      }
      var j := IndexOf(s[1..], b);
      IndexOfIsFirst(s[1..], b);
      assert s[..j + 1] == [s[0]] + s[1..][..j];
    }
  }

  datatype Framing = Framing(lines: seq<seq<byte>>, rest: seq<byte>)

  /**
   * What `while b'\n' in buffer: line, buffer = buffer.split(b'\n', 1)`
   * extracts: the complete lines, in order, and the unterminated rest.
   */
  function SplitLines(buf: seq<byte>): Framing
    decreases |buf|
  {
    if Newline !in buf then Framing([], buf)
    else
      var i := IndexOf(buf, Newline);
      var tail := SplitLines(buf[i + 1..]);
      Framing([buf[..i]] + tail.lines, tail.rest)
  }

  /** Neither an extracted line nor the rest holds a newline. */
  lemma {:induction false} SplitLinesNewlineFree(buf: seq<byte>)
    ensures Newline !in SplitLines(buf).rest
    ensures forall i :: 0 <= i < |SplitLines(buf).lines| ==> Newline !in SplitLines(buf).lines[i]
    decreases |buf|
  {
    if Newline in buf {
      var i := IndexOf(buf, Newline);
      IndexOfIsFirst(buf, Newline);
      SplitLinesNewlineFree(buf[i + 1..]);
      SplitLinesStep(buf);
    }
  }

  /** Framing a buffer that holds a newline: the line before it, then the framing of what follows. */
  lemma SplitLinesStep(buf: seq<byte>)
    requires Newline in buf
    ensures var i := IndexOf(buf, Newline);
            SplitLines(buf) == Framing([buf[..i]] + SplitLines(buf[i + 1..]).lines, SplitLines(buf[i + 1..]).rest)
  {
  }

  lemma SplitAround(s: seq<byte>, i: nat)
    requires i < |s|
    ensures s == s[..i] + [s[i]] + s[i + 1..]
  {
  }

  /** Lines written back with their terminators. */
  function Join(lines: seq<seq<byte>>): (r: seq<byte>)
  {
    if lines == [] then [] else lines[0] + [Newline] + Join(lines[1..])
  }

  lemma JoinCons(line: seq<byte>, lines: seq<seq<byte>>)
    ensures Join([line] + lines) == line + [Newline] + Join(lines)
  {
    assert ([line] + lines)[1..] == lines;
  }

  /** Framing loses nothing: the lines, each terminated, followed by the rest give back the buffer. */
  lemma {:induction false} SplitLinesReassembles(buf: seq<byte>)
    ensures Join(SplitLines(buf).lines) + SplitLines(buf).rest == buf
    decreases |buf|
  {
    if Newline in buf {
      var i := IndexOf(buf, Newline);
      var tail := SplitLines(buf[i + 1..]);
      SplitLinesReassembles(buf[i + 1..]);
      SplitLinesStep(buf);
      JoinCons(buf[..i], tail.lines);
      SplitAround(buf, i);
      calc {
        Join(SplitLines(buf).lines) + SplitLines(buf).rest;
        Join([buf[..i]] + tail.lines) + tail.rest;
        buf[..i] + [Newline] + (Join(tail.lines) + tail.rest);
        buf[..i] + [Newline] + buf[i + 1..];
      }
    }
  }

  /** The first newline of `line + '\n' + more`, when `line` has none, is the one after `line`. */
  lemma IndexOfTerminator(line: seq<byte>, more: seq<byte>)
    requires Newline !in line
    ensures Newline in line + [Newline] + more
    ensures IndexOf(line + [Newline] + more, Newline) == |line|
  {
    var buf := line + [Newline] + more;
    assert buf[|line|] == Newline;
    assert buf[..|line|] == line;
    var i := IndexOf(buf, Newline);
    IndexOfIsFirst(buf, Newline);
    assert forall k :: 0 <= k < |line| ==> buf[k] == line[k];
    assert forall k :: |line| < k <= |buf| ==> buf[|line|] in buf[..k];
  }

  /** Framing a buffer that starts with a newline-free line and its terminator. */
  lemma SplitLinesCons(buf: seq<byte>, line: seq<byte>, more: seq<byte>)
    requires Newline !in line && buf == line + [Newline] + more
    ensures SplitLines(buf) == Framing([line] + SplitLines(more).lines, SplitLines(more).rest)
  {
    IndexOfTerminator(line, more);
    SplitLinesStep(buf);
    assert buf[..|line|] == line && buf[|line| + 1..] == more;
  }

  /** Joining newline-free lines and framing the result gives back exactly those lines. */
  lemma {:induction false} SplitLinesOfJoin(lines: seq<seq<byte>>, rest: seq<byte>)
    requires forall i :: 0 <= i < |lines| ==> Newline !in lines[i]
    requires Newline !in rest
    ensures SplitLines(Join(lines) + rest) == Framing(lines, rest)
    decreases |lines|
  {
    if lines != [] {
      var more := Join(lines[1..]) + rest;
      SplitLinesCons(Join(lines) + rest, lines[0], more);
      SplitLinesOfJoin(lines[1..], rest);
      assert lines == [lines[0]] + lines[1..];
    }
  }

  /** A single frame `text + '\n'` whose text has no newline yields that text as its only line. */
  lemma SingleFrame(text: seq<byte>)
    requires Newline !in text
    ensures SplitLines(text + [Newline]) == Framing([text], [])
  {
    SplitLinesOfJoin([text], []);
    assert Join([text]) + [] == text + [Newline];
  }

  // ---------------------------------------------------------------------
  // Envelopes and dispatch

  /** Python truthiness of a JSON value: `data or {}` replaces falsy data by an empty object. */
  predicate Falsy(v: Json)
  {
    match v
    case JNull => true
    case JBool(b) => !b
    case JNum(n) => n == 0.0
    case JStr(s) => s == ""
    case JArr(items) => items == []
    case JObj(fields) => fields == map[]
  }

  /** `data or {}` for an optional `data` argument. */
  function DataOrEmpty(data: Option<Json>): (d: Json)
    ensures data.Some? && !Falsy(data.value) ==> d == data.value
    ensures data.None? || Falsy(data.value) ==> d == JObj(map[])
  {
    if data.Some? && !Falsy(data.value) then data.value else JObj(map[])
  }

  /** The message object `send_message` serialises. */
  function Envelope(msgType: string, data: Option<Json>, timestamp: real): (e: Json)
    ensures e.JObj? && e.fields.Keys == {"type", "data", "timestamp"}
    ensures e.fields["type"] == JStr(msgType) && e.fields["timestamp"] == JNum(timestamp)
    ensures e.fields["data"] == DataOrEmpty(data)
  {
    JObj(map["type" := JStr(msgType), "data" := DataOrEmpty(data), "timestamp" := JNum(timestamp)])
  }

  /** What `_handle_message` does with a decoded message. */
  datatype Handling =
    | Call(d: Dispatch)     // a registered handler is called once
    | Unknown               // the type has no handler: nothing happens
    | Fatal                 // an exception escapes: the receive loop ends

  /**
   * `_handle_message`: read `type`, `data` (default `{}`) and `timestamp`
   * (default 0) and call the handler registered for the type. A message
   * that is not an object has no `get`, and a list or object as type cannot
   * be looked up in the handler table: both raise out of the call.
   */
  function Interpret(message: Json, handlers: map<string, HandlerId>): (h: Handling)
    ensures h.Call? ==> message.JObj? && "type" in message.fields
                        && message.fields["type"] == JStr(h.d.msgType)
                        && h.d.msgType in handlers && h.d.handler == handlers[h.d.msgType]
    ensures h.Call? ==> h.d.data == (if "data" in message.fields then message.fields["data"] else JObj(map[]))
    ensures h.Call? ==> h.d.timestamp == (if "timestamp" in message.fields then message.fields["timestamp"] else JNum(0.0))
    ensures (message.JObj? && "type" in message.fields && message.fields["type"].JStr?
             && message.fields["type"].s in handlers) ==> h.Call?
    ensures h.Fatal? <==> !message.JObj? || ("type" in message.fields && (message.fields["type"].JArr? || message.fields["type"].JObj?))
  {
    if !message.JObj? then Fatal
    else
      var m := message.fields;
      var msgType := if "type" in m then m["type"] else JNull;
      var data := if "data" in m then m["data"] else JObj(map[]);
      var timestamp := if "timestamp" in m then m["timestamp"] else JNum(0.0);
      if msgType.JArr? || msgType.JObj? then Fatal
      else if msgType.JStr? && msgType.s in handlers then Call(Dispatch(handlers[msgType.s], msgType.s, data, timestamp))
      else Unknown
  }

  /** One complete line: decode it, then handle the message. */
  function HandleLine(line: seq<byte>, parse: seq<byte> -> ParseResult, handlers: map<string, HandlerId>): (h: Handling)
    ensures parse(line).BadJson? ==> h.Unknown?
    ensures parse(line).BadText? ==> h.Fatal?
  {
    match parse(line)
    case Parsed(message) => Interpret(message, handlers)
    case BadJson => Unknown
    case BadText => Fatal
  }

  datatype LinesOutcome = LinesOutcome(calls: seq<Dispatch>, fatal: bool)

  /** Lines handled in order until one raises: the handler calls made and whether one raised. */
  function HandleLines(lines: seq<seq<byte>>, parse: seq<byte> -> ParseResult,
                       handlers: map<string, HandlerId>): (o: LinesOutcome)
    ensures |o.calls| <= |lines|
  {
    if lines == [] then LinesOutcome([], false)
    else
      var prev := HandleLines(lines[..|lines| - 1], parse, handlers);
      if prev.fatal then prev
      else
        match HandleLine(lines[|lines| - 1], parse, handlers)
        case Call(d) => LinesOutcome(prev.calls + [d], false)
        case Unknown => prev
        case Fatal => LinesOutcome(prev.calls, true)
  }

  /**
   * A line that fails to decode as JSON is skipped: handling the lines
   * around it gives the same calls as if it had not been received.
   */
  lemma {:induction false} BadJsonLineIsSkipped(before: seq<seq<byte>>, bad: seq<byte>, after: seq<seq<byte>>,
                                                parse: seq<byte> -> ParseResult, handlers: map<string, HandlerId>)
    requires parse(bad).BadJson?
    ensures HandleLines(before + [bad] + after, parse, handlers) == HandleLines(before + after, parse, handlers)
    decreases |after|
  {
    if after == [] {
      assert (before + [bad] + after)[..|before|] == before;
      assert before + after == before;
    } else {
      var a := before + [bad] + after;
      var b := before + after;
      var init := after[..|after| - 1];
      assert a[..|a| - 1] == before + [bad] + init;
      assert b[..|b| - 1] == before + init;
      assert a[|a| - 1] == b[|b| - 1];
      BadJsonLineIsSkipped(before, bad, init, parse, handlers);
    }
  }

  /** Handling more lines only adds calls after the earlier ones. */
  lemma {:induction false} HandleLinesAppend(lines: seq<seq<byte>>, line: seq<byte>,
                                             parse: seq<byte> -> ParseResult, handlers: map<string, HandlerId>)
    ensures var before := HandleLines(lines, parse, handlers);
            var after := HandleLines(lines + [line], parse, handlers);
            && (before.fatal ==> after == before)
            && (!before.fatal ==> after.calls == before.calls + (if HandleLine(line, parse, handlers).Call? then [HandleLine(line, parse, handlers).d] else []))
            && (!before.fatal ==> (after.fatal <==> HandleLine(line, parse, handlers).Fatal?))
  {
    assert (lines + [line])[..|lines|] == lines;
  }

  /**
   * End to end: a frame built by `send_message` for a registered type,
   * received on an empty buffer, calls that type's handler exactly once
   * with the envelope's data and timestamp, provided the encoder emits no
   * newline and the parser reads back what the encoder wrote.
   */
  lemma EnvelopeIsDelivered(msgType: string, data: Option<Json>, timestamp: real,
                            encode: Json -> seq<byte>, parse: seq<byte> -> ParseResult,
                            handlers: map<string, HandlerId>)
    requires msgType in handlers
    requires Newline !in encode(Envelope(msgType, data, timestamp))
    requires parse(encode(Envelope(msgType, data, timestamp))) == Parsed(Envelope(msgType, data, timestamp))
    ensures var f := SplitLines(encode(Envelope(msgType, data, timestamp)) + [Newline]);
            && f.rest == []
            && HandleLines(f.lines, parse, handlers)
               == LinesOutcome([Dispatch(handlers[msgType], msgType, DataOrEmpty(data), JNum(timestamp))], false)
  {
    var text := encode(Envelope(msgType, data, timestamp));
    SingleFrame(text);
    assert [text][..0] == [];
  }

  // ---------------------------------------------------------------------
  // The connection manager

  class NetworkManager {
    var isConnected: bool
    var running: bool
    /** The receive loop's thread is alive. */
    var receiving: bool
    /** The receive loop's local buffer of bytes not yet terminated by a newline. */
    var buffer: seq<byte>
    var handlers: map<string, HandlerId>
    /** Frames passed to `sendall`, in order. */
    var sent: seq<seq<byte>>
    /** Handler calls made, in order. */
    var dispatched: seq<Dispatch>
    /** Calls of `on_connect` and `on_disconnect`. */
    var connects: nat
    var disconnects: nat

    ghost predicate Valid()
      reads this
    {
      Newline !in buffer && (!receiving ==> buffer == [])
    }

    constructor ()
      ensures Valid()
      ensures !isConnected && !running && !receiving && buffer == [] && handlers == map[]
      ensures sent == [] && dispatched == [] && connects == 0 && disconnects == 0
    {
      isConnected := false;
      running := false;
      receiving := false;
      buffer := [];
      handlers := map[];
      sent := [];
      dispatched := [];
      connects := 0;
      disconnects := 0;
    }

    /** `register_handler`: the type's handler is replaced, the other types keep theirs. */
    method RegisterHandler(msgType: string, handler: HandlerId)
      requires Valid()
      modifies this
      ensures Valid()
      ensures handlers == old(handlers)[msgType := handler]
      ensures msgType in handlers && handlers[msgType] == handler
      ensures forall t :: t != msgType ==> (t in handlers <==> t in old(handlers))
      ensures forall t :: t != msgType && t in handlers ==> handlers[t] == old(handlers)[t]
      ensures isConnected == old(isConnected) && running == old(running) && receiving == old(receiving)
      ensures buffer == old(buffer) && sent == old(sent) && dispatched == old(dispatched)
      ensures connects == old(connects) && disconnects == old(disconnects)
    {
      handlers := handlers[msgType := handler];
    }

    /**
     * The common tail of `_accept_connections` and a successful
     * `connect_to_server`: mark connected, notify, start a receive loop
     * with an empty buffer.
     */
    method Connected()
      requires Valid()
      modifies this
      ensures Valid()
      ensures isConnected && running && receiving && buffer == []
      ensures connects == old(connects) + 1
      ensures handlers == old(handlers) && sent == old(sent) && dispatched == old(dispatched)
      ensures disconnects == old(disconnects)
    {
      isConnected := true;
      connects := connects + 1;
      running := true;
      receiving := true;
      buffer := [];
    }

    /** `connect_to_server`, with the socket's `connect` succeeding or not. */
    method ConnectToServer(succeeds: bool) returns (ok: bool)
      requires Valid()
      modifies this
      ensures Valid()
      ensures ok == succeeds
      ensures ok ==> isConnected && running && receiving && buffer == [] && connects == old(connects) + 1
      ensures !ok ==> isConnected == old(isConnected) && running == old(running) && receiving == old(receiving)
                      && buffer == old(buffer) && connects == old(connects)
      ensures handlers == old(handlers) && sent == old(sent) && dispatched == old(dispatched)
      ensures disconnects == old(disconnects)
    {
      if !succeeds {
        return false;
      }
      Connected();
      return true;
    }

    /** The receive loop exits: the connection is marked down and `on_disconnect` runs. */
    method EndReceiveLoop()
      requires Valid()
      modifies this
      ensures Valid()
      ensures !isConnected && !receiving && buffer == []
      ensures disconnects == old(disconnects) + 1
      ensures running == old(running) && handlers == old(handlers) && sent == old(sent)
      ensures dispatched == old(dispatched) && connects == old(connects)
    {
      receiving := false;
      buffer := [];
      isConnected := false;
      disconnects := disconnects + 1;
    }

    /**
     * `_handle_message`: call the registered handler, if any. Returns
     * whether an exception escapes (which ends the receive loop).
     */
    method HandleMessage(message: Json) returns (fatal: bool)
      requires Valid()
      modifies this`dispatched
      ensures Valid()
      ensures fatal <==> Interpret(message, handlers).Fatal?
      ensures dispatched == old(dispatched) + (if Interpret(message, handlers).Call? then [Interpret(message, handlers).d] else [])
    {
      match Interpret(message, handlers) {
        case Call(d) =>
          dispatched := dispatched + [d];
          fatal := false;
        case Unknown =>
          fatal := false;
        case Fatal =>
          fatal := true;
      }
    }

    /** The body of the framing loop for one line: decode it and handle the message. */
    method ReceiveLine(line: seq<byte>, parse: seq<byte> -> ParseResult) returns (fatal: bool)
      requires Valid()
      modifies this`dispatched
      ensures Valid()
      ensures fatal <==> HandleLine(line, parse, handlers).Fatal?
      ensures dispatched == old(dispatched) + (if HandleLine(line, parse, handlers).Call? then [HandleLine(line, parse, handlers).d] else [])
    {
      match parse(line) {
        case Parsed(message) =>
          fatal := HandleMessage(message);
        case BadJson =>
          fatal := false;
        case BadText =>
          fatal := true;
      }
    }

    /**
     * The framing loop `while b'\n' in buffer`: split off each complete
     * line and handle it, in order, until one raises or no newline is left.
     * Returns the unterminated rest and whether a line raised.
     */
    method ProcessLines(bytes: seq<byte>, parse: seq<byte> -> ParseResult) returns (rest: seq<byte>, fatal: bool)
      requires Valid()
      modifies this`dispatched
      ensures Valid()
      ensures var o := HandleLines(SplitLines(bytes).lines, parse, handlers);
              dispatched == old(dispatched) + o.calls && fatal == o.fatal
      ensures !fatal ==> rest == SplitLines(bytes).rest
    {
      ghost var consumed: seq<seq<byte>> := [];
      var pending := bytes;
      while Newline in pending
        invariant SplitLines(bytes).lines == consumed + SplitLines(pending).lines
        invariant SplitLines(bytes).rest == SplitLines(pending).rest
        invariant !HandleLines(consumed, parse, handlers).fatal
        invariant dispatched == old(dispatched) + HandleLines(consumed, parse, handlers).calls
        invariant Valid()
        decreases |pending|
      {
        var i := IndexOf(pending, Newline);
        var line := pending[..i];
        FramingProgress(SplitLines(bytes).lines, SplitLines(bytes).rest, consumed, pending);
        pending := pending[i + 1..];
        HandleLinesAppend(consumed, line, parse, handlers);
        consumed := consumed + [line];
        var lineFatal := ReceiveLine(line, parse);
        if lineFatal {
          HandleLinesPrefix(consumed, SplitLines(pending).lines, parse, handlers);
          return pending, true;
        }
      }
      assert SplitLines(pending) == Framing([], pending);
      assert consumed == SplitLines(bytes).lines;
      return pending, false;
    }

    /**
     * One pass of `_receive_loop` once `recv` has returned `chunk`: an empty
     * chunk means the peer closed and ends the loop; otherwise the chunk is
     * appended to the buffer and the complete lines are handled. A line that
     * raises ends the loop.
     */
    method ReceiveChunk(chunk: seq<byte>, parse: seq<byte> -> ParseResult)
      requires Valid() && receiving
      modifies this
      ensures Valid()
      ensures chunk == [] ==> !receiving && !isConnected && dispatched == old(dispatched)
                              && disconnects == old(disconnects) + 1
      ensures chunk != [] ==>
                var f := SplitLines(old(buffer) + chunk);
                var o := HandleLines(f.lines, parse, old(handlers));
                && dispatched == old(dispatched) + o.calls
                && (o.fatal ==> !receiving && !isConnected && disconnects == old(disconnects) + 1)
                && (!o.fatal ==> receiving && buffer == f.rest && isConnected == old(isConnected)
                                 && disconnects == old(disconnects))
      ensures handlers == old(handlers) && running == old(running) && sent == old(sent)
      ensures connects == old(connects)
    {
      if chunk == [] {
        EndReceiveLoop();
        return;
      }
      var rest, fatal := ProcessLines(buffer + chunk, parse);
      SplitLinesNewlineFree(old(buffer) + chunk);
      if fatal {
        EndReceiveLoop();
      } else {
        buffer := rest;
      }
    }

    /**
     * `send_message`: refused when not connected; otherwise the envelope
     * with the current time is serialised, terminated by one newline and
     * handed to the socket, which may fail.
     */
    method SendMessage(msgType: string, data: Option<Json>, now: real,
                       encode: Json -> seq<byte>, transportOk: bool) returns (ok: bool)
      requires Valid()
      modifies this
      ensures Valid()
      ensures !old(isConnected) ==> !ok && sent == old(sent)
      ensures old(isConnected) ==> ok == transportOk
      ensures ok ==> sent == old(sent) + [encode(Envelope(msgType, data, now)) + [Newline]]
      ensures !ok ==> sent == old(sent)
      ensures isConnected == old(isConnected) && running == old(running) && receiving == old(receiving)
      ensures buffer == old(buffer) && handlers == old(handlers) && dispatched == old(dispatched)
      ensures connects == old(connects) && disconnects == old(disconnects)
    {
      if !isConnected {
        return false;
      }
      var message := Envelope(msgType, data, now);
      var frame := encode(message) + [Newline];
      if !transportOk {
        return false;
      }
      sent := sent + [frame];
      return true;
    }

    /**
     * `close`: stop the loop and mark the connection down before sending
     * DISCONNECT, so that send is refused and nothing goes out.
     */
    method Close(now: real, encode: Json -> seq<byte>)
      requires Valid()
      modifies this
      ensures Valid()
      ensures !running && !isConnected
      ensures sent == old(sent)
      ensures receiving == old(receiving) && buffer == old(buffer) && handlers == old(handlers)
      ensures dispatched == old(dispatched) && connects == old(connects) && disconnects == old(disconnects)
    {
      running := false;
      isConnected := false;
      var _ := SendMessage(MsgDisconnect, None, now, encode, true);
    }

    /** The receive loop's `while self.running` test failing after `close`. */
    method LoopCheck()
      requires Valid() && receiving
      modifies this
      ensures Valid()
      ensures !old(running) ==> !receiving && !isConnected && disconnects == old(disconnects) + 1
      ensures old(running) ==> receiving && isConnected == old(isConnected) && disconnects == old(disconnects)
      ensures running == old(running) && handlers == old(handlers) && sent == old(sent)
      ensures dispatched == old(dispatched) && connects == old(connects)
    {
      if !running {
        EndReceiveLoop();
      }
    }
  }

  /** Taking the first line off the pending bytes moves it to the consumed lines. */
  lemma FramingProgress(lines: seq<seq<byte>>, rest: seq<byte>, consumed: seq<seq<byte>>, pending: seq<byte>)
    requires Newline in pending
    requires lines == consumed + SplitLines(pending).lines
    requires rest == SplitLines(pending).rest
    ensures var i := IndexOf(pending, Newline);
            && lines == (consumed + [pending[..i]]) + SplitLines(pending[i + 1..]).lines
            && rest == SplitLines(pending[i + 1..]).rest
  {
    var i := IndexOf(pending, Newline);
    var tail := SplitLines(pending[i + 1..]);
    SplitLinesStep(pending);
    assert SplitLines(pending).lines == [pending[..i]] + tail.lines;
    assert consumed + ([pending[..i]] + tail.lines) == (consumed + [pending[..i]]) + tail.lines;
  }

  /** Once a line has raised, the lines after it change nothing. */
  lemma {:induction false} HandleLinesPrefix(lines: seq<seq<byte>>, more: seq<seq<byte>>,
                                             parse: seq<byte> -> ParseResult, handlers: map<string, HandlerId>)
    requires HandleLines(lines, parse, handlers).fatal
    ensures HandleLines(lines + more, parse, handlers) == HandleLines(lines, parse, handlers)
    decreases |more|
  {
    if more == [] {
      assert lines + more == lines;
    } else {
      var init := more[..|more| - 1];
      HandleLinesPrefix(lines, init, parse, handlers);
      assert (lines + more)[..|lines + more| - 1] == lines + init;
    }
  }
}
