/**
 The incremental server-sent-event framer of the recovery smoke harness
 (scripts/llm_guard_proxy_loop_recovery_smoke.py).

 Two independent references are given and connected to the framer for every byte stream:
 the whole stream split into lines (chunking does not matter), and a plain event parser in the
 manner of section 9.2.6 of the WHATWG HTML Standard (what an accepted stream looks like).
 */
module SseFramer {
  import opened Foundations

  const CR: byte := 13
  const LF: byte := 10
  const COLON: byte := 58
  const SPACE: byte := 32
  const DONE: Bytes := [91, 68, 79, 78, 69, 93]
  const MESSAGE: Bytes := [109, 101, 115, 115, 97, 103, 101]
  const FINAL: Bytes := [102, 105, 110, 97, 108]
  const ERROR: Bytes := [101, 114, 114, 111, 114]
  const EVENT: Bytes := [101, 118, 101, 110, 116]
  const DATA: Bytes := [100, 97, 116, 97]
  const HEARTBEAT: Bytes := [104, 101, 97, 114, 116, 98, 101, 97, 116]

  datatype Json =
    | JNull
    | JBool(truth: bool)
    | JNumber(number: real)
    | JString(text: string)
    | JArray(items: seq<Json>)
    | JObject(fields: map<string, Json>)

  /** json.loads: None stands for a decoding error. */
  type Decoder = Bytes -> Option<Json>

  datatype ProtocolError = AfterTerminal | InvalidJson | InvalidFinal | InvalidEvent

  /** Every field of the framer except its byte buffer. */
  datatype Receipts = Receipts(
    eventType: Option<Bytes>,
    dataLines: seq<Bytes>,
    eventCount: nat,
    commentCount: nat,
    heartbeatCount: nat,
    finalCount: nat,
    errorCount: nat,
    doneCount: nat,
    prelude: bool,
    protocolError: Option<ProtocolError>,
    finalPayload: Option<Json>,
    terminalFailure: bool,
    contentParts: seq<string>,
    terminalSeen: bool)

  const INITIAL := Receipts(None, [], 0, 0, 0, 0, 0, 0, false, None, None, false, [], false)

  // ----- bytes -----

  /** Index of the first b in s, or |s|. */
  function FirstIndex(s: Bytes, b: byte): (r: nat)
    ensures r <= |s|
    ensures b !in s[..r]
    ensures r < |s| ==> s[r] == b
  {
    if s == [] || s[0] == b then 0 else
      var r := 1 + FirstIndex(s[1..], b);
      assert s[..r] == [s[0]] + s[1..][..r - 1];
      r
  }

  predicate IsTerminator(b: byte) {
    b == CR || b == LF
  }

  /** Index of the first CR or LF in s, or |s|. */
  function FirstTerminator(s: Bytes): (r: nat)
    ensures r <= |s|
    ensures forall i :: 0 <= i < r ==> !IsTerminator(s[i])
    ensures r < |s| ==> IsTerminator(s[r])
  {
    if s == [] || IsTerminator(s[0]) then 0 else
      var r := 1 + FirstTerminator(s[1..]);
      assert forall i :: 1 <= i < r ==> s[i] == s[1..][i - 1];
      r
  }

  /** The terminator found at end is CRLF or a single byte. */
  function Width(s: Bytes, end: nat): (w: nat)
    requires end < |s|
    ensures 1 <= w <= 2 && end + w <= |s|
  {
    if s[end] == CR && end + 1 < |s| && s[end + 1] == LF then 2 else 1
  }

  function Join(lines: seq<Bytes>): Bytes {
    if lines == [] then []
    else if |lines| == 1 then lines[0]
    else Join(lines[..|lines| - 1]) + [LF] + lines[|lines| - 1]
  }

  predicate IsBlank(b: byte) {
    b == SPACE || 9 <= b <= 13
  }

  function StripLeft(s: Bytes): Bytes {
    if s != [] && IsBlank(s[0]) then StripLeft(s[1..]) else s
  }

  // ----- the framer's steps -----

  function Fail(s: Receipts, code: ProtocolError): Receipts {
    if s.protocolError == None then s.(protocolError := Some(code)) else s
  }

  function Payload(decode: Decoder, data: Bytes): Option<Json> {
    if data == [] then Some(JNull) else decode(data)
  }

  predicate IsErrorEvent(eventType: Bytes, payload: Json) {
    eventType == ERROR
    || (payload.JObject? && "error" in payload.fields && payload.fields["error"].JObject?)
  }

  function ContentOf(choice: Json, container: string): seq<string> {
    if choice.JObject? && container in choice.fields && choice.fields[container].JObject?
       && "content" in choice.fields[container].fields
       && choice.fields[container].fields["content"].JString?
    then [choice.fields[container].fields["content"].text]
    else []
  }

  function ChoiceContents(choices: seq<Json>): seq<string> {
    if choices == [] then []
    else ContentOf(choices[0], "delta") + ContentOf(choices[0], "message") + ChoiceContents(choices[1..])
  }

  function Contents(payload: Json): seq<string>
    requires payload.JObject?
  {
    if "choices" in payload.fields && payload.fields["choices"].JArray?
    then ChoiceContents(payload.fields["choices"].items)
    else []
  }

  function Dispatch(decode: Decoder, s: Receipts): Receipts {
    if s.eventType == None && s.dataLines == [] then s else
      var eventType := if s.eventType.None? || s.eventType.value == [] then MESSAGE else s.eventType.value;
      var data := Join(s.dataLines);
      var cleared := s.(eventType := None, dataLines := []);
      if s.terminalSeen then
        if s.errorCount == 1 && s.doneCount == 0 && eventType == MESSAGE && data == DONE
        then cleared.(eventCount := s.eventCount + 1, doneCount := 1)
        else Fail(cleared, AfterTerminal)
      else
        DispatchFirst(decode, cleared, eventType, data)
  }

  /** An event dispatched before any terminal was seen. */
  function DispatchFirst(decode: Decoder, s: Receipts, eventType: Bytes, data: Bytes): Receipts {
    var priorEvent := s.eventCount > 0 || s.commentCount > 0 || s.prelude;
    var counted := s.(eventCount := s.eventCount + 1);
    if data == DONE then
      counted.(doneCount := s.doneCount + 1, terminalSeen := true, prelude := true)
    else
      match Payload(decode, data)
      case None => Fail(counted, InvalidJson)
      case Some(payload) =>
        if eventType == FINAL then
          var final := counted.(finalCount := s.finalCount + 1, prelude := s.prelude || priorEvent);
          if !payload.JObject? then Fail(final, InvalidFinal)
          else final.(finalPayload := Some(payload), terminalSeen := true)
        else if IsErrorEvent(eventType, payload) then
          counted.(errorCount := s.errorCount + 1, terminalFailure := payload.JObject?, terminalSeen := true)
        else if !payload.JObject? then Fail(counted.(prelude := true), InvalidEvent)
        else counted.(prelude := true, contentParts := s.contentParts + Contents(payload))
  }

  function FieldValue(line: Bytes): Bytes
    requires FirstIndex(line, COLON) < |line|
  {
    var value := line[FirstIndex(line, COLON) + 1..];
    if value != [] && value[0] == SPACE then value[1..] else value
  }

  predicate IsDoneLine(line: Bytes) {
    line == DATA + [COLON, SPACE] + DONE || line == DATA + [COLON] + DONE
  }

  function Line(decode: Decoder, s: Receipts, line: Bytes): Receipts {
    if line != [] && line[0] == COLON then
      var t := if s.terminalSeen then Fail(s, AfterTerminal) else s;
      t.(commentCount := s.commentCount + 1,
         heartbeatCount := s.heartbeatCount + (if HEARTBEAT <= StripLeft(line[1..]) then 1 else 0),
         prelude := true)
    else if line == [] then
      if s.eventType != None || s.dataLines != [] then Dispatch(decode, s)
      else if s.eventCount == 0 && s.commentCount == 0 then s.(prelude := true)
      else s
    else if s.terminalSeen then
      if s.errorCount == 1 && s.doneCount == 0 && s.dataLines == [] && IsDoneLine(line)
      then s.(dataLines := [DONE])
      else Fail(s, AfterTerminal)
    else
      var i := FirstIndex(line, COLON);
      if i == |line| then s
      else if line[..i] == EVENT then s.(eventType := Some(FieldValue(line)))
      else if line[..i] == DATA then s.(dataLines := s.dataLines + [FieldValue(line)])
      else s
  }

  // ----- the reference: the whole stream, split into lines -----

  /** Lines ended by CRLF, CR or LF; an unterminated tail counts as a last line. */
  function SplitLines(s: Bytes): seq<Bytes>
    decreases |s|
  {
    var end := FirstTerminator(s);
    if end == |s| then (if s == [] then [] else [s])
    else [s[..end]] + SplitLines(s[end + Width(s, end)..])
  }

  /** The first terminator of a text that has none before it. */
  lemma {:induction false} TerminatorAfter(a: Bytes, terminator: byte, b: Bytes)
    requires NoTerminator(a) && (terminator == CR || terminator == LF)
    ensures FirstTerminator(a + [terminator] + b) == |a|
  {
    var s := a + [terminator] + b;
    assert s[|a|] == terminator && forall i :: 0 <= i < |a| ==> s[i] == a[i];
  }

  predicate NoTerminator(text: Bytes) {
    forall i :: 0 <= i < |text| ==> text[i] != CR && text[i] != LF
  }

  /** The rest of a text after the terminator it starts with, whose byte is given. */
  function AfterTerminator(terminator: byte, rest: Bytes): Bytes {
    if terminator == CR && [LF] <= rest then rest[1..] else rest
  }

  lemma {:induction false} WidthAt(a: Bytes, terminator: byte, rest: Bytes)
    ensures var s := a + [terminator] + rest;
            s[..|a|] == a && s[|a| + Width(s, |a|)..] == AfterTerminator(terminator, rest)
  {
    var s := a + [terminator] + rest;
    assert s[|a|] == terminator && s[|a| + 1..] == rest;
    if rest != [] {
      assert s[|a| + 1] == rest[0] && s[|a| + 2..] == rest[1..];
    }
  }

  lemma {:induction false} SplitAt(a: Bytes, terminator: byte, rest: Bytes)
    requires NoTerminator(a) && (terminator == CR || terminator == LF)
    ensures SplitLines(a + [terminator] + rest) == [a] + SplitLines(AfterTerminator(terminator, rest))
  {
    TerminatorAfter(a, terminator, rest);
    WidthAt(a, terminator, rest);
    SplitOnce(a + [terminator] + rest, |a|, a, AfterTerminator(terminator, rest));
  }

  lemma {:induction false} SplitOnce(s: Bytes, end: nat, line: Bytes, next: Bytes)
    requires end == FirstTerminator(s) < |s| && s[..end] == line && s[end + Width(s, end)..] == next
    ensures SplitLines(s) == [line] + SplitLines(next)
  {}

  /** What splitting at CRLF, LF and CR means; the first terminator decides. */
  lemma {:induction false} SplitLinesMeaning(a: Bytes, b: Bytes)
    requires forall i :: 0 <= i < |a| ==> a[i] != CR && a[i] != LF
    ensures SplitLines(a) == if a == [] then [] else [a]
    ensures SplitLines(a + [CR, LF] + b) == [a] + SplitLines(b)
    ensures SplitLines(a + [LF] + b) == [a] + SplitLines(b)
    ensures !(b != [] && b[0] == LF) ==> SplitLines(a + [CR] + b) == [a] + SplitLines(b)
  {
    assert a + [CR, LF] + b == a + [CR] + ([LF] + b) && ([LF] + b)[1..] == b;
    SplitAt(a, CR, [LF] + b);
    SplitAt(a, LF, b);
    SplitAt(a, CR, b);
  }

  /** A field line and what it does, with or without the space after the colon, before any terminal. */
  lemma {:induction false} FieldLines(decode: Decoder, s: Receipts, value: Bytes)
    requires !s.terminalSeen
    ensures Line(decode, s, DATA + [COLON, SPACE] + value) == s.(dataLines := s.dataLines + [value])
    ensures Line(decode, s, EVENT + [COLON, SPACE] + value) == s.(eventType := Some(value))
    ensures !(value != [] && value[0] == SPACE) ==>
              && Line(decode, s, DATA + [COLON] + value) == s.(dataLines := s.dataLines + [value])
              && Line(decode, s, EVENT + [COLON] + value) == s.(eventType := Some(value))
  {
    FieldAt(DATA, [SPACE] + value);
    FieldAt(EVENT, [SPACE] + value);
    FieldAt(DATA, value);
    FieldAt(EVENT, value);
    assert DATA + [COLON, SPACE] + value == DATA + [COLON] + ([SPACE] + value);
    assert EVENT + [COLON, SPACE] + value == EVENT + [COLON] + ([SPACE] + value);
  }

  lemma {:induction false} FirstIndexIs(s: Bytes, b: byte, k: nat)
    requires k < |s| && s[k] == b && forall i :: 0 <= i < k ==> s[i] != b
    ensures FirstIndex(s, b) == k
  {
    if k > 0 {
      FirstIndexIs(s[1..], b, k - 1);
    }
  }

  /** name: no colon in it. */
  lemma {:induction false} FieldAt(name: Bytes, rest: Bytes)
    requires (forall i :: 0 <= i < |name| ==> name[i] != COLON) && name != []
    ensures var line := name + [COLON] + rest;
            && FirstIndex(line, COLON) == |name| && line[..|name|] == name && line[|name| + 1..] == rest
            && line[0] != COLON && line != []
  {
    FirstIndexIs(name + [COLON] + rest, COLON, |name|);
  }

  function FoldLines(decode: Decoder, s: Receipts, lines: seq<Bytes>): Receipts
    decreases |lines|
  {
    if lines == [] then s else FoldLines(decode, Line(decode, s, lines[0]), lines[1..])
  }

  function Reference(decode: Decoder, stream: Bytes): Receipts {
    Dispatch(decode, FoldLines(decode, INITIAL, SplitLines(stream)))
  }

  /** Each line is ended by CRLF. */
  function Ended(lines: seq<Bytes>): Bytes {
    if lines == [] then [] else lines[0] + [CR, LF] + Ended(lines[1..])
  }

  lemma {:induction false} EndedSplits(lines: seq<Bytes>)
    requires forall i :: 0 <= i < |lines| ==> NoTerminator(lines[i])
    ensures SplitLines(Ended(lines)) == lines
  {
    if lines == [] {
      SplitLinesMeaning([], []);
    } else {
      SplitLinesMeaning(lines[0], Ended(lines[1..]));
      EndedSplits(lines[1..]);
    }
  }

  /** The stream of one event with these two fields, in CRLF. */
  function OneEvent(eventType: Bytes, data: Bytes): Bytes {
    Ended([EVENT + [COLON, SPACE] + eventType, DATA + [COLON, SPACE] + data, []])
  }

  lemma {:induction false} FieldFolds(decode: Decoder, s: Receipts, eventType: Bytes, data: Bytes)
    requires !s.terminalSeen
    ensures FoldLines(decode, s, [EVENT + [COLON, SPACE] + eventType, DATA + [COLON, SPACE] + data, []])
            == Line(decode, s.(eventType := Some(eventType), dataLines := s.dataLines + [data]), [])
  {
    var first, second := EVENT + [COLON, SPACE] + eventType, DATA + [COLON, SPACE] + data;
    FieldLines(decode, s, eventType);
    FieldLines(decode, s.(eventType := Some(eventType)), data);
    assert [first, second, []][1..] == [second, []] && [second, []][1..] == [[]];
    OneLine(decode, s.(eventType := Some(eventType), dataLines := s.dataLines + [data]), []);
  }

  /** Three lines folded are the event dispatched once. */
  lemma {:induction false} OneEventFolds(decode: Decoder, eventType: Bytes, data: Bytes)
    requires NoTerminator(eventType) && NoTerminator(data)
    ensures Reference(decode, OneEvent(eventType, data))
            == Dispatch(decode, Dispatch(decode, INITIAL.(eventType := Some(eventType), dataLines := [data])))
  {
    var lines := [EVENT + [COLON, SPACE] + eventType, DATA + [COLON, SPACE] + data, []];
    EndedSplits(lines);
    FieldFolds(decode, INITIAL, eventType, data);
  }

  /** A final event in CRLF is accepted with its payload; an error event counts once and as a failure. */
  lemma {:induction false} OneEventAccepted(decode: Decoder, data: Bytes, payload: Json)
    requires NoTerminator(data) && data != DONE && data != [] && decode(data) == Some(payload) && payload.JObject?
    ensures var r := Reference(decode, OneEvent(FINAL, data));
            r.protocolError == None && r.finalPayload == Some(payload) && r.finalCount == 1 && r.errorCount == 0
            && r.eventCount == 1 && r.terminalSeen
    ensures var r := Reference(decode, OneEvent(ERROR, data));
            r.protocolError == None && r.finalPayload == None && r.finalCount == 0 && r.errorCount == 1
            && r.terminalFailure && r.terminalSeen
  {
    OneEventFolds(decode, FINAL, data);
    OneEventFolds(decode, ERROR, data);
    assert Join([data]) == data;
  }

  /** The text of a delta is kept. */
  lemma {:induction false} DeltaContent(decode: Decoder, data: Bytes, fields: map<string, Json>, text: string)
    requires NoTerminator(data) && data != DONE && data != [] && decode(data) == Some(JObject(fields))
    requires "error" !in fields && "choices" in fields
    requires fields["choices"] == JArray([JObject(map["delta" := JObject(map["content" := JString(text)])])])
    ensures Reference(decode, OneEvent(MESSAGE, data)).contentParts == [text]
    ensures Reference(decode, OneEvent(MESSAGE, data)).protocolError == None
  {
    OneEventFolds(decode, MESSAGE, data);
    assert Join([data]) == data;
    var choices := fields["choices"].items;
    assert choices[1..] == [] && Contents(JObject(fields)) == ChoiceContents(choices) == [text];
  }

  /** A comment that starts with the word, after one blank or none, is a heartbeat; another one is only a comment. */
  lemma {:induction false} Heartbeats(decode: Decoder, s: Receipts, rest: Bytes)
    requires !s.terminalSeen
    ensures Line(decode, s, [COLON] + HEARTBEAT + rest)
            == s.(commentCount := s.commentCount + 1, heartbeatCount := s.heartbeatCount + 1, prelude := true)
    ensures Line(decode, s, [COLON, SPACE] + HEARTBEAT + rest)
            == s.(commentCount := s.commentCount + 1, heartbeatCount := s.heartbeatCount + 1, prelude := true)
    ensures rest != [] && !IsBlank(rest[0]) && rest[0] != HEARTBEAT[0] ==>
              Line(decode, s, [COLON] + rest) == s.(commentCount := s.commentCount + 1, prelude := true)
  {
    var bare, spaced := [COLON] + HEARTBEAT + rest, [COLON, SPACE] + HEARTBEAT + rest;
    assert bare[1..] == HEARTBEAT + rest && spaced[1..] == [SPACE] + (HEARTBEAT + rest);
    assert spaced[1..][1..] == HEARTBEAT + rest && (HEARTBEAT + rest)[0] == HEARTBEAT[0];
    assert StripLeft(HEARTBEAT + rest) == HEARTBEAT + rest;
    assert ([COLON] + rest)[1..] == rest;
  }

  /** Several data lines are one text, with line feeds between them. */
  lemma {:induction false} DataJoined(decode: Decoder, s: Receipts, a: Bytes, b: Bytes)
    requires !s.terminalSeen && s.dataLines == []
    ensures Join(FoldLines(decode, s, [DATA + [COLON, SPACE] + a, DATA + [COLON, SPACE] + b]).dataLines) == a + [LF] + b
  {
    var first, second := DATA + [COLON, SPACE] + a, DATA + [COLON, SPACE] + b;
    FieldLines(decode, s, a);
    FieldLines(decode, s.(dataLines := [a]), b);
    assert [first, second][1..] == [second];
    OneLine(decode, s.(dataLines := [a]), second);
    assert s.dataLines + [a] == [a] && [a] + [b] == [a, b] && [a, b][..1] == [a];
  }

  // ----- the framer's loop as a function -----

  function Consume(decode: Decoder, s: Receipts, buffer: Bytes): (Receipts, Bytes)
    decreases |buffer|
  {
    var end := FirstTerminator(buffer);
    if end == |buffer| || (buffer[end] == CR && end + 1 == |buffer|) then (s, buffer)
    else Consume(decode, Line(decode, s, buffer[..end]), buffer[end + Width(buffer, end)..])
  }

  /** More bytes do not move a terminator that is already complete. */
  lemma {:induction false} TerminatorStays(a: Bytes, b: Bytes)
    requires FirstTerminator(a) < |a| && !(a[FirstTerminator(a)] == CR && FirstTerminator(a) + 1 == |a|)
    ensures FirstTerminator(a + b) == FirstTerminator(a)
    ensures var end := FirstTerminator(a);
            && Width(a + b, end) == Width(a, end) && (a + b)[..end] == a[..end]
            && (a + b)[end + Width(a, end)..] == a[end + Width(a, end)..] + b
  {
    var both, end := a + b, FirstTerminator(a);
    assert both[end] == a[end] && forall i :: 0 <= i < end ==> both[i] == a[i];
  }

  /** Consuming what is already buffered first, and the rest later, changes nothing. */
  lemma {:induction false} ConsumeSplits(decode: Decoder, s: Receipts, a: Bytes, b: Bytes)
    ensures var (s', a') := Consume(decode, s, a);
            Consume(decode, s, a + b) == Consume(decode, s', a' + b)
    decreases |a|
  {
    var end := FirstTerminator(a);
    if end < |a| && !(a[end] == CR && end + 1 == |a|) {
      TerminatorStays(a, b);
      var rest := a[end + Width(a, end)..];
      assert Consume(decode, s, a + b) == Consume(decode, Line(decode, s, a[..end]), rest + b);
      ConsumeSplits(decode, Line(decode, s, a[..end]), rest, b);
    }
  }

  /** What finish does with the bytes still buffered. */
  function FlushTail(decode: Decoder, s: Receipts, buffer: Bytes): Receipts {
    if buffer == [] then s
    else if buffer[|buffer| - 1] == CR then Line(decode, s, buffer[..|buffer| - 1])
    else Line(decode, s, buffer)
  }

  lemma {:induction false} FlushIsFold(decode: Decoder, s: Receipts, stream: Bytes)
    ensures var (t, rest) := Consume(decode, s, stream);
            FlushTail(decode, t, rest) == FoldLines(decode, s, SplitLines(stream))
    decreases |stream|
  {
    var end := FirstTerminator(stream);
    if end == |stream| {
      if stream != [] {
        assert !IsTerminator(stream[|stream| - 1]);
        OneLine(decode, s, stream);
      }
    } else if stream[end] == CR && end + 1 == |stream| {
      assert stream[end + Width(stream, end)..] == [];
      assert SplitLines(stream) == [stream[..end]];
      OneLine(decode, s, stream[..end]);
    } else {
      var rest := stream[end + Width(stream, end)..];
      FlushIsFold(decode, Line(decode, s, stream[..end]), rest);
      assert FoldLines(decode, s, SplitLines(stream))
             == FoldLines(decode, Line(decode, s, stream[..end]), SplitLines(rest)) by {
        SplitOnce(stream, end, stream[..end], rest);
        FirstLineFolds(decode, s, stream[..end], SplitLines(rest));
      }
    }
  }

  lemma {:induction false} FirstLineFolds(decode: Decoder, s: Receipts, line: Bytes, lines: seq<Bytes>)
    ensures FoldLines(decode, s, [line] + lines) == FoldLines(decode, Line(decode, s, line), lines)
  {
    assert ([line] + lines)[1..] == lines;
  }

  lemma {:induction false} OneLine(decode: Decoder, s: Receipts, line: Bytes)
    ensures FoldLines(decode, s, [line]) == Line(decode, s, line)
  {
    assert [line][1..] == [];
  }

  class Framer {
    const decode: Decoder
    var buffer: Bytes
    var receipts: Receipts

    constructor (decode: Decoder)
      ensures this.decode == decode && buffer == [] && receipts == INITIAL
    {
      this.decode := decode;
      buffer := [];
      receipts := INITIAL;
    }

    method Feed(chunk: Bytes)
      modifies this
      ensures (receipts, buffer) == Consume(decode, old(receipts), old(buffer) + chunk)
    {
      buffer := buffer + chunk;
      while true
        invariant Consume(decode, receipts, buffer) == Consume(decode, old(receipts), old(buffer) + chunk)
        decreases |buffer|
      {
        var end := FirstTerminator(buffer);
        if end == |buffer| {
          return;
        }
        if buffer[end] == CR && end + 1 == |buffer| {
          return;
        }
        var width := Width(buffer, end);
        var line := buffer[..end];
        buffer := buffer[end + width..];
        receipts := Line(decode, receipts, line);
      }
    }

    method Finish()
      modifies this
      ensures buffer == []
      ensures receipts == Dispatch(decode, FlushTail(decode, old(receipts), old(buffer)))
    {
      if buffer != [] {
        var line := buffer;
        if line[|line| - 1] == CR {
          line := line[..|line| - 1];
        }
        buffer := [];
        receipts := Line(decode, receipts, line);
      }
      if receipts.eventType != None || receipts.dataLines != [] {
        receipts := Dispatch(decode, receipts);
      }
    }
  }

  /** Any chunking of a stream, fed and finished, gives what the whole stream's lines give. */
  method FrameChunks(decode: Decoder, chunks: seq<Bytes>) returns (result: Receipts)
    ensures result == Reference(decode, Concat(chunks))
  {
    var framer := new Framer(decode);
    assert Consume(decode, INITIAL, []) == (INITIAL, []);
    for i := 0 to |chunks|
      invariant framer.decode == decode
      invariant (framer.receipts, framer.buffer) == Consume(decode, INITIAL, Concat(chunks[..i]))
    {
      ghost var before := Concat(chunks[..i]);
      ConsumeSplits(decode, INITIAL, before, chunks[i]);
      ConcatSnoc(chunks[..i], chunks[i]);
      assert chunks[..i + 1] == chunks[..i] + [chunks[i]];
      framer.Feed(chunks[i]);
    }
    assert chunks[..|chunks|] == chunks;
    FlushIsFold(decode, INITIAL, Concat(chunks));
    framer.Finish();
    result := framer.receipts;
  }

  // ----- the second reference: the events of a stream -----

  datatype Item = Comment | Event(kind: Bytes, data: Bytes)

  datatype Parsed = Parsed(eventType: Option<Bytes>, dataLines: seq<Bytes>, items: seq<Item>)

  function FlushEvent(p: Parsed): Parsed {
    if p.eventType == None && p.dataLines == [] then p else
      var kind := if p.eventType.None? || p.eventType.value == [] then MESSAGE else p.eventType.value;
      Parsed(None, [], p.items + [Event(kind, Join(p.dataLines))])
  }

  function ParseLine(p: Parsed, line: Bytes): Parsed {
    if line == [] then FlushEvent(p)
    else if line[0] == COLON then p.(items := p.items + [Comment])
    else
      var i := FirstIndex(line, COLON);
      if i == |line| then p
      else if line[..i] == EVENT then p.(eventType := Some(FieldValue(line)))
      else if line[..i] == DATA then p.(dataLines := p.dataLines + [FieldValue(line)])
      else p
  }

  function ParseLines(p: Parsed, lines: seq<Bytes>): Parsed
    decreases |lines|
  {
    if lines == [] then p else ParseLines(ParseLine(p, lines[0]), lines[1..])
  }

  function Items(stream: Bytes): seq<Item> {
    FlushEvent(ParseLines(Parsed(None, [], []), SplitLines(stream))).items
  }

  datatype Verdict = Remark | Plain | Final | Error(isObject: bool) | Done | Broken

  function Classify(decode: Decoder, item: Item): Verdict {
    match item
    case Comment => Remark
    case Event(kind, data) =>
      if data == DONE then Done else
        match Payload(decode, data)
        case None => Broken
        case Some(payload) =>
          if kind == FINAL then (if payload.JObject? then Final else Broken)
          else if IsErrorEvent(kind, payload) then Error(payload.JObject?)
          else if payload.JObject? then Plain else Broken
  }

  function Verdicts(decode: Decoder, items: seq<Item>): (r: seq<Verdict>)
    ensures |r| == |items|
  {
    seq(|items|, i requires 0 <= i < |items| => Classify(decode, items[i]))
  }

  lemma {:induction false} VerdictsSnoc(decode: Decoder, items: seq<Item>, item: Item)
    ensures Verdicts(decode, items + [item]) == Verdicts(decode, items) + [Classify(decode, item)]
  {
  }

  predicate Quiet(vs: seq<Verdict>) {
    forall i :: 0 <= i < |vs| ==> vs[i].Remark? || vs[i].Plain?
  }

  function CountRemarks(vs: seq<Verdict>): nat {
    if vs == [] then 0 else CountRemarks(vs[..|vs| - 1]) + (if vs[|vs| - 1].Remark? then 1 else 0)
  }

  predicate Terminals(s: Receipts, seen: bool, finals: nat, errors: nat, dones: nat, failure: bool) {
    && s.terminalSeen == seen
    && s.finalCount == finals
    && s.errorCount == errors
    && s.doneCount == dones
    && s.terminalFailure == failure
  }

  /** No terminal yet. */
  predicate Open(s: Receipts, vs: seq<Verdict>) {
    Quiet(vs) && Terminals(s, false, 0, 0, 0, false)
  }

  /** One terminal, and it is the last thing in the stream. */
  predicate Closed(s: Receipts, vs: seq<Verdict>) {
    && vs != []
    && Quiet(vs[..|vs| - 1])
    && match vs[|vs| - 1]
       case Final => Terminals(s, true, 1, 0, 0, false)
       case Done => Terminals(s, true, 0, 0, 1, false)
       case Error(isObject) => Terminals(s, true, 0, 1, 0, isObject)
       case _ => false
  }

  /** One error, then one DONE, and nothing after. */
  predicate ErrorThenDone(s: Receipts, vs: seq<Verdict>) {
    && |vs| >= 2
    && Quiet(vs[..|vs| - 2])
    && vs[|vs| - 2].Error?
    && vs[|vs| - 1].Done?
    && Terminals(s, true, 0, 1, 1, vs[|vs| - 2].isObject)
  }

  /** The three ways in which the events of a stream without protocol error can end. */
  predicate Settled(s: Receipts, vs: seq<Verdict>) {
    Open(s, vs) || Closed(s, vs) || ErrorThenDone(s, vs)
  }

  predicate Tallied(s: Receipts, vs: seq<Verdict>) {
    s.commentCount == CountRemarks(vs) && s.eventCount == |vs| - CountRemarks(vs)
  }

  /** While no protocol error is recorded, the framer has followed the plain parser exactly. */
  predicate Follows(decode: Decoder, s: Receipts, p: Parsed) {
    s.protocolError == None ==>
      && s.eventType == p.eventType
      && s.dataLines == p.dataLines
      && Settled(s, Verdicts(decode, p.items))
      && Tallied(s, Verdicts(decode, p.items))
      && (s.terminalSeen ==> s.eventType == None)
      && (s.terminalSeen && s.dataLines != [] ==> s.dataLines == [DONE] && s.errorCount == 1 && s.doneCount == 0)
  }

  /** The first protocol error is never overwritten, by a line or by a dispatch. */
  lemma {:induction false} FirstErrorStays(decode: Decoder, s: Receipts, line: Bytes)
    requires s.protocolError.Some?
    ensures Line(decode, s, line).protocolError == s.protocolError
    ensures Dispatch(decode, s).protocolError == s.protocolError
  {
  }

  lemma {:induction false} DoneLineIsData(line: Bytes)
    requires IsDoneLine(line)
    ensures FirstIndex(line, COLON) == 4
    ensures line[..4] == DATA && FieldValue(line) == DONE
  {
    assert line[..4] == DATA;
    FirstIndexIs(line, COLON, 4);
    if line == DATA + [COLON, SPACE] + DONE {
      assert line[5..] == [SPACE] + DONE;
    } else {
      assert line[5..] == DONE;
    }
  }

  /** What dispatching one event adds, as far as terminals go. */
  predicate Adds(s: Receipts, t: Receipts, v: Verdict) {
    match v
    case Remark => false
    case Broken => false
    case Plain => Terminals(t, false, 0, 0, 0, false)
    case Final => Terminals(t, true, 1, 0, 0, false)
    case Done => Terminals(t, true, 0, 0, 1, false)
    case Error(isObject) => Terminals(t, true, 0, 1, 0, isObject)
  }

  lemma {:induction false} FirstDispatch(decode: Decoder, s: Receipts, kind: Bytes, data: Bytes)
    requires s.protocolError == None && Terminals(s, false, 0, 0, 0, false)
    ensures var t := DispatchFirst(decode, s, kind, data);
            && (t.protocolError == None ==> Adds(s, t, Classify(decode, Event(kind, data))))
            && t.eventType == s.eventType && t.dataLines == s.dataLines
            && t.commentCount == s.commentCount && t.eventCount == s.eventCount + 1
  {
  }

  lemma {:induction false} SettledGrows(s: Receipts, t: Receipts, vs: seq<Verdict>, v: Verdict)
    requires Settled(s, vs) && !s.terminalSeen && Adds(s, t, v)
    ensures Settled(t, vs + [v])
  {
    var ws := vs + [v];
    assert ws[..|ws| - 1] == vs;
    assert Quiet(vs);
  }

  lemma {:induction false} TallyGrows(vs: seq<Verdict>, v: Verdict)
    ensures CountRemarks(vs + [v]) == CountRemarks(vs) + (if v.Remark? then 1 else 0)
    ensures CountRemarks(vs) <= |vs|
  {
    assert (vs + [v])[..|vs|] == vs;
    RemarksBounded(vs);
  }

  lemma {:induction false} RemarksBounded(vs: seq<Verdict>)
    ensures CountRemarks(vs) <= |vs|
  {
    if vs != [] {
      RemarksBounded(vs[..|vs| - 1]);
    }
  }

  lemma {:induction false} DispatchFollows(decode: Decoder, s: Receipts, p: Parsed)
    requires Follows(decode, s, p)
    ensures Follows(decode, Dispatch(decode, s), FlushEvent(p))
  {
    if s.protocolError.Some? {
      FirstErrorStays(decode, s, []);
    } else if s.eventType != None || s.dataLines != [] {
      var kind := if s.eventType.None? || s.eventType.value == [] then MESSAGE else s.eventType.value;
      var data := Join(s.dataLines);
      if s.terminalSeen {
        LateDispatchFollows(decode, s, p, kind, data);
      } else {
        FirstDispatchFollows(decode, s, p, kind, data);
      }
    }
  }

  /** The event that is dispatched next. */
  predicate IsNext(s: Receipts, kind: Bytes, data: Bytes) {
    && (s.eventType != None || s.dataLines != []) && data == Join(s.dataLines)
    && kind == (if s.eventType.None? || s.eventType.value == [] then MESSAGE else s.eventType.value)
  }

  lemma {:induction false} LateDispatchFollows(decode: Decoder, s: Receipts, p: Parsed, kind: Bytes, data: Bytes)
    requires Follows(decode, s, p) && s.protocolError == None && s.terminalSeen && IsNext(s, kind, data)
    ensures Follows(decode, Dispatch(decode, s), FlushEvent(p))
  {
    var vs, v, t := Verdicts(decode, p.items), Classify(decode, Event(kind, data)), Dispatch(decode, s);
    VerdictsSnoc(decode, p.items, Event(kind, data));
    TallyGrows(vs, v);
    var ws := vs + [v];
    assert t.protocolError == None ==> v == Done;
    assert ws[..|ws| - 2] == vs[..|vs| - 1];
  }

  lemma {:induction false} FirstDispatchFollows(decode: Decoder, s: Receipts, p: Parsed, kind: Bytes, data: Bytes)
    requires Follows(decode, s, p) && s.protocolError == None && !s.terminalSeen && IsNext(s, kind, data)
    ensures Follows(decode, Dispatch(decode, s), FlushEvent(p))
  {
    var vs, v, t := Verdicts(decode, p.items), Classify(decode, Event(kind, data)), Dispatch(decode, s);
    VerdictsSnoc(decode, p.items, Event(kind, data));
    TallyGrows(vs, v);
    FirstDispatch(decode, s.(eventType := None, dataLines := []), kind, data);
    if t.protocolError == None {
      SettledGrows(s, t, vs, v);
    }
  }

  lemma {:induction false} CommentFollows(decode: Decoder, s: Receipts, p: Parsed, line: Bytes)
    requires Follows(decode, s, p) && s.protocolError == None
    requires line != [] && line[0] == COLON
    ensures Follows(decode, Line(decode, s, line), ParseLine(p, line))
  {
    var vs := Verdicts(decode, p.items);
    VerdictsSnoc(decode, p.items, Comment);
    TallyGrows(vs, Remark);
    assert !s.terminalSeen ==> Quiet(vs + [Remark]);
  }

  lemma {:induction false} LineFollows(decode: Decoder, s: Receipts, p: Parsed, line: Bytes)
    requires Follows(decode, s, p)
    ensures Follows(decode, Line(decode, s, line), ParseLine(p, line))
  {
    if s.protocolError.Some? {
      FirstErrorStays(decode, s, line);
    } else if line == [] {
      DispatchFollows(decode, s, p);
    } else if line[0] == COLON {
      CommentFollows(decode, s, p, line);
    } else if s.terminalSeen && IsDoneLine(line) {
      DoneLineIsData(line);
    }
  }

  lemma {:induction false} FoldFollows(decode: Decoder, s: Receipts, p: Parsed, lines: seq<Bytes>)
    requires Follows(decode, s, p)
    ensures Follows(decode, FoldLines(decode, s, lines), ParseLines(p, lines))
    decreases |lines|
  {
    if lines != [] {
      LineFollows(decode, s, p, lines[0]);
      FoldFollows(decode, Line(decode, s, lines[0]), ParseLine(p, lines[0]), lines[1..]);
    }
  }

  /**
   A stream without protocol error: its events are all intact, at most one final or error is
   accepted, final and DONE exclude each other, nothing follows a terminal but one DONE after an
   error, and every counter is the number of such events in the stream.
   */
  lemma {:induction false} AcceptedStreamShape(decode: Decoder, stream: Bytes)
    requires Reference(decode, stream).protocolError == None
    ensures Settled(Reference(decode, stream), Verdicts(decode, Items(stream)))
    ensures Tallied(Reference(decode, stream), Verdicts(decode, Items(stream)))
  {
    var empty := Parsed(None, [], []);
    var lines := SplitLines(stream);
    assert Verdicts(decode, []) == [];
    FoldFollows(decode, INITIAL, empty, lines);
    DispatchFollows(decode, FoldLines(decode, INITIAL, lines), ParseLines(empty, lines));
  }

  // ----- exactly the streams without protocol error -----

  predicate Pending(p: Parsed) {
    p.eventType != None || p.dataLines != []
  }

  /** The event that the next empty line, or the end of the stream, completes. */
  function PendingEvent(p: Parsed): Item {
    Event(if p.eventType.None? || p.eventType.value == [] then MESSAGE else p.eventType.value, Join(p.dataLines))
  }

  predicate IsTerminal(v: Verdict) {
    v.Final? || v.Error? || v.Done?
  }

  predicate Blank(lines: seq<Bytes>) {
    forall i :: 0 <= i < |lines| ==> lines[i] == []
  }

  /** The lines that may follow a terminal: empty ones, and after an error one DONE line among them. */
  predicate RestOk(v: Verdict, lines: seq<Bytes>) {
    Blank(lines) || (v.Error? && exists k :: 0 <= k < |lines| && DoneAt(lines, k))
  }

  predicate DoneAt(lines: seq<Bytes>, k: nat)
    requires k < |lines|
  {
    IsDoneLine(lines[k]) && Blank(lines[..k]) && Blank(lines[k + 1..])
  }

  /** The first terminal is completed after n lines, with only comments and plain events before it. */
  predicate EndsAt(decode: Decoder, p: Parsed, lines: seq<Bytes>, n: nat)
    requires n <= |lines|
  {
    var q := ParseLines(p, lines[..n]);
    && (n == |lines| || lines[n] == [])
    && Pending(q) && Quiet(Verdicts(decode, q.items)) && IsTerminal(Classify(decode, PendingEvent(q)))
    && RestOk(Classify(decode, PendingEvent(q)), lines[n..])
  }

  /** Only comments and plain events; or these, one terminal, and nothing after it but what may follow. */
  ghost predicate WellFormed(decode: Decoder, p: Parsed, lines: seq<Bytes>) {
    || Quiet(Verdicts(decode, FlushEvent(ParseLines(p, lines)).items))
    || exists n :: 0 <= n <= |lines| && EndsAt(decode, p, lines, n)
  }

  /** The state at the end of the stream has no error. */
  predicate Clean(decode: Decoder, s: Receipts, lines: seq<Bytes>) {
    Dispatch(decode, FoldLines(decode, s, lines)).protocolError == None
  }

  lemma {:induction false} ErrorStaysToEnd(decode: Decoder, s: Receipts, lines: seq<Bytes>)
    requires s.protocolError.Some?
    ensures !Clean(decode, s, lines)
    decreases |lines|
  {
    if lines == [] {
      FirstErrorStays(decode, s, []);
    } else {
      FirstErrorStays(decode, s, lines[0]);
      ErrorStaysToEnd(decode, Line(decode, s, lines[0]), lines[1..]);
    }
  }

  lemma {:induction false} BlankTail(lines: seq<Bytes>)
    requires lines != []
    ensures Blank(lines) <==> lines[0] == [] && Blank(lines[1..])
  {
    if Blank(lines) {
      assert forall i :: 0 <= i < |lines| - 1 ==> lines[1..][i] == lines[i + 1];
    } else if lines[0] == [] {
      var i :| 0 <= i < |lines| && lines[i] != [];
      assert lines[1..][i - 1] == lines[i];
    }
  }

  /** After the last thing that may come, only empty lines are accepted. */
  lemma {:induction false} NothingFollows(decode: Decoder, s: Receipts, lines: seq<Bytes>)
    requires s.protocolError == None && s.terminalSeen && s.eventType == None && s.dataLines == []
    requires !(s.errorCount == 1 && s.doneCount == 0)
    ensures Clean(decode, s, lines) <==> Blank(lines)
    decreases |lines|
  {
    if lines != [] {
      BlankTail(lines);
      var t := Line(decode, s, lines[0]);
      if lines[0] == [] {
        NothingFollows(decode, t, lines[1..]);
      } else {
        ErrorStaysToEnd(decode, t, lines[1..]);
      }
    }
  }

  /** The DONE line after an error was read and is still to be dispatched. */
  lemma {:induction false} DonePending(decode: Decoder, s: Receipts, lines: seq<Bytes>)
    requires s.protocolError == None && s.terminalSeen && s.eventType == None && s.dataLines == [DONE]
    requires s.errorCount == 1 && s.doneCount == 0
    ensures Clean(decode, s, lines) <==> Blank(lines)
  {
    if lines != [] {
      BlankTail(lines);
      var t := Line(decode, s, lines[0]);
      if lines[0] == [] {
        NothingFollows(decode, t, lines[1..]);
      } else {
        ErrorStaysToEnd(decode, t, lines[1..]);
      }
    }
  }

  lemma {:induction false} RestTail(v: Verdict, lines: seq<Bytes>)
    requires lines != []
    ensures lines[0] == [] ==> (RestOk(v, lines) <==> RestOk(v, lines[1..]))
    ensures IsDoneLine(lines[0]) ==> (RestOk(v, lines) <==> v.Error? && Blank(lines[1..]))
    ensures lines[0] != [] && !IsDoneLine(lines[0]) ==> !RestOk(v, lines)
  {
    BlankTail(lines);
    if lines[0] == [] {
      if v.Error? && exists k :: 0 <= k < |lines| && DoneAt(lines, k) {
        var k :| 0 <= k < |lines| && DoneAt(lines, k);
        assert lines[1..][..k - 1] == lines[..k][1..] && lines[1..][k..] == lines[k + 1..];
        assert DoneAt(lines[1..], k - 1);
      }
      if v.Error? && exists k :: 0 <= k < |lines[1..]| && DoneAt(lines[1..], k) {
        var k :| 0 <= k < |lines[1..]| && DoneAt(lines[1..], k);
        assert lines[..k + 1] == [[]] + lines[1..][..k] && lines[k + 2..] == lines[1..][k + 1..];
        assert DoneAt(lines, k + 1);
      }
    } else {
      forall k | 0 < k < |lines| ensures !DoneAt(lines, k) {
        assert lines[..k][0] == lines[0];
      }
      if IsDoneLine(lines[0]) && Blank(lines[1..]) {
        assert DoneAt(lines, 0);
      }
    }
  }

  lemma {:induction false} AfterError(decode: Decoder, s: Receipts, lines: seq<Bytes>, v: Verdict)
    requires s.protocolError == None && s.terminalSeen && s.eventType == None && s.dataLines == []
    requires s.errorCount == 1 && s.doneCount == 0 && v.Error?
    ensures Clean(decode, s, lines) <==> RestOk(v, lines)
    decreases |lines|
  {
    if lines != [] {
      RestTail(v, lines);
      var t := Line(decode, s, lines[0]);
      if lines[0] == [] {
        AfterError(decode, t, lines[1..], v);
      } else if IsDoneLine(lines[0]) {
        DoneLineIsData(lines[0]);
        DonePending(decode, t, lines[1..]);
      } else {
        ErrorStaysToEnd(decode, t, lines[1..]);
      }
    }
  }

  /** Parsing never takes an item back. */
  lemma {:induction false} ItemsStay(p: Parsed, lines: seq<Bytes>)
    ensures p.items <= ParseLines(p, lines).items <= FlushEvent(ParseLines(p, lines)).items
    decreases |lines|
  {
    if lines != [] {
      ItemsStay(ParseLine(p, lines[0]), lines[1..]);
    }
  }

  /** Once an item is neither a comment nor a plain event, no later parse is quiet. */
  lemma {:induction false} NeverQuiet(decode: Decoder, p: Parsed, lines: seq<Bytes>, k: nat)
    requires k < |p.items| && !Classify(decode, p.items[k]).Remark? && !Classify(decode, p.items[k]).Plain?
    ensures !Quiet(Verdicts(decode, ParseLines(p, lines).items))
    ensures !Quiet(Verdicts(decode, FlushEvent(ParseLines(p, lines)).items))
  {
    ItemsStay(p, lines);
    var items, all := ParseLines(p, lines).items, FlushEvent(ParseLines(p, lines)).items;
    assert items[k] == p.items[k] && all[k] == p.items[k];
    assert Verdicts(decode, items)[k] == Verdicts(decode, all)[k] == Classify(decode, p.items[k]);
  }

  lemma {:induction false} ParseFirst(p: Parsed, lines: seq<Bytes>, n: nat)
    requires 0 < n <= |lines|
    ensures ParseLines(p, lines[..n]) == ParseLines(ParseLine(p, lines[0]), lines[1..][..n - 1])
  {
    assert lines[..n][1..] == lines[1..][..n - 1];
  }

  /** A line that completes no terminal moves the question on to the rest. */
  lemma {:induction false} WellFormedTail(decode: Decoder, p: Parsed, lines: seq<Bytes>)
    requires lines != []
    requires lines[0] == [] && Pending(p) ==> !IsTerminal(Classify(decode, PendingEvent(p)))
    ensures WellFormed(decode, p, lines) <==> WellFormed(decode, ParseLine(p, lines[0]), lines[1..])
  {
    var q, rest := ParseLine(p, lines[0]), lines[1..];
    assert lines[..0] == [];
    assert !EndsAt(decode, p, lines, 0);
    forall n | 0 < n <= |lines| ensures EndsAt(decode, p, lines, n) <==> EndsAt(decode, q, rest, n - 1) {
      ParseFirst(p, lines, n);
      assert lines[n..] == rest[n - 1..];
      assert n < |lines| ==> lines[n] == rest[n - 1];
    }
    if exists n :: 0 <= n <= |rest| && EndsAt(decode, q, rest, n) {
      var n :| 0 <= n <= |rest| && EndsAt(decode, q, rest, n);
      assert EndsAt(decode, p, lines, n + 1);
    }
    if exists n :: 0 <= n <= |lines| && EndsAt(decode, p, lines, n) {
      var n :| 0 <= n <= |lines| && EndsAt(decode, p, lines, n);
      assert EndsAt(decode, q, rest, n - 1);
    }
  }

  /** A line that completes a terminal after quiet items: everything depends on what follows. */
  lemma {:induction false} WellFormedTerminal(decode: Decoder, p: Parsed, lines: seq<Bytes>)
    requires lines != [] && lines[0] == [] && Pending(p) && Quiet(Verdicts(decode, p.items))
    requires IsTerminal(Classify(decode, PendingEvent(p)))
    ensures WellFormed(decode, p, lines) <==> RestOk(Classify(decode, PendingEvent(p)), lines[1..])
  {
    var v, q := Classify(decode, PendingEvent(p)), FlushEvent(p);
    assert q.items == p.items + [PendingEvent(p)];
    assert lines[..0] == [] && lines[0..] == lines;
    NeverQuiet(decode, q, lines[1..], |p.items|);
    forall n | 0 < n <= |lines| ensures !EndsAt(decode, p, lines, n) {
      ParseFirst(p, lines, n);
      NeverQuiet(decode, q, lines[1..][..n - 1], |p.items|);
    }
    RestTail(v, lines);
    assert EndsAt(decode, p, lines, 0) <==> RestOk(v, lines);
  }

  /** A broken event can never be part of a well-formed stream. */
  lemma {:induction false} BrokenIsNot(decode: Decoder, p: Parsed, lines: seq<Bytes>)
    requires lines != [] && lines[0] == [] && Pending(p) && Classify(decode, PendingEvent(p)).Broken?
    ensures !WellFormed(decode, p, lines)
  {
    var q := FlushEvent(p);
    assert q.items == p.items + [PendingEvent(p)];
    assert lines[..0] == [];
    NeverQuiet(decode, q, lines[1..], |p.items|);
    forall n | 0 < n <= |lines| ensures !EndsAt(decode, p, lines, n) {
      ParseFirst(p, lines, n);
      NeverQuiet(decode, q, lines[1..][..n - 1], |p.items|);
    }
  }

  /** What dispatching the pending event does before any terminal, by its verdict. */
  lemma {:induction false} FirstVerdict(decode: Decoder, s: Receipts, p: Parsed)
    requires Follows(decode, s, p) && s.protocolError == None && !s.terminalSeen && Pending(p)
    ensures var t, v := Dispatch(decode, s), Classify(decode, PendingEvent(p));
            && (t.protocolError == None <==> !v.Broken?)
            && (v.Plain? ==> !t.terminalSeen)
            && (IsTerminal(v) ==> t.terminalSeen && t.eventType == None && t.dataLines == []
                                  && (v.Error? <==> t.errorCount == 1 && t.doneCount == 0))
    ensures !Classify(decode, PendingEvent(p)).Remark?
  {
    assert Open(s, Verdicts(decode, p.items));
  }

  lemma {:induction false} EndOfStream(decode: Decoder, s: Receipts, p: Parsed)
    requires Follows(decode, s, p) && s.protocolError == None && !s.terminalSeen
    ensures Clean(decode, s, []) <==> WellFormed(decode, p, [])
  {
    var vs := Verdicts(decode, p.items);
    assert Quiet(vs);
    var none: seq<Bytes> := [];
    assert none[..0] == none && none[0..] == none;
    if Pending(p) {
      FirstVerdict(decode, s, p);
      var v := Classify(decode, PendingEvent(p));
      VerdictsSnoc(decode, p.items, PendingEvent(p));
      assert FlushEvent(p).items == p.items + [PendingEvent(p)];
      assert Quiet(vs + [v]) <==> v.Plain? by {
        assert (vs + [v])[|vs|] == v;
        assert forall i :: 0 <= i < |vs| ==> (vs + [v])[i] == vs[i];
      }
      assert EndsAt(decode, p, none, 0) <==> IsTerminal(v);
    }
  }

  /** Before any terminal, the rest of the stream is accepted exactly when it is well formed. */
  lemma {:induction false} OpenRest(decode: Decoder, s: Receipts, p: Parsed, lines: seq<Bytes>)
    requires Follows(decode, s, p) && s.protocolError == None && !s.terminalSeen
    ensures Clean(decode, s, lines) <==> WellFormed(decode, p, lines)
    decreases |lines|
  {
    if lines == [] {
      EndOfStream(decode, s, p);
    } else {
      var t, q, rest := Line(decode, s, lines[0]), ParseLine(p, lines[0]), lines[1..];
      LineFollows(decode, s, p, lines[0]);
      if lines[0] == [] && Pending(p) {
        FirstVerdict(decode, s, p);
        var v := Classify(decode, PendingEvent(p));
        if v.Broken? {
          BrokenIsNot(decode, p, lines);
          ErrorStaysToEnd(decode, t, rest);
        } else if v.Plain? {
          WellFormedTail(decode, p, lines);
          OpenRest(decode, t, q, rest);
        } else {
          assert Quiet(Verdicts(decode, p.items));
          WellFormedTerminal(decode, p, lines);
          if v.Error? {
            AfterError(decode, t, rest, v);
          } else {
            NothingFollows(decode, t, rest);
          }
        }
      } else {
        WellFormedTail(decode, p, lines);
        OpenRest(decode, t, q, rest);
      }
    }
  }

  /** A stream as its lines show it: well formed from the first one on. */
  ghost predicate Accepted(decode: Decoder, stream: Bytes) {
    WellFormed(decode, Parsed(None, [], []), SplitLines(stream))
  }

  /** The framer records no protocol error exactly on the well-formed streams. */
  lemma {:induction false} AcceptedIffWellFormed(decode: Decoder, stream: Bytes)
    ensures Reference(decode, stream).protocolError == None <==> Accepted(decode, stream)
  {
    assert Verdicts(decode, []) == [];
    OpenRest(decode, INITIAL, Parsed(None, [], []), SplitLines(stream));
  }

  /** The client's terminal-failure flag on an event stream (the part not about HTTP errors). */
  predicate TerminalFailureFlag(s: Receipts) {
    s.protocolError == None && s.terminalFailure && s.errorCount == 1 && s.doneCount == 1
  }

  predicate EndsWithErrorThenDone(vs: seq<Verdict>) {
    |vs| >= 2 && Quiet(vs[..|vs| - 2]) && vs[|vs| - 2] == Error(true) && vs[|vs| - 1] == Done
  }

  /** The flag means: a well-formed stream of comments, plain events, one error object, one DONE, and the end. */
  lemma {:induction false} FlagMeansErrorThenDone(decode: Decoder, stream: Bytes)
    ensures TerminalFailureFlag(Reference(decode, stream))
            <==> Accepted(decode, stream) && EndsWithErrorThenDone(Verdicts(decode, Items(stream)))
  {
    AcceptedIffWellFormed(decode, stream);
    var s, vs := Reference(decode, stream), Verdicts(decode, Items(stream));
    if s.protocolError == None {
      AcceptedStreamShape(decode, stream);
      if EndsWithErrorThenDone(vs) {
        assert vs[|vs| - 1] == Done;
        assert vs[..|vs| - 1][|vs| - 2] == Error(true);
        assert ErrorThenDone(s, vs);
      }
    }
  }
}
