/**
  The helpers a connector session uses around its container: the session token
  (randSeq) and the two pipeline stages that turn the container's output lines into
  protocol messages (readMessages) and messages into records (readRecords).

  Each stage runs in Go as a goroutine that ranges over an input channel and sends
  on an output channel. Here a stage is a loop over the whole input sequence that
  returns the trace of what the goroutine does, in order: each send, each log line,
  the call to `closer.Close()` and the final `close(...)` of the output channel.
*/
module DockerHelpers {
  import opened Wrappers

  newtype byte = x: int | 0 <= x < 256

  /** One raw line of container output, as the byte slice the reader receives. */
  type Line = seq<byte>

  /** The `type` field of a protocol message. */
  datatype MessageType = SCHEMA | RECORD | SPEC | VALIDATE

  /** A data record produced by a connector; `data` maps keys to JSON text. */
  datatype MonoidRecord = MonoidRecord(schemaName: string, schemaGroup: Option<string>, data: map<string, string>)

  /** A decoded protocol message; only the parts the stages look at are kept. */
  datatype MonoidMessage = MonoidMessage(kind: MessageType, record: Option<MonoidRecord>)

  // ---------------------------------------------------------------------------
  // randSeq: the per-session token
  // ---------------------------------------------------------------------------

  const Letters: string := "abcdefghijklmnopqrstuvwxyz"

  /** What one call `rand.Int(rand.Reader, big.NewInt(26))` can return. */
  type LetterIndex = i: int | 0 <= i < 26

  predicate IsLowercase(c: char) {
    'a' <= c <= 'z'
  }

  lemma LetterAt(k: LetterIndex)
    ensures |Letters| == 26
    ensures Letters[k] as int == 'a' as int + k
  {
  }

  /**
    randSeq(n): fills an n-rune buffer index by index with a letter chosen by the
    random source. `draw(i)` is what the random source yields for the i-th index.
  */
  method RandSeq(n: nat, draw: nat -> LetterIndex) returns (token: string)
    ensures |token| == n
    ensures forall i :: 0 <= i < n ==> token[i] == Letters[draw(i)]
    ensures forall i :: 0 <= i < n ==> IsLowercase(token[i])
  {
    var b := new char[n];
    for i := 0 to n
      invariant forall k :: 0 <= k < i ==> b[k] == Letters[draw(k)]
    {
      b[i] := Letters[draw(i)];
    }
    token := b[..];
    forall i | 0 <= i < n
      ensures IsLowercase(token[i])
    {
      LetterAt(draw(i));
    }
  }

  /**
    Every lowercase string of length n is a token RandSeq(n, draw) can return for
    some behaviour of the random source: RandSeq's contract rules out no such token.
  */
  lemma EveryLowercaseTokenIsReachable(s: string)
    requires forall i :: 0 <= i < |s| ==> IsLowercase(s[i])
    ensures exists draw: nat -> LetterIndex :: Spells(draw, s)
  {
    var draw := (i: nat) => if i < |s| then (s[i] as int - 'a' as int) as LetterIndex else 0;
    forall i | 0 <= i < |s|
      ensures s[i] == Letters[draw(i)]
    {
      LetterAt(draw(i));
    }
    assert Spells(draw, s);
  }

  /** The random source's draws spell out s, index by index. */
  ghost predicate Spells(draw: nat -> LetterIndex, s: string) {
    forall i :: 0 <= i < |s| ==> s[i] == Letters[draw(i)]
  }

  // ---------------------------------------------------------------------------
  // readMessages: lines to messages
  // ---------------------------------------------------------------------------

  /**
    The messages of the lines that decode, in line order. `decode` stands for
    `json.Unmarshal` into a MonoidMessage: None is an unmarshalling error.
  */
  function Decoded(decode: Line -> Option<MonoidMessage>, lines: seq<Line>): (msgs: seq<MonoidMessage>)
    ensures |msgs| <= |lines|
    decreases |lines|
  {
    if lines == [] then []
    else
      var last := lines[|lines| - 1];
      Decoded(decode, lines[..|lines| - 1]) + (if decode(last).Some? then [decode(last).value] else [])
  }

  /** Splitting the stream anywhere does not change what comes out: decoding is line by line. */
  lemma {:induction false} DecodedAppend(decode: Line -> Option<MonoidMessage>, a: seq<Line>, b: seq<Line>)
    ensures Decoded(decode, a + b) == Decoded(decode, a) + Decoded(decode, b)
    decreases |b|
  {
    if b != [] {
      var b' := b[..|b| - 1];
      assert (a + b)[..|a + b| - 1] == a + b';
      DecodedAppend(decode, a, b');
    } else {
      assert a + b == a;
    }
  }

  /** A malformed line is skipped and everything after it still comes through. */
  lemma MalformedLineIsSkipped(decode: Line -> Option<MonoidMessage>, before: seq<Line>, bad: Line, after: seq<Line>)
    requires decode(bad).None?
    ensures Decoded(decode, before + [bad] + after) == Decoded(decode, before) + Decoded(decode, after)
  {
    assert (before + [bad])[..|before|] == before;
    assert Decoded(decode, before + [bad]) == Decoded(decode, before);
    DecodedAppend(decode, before + [bad], after);
  }

  /** No message is lost: the output is as long as the input exactly when every line decodes. */
  lemma {:induction false} DecodedComplete(decode: Line -> Option<MonoidMessage>, lines: seq<Line>)
    ensures |Decoded(decode, lines)| == |lines| <==> forall i :: 0 <= i < |lines| ==> decode(lines[i]).Some?
    decreases |lines|
  {
    if lines != [] {
      var init := lines[..|lines| - 1];
      DecodedComplete(decode, init);
      assert forall i :: 0 <= i < |init| ==> init[i] == lines[i];
    }
  }

  /** The observable effects of the readMessages goroutine. */
  datatype ReaderEvent =
    | Sent(msg: MonoidMessage)           // messageChan <- msg
    | UnmarshalErrorLogged(line: Line)   // log.Err(...) followed by continue
    | CloserClosed                       // closer.Close()
    | MessagesClosed                     // close(messageChan)

  /** The messages sent on the output channel, in order. */
  function SentMessages(trace: seq<ReaderEvent>): seq<MonoidMessage>
    decreases |trace|
  {
    if trace == [] then []
    else
      var last := trace[|trace| - 1];
      SentMessages(trace[..|trace| - 1]) + (if last.Sent? then [last.msg] else [])
  }

  /** Decoding one more line adds at most that line's message. */
  lemma DecodedStep(decode: Line -> Option<MonoidMessage>, lines: seq<Line>, i: nat)
    requires i < |lines|
    ensures Decoded(decode, lines[..i + 1]) ==
              Decoded(decode, lines[..i]) + (if decode(lines[i]).Some? then [decode(lines[i]).value] else [])
  {
    assert lines[..i + 1][..i] == lines[..i];
  }

  lemma SentStep(trace: seq<ReaderEvent>, e: ReaderEvent)
    ensures SentMessages(trace + [e]) == SentMessages(trace) + (if e.Sent? then [e.msg] else [])
  {
  }

  /** The event of one input line: the decoded message is sent, or the error is logged. */
  function LineEvent(decode: Line -> Option<MonoidMessage>, line: Line): ReaderEvent {
    if decode(line).Some? then Sent(decode(line).value) else UnmarshalErrorLogged(line)
  }

  /**
    Closing a trace of line events: nothing more is sent, the line events keep their
    positions, and the close of the reader is the first event after them.
  */
  lemma ClosingEvents(lineEvents: seq<ReaderEvent>)
    requires forall k :: 0 <= k < |lineEvents| ==> lineEvents[k].Sent? || lineEvents[k].UnmarshalErrorLogged?
    ensures SentMessages(lineEvents + [CloserClosed, MessagesClosed]) == SentMessages(lineEvents)
    ensures forall k :: 0 <= k < |lineEvents| ==> (lineEvents + [CloserClosed, MessagesClosed])[k] == lineEvents[k]
    ensures forall k :: 0 <= k < |lineEvents| + 2 ==>
              ((lineEvents + [CloserClosed, MessagesClosed])[k].CloserClosed? <==> k == |lineEvents|)
  {
    var t1 := lineEvents + [CloserClosed];
    var t2 := t1 + [MessagesClosed];
    assert lineEvents + [CloserClosed, MessagesClosed] == t2;
    assert t2[..|t2| - 1] == t1;
    assert t1[..|t1| - 1] == lineEvents;
  }

  /**
    readMessages: one event per input line at that line's position (the message if it
    decodes, a logged error if not), then `closer.Close()` exactly once, then the close
    of the output channel.
  */
  method ReadMessages(stream: seq<Line>, decode: Line -> Option<MonoidMessage>) returns (trace: seq<ReaderEvent>)
    ensures |trace| == |stream| + 2
    ensures SentMessages(trace) == Decoded(decode, stream)
    ensures forall i :: 0 <= i < |stream| ==> trace[i] == LineEvent(decode, stream[i])
    ensures forall i :: 0 <= i < |trace| ==> (trace[i].CloserClosed? <==> i == |stream|)
    ensures trace[|trace| - 1].MessagesClosed?
  {
    trace := [];
    var i := 0;
    while i < |stream|
      invariant 0 <= i <= |stream|
      invariant |trace| == i
      invariant SentMessages(trace) == Decoded(decode, stream[..i])
      invariant forall k :: 0 <= k < i ==> trace[k] == LineEvent(decode, stream[k])
    {
      var s := stream[i];
      var msg := decode(s);
      var event := if msg.None? then UnmarshalErrorLogged(s) else Sent(msg.value);
      SentStep(trace, event);
      DecodedStep(decode, stream, i);
      trace := trace + [event];
      i := i + 1;
    }
    assert stream[..i] == stream;
    ClosingEvents(trace);
    trace := trace + [CloserClosed, MessagesClosed];
  }

  // ---------------------------------------------------------------------------
  // readRecords: messages to records
  // ---------------------------------------------------------------------------

  /** A message the record stage is meant to pass on: a RECORD that carries a record. */
  predicate IsDataRecord(m: MonoidMessage) {
    m.kind == RECORD && m.record.Some?
  }

  /** What readRecords sends as written: the payload of every message, in order. */
  function Payloads(msgs: seq<MonoidMessage>): (records: seq<MonoidRecord>)
    requires forall i :: 0 <= i < |msgs| ==> msgs[i].record.Some?
    ensures |records| == |msgs|
    ensures forall i :: 0 <= i < |msgs| ==> records[i] == msgs[i].record.value
    decreases |msgs|
  {
    if msgs == [] then []
    else Payloads(msgs[..|msgs| - 1]) + [msgs[|msgs| - 1].record.value]
  }

  /** What a record filter is meant to send: the payloads of the data records, in order. */
  function RecordPayloads(msgs: seq<MonoidMessage>): (records: seq<MonoidRecord>)
    ensures |records| <= |msgs|
    decreases |msgs|
  {
    if msgs == [] then []
    else
      var last := msgs[|msgs| - 1];
      RecordPayloads(msgs[..|msgs| - 1]) + (if IsDataRecord(last) then [last.record.value] else [])
  }

  /** The message types of the messages that are not data records, in order. */
  function NonDataKinds(msgs: seq<MonoidMessage>): seq<MessageType>
    decreases |msgs|
  {
    if msgs == [] then []
    else
      var last := msgs[|msgs| - 1];
      NonDataKinds(msgs[..|msgs| - 1]) + (if IsDataRecord(last) then [] else [last.kind])
  }

  lemma MessagesStep(msgs: seq<MonoidMessage>, i: nat)
    requires i < |msgs|
    ensures RecordPayloads(msgs[..i + 1]) ==
              RecordPayloads(msgs[..i]) + (if IsDataRecord(msgs[i]) then [msgs[i].record.value] else [])
    ensures NonDataKinds(msgs[..i + 1]) == NonDataKinds(msgs[..i]) + (if IsDataRecord(msgs[i]) then [] else [msgs[i].kind])
  {
    assert msgs[..i + 1][..i] == msgs[..i];
  }

  /** The observable effects of the readRecords goroutine. */
  datatype RecordEvent =
    | NotRecordLogged(kind: MessageType)   // log.Debug() "Message type is not record"
    | Forwarded(record: MonoidRecord)      // recordChan <- *s.Record
    | RecordsClosed                        // close(recordChan)

  /** The records sent on the output channel, in order. */
  function ForwardedRecords(trace: seq<RecordEvent>): seq<MonoidRecord>
    decreases |trace|
  {
    if trace == [] then []
    else
      var last := trace[|trace| - 1];
      ForwardedRecords(trace[..|trace| - 1]) + (if last.Forwarded? then [last.record] else [])
  }

  /** The message types reported by the "not a record" debug log, in order. */
  function LoggedKinds(trace: seq<RecordEvent>): seq<MessageType>
    decreases |trace|
  {
    if trace == [] then []
    else
      var last := trace[|trace| - 1];
      LoggedKinds(trace[..|trace| - 1]) + (if last.NotRecordLogged? then [last.kind] else [])
  }

  lemma EventStep(trace: seq<RecordEvent>, e: RecordEvent)
    ensures ForwardedRecords(trace + [e]) == ForwardedRecords(trace) + (if e.Forwarded? then [e.record] else [])
    ensures LoggedKinds(trace + [e]) == LoggedKinds(trace) + (if e.NotRecordLogged? then [e.kind] else [])
  {
    assert (trace + [e])[..|trace|] == trace;
  }

  /** The events of one message as written: the debug log when it is not a data record, then the send regardless. */
  function AsWrittenEvents(m: MonoidMessage): seq<RecordEvent>
    requires m.record.Some?
  {
    (if IsDataRecord(m) then [] else [NotRecordLogged(m.kind)]) + [Forwarded(m.record.value)]
  }

  /** The events of a whole input stream as written, message after message, before the close. */
  function AsWrittenTrace(msgs: seq<MonoidMessage>): (events: seq<RecordEvent>)
    requires forall i :: 0 <= i < |msgs| ==> msgs[i].record.Some?
    ensures forall k :: 0 <= k < |events| ==> !events[k].RecordsClosed?
    decreases |msgs|
  {
    if msgs == [] then []
    else AsWrittenTrace(msgs[..|msgs| - 1]) + AsWrittenEvents(msgs[|msgs| - 1])
  }

  lemma AsWrittenTraceStep(msgs: seq<MonoidMessage>, i: nat)
    requires i < |msgs|
    requires forall k :: 0 <= k < |msgs| ==> msgs[k].record.Some?
    ensures AsWrittenTrace(msgs[..i + 1]) == AsWrittenTrace(msgs[..i]) + AsWrittenEvents(msgs[i])
  {
    assert msgs[..i + 1][..i] == msgs[..i];
  }

  /**
    As written, every message is sent, and the debug log reports exactly the messages
    that are not data records, each just before its own send.
  */
  lemma {:induction false} AsWrittenTraceContents(msgs: seq<MonoidMessage>)
    requires forall i :: 0 <= i < |msgs| ==> msgs[i].record.Some?
    ensures ForwardedRecords(AsWrittenTrace(msgs)) == Payloads(msgs)
    ensures LoggedKinds(AsWrittenTrace(msgs)) == NonDataKinds(msgs)
    decreases |msgs|
  {
    if msgs != [] {
      var init := msgs[..|msgs| - 1];
      var last := msgs[|msgs| - 1];
      AsWrittenTraceContents(init);
      var prev := AsWrittenTrace(init);
      var sent := Forwarded(last.record.value);
      if IsDataRecord(last) {
        assert AsWrittenTrace(msgs) == prev + [sent];
        EventStep(prev, sent);
      } else {
        var log := NotRecordLogged(last.kind);
        assert AsWrittenTrace(msgs) == prev + [log] + [sent];
        EventStep(prev, log);
        EventStep(prev + [log], sent);
      }
    }
  }

  /**
    readRecords as written: the debug log for a message that is not a data record is
    not followed by `continue`, so every message is dereferenced and sent. The
    dereference `*s.Record` is why every message must carry a record.
  */
  method ReadRecords(stream: seq<MonoidMessage>) returns (trace: seq<RecordEvent>)
    requires forall i :: 0 <= i < |stream| ==> stream[i].record.Some?
    ensures trace == AsWrittenTrace(stream) + [RecordsClosed]
    ensures ForwardedRecords(trace) == Payloads(stream)
    ensures LoggedKinds(trace) == NonDataKinds(stream)
    ensures |trace| > 0 && forall i :: 0 <= i < |trace| ==> (trace[i].RecordsClosed? <==> i == |trace| - 1)
  {
    trace := [];
    var i := 0;
    while i < |stream|
      invariant 0 <= i <= |stream|
      invariant trace == AsWrittenTrace(stream[..i])
    {
      var s := stream[i];
      if !IsDataRecord(s) {
        trace := trace + [NotRecordLogged(s.kind)];
      }
      trace := trace + [Forwarded(s.record.value)];
      AsWrittenTraceStep(stream, i);
      i := i + 1;
    }
    assert stream[..i] == stream;
    AsWrittenTraceContents(stream);
    EventStep(trace, RecordsClosed);
    trace := trace + [RecordsClosed];
  }

  /** The event of one message once the filter has its `continue`: the log or the send. */
  function FilteredEvent(m: MonoidMessage): RecordEvent {
    if IsDataRecord(m) then Forwarded(m.record.value) else NotRecordLogged(m.kind)
  }

  /**
    readRecords with the `continue` its log line implies: one event per message at that
    message's position (a data record is sent, any other message is logged and dropped),
    then the output is closed once, when the input ends.
  */
  method ReadRecordsFiltered(stream: seq<MonoidMessage>) returns (trace: seq<RecordEvent>)
    ensures |trace| == |stream| + 1
    ensures forall i :: 0 <= i < |stream| ==> trace[i] == FilteredEvent(stream[i])
    ensures ForwardedRecords(trace) == RecordPayloads(stream)
    ensures LoggedKinds(trace) == NonDataKinds(stream)
    ensures |trace| > 0 && forall i :: 0 <= i < |trace| ==> (trace[i].RecordsClosed? <==> i == |trace| - 1)
  {
    trace := [];
    var i := 0;
    while i < |stream|
      invariant 0 <= i <= |stream|
      invariant |trace| == i
      invariant forall k :: 0 <= k < i ==> trace[k] == FilteredEvent(stream[k])
      invariant ForwardedRecords(trace) == RecordPayloads(stream[..i])
      invariant LoggedKinds(trace) == NonDataKinds(stream[..i])
    {
      var s := stream[i];
      var event := if !IsDataRecord(s) then NotRecordLogged(s.kind) else Forwarded(s.record.value);
      EventStep(trace, event);
      MessagesStep(stream, i);
      trace := trace + [event];
      i := i + 1;
    }
    assert stream[..i] == stream;
    EventStep(trace, RecordsClosed);
    ghost var body := trace;
    trace := trace + [RecordsClosed];
    assert forall k :: 0 <= k < |body| ==> trace[k] == body[k] && !trace[k].RecordsClosed?;
  }

  /** On a stream of data records only, the code as written and the filter agree. */
  lemma {:induction false} FilteredEqualsAsWrittenOnDataRecords(msgs: seq<MonoidMessage>)
    requires forall i :: 0 <= i < |msgs| ==> msgs[i].kind == RECORD && msgs[i].record.Some?
    ensures RecordPayloads(msgs) == Payloads(msgs)
    decreases |msgs|
  {
    if msgs != [] {
      var init := msgs[..|msgs| - 1];
      assert forall i :: 0 <= i < |init| ==> init[i] == msgs[i];
      FilteredEqualsAsWrittenOnDataRecords(init);
    }
  }

  /**
    The discrepancy: a SCHEMA message that happens to carry a record is forwarded by
    the code as written, while the filter drops it.
  */
  lemma AsWrittenForwardsNonRecordMessage(r: MonoidRecord)
    ensures AsWrittenTrace([MonoidMessage(SCHEMA, Some(r))]) == [NotRecordLogged(SCHEMA), Forwarded(r)]
    ensures Payloads([MonoidMessage(SCHEMA, Some(r))]) == [r]
    ensures RecordPayloads([MonoidMessage(SCHEMA, Some(r))]) == []
  {
    assert [MonoidMessage(SCHEMA, Some(r))][..0] == [];
  }

  /** The filter is line by line too: splitting the message stream does not change its output. */
  lemma {:induction false} RecordPayloadsAppend(a: seq<MonoidMessage>, b: seq<MonoidMessage>)
    ensures RecordPayloads(a + b) == RecordPayloads(a) + RecordPayloads(b)
    decreases |b|
  {
    if b != [] {
      var b' := b[..|b| - 1];
      assert (a + b)[..|a + b| - 1] == a + b';
      RecordPayloadsAppend(a, b');
    } else {
      assert a + b == a;
    }
  }
}
