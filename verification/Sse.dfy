/** The wire format of the event stream: the gateway's encoder and the client's
    incremental parser (crates/komo-gateway/src/sse.rs, crates/komo-client/src/sse.rs). */
module Sse {
  import opened Utf8
  import opened Text

  // ------------------------------------------------------------ frames

  datatype SseEvent =
    | Event(event: string)
    | AssistantDelta(run: string, round: nat, text: string)
    | RunStatus(runId: string, state: string)
    | NestedCalls(runOf: string, call: string, calls: seq<string>)
    | Heartbeat

  datatype SseFrame = SseFrame(id: nat, session: string, event: SseEvent)

  /** The tag the serialiser gives an event; it is the name on the `event:` line. */
  function EventName(event: SseEvent): string {
    match event
    case Event(_) => "event"
    case AssistantDelta(_, _, _) => "assistant_delta"
    case RunStatus(_, _) => "run_status"
    case NestedCalls(_, _, _) => "nested_calls"
    case Heartbeat => "heartbeat"
  }

  datatype Parsed = Parsed(frame: SseFrame) | Unparsed(error: string)

  /** The JSON library: `show` writes a frame, `parse` reads one or says why it cannot. */
  datatype Codec = Codec(show: SseFrame -> string, parse: string -> Parsed)

  /** What the encoder and the parser ask of JSON: it is invertible and stays on one line. */
  ghost predicate Lawful(codec: Codec) {
    forall f: SseFrame :: codec.parse(codec.show(f)) == Parsed(f) && SingleLine(codec.show(f))
  }

  predicate SingleLine(s: string) {
    s != [] && '\n' !in s && s[|s| - 1] != '\r'
  }

  const RETIRED_EVENTS := {"approval_pending", "approval_decided"}

  datatype SseMessage =
    | Frame(frame: SseFrame)
    | Skipped(skipped: nat, reason: string)
    | Retired(retired: nat)
  {
    /** Where this message moves the resume cursor. */
    function Cursor(): nat {
      match this
      case Frame(f) => f.id
      case Skipped(id, _) => id
      case Retired(id) => id
    }
  }

  // ------------------------------------------------------------ encoder

  function EncodeFrame(codec: Codec, frame: SseFrame): string {
    Record(frame.id, EventName(frame.event), codec.show(frame))
  }

  function Record(id: nat, name: string, payload: string): string {
    "id: " + Decimal(id) + "\nevent: " + name + "\ndata: " + payload + "\n\n"
  }

  /** The names on the wire, and that each kind of event has its own. */
  lemma NamesOnTheWire(a: SseEvent, b: SseEvent)
    ensures EventName(Event("e")) == "event" && EventName(AssistantDelta("r", 1, "t")) == "assistant_delta"
    ensures EventName(RunStatus("r", "s")) == "run_status" && EventName(NestedCalls("r", "c", [])) == "nested_calls"
    ensures EventName(a) == EventName(b) <==>
            && (a.Event? <==> b.Event?) && (a.AssistantDelta? <==> b.AssistantDelta?) && (a.RunStatus? <==> b.RunStatus?)
            && (a.NestedCalls? <==> b.NestedCalls?) && (a.Heartbeat? <==> b.Heartbeat?)
  {
    assert "event"[0] == 'e' && "assistant_delta"[0] == 'a' && "run_status"[0] == 'r' && "nested_calls"[0] == 'n' && "heartbeat"[0] == 'h';
  }

  const HEARTBEAT := ": keep-alive\n\n"

  // ------------------------------------------------------------ one line, one dispatch

  /** What the parser has read of the event it is in. */
  datatype Fields = Fields(id: Option<nat>, event: Option<string>, data: string)

  const EMPTY := Fields(None, None, [])

  datatype Stepped = Stepped(fields: Fields, message: Option<SseMessage>)

  function LineStep(codec: Codec, f: Fields, line: string): Stepped {
    if line == [] then Stepped(EMPTY, DispatchOf(codec, f))
    else if line[0] == ':' then Stepped(f, None)
    else
      var field := if ':' in line then line[..IndexOf(line, ':')] else line;
      var rest := if ':' in line then line[IndexOf(line, ':') + 1..] else [];
      var value := if StartsWith(rest, " ") then rest[1..] else rest;
      if field == "id" then Stepped(f.(id := ParseU64(Trim(value))), None)
      else if field == "event" then Stepped(f.(event := Some(Trim(value))), None)
      else if field == "data" then Stepped(f.(data := if f.data == [] then value else f.data + "\n" + value), None)
      else Stepped(f, None)
  }

  function DispatchOf(codec: Codec, f: Fields): Option<SseMessage> {
    if f.data == [] && f.id.None? then None
    else
      match codec.parse(f.data)
      case Parsed(frame) => Some(Frame(frame))
      case Unparsed(error) =>
        if f.id.None? then None
        else if f.event.Some? && f.event.value in RETIRED_EVENTS then Some(Retired(f.id.value))
        else Some(Skipped(f.id.value, if f.event.Some? then "event=" + f.event.value + "：" + error else error))
  }

  // ------------------------------------------------------------ what a stream means

  /** All complete lines of a text, one after another: the messages, and what is left open. */
  datatype Drained = Drained(out: seq<SseMessage>, fields: Fields, rest: string)

  function After(out: seq<SseMessage>, d: Drained): Drained { Drained(out + d.out, d.fields, d.rest) }

  function Opt<T>(o: Option<T>): seq<T> { if o.Some? then [o.value] else [] }

  function Drain(codec: Codec, f: Fields, text: string): Drained
    decreases |text|
  {
    if '\n' !in text then Drained([], f, text)
    else
      var i := IndexOf(text, '\n');
      var step := LineStep(codec, f, TrimEol(text[..i + 1]));
      After(Opt(step.message), Drain(codec, step.fields, text[i + 1..]))
  }

  datatype ParserState = ParserState(fields: Fields, buffer: string, pending: seq<Byte>)

  const START := ParserState(EMPTY, [], [])

  datatype Pushed = Pushed(out: seq<SseMessage>, state: ParserState)

  function PushOf(codec: Codec, s: ParserState, chunk: seq<Byte>): Pushed {
    var bytes := s.pending + chunk;
    var d := Drain(codec, s.fields, s.buffer + Decode(bytes));
    Pushed(d.out, ParserState(d.fields, d.rest, bytes[ValidUpTo(bytes)..]))
  }

  function PushAll(codec: Codec, s: ParserState, chunks: seq<seq<Byte>>): Pushed
    decreases |chunks|
  {
    if chunks == [] then Pushed([], s)
    else
      var first := PushOf(codec, s, chunks[0]);
      var more := PushAll(codec, first.state, chunks[1..]);
      Pushed(first.out + more.out, more.state)
  }

  function Concat(chunks: seq<seq<Byte>>): seq<Byte> {
    if chunks == [] then [] else chunks[0] + Concat(chunks[1..])
  }

  /** The states a parser can be in: no whole line waits, and no whole character does. */
  predicate Settled(s: ParserState) {
    '\n' !in s.buffer && CharLen(s.pending) == 0
  }

  // ------------------------------------------------------------ the parser object

  class FrameParser {
    const codec: Codec
    var buffer: string
    var id: Option<nat>
    var event: Option<string>
    var data: string
    var pending: seq<Byte>

    function FieldsOf(): Fields reads this { Fields(id, event, data) }

    function State(): ParserState reads this { ParserState(FieldsOf(), buffer, pending) }

    constructor (codec: Codec)
      ensures this.codec == codec && State() == START
    {
      this.codec := codec;
      buffer, id, event, data, pending := [], None, None, [], [];
    }

    /** Feeds one chunk and returns the messages it completes. */
    method Push(chunk: seq<Byte>) returns (out: seq<SseMessage>)
      modifies this
      ensures Pushed(out, State()) == PushOf(codec, old(State()), chunk)
    {
      hide Drain, LineStep, TrimEol, Decode, ValidUpTo;
      pending := pending + chunk;
      var text := Decode(pending);
      var valid := ValidUpTo(pending);
      if valid == |pending| {
        pending := [];
      } else {
        pending := pending[valid..];
      }
      buffer := buffer + text;

      ghost var whole := Drain(codec, FieldsOf(), buffer);
      ghost var left := pending;
      out := [];
      while '\n' in buffer
        invariant pending == left
        invariant After(out, Drain(codec, FieldsOf(), buffer)) == whole
        decreases |buffer|
      {
        var index := IndexOf(buffer, '\n');
        var line := TrimEol(buffer[..index + 1]);
        ghost var before, open := out, buffer[..index];
        assert buffer == open + "\n" + buffer[index + 1..];
        assert buffer[..index + 1] == open + "\n";
        DrainLine(codec, FieldsOf(), open, buffer[index + 1..]);
        buffer := buffer[index + 1..];
        var message := Line(line);
        if message.Some? {
          out := out + [message.value];
        }
        AfterAfter(before, Opt(message), Drain(codec, FieldsOf(), buffer));
      }
      DrainOpen(codec, FieldsOf(), buffer);
    }

    method Line(line: string) returns (message: Option<SseMessage>)
      modifies this`id, this`event, this`data
      ensures Stepped(FieldsOf(), message) == LineStep(codec, old(FieldsOf()), line)
    {
      if line == [] {
        message := Dispatch();
        return;
      }
      message := None;
      if line[0] == ':' {
        return;
      }
      var field, value := line, [];
      if ':' in line {
        var colon := IndexOf(line, ':');
        field, value := line[..colon], line[colon + 1..];
        if StartsWith(value, " ") {
          value := value[1..];
        }
      }
      if field == "id" {
        id := ParseU64(Trim(value));
      } else if field == "event" {
        event := Some(Trim(value));
      } else if field == "data" {
        if data != [] {
          data := data + "\n";
        }
        data := data + value;
      }
    }

    method Dispatch() returns (message: Option<SseMessage>)
      modifies this`id, this`event, this`data
      ensures FieldsOf() == EMPTY && message == DispatchOf(codec, old(FieldsOf()))
    {
      var id', event', data' := id, event, data;
      id, event, data := None, None, [];
      if data' == [] && id'.None? {
        return None;
      }
      match codec.parse(data') {
        case Parsed(frame) =>
          return Some(Frame(frame));
        case Unparsed(error) =>
          if id'.None? {
            return None;
          }
          if event'.Some? && event'.value in RETIRED_EVENTS {
            return Some(Retired(id'.value));
          }
          return Some(Skipped(id'.value, if event'.Some? then "event=" + event'.value + "：" + error else error));
      }
    }
  }

  // ------------------------------------------------------------ cutting the stream

  lemma AfterAfter(a: seq<SseMessage>, b: seq<SseMessage>, d: Drained)
    ensures After(a, After(b, d)) == After(a + b, d) && After([], d) == d
    ensures b == [] ==> a + b == a
  {
    assert a + (b + d.out) == (a + b) + d.out;
    assert [] + d.out == d.out;
  }

  lemma DrainOpen(codec: Codec, f: Fields, text: string)
    requires '\n' !in text
    ensures Drain(codec, f, text) == Drained([], f, text)
  {
  }

  lemma DrainLine(codec: Codec, f: Fields, line: string, rest: string)
    requires '\n' !in line
    ensures var step := LineStep(codec, f, TrimEol(line + "\n"));
            Drain(codec, f, line + "\n" + rest) == After(Opt(step.message), Drain(codec, step.fields, rest))
  {
    hide LineStep, TrimEol;
    var text := line + "\n" + rest;
    assert text[|line|] == '\n' && forall k | 0 <= k < |line| :: text[k] == line[k];
    assert text[..|line| + 1] == line + "\n" && text[|line| + 1..] == rest;
  }

  lemma {:induction false} DrainSplit(codec: Codec, f: Fields, a: string, b: string)
    ensures var d := Drain(codec, f, a);
            var e := Drain(codec, d.fields, d.rest + b);
            Drain(codec, f, a + b) == After(d.out, e)
    decreases |a|
  {
    hide Drain, LineStep, TrimEol;
    if '\n' in a {
      var i := IndexOf(a, '\n');
      var line, rest := a[..i], a[i + 1..];
      assert a == line + "\n" + rest;
      assert a + b == line + "\n" + (rest + b);
      var step := LineStep(codec, f, TrimEol(line + "\n"));
      DrainLine(codec, f, line, rest);
      DrainLine(codec, f, line, rest + b);
      DrainSplit(codec, step.fields, rest, b);
      var d := Drain(codec, step.fields, rest);
      AfterAfter(Opt(step.message), d.out, Drain(codec, d.fields, d.rest + b));
    } else {
      DrainOpen(codec, f, a);
      AfterAfter([], [], Drain(codec, f, a + b));
    }
  }

  lemma {:induction false} DrainLeavesNoLine(codec: Codec, f: Fields, a: string)
    ensures '\n' !in Drain(codec, f, a).rest
    decreases |a|
  {
    if '\n' in a {
      var i := IndexOf(a, '\n');
      DrainLeavesNoLine(codec, LineStep(codec, f, TrimEol(a[..i + 1])).fields, a[i + 1..]);
    }
  }

  lemma PushSettles(codec: Codec, s: ParserState, chunk: seq<Byte>)
    ensures Settled(PushOf(codec, s, chunk).state)
  {
    var bytes := s.pending + chunk;
    RestUndecodable(bytes);
    DrainLeavesNoLine(codec, s.fields, s.buffer + Decode(bytes));
  }

  /** Two chunks or one: the same messages and the same state, from every state a parser can be
      in, wherever the cut falls. */
  lemma PushTwice(codec: Codec, s: ParserState, a: seq<Byte>, b: seq<Byte>)
    ensures var first := PushOf(codec, s, a);
            var second := PushOf(codec, first.state, b);
            PushOf(codec, s, a + b) == Pushed(first.out + second.out, second.state)
  {
    hide Drain, Decode, ValidUpTo;
    var bytes := s.pending + a;
    var v := ValidUpTo(bytes);
    DecodeSplit(bytes, b);
    assert s.pending + (a + b) == bytes + b;
    var t := Decode(bytes);
    var u := Decode(bytes[v..] + b);
    assert s.buffer + (t + u) == (s.buffer + t) + u;
    DrainSplit(codec, s.fields, s.buffer + t, u);
    var rest := bytes[v..] + b;
    assert (bytes + b)[v + ValidUpTo(rest)..] == rest[ValidUpTo(rest)..];
  }

  /** Any chunking: what a parser has said and where it stands depends only on the bytes. */
  lemma {:induction false} ChunkingIrrelevant(codec: Codec, s: ParserState, chunks: seq<seq<Byte>>)
    requires Settled(s)
    ensures PushAll(codec, s, chunks) == PushOf(codec, s, Concat(chunks))
    decreases |chunks|
  {
    if chunks == [] {
      PushNothing(codec, s);
    } else {
      var first := PushOf(codec, s, chunks[0]);
      PushSettles(codec, s, chunks[0]);
      ChunkingIrrelevant(codec, first.state, chunks[1..]);
      PushTwice(codec, s, chunks[0], Concat(chunks[1..]));
    }
  }

  lemma PushNothing(codec: Codec, s: ParserState)
    requires Settled(s)
    ensures PushOf(codec, s, []) == Pushed([], s)
  {
    assert s.pending + [] == s.pending;
    assert s.buffer + [] == s.buffer;
    assert s.pending[0..] == s.pending;
  }

  /** From a fresh parser: the decoded text is always the longest valid prefix of all bytes seen. */
  lemma FreshParser(codec: Codec, chunks: seq<seq<Byte>>)
    ensures var all := Concat(chunks);
            var d := Drain(codec, EMPTY, Decode(all));
            PushAll(codec, START, chunks)
            == Pushed(d.out, ParserState(d.fields, d.rest, all[ValidUpTo(all)..]))
  {
    ChunkingIrrelevant(codec, START, chunks);
    var all := Concat(chunks);
    assert [] + all == all;
    assert [] + Decode(all) == Decode(all);
  }

  /** The price of keeping undecodable bytes: after one ill-formed character nothing is ever
      delivered again, whatever follows ... */
  lemma StalledForever(codec: Codec, s: ParserState, chunks: seq<seq<Byte>>)
    requires Settled(s) && IllFormed(s.pending)
    ensures PushAll(codec, s, chunks).out == []
  {
    ChunkingIrrelevant(codec, s, chunks);
    IllFormedStays(s.pending, Concat(chunks));
    assert s.buffer + [] == s.buffer;
  }

  /** For one, a first byte 0xFF: no frame that follows is ever delivered ... */
  lemma OneByteSilences(codec: Codec, chunks: seq<seq<Byte>>)
    ensures PushAll(codec, START, [[0xFF]] + chunks).out == []
  {
    var all := Concat([[0xFF]] + chunks);
    FreshParser(codec, [[0xFF]] + chunks);
    assert ([[0xFF]] + chunks)[1..] == chunks;
    assert all == [0xFF] + Concat(chunks);
    assert LeadLen(0xFF) == 0 && CharLen(all) == 0;
    assert Decode(all) == [];
  }

  /** ... and that is the only way to stall: every other parser can still be made to speak. */
  lemma StallsExactlyWhenIllFormed(codec: Codec, s: ParserState, frame: SseFrame)
    requires Lawful(codec) && Settled(s) && frame.id < U64_LIMIT
    ensures IllFormed(s.pending) <==> forall chunk: seq<Byte> :: PushOf(codec, s, chunk).out == []
  {
    if IllFormed(s.pending) {
      forall chunk: seq<Byte>
        ensures PushOf(codec, s, chunk).out == []
      {
        StalledForever(codec, s, [chunk]);
        ChunkingIrrelevant(codec, s, [chunk]);
        assert Concat([chunk]) == chunk + [];
        assert chunk + [] == chunk;
      }
    } else {
      var wake := Wake(codec, s, frame);
      assert PushOf(codec, s, wake).out != [];
    }
  }

  /** Finish the character, finish the line, close the event, then send a frame. */
  lemma Wake(codec: Codec, s: ParserState, frame: SseFrame) returns (chunk: seq<Byte>)
    requires Lawful(codec) && Settled(s) && !IllFormed(s.pending) && frame.id < U64_LIMIT
    ensures PushOf(codec, s, chunk).out != []
  {
    hide Drain, Decode, ValidUpTo, Encode, Record, CharLen, Completion, IllFormed;
    var record := EncodeFrame(codec, frame);
    var x := Completion(s.pending);
    Completes(s.pending);
    var head := s.buffer + Decode(s.pending + x);
    chunk := x + Encode("\n\n" + record);
    DecodeCompleted(s.pending, x, "\n\n" + record);
    var d := Drain(codec, s.fields, head);
    assert s.buffer + Decode(s.pending + chunk) == head + ("\n\n" + record);
    DrainSplit(codec, s.fields, head, "\n\n" + record);
    DrainLeavesNoLine(codec, s.fields, head);
    assert d.rest + ("\n\n" + record) == (d.rest + "\n\n") + record;
    DrainSplit(codec, d.fields, d.rest + "\n\n", record);
    DrainBlank(codec, d.fields, d.rest);
    assert [] + record == record;
    FrameMeansItself(codec, frame);
    RecordMeans(codec, frame.id, EventName(frame.event), codec.show(frame));
  }

  lemma DecodeCompleted(pending: seq<Byte>, x: seq<Byte>, text: string)
    requires Valid(pending + x)
    ensures Decode(pending + (x + Encode(text))) == Decode(pending + x) + text
  {
    hide Decode, ValidUpTo, Encode;
    var bytes := pending + x;
    DecodeSplit(bytes, Encode(text));
    DecodeEncode(text, []);
    DecodeEmpty();
    assert Encode(text) + [] == Encode(text) && text + [] == text;
    assert pending + (x + Encode(text)) == bytes + Encode(text);
    assert bytes[|bytes|..] + Encode(text) == Encode(text);
  }

  // ------------------------------------------------------------ encoder and parser undo each other

  /** What travels on the wire: records and heartbeats. */
  datatype WireItem = Item(id: nat, name: string, payload: string) | Beat

  function ItemText(item: WireItem): string {
    match item
    case Item(id, name, payload) => Record(id, name, payload)
    case Beat => HEARTBEAT
  }

  predicate Sendable(item: WireItem) {
    item.Item? ==> item.id < U64_LIMIT && Tight(item.name) && '\n' !in item.name && SingleLine(item.payload)
  }

  /** What the receiver should make of an item: the frame, or, unreadable, its position. */
  function Meaning(codec: Codec, item: WireItem): seq<SseMessage> {
    match item
    case Beat => []
    case Item(id, name, payload) =>
      match codec.parse(payload)
      case Parsed(frame) => [Frame(frame)]
      case Unparsed(error) => [if name in RETIRED_EVENTS then Retired(id) else Skipped(id, "event=" + name + "：" + error)]
  }

  /** An item that cannot be read moves the cursor all the same: quietly if it is one of the two kinds that are no
      longer sent, with its reason otherwise. */
  lemma UnreadableMoves(codec: Codec, id: nat, name: string, payload: string)
    requires codec.parse(payload).Unparsed?
    ensures |Meaning(codec, Item(id, name, payload))| == 1
    ensures var m := Meaning(codec, Item(id, name, payload))[0];
            && m.Cursor() == id
            && (m.Retired? <==> name == "approval_pending" || name == "approval_decided")
            && (!m.Retired? ==> m.Skipped?)
  {
  }

  function WireText(items: seq<WireItem>): string {
    if items == [] then [] else ItemText(items[0]) + WireText(items[1..])
  }

  function Meanings(codec: Codec, items: seq<WireItem>): seq<SseMessage> {
    if items == [] then [] else Meaning(codec, items[0]) + Meanings(codec, items[1..])
  }

  lemma DrainEmpty(codec: Codec, f: Fields)
    ensures Drain(codec, f, []) == Drained([], f, [])
  {
  }

  lemma DecodeEmpty()
    ensures Decode([]) == [] && ValidUpTo([]) == 0
  {
  }

  /** An empty line ends the event. */
  lemma DrainEnd(codec: Codec, f: Fields)
    ensures Drain(codec, f, "\n") == Drained(Opt(DispatchOf(codec, f)), EMPTY, [])
  {
    hide DispatchOf, TrimEol, Drain;
    assert [] + "\n" + [] == "\n" && [] + "\n" == "\n";
    TrimEolOfLine([]);
    DrainLine(codec, f, [], []);
    DrainEmpty(codec, EMPTY);
    var m := Opt(DispatchOf(codec, f));
    assert m + [] == m;
  }

  lemma DrainBlank(codec: Codec, f: Fields, line: string)
    requires '\n' !in line
    ensures var d := Drain(codec, f, line + "\n\n"); d.fields == EMPTY && d.rest == []
  {
    hide Drain, DispatchOf, TrimEol;
    assert line + "\n\n" == line + "\n" + "\n";
    DrainLine(codec, f, line, "\n");
    DrainEnd(codec, LineStep(codec, f, TrimEol(line + "\n")).fields);
  }

  /** A field line of the encoder reads back as its field and its value. */
  lemma FieldLine(codec: Codec, f: Fields, field: string, value: string)
    requires field != [] && ':' !in field && '\n' !in field && SingleLine(value)
    ensures var line := field + ": " + value;
            && '\n' !in line && TrimEol(line + "\n") == line
            && LineStep(codec, f, line) ==
               if field == "id" then Stepped(f.(id := ParseU64(Trim(value))), None)
               else if field == "event" then Stepped(f.(event := Some(Trim(value))), None)
               else if field == "data" then Stepped(f.(data := if f.data == [] then value else f.data + "\n" + value), None)
               else Stepped(f, None)
  {
    var line := field + ": " + value;
    assert line[|line| - 1] == value[|value| - 1];
    TrimEolOfLine(line);
    assert line[|field|] == ':' && forall k | 0 <= k < |field| :: line[k] == field[k];
    assert line[0] != ':' by { assert field[0] in field; }
    assert IndexOf(line, ':') == |field|;
    assert line[..|field|] == field;
    var rest := line[|field| + 1..];
    assert rest == " " + value;
    assert rest[..1] == " " && rest[1..] == value;
  }

  lemma TightTrims(s: string)
    requires Tight(s)
    ensures Trim(s) == s
  {
  }

  lemma DecimalSingleLine(n: nat)
    ensures SingleLine(Decimal(n))
  {
    var s := Decimal(n);
    assert s[|s| - 1] in s;
  }

  /** One record, parsed. */
  lemma RecordMeans(codec: Codec, id: nat, name: string, payload: string)
    requires Sendable(Item(id, name, payload))
    ensures Drain(codec, EMPTY, Record(id, name, payload))
            == Drained(Meaning(codec, Item(id, name, payload)), EMPTY, [])
  {
    hide Drain, LineStep, TrimEol, Decimal, ParseU64, Trim;
    var l1, l2, l3 := "id" + ": " + Decimal(id), "event" + ": " + name, "data" + ": " + payload;
    var t3 := l3 + "\n" + "\n";
    var t2 := l2 + "\n" + t3;
    assert Record(id, name, payload) == l1 + "\n" + t2;
    DecimalSingleLine(id);
    DecimalParses(id);
    TightTrims(name);
    assert SingleLine(name);
    FieldLine(codec, EMPTY, "id", Decimal(id));
    DrainLine(codec, EMPTY, l1, t2);
    var f1 := EMPTY.(id := Some(id));
    FieldLine(codec, f1, "event", name);
    DrainLine(codec, f1, l2, t3);
    var f2 := f1.(event := Some(name));
    FieldLine(codec, f2, "data", payload);
    DrainLine(codec, f2, l3, "\n");
    var f3 := f2.(data := payload);
    DrainEnd(codec, f3);
    AfterAfter([], [], Drain(codec, f3, "\n"));
    AfterAfter([], [], Drain(codec, f2, t3));
    AfterAfter([], [], Drain(codec, f1, t2));
    assert Drain(codec, EMPTY, l1 + "\n" + t2) == Drain(codec, f1, t2);
    assert Drain(codec, f1, l2 + "\n" + t3) == Drain(codec, f2, t3);
    assert Drain(codec, f2, l3 + "\n" + "\n") == Drain(codec, f3, "\n");
    assert Opt(DispatchOf(codec, f3)) == Meaning(codec, Item(id, name, payload));
  }

  lemma HeartbeatMeansNothing(codec: Codec)
    ensures Drain(codec, EMPTY, HEARTBEAT) == Drained([], EMPTY, [])
  {
    hide Drain, TrimEol;
    var line := ": keep-alive";
    assert HEARTBEAT == line + "\n" + "\n";
    TrimEolOfLine(line);
    assert line[0] == ':';
    assert LineStep(codec, EMPTY, line) == Stepped(EMPTY, None);
    assert DispatchOf(codec, EMPTY) == None;
    DrainLine(codec, EMPTY, line, "\n");
    DrainEnd(codec, EMPTY);
    AfterAfter([], [], Drain(codec, EMPTY, "\n"));
    assert Drain(codec, EMPTY, "\n") == Drained([], EMPTY, []);
  }

  lemma {:induction false} WireMeans(codec: Codec, items: seq<WireItem>)
    requires forall i | 0 <= i < |items| :: Sendable(items[i])
    ensures Drain(codec, EMPTY, WireText(items)) == Drained(Meanings(codec, items), EMPTY, [])
  {
    hide Drain, Record;
    DrainEmpty(codec, EMPTY);
    if items != [] {
      var item := items[0];
      if item.Beat? {
        HeartbeatMeansNothing(codec);
      } else {
        RecordMeans(codec, item.id, item.name, item.payload);
      }
      DrainSplit(codec, EMPTY, ItemText(item), WireText(items[1..]));
      assert [] + WireText(items[1..]) == WireText(items[1..]);
      WireMeans(codec, items[1..]);
      assert WireText(items) == ItemText(item) + WireText(items[1..]);
      assert Meanings(codec, items) == Meaning(codec, item) + Meanings(codec, items[1..]);
      assert item.Beat? ==> Meaning(codec, item) == [] && ItemText(item) == HEARTBEAT;
      assert item.Item? ==> item == Item(item.id, item.name, item.payload);
      assert Drain(codec, EMPTY, ItemText(item)) == Drained(Meaning(codec, item), EMPTY, []);
    }
  }

  /** Whatever is sent arrives, in order and nothing else, however the bytes are cut up: readable
      frames as themselves, unreadable ones as their position; the parser is left as new. */
  lemma RoundTrip(codec: Codec, items: seq<WireItem>, chunks: seq<seq<Byte>>)
    requires forall i | 0 <= i < |items| :: Sendable(items[i])
    requires Concat(chunks) == Utf8.Encode(WireText(items))
    ensures PushAll(codec, START, chunks) == Pushed(Meanings(codec, items), START)
  {
    FreshParser(codec, chunks);
    var text := WireText(items);
    var bytes := Utf8.Encode(text);
    DecodeEncode(text, []);
    assert bytes + [] == bytes && text + Decode([]) == text;
    assert bytes[|bytes|..] == [];
    WireMeans(codec, items);
  }

  function FrameItem(codec: Codec, frame: SseFrame): WireItem {
    Item(frame.id, EventName(frame.event), codec.show(frame))
  }

  /** The encoder's own frames are sendable and mean themselves. */
  lemma FrameMeansItself(codec: Codec, frame: SseFrame)
    requires Lawful(codec) && frame.id < U64_LIMIT
    ensures ItemText(FrameItem(codec, frame)) == EncodeFrame(codec, frame)
    ensures Sendable(FrameItem(codec, frame)) && Meaning(codec, FrameItem(codec, frame)) == [Frame(frame)]
  {
  }
}
