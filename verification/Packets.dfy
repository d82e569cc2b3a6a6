/** The traffic packets as instances of the codec, and the loop that reads them off a connection. */
module Packets {
  import opened Prelude
  import opened Codec
  import opened TicketDesk
  import opened TicketMachine
  import opened TicketTheorems

  const U16 := Integer(2, false)
  const U32 := Integer(4, false)

  const ERROR: byte := 0x10
  const PLATE: byte := 0x20
  const TICKET: byte := 0x21
  const WANT_HEARTBEAT: byte := 0x40
  const HEARTBEAT: byte := 0x41
  const I_AM_CAMERA: byte := 0x80
  const I_AM_DISPATCHER: byte := 0x81

  /** The fields of each packet type, in declaration order. */
  function FieldsOf(opcode: byte): (ts: seq<FieldType>)
    ensures AllSupported(ts)
  {
    if opcode == ERROR then [Text]
    else if opcode == PLATE then [Text, U32]
    else if opcode == TICKET then [Text, U16, U16, U32, U16, U32, U16]
    else if opcode == WANT_HEARTBEAT then [U32]
    else if opcode == I_AM_CAMERA then [U16, U16, U16]
    else if opcode == I_AM_DISPATCHER then [Words]
    else []
  }

  lemma Widths()
    ensures Pow256(2) == 0x1_0000 && Pow256(4) == 0x1_0000_0000
  {
    assert Pow256(1) == 256;
    assert Pow256(3) == 256 * Pow256(2);
  }

  function TicketValues(t: Ticket): (vs: seq<Value>)
    ensures Typed(vs, FieldsOf(TICKET))
  {
    Widths();
    [TextValue(t.plate), IntValue(t.road), IntValue(t.mile1), IntValue(t.timestamp1), IntValue(t.mile2),
     IntValue(t.timestamp2), IntValue(t.speed)]
  }

  function TicketOf(vs: seq<Value>): Ticket
    requires Typed(vs, FieldsOf(TICKET))
  {
    Widths();
    Ticket(vs[0].bytes, vs[1].n, vs[2].n, vs[3].n, vs[4].n, vs[5].n, vs[6].n)
  }

  class IAmCameraPacket {
    var road: uint16
    var mile: uint16
    var limit: uint16

    ghost function Values(): (vs: seq<Value>)
      reads this
      ensures Typed(vs, FieldsOf(I_AM_CAMERA))
    {
      Widths();
      [IntValue(road), IntValue(mile), IntValue(limit)]
    }

    method Marshal() returns (b: seq<byte>)
      ensures b == [I_AM_CAMERA] + Encode(FieldsOf(I_AM_CAMERA), Values())
    {
      ghost var ts, vs := FieldsOf(I_AM_CAMERA), Values();
      BufferedAll(I_AM_CAMERA, ts, vs);
      b := [I_AM_CAMERA];
      BufferedInt(I_AM_CAMERA, ts, vs, 0, 2, road);
      b := b + BigEndian(road, 2);
      BufferedInt(I_AM_CAMERA, ts, vs, 1, 2, mile);
      b := b + BigEndian(mile, 2);
      BufferedInt(I_AM_CAMERA, ts, vs, 2, 2, limit);
      b := b + BigEndian(limit, 2);
    }

    method Unmarshal(r: Reader) returns (ok: bool)
      modifies this, r
      ensures match Decode(FieldsOf(I_AM_CAMERA), old(r.input))
              case Short => !ok
              case Parsed(vs, rest) => ok && Values() == vs && r.input == rest
    {
      Widths();
      ghost var start, ts := r.input, FieldsOf(I_AM_CAMERA);
      ghost var got: seq<Value> := [];
      ProgressStart(ts, start);
      var readRoad := r.NextInt(2, ts, start, 0, got);
      if readRoad.None? {
        return false;
      }
      road, got := readRoad.value, got + [IntValue(readRoad.value)];
      var readMile := r.NextInt(2, ts, start, 1, got);
      if readMile.None? {
        return false;
      }
      mile, got := readMile.value, got + [IntValue(readMile.value)];
      var readLimit := r.NextInt(2, ts, start, 2, got);
      if readLimit.None? {
        return false;
      }
      limit, got := readLimit.value, got + [IntValue(readLimit.value)];
      ProgressEnd(ts, start, got, r.input);
      ok := true;
    }
  }

  class IAmDispatcherPacket {
    var roads: seq<uint16>

    ghost function Values(): (vs: seq<Value>)
      reads this
      ensures Typed(vs, FieldsOf(I_AM_DISPATCHER))
    {
      Widths();
      [WordsValue(roads)]
    }

    method Marshal() returns (b: seq<byte>)
      ensures b == [I_AM_DISPATCHER] + Encode(FieldsOf(I_AM_DISPATCHER), Values())
    {
      ghost var ts, vs := FieldsOf(I_AM_DISPATCHER), Values();
      BufferedAll(I_AM_DISPATCHER, ts, vs);
      b := [I_AM_DISPATCHER];
      BufferedNext(I_AM_DISPATCHER, ts, vs, 0);
      b := b + ([|roads| % 256] + WordsBytes(roads));
    }

    method Unmarshal(r: Reader) returns (ok: bool)
      modifies this, r
      ensures match Decode(FieldsOf(I_AM_DISPATCHER), old(r.input))
              case Short => !ok
              case Parsed(vs, rest) => ok && Values() == vs && r.input == rest
    {
      Widths();
      ghost var start, ts := r.input, FieldsOf(I_AM_DISPATCHER);
      ghost var got: seq<Value> := [];
      ProgressStart(ts, start);
      var readRoads := r.NextWords(ts, start, 0, got);
      if readRoads.None? {
        return false;
      }
      roads, got := readRoads.value, got + [WordsValue(readRoads.value)];
      ProgressEnd(ts, start, got, r.input);
      ok := true;
    }
  }

  class ErrorPacket {
    var message: seq<byte>

    constructor (message: seq<byte>)
      ensures this.message == message
    {
      this.message := message;
    }

    ghost function Values(): (vs: seq<Value>)
      reads this
      ensures Typed(vs, FieldsOf(ERROR))
    {
      Widths();
      [TextValue(message)]
    }

    method Marshal() returns (b: seq<byte>)
      ensures b == [ERROR] + Encode(FieldsOf(ERROR), Values())
    {
      ghost var ts, vs := FieldsOf(ERROR), Values();
      BufferedAll(ERROR, ts, vs);
      b := [ERROR];
      BufferedNext(ERROR, ts, vs, 0);
      b := b + ([|message| % 256] + message);
    }

    method Unmarshal(r: Reader) returns (ok: bool)
      modifies this, r
      ensures match Decode(FieldsOf(ERROR), old(r.input))
              case Short => !ok
              case Parsed(vs, rest) => ok && Values() == vs && r.input == rest
    {
      Widths();
      ghost var start, ts := r.input, FieldsOf(ERROR);
      ghost var got: seq<Value> := [];
      ProgressStart(ts, start);
      var readMessage := r.NextText(ts, start, 0, got);
      if readMessage.None? {
        return false;
      }
      message, got := readMessage.value, got + [TextValue(readMessage.value)];
      ProgressEnd(ts, start, got, r.input);
      ok := true;
    }
  }

  class PlatePacket {
    var plate: seq<byte>
    var timestamp: uint32

    ghost function Values(): (vs: seq<Value>)
      reads this
      ensures Typed(vs, FieldsOf(PLATE))
    {
      Widths();
      [TextValue(plate), IntValue(timestamp)]
    }

    method Marshal() returns (b: seq<byte>)
      ensures b == [PLATE] + Encode(FieldsOf(PLATE), Values())
    {
      ghost var ts, vs := FieldsOf(PLATE), Values();
      BufferedAll(PLATE, ts, vs);
      b := [PLATE];
      BufferedNext(PLATE, ts, vs, 0);
      b := b + ([|plate| % 256] + plate);
      BufferedInt(PLATE, ts, vs, 1, 4, timestamp);
      b := b + BigEndian(timestamp, 4);
    }

    method Unmarshal(r: Reader) returns (ok: bool)
      modifies this, r
      ensures match Decode(FieldsOf(PLATE), old(r.input))
              case Short => !ok
              case Parsed(vs, rest) => ok && Values() == vs && r.input == rest
    {
      Widths();
      ghost var start, ts := r.input, FieldsOf(PLATE);
      ghost var got: seq<Value> := [];
      ProgressStart(ts, start);
      var readPlate := r.NextText(ts, start, 0, got);
      if readPlate.None? {
        return false;
      }
      plate, got := readPlate.value, got + [TextValue(readPlate.value)];
      var readTimestamp := r.NextInt(4, ts, start, 1, got);
      if readTimestamp.None? {
        return false;
      }
      timestamp, got := readTimestamp.value, got + [IntValue(readTimestamp.value)];
      ProgressEnd(ts, start, got, r.input);
      ok := true;
    }
  }

  class WantHeartbeatPacket {
    var interval: uint32

    ghost function Values(): (vs: seq<Value>)
      reads this
      ensures Typed(vs, FieldsOf(WANT_HEARTBEAT))
    {
      Widths();
      [IntValue(interval)]
    }

    method Marshal() returns (b: seq<byte>)
      ensures b == [WANT_HEARTBEAT] + Encode(FieldsOf(WANT_HEARTBEAT), Values())
    {
      ghost var ts, vs := FieldsOf(WANT_HEARTBEAT), Values();
      BufferedAll(WANT_HEARTBEAT, ts, vs);
      b := [WANT_HEARTBEAT];
      BufferedInt(WANT_HEARTBEAT, ts, vs, 0, 4, interval);
      b := b + BigEndian(interval, 4);
    }

    method Unmarshal(r: Reader) returns (ok: bool)
      modifies this, r
      ensures match Decode(FieldsOf(WANT_HEARTBEAT), old(r.input))
              case Short => !ok
              case Parsed(vs, rest) => ok && Values() == vs && r.input == rest
    {
      Widths();
      ghost var start, ts := r.input, FieldsOf(WANT_HEARTBEAT);
      ghost var got: seq<Value> := [];
      ProgressStart(ts, start);
      var readInterval := r.NextInt(4, ts, start, 0, got);
      if readInterval.None? {
        return false;
      }
      interval, got := readInterval.value, got + [IntValue(readInterval.value)];
      ProgressEnd(ts, start, got, r.input);
      ok := true;
    }
  }

  class TicketPacket {
    var plate: seq<byte>
    var road: uint16
    var mile1: uint16
    var timestamp1: uint32
    var mile2: uint16
    var timestamp2: uint32
    var speed: uint16

    constructor (t: Ticket)
      ensures Values() == TicketValues(t)
    {
      plate, road, speed := t.plate, t.road, t.speed;
      mile1, timestamp1, mile2, timestamp2 := t.mile1, t.timestamp1, t.mile2, t.timestamp2;
    }

    ghost function Values(): (vs: seq<Value>)
      reads this
      ensures Typed(vs, FieldsOf(TICKET))
    {
      Widths();
      [TextValue(plate), IntValue(road), IntValue(mile1), IntValue(timestamp1),
       IntValue(mile2), IntValue(timestamp2), IntValue(speed)]
    }

    method MarshalFront() returns (b: seq<byte>)
      ensures b == Buffered(TICKET, FieldsOf(TICKET), Values(), 4)
    {
      ghost var ts, vs := FieldsOf(TICKET), Values();
      BufferedAll(TICKET, ts, vs);
      b := [TICKET];
      BufferedNext(TICKET, ts, vs, 0);
      b := b + ([|plate| % 256] + plate);
      BufferedInt(TICKET, ts, vs, 1, 2, road);
      b := b + BigEndian(road, 2);
      BufferedInt(TICKET, ts, vs, 2, 2, mile1);
      b := b + BigEndian(mile1, 2);
      BufferedInt(TICKET, ts, vs, 3, 4, timestamp1);
      b := b + BigEndian(timestamp1, 4);
    }

    method Marshal() returns (b: seq<byte>)
      ensures b == [TICKET] + Encode(FieldsOf(TICKET), Values())
    {
      ghost var ts, vs := FieldsOf(TICKET), Values();
      b := MarshalFront();
      BufferedInt(TICKET, ts, vs, 4, 2, mile2);
      b := b + BigEndian(mile2, 2);
      BufferedInt(TICKET, ts, vs, 5, 4, timestamp2);
      b := b + BigEndian(timestamp2, 4);
      BufferedInt(TICKET, ts, vs, 6, 2, speed);
      b := b + BigEndian(speed, 2);
      BufferedAll(TICKET, ts, vs);
    }

    /** The plate and the road. */
    method UnmarshalPlate(r: Reader, ghost start: seq<byte>, ghost front: seq<Value>) returns (ok: bool)
      requires Progress(FieldsOf(TICKET), start, 0, front, r.input)
      modifies this`plate, this`road, r
      ensures !ok ==> Decode(FieldsOf(TICKET), start) == Short
      ensures ok ==> Progress(FieldsOf(TICKET), start, 2, front + [TextValue(plate), IntValue(road)], r.input)
    {
      Widths();
      ghost var ts, got := FieldsOf(TICKET), front;
      var readPlate := r.NextText(ts, start, 0, got);
      if readPlate.None? {
        return false;
      }
      plate, got := readPlate.value, got + [TextValue(readPlate.value)];
      var readRoad := r.NextInt(2, ts, start, 1, got);
      if readRoad.None? {
        return false;
      }
      road, got := readRoad.value, got + [IntValue(readRoad.value)];
      assert got == front + [TextValue(plate), IntValue(road)];
      ok := true;
    }

    /** The first sighting. */
    method UnmarshalFirst(r: Reader, ghost start: seq<byte>, ghost front: seq<Value>) returns (ok: bool)
      requires Progress(FieldsOf(TICKET), start, 2, front, r.input)
      modifies this`mile1, this`timestamp1, r
      ensures !ok ==> Decode(FieldsOf(TICKET), start) == Short
      ensures ok ==> Progress(FieldsOf(TICKET), start, 4, front + [IntValue(mile1), IntValue(timestamp1)], r.input)
    {
      Widths();
      ghost var ts, got := FieldsOf(TICKET), front;
      var readMile1 := r.NextInt(2, ts, start, 2, got);
      if readMile1.None? {
        return false;
      }
      mile1, got := readMile1.value, got + [IntValue(readMile1.value)];
      var readTimestamp1 := r.NextInt(4, ts, start, 3, got);
      if readTimestamp1.None? {
        return false;
      }
      timestamp1, got := readTimestamp1.value, got + [IntValue(readTimestamp1.value)];
      assert got == front + [IntValue(mile1), IntValue(timestamp1)];
      ok := true;
    }

    /** The second sighting and the speed. */
    method UnmarshalSecond(r: Reader, ghost start: seq<byte>, ghost front: seq<Value>) returns (ok: bool)
      requires Progress(FieldsOf(TICKET), start, 4, front, r.input)
      modifies this`mile2, this`timestamp2, this`speed, r
      ensures !ok ==> Decode(FieldsOf(TICKET), start) == Short
      ensures ok ==>
                Decode(FieldsOf(TICKET), start)
                == Parsed(front + [IntValue(mile2), IntValue(timestamp2), IntValue(speed)], r.input)
    {
      Widths();
      ghost var ts, got := FieldsOf(TICKET), front;
      var readMile2 := r.NextInt(2, ts, start, 4, got);
      if readMile2.None? {
        return false;
      }
      mile2, got := readMile2.value, got + [IntValue(readMile2.value)];
      var readTimestamp2 := r.NextInt(4, ts, start, 5, got);
      if readTimestamp2.None? {
        return false;
      }
      timestamp2, got := readTimestamp2.value, got + [IntValue(readTimestamp2.value)];
      var readSpeed := r.NextInt(2, ts, start, 6, got);
      if readSpeed.None? {
        return false;
      }
      speed, got := readSpeed.value, got + [IntValue(readSpeed.value)];
      assert got == front + [IntValue(mile2), IntValue(timestamp2), IntValue(speed)];
      ProgressEnd(ts, start, got, r.input);
      ok := true;
    }

    ghost function FirstFour(): seq<Value>
      reads this
    {
      [TextValue(plate), IntValue(road)] + [IntValue(mile1), IntValue(timestamp1)]
    }

    method UnmarshalFront(r: Reader) returns (ok: bool)
      modifies this`plate, this`road, this`mile1, this`timestamp1, r
      ensures !ok ==> Decode(FieldsOf(TICKET), old(r.input)) == Short
      ensures ok ==> Progress(FieldsOf(TICKET), old(r.input), 4, FirstFour(), r.input)
    {
      ghost var start := r.input;
      ProgressStart(FieldsOf(TICKET), start);
      ok := UnmarshalPlate(r, start, []);
      if !ok {
        return;
      }
      ghost var head := [TextValue(plate), IntValue(road)];
      assert [] + head == head;
      ok := UnmarshalFirst(r, start, head);
    }

    method Unmarshal(r: Reader) returns (ok: bool)
      modifies this, r
      ensures match Decode(FieldsOf(TICKET), old(r.input))
              case Short => !ok
              case Parsed(vs, rest) => ok && Values() == vs && r.input == rest
    {
      ghost var start := r.input;
      ok := UnmarshalFront(r);
      if !ok {
        return;
      }
      ghost var front := FirstFour();
      ok := UnmarshalSecond(r, start, front);
      assert Values() == front + [IntValue(mile2), IntValue(timestamp2), IntValue(speed)];
    }
  }

  class HeartbeatPacket {
    method Marshal() returns (b: seq<byte>)
      ensures b == [HEARTBEAT] + Encode(FieldsOf(HEARTBEAT), []) == [0x41]
    {
      b := [HEARTBEAT];
    }

    method Unmarshal(r: Reader) returns (ok: bool)
      ensures ok && Decode(FieldsOf(HEARTBEAT), r.input) == Parsed([], r.input)
    {
      ok := true;
    }
  }

  function DecodeTicket(input: seq<byte>): Parsed<Ticket> {
    match Decode(FieldsOf(TICKET), input)
    case Short => Short
    case Parsed(vs, rest) =>
      DecodedIsTyped(FieldsOf(TICKET), input);
      Parsed(TicketOf(vs), rest)
  }

  lemma TicketBack(vs: seq<Value>, t: Ticket)
    requires Typed(vs, FieldsOf(TICKET))
    ensures TicketOf(vs) == t <==> vs == TicketValues(t)
  {
  }

  lemma TicketFits(t: Ticket)
    ensures AllFit(TicketValues(t)) <==> |t.plate| <= 255
  {
    assert Fits(TicketValues(t)[0]) <==> |t.plate| <= 255;
  }

  /** A dispatcher reads back exactly the ticket that was sent, if and only if the plate has at most 255 bytes. */
  lemma TicketRoundTrip(t: Ticket, suffix: seq<byte>)
    ensures DecodeTicket(Encode(FieldsOf(TICKET), TicketValues(t)) + suffix) == Parsed(t, suffix) <==> |t.plate| <= 255
  {
    var ts, vs := FieldsOf(TICKET), TicketValues(t);
    RoundTrip(ts, vs, suffix);
    TicketFits(t);
    DecodedIsTyped(ts, Encode(ts, vs) + suffix);
    var got := Decode(ts, Encode(ts, vs) + suffix);
    if got.Parsed? {
      TicketBack(got.value, t);
    }
  }

  // ---- The connection ----

  /** The messages a client's packets turn into. */
  predicate IsPacket(msg: Message) {
    msg.PlateSeen? || msg.IAmCamera? || msg.IAmDispatcher? || msg.WantHeartbeat?
  }

  function OpcodeOf(msg: Message): byte
    requires IsPacket(msg)
  {
    match msg
    case PlateSeen(_, _, _) => PLATE
    case IAmCamera(_, _) => I_AM_CAMERA
    case IAmDispatcher(_, _) => I_AM_DISPATCHER
    case WantHeartbeat(_, _) => WANT_HEARTBEAT
  }

  function ValuesOf(msg: Message): (vs: seq<Value>)
    requires IsPacket(msg)
    ensures Typed(vs, FieldsOf(OpcodeOf(msg)))
  {
    Widths();
    match msg
    case PlateSeen(_, plate, timestamp) => [TextValue(plate), IntValue(timestamp)]
    case IAmCamera(_, camera) => [IntValue(camera.road), IntValue(camera.mile), IntValue(camera.limit)]
    case IAmDispatcher(_, roads) => [WordsValue(roads)]
    case WantHeartbeat(_, interval) => [IntValue(interval)]
  }

  /** The message a decoded packet is posted as. */
  function MessageOf(peer: PeerId, opcode: byte, vs: seq<Value>): Message
    requires Typed(vs, FieldsOf(opcode))
  {
    Widths();
    if opcode == PLATE then PlateSeen(peer, vs[0].bytes, vs[1].n)
    else if opcode == I_AM_CAMERA then IAmCamera(peer, Camera(vs[0].n, vs[1].n, vs[2].n))
    else if opcode == I_AM_DISPATCHER then IAmDispatcher(peer, vs[0].words)
    else if opcode == WANT_HEARTBEAT then WantHeartbeat(peer, vs[0].n)
    else Unrecognised(peer)
  }

  predicate ClientOpcode(opcode: byte) {
    opcode == PLATE || opcode == I_AM_CAMERA || opcode == I_AM_DISPATCHER || opcode == WANT_HEARTBEAT
  }

  /** The message for the packet of this kind at the front of the bytes. */
  function Receive(peer: PeerId, opcode: byte, body: seq<byte>): (got: Parsed<Message>)
    ensures got.Parsed? ==> |got.rest| <= |body|
  {
    match Decode(FieldsOf(opcode), body)
    case Short => Short
    case Parsed(vs, rest) =>
      DecodedIsTyped(FieldsOf(opcode), body);
      Parsed(MessageOf(peer, opcode, vs), rest)
  }

  /** One round of the decode loop. A byte that is no opcode is answered with an error, posted as a message
      with no packet, and skipped. */
  function Next(peer: PeerId, input: seq<byte>): (got: Parsed<Message>)
    requires input != []
    ensures got.Parsed? ==> |got.rest| < |input|
  {
    if !ClientOpcode(input[0]) then Parsed(Unrecognised(peer), input[1..])
    else Receive(peer, input[0], input[1..])
  }

  /** What the decode loop posts for a byte stream, until the stream ends or breaks off. */
  function Posts(peer: PeerId, input: seq<byte>): seq<Message>
    decreases |input|
  {
    if input == [] then []
    else match Next(peer, input)
      case Short => []
      case Parsed(msg, rest) => [msg] + Posts(peer, rest)
  }

  function Frame(msg: Message): seq<byte>
    requires IsPacket(msg)
  {
    [OpcodeOf(msg)] + Encode(FieldsOf(OpcodeOf(msg)), ValuesOf(msg))
  }

  ghost predicate Sendable(peer: PeerId, msg: Message) {
    IsPacket(msg) && msg.peer == peer && AllFit(ValuesOf(msg))
  }

  ghost predicate AllSendable(peer: PeerId, msgs: seq<Message>) {
    forall k :: 0 <= k < |msgs| ==> Sendable(peer, msgs[k])
  }

  ghost function Frames(peer: PeerId, msgs: seq<Message>): seq<byte>
    requires AllSendable(peer, msgs)
  {
    if msgs == [] then [] else Frame(msgs[0]) + Frames(peer, msgs[1..])
  }

  lemma MessageBack(peer: PeerId, msg: Message)
    requires Sendable(peer, msg)
    ensures MessageOf(peer, OpcodeOf(msg), ValuesOf(msg)) == msg && ClientOpcode(OpcodeOf(msg))
  {
  }

  lemma NextAfterOpcode(peer: PeerId, opcode: byte, body: seq<byte>)
    requires ClientOpcode(opcode)
    ensures Next(peer, [opcode] + body) == Receive(peer, opcode, body)
  {
    assert ([opcode] + body)[1..] == body;
  }

  lemma OneFrame(peer: PeerId, msg: Message, tail: seq<byte>)
    requires Sendable(peer, msg)
    ensures Next(peer, Frame(msg) + tail) == Parsed(msg, tail)
  {
    var opcode, ts, vs := OpcodeOf(msg), FieldsOf(OpcodeOf(msg)), ValuesOf(msg);
    Associative([opcode], Encode(ts, vs), tail);
    MessageBack(peer, msg);
    RoundTrip(ts, vs, tail);
    NextAfterOpcode(peer, opcode, Encode(ts, vs) + tail);
  }

  lemma PostsFrame(peer: PeerId, msg: Message, tail: seq<byte>)
    requires Sendable(peer, msg)
    ensures Posts(peer, Frame(msg) + tail) == [msg] + Posts(peer, tail)
  {
    OneFrame(peer, msg, tail);
  }

  lemma FramesSplit(peer: PeerId, msgs: seq<Message>, tail: seq<byte>)
    requires AllSendable(peer, msgs) && msgs != []
    ensures Frames(peer, msgs) + tail == Frame(msgs[0]) + (Frames(peer, msgs[1..]) + tail)
  {
  }

  lemma Regroup(msgs: seq<Message>, rest: seq<Message>)
    requires msgs != []
    ensures [msgs[0]] + (msgs[1..] + rest) == msgs + rest
  {
  }

  /** The decode loop on the concatenated encodings yields exactly the packets sent, then whatever follows. */
  lemma {:induction false} StreamFraming(peer: PeerId, msgs: seq<Message>, tail: seq<byte>)
    requires AllSendable(peer, msgs)
    ensures Posts(peer, Frames(peer, msgs) + tail) == msgs + Posts(peer, tail)
    decreases |msgs|
  {
    if msgs == [] {
      assert Frames(peer, msgs) + tail == tail;
    } else {
      FramesSplit(peer, msgs, tail);
      PostsFrame(peer, msgs[0], Frames(peer, msgs[1..]) + tail);
      StreamFraming(peer, msgs[1..], tail);
      Regroup(msgs, Posts(peer, tail));
    }
  }

  /** Different packet sequences never share an encoding. */
  lemma FramesInjective(peer: PeerId, a: seq<Message>, b: seq<Message>)
    requires AllSendable(peer, a) && AllSendable(peer, b) && Frames(peer, a) == Frames(peer, b)
    ensures a == b
  {
    StreamFraming(peer, a, []);
    StreamFraming(peer, b, []);
    assert Frames(peer, a) + [] == Frames(peer, b) + [];
    assert a + Posts(peer, []) == a && b + Posts(peer, []) == b;
  }

  lemma CutFrame(peer: PeerId, msg: Message, k: nat)
    requires Sendable(peer, msg) && 0 < k < |Frame(msg)|
    ensures Next(peer, Frame(msg)[..k]) == Short
  {
    var opcode, ts, vs := OpcodeOf(msg), FieldsOf(OpcodeOf(msg)), ValuesOf(msg);
    assert Frame(msg)[..k] == [opcode] + Encode(ts, vs)[..k - 1];
    MessageBack(peer, msg);
    CutIsShort(ts, vs, k - 1);
    NextAfterOpcode(peer, opcode, Encode(ts, vs)[..k - 1]);
  }

  lemma CutFrames(peer: PeerId, msgs: seq<Message>, k: nat)
    requires AllSendable(peer, msgs) && msgs != [] && k <= |Frames(peer, msgs)|
    ensures var first, more := Frame(msgs[0]), Frames(peer, msgs[1..]);
            Frames(peer, msgs)[..k] == if k < |first| then first[..k] else first + more[..k - |first|]
  {
  }

  lemma FramesOfPrefix(peer: PeerId, msgs: seq<Message>, n: nat)
    requires AllSendable(peer, msgs) && n < |msgs|
    ensures |Frames(peer, msgs[..n + 1])| == |Frame(msgs[0])| + |Frames(peer, msgs[1..][..n])|
  {
    assert msgs[..n + 1][1..] == msgs[1..][..n];
  }

  /** Of the packets sent, n is the largest number whose encodings fit in k bytes. */
  ghost predicate Whole(peer: PeerId, msgs: seq<Message>, k: nat, n: nat)
    requires AllSendable(peer, msgs)
  {
    && n <= |msgs| && |Frames(peer, msgs[..n])| <= k
    && (n < |msgs| ==> k < |Frames(peer, msgs[..n + 1])|)
  }

  lemma WholeNext(peer: PeerId, msgs: seq<Message>, k: nat, n: nat)
    requires AllSendable(peer, msgs) && msgs != [] && |Frame(msgs[0])| <= k
    requires Whole(peer, msgs[1..], k - |Frame(msgs[0])|, n)
    ensures Whole(peer, msgs, k, n + 1)
  {
    FramesOfPrefix(peer, msgs, n);
    if n + 1 < |msgs| {
      FramesOfPrefix(peer, msgs, n + 1);
    }
  }

  lemma CutInFirst(peer: PeerId, msgs: seq<Message>, k: nat)
    requires AllSendable(peer, msgs) && msgs != [] && k < |Frame(msgs[0])| && k <= |Frames(peer, msgs)|
    ensures Whole(peer, msgs, k, 0) && Posts(peer, Frames(peer, msgs)[..k]) == []
  {
    CutFrames(peer, msgs, k);
    FramesOfPrefix(peer, msgs, 0);
    if k > 0 {
      CutFrame(peer, msgs[0], k);
    }
  }

  /** The decode loop gets past a packet that arrived whole. */
  lemma PastFirst(peer: PeerId, msgs: seq<Message>, k: nat)
    requires AllSendable(peer, msgs) && msgs != [] && |Frame(msgs[0])| <= k <= |Frames(peer, msgs)|
    ensures var tail := k - |Frame(msgs[0])|;
            && tail <= |Frames(peer, msgs[1..])|
            && Posts(peer, Frames(peer, msgs)[..k]) == [msgs[0]] + Posts(peer, Frames(peer, msgs[1..])[..tail])
  {
    CutFrames(peer, msgs, k);
    PostsFrame(peer, msgs[0], Frames(peer, msgs[1..])[..k - |Frame(msgs[0])|]);
  }

  lemma NextPrefix(msgs: seq<Message>, n: nat)
    requires n < |msgs|
    ensures [msgs[0]] + msgs[1..][..n] == msgs[..n + 1]
  {
  }

  /** A connection that breaks off after any byte has delivered exactly the packets sent whole. */
  lemma {:induction false} CutStream(peer: PeerId, msgs: seq<Message>, k: nat) returns (n: nat)
    requires AllSendable(peer, msgs) && k <= |Frames(peer, msgs)|
    ensures Whole(peer, msgs, k, n) && Posts(peer, Frames(peer, msgs)[..k]) == msgs[..n]
    decreases |msgs|
  {
    if msgs == [] {
      n := 0;
    } else if k < |Frame(msgs[0])| {
      CutInFirst(peer, msgs, k);
      n := 0;
    } else {
      PastFirst(peer, msgs, k);
      var m := CutStream(peer, msgs[1..], k - |Frame(msgs[0])|);
      WholeNext(peer, msgs, k, m);
      NextPrefix(msgs, m);
      n := m + 1;
    }
  }

  /** The text of the reply to an unknown opcode. */
  const INVALID_OPCODE: seq<byte> := [
    0x72, 0x65, 0x63, 0x65, 0x69, 0x76, 0x65, 0x64, 0x20, 0x69, 0x6e, 0x76, 0x61, 0x6c, 0x69, 0x64,
    0x20, 0x6f, 0x70, 0x63, 0x6f, 0x64, 0x65]

  function ErrorFrame(): seq<byte> {
    [ERROR] + Encode(FieldsOf(ERROR), [TextValue(INVALID_OPCODE)])
  }

  /** One frame for each byte that was no opcode. */
  function Complaints(posted: seq<Message>, frame: seq<byte>): seq<byte> {
    if posted == [] then []
    else
      Complaints(posted[..|posted| - 1], frame) + (if posted[|posted| - 1].Unrecognised? then frame else [])
  }

  /** Read one packet of the given kind and post it. */
  method ReadPacket(peer: PeerId, opcode: byte, conn: Reader) returns (msg: Option<Message>)
    requires ClientOpcode(opcode)
    modifies conn
    ensures match Receive(peer, opcode, old(conn.input))
            case Short => msg == None
            case Parsed(m, rest) => msg == Some(m) && conn.input == rest
  {
    if opcode == PLATE {
      var packet := new PlatePacket;
      var ok := packet.Unmarshal(conn);
      msg := if ok then Some(PlateSeen(peer, packet.plate, packet.timestamp)) else None;
    } else if opcode == I_AM_CAMERA {
      var packet := new IAmCameraPacket;
      var ok := packet.Unmarshal(conn);
      msg := if ok then Some(IAmCamera(peer, Camera(packet.road, packet.mile, packet.limit))) else None;
    } else if opcode == I_AM_DISPATCHER {
      var packet := new IAmDispatcherPacket;
      var ok := packet.Unmarshal(conn);
      msg := if ok then Some(IAmDispatcher(peer, packet.roads)) else None;
    } else {
      var packet := new WantHeartbeatPacket;
      var ok := packet.Unmarshal(conn);
      msg := if ok then Some(WantHeartbeat(peer, packet.interval)) else None;
    }
  }

  /** One round of the decode loop: the next message to post, or none when the stream ends or breaks off. */
  method NextMessage(peer: PeerId, conn: Reader) returns (msg: Option<Message>, reply: seq<byte>)
    modifies conn
    ensures match msg
            case None => Posts(peer, old(conn.input)) == []
            case Some(m) =>
              |conn.input| < |old(conn.input)| && Posts(peer, old(conn.input)) == [m] + Posts(peer, conn.input)
    ensures reply == if msg.Some? && msg.value.Unrecognised? then ErrorFrame() else []
  {
    var opcode := conn.ReadByte();
    if opcode.None? {
      return None, [];
    }
    if ClientOpcode(opcode.value) {
      msg := ReadPacket(peer, opcode.value, conn);
      reply := [];
    } else {
      var errorPacket := new ErrorPacket(INVALID_OPCODE);
      reply := errorPacket.Marshal();
      msg := Some(Unrecognised(peer));
    }
  }

  lemma ComplaintsGrow(posted: seq<Message>, msg: Message, frame: seq<byte>)
    ensures Complaints(posted + [msg], frame) == Complaints(posted, frame) + (if msg.Unrecognised? then frame else [])
  {
    assert (posted + [msg])[..|posted|] == posted;
  }

  /** One connection: announce it, decode until the stream ends or breaks off, sign off. */
  method HandleClient(peer: PeerId, conn: Reader) returns (posted: seq<Message>, written: seq<byte>)
    modifies conn
    ensures posted == [Connected(peer)] + Posts(peer, old(conn.input)) + [Disconnected(peer)]
    ensures written == Complaints(Posts(peer, old(conn.input)), ErrorFrame())
  {
    ghost var all := Posts(peer, conn.input);
    var packets: seq<Message> := [];
    written := [];
    while true
      invariant all == packets + Posts(peer, conn.input) && written == Complaints(packets, ErrorFrame())
      decreases |conn.input|
    {
      ghost var todo := Posts(peer, conn.input);
      var msg, reply := NextMessage(peer, conn);
      if msg.None? {
        assert all == packets + [] == packets;
        break;
      }
      assert packets + ([msg.value] + Posts(peer, conn.input)) == (packets + [msg.value]) + Posts(peer, conn.input);
      ComplaintsGrow(packets, msg.value, ErrorFrame());
      written := written + reply;
      packets := packets + [msg.value];
    }
    posted := [Connected(peer)] + packets + [Disconnected(peer)];
  }

  // ---- From connections to the server's discipline ----

  function Of(msgs: seq<Message>, peer: PeerId): seq<Message> {
    if msgs == [] then []
    else
      var last := msgs[|msgs| - 1];
      Of(msgs[..|msgs| - 1], peer) + (if last.peer == peer then [last] else [])
  }

  /** What one connection may have posted so far: connected first, disconnected last. */
  ghost predicate Session(ms: seq<Message>) {
    && (forall k :: 0 <= k < |ms| ==> (ms[k].Connected? <==> k == 0))
    && (forall k :: 0 <= k < |ms| - 1 ==> !ms[k].Disconnected?)
  }

  /** Everything a connection posts is a session of its own peer. */
  lemma {:induction false} PostsArePlain(peer: PeerId, input: seq<byte>)
    ensures forall k :: 0 <= k < |Posts(peer, input)| ==>
              var msg := Posts(peer, input)[k]; msg.peer == peer && !msg.Connected? && !msg.Disconnected?
    decreases |input|
  {
    if input != [] {
      match Next(peer, input)
      case Short =>
      case Parsed(_, rest) => PostsArePlain(peer, rest);
    }
  }

  lemma ConnectionIsSession(peer: PeerId, input: seq<byte>)
    ensures Session([Connected(peer)] + Posts(peer, input) + [Disconnected(peer)])
  {
    PostsArePlain(peer, input);
  }

  /** Who is online is who has an open session. */
  lemma {:induction false} OnlineIsOpen(msgs: seq<Message>, peer: PeerId)
    requires Session(Of(msgs, peer))
    ensures var mine := Of(msgs, peer);
            peer in Online(msgs) <==> mine != [] && !mine[|mine| - 1].Disconnected?
    decreases |msgs|
  {
    if msgs != [] {
      var init, last := msgs[..|msgs| - 1], msgs[|msgs| - 1];
      var mine := Of(init, peer);
      if last.peer == peer {
        assert Of(msgs, peer)[..|mine|] == mine;
        assert Session(mine) by {
          assert forall k :: 0 <= k < |mine| ==> Of(msgs, peer)[k] == mine[k];
        }
        assert mine != [] ==> Of(msgs, peer)[|mine| - 1] == mine[|mine| - 1];
      } else {
        assert Of(msgs, peer) == mine;
      }
      OnlineIsOpen(init, peer);
    }
  }

  lemma {:induction false} SessionPrefix(msgs: seq<Message>, k: nat, peer: PeerId)
    requires k <= |msgs| && Session(Of(msgs, peer))
    ensures Session(Of(msgs[..k], peer)) && Of(msgs[..k], peer) <= Of(msgs, peer)
    decreases |msgs|
  {
    if k == |msgs| {
      assert msgs[..k] == msgs;
    } else {
      var init := msgs[..|msgs| - 1];
      assert Of(init, peer) <= Of(msgs, peer);
      assert Session(Of(init, peer)) by {
        assert forall i :: 0 <= i < |Of(init, peer)| ==> Of(msgs, peer)[i] == Of(init, peer)[i];
      }
      SessionPrefix(init, k, peer);
      assert init[..k] == msgs[..k];
    }
  }

  /** However the connections' messages interleave, the server sees a disciplined run. */
  lemma InterleavingIsDisciplined(msgs: seq<Message>)
    requires forall peer :: Session(Of(msgs, peer))
    ensures Disciplined(msgs)
  {
    forall k | 0 <= k < |msgs| && !msgs[k].Connected?
      ensures msgs[k].peer in Online(msgs[..k])
    {
      var peer := msgs[k].peer;
      SessionPrefix(msgs, k, peer);
      SessionPrefix(msgs, k + 1, peer);
      var mine, next := Of(msgs[..k], peer), Of(msgs[..k + 1], peer);
      assert msgs[..k + 1][..k] == msgs[..k];
      assert next == mine + [msgs[k]];
      assert next[|mine|] == msgs[k];
      assert mine != [] ==> next[|mine| - 1] == mine[|mine| - 1];
      OnlineIsOpen(msgs[..k], peer);
    }
  }
}
