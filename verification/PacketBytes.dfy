/** The protocol byte by byte: the opcodes, the order and the width of the fields, with nothing left to a name. */
module PacketBytes {
  import opened Prelude
  import opened Codec
  import opened TicketDesk
  import opened TicketMachine
  import opened Packets

  function Bytes16(n: uint16): seq<byte> {
    [n / 256, n % 256]
  }

  function Bytes32(n: uint32): seq<byte> {
    [n / 16777216, n / 65536 % 256, n / 256 % 256, n % 256]
  }

  function RoadBytes(roads: seq<RoadId>): seq<byte> {
    if roads == [] then [] else Bytes16(roads[0]) + RoadBytes(roads[1..])
  }

  lemma BigEndianNext(n: nat, w: nat)
    ensures BigEndian(n, w + 1) == BigEndian(n / 256, w) + [n % 256]
  {
  }

  lemma DigitsOf(n: uint32)
    ensures n / 256 / 256 == n / 65536 && n / 256 / 256 / 256 == n / 16777216 && n / 16777216 < 256
  {
  }

  lemma FourBytes(n: uint32)
    ensures BigEndian(n, 4) == Bytes32(n)
  {
    DigitsOf(n);
    BigEndianNext(n, 3);
    BigEndianNext(n / 256, 2);
    BigEndianNext(n / 65536, 1);
    BigEndianNext(n / 16777216, 0);
  }

  lemma {:induction false} RoadsAreWords(roads: seq<RoadId>)
    ensures WordsBytes(roads) == RoadBytes(roads)
    decreases |roads|
  {
    if roads != [] {
      TwoBytes(roads[0]);
      RoadsAreWords(roads[1..]);
    }
  }

  lemma EncodeOne(t: FieldType, v: Value)
    requires HasType(v, t)
    ensures Encode([t], [v]) == Put(t, v)
  {
    assert Encode([t][1..], [v][1..]) == [];
  }

  lemma EncodeFirst(t: FieldType, v: Value, ts: seq<FieldType>, vs: seq<Value>)
    requires HasType(v, t) && Typed(vs, ts)
    ensures Typed([v] + vs, [t] + ts) && Encode([t] + ts, [v] + vs) == Put(t, v) + Encode(ts, vs)
  {
    assert ([t] + ts)[1..] == ts && ([v] + vs)[1..] == vs;
  }

  lemma Put16(n: uint16)
    ensures HasType(IntValue(n), U16) && Put(U16, IntValue(n)) == Bytes16(n)
  {
    Widths();
    TwoBytes(n);
  }

  lemma Put32(n: uint32)
    ensures HasType(IntValue(n), U32) && Put(U32, IntValue(n)) == Bytes32(n)
  {
    Widths();
    FourBytes(n);
  }

  // ---- What the server reads ----

  lemma CameraFrame(peer: PeerId, camera: Camera)
    ensures Frame(IAmCamera(peer, camera))
            == [0x80] + (Bytes16(camera.road) + (Bytes16(camera.mile) + Bytes16(camera.limit)))
  {
    var r, m, l := IntValue(camera.road), IntValue(camera.mile), IntValue(camera.limit);
    Put16(camera.road);
    Put16(camera.mile);
    Put16(camera.limit);
    EncodeOne(U16, l);
    EncodeFirst(U16, m, [U16], [l]);
    EncodeFirst(U16, r, [U16] + [U16], [m] + [l]);
    assert [U16] + ([U16] + [U16]) == [U16, U16, U16] && [r] + ([m] + [l]) == [r, m, l];
  }

  lemma PlateFrame(peer: PeerId, plate: Plate, timestamp: uint32)
    ensures Frame(PlateSeen(peer, plate, timestamp)) == [0x20] + ([|plate| % 256] + plate + Bytes32(timestamp))
  {
    var p, t := TextValue(plate), IntValue(timestamp);
    Put32(timestamp);
    EncodeOne(U32, t);
    EncodeFirst(Text, p, [U32], [t]);
    assert [Text] + [U32] == [Text, U32] && [p] + [t] == [p, t];
  }

  lemma PutRoads(roads: seq<RoadId>)
    ensures Put(Words, WordsValue(roads)) == [|roads| % 256] + RoadBytes(roads)
  {
    RoadsAreWords(roads);
  }

  lemma Joined(opcode: byte, length: byte, bytes: seq<byte>)
    ensures [opcode] + ([length] + bytes) == [opcode, length] + bytes
  {
  }

  /** The frame of a registration, for the encoding of its roads. */
  lemma FrameOfRoads(peer: PeerId, roads: seq<RoadId>, body: seq<byte>)
    requires Put(Words, WordsValue(roads)) == body
    ensures Frame(IAmDispatcher(peer, roads)) == [0x81] + body
  {
    EncodeOne(Words, WordsValue(roads));
    assert ValuesOf(IAmDispatcher(peer, roads)) == [WordsValue(roads)];
    assert FieldsOf(0x81) == [Words];
  }

  lemma DispatcherFrame(peer: PeerId, roads: seq<RoadId>, count: byte)
    requires count == |roads| % 256
    ensures Frame(IAmDispatcher(peer, roads)) == [0x81, count] + RoadBytes(roads)
  {
    PutRoads(roads);
    FrameOfRoads(peer, roads, [count] + RoadBytes(roads));
    Joined(0x81, count, RoadBytes(roads));
  }

  lemma HeartbeatFrame(peer: PeerId, interval: uint32)
    ensures Frame(WantHeartbeat(peer, interval)) == [0x40] + Bytes32(interval)
  {
    Put32(interval);
    EncodeOne(U32, IntValue(interval));
  }

  /** 0x80: road, mile and limit, each of two bytes, the high one first. */
  lemma CameraBytes(peer: PeerId, r: uint16, m: uint16, l: uint16, tail: seq<byte>)
    ensures Posts(peer, [0x80, r / 256, r % 256, m / 256, m % 256, l / 256, l % 256] + tail)
            == [IAmCamera(peer, Camera(r, m, l))] + Posts(peer, tail)
  {
    var camera := Camera(r, m, l);
    CameraFrame(peer, camera);
    PostsFrame(peer, IAmCamera(peer, camera), tail);
    assert Frame(IAmCamera(peer, camera)) == [0x80, r / 256, r % 256, m / 256, m % 256, l / 256, l % 256];
  }

  lemma Flatten(opcode: byte, length: byte, bytes: seq<byte>, more: seq<byte>)
    ensures [opcode] + ([length] + bytes + more) == [opcode, length] + bytes + more
  {
    Joined(opcode, length, bytes);
  }

  lemma PlateFlat(peer: PeerId, plate: Plate, t: uint32)
    requires |plate| <= 255
    ensures Frame(PlateSeen(peer, plate, t))
            == [0x20, |plate|] + plate + [t / 16777216, t / 65536 % 256, t / 256 % 256, t % 256]
  {
    PlateFrame(peer, plate, t);
    Flatten(0x20, |plate|, plate, Bytes32(t));
  }

  /** 0x20: a length byte, the plate, and a timestamp of four bytes. */
  lemma PlateBytes(peer: PeerId, plate: Plate, t: uint32, tail: seq<byte>)
    requires |plate| <= 255
    ensures Posts(peer, [0x20, |plate|] + plate + [t / 16777216, t / 65536 % 256, t / 256 % 256, t % 256] + tail)
            == [PlateSeen(peer, plate, t)] + Posts(peer, tail)
  {
    PlateFlat(peer, plate, t);
    PostsFrame(peer, PlateSeen(peer, plate, t), tail);
  }

  /** 0x81: a count byte, and two bytes for each road. */
  lemma DispatcherBytes(peer: PeerId, roads: seq<RoadId>, tail: seq<byte>)
    requires |roads| <= 255
    ensures Posts(peer, [0x81, |roads|] + RoadBytes(roads) + tail) == [IAmDispatcher(peer, roads)] + Posts(peer, tail)
  {
    DispatcherFrame(peer, roads, |roads|);
    PostsFrame(peer, IAmDispatcher(peer, roads), tail);
  }

  /** 0x40: an interval of four bytes. */
  lemma HeartbeatBytes(peer: PeerId, n: uint32, tail: seq<byte>)
    ensures Posts(peer, [0x40, n / 16777216, n / 65536 % 256, n / 256 % 256, n % 256] + tail)
            == [WantHeartbeat(peer, n)] + Posts(peer, tail)
  {
    HeartbeatFrame(peer, n);
    PostsFrame(peer, WantHeartbeat(peer, n), tail);
    assert Frame(WantHeartbeat(peer, n)) == [0x40, n / 16777216, n / 65536 % 256, n / 256 % 256, n % 256];
  }

  lemma {:induction false} ComplaintsFirst(msg: Message, posted: seq<Message>, frame: seq<byte>)
    ensures Complaints([msg] + posted, frame)
            == (if msg.Unrecognised? then frame else []) + Complaints(posted, frame)
    decreases |posted|
  {
    var all := [msg] + posted;
    if posted == [] {
      assert all[..0] == [];
    } else {
      assert all[..|all| - 1] == [msg] + posted[..|posted| - 1];
      ComplaintsFirst(msg, posted[..|posted| - 1], frame);
    }
  }

  /** Any other first byte is posted as a message without a packet, answered with one error frame, and skipped;
      packets are not answered. */
  lemma OtherBytes(peer: PeerId, b: byte, tail: seq<byte>)
    requires b != 0x20 && b != 0x40 && b != 0x80 && b != 0x81
    ensures Posts(peer, [b] + tail) == [Unrecognised(peer)] + Posts(peer, tail)
    ensures Complaints(Posts(peer, [b] + tail), ErrorFrame())
            == ErrorFrame() + Complaints(Posts(peer, tail), ErrorFrame())
    ensures forall msg: Message :: !msg.Unrecognised? ==>
              Complaints([msg] + Posts(peer, tail), ErrorFrame()) == Complaints(Posts(peer, tail), ErrorFrame())
  {
    assert ([b] + tail)[1..] == tail;
    forall msg: Message
      ensures Complaints([msg] + Posts(peer, tail), ErrorFrame())
              == (if msg.Unrecognised? then ErrorFrame() else []) + Complaints(Posts(peer, tail), ErrorFrame())
    {
      ComplaintsFirst(msg, Posts(peer, tail), ErrorFrame());
    }
  }

  // ---- What the server writes ----

  const COMPLAINT := "received invalid opcode"

  /** The reply to such a byte: 0x10, a length byte and the text. */
  lemma ErrorBytes()
    ensures var frame := ErrorFrame();
            && |frame| == 25 && frame[0] == 0x10 && frame[1] == 23 == |COMPLAINT|
            && forall i :: 0 <= i < |COMPLAINT| ==> frame[2 + i] == COMPLAINT[i] as int
  {
    EncodeOne(Text, TextValue(INVALID_OPCODE));
    assert ErrorFrame() == [0x10] + ([23] + INVALID_OPCODE);
  }

  lemma SecondSighting(t: Ticket)
    ensures var ts, vs := [U16, U32, U16], [IntValue(t.mile2), IntValue(t.timestamp2), IntValue(t.speed)];
            Typed(vs, ts) && Encode(ts, vs) == Bytes16(t.mile2) + (Bytes32(t.timestamp2) + Bytes16(t.speed))
  {
    var m2, t2, v := IntValue(t.mile2), IntValue(t.timestamp2), IntValue(t.speed);
    Put16(t.mile2);
    Put32(t.timestamp2);
    Put16(t.speed);
    EncodeOne(U16, v);
    EncodeFirst(U32, t2, [U16], [v]);
    EncodeFirst(U16, m2, [U32, U16], [t2, v]);
    assert [U32] + [U16] == [U32, U16] && [t2] + [v] == [t2, v];
    assert [U16] + [U32, U16] == [U16, U32, U16] && [m2] + [t2, v] == [m2, t2, v];
  }

  lemma FirstSighting(t: Ticket, ts: seq<FieldType>, vs: seq<Value>)
    requires Typed(vs, ts)
    ensures var r, m1, t1 := IntValue(t.road), IntValue(t.mile1), IntValue(t.timestamp1);
            && Typed([r, m1, t1] + vs, [U16, U16, U32] + ts)
            && Encode([U16, U16, U32] + ts, [r, m1, t1] + vs)
               == Bytes16(t.road) + (Bytes16(t.mile1) + (Bytes32(t.timestamp1) + Encode(ts, vs)))
  {
    var r, m1, t1 := IntValue(t.road), IntValue(t.mile1), IntValue(t.timestamp1);
    Put16(t.road);
    Put16(t.mile1);
    Put32(t.timestamp1);
    EncodeFirst(U32, t1, ts, vs);
    EncodeFirst(U16, m1, [U32] + ts, [t1] + vs);
    EncodeFirst(U16, r, [U16] + ([U32] + ts), [m1] + ([t1] + vs));
    assert [U16] + ([U16] + ([U32] + ts)) == [U16, U16, U32] + ts;
    assert [r] + ([m1] + ([t1] + vs)) == [r, m1, t1] + vs;
  }

  /** A ticket: 0x21, a length byte and the plate, the road, the two sightings, earlier first, each with its mile
      and its timestamp, and the speed. */
  lemma TicketBytes(t: Ticket)
    ensures [TICKET] + Encode(FieldsOf(TICKET), TicketValues(t))
            == [0x21] + (([|t.plate| % 256] + t.plate)
               + (Bytes16(t.road) + (Bytes16(t.mile1) + (Bytes32(t.timestamp1) + (Bytes16(t.mile2)
                  + (Bytes32(t.timestamp2) + Bytes16(t.speed)))))))
  {
    var p := TextValue(t.plate);
    var ts, vs := [U16, U32, U16], [IntValue(t.mile2), IntValue(t.timestamp2), IntValue(t.speed)];
    var front, values := [U16, U16, U32], [IntValue(t.road), IntValue(t.mile1), IntValue(t.timestamp1)];
    SecondSighting(t);
    FirstSighting(t, ts, vs);
    EncodeFirst(Text, p, front + ts, values + vs);
    assert FieldsOf(TICKET) == [Text] + (front + ts) && TicketValues(t) == [p] + (values + vs);
  }
}
