/** handlingServer as a sequential machine: one message, one step. */
module TicketMachine {
  import opened Prelude
  import opened TicketDesk

  datatype Reading = Reading(plate: Plate, timestamp: uint32, road: RoadId, mile: uint16)

  /** A reading together with the limit of the camera that reported it. */
  datatype Observation = Observation(reading: Reading, limit: uint16)

  /** The floating-point part of the speed computation, left open. Its input is what the source converts to
      float32: the distance times 3600 and the time difference. */
  datatype Meter = Meter(over: (int, int, int) -> bool, centi: (int, int) -> uint16)

  datatype Message =
    | Connected(peer: PeerId)
    | Disconnected(peer: PeerId)
    | IAmCamera(peer: PeerId, camera: Camera)
    | IAmDispatcher(peer: PeerId, roads: seq<RoadId>)
    | PlateSeen(peer: PeerId, plate: Plate, timestamp: uint32)
    | WantHeartbeat(peer: PeerId, interval: uint32)
    | Unrecognised(peer: PeerId)

  /** The server's variables, and two history variables no step reads: every reading a camera ever
      reported, and every ticket ever issued. */
  datatype State = State(
    desk: Desk,
    readings: map<Plate, seq<Reading>>,
    ticketed: map<int, set<Plate>>,
    seen: seq<Observation>,
    issued: seq<Ticket>)

  const START := State(CLOSED_DESK, map[], map[], [], [])

  const DAY := 86400

  function Day(timestamp: uint32): nat {
    timestamp / DAY
  }

  function Earlier(old_: Reading, new_: Reading): Reading {
    if old_.timestamp < new_.timestamp then old_ else new_
  }

  function Later(old_: Reading, new_: Reading): Reading {
    if old_.timestamp < new_.timestamp then new_ else old_
  }

  function Distance(a: Reading, b: Reading): nat {
    if a.mile < b.mile then b.mile - a.mile else a.mile - b.mile
  }

  /** The two readings are of one road, at different places and times, and too fast for the limit. */
  predicate Speeding(m: Meter, old_: Reading, new_: Reading, limit: uint16) {
    && old_.road == new_.road
    && Distance(old_, new_) != 0
    && old_.timestamp != new_.timestamp
    && m.over(Distance(old_, new_) * 3600, Later(old_, new_).timestamp - Earlier(old_, new_).timestamp, limit)
  }

  function TicketFor(m: Meter, old_: Reading, new_: Reading): Ticket {
    var prev, current := Earlier(old_, new_), Later(old_, new_);
    Ticket(current.plate, new_.road, prev.mile, prev.timestamp, current.mile, current.timestamp,
           m.centi(Distance(old_, new_) * 3600, current.timestamp - prev.timestamp))
  }

  predicate IsTicketed(ticketed: map<int, set<Plate>>, day: int, plate: Plate) {
    day in ticketed && plate in ticketed[day]
  }

  function Blocked(ticketed: map<int, set<Plate>>, plate: Plate): set<int> {
    set d | d in ticketed && plate in ticketed[d]
  }

  predicate SpanFree(blocked: set<int>, lo: int, hi: int) {
    forall d | lo <= d <= hi :: d !in blocked
  }

  predicate Hit(m: Meter, blocked: set<int>, old_: Reading, new_: Reading, limit: uint16) {
    && SpanFree(blocked, Day(Earlier(old_, new_).timestamp), Day(Later(old_, new_).timestamp))
    && Speeding(m, old_, new_, limit)
  }

  /** The first stored reading that makes a ticket with the new one. */
  function FirstHit(m: Meter, blocked: set<int>, list: seq<Reading>, new_: Reading, limit: uint16): Option<Reading> {
    if list == [] then None
    else if Hit(m, blocked, list[0], new_, limit) then Some(list[0])
    else FirstHit(m, blocked, list[1..], new_, limit)
  }

  function Days(lo: int, hi: int): (days: set<int>)
    ensures forall d :: d in days <==> lo <= d <= hi
    decreases hi - lo
  {
    if lo > hi then {} else {lo} + Days(lo + 1, hi)
  }

  /** Every day from lo to hi is recorded for the plate, all else stays. */
  function Mark(ticketed: map<int, set<Plate>>, plate: Plate, lo: int, hi: int): map<int, set<Plate>> {
    map d | d in ticketed.Keys + Days(lo, hi) ::
      (if d in ticketed then ticketed[d] else {}) + (if lo <= d <= hi then {plate} else {})
  }

  /** The clean-up loop: after each removal the reading that moved into the gap is passed over. */
  function Cleanup(list: seq<Reading>, blocked: set<int>): seq<Reading> {
    if list == [] then []
    else if Day(list[0].timestamp) !in blocked then [list[0]] + Cleanup(list[1..], blocked)
    else if |list| == 1 then []
    else [list[1]] + Cleanup(list[2..], blocked)
  }

  function Issue(m: Meter, s: State, ticket: Ticket): State {
    s.(desk := HandOut(s.desk, ticket),
       ticketed := Mark(s.ticketed, ticket.plate, Day(ticket.timestamp1), Day(ticket.timestamp2)),
       issued := s.issued + [ticket])
  }

  /** The scan and the clean-up, with the new reading already at the end of the list. */
  function Examine(m: Meter, s: State, list: seq<Reading>, limit: uint16): State
    requires list != []
  {
    var new_ := list[|list| - 1];
    var s1 := match FirstHit(m, Blocked(s.ticketed, new_.plate), list[..|list| - 1], new_, limit)
      case None => s
      case Some(old_) => Issue(m, s, TicketFor(m, old_, new_));
    s1.(readings := s1.readings[new_.plate := Cleanup(list, Blocked(s1.ticketed, new_.plate))])
  }

  function PlateStep(m: Meter, s: State, peer: PeerId, plate: Plate, timestamp: uint32): State {
    if peer !in s.desk.cameras then
      s.(desk := Refuse(s.desk, peer, NotACamera))
    else
      var camera := s.desk.cameras[peer];
      var new_ := Reading(plate, timestamp, camera.road, camera.mile);
      var s0 := s.(seen := s.seen + [Observation(new_, camera.limit)]);
      if IsTicketed(s.ticketed, Day(timestamp), plate) then s0
      else
        var list := At(s.readings, plate) + [new_];
        if |list| < 2 then s0.(readings := s.readings[plate := list])
        else Examine(m, s0, list, camera.limit)
  }

  function DeskStep(d: Desk, msg: Message): Desk {
    match msg
    case Connected(peer) => Connect(d, peer)
    case Disconnected(peer) => Disconnect(d, peer)
    case IAmCamera(peer, camera) => RegisterCamera(d, peer, camera)
    case IAmDispatcher(peer, roads) => RegisterDispatcher(d, peer, roads)
    case PlateSeen(_, _, _) => d
    case WantHeartbeat(_, _) => d
    case Unrecognised(_) => d
  }

  function Step(m: Meter, s: State, msg: Message): State {
    if msg.PlateSeen? then PlateStep(m, s, msg.peer, msg.plate, msg.timestamp)
    else s.(desk := DeskStep(s.desk, msg))
  }

  /** The state after a run of messages. */
  function Run(m: Meter, msgs: seq<Message>): State {
    if msgs == [] then START
    else Step(m, Run(m, msgs[..|msgs| - 1]), msgs[|msgs| - 1])
  }
}

/** The reference: a server that keeps every reading for ever, never skips a message early, and decides
    from the issued tickets alone. The running server refines it. */
module TicketReference {
  import opened Prelude
  import opened TicketDesk
  import opened TicketMachine

  datatype Naive = Naive(desk: Desk, seen: seq<Observation>, issued: seq<Ticket>)

  /** No ticket of the plate touches the days lo..hi. */
  ghost predicate Untouched(issued: seq<Ticket>, plate: Plate, lo: int, hi: int) {
    forall i :: 0 <= i < |issued| && issued[i].plate == plate ==>
      hi < Day(issued[i].timestamp1) || Day(issued[i].timestamp2) < lo
  }

  ghost predicate Pairs(m: Meter, issued: seq<Ticket>, old_: Reading, new_: Reading, limit: uint16) {
    && old_.plate == new_.plate
    && Speeding(m, old_, new_, limit)
    && Untouched(issued, new_.plate, Day(Earlier(old_, new_).timestamp), Day(Later(old_, new_).timestamp))
  }

  ghost function FirstPair(m: Meter, seen: seq<Observation>, issued: seq<Ticket>, new_: Reading, limit: uint16)
    : Option<Reading>
  {
    if seen == [] then None
    else if Pairs(m, issued, seen[0].reading, new_, limit) then Some(seen[0].reading)
    else FirstPair(m, seen[1..], issued, new_, limit)
  }

  ghost function NaivePlate(m: Meter, n: Naive, peer: PeerId, plate: Plate, timestamp: uint32): Naive {
    if peer !in n.desk.cameras then
      n.(desk := Refuse(n.desk, peer, NotACamera))
    else
      var camera := n.desk.cameras[peer];
      var new_ := Reading(plate, timestamp, camera.road, camera.mile);
      var n0 := n.(seen := n.seen + [Observation(new_, camera.limit)]);
      match FirstPair(m, n.seen, n.issued, new_, camera.limit)
      case None => n0
      case Some(old_) =>
        var ticket := TicketFor(m, old_, new_);
        n0.(desk := HandOut(n.desk, ticket), issued := n.issued + [ticket])
  }

  ghost function NaiveStep(m: Meter, n: Naive, msg: Message): Naive {
    if msg.PlateSeen? then NaivePlate(m, n, msg.peer, msg.plate, msg.timestamp)
    else n.(desk := DeskStep(n.desk, msg))
  }

  ghost function NaiveRun(m: Meter, msgs: seq<Message>): Naive {
    if msgs == [] then Naive(CLOSED_DESK, [], [])
    else NaiveStep(m, NaiveRun(m, msgs[..|msgs| - 1]), msgs[|msgs| - 1])
  }

  // ---- The simulation invariant ----

  ghost predicate Covers(t: Ticket, plate: Plate, day: int) {
    t.plate == plate && Day(t.timestamp1) <= day <= Day(t.timestamp2)
  }

  ghost predicate Covered(issued: seq<Ticket>, plate: Plate, day: int) {
    exists i :: 0 <= i < |issued| && Covers(issued[i], plate, day)
  }

  /** The day index is exactly the union of the spans of the issued tickets. */
  ghost predicate IndexExact(ticketed: map<int, set<Plate>>, issued: seq<Ticket>) {
    forall day, plate :: IsTicketed(ticketed, day, plate) <==> Covered(issued, plate, day)
  }

  ghost predicate TicketsOrdered(issued: seq<Ticket>) {
    forall i :: 0 <= i < |issued| ==> issued[i].timestamp1 < issued[i].timestamp2
  }

  function OfPlate(seen: seq<Observation>, plate: Plate): seq<Reading> {
    if seen == [] then []
    else (if seen[0].reading.plate == plate then [seen[0].reading] else []) + OfPlate(seen[1..], plate)
  }

  /** The readings on days without a ticket. */
  function Open(list: seq<Reading>, blocked: set<int>): seq<Reading> {
    if list == [] then []
    else (if Day(list[0].timestamp) !in blocked then [list[0]] else []) + Open(list[1..], blocked)
  }

  ghost predicate Labelled(readings: map<Plate, seq<Reading>>) {
    forall plate, i :: plate in readings && 0 <= i < |readings[plate]| ==> readings[plate][i].plate == plate
  }

  /** On the days without a ticket the pruned log and the full history hold the same readings in the same order. */
  ghost predicate LogAgrees(s: State) {
    forall plate: Plate ::
      Open(At(s.readings, plate), Blocked(s.ticketed, plate))
      == Open(OfPlate(s.seen, plate), Blocked(s.ticketed, plate))
  }

  ghost predicate Simulates(s: State) {
    && IndexExact(s.ticketed, s.issued)
    && TicketsOrdered(s.issued)
    && Labelled(s.readings)
    && LogAgrees(s)
  }

  // ---- List lemmas ----

  lemma BlockedGrows(a: map<int, set<Plate>>, b: map<int, set<Plate>>, plate: Plate)
    requires forall d :: IsTicketed(a, d, plate) ==> IsTicketed(b, d, plate)
    ensures Blocked(a, plate) <= Blocked(b, plate)
  {
    forall d | d in Blocked(a, plate)
      ensures d in Blocked(b, plate)
    {
      assert IsTicketed(a, d, plate);
    }
  }

  lemma {:induction false} OpenConcat(a: seq<Reading>, b: seq<Reading>, blocked: set<int>)
    ensures Open(a + b, blocked) == Open(a, blocked) + Open(b, blocked)
    decreases |a|
  {
    if a == [] {
      assert a + b == b;
    } else {
      assert (a + b)[1..] == a[1..] + b;
      OpenConcat(a[1..], b, blocked);
    }
  }

  lemma {:induction false} OfPlateConcat(a: seq<Observation>, b: seq<Observation>, plate: Plate)
    ensures OfPlate(a + b, plate) == OfPlate(a, plate) + OfPlate(b, plate)
    decreases |a|
  {
    if a == [] {
      assert a + b == b;
    } else {
      var first := if a[0].reading.plate == plate then [a[0].reading] else [];
      var x, y := OfPlate(a[1..], plate), OfPlate(b, plate);
      assert (a + b)[0] == a[0] && (a + b)[1..] == a[1..] + b;
      OfPlateConcat(a[1..], b, plate);
      assert first + (x + y) == first + x + y;
    }
  }

  /** Blocking more days only removes more readings. */
  lemma {:induction false} OpenAgain(list: seq<Reading>, blocked: set<int>, more: set<int>)
    requires blocked <= more
    ensures Open(Open(list, blocked), more) == Open(list, more)
    decreases |list|
  {
    if list != [] {
      OpenAgain(list[1..], blocked, more);
      var rest := Open(list[1..], blocked);
      if Day(list[0].timestamp) !in blocked {
        assert ([list[0]] + rest)[1..] == rest;
      } else {
        assert Open(list, blocked) == rest;
      }
    }
  }

  /** However the clean-up skips, it drops readings on ticketed days only. */
  lemma {:induction false} CleanupKeepsOpen(list: seq<Reading>, blocked: set<int>)
    ensures Open(Cleanup(list, blocked), blocked) == Open(list, blocked)
    decreases |list|
  {
    if list != [] {
      if Day(list[0].timestamp) !in blocked {
        CleanupKeepsOpen(list[1..], blocked);
        assert Cleanup(list, blocked)[1..] == Cleanup(list[1..], blocked);
      } else if |list| > 1 {
        CleanupKeepsOpen(list[2..], blocked);
        assert Cleanup(list, blocked)[1..] == Cleanup(list[2..], blocked);
        assert list[1..][1..] == list[2..];
      }
    }
  }

  /** How many of the readings are on ticketed days. */
  function OnTicketedDays(list: seq<Reading>, blocked: set<int>): nat {
    if list == [] then 0
    else (if list[0].timestamp / 86400 in blocked then 1 else 0) + OnTicketedDays(list[1..], blocked)
  }

  /** And it drops at least half of those. */
  lemma {:induction false} CleanupDropsHalf(list: seq<Reading>, blocked: set<int>)
    ensures 2 * OnTicketedDays(Cleanup(list, blocked), blocked) <= OnTicketedDays(list, blocked)
    decreases |list|
  {
    if list != [] {
      if Day(list[0].timestamp) !in blocked {
        CleanupDropsHalf(list[1..], blocked);
        assert Cleanup(list, blocked)[1..] == Cleanup(list[1..], blocked);
      } else if |list| > 1 {
        CleanupDropsHalf(list[2..], blocked);
        assert Cleanup(list, blocked)[1..] == Cleanup(list[2..], blocked);
        assert list[1..][1..] == list[2..];
      }
    }
  }

  lemma {:induction false} CleanupKeepsLabels(list: seq<Reading>, blocked: set<int>, plate: Plate)
    requires forall i :: 0 <= i < |list| ==> list[i].plate == plate
    ensures forall i :: 0 <= i < |Cleanup(list, blocked)| ==> Cleanup(list, blocked)[i].plate == plate
    decreases |list|
  {
    if list != [] {
      if Day(list[0].timestamp) !in blocked {
        CleanupKeepsLabels(list[1..], blocked, plate);
      } else if |list| > 1 {
        CleanupKeepsLabels(list[2..], blocked, plate);
      }
    }
  }

  /** A reading on a ticketed day never makes a pair, so the scan may ignore it. */
  lemma {:induction false} FirstHitOfOpen(m: Meter, blocked: set<int>, list: seq<Reading>, new_: Reading, limit: uint16)
    ensures FirstHit(m, blocked, list, new_, limit) == FirstHit(m, blocked, Open(list, blocked), new_, limit)
    decreases |list|
  {
    if list != [] {
      FirstHitOfOpen(m, blocked, list[1..], new_, limit);
      if Day(list[0].timestamp) !in blocked {
        assert Open(list, blocked)[1..] == Open(list[1..], blocked);
      } else {
        DayOrder(list[0], new_);
        assert !Hit(m, blocked, list[0], new_, limit);
        assert Open(list, blocked) == Open(list[1..], blocked);
      }
    }
  }

  lemma DayMonotone(a: uint32, b: uint32)
    requires a <= b
    ensures Day(a) <= Day(b)
  {
  }

  lemma DayOrder(a: Reading, b: Reading)
    ensures Day(Earlier(a, b).timestamp) <= Day(a.timestamp) <= Day(Later(a, b).timestamp)
    ensures Day(Earlier(a, b).timestamp) <= Day(b.timestamp) <= Day(Later(a, b).timestamp)
  {
  }

  /** Interval tests against the tickets and day tests against the index agree. */
  lemma SpansAgree(issued: seq<Ticket>, plate: Plate, blocked: set<int>, lo: int, hi: int)
    requires forall d :: d in blocked <==> Covered(issued, plate, d)
    requires TicketsOrdered(issued) && lo <= hi
    ensures Untouched(issued, plate, lo, hi) <==> SpanFree(blocked, lo, hi)
  {
    if SpanFree(blocked, lo, hi) {
      forall i | 0 <= i < |issued| && issued[i].plate == plate
        ensures hi < Day(issued[i].timestamp1) || Day(issued[i].timestamp2) < lo
      {
        var first := Day(issued[i].timestamp1);
        var d := if first < lo then lo else first;
        DayMonotone(issued[i].timestamp1, issued[i].timestamp2);
        assert Covers(issued[i], plate, d) ==> d in blocked;
      }
    }
  }

  lemma {:induction false} ScansAgree(m: Meter, seen: seq<Observation>, issued: seq<Ticket>, blocked: set<int>,
                                      new_: Reading, limit: uint16)
    requires forall d :: d in blocked <==> Covered(issued, new_.plate, d)
    requires TicketsOrdered(issued)
    ensures FirstPair(m, seen, issued, new_, limit) == FirstHit(m, blocked, OfPlate(seen, new_.plate), new_, limit)
    decreases |seen|
  {
    if seen != [] {
      var first := seen[0].reading;
      ScansAgree(m, seen[1..], issued, blocked, new_, limit);
      if first.plate == new_.plate {
        DayOrder(first, new_);
        SpansAgree(issued, new_.plate, blocked, Day(Earlier(first, new_).timestamp), Day(Later(first, new_).timestamp));
        assert OfPlate(seen, new_.plate)[0] == first;
        assert OfPlate(seen, new_.plate)[1..] == OfPlate(seen[1..], new_.plate);
      } else {
        assert OfPlate(seen, new_.plate) == OfPlate(seen[1..], new_.plate);
      }
    }
  }

  // ---- The simulation ----

  lemma MarkCovers(s: State, t: Ticket)
    requires IndexExact(s.ticketed, s.issued)
    ensures IndexExact(Mark(s.ticketed, t.plate, Day(t.timestamp1), Day(t.timestamp2)), s.issued + [t])
  {
    var issued := s.issued + [t];
    var ticketed := Mark(s.ticketed, t.plate, Day(t.timestamp1), Day(t.timestamp2));
    forall day, plate
      ensures IsTicketed(ticketed, day, plate) <==> Covered(issued, plate, day)
    {
      assert IsTicketed(ticketed, day, plate) <==> IsTicketed(s.ticketed, day, plate) || Covers(t, plate, day);
      if Covered(s.issued, plate, day) {
        var i :| 0 <= i < |s.issued| && Covers(s.issued[i], plate, day);
        assert Covers(issued[i], plate, day);
      }
      if Covers(t, plate, day) {
        assert Covers(issued[|s.issued|], plate, day);
      }
    }
  }

  /** Blocking more days keeps the logs in agreement. */
  lemma AgreeUnderMore(a: seq<Reading>, b: seq<Reading>, blocked: set<int>, more: set<int>)
    requires blocked <= more && Open(a, blocked) == Open(b, blocked)
    ensures Open(a, more) == Open(b, more)
  {
    OpenAgain(a, blocked, more);
    OpenAgain(b, blocked, more);
  }

  /** Both machines pick the same earlier reading. */
  lemma SamePick(m: Meter, s: State, new_: Reading, limit: uint16)
    requires Simulates(s)
    ensures FirstPair(m, s.seen, s.issued, new_, limit) ==
            FirstHit(m, Blocked(s.ticketed, new_.plate), At(s.readings, new_.plate), new_, limit)
  {
    var blocked := Blocked(s.ticketed, new_.plate);
    ScansAgree(m, s.seen, s.issued, blocked, new_, limit);
    FirstHitOfOpen(m, blocked, OfPlate(s.seen, new_.plate), new_, limit);
    FirstHitOfOpen(m, blocked, At(s.readings, new_.plate), new_, limit);
  }

  /** On a ticketed day there is nothing to pick: the early skip loses nothing. */
  lemma {:induction false} NoPairOnTicketedDay(m: Meter, blocked: set<int>, list: seq<Reading>, new_: Reading,
                                               limit: uint16)
    requires Day(new_.timestamp) in blocked
    ensures FirstHit(m, blocked, list, new_, limit) == None
    decreases |list|
  {
    if list != [] {
      DayOrder(list[0], new_);
      NoPairOnTicketedDay(m, blocked, list[1..], new_, limit);
    }
  }

  lemma SeenGrows(s: State, o: Observation, plate: Plate)
    ensures OfPlate(s.seen + [o], plate) ==
            if o.reading.plate == plate then OfPlate(s.seen, plate) + [o.reading] else OfPlate(s.seen, plate)
  {
    OfPlateConcat(s.seen, [o], plate);
  }

  /** The log after the new reading is appended agrees with the grown history. */
  lemma AppendAgrees(s: State, o: Observation, blocked: set<int>)
    requires LogAgrees(s) && blocked >= Blocked(s.ticketed, o.reading.plate)
    ensures var plate := o.reading.plate;
            Open(At(s.readings, plate) + [o.reading], blocked) == Open(OfPlate(s.seen + [o], plate), blocked)
  {
    var plate := o.reading.plate;
    SeenGrows(s, o, plate);
    AgreeUnderMore(At(s.readings, plate), OfPlate(s.seen, plate), Blocked(s.ticketed, plate), blocked);
    OpenConcat(At(s.readings, plate), [o.reading], blocked);
    OpenConcat(OfPlate(s.seen, plate), [o.reading], blocked);
  }

  /** The log of every other plate is untouched by a step on this one. */
  lemma OtherPlates(s: State, s': State, o: Observation, plate: Plate)
    requires LogAgrees(s) && plate != o.reading.plate
    requires s'.seen == s.seen + [o] && At(s'.readings, plate) == At(s.readings, plate)
    requires forall d :: IsTicketed(s'.ticketed, d, plate) <==> IsTicketed(s.ticketed, d, plate)
    ensures Open(At(s'.readings, plate), Blocked(s'.ticketed, plate)) ==
            Open(OfPlate(s'.seen, plate), Blocked(s'.ticketed, plate))
  {
    SeenGrows(s, o, plate);
    BlockedGrows(s.ticketed, s'.ticketed, plate);
    BlockedGrows(s'.ticketed, s.ticketed, plate);
    assert Blocked(s'.ticketed, plate) == Blocked(s.ticketed, plate);
    assert OfPlate(s'.seen, plate) == OfPlate(s.seen, plate);
  }

  /** The early skip drops the reading from the log; the history that keeps it still agrees. */
  lemma SkipAgrees(s: State, o: Observation)
    requires LogAgrees(s) && IsTicketed(s.ticketed, Day(o.reading.timestamp), o.reading.plate)
    ensures LogAgrees(s.(seen := s.seen + [o]))
  {
    var s' := s.(seen := s.seen + [o]);
    forall plate: Plate
      ensures Open(At(s'.readings, plate), Blocked(s'.ticketed, plate)) ==
              Open(OfPlate(s'.seen, plate), Blocked(s'.ticketed, plate))
    {
      SeenGrows(s, o, plate);
      var blocked := Blocked(s.ticketed, plate);
      assert Open(At(s.readings, plate), blocked) == Open(OfPlate(s.seen, plate), blocked);
      OpenConcat(OfPlate(s.seen, plate), [o.reading], blocked);
      if plate == o.reading.plate {
        assert Open([o.reading], blocked) == [];
      }
    }
  }

  /** The whole effect of the scan on the log: s1 has the (possibly) grown index. */
  lemma ExamineAgrees(s: State, s1: State, o: Observation)
    requires Simulates(s)
    requires s1.readings == s.readings && s1.seen == s.seen + [o]
    requires forall d, plate :: IsTicketed(s.ticketed, d, plate) ==> IsTicketed(s1.ticketed, d, plate)
    requires forall d, plate :: plate != o.reading.plate && IsTicketed(s1.ticketed, d, plate) ==>
               IsTicketed(s.ticketed, d, plate)
    ensures var plate := o.reading.plate;
            var list := At(s.readings, plate) + [o.reading];
            var cleaned := s1.(readings := s1.readings[plate := Cleanup(list, Blocked(s1.ticketed, plate))]);
            var kept := s1.(readings := s1.readings[plate := list]);
            Labelled(cleaned.readings) && LogAgrees(cleaned) && Labelled(kept.readings) && LogAgrees(kept)
  {
    var plate := o.reading.plate;
    var list := At(s.readings, plate) + [o.reading];
    var blocked := Blocked(s1.ticketed, plate);
    var cleaned := s1.(readings := s1.readings[plate := Cleanup(list, blocked)]);
    var kept := s1.(readings := s1.readings[plate := list]);
    CleanupKeepsLabels(list, blocked, plate);
    CleanupKeepsOpen(list, blocked);
    BlockedGrows(s.ticketed, s1.ticketed, plate);
    AppendAgrees(s, o, blocked);
    forall p: Plate
      ensures Open(At(cleaned.readings, p), Blocked(s1.ticketed, p))
              == Open(OfPlate(s1.seen, p), Blocked(s1.ticketed, p))
      ensures Open(At(kept.readings, p), Blocked(s1.ticketed, p)) == Open(OfPlate(s1.seen, p), Blocked(s1.ticketed, p))
    {
      if p != plate {
        OtherPlates(s, cleaned, o, p);
        OtherPlates(s, kept, o, p);
      }
    }
  }

  /** The running server and the reference agree on everything a client can see. */
  ghost predicate SameBooks(s: State, n: Naive) {
    s.desk == n.desk && s.seen == n.seen && s.issued == n.issued
  }

  lemma HitIsFound(m: Meter, blocked: set<int>, list: seq<Reading>, new_: Reading, limit: uint16)
    ensures var pick := FirstHit(m, blocked, list, new_, limit);
            pick.Some? ==> pick.value in list && Hit(m, blocked, pick.value, new_, limit)
  {
  }

  /** The scan, for a new reading on an open day. */
  lemma ExamineSimulates(m: Meter, s: State, o: Observation)
    requires Simulates(s) && At(s.readings, o.reading.plate) != []
    ensures var plate := o.reading.plate;
            var s' := Examine(m, s.(seen := s.seen + [o]), At(s.readings, plate) + [o.reading], o.limit);
            && Simulates(s') && s'.seen == s.seen + [o]
            && match FirstPair(m, s.seen, s.issued, o.reading, o.limit)
               case None => s'.desk == s.desk && s'.issued == s.issued
               case Some(old_) =>
                 var t := TicketFor(m, old_, o.reading);
                 s'.desk == HandOut(s.desk, t) && s'.issued == s.issued + [t]
  {
    var new_, plate := o.reading, o.reading.plate;
    var stored, blocked := At(s.readings, plate), Blocked(s.ticketed, plate);
    var s0, list := s.(seen := s.seen + [o]), stored + [new_];
    assert list[..|list| - 1] == stored;
    SamePick(m, s, new_, o.limit);
    HitIsFound(m, blocked, stored, new_, o.limit);
    match FirstHit(m, blocked, stored, new_, o.limit)
    case None => ExamineAgrees(s, s0, o);
    case Some(old_) =>
      var t := TicketFor(m, old_, new_);
      var i :| 0 <= i < |stored| && stored[i] == old_;
      assert s.readings[plate][i].plate == plate;
      MarkCovers(s, t);
      ExamineAgrees(s, Issue(m, s0, t), o);
      assert TicketsOrdered(s.issued + [t]);
  }

  lemma PlateSimulates(m: Meter, s: State, n: Naive, peer: PeerId, plate: Plate, timestamp: uint32)
    requires Simulates(s) && SameBooks(s, n)
    ensures var s' := PlateStep(m, s, peer, plate, timestamp);
            Simulates(s') && SameBooks(s', NaivePlate(m, n, peer, plate, timestamp))
  {
    if peer in s.desk.cameras {
      var camera := s.desk.cameras[peer];
      var new_ := Reading(plate, timestamp, camera.road, camera.mile);
      var o := Observation(new_, camera.limit);
      if IsTicketed(s.ticketed, Day(timestamp), plate) {
        SamePick(m, s, new_, camera.limit);
        NoPairOnTicketedDay(m, Blocked(s.ticketed, plate), At(s.readings, plate), new_, camera.limit);
        SkipAgrees(s, o);
      } else if At(s.readings, plate) == [] {
        SamePick(m, s, new_, camera.limit);
        ExamineAgrees(s, s.(seen := s.seen + [o]), o);
      } else {
        ExamineSimulates(m, s, o);
      }
    } else {
      assert LogAgrees(PlateStep(m, s, peer, plate, timestamp)) by { assert LogAgrees(s); }
    }
  }

  lemma StepSimulates(m: Meter, s: State, n: Naive, msg: Message)
    requires Simulates(s) && SameBooks(s, n)
    ensures Simulates(Step(m, s, msg)) && SameBooks(Step(m, s, msg), NaiveStep(m, n, msg))
  {
    if msg.PlateSeen? {
      PlateSimulates(m, s, n, msg.peer, msg.plate, msg.timestamp);
    } else {
      assert LogAgrees(Step(m, s, msg)) by { assert LogAgrees(s); }
    }
  }

  /** Early skip, pruned log and break on the first ticket change nothing: in every run, for every speed
      test, the server issues the same tickets and makes the same writes as the reference. */
  lemma {:induction false} Refinement(m: Meter, msgs: seq<Message>)
    ensures Simulates(Run(m, msgs)) && SameBooks(Run(m, msgs), NaiveRun(m, msgs))
    decreases |msgs|
  {
    if msgs == [] {
      assert LogAgrees(START);
    } else {
      Refinement(m, msgs[..|msgs| - 1]);
      StepSimulates(m, Run(m, msgs[..|msgs| - 1]), NaiveRun(m, msgs[..|msgs| - 1]), msgs[|msgs| - 1]);
    }
  }
}
