/** handlingServer itself: the loop's variables as fields, its branches as methods, each proved to be
    the machine's step. */
module TrafficServers {
  import opened Prelude
  import opened Balancers
  import opened TicketDesk
  import opened TicketMachine
  import opened TicketReference

  ghost predicate Separate(balancers: map<RoadId, Balancer<PeerId>>) {
    forall a, b :: a in balancers && b in balancers && a != b ==> balancers[a] != balancers[b]
  }

  ghost predicate RingsOk(rings: map<RoadId, Ring<PeerId>>) {
    forall road :: road in rings ==> Balancers.Valid(rings[road])
  }

  lemma IncludingOk(rings: map<RoadId, Ring<PeerId>>, road: RoadId, peer: PeerId)
    requires RingsOk(rings) && road in rings
    ensures RingsOk(rings[road := Included(rings[road], peer)])
  {
    ApplyKeepsValid(rings[road], Add(peer));
  }

  lemma ExcludingOk(rings: map<RoadId, Ring<PeerId>>, road: RoadId, peer: PeerId)
    requires RingsOk(rings) && road in rings
    ensures RingsOk(rings[road := Excluded(rings[road], peer)])
  {
    ApplyKeepsValid(rings[road], Remove(peer));
  }

  /** Halfway through a disconnect: the roads still to visit are as they were, the others are done. */
  ghost predicate Leaving(start: map<RoadId, Ring<PeerId>>, now: map<RoadId, Ring<PeerId>>, left: set<RoadId>,
                          peer: PeerId) {
    && left <= now.Keys <= start.Keys
    && (forall r :: r in left ==> now[r] == start[r])
    && (forall r :: r in start && r !in left ==> (r in now <==> Excluded(start[r], peer).items != []))
    && (forall r :: r in now && r !in left ==> now[r] == Excluded(start[r], peer))
  }

  function WithoutOn(rings: map<RoadId, Ring<PeerId>>, road: RoadId, peer: PeerId): map<RoadId, Ring<PeerId>>
    requires road in rings
  {
    var ring := Excluded(rings[road], peer);
    if ring.items == [] then rings - {road} else rings[road := ring]
  }

  lemma LeavingNext(start: map<RoadId, Ring<PeerId>>, now: map<RoadId, Ring<PeerId>>, left: set<RoadId>,
                    road: RoadId, peer: PeerId)
    requires Leaving(start, now, left, peer) && road in left
    ensures Leaving(start, WithoutOn(now, road, peer), left - {road}, peer)
  {
  }

  lemma LeavingDone(start: map<RoadId, Ring<PeerId>>, now: map<RoadId, Ring<PeerId>>, peer: PeerId)
    requires Leaving(start, now, {}, peer)
    ensures now == Without(start, peer)
  {
  }

  lemma MarkNothing(ticketed: map<int, set<Plate>>, plate: Plate, lo: int, hi: int)
    requires lo > hi
    ensures Mark(ticketed, plate, lo, hi) == ticketed
  {
    forall d | d in ticketed
      ensures Mark(ticketed, plate, lo, hi)[d] == ticketed[d]
    {
      assert ticketed[d] + {} == ticketed[d];
    }
  }

  lemma MarkNext(ticketed: map<int, set<Plate>>, plate: Plate, lo: int, hi: int)
    requires lo <= hi
    ensures var sofar := Mark(ticketed, plate, lo, hi - 1);
            Mark(ticketed, plate, lo, hi) == sofar[hi := (if hi in sofar then sofar[hi] else {}) + {plate}]
  {
    var sofar := Mark(ticketed, plate, lo, hi - 1);
    var next := Mark(ticketed, plate, lo, hi);
    forall d | d in next
      ensures next[d] == (if d in sofar then sofar[d] else {}) + (if d == hi then {plate} else {})
    {
    }
  }

  /** The fixed-width arithmetic of the comparison is exact for any two readings: neither subtraction borrows
      and the product fits 32 bits. */
  lemma NoWrapAround(a: Reading, b: Reading)
    ensures var prev, current := Earlier(a, b), Later(a, b);
            && Distance(a, b) == (if prev.mile < current.mile then ToUint16(current.mile - prev.mile)
                                  else ToUint16(prev.mile - current.mile))
            && ToUint32(Distance(a, b) * 3600) == Distance(a, b) * 3600
            && ToUint32(current.timestamp - prev.timestamp) == current.timestamp - prev.timestamp
  {
  }

  /** One round of the clean-up loop leaves the same readings to come out of it. */
  lemma CleanupRound(readings: seq<Reading>, i: nat, blocked: set<int>)
    requires i < |readings|
    ensures var goal := readings[..i] + Cleanup(readings[i..], blocked);
            var next := if Day(readings[i].timestamp) in blocked then RemoveAt(readings, i) else readings;
            if i + 1 <= |next| then next[..i + 1] + Cleanup(next[i + 1..], blocked) == goal else next == goal
  {
    var rest := readings[i..];
    if Day(readings[i].timestamp) in blocked {
      var next := RemoveAt(readings, i);
      if |rest| > 1 {
        assert next[i + 1..] == rest[2..];
        assert next[..i + 1] == readings[..i] + [rest[1]];
      }
    } else {
      assert readings[i + 1..] == rest[1..];
      assert readings[..i + 1] == readings[..i] + [rest[0]];
    }
  }

  function Scanned(m: Meter, s: State, earlier: seq<Reading>, new_: Reading, limit: uint16): State {
    match FirstHit(m, Blocked(s.ticketed, new_.plate), earlier, new_, limit)
    case None => s
    case Some(old_) => Issue(m, s, TicketFor(m, old_, new_))
  }

  /** A plate step from the point where the reading is logged. */
  function Logged(m: Meter, s: State, new_: Reading, limit: uint16): State {
    var list := At(s.readings, new_.plate) + [new_];
    if |list| < 2 then s.(readings := s.readings[new_.plate := list]) else Examine(m, s, list, limit)
  }

  /** The scan reads the sightings it was given, not the log, so writing the log first changes nothing else. */
  lemma ScanIgnoresLog(m: Meter, s: State, readings: map<Plate, seq<Reading>>, list: seq<Reading>, limit: uint16)
    requires list != [] && readings == s.readings[list[|list| - 1].plate := list]
    ensures var new_ := list[|list| - 1];
            var s1 := Scanned(m, s.(readings := readings), list[..|list| - 1], new_, limit);
            s1.(readings := s1.readings[new_.plate := Cleanup(list, Blocked(s1.ticketed, new_.plate))])
            == Examine(m, s, list, limit)
  {
    var new_ := list[|list| - 1];
    var s1 := Scanned(m, s, list[..|list| - 1], new_, limit);
    var cleaned := Cleanup(list, Blocked(s1.ticketed, new_.plate));
    assert readings[new_.plate := cleaned] == s.readings[new_.plate := cleaned];
  }

  class TrafficServer {
    const meter: Meter
    var clients: set<PeerId>
    var cameras: map<PeerId, Camera>
    var plateReadings: map<Plate, seq<Reading>>
    var dispatchers: map<PeerId, seq<RoadId>>
    var roadDispatchers: map<RoadId, Balancer<PeerId>>
    var tickets: map<RoadId, seq<Ticket>>
    var dayPlates: map<int, set<Plate>>
    var out: seq<Event>
    ghost var rings: map<RoadId, Ring<PeerId>>  // the state of each road's balancer
    ghost var repr: set<Balancer<PeerId>>       // every balancer object ever created
    ghost var seen: seq<Observation>
    ghost var issued: seq<Ticket>

    ghost function DeskView(): Desk
      reads this
    {
      Desk(clients, cameras, dispatchers, rings, tickets, out)
    }

    ghost function View(): State
      reads this
    {
      State(DeskView(), plateReadings, dayPlates, seen, issued)
    }

    /** Each road has its own balancer object, in the state recorded for the road. */
    ghost predicate Mirrored()
      reads this, repr
    {
      && roadDispatchers.Keys == rings.Keys
      && Separate(roadDispatchers)
      && (forall road :: road in roadDispatchers ==>
            roadDispatchers[road] in repr && roadDispatchers[road].View() == rings[road])
    }

    ghost predicate Valid()
      reads this, repr
    {
      Mirrored() && RingsOk(rings) && Labelled(plateReadings)
    }

    constructor (meter: Meter)
      ensures Valid() && View() == START && this.meter == meter
      ensures roadDispatchers == map[]
    {
      this.meter := meter;
      clients, cameras, dispatchers := {}, map[], map[];
      plateReadings, roadDispatchers, tickets, dayPlates := map[], map[], map[], map[];
      out, rings, repr, seen, issued := [], map[], {}, [], [];
    }

    method Write(event: Event)
      modifies this`out
      ensures out == old(out) + [event]
    {
      out := out + [event];
    }

    method HandleConnected(peer: PeerId)
      requires Valid()
      modifies this`clients
      ensures Valid() && View() == Step(meter, old(View()), Connected(peer))
    {
      clients := clients + {peer};
    }

    method HandleCamera(peer: PeerId, camera: Camera)
      requires Valid()
      modifies this`cameras, this`out
      ensures Valid() && View() == Step(meter, old(View()), IAmCamera(peer, camera))
    {
      if peer in cameras {
        Write(Refused(peer, AlreadyCamera));
        return;
      }
      if peer in dispatchers {
        Write(Refused(peer, AlreadyDispatcher));
        return;
      }
      cameras := cameras[peer := camera];
    }

    /** The road's balancer, created empty if the road has none. */
    method BalancerOf(road: RoadId) returns (balancer: Balancer<PeerId>)
      requires Valid()
      modifies this`rings, this`roadDispatchers, this`repr
      ensures Valid() && fresh(repr - old(repr))
      ensures road in roadDispatchers && roadDispatchers[road] == balancer
      ensures rings == old(rings)[road := RingOf(old(DeskView()), road)]
    {
      if road !in roadDispatchers {
        balancer := new Balancer<PeerId>();
        roadDispatchers, repr := roadDispatchers[road := balancer], repr + {balancer};
        rings := rings[road := Ring([], 0)];
      } else {
        balancer := roadDispatchers[road];
      }
    }

    method AddTo(road: RoadId, peer: PeerId)
      requires Valid() && road in roadDispatchers
      modifies this`rings, roadDispatchers[road]
      ensures Valid() && rings == old(rings)[road := Included(old(rings)[road], peer)]
    {
      IncludingOk(rings, road, peer);
      var balancer := roadDispatchers[road];
      balancer.Add(peer);
      rings := rings[road := balancer.View()];
    }

    /** Add the peer to the road's balancer, creating one if the road has none. */
    method JoinRoad(peer: PeerId, road: RoadId)
      requires Valid()
      modifies this`rings, this`roadDispatchers, this`repr, repr
      ensures Valid() && fresh(repr - old(repr))
      ensures rings == old(rings)[road := Included(RingOf(old(DeskView()), road), peer)]
    {
      var balancer := BalancerOf(road);
      AddTo(road, peer);
    }

    /** Send the road's waiting tickets to the peer. */
    method FlushRoad(peer: PeerId, road: RoadId)
      modifies this`tickets, this`out
      ensures At(old(tickets), road) == [] ==> tickets == old(tickets) && out == old(out)
      ensures At(old(tickets), road) != [] ==>
                tickets == old(tickets)[road := []] && out == old(out) + HandAll(peer, old(tickets)[road])
    {
      if road !in tickets || |tickets[road]| == 0 {
        return;
      }
      var t := tickets[road];
      var j := 0;
      while j < |t|
        invariant 0 <= j <= |t| && out == old(out) + HandAll(peer, t[..j])
        modifies this`out
      {
        Write(Handed(peer, t[j]));
        assert t[..j + 1] == t[..j] + [t[j]];
        j := j + 1;
      }
      assert t[..j] == t;
      tickets := tickets[road := []];
    }

    /** One round of the registration loop. */
    method ServeRoad(peer: PeerId, road: RoadId)
      requires Valid()
      modifies this`rings, this`roadDispatchers, this`repr, this`tickets, this`out, repr
      ensures Valid() && fresh(repr - old(repr))
      ensures DeskView() == EnlistOne(old(DeskView()), peer, road)
    {
      JoinRoad(peer, road);
      FlushRoad(peer, road);
    }

    method ServeRoads(peer: PeerId, roads: seq<RoadId>)
      requires Valid()
      modifies this`rings, this`roadDispatchers, this`repr, this`tickets, this`out, repr
      ensures Valid() && fresh(repr - old(repr))
      ensures DeskView() == Enlist(old(DeskView()), peer, roads)
    {
      ghost var start := DeskView();
      var i := 0;
      while i < |roads|
        invariant 0 <= i <= |roads| && Valid()
        invariant fresh(repr - old(repr))
        invariant DeskView() == Enlist(start, peer, roads[..i])
      {
        ServeRoad(peer, roads[i]);
        assert roads[..i + 1][..i] == roads[..i];
        i := i + 1;
      }
      assert roads[..i] == roads;
    }

    method HandleDispatcher(peer: PeerId, roads: seq<RoadId>)
      requires Valid()
      modifies this`dispatchers, this`rings, this`roadDispatchers, this`repr, this`tickets, this`out, repr
      ensures Valid() && fresh(repr - old(repr))
      ensures DeskView() == RegisterDispatcher(old(DeskView()), peer, roads)
    {
      if peer in dispatchers {
        Write(Refused(peer, AlreadyDispatcher));
        return;
      }
      if peer in cameras {
        Write(Refused(peer, AlreadyCamera));
        return;
      }
      dispatchers := dispatchers[peer := roads];
      ServeRoads(peer, roads);
    }

    method RemoveFrom(road: RoadId, peer: PeerId) returns (n: nat)
      requires Valid() && road in roadDispatchers
      modifies this`rings, roadDispatchers[road]
      ensures Valid() && rings == old(rings)[road := Excluded(old(rings)[road], peer)]
      ensures n == |rings[road].items|
    {
      ExcludingOk(rings, road, peer);
      var balancer := roadDispatchers[road];
      balancer.Remove(peer);
      rings := rings[road := balancer.View()];
      n := balancer.Len();
    }

    /** Take the peer off one road, dropping the balancer if it becomes empty. */
    method LeaveRoad(road: RoadId, peer: PeerId)
      requires Valid() && road in roadDispatchers
      modifies this`rings, this`roadDispatchers, roadDispatchers[road]
      ensures Valid()
      ensures rings == WithoutOn(old(rings), road, peer)
    {
      var n := RemoveFrom(road, peer);
      if n == 0 {
        roadDispatchers, rings := roadDispatchers - {road}, rings - {road};
      }
    }

    /** The loop over the road map, in any order, deleting the balancers that become empty. */
    method LeaveRoads(peer: PeerId)
      requires Valid()
      modifies this`rings, this`roadDispatchers, repr
      ensures Valid() && rings == Without(old(rings), peer)
    {
      ghost var start := rings;
      var left := roadDispatchers.Keys;
      while left != {}
        invariant Valid() && Leaving(start, rings, left, peer)
        decreases left
      {
        var road :| road in left;
        LeavingNext(start, rings, left, road, peer);
        LeaveRoad(road, peer);
        left := left - {road};
      }
      LeavingDone(start, rings, peer);
    }

    method HandleDisconnected(peer: PeerId)
      requires Valid()
      modifies this`cameras, this`dispatchers, this`rings, this`roadDispatchers, repr
      ensures Valid()
      ensures View() == Step(meter, old(View()), Disconnected(peer))
    {
      cameras := cameras - {peer};
      if peer !in dispatchers {
        return;
      }
      dispatchers := dispatchers - {peer};
      LeaveRoads(peer);
    }

    /** Has the plate a ticket on any of these days? */
    method DidReceiveTicket(plate: Plate, prevDay: int, currentDay: int) returns (did: bool)
      ensures did <==> !SpanFree(Blocked(dayPlates, plate), prevDay, currentDay)
    {
      var i := prevDay;
      while i <= currentDay
        invariant prevDay <= i
        invariant forall d :: prevDay <= d < i ==> d !in Blocked(dayPlates, plate)
      {
        if i in dayPlates && plate in dayPlates[i] {
          assert i in Blocked(dayPlates, plate);
          return true;
        }
        i := i + 1;
      }
      return false;
    }

    method MarkDays(plate: Plate, prevDay: int, currentDay: int)
      requires prevDay <= currentDay
      modifies this`dayPlates
      ensures dayPlates == Mark(old(dayPlates), plate, prevDay, currentDay)
    {
      MarkNothing(dayPlates, plate, prevDay, prevDay - 1);
      var j := prevDay;
      while j <= currentDay
        invariant prevDay <= j <= currentDay + 1
        invariant dayPlates == Mark(old(dayPlates), plate, prevDay, j - 1)
      {
        MarkNext(old(dayPlates), plate, prevDay, j);
        if j !in dayPlates {
          dayPlates := dayPlates[j := {}];
        }
        dayPlates := dayPlates[j := dayPlates[j] + {plate}];
        j := j + 1;
      }
    }

    /** The road's next dispatcher, if it has any. */
    method NextDispatcher(road: RoadId) returns (dispatcher: Option<PeerId>)
      requires Valid()
      modifies this`rings, repr
      ensures Valid()
      ensures var ring := RingOf(old(DeskView()), road);
              if 0 <= ring.index < |ring.items|
              then dispatcher == Some(ring.items[ring.index]) && rings == old(rings)[road := Rotated(ring)]
              else dispatcher == None && rings == old(rings)
    {
      dispatcher := None;
      if road in roadDispatchers {
        var rd := roadDispatchers[road];
        dispatcher := rd.Get();
        rings := rings[road := rd.View()];
      }
    }

    /** Hand the ticket to the next dispatcher of its road, or queue it. */
    method SendOrQueue(ticket: Ticket)
      requires Valid()
      modifies this`tickets, this`out, this`rings, repr
      ensures Valid() && DeskView() == HandOut(old(DeskView()), ticket)
    {
      var dispatcher := NextDispatcher(ticket.road);
      match dispatcher
      case None =>
        tickets := tickets[ticket.road := At(tickets, ticket.road) + [ticket]];
      case Some(peer) =>
        Write(Handed(peer, ticket));
    }

    method IssueTicket(ticket: Ticket, prevDay: int, currentDay: int)
      requires Valid() && ticket.timestamp1 <= ticket.timestamp2
      requires prevDay == Day(ticket.timestamp1) && currentDay == Day(ticket.timestamp2)
      modifies this`tickets, this`out, this`dayPlates, this`issued, this`rings, repr
      ensures Valid() && View() == Issue(meter, old(View()), ticket)
    {
      DayMonotone(ticket.timestamp1, ticket.timestamp2);
      MarkDays(ticket.plate, prevDay, currentDay);
      SendOrQueue(ticket);
      issued := issued + [ticket];
    }

    /** The clean-up of one plate's log, with the index advancing after a removal too. */
    method CleanReadings(plate: Plate)
      requires Labelled(plateReadings)
      modifies this`plateReadings
      ensures plateReadings
              == old(plateReadings)[plate := Cleanup(At(old(plateReadings), plate), Blocked(dayPlates, plate))]
      ensures Labelled(plateReadings)
    {
      var readings := At(plateReadings, plate);
      var i := 0;
      ghost var blocked := Blocked(dayPlates, plate);
      ghost var goal := Cleanup(readings, blocked);
      CleanupKeepsLabels(readings, blocked, plate);
      while i < |readings|
        invariant 0 <= i && forall k :: 0 <= k < |readings| ==> readings[k].plate == plate
        invariant if i <= |readings| then readings[..i] + Cleanup(readings[i..], blocked) == goal else readings == goal
        modifies {}
        decreases |readings| - i
      {
        var reading := readings[i];
        var day := Day(reading.timestamp);
        CleanupRound(readings, i, blocked);
        if day in dayPlates && reading.plate in dayPlates[day] {
          assert day in blocked;
          readings := RemoveAt(readings, i);
        }
        i := i + 1;
      }
      assert i <= |readings| ==> readings[..i] + Cleanup(readings[i..], blocked) == readings;
      assert readings == goal;
      plateReadings := plateReadings[plate := readings];
    }

    /** The body of the scan up to the speed test: the ticket the two readings make, if they make one. */
    method Compare(loopPacket: Reading, plateInfo: Reading, limit: uint16) returns (ticket: Option<Ticket>)
      requires loopPacket.plate == plateInfo.plate
      ensures ticket == if Hit(meter, Blocked(dayPlates, plateInfo.plate), loopPacket, plateInfo, limit)
                        then Some(TicketFor(meter, loopPacket, plateInfo)) else None
    {
      var current, prev := loopPacket, plateInfo;
      if loopPacket.timestamp < plateInfo.timestamp {
        current, prev := plateInfo, loopPacket;
      }
      var did := DidReceiveTicket(current.plate, Day(prev.timestamp), Day(current.timestamp));
      if did || prev.road != current.road {
        return None;
      }
      NoWrapAround(loopPacket, plateInfo);
      var distance :=
        if prev.mile < current.mile then ToUint16(current.mile - prev.mile) else ToUint16(prev.mile - current.mile);
      var timeDiff := ToUint32(current.timestamp - prev.timestamp);
      var scaled := ToUint32(distance * 3600);
      if distance <= 0 || timeDiff <= 0 || !meter.over(scaled, timeDiff, limit) {
        return None;
      }
      return Some(Ticket(current.plate, plateInfo.road, prev.mile, prev.timestamp, current.mile, current.timestamp,
                         meter.centi(scaled, timeDiff)));
    }

    /** The scan over the plate's earlier sightings: stop at the first that makes a ticket. */
    method ScanSightings(sightings: seq<Reading>, plateInfo: Reading, limit: uint16)
      requires Valid() && |sightings| >= 1
      requires forall k :: 0 <= k < |sightings| ==> sightings[k].plate == plateInfo.plate
      modifies this`tickets, this`out, this`dayPlates, this`issued, this`rings, repr
      ensures Valid()
      ensures View() == Scanned(meter, old(View()), sightings[..|sightings| - 1], plateInfo, limit)
    {
      ghost var before := View();
      ghost var earlier := sightings[..|sightings| - 1];
      ghost var blocked := Blocked(dayPlates, plateInfo.plate);
      ghost var pick := FirstHit(meter, blocked, earlier, plateInfo, limit);
      var i := 0;
      while i < |sightings| - 1
        invariant 0 <= i <= |earlier|
        invariant Valid() && View() == before
        invariant FirstHit(meter, blocked, earlier[i..], plateInfo, limit) == pick
      {
        assert earlier[i..][0] == sightings[i] && earlier[i..][1..] == earlier[i + 1..];
        var ticket := Compare(sightings[i], plateInfo, limit);
        if ticket.Some? {
          assert pick == Some(sightings[i]);
          IssueTicket(ticket.value, Day(ticket.value.timestamp1), Day(ticket.value.timestamp2));
          return;
        }
        i := i + 1;
      }
      assert earlier[i..] == [];
    }

    /** Log the reading, scan, and clean up. */
    method LogAndScan(plateInfo: Reading, limit: uint16)
      requires Valid()
      modifies this`tickets, this`out, this`dayPlates, this`plateReadings, this`issued, this`rings, repr
      ensures Valid()
      ensures View() == Logged(meter, old(View()), plateInfo, limit)
    {
      ghost var s := View();
      var plate := plateInfo.plate;
      var sightings := At(plateReadings, plate) + [plateInfo];
      plateReadings := plateReadings[plate := sightings];
      if |sightings| < 2 {
        return;
      }
      assert forall k :: 0 <= k < |sightings| ==> plateReadings[plate][k].plate == plate;
      ScanSightings(sightings, plateInfo, limit);
      CleanReadings(plate);
      ScanIgnoresLog(meter, s, s.readings[plate := sightings], sightings, limit);
    }

    method HandlePlate(peer: PeerId, plate: Plate, timestamp: uint32)
      requires Valid()
      modifies this`tickets, this`out, this`dayPlates, this`plateReadings, this`seen, this`issued, this`rings, repr
      ensures Valid() && View() == Step(meter, old(View()), PlateSeen(peer, plate, timestamp))
    {
      if peer !in cameras {
        Write(Refused(peer, NotACamera));
        return;
      }
      var camera := cameras[peer];
      var plateInfo := Reading(plate, timestamp, camera.road, camera.mile);
      seen := seen + [Observation(plateInfo, camera.limit)];
      var newPacketDay := Day(timestamp);
      if newPacketDay in dayPlates && plate in dayPlates[newPacketDay] {
        return;
      }
      LogAndScan(plateInfo, camera.limit);
    }

    method Handle(msg: Message)
      requires Valid()
      modifies this, repr
      ensures Valid() && fresh(repr - old(repr))
      ensures View() == Step(meter, old(View()), msg)
    {
      match msg
      case Connected(peer) => HandleConnected(peer);
      case Disconnected(peer) => HandleDisconnected(peer);
      case IAmCamera(peer, camera) => HandleCamera(peer, camera);
      case IAmDispatcher(peer, roads) => HandleDispatcher(peer, roads);
      case PlateSeen(peer, plate, timestamp) => HandlePlate(peer, plate, timestamp);
      case WantHeartbeat(_, _) =>
      case Unrecognised(_) =>
    }

    /** The message loop: after any messages the object is in the state every run theorem speaks of. */
    method Serve(msgs: seq<Message>)
      requires Valid() && View() == START
      modifies this, repr
      ensures Valid() && View() == Run(meter, msgs)
    {
      var i := 0;
      while i < |msgs|
        invariant 0 <= i <= |msgs| && Valid() && fresh(repr - old(repr))
        invariant View() == Run(meter, msgs[..i])
      {
        Handle(msgs[i]);
        assert msgs[..i + 1][..i] == msgs[..i];
        i := i + 1;
      }
      assert msgs[..i] == msgs;
    }
  }
}
