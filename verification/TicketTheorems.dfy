/** What holds after every run of the ticketing server. */
module TicketTheorems {
  import opened Prelude
  import opened Arithmetic
  import opened Balancers
  import opened TicketDesk
  import opened TicketMachine
  import opened TicketReference

  // ---- Invariants of the reference ----

  /** The ticket is made of these two readings, the second one arriving later. */
  ghost predicate MadeFrom(m: Meter, t: Ticket, first: Observation, second: Observation) {
    && Caught(m, first, second)
    && t == TicketFor(m, first.reading, second.reading)
  }

  ghost predicate Sound(m: Meter, seen: seq<Observation>, issued: seq<Ticket>) {
    forall k :: 0 <= k < |issued| ==> HasSource(m, seen, issued[k])
  }

  ghost predicate HasSource(m: Meter, seen: seq<Observation>, t: Ticket) {
    exists i, j :: 0 <= i < j < |seen| && MadeFrom(m, t, seen[i], seen[j])
  }

  /** Some day between the two readings is ticketed for their plate. */
  ghost predicate Punished(issued: seq<Ticket>, a: Reading, b: Reading) {
    exists day :: Day(Earlier(a, b).timestamp) <= day <= Day(Later(a, b).timestamp) && Covered(issued, b.plate, day)
  }

  ghost predicate Complete(m: Meter, seen: seq<Observation>, issued: seq<Ticket>) {
    forall i, j :: 0 <= i < j < |seen| && Caught(m, seen[i], seen[j]) ==>
      Punished(issued, seen[i].reading, seen[j].reading)
  }

  /** Two readings of one plate that break the limit of the camera whose report arrived second. */
  ghost predicate Caught(m: Meter, first: Observation, second: Observation) {
    && first.reading.plate == second.reading.plate
    && Speeding(m, first.reading, second.reading, second.limit)
  }

  ghost predicate DisjointSpans(issued: seq<Ticket>) {
    forall i, j :: 0 <= i < j < |issued| && issued[i].plate == issued[j].plate ==>
      Day(issued[j].timestamp2) < Day(issued[i].timestamp1) || Day(issued[i].timestamp2) < Day(issued[j].timestamp1)
  }

  ghost predicate Just(m: Meter, seen: seq<Observation>, issued: seq<Ticket>) {
    Sound(m, seen, issued) && Complete(m, seen, issued) && DisjointSpans(issued) && TicketsOrdered(issued)
  }

  lemma {:induction false} FirstPairPicks(m: Meter, seen: seq<Observation>, issued: seq<Ticket>, new_: Reading,
                                          limit: uint16)
    returns (i: nat)
    ensures match FirstPair(m, seen, issued, new_, limit)
            case None => forall k :: 0 <= k < |seen| ==> !Pairs(m, issued, seen[k].reading, new_, limit)
            case Some(r) =>
              && i < |seen| && seen[i].reading == r && Pairs(m, issued, r, new_, limit)
              && forall k :: 0 <= k < i ==> !Pairs(m, issued, seen[k].reading, new_, limit)
    decreases |seen|
  {
    i := 0;
    if seen != [] && !Pairs(m, issued, seen[0].reading, new_, limit) {
      i := FirstPairPicks(m, seen[1..], issued, new_, limit);
      var n := if FirstPair(m, seen[1..], issued, new_, limit).None? then |seen| - 1 else i;
      forall k | 0 <= k < n + 1
        ensures !Pairs(m, issued, seen[k].reading, new_, limit)
      {
        assert k > 0 ==> seen[k] == seen[1..][k - 1];
      }
      i := i + 1;
    }
  }

  lemma CoveredGrows(issued: seq<Ticket>, t: Ticket, plate: Plate, day: int)
    requires Covered(issued, plate, day)
    ensures Covered(issued + [t], plate, day)
  {
    var i :| 0 <= i < |issued| && Covers(issued[i], plate, day);
    assert Covers((issued + [t])[i], plate, day);
  }

  lemma PunishedGrows(issued: seq<Ticket>, t: Ticket, a: Reading, b: Reading)
    requires Punished(issued, a, b)
    ensures Punished(issued + [t], a, b)
  {
    var day :| Day(Earlier(a, b).timestamp) <= day <= Day(Later(a, b).timestamp) && Covered(issued, b.plate, day);
    CoveredGrows(issued, t, b.plate, day);
  }

  /** A span some ticket already touches is punished. */
  lemma TouchedIsPunished(issued: seq<Ticket>, a: Reading, b: Reading)
    requires TicketsOrdered(issued)
    requires !Untouched(issued, b.plate, Day(Earlier(a, b).timestamp), Day(Later(a, b).timestamp))
    ensures Punished(issued, a, b)
  {
    var lo, hi := Day(Earlier(a, b).timestamp), Day(Later(a, b).timestamp);
    var i :| 0 <= i < |issued| && issued[i].plate == b.plate &&
             !(hi < Day(issued[i].timestamp1) || Day(issued[i].timestamp2) < lo);
    DayMonotone(issued[i].timestamp1, issued[i].timestamp2);
    DayOrder(a, b);
    var first := Day(issued[i].timestamp1);
    var day := if first < lo then lo else first;
    assert Covers(issued[i], b.plate, day);
    assert Covered(issued, b.plate, day);
  }

  lemma SourcesStay(m: Meter, seen: seq<Observation>, o: Observation, issued: seq<Ticket>)
    requires Sound(m, seen, issued)
    ensures Sound(m, seen + [o], issued)
  {
    var more := seen + [o];
    forall k | 0 <= k < |issued|
      ensures HasSource(m, more, issued[k])
    {
      var i, j :| 0 <= i < j < |seen| && MadeFrom(m, issued[k], seen[i], seen[j]);
      assert MadeFrom(m, issued[k], more[i], more[j]);
    }
  }

  /** No pair found: whatever the new reading could be paired with is already punished. */
  lemma QuietStep(m: Meter, seen: seq<Observation>, issued: seq<Ticket>, o: Observation)
    requires Just(m, seen, issued) && FirstPair(m, seen, issued, o.reading, o.limit) == None
    ensures Just(m, seen + [o], issued)
  {
    var more := seen + [o];
    SourcesStay(m, seen, o, issued);
    var _ := FirstPairPicks(m, seen, issued, o.reading, o.limit);
    forall i, j | 0 <= i < j < |more| && Caught(m, more[i], more[j])
      ensures Punished(issued, more[i].reading, more[j].reading)
    {
      if j == |seen| {
        assert !Pairs(m, issued, seen[i].reading, o.reading, o.limit);
        TouchedIsPunished(issued, more[i].reading, o.reading);
      }
    }
  }

  lemma IssuingIsSound(m: Meter, seen: seq<Observation>, issued: seq<Ticket>, o: Observation, w: nat)
    requires Sound(m, seen, issued) && w < |seen| && Caught(m, seen[w], o)
    ensures Sound(m, seen + [o], issued + [TicketFor(m, seen[w].reading, o.reading)])
  {
    var t := TicketFor(m, seen[w].reading, o.reading);
    var more, all := seen + [o], issued + [t];
    assert MadeFrom(m, t, more[w], more[|seen|]);
    SourcesStay(m, seen, o, issued);
    forall k | 0 <= k < |all|
      ensures HasSource(m, more, all[k])
    {
      assert k < |issued| ==> all[k] == issued[k];
    }
  }

  /** The new ticket covers the new reading's own day, so every pair with that reading is punished. */
  lemma IssuingIsComplete(m: Meter, seen: seq<Observation>, issued: seq<Ticket>, o: Observation, old_: Reading)
    requires Complete(m, seen, issued) && old_.plate == o.reading.plate
    ensures Complete(m, seen + [o], issued + [TicketFor(m, old_, o.reading)])
  {
    var t := TicketFor(m, old_, o.reading);
    var more, all := seen + [o], issued + [t];
    var today := Day(o.reading.timestamp);
    DayOrder(old_, o.reading);
    assert Covers(all[|issued|], o.reading.plate, today);
    assert Covered(all, o.reading.plate, today);
    forall i, j | 0 <= i < j < |more| && Caught(m, more[i], more[j])
      ensures Punished(all, more[i].reading, more[j].reading)
    {
      if j == |seen| {
        DayOrder(more[i].reading, o.reading);
      } else {
        PunishedGrows(issued, t, more[i].reading, more[j].reading);
      }
    }
  }

  lemma IssuingIsDisjoint(m: Meter, issued: seq<Ticket>, old_: Reading, new_: Reading, limit: uint16)
    requires DisjointSpans(issued) && TicketsOrdered(issued) && Pairs(m, issued, old_, new_, limit)
    ensures var all := issued + [TicketFor(m, old_, new_)]; DisjointSpans(all) && TicketsOrdered(all)
  {
  }

  /** A pair found. */
  lemma IssuingStep(m: Meter, seen: seq<Observation>, issued: seq<Ticket>, o: Observation)
    requires Just(m, seen, issued) && FirstPair(m, seen, issued, o.reading, o.limit).Some?
    ensures var t := TicketFor(m, FirstPair(m, seen, issued, o.reading, o.limit).value, o.reading);
            Just(m, seen + [o], issued + [t])
  {
    var old_ := FirstPair(m, seen, issued, o.reading, o.limit).value;
    var w := FirstPairPicks(m, seen, issued, o.reading, o.limit);
    IssuingIsSound(m, seen, issued, o, w);
    IssuingIsComplete(m, seen, issued, o, old_);
    IssuingIsDisjoint(m, issued, old_, o.reading, o.limit);
  }

  lemma {:induction false} ReferenceIsJust(m: Meter, msgs: seq<Message>)
    ensures var n := NaiveRun(m, msgs); Just(m, n.seen, n.issued)
    decreases |msgs|
  {
    if msgs != [] {
      var n, msg := NaiveRun(m, msgs[..|msgs| - 1]), msgs[|msgs| - 1];
      ReferenceIsJust(m, msgs[..|msgs| - 1]);
      if msg.PlateSeen? && msg.peer in n.desk.cameras {
        var camera := n.desk.cameras[msg.peer];
        var o := Observation(Reading(msg.plate, msg.timestamp, camera.road, camera.mile), camera.limit);
        if FirstPair(m, n.seen, n.issued, o.reading, o.limit).None? {
          QuietStep(m, n.seen, n.issued, o);
        } else {
          IssuingStep(m, n.seen, n.issued, o);
        }
      }
    }
  }

  lemma {:induction false} BooksBalance(m: Meter, msgs: seq<Message>)
    ensures var n := NaiveRun(m, msgs); DeskOk(n.desk) && Conserved(n.desk, n.issued)
    decreases |msgs|
  {
    if msgs != [] {
      var n, msg := NaiveRun(m, msgs[..|msgs| - 1]), msgs[|msgs| - 1];
      BooksBalance(m, msgs[..|msgs| - 1]);
      match msg
      case Connected(_) =>
      case Disconnected(peer) => DisconnectKeeps(n.desk, peer, n.issued);
      case IAmCamera(peer, camera) =>
        if peer in n.desk.cameras {
          RefuseKeeps(n.desk, peer, AlreadyCamera, n.issued);
        } else if peer in n.desk.dispatchers {
          RefuseKeeps(n.desk, peer, AlreadyDispatcher, n.issued);
        }
      case IAmDispatcher(peer, roads) => RegisterDispatcherKeeps(n.desk, peer, roads, n.issued);
      case PlateSeen(peer, plate, timestamp) =>
        if peer !in n.desk.cameras {
          RefuseKeeps(n.desk, peer, NotACamera, n.issued);
        } else {
          var camera := n.desk.cameras[peer];
          var new_ := Reading(plate, timestamp, camera.road, camera.mile);
          var pick := FirstPair(m, n.seen, n.issued, new_, camera.limit);
          if pick.Some? {
            HandOutConserves(n.desk, TicketFor(m, pick.value, new_), n.issued);
            HandOutKeeps(n.desk, TicketFor(m, pick.value, new_));
          }
        }
      case WantHeartbeat(_, _) =>
      case Unrecognised(_) =>
    }
  }

  // ---- The theorems, for the running server ----

  /** Of two readings of one plate on one road, the difference of the miles, times 3600, and of the timestamps
      breaks the limit. Written out, so that it stands on its own beside Speeding. */
  ghost predicate TooFast(m: Meter, a: Reading, b: Reading, limit: uint16) {
    && a.plate == b.plate && a.road == b.road && a.mile != b.mile && a.timestamp != b.timestamp
    && m.over((if a.mile < b.mile then b.mile - a.mile else a.mile - b.mile) * 3600,
              if a.timestamp < b.timestamp then b.timestamp - a.timestamp else a.timestamp - b.timestamp, limit)
  }

  /** The day lies between those of the two readings, and between those of the ticket. */
  ghost predicate Shares(t: Ticket, a: Reading, b: Reading, day: int) {
    && (if a.timestamp < b.timestamp then a.timestamp / 86400 <= day <= b.timestamp / 86400
        else b.timestamp / 86400 <= day <= a.timestamp / 86400)
    && t.timestamp1 / 86400 <= day <= t.timestamp2 / 86400
  }

  lemma PunishedIsShared(issued: seq<Ticket>, a: Reading, b: Reading) returns (k: nat, day: int)
    requires Punished(issued, a, b) && a.plate == b.plate
    ensures k < |issued| && issued[k].plate == a.plate && Shares(issued[k], a, b, day) && Covered(issued, a.plate, day)
  {
    day :| Day(Earlier(a, b).timestamp) <= day <= Day(Later(a, b).timestamp) && Covered(issued, b.plate, day);
    k :| 0 <= k < |issued| && Covers(issued[k], b.plate, day);
  }

  lemma TooFastIsCaught(m: Meter, first: Observation, second: Observation)
    requires TooFast(m, first.reading, second.reading, second.limit)
    ensures Caught(m, first, second)
  {
  }

  /** No speeding pair escapes: for any two readings ever received, in whichever order, some ticket of their
      plate covers one of the days between them, and the day is recorded for the plate. */
  lemma Completeness(m: Meter, msgs: seq<Message>, i: nat, j: nat)
    requires var s := Run(m, msgs);
             i < j < |s.seen| && TooFast(m, s.seen[i].reading, s.seen[j].reading, s.seen[j].limit)
    ensures var s := Run(m, msgs);
            var a, b := s.seen[i].reading, s.seen[j].reading;
            exists k, day :: 0 <= k < |s.issued| && s.issued[k].plate == a.plate && Shares(s.issued[k], a, b, day) &&
              IsTicketed(s.ticketed, day, a.plate)
  {
    Refinement(m, msgs);
    ReferenceIsJust(m, msgs);
    var s := Run(m, msgs);
    TooFastIsCaught(m, s.seen[i], s.seen[j]);
    var k, day := PunishedIsShared(s.issued, s.seen[i].reading, s.seen[j].reading);
    assert IsTicketed(s.ticketed, day, s.seen[i].reading.plate);
  }

  /** The ticket is for the plate and the day is one of its days. */
  ghost predicate OnDay(t: Ticket, plate: Plate, day: int) {
    t.plate == plate && t.timestamp1 / 86400 <= day <= t.timestamp2 / 86400
  }

  /** No two tickets for one plate have a day in common, and the index is the union of all the spans. */
  lemma OneTicketPerDay(m: Meter, msgs: seq<Message>)
    ensures var s := Run(m, msgs);
            && (forall i, j, plate, day :: 0 <= i < j < |s.issued| ==>
                  !(OnDay(s.issued[i], plate, day) && OnDay(s.issued[j], plate, day)))
            && DisjointSpans(s.issued)
            && forall day, plate :: IsTicketed(s.ticketed, day, plate) <==>
                                    exists i :: 0 <= i < |s.issued| && OnDay(s.issued[i], plate, day)
  {
    Refinement(m, msgs);
    ReferenceIsJust(m, msgs);
    var s := Run(m, msgs);
    forall day, plate
      ensures IsTicketed(s.ticketed, day, plate) <==> exists i :: 0 <= i < |s.issued| && OnDay(s.issued[i], plate, day)
    {
      forall i | 0 <= i < |s.issued|
        ensures OnDay(s.issued[i], plate, day) <==> Covers(s.issued[i], plate, day)
      {
      }
    }
  }

  ghost predicate Grows(s: State, s': State) {
    && s.issued <= s'.issued && s.seen <= s'.seen && s.desk.out <= s'.desk.out
    && (forall day, plate :: IsTicketed(s.ticketed, day, plate) ==> IsTicketed(s'.ticketed, day, plate))
  }

  lemma GrowsTwice(a: State, b: State, c: State)
    requires Grows(a, b) && Grows(b, c)
    ensures Grows(a, c)
  {
  }

  lemma RunLast(m: Meter, msgs: seq<Message>, msg: Message)
    ensures Run(m, msgs + [msg]) == Step(m, Run(m, msgs), msg)
  {
    assert (msgs + [msg])[..|msgs|] == msgs;
  }

  lemma NextGrows(m: Meter, msgs: seq<Message>, msg: Message)
    ensures Grows(Run(m, msgs), Run(m, msgs + [msg]))
    ensures WellAddressed(Run(m, msgs).desk, Run(m, msgs + [msg]).desk)
  {
    RunLast(m, msgs, msg);
    Refinement(m, msgs);
    BooksBalance(m, msgs);
    StepGrows(m, Run(m, msgs), msg);
  }

  /** A day once ticketed stays ticketed; tickets, readings and writes are never taken back. */
  lemma {:induction false} HistoryGrows(m: Meter, msgs: seq<Message>, more: seq<Message>)
    ensures Grows(Run(m, msgs), Run(m, msgs + more))
    decreases |more|
  {
    if more == [] {
      assert msgs + more == msgs;
    } else {
      var init, last := more[..|more| - 1], more[|more| - 1];
      HistoryGrows(m, msgs, init);
      NextGrows(m, msgs + init, last);
      assert msgs + more == (msgs + init) + [last];
      GrowsTwice(Run(m, msgs), Run(m, msgs + init), Run(m, msgs + more));
    }
  }

  ghost predicate SameRoles(d: Desk, d': Desk) {
    d'.cameras == d.cameras && d'.dispatchers == d.dispatchers && d'.clients == d.clients
  }

  lemma ExamineGrows(m: Meter, s: State, list: seq<Reading>, limit: uint16)
    requires DeskOk(s.desk) && list != []
    ensures var s' := Examine(m, s, list, limit);
            Grows(s, s') && WellAddressed(s.desk, s'.desk) && SameRoles(s.desk, s'.desk)
  {
    var new_ := list[|list| - 1];
    var pick := FirstHit(m, Blocked(s.ticketed, new_.plate), list[..|list| - 1], new_, limit);
    if pick.Some? {
      HandOutAddresses(s.desk, TicketFor(m, pick.value, new_));
    }
  }

  lemma NoticedGrows(m: Meter, s: State, s0: State, list: seq<Reading>, limit: uint16)
    requires DeskOk(s.desk) && s0.desk == s.desk && s0.ticketed == s.ticketed && s0.issued == s.issued
    requires s.seen <= s0.seen && list != []
    ensures var s' := Examine(m, s0, list, limit);
            Grows(s, s') && WellAddressed(s.desk, s'.desk) && SameRoles(s.desk, s'.desk)
  {
    ExamineGrows(m, s0, list, limit);
    GrowsTwice(s, s0, Examine(m, s0, list, limit));
  }

  /** A report of a camera, after it is noted in the history. */
  function Noted(m: Meter, s: State, new_: Reading, limit: uint16): State {
    var s0, list := s.(seen := s.seen + [Observation(new_, limit)]), At(s.readings, new_.plate) + [new_];
    if IsTicketed(s.ticketed, Day(new_.timestamp), new_.plate) then s0
    else if |list| < 2 then s0.(readings := s.readings[new_.plate := list])
    else Examine(m, s0, list, limit)
  }

  lemma NotedGrows(m: Meter, s: State, new_: Reading, limit: uint16)
    requires DeskOk(s.desk)
    ensures var s' := Noted(m, s, new_, limit);
            Grows(s, s') && WellAddressed(s.desk, s'.desk) && SameRoles(s.desk, s'.desk)
  {
    var s0, list := s.(seen := s.seen + [Observation(new_, limit)]), At(s.readings, new_.plate) + [new_];
    if !IsTicketed(s.ticketed, Day(new_.timestamp), new_.plate) && |list| >= 2 {
      NoticedGrows(m, s, s0, list, limit);
    }
  }

  lemma PlateIsNoted(m: Meter, s: State, peer: PeerId, plate: Plate, timestamp: uint32)
    requires peer in s.desk.cameras
    ensures var camera := s.desk.cameras[peer];
            PlateStep(m, s, peer, plate, timestamp)
            == Noted(m, s, Reading(plate, timestamp, camera.road, camera.mile), camera.limit)
  {
  }

  lemma PlateGrows(m: Meter, s: State, peer: PeerId, plate: Plate, timestamp: uint32)
    requires DeskOk(s.desk)
    ensures var s' := PlateStep(m, s, peer, plate, timestamp);
            Grows(s, s') && WellAddressed(s.desk, s'.desk) && SameRoles(s.desk, s'.desk)
  {
    if peer in s.desk.cameras {
      var camera := s.desk.cameras[peer];
      PlateIsNoted(m, s, peer, plate, timestamp);
      NotedGrows(m, s, Reading(plate, timestamp, camera.road, camera.mile), camera.limit);
    }
  }

  lemma StepGrows(m: Meter, s: State, msg: Message)
    requires DeskOk(s.desk)
    ensures Grows(s, Step(m, s, msg)) && WellAddressed(s.desk, Step(m, s, msg).desk)
  {
    if msg.PlateSeen? {
      PlateGrows(m, s, msg.peer, msg.plate, msg.timestamp);
    } else if msg.IAmDispatcher? {
      RegisteringAddresses(s.desk, msg.peer, msg.roads);
    }
  }

  lemma RegisteringAddresses(d: Desk, peer: PeerId, roads: seq<RoadId>)
    requires DeskOk(d)
    ensures WellAddressed(d, RegisterDispatcher(d, peer, roads))
  {
    if peer !in d.dispatchers && peer !in d.cameras {
      EnlistAddresses(d.(dispatchers := d.dispatchers[peer := roads]), peer, roads, roads);
    }
  }

  /** What the ticket says, field by field: a is the earlier sighting, b the later one. */
  ghost predicate Tells(m: Meter, t: Ticket, a: Reading, b: Reading, limit: uint16) {
    && t.plate == a.plate == b.plate && t.road == a.road == b.road
    && t.timestamp1 == a.timestamp < t.timestamp2 == b.timestamp
    && t.mile1 == a.mile != t.mile2 == b.mile
    && m.over(TicketDistance(t) * 3600, b.timestamp - a.timestamp, limit)
    && t.speed == m.centi(TicketDistance(t) * 3600, b.timestamp - a.timestamp)
  }

  /** The two observations, whichever of them arrived first, judged by the camera that reported second. */
  ghost predicate Evidence(m: Meter, seen: seq<Observation>, t: Ticket, i: nat, j: nat)
    requires i < |seen| && j < |seen|
  {
    Tells(m, t, seen[i].reading, seen[j].reading, if i < j then seen[j].limit else seen[i].limit)
  }

  lemma SourceIsEvidence(m: Meter, seen: seq<Observation>, t: Ticket)
    requires HasSource(m, seen, t)
    ensures exists i, j :: 0 <= i < |seen| && 0 <= j < |seen| && Evidence(m, seen, t, i, j)
  {
    var i, j :| 0 <= i < j < |seen| && MadeFrom(m, t, seen[i], seen[j]);
    if seen[i].reading.timestamp < seen[j].reading.timestamp {
      assert Evidence(m, seen, t, i, j);
    } else {
      assert Evidence(m, seen, t, j, i);
    }
  }

  /** Every issued ticket states, field by field, two readings really received for its plate on its road,
      the earlier one first, too fast for the limit of the camera that reported second. */
  lemma Soundness(m: Meter, msgs: seq<Message>, t: Ticket)
    requires t in Run(m, msgs).issued
    ensures HasSource(m, Run(m, msgs).seen, t)
    ensures var seen := Run(m, msgs).seen;
            exists i, j :: 0 <= i < |seen| && 0 <= j < |seen| && Evidence(m, seen, t, i, j)
  {
    Refinement(m, msgs);
    ReferenceIsJust(m, msgs);
    var s := Run(m, msgs);
    var k :| 0 <= k < |s.issued| && s.issued[k] == t;
    assert HasSource(m, s.seen, s.issued[k]);
    SourceIsEvidence(m, s.seen, t);
  }

  /** The readings reported by registered cameras, in arrival order. */
  ghost function Reports(m: Meter, msgs: seq<Message>): seq<Observation> {
    if msgs == [] then []
    else
      var init, msg := msgs[..|msgs| - 1], msgs[|msgs| - 1];
      var cameras := Run(m, init).desk.cameras;
      Reports(m, init) +
      (if msg.PlateSeen? && msg.peer in cameras then
         var c := cameras[msg.peer];
         [Observation(Reading(msg.plate, msg.timestamp, c.road, c.mile), c.limit)]
       else [])
  }

  /** The history the theorems speak of misses no report and invents none. */
  lemma {:induction false} SeenIsReports(m: Meter, msgs: seq<Message>)
    ensures Run(m, msgs).seen == Reports(m, msgs)
    decreases |msgs|
  {
    if msgs != [] {
      SeenIsReports(m, msgs[..|msgs| - 1]);
    }
  }

  /** Per road, tickets handed over followed by tickets waiting are the tickets issued, in order. */
  lemma Conservation(m: Meter, msgs: seq<Message>, road: RoadId)
    ensures var s := Run(m, msgs);
            && HandedOn(s.desk.out, road) + At(s.desk.pending, road) == OnRoad(s.issued, road)
            && (At(s.desk.pending, road) != [] ==> forall p :: !Registered(s.desk.dispatchers, p, road))
  {
    Refinement(m, msgs);
    BooksBalance(m, msgs);
    var d := Run(m, msgs).desk;
    assert Conserved(d, Run(m, msgs).issued);
    assert forall p :: Registered(d.dispatchers, p, road) ==> road in d.roads;
  }

  /** The balancer of a road holds exactly the dispatchers registered for it; roles do not mix. */
  lemma DispatcherIndex(m: Meter, msgs: seq<Message>, road: RoadId, peer: PeerId)
    ensures var d := Run(m, msgs).desk;
            && (Registered(d.dispatchers, peer, road) <==> road in d.roads && peer in d.roads[road].items)
            && (road in d.roads ==> NoDup(d.roads[road].items) && d.roads[road].items != [])
            && !(peer in d.cameras && peer in d.dispatchers)
  {
    Refinement(m, msgs);
    BooksBalance(m, msgs);
  }

  // ---- The connection discipline ----

  /** Who is connected after a run. */
  ghost function Online(msgs: seq<Message>): set<PeerId> {
    if msgs == [] then {}
    else
      var init, msg := msgs[..|msgs| - 1], msgs[|msgs| - 1];
      if msg.Connected? then Online(init) + {msg.peer}
      else if msg.Disconnected? then Online(init) - {msg.peer}
      else Online(init)
  }

  /** Every client's messages come after its connected and before its disconnected. */
  ghost predicate Disciplined(msgs: seq<Message>) {
    forall k :: 0 <= k < |msgs| && !msgs[k].Connected? ==> msgs[k].peer in Online(msgs[..k])
  }

  lemma {:induction false} RolesAreOnline(m: Meter, msgs: seq<Message>)
    requires Disciplined(msgs)
    ensures var d := Run(m, msgs).desk; d.cameras.Keys + d.dispatchers.Keys <= Online(msgs) <= d.clients
    decreases |msgs|
  {
    if msgs != [] {
      var init, msg := msgs[..|msgs| - 1], msgs[|msgs| - 1];
      assert forall k :: 0 <= k < |init| ==> init[..k] == msgs[..k];
      RolesAreOnline(m, init);
      if msg.PlateSeen? {
        Refinement(m, init);
        BooksBalance(m, init);
        PlateGrows(m, Run(m, init), msg.peer, msg.plate, msg.timestamp);
      } else {
        RolesStep(Run(m, init).desk, msg);
      }
    }
  }

  lemma RolesStep(d: Desk, msg: Message)
    requires !msg.PlateSeen?
    ensures var d' := DeskStep(d, msg);
            && d'.cameras.Keys <= d.cameras.Keys + {msg.peer}
            && d'.dispatchers.Keys <= d.dispatchers.Keys + {msg.peer}
            && (msg.Disconnected? ==> msg.peer !in d'.cameras && msg.peer !in d'.dispatchers)
            && (msg.Connected? ==> d'.cameras == d.cameras && d'.dispatchers == d.dispatchers)
            && d'.clients == d.clients + (if msg.Connected? then {msg.peer} else {})
  {
    match msg
    case IAmDispatcher(peer, roads) =>
      EnlistRoles(d.(dispatchers := d.dispatchers[peer := roads]), peer, roads);
    case _ =>
  }

  lemma {:induction false} EnlistRoles(d: Desk, peer: PeerId, roads: seq<RoadId>)
    ensures var d' := Enlist(d, peer, roads);
            SameRoles(d, d')
    decreases |roads|
  {
    if roads != [] {
      EnlistRoles(d, peer, roads[..|roads| - 1]);
    }
  }

  /** Every ticket a step writes goes to a connected, known client registered for the ticket's road. */
  lemma DeliveriesReachDispatchers(m: Meter, msgs: seq<Message>, msg: Message, k: nat)
    requires Disciplined(msgs + [msg])
    requires |Run(m, msgs).desk.out| <= k < |Run(m, msgs + [msg]).desk.out|
    requires Run(m, msgs + [msg]).desk.out[k].Handed?
    ensures var d := Run(m, msgs + [msg]).desk;
            var e := d.out[k];
            && Registered(d.dispatchers, e.peer, e.ticket.road)
            && e.peer in d.clients && e.peer in Online(msgs + [msg])
  {
    NextGrows(m, msgs, msg);
    RolesAreOnline(m, msgs + [msg]);
  }

  ghost predicate RoleKept(d: Desk, d': Desk, peer: PeerId) {
    && (peer in d.cameras ==> peer in d'.cameras && d'.cameras[peer] == d.cameras[peer])
    && (peer in d.dispatchers ==> peer in d'.dispatchers && d'.dispatchers[peer] == d.dispatchers[peer])
  }

  lemma DeskKeepsRole(d: Desk, msg: Message, peer: PeerId)
    requires msg != Disconnected(peer)
    ensures RoleKept(d, DeskStep(d, msg), peer)
  {
    if msg.IAmDispatcher? {
      EnlistRoles(d.(dispatchers := d.dispatchers[msg.peer := msg.roads]), msg.peer, msg.roads);
    }
  }

  /** A client keeps its first role, and that role's data, until it disconnects. */
  lemma RolesAreFinal(m: Meter, s: State, msg: Message, peer: PeerId)
    requires DeskOk(s.desk) && msg != Disconnected(peer)
    ensures RoleKept(s.desk, Step(m, s, msg).desk, peer)
  {
    if msg.PlateSeen? {
      PlateGrows(m, s, msg.peer, msg.plate, msg.timestamp);
    } else {
      DeskKeepsRole(s.desk, msg, peer);
    }
  }

  /** Is the reason given to a refused client true of it? */
  ghost predicate TrueReason(d: Desk, e: Event) {
    e.Refused? ==>
      match e.reason
      case AlreadyCamera => e.peer in d.cameras
      case AlreadyDispatcher => e.peer in d.dispatchers
      case NotACamera => e.peer !in d.cameras
  }

  ghost predicate NewReasonsTrue(before: Desk, after: Desk) {
    forall k :: |before.out| <= k < |after.out| ==> TrueReason(before, after.out[k])
  }

  lemma {:induction false} EnlistRefusesNobody(d: Desk, peer: PeerId, roads: seq<RoadId>)
    ensures var d' := Enlist(d, peer, roads);
            d.out <= d'.out && forall k :: |d.out| <= k < |d'.out| ==> d'.out[k].Handed?
    decreases |roads|
  {
    if roads != [] {
      EnlistRefusesNobody(d, peer, roads[..|roads| - 1]);
    }
  }

  /** Registering is refused for one of two reasons, or writes tickets only. */
  lemma RegisterRefusals(d: Desk, peer: PeerId, roads: seq<RoadId>)
    ensures var d' := RegisterDispatcher(d, peer, roads);
            if peer in d.dispatchers then d' == Refuse(d, peer, AlreadyDispatcher)
            else if peer in d.cameras then d' == Refuse(d, peer, AlreadyCamera)
            else d.out <= d'.out && forall k :: |d.out| <= k < |d'.out| ==> d'.out[k].Handed?
  {
    EnlistRefusesNobody(d.(dispatchers := d.dispatchers[peer := roads]), peer, roads);
  }

  /** Every refusal a step writes tells its client the truth, and a message that is refused changes nothing else. */
  lemma RefusalsAreTrue(m: Meter, s: State, msg: Message)
    ensures var s' := Step(m, s, msg);
            && NewReasonsTrue(s.desk, s'.desk)
            && ((exists k :: |s.desk.out| <= k < |s'.desk.out| && s'.desk.out[k].Refused?) ==>
                  s' == s.(desk := s.desk.(out := s'.desk.out)))
  {
    match msg
    case PlateSeen(peer, plate, timestamp) => PlateRefusals(m, s, peer, plate, timestamp);
    case IAmDispatcher(peer, roads) => RegisterRefusals(s.desk, peer, roads);
    case _ =>
  }

  lemma PlateRefusals(m: Meter, s: State, peer: PeerId, plate: Plate, timestamp: uint32)
    ensures var s' := PlateStep(m, s, peer, plate, timestamp);
            if peer in s.desk.cameras
            then s.desk.out <= s'.desk.out && forall k :: |s.desk.out| <= k < |s'.desk.out| ==> s'.desk.out[k].Handed?
            else s' == s.(desk := Refuse(s.desk, peer, NotACamera))
  {
    if peer in s.desk.cameras {
      var camera := s.desk.cameras[peer];
      var new_ := Reading(plate, timestamp, camera.road, camera.mile);
      var s0 := s.(seen := s.seen + [Observation(new_, camera.limit)]);
      var list := At(s.readings, plate) + [new_];
      if !IsTicketed(s.ticketed, Day(timestamp), plate) && |list| >= 2 {
        assert PlateStep(m, s, peer, plate, timestamp) == Examine(m, s0, list, camera.limit);
      }
    }
  }

  // ---- Arithmetic ----

  /** Speed in exact arithmetic: miles per hour against the limit, and hundredths for the report. */
  const EXACT := Meter(
    (scaled: int, time: int, limit: int) => scaled > limit * time,
    (scaled: int, time: int) => if time <= 0 then 0 else scaled * 100 / time % 0x1_0000)

  function TicketDistance(t: Ticket): nat {
    if t.mile1 < t.mile2 then t.mile2 - t.mile1 else t.mile1 - t.mile2
  }

  ghost predicate BrokenLimit(t: Ticket, limit: uint16) {
    TicketDistance(t) * 3600 > limit * (t.timestamp2 - t.timestamp1)
  }

  /** The reported speed is the floor of the average speed in hundredths of a mile per hour. */
  ghost predicate FloorSpeed(t: Ticket) {
    var time := t.timestamp2 - t.timestamp1;
    t.speed * time <= TicketDistance(t) * 360000 < (t.speed + 1) * time
  }

  /** The ticket states two received readings, and between them the limit of the camera whose report arrived
      second was broken; the speed is rounded down exactly when it fits 16 bits. */
  ghost predicate ExactlyRight(seen: seq<Observation>, t: Ticket, i: nat, j: nat)
    requires i < |seen| && j < |seen|
  {
    && Evidence(EXACT, seen, t, i, j)
    && BrokenLimit(t, if i < j then seen[j].limit else seen[i].limit)
    && (TicketDistance(t) * 360000 < 0x1_0000 * (t.timestamp2 - t.timestamp1) <==> FloorSpeed(t))
  }

  lemma ExactSource(t: Ticket, a: Reading, b: Reading, limit: uint16)
    requires Tells(EXACT, t, a, b, limit)
    ensures BrokenLimit(t, limit)
    ensures TicketDistance(t) * 360000 < 0x1_0000 * (t.timestamp2 - t.timestamp1) <==> FloorSpeed(t)
  {
    FloorFits(TicketDistance(t) * 360000, t.timestamp2 - t.timestamp1, t.speed);
  }

  /** In exact arithmetic every ticket comes from two received readings that broke a camera's limit, and
      reports the speed rounded down exactly when that fits 16 bits. */
  lemma ExactTickets(msgs: seq<Message>, t: Ticket)
    requires t in Run(EXACT, msgs).issued
    ensures var seen := Run(EXACT, msgs).seen;
            exists i, j :: 0 <= i < |seen| && 0 <= j < |seen| && ExactlyRight(seen, t, i, j)
  {
    Soundness(EXACT, msgs, t);
    var seen := Run(EXACT, msgs).seen;
    var i, j :| 0 <= i < |seen| && 0 <= j < |seen| && Evidence(EXACT, seen, t, i, j);
    ExactSource(t, seen[i].reading, seen[j].reading, if i < j then seen[j].limit else seen[i].limit);
    assert ExactlyRight(seen, t, i, j);
  }

  lemma FloorFits(n: nat, time: int, speed: uint16)
    requires time > 0 && speed == n / time % 0x1_0000
    ensures n < 0x1_0000 * time <==> speed * time <= n < (speed + 1) * time
  {
    var q := n / time;
    assert q * time <= n < q * time + time;
    assert (speed + 1) * time == speed * time + time;
    if n < 0x1_0000 * time && q >= 0x1_0000 {
      Scale(time, 0x1_0000, q);
    }
    Scale(time, speed + 1, 0x1_0000);
  }
}
