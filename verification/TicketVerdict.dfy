/** What one report of a plate leads to, told from the messages, the readings and the tickets before it. */
module TicketVerdicts {
  import opened Prelude
  import opened TicketDesk
  import opened TicketMachine
  import opened TicketReference
  import opened TicketTheorems
  import opened TicketHistory

  /** No ticket of the plate has a day in common with the days from one reading to the other. */
  ghost predicate Unpunished(issued: seq<Ticket>, a: Reading, b: Reading) {
    forall k, day :: 0 <= k < |issued| && issued[k].plate == b.plate ==> !Shares(issued[k], a, b, day)
  }

  /** Reading i of the history makes a ticket with the new one. */
  ghost predicate Convicts(m: Meter, seen: seq<Observation>, issued: seq<Ticket>, i: int, new_: Reading,
                           limit: uint16) {
    && 0 <= i < |seen|
    && TooFast(m, seen[i].reading, new_, limit)
    && Unpunished(issued, seen[i].reading, new_)
  }

  /** It is the first that does. */
  ghost predicate FirstToConvict(m: Meter, seen: seq<Observation>, issued: seq<Ticket>, i: int, new_: Reading,
                                 limit: uint16) {
    && Convicts(m, seen, issued, i, new_, limit)
    && forall j :: 0 <= j < i ==> !Convicts(m, seen, issued, j, new_, limit)
  }

  /** The ticket for two readings, the earlier one first. */
  function Conviction(m: Meter, a: Reading, b: Reading): Ticket {
    var miles := if a.mile < b.mile then b.mile - a.mile else a.mile - b.mile;
    if a.timestamp < b.timestamp then
      Ticket(b.plate, b.road, a.mile, a.timestamp, b.mile, b.timestamp,
             m.centi(miles * 3600, b.timestamp - a.timestamp))
    else
      Ticket(b.plate, b.road, b.mile, b.timestamp, a.mile, a.timestamp,
             m.centi(miles * 3600, a.timestamp - b.timestamp))
  }

  lemma ApartIsUntouched(issued: seq<Ticket>, a: Reading, b: Reading)
    requires TicketsOrdered(issued)
    ensures Unpunished(issued, a, b) <==>
            Untouched(issued, b.plate, Day(Earlier(a, b).timestamp), Day(Later(a, b).timestamp))
  {
    var lo, hi := Day(Earlier(a, b).timestamp), Day(Later(a, b).timestamp);
    DayOrder(a, b);
    forall k | 0 <= k < |issued|
      ensures (forall day :: !Shares(issued[k], a, b, day)) <==>
              hi < Day(issued[k].timestamp1) || Day(issued[k].timestamp2) < lo
    {
      var t := issued[k];
      DayMonotone(t.timestamp1, t.timestamp2);
      var day := if Day(t.timestamp1) < lo then lo else Day(t.timestamp1);
      assert Shares(t, a, b, day) <==> !(hi < Day(t.timestamp1) || Day(t.timestamp2) < lo);
    }
  }

  lemma ConvictsIsPairs(m: Meter, seen: seq<Observation>, issued: seq<Ticket>, i: int, new_: Reading, limit: uint16)
    requires TicketsOrdered(issued) && 0 <= i < |seen|
    ensures Convicts(m, seen, issued, i, new_, limit) <==> Pairs(m, issued, seen[i].reading, new_, limit)
  {
    ApartIsUntouched(issued, seen[i].reading, new_);
  }

  lemma PickConvicts(m: Meter, seen: seq<Observation>, issued: seq<Ticket>, new_: Reading, limit: uint16)
    requires TicketsOrdered(issued)
    ensures match FirstPair(m, seen, issued, new_, limit)
            case None => forall i :: !Convicts(m, seen, issued, i, new_, limit)
            case Some(r) => exists i :: FirstToConvict(m, seen, issued, i, new_, limit) && seen[i].reading == r
  {
    var i := FirstPairPicks(m, seen, issued, new_, limit);
    forall j | 0 <= j < |seen|
      ensures Convicts(m, seen, issued, j, new_, limit) <==> Pairs(m, issued, seen[j].reading, new_, limit)
    {
      ConvictsIsPairs(m, seen, issued, j, new_, limit);
    }
    if FirstPair(m, seen, issued, new_, limit).Some? {
      assert FirstToConvict(m, seen, issued, i, new_, limit);
    }
  }

  /** One ticket, made with the first reading that convicts; or none, if none does. */
  ghost predicate Judged(m: Meter, seen: seq<Observation>, before: seq<Ticket>, after: seq<Ticket>, new_: Reading,
                         limit: uint16) {
    if forall i :: !Convicts(m, seen, before, i, new_, limit) then after == before
    else
      exists i :: FirstToConvict(m, seen, before, i, new_, limit) &&
        after == before + [Conviction(m, seen[i].reading, new_)]
  }

  lemma ConvictionIsTicket(m: Meter, a: Reading, b: Reading)
    requires a.plate == b.plate
    ensures Conviction(m, a, b) == TicketFor(m, a, b)
  {
  }

  /** The plate step of the reference, for a camera. */
  lemma NaiveVerdict(m: Meter, n: Naive, peer: PeerId, plate: Plate, timestamp: uint32)
    requires peer in n.desk.cameras && TicketsOrdered(n.issued)
    ensures var n', camera := NaivePlate(m, n, peer, plate, timestamp), n.desk.cameras[peer];
            var new_ := Reading(plate, timestamp, camera.road, camera.mile);
            && n'.seen == n.seen + [Observation(new_, camera.limit)]
            && Judged(m, n.seen, n.issued, n'.issued, new_, camera.limit)
  {
    var camera := n.desk.cameras[peer];
    var new_ := Reading(plate, timestamp, camera.road, camera.mile);
    PickConvicts(m, n.seen, n.issued, new_, camera.limit);
    match FirstPair(m, n.seen, n.issued, new_, camera.limit)
    case None =>
    case Some(r) =>
      var i :| FirstToConvict(m, n.seen, n.issued, i, new_, camera.limit) && n.seen[i].reading == r;
      ConvictionIsTicket(m, r, new_);
  }

  /** A camera's report is recorded with its road, mile and limit. It makes exactly one ticket if some earlier
      reading, in either order of time, is too far away for the time and the plate has no ticket yet on the
      days between; the ticket is made with the first such reading to arrive. Otherwise it makes none. */
  lemma Verdict(m: Meter, msgs: seq<Message>, k: int, peer: PeerId, plate: Plate, timestamp: uint32)
    requires TakesRole(msgs, k, peer) && msgs[k].IAmCamera?
    ensures var s, s' := Run(m, msgs), Run(m, msgs + [PlateSeen(peer, plate, timestamp)]);
            var camera := msgs[k].camera;
            var new_ := Reading(plate, timestamp, camera.road, camera.mile);
            && s'.seen == s.seen + [Observation(new_, camera.limit)]
            && Judged(m, s.seen, s.issued, s'.issued, new_, camera.limit)
  {
    var msg := PlateSeen(peer, plate, timestamp);
    RolesFollowHistory(m, msgs, peer);
    Refinement(m, msgs);
    Refinement(m, msgs + [msg]);
    assert (msgs + [msg])[..|msgs|] == msgs;
    NaiveVerdict(m, NaiveRun(m, msgs), peer, plate, timestamp);
  }
}
