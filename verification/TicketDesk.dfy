/** Everything in handlingServer except the plate log: who is connected, who plays which role, which
    dispatchers serve a road, which tickets wait for one, and what has been written to the clients. */
module TicketDesk {
  import opened Prelude
  import opened Balancers

  type PeerId = nat
  type Plate = seq<byte>
  type RoadId = uint16

  datatype Camera = Camera(road: RoadId, mile: uint16, limit: uint16)

  datatype Ticket = Ticket(plate: Plate, road: RoadId, mile1: uint16, timestamp1: uint32,
                           mile2: uint16, timestamp2: uint32, speed: uint16)

  datatype Refusal = AlreadyCamera | AlreadyDispatcher | NotACamera

  /** A write to a client's connection. */
  datatype Event = Handed(peer: PeerId, ticket: Ticket) | Refused(peer: PeerId, reason: Refusal)

  datatype Desk = Desk(
    clients: set<PeerId>,
    cameras: map<PeerId, Camera>,
    dispatchers: map<PeerId, seq<RoadId>>,
    roads: map<RoadId, Ring<PeerId>>,
    pending: map<RoadId, seq<Ticket>>,
    out: seq<Event>)

  const CLOSED_DESK := Desk({}, map[], map[], map[], map[], [])

  function Refuse(d: Desk, peer: PeerId, reason: Refusal): Desk {
    d.(out := d.out + [Refused(peer, reason)])
  }

  function Connect(d: Desk, peer: PeerId): Desk {
    d.(clients := d.clients + {peer})
  }

  function RegisterCamera(d: Desk, peer: PeerId, camera: Camera): Desk {
    if peer in d.cameras then Refuse(d, peer, AlreadyCamera)
    else if peer in d.dispatchers then Refuse(d, peer, AlreadyDispatcher)
    else d.(cameras := d.cameras[peer := camera])
  }

  function HandAll(peer: PeerId, tickets: seq<Ticket>): (events: seq<Event>)
    ensures |events| == |tickets|
    ensures forall i :: 0 <= i < |events| ==> events[i] == Handed(peer, tickets[i])
  {
    seq(|tickets|, i requires 0 <= i < |tickets| => Handed(peer, tickets[i]))
  }

  function RingOf(d: Desk, road: RoadId): Ring<PeerId> {
    if road in d.roads then d.roads[road] else Ring([], 0)
  }

  function EnlistOne(d: Desk, peer: PeerId, road: RoadId): Desk {
    var d1 := d.(roads := d.roads[road := Included(RingOf(d, road), peer)]);
    var waiting := At(d.pending, road);
    if waiting == [] then d1
    else d1.(out := d.out + HandAll(peer, waiting), pending := d.pending[road := []])
  }

  function Enlist(d: Desk, peer: PeerId, roads: seq<RoadId>): Desk
    decreases |roads|
  {
    if roads == [] then d
    else EnlistOne(Enlist(d, peer, roads[..|roads| - 1]), peer, roads[|roads| - 1])
  }

  function RegisterDispatcher(d: Desk, peer: PeerId, roads: seq<RoadId>): Desk {
    if peer in d.dispatchers then Refuse(d, peer, AlreadyDispatcher)
    else if peer in d.cameras then Refuse(d, peer, AlreadyCamera)
    else Enlist(d.(dispatchers := d.dispatchers[peer := roads]), peer, roads)
  }

  /** The balancers without the peer; those that become empty are gone. */
  function Without(roads: map<RoadId, Ring<PeerId>>, peer: PeerId): map<RoadId, Ring<PeerId>> {
    map r | r in roads && Excluded(roads[r], peer).items != [] :: Excluded(roads[r], peer)
  }

  function Disconnect(d: Desk, peer: PeerId): Desk {
    var d1 := d.(cameras := d.cameras - {peer});
    if peer !in d.dispatchers then d1
    else
      d1.(dispatchers := d.dispatchers - {peer}, roads := Without(d.roads, peer))
  }

  /** Hand a new ticket to the road's next dispatcher, or queue it. */
  function HandOut(d: Desk, ticket: Ticket): Desk {
    var ring := RingOf(d, ticket.road);
    if 0 <= ring.index < |ring.items| then
      d.(out := d.out + [Handed(ring.items[ring.index], ticket)],
         roads := d.roads[ticket.road := Rotated(ring)])
    else
      d.(pending := d.pending[ticket.road := At(d.pending, ticket.road) + [ticket]])
  }

  // ---- What the desk always satisfies ----

  ghost predicate Registered(dispatchers: map<PeerId, seq<RoadId>>, peer: PeerId, road: RoadId) {
    peer in dispatchers && road in dispatchers[peer]
  }

  /** The balancer of each road holds exactly the dispatchers registered for it, once each. */
  ghost predicate IndexAgrees(dispatchers: map<PeerId, seq<RoadId>>, roads: map<RoadId, Ring<PeerId>>) {
    && (forall r :: r in roads ==> Valid(roads[r]) && roads[r].items != [])
    && (forall r, p :: r in roads && p in roads[r].items ==> Registered(dispatchers, p, r))
    && (forall r, p :: Registered(dispatchers, p, r) ==> r in roads && p in roads[r].items)
  }

  ghost predicate RolesDisjoint(d: Desk) {
    forall p :: p in d.cameras ==> p !in d.dispatchers
  }

  /** Tickets wait each under its own road ... */
  ghost predicate Filed(pending: map<RoadId, seq<Ticket>>) {
    forall r, i :: r in pending && 0 <= i < |pending[r]| ==> pending[r][i].road == r
  }

  /** ... and only on roads nobody serves. */
  ghost predicate QueuesIdle(d: Desk) {
    forall r :: r in d.roads ==> At(d.pending, r) == []
  }

  ghost predicate DeskOk(d: Desk) {
    IndexAgrees(d.dispatchers, d.roads) && RolesDisjoint(d) && Filed(d.pending) && QueuesIdle(d)
  }

  /** The tickets of one road, in order. */
  function OnRoad(tickets: seq<Ticket>, road: RoadId): seq<Ticket> {
    if tickets == [] then []
    else
      var last := tickets[|tickets| - 1];
      OnRoad(tickets[..|tickets| - 1], road) + (if last.road == road then [last] else [])
  }

  /** The tickets of one road among the writes, in order. */
  function HandedOn(out: seq<Event>, road: RoadId): seq<Ticket> {
    if out == [] then []
    else
      var last := out[|out| - 1];
      HandedOn(out[..|out| - 1], road) + (if last.Handed? && last.ticket.road == road then [last.ticket] else [])
  }

  /** Handed-over tickets followed by the waiting ones are the issued ones, road by road and in order. */
  ghost predicate Conserved(d: Desk, issued: seq<Ticket>) {
    forall r: RoadId :: HandedOn(d.out, r) + At(d.pending, r) == OnRoad(issued, r)
  }

  lemma {:induction false} HandedOnConcat(a: seq<Event>, b: seq<Event>, road: RoadId)
    ensures HandedOn(a + b, road) == HandedOn(a, road) + HandedOn(b, road)
    decreases |b|
  {
    if b == [] {
      assert a + b == a;
    } else {
      HandedOnConcat(a, b[..|b| - 1], road);
      assert (a + b)[..|a + b| - 1] == a + b[..|b| - 1];
    }
  }

  lemma {:induction false} HandedOnAll(peer: PeerId, tickets: seq<Ticket>, home: RoadId, road: RoadId)
    requires forall i :: 0 <= i < |tickets| ==> tickets[i].road == home
    ensures HandedOn(HandAll(peer, tickets), road) == if road == home then tickets else []
    decreases |tickets|
  {
    if tickets != [] {
      var init := tickets[..|tickets| - 1];
      HandedOnAll(peer, init, home, road);
      assert HandAll(peer, tickets)[..|tickets| - 1] == HandAll(peer, init);
      assert tickets == init + [tickets[|tickets| - 1]];
    }
  }

  lemma OutGrows(out: seq<Event>, e: Event, road: RoadId)
    ensures HandedOn(out + [e], road) ==
            HandedOn(out, road) + (if e.Handed? && e.ticket.road == road then [e.ticket] else [])
  {
    assert (out + [e])[..|out|] == out;
  }

  // ---- Each desk operation keeps it ----

  lemma RefuseKeeps(d: Desk, peer: PeerId, reason: Refusal, issued: seq<Ticket>)
    requires DeskOk(d) && Conserved(d, issued)
    ensures DeskOk(Refuse(d, peer, reason)) && Conserved(Refuse(d, peer, reason), issued)
  {
    forall r: RoadId
      ensures HandedOn(Refuse(d, peer, reason).out, r) + At(d.pending, r) == OnRoad(issued, r)
    {
      OutGrows(d.out, Refused(peer, reason), r);
    }
  }

  lemma {:induction false} EnlistFrame(d: Desk, peer: PeerId, roads: seq<RoadId>)
    requires Filed(d.pending)
    ensures var d' := Enlist(d, peer, roads);
            && d'.dispatchers == d.dispatchers && d'.cameras == d.cameras && d'.clients == d.clients
            && Filed(d'.pending)
    decreases |roads|
  {
    if roads != [] {
      EnlistFrame(d, peer, roads[..|roads| - 1]);
    }
  }

  /** Enlisting registers the peer once on each of its roads and touches no other balancer. */
  lemma {:induction false} EnlistRings(d: Desk, peer: PeerId, roads: seq<RoadId>, road: RoadId)
    ensures var d' := Enlist(d, peer, roads);
            && (road in d'.roads <==> road in d.roads || road in roads)
            && RingOf(d', road) == if road in roads then Included(RingOf(d, road), peer) else RingOf(d, road)
    decreases |roads|
  {
    if roads != [] {
      var init, last := roads[..|roads| - 1], roads[|roads| - 1];
      EnlistRings(d, peer, init, road);
      assert roads == init + [last];
    }
  }

  lemma EnlistOneHands(d: Desk, peer: PeerId, home: RoadId, road: RoadId)
    requires Filed(d.pending)
    ensures Handing(d, EnlistOne(d, peer, home), road, road == home)
  {
    var waiting := At(d.pending, home);
    HandedOnConcat(d.out, HandAll(peer, waiting), road);
    HandedOnAll(peer, waiting, home, road);
  }

  /** One road's waiting tickets: handed over in order if it is served, left alone if not. */
  ghost predicate Handing(before: Desk, after: Desk, road: RoadId, served: bool) {
    && At(after.pending, road) == (if served then [] else At(before.pending, road))
    && HandedOn(after.out, road) == HandedOn(before.out, road) + (if served then At(before.pending, road) else [])
  }

  lemma HandingTwice(d: Desk, d1: Desk, d2: Desk, road: RoadId, first: bool, second: bool)
    requires Handing(d, d1, road, first) && Handing(d1, d2, road, second)
    ensures Handing(d, d2, road, first || second)
  {
  }

  /** Enlisting hands over the waiting tickets of each of its roads, in order, and no others. */
  lemma {:induction false} EnlistHands(d: Desk, peer: PeerId, roads: seq<RoadId>, road: RoadId)
    requires Filed(d.pending)
    ensures Handing(d, Enlist(d, peer, roads), road, road in roads)
    decreases |roads|
  {
    if roads != [] {
      var init, last := roads[..|roads| - 1], roads[|roads| - 1];
      EnlistHands(d, peer, init, road);
      EnlistFrame(d, peer, init);
      EnlistOneHands(Enlist(d, peer, init), peer, last, road);
      HandingTwice(d, Enlist(d, peer, init), Enlist(d, peer, roads), road, road in init, road == last);
      assert roads == init + [last];
    }
  }

  lemma EnlistIndex(d: Desk, peer: PeerId, roads: seq<RoadId>)
    requires IndexAgrees(d.dispatchers, d.roads) && Filed(d.pending) && peer !in d.dispatchers
    ensures var d0 := d.(dispatchers := d.dispatchers[peer := roads]);
            IndexAgrees(d0.dispatchers, Enlist(d0, peer, roads).roads)
  {
    var d0 := d.(dispatchers := d.dispatchers[peer := roads]);
    var rings := Enlist(d0, peer, roads).roads;
    forall r | r in rings
      ensures Valid(rings[r]) && rings[r].items != []
      ensures forall p :: p in rings[r].items <==> Registered(d0.dispatchers, p, r)
    {
      EnlistRings(d0, peer, roads, r);
      ApplyKeepsValid(RingOf(d, r), Add(peer));
      assert rings[r] == RingOf(Enlist(d0, peer, roads), r);
      assert forall p :: p != peer ==> (Registered(d0.dispatchers, p, r) <==> Registered(d.dispatchers, p, r));
    }
    forall r, p | Registered(d0.dispatchers, p, r)
      ensures r in rings
    {
      EnlistRings(d0, peer, roads, r);
      assert p != peer ==> Registered(d.dispatchers, p, r);
    }
  }

  lemma EnlistOnRoad(d: Desk, peer: PeerId, roads: seq<RoadId>, issued: seq<Ticket>, r: RoadId)
    requires Filed(d.pending) && QueuesIdle(d) && HandedOn(d.out, r) + At(d.pending, r) == OnRoad(issued, r)
    ensures var d' := Enlist(d, peer, roads);
            HandedOn(d'.out, r) + At(d'.pending, r) == OnRoad(issued, r) && (r in d'.roads ==> At(d'.pending, r) == [])
  {
    EnlistHands(d, peer, roads, r);
    EnlistRings(d, peer, roads, r);
  }

  lemma RegisterDispatcherKeeps(d: Desk, peer: PeerId, roads: seq<RoadId>, issued: seq<Ticket>)
    requires DeskOk(d) && Conserved(d, issued)
    ensures var d' := RegisterDispatcher(d, peer, roads); DeskOk(d') && Conserved(d', issued)
  {
    if peer in d.dispatchers {
      RefuseKeeps(d, peer, AlreadyDispatcher, issued);
    } else if peer in d.cameras {
      RefuseKeeps(d, peer, AlreadyCamera, issued);
    } else {
      var d0 := d.(dispatchers := d.dispatchers[peer := roads]);
      EnlistFrame(d0, peer, roads);
      EnlistIndex(d, peer, roads);
      forall r: RoadId
        ensures var d' := Enlist(d0, peer, roads);
                HandedOn(d'.out, r) + At(d'.pending, r) == OnRoad(issued, r) &&
                (r in d'.roads ==> At(d'.pending, r) == [])
      {
        assert HandedOn(d.out, r) + At(d.pending, r) == OnRoad(issued, r);
        EnlistOnRoad(d0, peer, roads, issued, r);
      }
    }
  }

  lemma ExcludedMembers(r: Ring<PeerId>, peer: PeerId)
    requires Valid(r)
    ensures Valid(Excluded(r, peer))
    ensures forall p :: p in Excluded(r, peer).items <==> p in r.items && p != peer
  {
    ApplyKeepsValid(r, Remove(peer));
    RemoveRestarts(r, peer);
  }

  lemma DisconnectIndex(d: Desk, peer: PeerId)
    requires IndexAgrees(d.dispatchers, d.roads) && peer in d.dispatchers
    ensures var d' := Disconnect(d, peer); IndexAgrees(d'.dispatchers, d'.roads)
  {
    var d' := Disconnect(d, peer);
    forall r | r in d'.roads
      ensures Valid(d'.roads[r]) && d'.roads[r].items != []
      ensures forall p :: p in d'.roads[r].items ==> Registered(d'.dispatchers, p, r)
    {
      ExcludedMembers(d.roads[r], peer);
      assert forall p :: p in d.roads[r].items ==> Registered(d.dispatchers, p, r);
    }
    forall r, p | Registered(d'.dispatchers, p, r)
      ensures r in d'.roads && p in d'.roads[r].items
    {
      assert Registered(d.dispatchers, p, r);
      ExcludedMembers(d.roads[r], peer);
    }
  }

  lemma DisconnectKeeps(d: Desk, peer: PeerId, issued: seq<Ticket>)
    requires DeskOk(d) && Conserved(d, issued)
    ensures var d' := Disconnect(d, peer); DeskOk(d') && Conserved(d', issued)
  {
    var d' := Disconnect(d, peer);
    if peer in d.dispatchers {
      DisconnectIndex(d, peer);
    }
    assert d'.out == d.out && d'.pending == d.pending;
  }

  lemma OnRoadGrows(issued: seq<Ticket>, t: Ticket, road: RoadId)
    ensures OnRoad(issued + [t], road) == OnRoad(issued, road) + (if t.road == road then [t] else [])
  {
    assert (issued + [t])[..|issued|] == issued;
  }

  lemma HandOutConserves(d: Desk, t: Ticket, issued: seq<Ticket>)
    requires DeskOk(d) && Conserved(d, issued)
    ensures Conserved(HandOut(d, t), issued + [t])
  {
    assert t.road in d.roads ==> d.roads[t.road].index < |d.roads[t.road].items|;
    forall r: RoadId
      ensures HandedOn(HandOut(d, t).out, r) + At(HandOut(d, t).pending, r) == OnRoad(issued + [t], r)
    {
      OnRoadGrows(issued, t, r);
      HandOutOnRoad(d, t, issued, r);
    }
  }

  lemma HandOutOnRoad(d: Desk, t: Ticket, issued: seq<Ticket>, r: RoadId)
    requires t.road in d.roads ==> d.roads[t.road].index < |d.roads[t.road].items| && At(d.pending, t.road) == []
    requires HandedOn(d.out, r) + At(d.pending, r) == OnRoad(issued, r)
    ensures var d' := HandOut(d, t);
            HandedOn(d'.out, r) + At(d'.pending, r) == OnRoad(issued, r) + (if t.road == r then [t] else [])
  {
    if t.road in d.roads {
      var ring := d.roads[t.road];
      OutGrows(d.out, Handed(ring.items[ring.index], t), r);
    }
  }

  lemma HandOutKeeps(d: Desk, t: Ticket)
    requires DeskOk(d)
    ensures DeskOk(HandOut(d, t))
  {
    if t.road in d.roads {
      ApplyKeepsValid(d.roads[t.road], Get);
    }
  }

  /** Every ticket an operation writes goes to a client registered for the ticket's road. */
  ghost predicate WellAddressed(before: Desk, after: Desk) {
    && before.out <= after.out
    && forall i :: |before.out| <= i < |after.out| && after.out[i].Handed? ==>
         Registered(after.dispatchers, after.out[i].peer, after.out[i].ticket.road)
  }

  lemma {:induction false} EnlistAddresses(d: Desk, peer: PeerId, roads: seq<RoadId>, all: seq<RoadId>)
    requires Filed(d.pending) && roads <= all && peer in d.dispatchers && d.dispatchers[peer] == all
    ensures WellAddressed(d, Enlist(d, peer, roads))
    decreases |roads|
  {
    if roads != [] {
      var init, last := roads[..|roads| - 1], roads[|roads| - 1];
      EnlistAddresses(d, peer, init, all);
      EnlistFrame(d, peer, init);
      assert last == all[|roads| - 1];
    }
  }

  lemma HandOutAddresses(d: Desk, t: Ticket)
    requires DeskOk(d)
    ensures WellAddressed(d, HandOut(d, t))
  {
    if t.road in d.roads {
      var ring := d.roads[t.road];
      assert ring.items[ring.index] in ring.items;
    }
  }
}
