/** Who is handed which ticket: each road's rotation, told from the messages and the tickets issued. */
module TicketRotas {
  import opened Prelude
  import opened Arithmetic
  import opened Balancers
  import opened TicketDesk
  import opened TicketMachine
  import opened TicketReference
  import opened TicketTheorems
  import opened TicketHistory

  /** Somebody serves the road. */
  ghost predicate Staffed(msgs: seq<Message>, road: RoadId) {
    exists peer :: OnDuty(msgs, peer, road)
  }

  /** How many tickets for the road were issued. */
  ghost function IssuedOn(m: Meter, msgs: seq<Message>, road: RoadId): nat {
    |OnRoad(Run(m, msgs).issued, road)|
  }

  /** The message makes a ticket for the road. */
  ghost predicate Tickets(m: Meter, msgs: seq<Message>, msg: Message, road: RoadId) {
    IssuedOn(m, msgs, road) < IssuedOn(m, msgs + [msg], road)
  }

  /** What a message means for the road's rotation: an accepted registration naming the road joins it, the
      disconnect of a dispatcher of the road leaves it, and a ticket issued while it is staffed takes a turn. */
  ghost function RoadOp(m: Meter, msgs: seq<Message>, msg: Message, road: RoadId): seq<Op<PeerId>> {
    match msg
    case IAmDispatcher(peer, roads) => if road in roads && !HasRole(msgs, peer) then [Op.Add(peer)] else []
    case Disconnected(peer) => if OnDuty(msgs, peer, road) then [Op.Remove(peer)] else []
    case PlateSeen(_, _, _) => if Tickets(m, msgs, msg, road) && Staffed(msgs, road) then [Op.Get] else []
    case _ => []
  }

  ghost function RoadOps(m: Meter, msgs: seq<Message>, road: RoadId): seq<Op<PeerId>> {
    if msgs == [] then []
    else RoadOps(m, msgs[..|msgs| - 1], road) + RoadOp(m, msgs[..|msgs| - 1], msgs[|msgs| - 1], road)
  }

  /** The members that the Gets of a run of operations serve, in order. */
  ghost function Turns(r: Ring<PeerId>, ops: seq<Op<PeerId>>): seq<PeerId>
    decreases |ops|
  {
    if ops == [] then []
    else
      (if ops[0].Get? && r.index < |r.items| then [r.items[r.index]] else []) + Turns(Apply(r, ops[0]), ops[1..])
  }

  /** The receivers of the road's tickets among the writes, in order. */
  function HandedTo(out: seq<Event>, road: RoadId): seq<PeerId> {
    if out == [] then []
    else
      var last := out[|out| - 1];
      HandedTo(out[..|out| - 1], road) + (if last.Handed? && last.ticket.road == road then [last.peer] else [])
  }

  /** The receivers of the road's tickets that were handed over when they were issued. */
  ghost function Receivers(m: Meter, msgs: seq<Message>, road: RoadId): seq<PeerId> {
    if msgs == [] then []
    else
      var init, msg := msgs[..|msgs| - 1], msgs[|msgs| - 1];
      var before, after := Run(m, init).desk.out, Run(m, msgs).desk.out;
      Receivers(m, init, road) +
      (if msg.PlateSeen? && before <= after then HandedTo(after[|before|..], road) else [])
  }

  lemma {:induction false} TurnsConcat(r: Ring<PeerId>, a: seq<Op<PeerId>>, b: seq<Op<PeerId>>)
    ensures Turns(r, a + b) == Turns(r, a) + Turns(After(r, a), b)
    ensures After(r, a + b) == After(After(r, a), b)
    decreases |a|
  {
    if a == [] {
      assert a + b == b;
    } else {
      assert (a + b)[1..] == a[1..] + b;
      TurnsConcat(Apply(r, a[0]), a[1..], b);
    }
  }

  lemma OneOp(r: Ring<PeerId>, op: Op<PeerId>)
    ensures After(r, [op]) == Apply(r, op)
    ensures Turns(r, [op]) == if op.Get? && r.index < |r.items| then [r.items[r.index]] else []
  {
    assert [op][1..] == [];
  }

  // ---- One message ----

  lemma DeskIsOk(m: Meter, msgs: seq<Message>)
    ensures DeskOk(Run(m, msgs).desk)
  {
    Refinement(m, msgs);
    BooksBalance(m, msgs);
  }

  lemma RingIsDuty(m: Meter, msgs: seq<Message>, road: RoadId)
    ensures var ring := RingOf(Run(m, msgs).desk, road);
            Valid(ring) && forall peer :: peer in ring.items <==> OnDuty(msgs, peer, road)
  {
    DeskIsOk(m, msgs);
    var d := Run(m, msgs).desk;
    forall peer
      ensures peer in RingOf(d, road).items <==> OnDuty(msgs, peer, road)
    {
      OnDutyIsRegistered(m, msgs, peer, road);
    }
  }

  lemma JoinTurns(m: Meter, msgs: seq<Message>, msg: Message, road: RoadId)
    requires msg.IAmDispatcher?
    ensures RingOf(Run(m, msgs + [msg]).desk, road)
            == After(RingOf(Run(m, msgs).desk, road), RoadOp(m, msgs, msg, road))
  {
    var d := Run(m, msgs).desk;
    RunLast(m, msgs, msg);
    RolesFollowHistory(m, msgs, msg.peer);
    if !HasRole(msgs, msg.peer) {
      EnlistRings(d.(dispatchers := d.dispatchers[msg.peer := msg.roads]), msg.peer, msg.roads, road);
      OneOp(RingOf(d, road), Op.Add(msg.peer));
    }
  }

  lemma LeftRing(d: Desk, peer: PeerId, road: RoadId)
    requires DeskOk(d)
    ensures RingOf(Disconnect(d, peer), road)
            == if Registered(d.dispatchers, peer, road) then Excluded(RingOf(d, road), peer) else RingOf(d, road)
  {
    if road in d.roads {
      RemoveRestarts(d.roads[road], peer);
    }
  }

  lemma LeaveTurns(m: Meter, msgs: seq<Message>, msg: Message, road: RoadId)
    requires msg.Disconnected?
    ensures RingOf(Run(m, msgs + [msg]).desk, road)
            == After(RingOf(Run(m, msgs).desk, road), RoadOp(m, msgs, msg, road))
  {
    var d := Run(m, msgs).desk;
    RunLast(m, msgs, msg);
    DeskIsOk(m, msgs);
    OnDutyIsRegistered(m, msgs, msg.peer, road);
    LeftRing(d, msg.peer, road);
    OneOp(RingOf(d, road), Op.Remove(msg.peer));
  }

  /** The step from s to s' made and handed out this ticket, or made none and handed none over. */
  ghost predicate Hands(s: State, s': State, ticket: Option<Ticket>, peer: PeerId) {
    match ticket
    case Some(t) => s'.issued == s.issued + [t] && s'.desk == HandOut(s.desk, t)
    case None =>
      && s'.issued == s.issued && s'.desk.roads == s.desk.roads
      && (s'.desk.out == s.desk.out || s'.desk.out == s.desk.out + [Refused(peer, NotACamera)])
  }

  lemma PlateHands(m: Meter, msgs: seq<Message>, msg: Message) returns (ticket: Option<Ticket>)
    requires msg.PlateSeen?
    ensures Hands(Run(m, msgs), Run(m, msgs + [msg]), ticket, msg.peer)
  {
    var n := NaiveRun(m, msgs);
    Refinement(m, msgs);
    Refinement(m, msgs + [msg]);
    assert (msgs + [msg])[..|msgs|] == msgs;
    ticket := None;
    if msg.peer in n.desk.cameras {
      var camera := n.desk.cameras[msg.peer];
      var new_ := Reading(msg.plate, msg.timestamp, camera.road, camera.mile);
      var pick := FirstPair(m, n.seen, n.issued, new_, camera.limit);
      if pick.Some? {
        ticket := Some(TicketFor(m, pick.value, new_));
      }
    }
  }

  /** The events a hand-out writes for a road. */
  lemma HandOutTurns(d: Desk, t: Ticket, road: RoadId)
    requires DeskOk(d)
    ensures var d', ring := HandOut(d, t), RingOf(d, road);
            var op := if t.road == road && ring.items != [] then [Op.Get] else [];
            && RingOf(d', road) == After(ring, op)
            && d.out <= d'.out && HandedTo(d'.out[|d.out|..], road) == Turns(ring, op)
  {
    var d', ring := HandOut(d, t), RingOf(d, t.road);
    if ring.items != [] {
      var e := Handed(ring.items[ring.index], t);
      assert d'.out == d.out + [e] && d'.out[|d.out|..] == [e];
      assert HandedTo([e][..0], road) == [];
      OneOp(ring, Op.Get);
    } else {
      assert d'.out[|d.out|..] == [];
    }
  }

  lemma StaffedRing(m: Meter, msgs: seq<Message>, road: RoadId)
    ensures Staffed(msgs, road) <==> RingOf(Run(m, msgs).desk, road).items != []
    ensures var ring := RingOf(Run(m, msgs).desk, road); ring.items != [] ==> ring.index < |ring.items|
  {
    var items := RingOf(Run(m, msgs).desk, road).items;
    RingIsDuty(m, msgs, road);
    if items != [] {
      assert OnDuty(msgs, items[0], road);
    }
  }

  lemma NothingHanded(out: seq<Event>, out': seq<Event>, road: RoadId)
    requires out' == out || exists e: Event :: e.Refused? && out' == out + [e]
    ensures out <= out' && HandedTo(out'[|out|..], road) == []
  {
    if out' == out {
      assert out'[|out|..] == [];
    } else {
      var e: Event :| e.Refused? && out' == out + [e];
      assert out'[|out|..] == [e] && [e][..0] == [];
    }
  }

  lemma HandsTurns(s: State, s': State, ticket: Option<Ticket>, peer: PeerId, road: RoadId)
    requires DeskOk(s.desk) && Hands(s, s', ticket, peer)
    ensures var ring := RingOf(s.desk, road);
            var op := if |OnRoad(s.issued, road)| < |OnRoad(s'.issued, road)| && ring.items != [] then [Op.Get] else [];
            && RingOf(s'.desk, road) == After(ring, op)
            && s.desk.out <= s'.desk.out && HandedTo(s'.desk.out[|s.desk.out|..], road) == Turns(ring, op)
    ensures |OnRoad(s.issued, road)| <= |OnRoad(s'.issued, road)| <= |OnRoad(s.issued, road)| + 1
  {
    match ticket
    case Some(t) =>
      OnRoadGrows(s.issued, t, road);
      HandOutTurns(s.desk, t, road);
    case None => NothingHanded(s.desk.out, s'.desk.out, road);
  }

  /** The turn that a report of a plate takes on a road. */
  ghost function PlateOp(m: Meter, msgs: seq<Message>, msg: Message, road: RoadId): seq<Op<PeerId>> {
    if IssuedOn(m, msgs, road) < IssuedOn(m, msgs + [msg], road) && RingOf(Run(m, msgs).desk, road).items != []
    then [Op.Get] else []
  }

  lemma PlateOpIsRoadOp(m: Meter, msgs: seq<Message>, msg: Message, road: RoadId)
    requires msg.PlateSeen?
    ensures RoadOp(m, msgs, msg, road) == PlateOp(m, msgs, msg, road)
  {
    StaffedRing(m, msgs, road);
  }

  lemma PlateTurns(m: Meter, msgs: seq<Message>, msg: Message, road: RoadId)
    requires msg.PlateSeen?
    ensures var d, d' := Run(m, msgs).desk, Run(m, msgs + [msg]).desk;
            var op := PlateOp(m, msgs, msg, road);
            && RingOf(d', road) == After(RingOf(d, road), op)
            && d.out <= d'.out && HandedTo(d'.out[|d.out|..], road) == Turns(RingOf(d, road), op)
    ensures IssuedOn(m, msgs, road) <= IssuedOn(m, msgs + [msg], road) <= IssuedOn(m, msgs, road) + 1
  {
    DeskIsOk(m, msgs);
    var ticket := PlateHands(m, msgs, msg);
    HandsTurns(Run(m, msgs), Run(m, msgs + [msg]), ticket, msg.peer, road);
  }

  /** Each road's balancer is the outcome of the joins, leaves and turns its messages call for, and the tickets
      handed over when they are issued go, in order, to the members whose turn it is. */
  lemma {:induction false} RotaFollowsHistory(m: Meter, msgs: seq<Message>, road: RoadId)
    ensures var ops := RoadOps(m, msgs, road);
            && RingOf(Run(m, msgs).desk, road) == After(Ring([], 0), ops)
            && Receivers(m, msgs, road) == Turns(Ring([], 0), ops)
    decreases |msgs|
  {
    if msgs != [] {
      var init, msg := msgs[..|msgs| - 1], msgs[|msgs| - 1];
      assert msgs == init + [msg];
      RotaFollowsHistory(m, init, road);
      RotaNext(m, init, msg, road);
      TurnsConcat(Ring([], 0), RoadOps(m, init, road), RoadOp(m, init, msg, road));
    }
  }

  lemma RotaNext(m: Meter, msgs: seq<Message>, msg: Message, road: RoadId)
    ensures RingOf(Run(m, msgs + [msg]).desk, road)
            == After(RingOf(Run(m, msgs).desk, road), RoadOp(m, msgs, msg, road))
    ensures Receivers(m, msgs + [msg], road)
            == Receivers(m, msgs, road) + Turns(RingOf(Run(m, msgs).desk, road), RoadOp(m, msgs, msg, road))
  {
    var ring, op := RingOf(Run(m, msgs).desk, road), RoadOp(m, msgs, msg, road);
    assert (msgs + [msg])[..|msgs|] == msgs;
    RunLast(m, msgs, msg);
    match msg
    case PlateSeen(_, _, _) =>
      PlateTurns(m, msgs, msg, road);
      PlateOpIsRoadOp(m, msgs, msg, road);
    case IAmDispatcher(peer, _) =>
      JoinTurns(m, msgs, msg, road);
      OneOp(ring, Op.Add(peer));
    case Disconnected(peer) =>
      LeaveTurns(m, msgs, msg, road);
      OneOp(ring, Op.Remove(peer));
    case _ =>
  }

  // ---- Fair shares ----

  /** How many of the road's tickets were handed to the peer. */
  function Deliveries(out: seq<Event>, road: RoadId, peer: PeerId): nat {
    if out == [] then 0
    else
      var last := out[|out| - 1];
      Deliveries(out[..|out| - 1], road, peer)
      + (if last.Handed? && last.ticket.road == road && last.peer == peer then 1 else 0)
  }

  /** Nobody joins or leaves the road while the run goes on. */
  ghost predicate Steady(msgs: seq<Message>, more: seq<Message>, road: RoadId) {
    forall k, peer :: 0 <= k <= |more| ==> (OnDuty(msgs + more[..k], peer, road) <==> OnDuty(msgs, peer, road))
  }

  lemma {:induction false} DeliveriesConcat(a: seq<Event>, b: seq<Event>, road: RoadId, peer: PeerId)
    ensures Deliveries(a + b, road, peer) == Deliveries(a, road, peer) + Deliveries(b, road, peer)
    decreases |b|
  {
    if b == [] {
      assert a + b == a;
    } else {
      DeliveriesConcat(a, b[..|b| - 1], road, peer);
      assert (a + b)[..|a + b| - 1] == a + b[..|b| - 1];
    }
  }

  /** Events that hand over none of the road's tickets deliver none. */
  lemma {:induction false} NoneDelivered(out: seq<Event>, road: RoadId, peer: PeerId)
    requires HandedOn(out, road) == []
    ensures Deliveries(out, road, peer) == 0
    decreases |out|
  {
    if out != [] {
      NoneDelivered(out[..|out| - 1], road, peer);
    }
  }

  /** And a turn delivers one ticket to the member served. */
  lemma {:induction false} DeliveredByTurn(out: seq<Event>, road: RoadId, peer: PeerId)
    requires |HandedTo(out, road)| <= 1
    ensures Deliveries(out, road, peer) == if HandedTo(out, road) == [peer] then 1 else 0
    decreases |out|
  {
    if out != [] {
      var init, last := out[..|out| - 1], out[|out| - 1];
      DeliveredByTurn(init, road, peer);
      if last.Handed? && last.ticket.road == road {
        assert HandedTo(init, road) == [] && HandedTo(out, road) == [last.peer];
      }
    }
  }

  /** A road for one receiver: its rotation, the tickets issued for it, and those handed to the receiver. */
  datatype Tally = Tally(ring: Ring<PeerId>, issued: nat, handed: nat)

  ghost function TallyOf(m: Meter, msgs: seq<Message>, road: RoadId, peer: PeerId): Tally {
    var d := Run(m, msgs).desk;
    Tally(RingOf(d, road), IssuedOn(m, msgs, road), Deliveries(d.out, road, peer))
  }

  /** Nothing happened on the road, or one ticket was issued and handed to the member whose turn it was. */
  ghost predicate TakesTurn(a: Tally, b: Tally, peer: PeerId) {
    b == a || b == Tally(Rotated(a.ring), a.issued + 1, a.handed + Now(a.ring, Op.Get, peer))
  }

  ghost predicate Turned(m: Meter, msgs: seq<Message>, msg: Message, road: RoadId, peer: PeerId) {
    TakesTurn(TallyOf(m, msgs, road, peer), TallyOf(m, msgs + [msg], road, peer), peer)
  }

  lemma DeliveredBetween(out: seq<Event>, out': seq<Event>, road: RoadId, peer: PeerId)
    requires out <= out' && |HandedTo(out'[|out|..], road)| <= 1
    ensures Deliveries(out', road, peer)
            == Deliveries(out, road, peer) + (if HandedTo(out'[|out|..], road) == [peer] then 1 else 0)
  {
    var new_ := out'[|out|..];
    assert out' == out + new_;
    DeliveriesConcat(out, new_, road, peer);
    DeliveredByTurn(new_, road, peer);
  }

  lemma TurnTallied(a: Tally, b: Tally, out: seq<Event>, out': seq<Event>, road: RoadId, peer: PeerId)
    requires a.issued <= b.issued <= a.issued + 1 && a.ring.index < |a.ring.items|
    requires a.handed == Deliveries(out, road, peer) && b.handed == Deliveries(out', road, peer) && out <= out'
    requires var op := if a.issued < b.issued then [Op.Get] else [];
             b.ring == After(a.ring, op) && HandedTo(out'[|out|..], road) == Turns(a.ring, op)
    ensures TakesTurn(a, b, peer)
  {
    OneOp(a.ring, Op.Get);
    DeliveredBetween(out, out', road, peer);
  }

  lemma PlateTurned(m: Meter, msgs: seq<Message>, msg: Message, road: RoadId, peer: PeerId)
    requires msg.PlateSeen?
    requires var ring := RingOf(Run(m, msgs).desk, road); Valid(ring) && ring.items != []
    ensures Turned(m, msgs, msg, road, peer)
  {
    var d, d' := Run(m, msgs).desk, Run(m, msgs + [msg]).desk;
    PlateTurns(m, msgs, msg, road);
    TurnTallied(TallyOf(m, msgs, road, peer), TallyOf(m, msgs + [msg], road, peer), d.out, d'.out, road, peer);
  }

  lemma SameHandedOn(out: seq<Event>, out': seq<Event>, road: RoadId, peer: PeerId)
    requires out <= out' && HandedOn(out', road) == HandedOn(out, road)
    ensures Deliveries(out', road, peer) == Deliveries(out, road, peer)
  {
    var new_ := out'[|out|..];
    assert out' == out + new_;
    HandedOnConcat(out, new_, road);
    NoneDelivered(new_, road, peer);
    DeliveriesConcat(out, new_, road, peer);
  }

  /** A registration that leaves the road's dispatchers as they are does not name the road, or is refused. */
  lemma JoinTurned(m: Meter, msgs: seq<Message>, msg: Message, road: RoadId, peer: PeerId)
    requires msg.IAmDispatcher? && (OnDuty(msgs + [msg], msg.peer, road) <==> OnDuty(msgs, msg.peer, road))
    ensures Turned(m, msgs, msg, road, peer)
  {
    var d := Run(m, msgs).desk;
    RefusedExactly(m, msgs, msg);
    RunLast(m, msgs, msg);
    JoinTurns(m, msgs, msg, road);
    RolesFollowHistory(m, msgs, msg.peer);
    OnDutyIsRegistered(m, msgs, msg.peer, road);
    OnDutyIsRegistered(m, msgs + [msg], msg.peer, road);
    DeskIsOk(m, msgs);
    var out' := Run(m, msgs + [msg]).desk.out;
    if !IsDispatcher(msgs, msg.peer) && !IsCamera(msgs, msg.peer) {
      EnlistHands(d.(dispatchers := d.dispatchers[msg.peer := msg.roads]), msg.peer, msg.roads, road);
    } else {
      var reason := if IsDispatcher(msgs, msg.peer) then AlreadyDispatcher else AlreadyCamera;
      OutGrows(d.out, Refused(msg.peer, reason), road);
    }
    SameHandedOn(d.out, out', road, peer);
  }

  lemma LeaveTurned(m: Meter, msgs: seq<Message>, msg: Message, road: RoadId, peer: PeerId)
    requires msg.Disconnected? && (OnDuty(msgs + [msg], msg.peer, road) <==> OnDuty(msgs, msg.peer, road))
    ensures Turned(m, msgs, msg, road, peer)
  {
    RefusedExactly(m, msgs, msg);
    RunLast(m, msgs, msg);
    OnDutyIsRegistered(m, msgs, msg.peer, road);
    OnDutyIsRegistered(m, msgs + [msg], msg.peer, road);
    LeaveTurns(m, msgs, msg, road);
  }

  /** A message during which the road's dispatchers stay the same. */
  ghost predicate Unchanged(msgs: seq<Message>, next: seq<Message>, road: RoadId) {
    forall peer :: OnDuty(next, peer, road) <==> OnDuty(msgs, peer, road)
  }

  lemma SteadyTurned(m: Meter, msgs: seq<Message>, msg: Message, road: RoadId, peer: PeerId)
    requires OnDuty(msgs, peer, road) && Unchanged(msgs, msgs + [msg], road)
    ensures Turned(m, msgs, msg, road, peer)
  {
    match msg
    case PlateSeen(_, _, _) =>
      OnDutyInRing(m, msgs, road, peer);
      PlateTurned(m, msgs, msg, road, peer);
    case IAmDispatcher(_, _) => JoinTurned(m, msgs, msg, road, peer);
    case Disconnected(_) => LeaveTurned(m, msgs, msg, road, peer);
    case IAmCamera(_, _) => CameraTurned(m, msgs, msg, road, peer);
    case _ => RunLast(m, msgs, msg);
  }

  lemma CameraTurned(m: Meter, msgs: seq<Message>, msg: Message, road: RoadId, peer: PeerId)
    requires msg.IAmCamera?
    ensures Turned(m, msgs, msg, road, peer)
  {
    var d := Run(m, msgs).desk;
    RefusedExactly(m, msgs, msg);
    OutGrows(d.out, Refused(msg.peer, AlreadyCamera), road);
    OutGrows(d.out, Refused(msg.peer, AlreadyDispatcher), road);
    SameHandedOn(d.out, Run(m, msgs + [msg]).desk.out, road, peer);
  }

  lemma {:induction false} GetsSnoc(r: Ring<PeerId>, k: nat, peer: PeerId)
    ensures After(r, Gets(k + 1)) == Rotated(After(r, Gets(k)))
    ensures Services(r, Gets(k + 1), peer) == Services(r, Gets(k), peer) + Now(After(r, Gets(k)), Op.Get, peer)
    decreases k
  {
    assert Gets<PeerId>(k + 1)[1..] == Gets<PeerId>(k);
    if k == 0 {
      assert Gets<PeerId>(1)[1..] == [];
    } else {
      assert Gets<PeerId>(k)[1..] == Gets<PeerId>(k - 1);
      GetsSnoc(Rotated(r), k - 1, peer);
    }
  }

  /** The road took some turns. */
  ghost predicate Rotates(a: Tally, b: Tally, peer: PeerId) {
    && a.issued <= b.issued
    && b.ring == After(a.ring, Gets(b.issued - a.issued))
    && b.handed == a.handed + Services(a.ring, Gets(b.issued - a.issued), peer)
  }

  lemma RotatesNext(a: Tally, b: Tally, c: Tally, peer: PeerId)
    requires Rotates(a, b, peer) && TakesTurn(b, c, peer)
    ensures Rotates(a, c, peer)
  {
    GetsSnoc(a.ring, b.issued - a.issued, peer);
  }

  lemma SteadyInit(msgs: seq<Message>, more: seq<Message>, road: RoadId)
    requires Steady(msgs, more, road) && more != []
    ensures var init := more[..|more| - 1];
            && Steady(msgs, init, road) && Unchanged(msgs, msgs + init, road)
            && msgs + init + [more[|more| - 1]] == msgs + more
            && Unchanged(msgs + init, msgs + more, road)
  {
    var init := more[..|more| - 1];
    assert forall k :: 0 <= k <= |init| ==> init[..k] == more[..k];
    assert more[..|more|] == more && init[..|init|] == init;
  }

  lemma {:induction false} SteadyRotates(m: Meter, msgs: seq<Message>, more: seq<Message>, road: RoadId, peer: PeerId)
    requires Steady(msgs, more, road) && OnDuty(msgs, peer, road)
    ensures Rotates(TallyOf(m, msgs, road, peer), TallyOf(m, msgs + more, road, peer), peer)
    decreases |more|
  {
    if more == [] {
      assert msgs + more == msgs;
    } else {
      var init, msg := more[..|more| - 1], more[|more| - 1];
      SteadyInit(msgs, more, road);
      SteadyRotates(m, msgs, init, road, peer);
      SteadyTurned(m, msgs + init, msg, road, peer);
      RotatesNext(TallyOf(m, msgs, road, peer), TallyOf(m, msgs + init, road, peer),
                  TallyOf(m, msgs + more, road, peer), peer);
    }
  }

  /** c differs from the n-th part of k by less than one: it is k/n rounded down or up. */
  ghost predicate Share(c: int, k: int, n: nat) {
    n > 0 && k >= 0 && n * c - n < k < n * c + n
  }

  lemma TurnsAreShared(a: Tally, b: Tally, peer: PeerId)
    requires Rotates(a, b, peer) && Valid(a.ring) && peer in a.ring.items
    ensures Share(b.handed - a.handed, b.issued - a.issued, |a.ring.items|)
  {
    var p :| 0 <= p < |a.ring.items| && a.ring.items[p] == peer;
    var k := b.issued - a.issued;
    ShareBounds(a.ring, k, p);
    Distribute(|a.ring.items|, Services(a.ring, Gets(k), peer));
  }

  lemma OnDutyInRing(m: Meter, msgs: seq<Message>, road: RoadId, peer: PeerId)
    requires OnDuty(msgs, peer, road)
    ensures var ring := RingOf(Run(m, msgs).desk, road); Valid(ring) && peer in ring.items
  {
    RingIsDuty(m, msgs, road);
  }

  /** From one run to the longer one, the peer was handed its share of the road's tickets. */
  ghost predicate FairlyHanded(m: Meter, msgs: seq<Message>, last: seq<Message>, road: RoadId, peer: PeerId) {
    var a, b := TallyOf(m, msgs, road, peer), TallyOf(m, last, road, peer);
    Share(b.handed - a.handed, b.issued - a.issued, |a.ring.items|)
  }

  lemma RotationIsShared(m: Meter, msgs: seq<Message>, last: seq<Message>, road: RoadId, peer: PeerId)
    requires OnDuty(msgs, peer, road)
    requires Rotates(TallyOf(m, msgs, road, peer), TallyOf(m, last, road, peer), peer)
    ensures FairlyHanded(m, msgs, last, road, peer)
  {
    OnDutyInRing(m, msgs, road, peer);
    TurnsAreShared(TallyOf(m, msgs, road, peer), TallyOf(m, last, road, peer), peer);
  }

  /** Of the tickets issued for a road while its n dispatchers stay the same, each of them is handed the n-th
      part, rounded down or up. */
  lemma FairDelivery(m: Meter, msgs: seq<Message>, more: seq<Message>, road: RoadId, peer: PeerId)
    requires Steady(msgs, more, road) && OnDuty(msgs, peer, road)
    ensures FairlyHanded(m, msgs, msgs + more, road, peer)
    ensures var items := RingOf(Run(m, msgs).desk, road).items;
            NoDup(items) && forall p :: p in items <==> OnDuty(msgs, p, road)
  {
    SteadyRotates(m, msgs, more, road, peer);
    RotationIsShared(m, msgs, msgs + more, road, peer);
    RingIsDuty(m, msgs, road);
  }
}
