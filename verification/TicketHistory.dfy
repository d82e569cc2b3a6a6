/** The ticketing server's state told from the messages alone. */
module TicketHistory {
  import opened Prelude
  import opened TicketDesk
  import opened TicketMachine
  import opened TicketReference
  import opened TicketTheorems

  // ---- Who plays which role ----

  predicate Registers(msg: Message, peer: PeerId) {
    (msg.IAmCamera? || msg.IAmDispatcher?) && msg.peer == peer
  }

  ghost predicate LeftBetween(msgs: seq<Message>, j: int, k: int, peer: PeerId) {
    exists d :: 0 <= j < d < k && d < |msgs| && msgs[d] == Disconnected(peer)
  }

  /** Message k gives the peer the role it still has: no registration before it in the same connection, no
      disconnect after it. */
  ghost predicate TakesRole(msgs: seq<Message>, k: int, peer: PeerId) {
    && 0 <= k < |msgs| && Registers(msgs[k], peer)
    && (forall j :: 0 <= j < k && Registers(msgs[j], peer) ==> LeftBetween(msgs, j, k, peer))
    && !LeftBetween(msgs, k, |msgs|, peer)
  }

  ghost predicate HasRole(msgs: seq<Message>, peer: PeerId) {
    exists k :: TakesRole(msgs, k, peer)
  }

  ghost predicate IsCamera(msgs: seq<Message>, peer: PeerId) {
    exists k :: TakesRole(msgs, k, peer) && msgs[k].IAmCamera?
  }

  ghost predicate IsDispatcher(msgs: seq<Message>, peer: PeerId) {
    exists k :: TakesRole(msgs, k, peer) && msgs[k].IAmDispatcher?
  }

  /** The peer is a dispatcher and named the road when it registered. */
  ghost predicate OnDuty(msgs: seq<Message>, peer: PeerId, road: RoadId) {
    exists k :: TakesRole(msgs, k, peer) && msgs[k].IAmDispatcher? && road in msgs[k].roads
  }

  lemma LeftGrows(msgs: seq<Message>, msg: Message, j: nat, k: nat, peer: PeerId)
    requires k <= |msgs|
    ensures LeftBetween(msgs + [msg], j, k, peer) <==> LeftBetween(msgs, j, k, peer)
    ensures j < |msgs| ==> (LeftBetween(msgs + [msg], j, |msgs| + 1, peer) <==>
                              LeftBetween(msgs, j, |msgs|, peer) || msg == Disconnected(peer))
  {
    var more := msgs + [msg];
    if LeftBetween(msgs, j, k, peer) {
      var d :| j < d < k && d < |msgs| && msgs[d] == Disconnected(peer);
      assert more[d] == Disconnected(peer);
    }
    if LeftBetween(msgs, j, |msgs|, peer) {
      var d :| j < d < |msgs| && msgs[d] == Disconnected(peer);
      assert more[d] == Disconnected(peer);
    }
    assert more[|msgs|] == msg;
  }

  lemma RolesBefore(msgs: seq<Message>, msg: Message, k: nat, peer: PeerId)
    requires k < |msgs|
    ensures TakesRole(msgs + [msg], k, peer) <==> TakesRole(msgs, k, peer) && msg != Disconnected(peer)
  {
    var more := msgs + [msg];
    LeftGrows(msgs, msg, k, |msgs|, peer);
    forall j | 0 <= j < k
      ensures LeftBetween(more, j, k, peer) <==> LeftBetween(msgs, j, k, peer)
      ensures more[j] == msgs[j]
    {
      LeftGrows(msgs, msg, j, k, peer);
    }
  }

  /** A registration gives a role exactly when the peer has none. */
  lemma RoleNow(msgs: seq<Message>, msg: Message, peer: PeerId)
    requires Registers(msg, peer)
    ensures TakesRole(msgs + [msg], |msgs|, peer) <==> !HasRole(msgs, peer)
  {
    var more, n := msgs + [msg], |msgs|;
    assert more[n] == msg;
    forall j | 0 <= j < n
      ensures more[j] == msgs[j] && (LeftBetween(more, j, n, peer) <==> LeftBetween(msgs, j, n, peer))
    {
      LeftGrows(msgs, msg, j, n, peer);
    }
    if HasRole(msgs, peer) {
      var k :| TakesRole(msgs, k, peer);
      assert Registers(more[k], peer) && !LeftBetween(msgs, k, n, peer);
    } else {
      forall j | 0 <= j < n && Registers(more[j], peer)
        ensures LeftBetween(msgs, j, n, peer)
      {
        if !LeftBetween(msgs, j, n, peer) {
          var _ := EarliestStaying(msgs, j, peer);
          assert false;
        }
      }
    }
  }

  /** The first registration of the connection that is still open. */
  lemma {:induction false} EarliestStaying(msgs: seq<Message>, j: nat, peer: PeerId) returns (k: int)
    requires j < |msgs| && Registers(msgs[j], peer) && !LeftBetween(msgs, j, |msgs|, peer)
    ensures TakesRole(msgs, k, peer)
    decreases j
  {
    if i :| 0 <= i < j && Registers(msgs[i], peer) && !LeftBetween(msgs, i, j, peer) {
      if LeftBetween(msgs, i, |msgs|, peer) {
        var d :| i < d < |msgs| && msgs[d] == Disconnected(peer);
        assert false;
      }
      k := EarliestStaying(msgs, i, peer);
    } else {
      k := j;
    }
  }

  /** There is at most one such registration. */
  lemma OneRole(msgs: seq<Message>, k: int, k': int, peer: PeerId)
    requires TakesRole(msgs, k, peer) && TakesRole(msgs, k', peer)
    ensures k == k'
  {
    if k < k' {
      RoleIsNotLater(msgs, k, k', peer);
    } else if k' < k {
      RoleIsNotLater(msgs, k', k, peer);
    }
  }

  lemma RoleIsNotLater(msgs: seq<Message>, k: int, k': int, peer: PeerId)
    requires TakesRole(msgs, k, peer) && k < k' < |msgs|
    ensures !TakesRole(msgs, k', peer)
  {
    if LeftBetween(msgs, k, k', peer) {
      var d :| k < d < k' && d < |msgs| && msgs[d] == Disconnected(peer);
      assert LeftBetween(msgs, k, |msgs|, peer);
    }
  }

  /** The desk's roles are those the messages gave, with the data of the message that gave them. */
  ghost predicate RolesTold(d: Desk, msgs: seq<Message>, peer: PeerId) {
    && (peer in d.cameras <==> IsCamera(msgs, peer))
    && (peer in d.dispatchers <==> IsDispatcher(msgs, peer))
    && (forall k :: TakesRole(msgs, k, peer) && msgs[k].IAmCamera? ==>
          peer in d.cameras && d.cameras[peer] == msgs[k].camera)
    && (forall k :: TakesRole(msgs, k, peer) && msgs[k].IAmDispatcher? ==>
          peer in d.dispatchers && d.dispatchers[peer] == msgs[k].roads)
  }

  /** Nothing new about the peer. */
  lemma RolesCarried(d: Desk, d': Desk, msgs: seq<Message>, msg: Message, peer: PeerId)
    requires RolesTold(d, msgs, peer) && msg != Disconnected(peer)
    requires Registers(msg, peer) ==> HasRole(msgs, peer)
    requires peer in d'.cameras <==> peer in d.cameras
    requires peer in d'.dispatchers <==> peer in d.dispatchers
    requires peer in d.cameras ==> d'.cameras[peer] == d.cameras[peer]
    requires peer in d.dispatchers ==> d'.dispatchers[peer] == d.dispatchers[peer]
    ensures RolesTold(d', msgs + [msg], peer)
  {
    var more := msgs + [msg];
    forall k
      ensures TakesRole(more, k, peer) <==> TakesRole(msgs, k, peer)
      ensures 0 <= k < |msgs| ==> more[k] == msgs[k]
    {
      if 0 <= k < |msgs| {
        RolesBefore(msgs, msg, k, peer);
      } else if k == |msgs| && Registers(msg, peer) {
        RoleNow(msgs, msg, peer);
      }
    }
    if peer in d.cameras {
      var k :| TakesRole(msgs, k, peer) && msgs[k].IAmCamera?;
      assert TakesRole(more, k, peer) && more[k].IAmCamera?;
    }
    if peer in d.dispatchers {
      var k :| TakesRole(msgs, k, peer) && msgs[k].IAmDispatcher?;
      assert TakesRole(more, k, peer) && more[k].IAmDispatcher?;
    }
  }

  lemma RolesLost(d': Desk, msgs: seq<Message>, peer: PeerId)
    requires peer !in d'.cameras && peer !in d'.dispatchers
    ensures RolesTold(d', msgs + [Disconnected(peer)], peer)
  {
    var more := msgs + [Disconnected(peer)];
    forall k
      ensures !TakesRole(more, k, peer)
    {
      if 0 <= k < |msgs| {
        RolesBefore(msgs, Disconnected(peer), k, peer);
      } else if k == |msgs| {
        assert more[k] == Disconnected(peer);
      }
    }
  }

  lemma RolesTaken(d: Desk, d': Desk, msgs: seq<Message>, msg: Message, peer: PeerId)
    requires Registers(msg, peer) && !HasRole(msgs, peer)
    requires msg.IAmCamera? ==> peer in d'.cameras && d'.cameras[peer] == msg.camera && peer !in d'.dispatchers
    requires msg.IAmDispatcher? ==> peer in d'.dispatchers && d'.dispatchers[peer] == msg.roads && peer !in d'.cameras
    ensures RolesTold(d', msgs + [msg], peer)
  {
    var more := msgs + [msg];
    RoleNow(msgs, msg, peer);
    assert more[|msgs|] == msg;
    forall k
      ensures TakesRole(more, k, peer) <==> k == |msgs|
    {
      if 0 <= k < |msgs| {
        RolesBefore(msgs, msg, k, peer);
      }
    }
  }

  lemma PlateRoles(m: Meter, msgs: seq<Message>, msg: Message)
    requires msg.PlateSeen?
    ensures SameRoles(Run(m, msgs).desk, Run(m, msgs + [msg]).desk)
  {
    RunLast(m, msgs, msg);
    Refinement(m, msgs);
    BooksBalance(m, msgs);
    PlateGrows(m, Run(m, msgs), msg.peer, msg.plate, msg.timestamp);
  }

  lemma RolesNext(d: Desk, msgs: seq<Message>, msg: Message, peer: PeerId)
    requires RolesTold(d, msgs, peer) && !msg.PlateSeen?
    ensures RolesTold(DeskStep(d, msg), msgs + [msg], peer)
  {
    var d' := DeskStep(d, msg);
    if msg.IAmDispatcher? {
      EnlistRoles(d.(dispatchers := d.dispatchers[msg.peer := msg.roads]), msg.peer, msg.roads);
    }
    if msg == Disconnected(peer) {
      RolesLost(d', msgs, peer);
    } else if Registers(msg, peer) && peer !in d.cameras && peer !in d.dispatchers {
      assert !HasRole(msgs, peer);
      RolesTaken(d, d', msgs, msg, peer);
    } else {
      RolesCarried(d, d', msgs, msg, peer);
    }
  }

  /** After any run a peer's role is the one of its first registration since it last disconnected, with
      exactly the data of that message; a peer without such a registration has none. */
  lemma {:induction false} RolesFollowHistory(m: Meter, msgs: seq<Message>, peer: PeerId)
    ensures RolesTold(Run(m, msgs).desk, msgs, peer)
    decreases |msgs|
  {
    if msgs != [] {
      var init, msg := msgs[..|msgs| - 1], msgs[|msgs| - 1];
      assert msgs == init + [msg];
      RolesFollowHistory(m, init, peer);
      if msg.PlateSeen? {
        PlateRoles(m, init, msg);
        RolesCarried(Run(m, init).desk, Run(m, msgs).desk, init, msg, peer);
      } else {
        RolesNext(Run(m, init).desk, init, msg, peer);
      }
    }
  }

  lemma OnDutyIsRegistered(m: Meter, msgs: seq<Message>, peer: PeerId, road: RoadId)
    ensures OnDuty(msgs, peer, road) <==> Registered(Run(m, msgs).desk.dispatchers, peer, road)
  {
    RolesFollowHistory(m, msgs, peer);
  }

  // ---- What each message is answered ----

  /** Besides handing over tickets, the step wrote nothing. */
  ghost predicate OnlyHands(before: Desk, after: Desk) {
    before.out <= after.out && forall k :: |before.out| <= k < |after.out| ==> after.out[k].Handed?
  }

  /** The step wrote this one refusal and changed nothing else. */
  ghost predicate JustRefused(s: State, s': State, peer: PeerId, reason: Refusal) {
    s' == s.(desk := s.desk.(out := s.desk.out + [Refused(peer, reason)]))
  }

  /** A registration is refused exactly when its sender has a role already, a plate exactly when its sender
      is no camera: one refusal with the true reason, and nothing else changes. An accepted registration is
      recorded with its data. No other message is refused. */
  lemma RefusedExactly(m: Meter, msgs: seq<Message>, msg: Message)
    ensures var s, s' := Run(m, msgs), Run(m, msgs + [msg]);
            var peer := msg.peer;
            match msg
            case IAmCamera(_, camera) =>
              if IsCamera(msgs, peer) then JustRefused(s, s', peer, AlreadyCamera)
              else if IsDispatcher(msgs, peer) then JustRefused(s, s', peer, AlreadyDispatcher)
              else s' == s.(desk := s.desk.(cameras := s.desk.cameras[peer := camera]))
            case IAmDispatcher(_, roads) =>
              if IsDispatcher(msgs, peer) then JustRefused(s, s', peer, AlreadyDispatcher)
              else if IsCamera(msgs, peer) then JustRefused(s, s', peer, AlreadyCamera)
              else
                && OnlyHands(s.desk, s'.desk) && s'.desk.dispatchers == s.desk.dispatchers[peer := roads]
                && s' == s.(desk := s.desk.(dispatchers := s'.desk.dispatchers, roads := s'.desk.roads,
                                            pending := s'.desk.pending, out := s'.desk.out))
            case PlateSeen(_, _, _) =>
              if IsCamera(msgs, peer) then OnlyHands(s.desk, s'.desk) && SameRoles(s.desk, s'.desk)
              else JustRefused(s, s', peer, NotACamera)
            case Connected(_) => s' == s.(desk := s.desk.(clients := s.desk.clients + {peer}))
            case Disconnected(_) =>
              s' == s.(desk := s.desk.(cameras := s.desk.cameras - {peer}, dispatchers := s.desk.dispatchers - {peer},
                                       roads := s'.desk.roads))
            case WantHeartbeat(_, _) => s' == s
            case Unrecognised(_) => s' == s
  {
    var s := Run(m, msgs);
    RunLast(m, msgs, msg);
    RolesFollowHistory(m, msgs, msg.peer);
    match msg
    case IAmDispatcher(peer, roads) =>
      EnlistRoles(s.desk.(dispatchers := s.desk.dispatchers[peer := roads]), peer, roads);
      EnlistRefusesNobody(s.desk.(dispatchers := s.desk.dispatchers[peer := roads]), peer, roads);
    case PlateSeen(peer, plate, timestamp) =>
      PlateRoles(m, msgs, msg);
      PlateRefusals(m, s, peer, plate, timestamp);
    case _ =>
  }
}
