/** How long a job that is handed out stays with its receiver. */
module JobHolding {
  import opened Prelude
  import opened JobMachine
  import opened JobTheorems
  import opened JobAssignment
  import opened JobDeletion

  /** The client neither disconnects nor aborts the job in the rest of the run. */
  ghost predicate HoldsOn(msgs: seq<Message>, last: seq<Message>, holder: ClientId, id: JobId) {
    forall k :: |msgs| <= k < |last| ==> last[k] != Disconnected(holder) && last[k] != Abort(holder, id)
  }

  ghost predicate Silent(msgs: seq<Message>, last: seq<Message>, holder: ClientId) {
    forall k :: |msgs| <= k < |last| ==> last[k].client != holder
  }

  /** Somebody else is given the job in some continuation in which its holder holds on to it. */
  ghost predicate SharedLater(msgs: seq<Message>, holder: ClientId, id: JobId) {
    exists last, c :: msgs <= last && HoldsOn(msgs, last, holder, id) && c != holder && Reaches(msgs, last, c, id)
  }

  /** The same, in a continuation with no message of the holder at all. */
  ghost predicate TakenSilently(msgs: seq<Message>, holder: ClientId, id: JobId) {
    exists last, c :: msgs <= last && Silent(msgs, last, holder) && c != holder && Reaches(msgs, last, c, id)
  }

  // ---- A held job stays held ----

  lemma AbortLeavesHeld(s: Centre, msg: Message, holder: ClientId, id: JobId)
    requires CentreOk(s) && HeldBy(s, holder, id) && msg.Abort? && msg != Abort(holder, id)
    ensures HeldBy(Step(s, msg), holder, id) && forall c :: !Gave(s.out, Step(s, msg).out, c, id)
  {
    if msg.id in s.jobs && s.store[msg.id].owner == msg.client {
      AppendElsewhere(s.queues, s.store[msg.id].queue, msg.id, id);
    }
  }

  lemma DeleteLeavesHeld(s: Centre, msg: Message, holder: ClientId, id: JobId)
    requires CentreOk(s) && HeldBy(s, holder, id) && msg.Delete?
    ensures HeldBy(Step(s, msg), holder, id) && forall c :: !Gave(s.out, Step(s, msg).out, c, id)
  {
    if msg.id in s.jobs {
      DropMembers(At(s.queues, s.store[msg.id].queue), msg.id, id);
    }
  }

  lemma PutLeavesHeld(s: Centre, msg: Message, holder: ClientId, id: JobId)
    requires CentreOk(s) && HeldBy(s, holder, id) && msg.Put?
    ensures HeldBy(Step(s, msg), holder, id) && forall c :: !Gave(s.out, Step(s, msg).out, c, id)
  {
    AppendElsewhere(s.queues, msg.queue, s.nextId, id);
  }

  lemma DisconnectLeavesHeld(s: Centre, gone: ClientId, holder: ClientId, id: JobId)
    requires CentreOk(s) && HeldBy(s, holder, id) && gone != holder
    ensures HeldBy(DisconnectStep(s, gone), holder, id)
    ensures forall c :: !Gave(s.out, DisconnectStep(s, gone).out, c, id)
  {
    ReleaseSkips(OpenFloor(s, gone), gone, s.jobs, id);
    SkipsSilently(OpenFloor(s, gone), gone, s.jobs, id);
  }

  /** The release loop hands out no job but those of the departing client. */
  lemma {:induction false} SkipsSilently(f: Floor, gone: ClientId, ids: seq<JobId>, id: JobId)
    requires f.live <= |f.waiters| && id in f.store && f.store[id].owner != gone
    ensures var f' := ReleaseAll(f, gone, ids); f.out <= f'.out && forall c :: !Gave(f.out, f'.out, c, id)
    decreases |ids|
  {
    if ids != [] {
      var init, last := ids[..|ids| - 1], ids[|ids| - 1];
      var f1 := ReleaseAll(f, gone, init);
      SkipsSilently(f, gone, init, id);
      ReleaseSkips(f, gone, init, id);
      if last != id {
        ReleaseOther(f1, gone, last, id);
      }
      forall c
        ensures !Gave(f.out, ReleaseAll(f, gone, ids).out, c, id)
      {
        GaveSplit(f.out, f1.out, ReleaseAll(f, gone, ids).out, c, id);
      }
    }
  }

  /** Nothing but its holder's abort or disconnect frees a held job, or hands it to anybody. */
  lemma HeldStays(s: Centre, msg: Message, holder: ClientId, id: JobId)
    requires CentreOk(s) && Enabled(s, msg) && HeldBy(s, holder, id)
    requires msg != Disconnected(holder) && msg != Abort(holder, id)
    ensures HeldBy(Step(s, msg), holder, id) && forall c :: !Gave(s.out, Step(s, msg).out, c, id)
  {
    match msg
    case Connected(_) =>
    case Disconnected(gone) => DisconnectLeavesHeld(s, gone, holder, id);
    case Put(_, _, _, _) => PutLeavesHeld(s, msg, holder, id);
    case Get(_, names, _) => PickIsQueued(s, names);
    case Abort(_, _) => AbortLeavesHeld(s, msg, holder, id);
    case Delete(_, _) => DeleteLeavesHeld(s, msg, holder, id);
  }

  lemma {:induction false} HeldThrough(msgs: seq<Message>, last: seq<Message>, holder: ClientId, id: JobId, c: ClientId)
    requires msgs <= last && Disciplined(last) && HeldBy(Run(msgs), holder, id) && HoldsOn(msgs, last, holder, id)
    ensures HeldBy(Run(last), holder, id)
    ensures Run(msgs).out <= Run(last).out && !Gave(Run(msgs).out, Run(last).out, c, id)
    decreases |last|
  {
    if |last| == |msgs| {
      assert msgs == last;
    } else {
      var init, msg := last[..|last| - 1], last[|last| - 1];
      assert last == init + [msg];
      DisciplinedPrefix(last);
      HeldThrough(msgs, init, holder, id, c);
      NoJobLost(init);
      HeldStays(Run(init), msg, holder, id);
      ResponsesReachClients(init, msg);
      GaveSplit(Run(msgs).out, Run(init).out, Run(last).out, c, id);
    }
  }

  // ---- A job left in a queue is shared ----

  /** A client that no message of the run is about. */
  function Newcomer(msgs: seq<Message>): (c: ClientId)
    ensures c > 0 && forall k :: 0 <= k < |msgs| ==> msgs[k].client < c
  {
    if msgs == [] then 1
    else
      var init, last := msgs[..|msgs| - 1], msgs[|msgs| - 1].client;
      var rest := Newcomer(init);
      assert forall k :: 0 <= k < |init| ==> msgs[k] == init[k];
      if last < rest then rest else last + 1
  }

  lemma {:induction false} OnlineSpoke(msgs: seq<Message>, c: ClientId)
    requires c in Online(msgs)
    ensures c < Newcomer(msgs)
    decreases |msgs|
  {
    var init, last := msgs[..|msgs| - 1], msgs[|msgs| - 1];
    if last.client != c {
      OnlineSpoke(init, c);
    }
  }

  /** A new client connects, asks for the queue until it has the job, and no one else says a word. */
  lemma QueuedIsShared(msgs: seq<Message>, holder: ClientId, id: JobId)
    requires Disciplined(msgs) && holder in Run(msgs).clients
    requires id in Run(msgs).store && !Nowhere(Run(msgs).queues, id)
    ensures TakenSilently(msgs, holder, id)
  {
    var c := Newcomer(msgs);
    ClientsAreOnline(msgs);
    OnlineSpoke(msgs, holder);
    NoJobLost(msgs);
    NowhereIsUnqueued(Run(msgs).queues, Run(msgs).store, id);
    Extend(msgs, Run(msgs), Connected(c));
    var next := msgs + [Connected(c)];
    var last := AskUntilGiven(next, c, Run(msgs).store[id].queue, id);
    ReachesLater(msgs, next, last, c, id);
    assert Silent(msgs, last, holder) by {
      assert last[|msgs|] == next[|msgs|];
    }
  }

  lemma SilentHoldsOn(msgs: seq<Message>, holder: ClientId, id: JobId)
    ensures TakenSilently(msgs, holder, id) ==> SharedLater(msgs, holder, id)
  {
    if TakenSilently(msgs, holder, id) {
      var last, c :| msgs <= last && Silent(msgs, last, holder) && c != holder && Reaches(msgs, last, c, id);
      assert HoldsOn(msgs, last, holder, id);
    }
  }

  lemma HeldIsNotShared(msgs: seq<Message>, holder: ClientId, id: JobId)
    requires HeldBy(Run(msgs), holder, id)
    ensures !SharedLater(msgs, holder, id)
  {
    if SharedLater(msgs, holder, id) {
      var last, c :| msgs <= last && HoldsOn(msgs, last, holder, id) && c != holder && Reaches(msgs, last, c, id);
      HeldThrough(msgs, last, holder, id, c);
    }
  }

  lemma ReceiverIsOnline(s: Centre, s': Centre, holder: ClientId, id: JobId)
    requires Addressed(s, s') && Gave(s.out, s'.out, holder, id)
    ensures holder in s'.clients
  {
  }

  lemma ReleasedIsQueued(s: Centre, gone: ClientId, holder: ClientId, id: JobId)
    requires CentreOk(s) && Gave(s.out, DisconnectStep(s, gone).out, holder, id) && !Nowhere(s.queues, id)
    ensures var s' := DisconnectStep(s, gone); id in s'.store && !Nowhere(s'.queues, id)
  {
    ReleaseAssigns(OpenFloor(s, gone), gone, s.jobs, id, holder);
  }

  lemma PutIsQueued(s: Centre, msg: Message, holder: ClientId, id: JobId)
    requires CentreOk(s) && msg.Put? && Gave(s.out, Step(s, msg).out, holder, id)
    ensures var s' := Step(s, msg); id in s'.store && !Nowhere(s'.queues, id)
  {
    PutSharesWithWaiter(s, msg.client, msg.queue, msg.data, msg.pri);
    assert id == s.nextId;
  }

  /** A job handed over by a put, or by a disconnect that found it queued, is in a queue afterwards. */
  lemma GivenIsQueued(s: Centre, msg: Message, holder: ClientId, id: JobId)
    requires CentreOk(s) && Enabled(s, msg) && Gave(s.out, Step(s, msg).out, holder, id) && !GivesAlone(s, msg, id)
    ensures var s' := Step(s, msg); id in s'.store && !Nowhere(s'.queues, id)
  {
    match msg
    case Put(_, _, _, _) => PutIsQueued(s, msg, holder, id);
    case Disconnected(gone) => ReleasedIsQueued(s, gone, holder, id);
    case _ =>
  }

  /** Exactly when a job handed to a client can be given to another while the first still has it, in any
      disciplined run, aborts and waiting gets included: unless it came by a get, or by a disconnect that
      found it in no queue, another client can get it without a message of the holder; and if it did, nobody
      can before the holder disconnects or aborts it. */
  lemma HandoverIsExclusive(msgs: seq<Message>, msg: Message, holder: ClientId, id: JobId)
    requires Disciplined(msgs + [msg]) && Gave(Run(msgs).out, Run(msgs + [msg]).out, holder, id)
    ensures SharedLater(msgs + [msg], holder, id) <==> !GivesAlone(Run(msgs), msg, id)
    ensures TakenSilently(msgs + [msg], holder, id) <==> !GivesAlone(Run(msgs), msg, id)
  {
    var next := msgs + [msg];
    assert next[..|msgs|] == msgs;
    DisciplinedPrefix(next);
    NoJobLost(msgs);
    ExclusiveHandover(Run(msgs), msg, holder, id);
    if GivesAlone(Run(msgs), msg, id) {
      HeldIsNotShared(next, holder, id);
    } else {
      ResponsesReachClients(msgs, msg);
      ReceiverIsOnline(Run(msgs), Run(next), holder, id);
      GivenIsQueued(Run(msgs), msg, holder, id);
      QueuedIsShared(next, holder, id);
    }
    SilentHoldsOn(next, holder, id);
  }
}
