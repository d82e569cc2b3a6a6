/** When a deletion in the job centre is final. */
module JobDeletion {
  import opened Prelude
  import opened JobMachine
  import opened JobTheorems
  import opened JobAssignment

  /** The job is no longer listed and in no queue, so neither a disconnect nor a get can find it. */
  ghost predicate Gone(s: Centre, id: JobId) {
    id in s.store && id !in s.jobs && Nowhere(s.queues, id)
  }

  /** Some disciplined continuation of the run hands the job out, at once or later. */
  ghost predicate ComesBack(msgs: seq<Message>, id: JobId) {
    exists more, c :: Disciplined(msgs + more) && Gave(Run(msgs).out, Run(msgs + more).out, c, id)
  }

  // ---- Gone is for good ----

  lemma PutLeavesGone(s: Centre, msg: Message, id: JobId)
    requires CentreOk(s) && Gone(s, id) && msg.Put?
    ensures Gone(Step(s, msg), id) && forall c :: !Gave(s.out, Step(s, msg).out, c, id)
  {
    AppendElsewhere(s.queues, msg.queue, s.nextId, id);
  }

  lemma AbortLeavesGone(s: Centre, msg: Message, id: JobId)
    requires CentreOk(s) && Gone(s, id) && msg.Abort?
    ensures Gone(Step(s, msg), id) && forall c :: !Gave(s.out, Step(s, msg).out, c, id)
  {
    if msg.id in s.jobs {
      AppendElsewhere(s.queues, s.store[msg.id].queue, msg.id, id);
    }
  }

  lemma DeleteLeavesGone(s: Centre, msg: Message, id: JobId)
    requires CentreOk(s) && Gone(s, id) && msg.Delete?
    ensures Gone(Step(s, msg), id) && forall c :: !Gave(s.out, Step(s, msg).out, c, id)
  {
    var other := msg.id;
    if other in s.jobs {
      DropMembers(s.jobs, other, id);
      DropMembers(At(s.queues, s.store[other].queue), other, id);
    }
  }

  lemma DisconnectLeavesGone(s: Centre, gone: ClientId, id: JobId)
    requires CentreOk(s) && Gone(s, id)
    ensures Gone(DisconnectStep(s, gone), id) && forall c :: !Gave(s.out, DisconnectStep(s, gone).out, c, id)
  {
    ReleaseSkips(OpenFloor(s, gone), gone, s.jobs, id);
    forall c
      ensures !Gave(s.out, DisconnectStep(s, gone).out, c, id)
    {
      ReleaseAssigns(OpenFloor(s, gone), gone, s.jobs, id, c);
    }
  }

  /** No message of any kind brings the job back. */
  lemma GoneStays(s: Centre, msg: Message, id: JobId)
    requires CentreOk(s) && Enabled(s, msg) && Gone(s, id)
    ensures Gone(Step(s, msg), id) && forall c :: !Gave(s.out, Step(s, msg).out, c, id)
  {
    match msg
    case Connected(_) =>
    case Disconnected(gone) => DisconnectLeavesGone(s, gone, id);
    case Put(_, _, _, _) => PutLeavesGone(s, msg, id);
    case Get(_, names, _) => PickIsQueued(s, names);
    case Abort(_, _) => AbortLeavesGone(s, msg, id);
    case Delete(_, _) => DeleteLeavesGone(s, msg, id);
  }

  lemma {:induction false} GoneThrough(msgs: seq<Message>, more: seq<Message>, id: JobId, c: ClientId)
    requires Disciplined(msgs + more) && Gone(Run(msgs), id)
    ensures Gone(Run(msgs + more), id)
    ensures Run(msgs).out <= Run(msgs + more).out && !Gave(Run(msgs).out, Run(msgs + more).out, c, id)
    decreases |more|
  {
    if more == [] {
      assert msgs + more == msgs;
    } else {
      var init, last := more[..|more| - 1], more[|more| - 1];
      assert msgs + more == msgs + init + [last];
      assert (msgs + init + [last])[..|msgs + init|] == msgs + init;
      DisciplinedPrefix(msgs + more);
      GoneThrough(msgs, init, id, c);
      NoJobLost(msgs + init);
      GoneStays(Run(msgs + init), last, id);
      ResponsesReachClients(msgs + init, last);
      GaveSplit(Run(msgs).out, Run(msgs + init).out, Run(msgs + more).out, c, id);
    }
  }

  // ---- An entry left in a queue comes back ----

  lemma {:induction false} WithoutShorter(ids: seq<JobId>, id: JobId)
    ensures |Without(ids, id)| <= |ids| && (id in ids ==> |Without(ids, id)| < |ids|)
    decreases |ids|
  {
    if ids != [] {
      WithoutShorter(ids[1..], id);
    }
  }

  /** One get of the queue hands out the job, or one of those before it. */
  lemma TakeOne(s: Centre, client: ClientId, queue: string, id: JobId)
    requires CentreOk(s) && id in At(s.queues, queue)
    ensures var s' := GetStep(s, client, [queue], false);
            && s'.clients == s.clients
            && (Gave(s.out, s'.out, client, id) ||
                (id in At(s'.queues, queue) && |At(s'.queues, queue)| < |At(s.queues, queue)|))
  {
    ScanOne(s.queues, queue);
    PickFromIds(s.store, At(s.queues, queue));
    PickIsQueued(s, [queue]);
    var pick := Pick(s.store, At(s.queues, queue)).value;
    WithoutShorter(At(s.queues, queue), pick);
    var s' := GetStep(s, client, [queue], false);
    assert IsGift(s'.out[|s.out|], client, pick);
  }

  /** The run goes on in a disciplined way and the job is handed to the client. */
  ghost predicate Reaches(msgs: seq<Message>, next: seq<Message>, client: ClientId, id: JobId) {
    && Disciplined(next) && Run(msgs).out <= Run(next).out
    && Gave(Run(msgs).out, Run(next).out, client, id)
  }

  lemma TakeOneNext(msgs: seq<Message>, client: ClientId, queue: string, id: JobId)
    requires Disciplined(msgs) && client in Run(msgs).clients && id in At(Run(msgs).queues, queue)
    ensures var next := msgs + [Get(client, [queue], false)];
            && Disciplined(next) && client in Run(next).clients && Run(msgs).out <= Run(next).out
            && (Reaches(msgs, next, client, id) ||
                (id in At(Run(next).queues, queue) && |At(Run(next).queues, queue)| < |At(Run(msgs).queues, queue)|))
  {
    var ask := Get(client, [queue], false);
    NoJobLost(msgs);
    Extend(msgs, Run(msgs), ask);
    ResponsesReachClients(msgs, ask);
    TakeOne(Run(msgs), client, queue, id);
  }

  lemma ReachesLater(msgs: seq<Message>, next: seq<Message>, last: seq<Message>, client: ClientId, id: JobId)
    requires Run(msgs).out <= Run(next).out && Reaches(next, last, client, id)
    ensures Reaches(msgs, last, client, id)
  {
    GaveSplit(Run(msgs).out, Run(next).out, Run(last).out, client, id);
  }

  /** A connected client that asks for the queue often enough gets the job. */
  lemma {:induction false} AskUntilGiven(msgs: seq<Message>, client: ClientId, queue: string, id: JobId)
      returns (last: seq<Message>)
    requires Disciplined(msgs) && client in Run(msgs).clients && id in At(Run(msgs).queues, queue)
    ensures msgs <= last && Reaches(msgs, last, client, id)
    ensures forall k :: |msgs| <= k < |last| ==> last[k] == Get(client, [queue], false)
    decreases |At(Run(msgs).queues, queue)|
  {
    var next := msgs + [Get(client, [queue], false)];
    TakeOneNext(msgs, client, queue, id);
    if Reaches(msgs, next, client, id) {
      last := next;
    } else {
      last := AskUntilGiven(next, client, queue, id);
      ReachesLater(msgs, next, last, client, id);
    }
  }

  /** The longer run as a continuation. */
  lemma ReachedComesBack(msgs: seq<Message>, last: seq<Message>, client: ClientId, id: JobId)
    requires msgs <= last && Reaches(msgs, last, client, id)
    ensures ComesBack(msgs, id)
  {
    assert last == msgs + last[|msgs|..];
  }

  lemma GoneNeverComesBack(msgs: seq<Message>, id: JobId)
    requires Gone(Run(msgs), id)
    ensures !ComesBack(msgs, id)
  {
    if ComesBack(msgs, id) {
      var more, c :| Disciplined(msgs + more) && Gave(Run(msgs).out, Run(msgs + more).out, c, id);
      GoneThrough(msgs, more, id, c);
    }
  }

  lemma QueuedComesBack(msgs: seq<Message>, client: ClientId, id: JobId)
    requires Disciplined(msgs) && client in Run(msgs).clients
    requires id in Run(msgs).store && !Nowhere(Run(msgs).queues, id)
    ensures ComesBack(msgs, id)
  {
    NoJobLost(msgs);
    NowhereIsUnqueued(Run(msgs).queues, Run(msgs).store, id);
    var last := AskUntilGiven(msgs, client, Run(msgs).store[id].queue, id);
    ReachedComesBack(msgs, last, client, id);
  }

  /** Exactly when a deleted job can come back, in any disciplined run, aborts and waiting gets included:
      its owner had it and it was queued all the same, or nobody had it and it was queued twice. */
  lemma DeletionIsFinal(msgs: seq<Message>, client: ClientId, id: JobId)
    requires Disciplined(msgs + [Delete(client, id)]) && id in Run(msgs).jobs
    ensures id in Run(msgs).store && (ComesBack(msgs + [Delete(client, id)], id) <==> Survives(Run(msgs), id))
  {
    var s, next := Run(msgs), msgs + [Delete(client, id)];
    assert next[..|msgs|] == msgs;
    DisciplinedPrefix(next);
    NoJobLost(msgs);
    DeleteLeavesEntry(s, client, id);
    if Survives(s, id) {
      QueuedComesBack(next, client, id);
    } else {
      GoneNeverComesBack(next, id);
    }
  }

  // ---- A run in which one does ----

  const OWNED := Job("q", "x", 0, 1)

  lemma AbortThenDelete(s: Centre)
    requires s.jobs == [1] && s.store == map[1 := OWNED] && s.queues == map["q" := []]
    ensures var s1 := Step(s, Abort(1, 1));
            var s2 := Step(s1, Delete(1, 1));
            && s1.clients == s2.clients == s.clients
            && s2.jobs == [] && s2.store == s.store && s2.queues == map["q" := [1]]
  {
    assert At(s.queues, "q") + [1] == [1];
    assert Drop([1], 1) == [];
  }

  /** The job is put, taken, aborted and deleted by one client. */
  const DELETED := [Connected(1)] + [Put(1, "q", "x", 0)] + [Get(1, ["q"], false)] + [Abort(1, 1)] + [Delete(1, 1)]

  lemma DeletedIsQueued()
    ensures var s := Run(DELETED);
            && Disciplined(DELETED) && s.clients == {1} && s.jobs == []
            && s.store == map[1 := OWNED] && s.queues == map["q" := [1]]
  {
    Begin();
    var m := [Connected(1)];
    FirstPut(Run(m), 1);
    Extend(m, Run(m), Put(1, "q", "x", 0));
    m := m + [Put(1, "q", "x", 0)];
    TakeOnly(Run(m), 1, FREE);
    Extend(m, Run(m), Get(1, ["q"], false));
    m := m + [Get(1, ["q"], false)];
    AbortThenDelete(Run(m));
    Extend(m, Run(m), Abort(1, 1));
    m := m + [Abort(1, 1)];
    Extend(m, Run(m), Delete(1, 1));
  }

  /** Abort leaves the owner in place, so delete leaves the queue entry: the deleted job comes back. */
  lemma DeletedComesBack()
    ensures var more := DELETED + [Get(1, ["q"], false)];
            && Disciplined(more) && Run(DELETED).jobs == []
            && Run(more).out == Run(DELETED).out + [Given(1, 1, "q", "x", 0)]
  {
    DeletedIsQueued();
    TakeOnly(Run(DELETED), 1, OWNED);
    Extend(DELETED, Run(DELETED), Get(1, ["q"], false));
  }
}
