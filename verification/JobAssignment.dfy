/** When a job that is handed out belongs to its receiver alone. */
module JobAssignment {
  import opened Prelude
  import opened JobMachine
  import opened JobTheorems

  // ---- One step, any run: exactly which hand-overs are exclusive ----

  /** The step from before to after answered client with job id. */
  ghost predicate Gave(before: seq<Response>, after: seq<Response>, client: ClientId, id: JobId) {
    exists k :: |before| <= k < |after| && IsGift(after[k], client, id)
  }

  ghost predicate IsGift(r: Response, client: ClientId, id: JobId) {
    r.Given? && r.client == client && r.id == id
  }

  ghost predicate Nowhere(queues: map<string, seq<JobId>>, id: JobId) {
    forall name :: name in queues ==> id !in queues[name]
  }

  /** The job is the client's and in no queue. */
  ghost predicate HeldBy(s: Centre, client: ClientId, id: JobId) {
    id in s.store && s.store[id].owner == client && Nowhere(s.queues, id)
  }

  /** What a caller can see before the message: it is a get, or a disconnect while the job is in no queue. */
  ghost predicate GivesAlone(s: Centre, msg: Message, id: JobId) {
    msg.Get? || (msg.Disconnected? && Nowhere(s.queues, id))
  }

  lemma NowhereIsUnqueued(queues: map<string, seq<JobId>>, store: map<JobId, Job>, id: JobId)
    requires Labelled(queues, store) && id in store
    ensures Nowhere(queues, id) <==> !Queued(queues, store, id)
  {
  }

  lemma AppendElsewhere(queues: map<string, seq<JobId>>, name: string, other: JobId, id: JobId)
    requires other != id
    ensures Nowhere(queues[name := At(queues, name) + [other]], id) <==> Nowhere(queues, id)
  {
    var queues' := queues[name := At(queues, name) + [other]];
    assert id in queues'[name] <==> id in At(queues, name);
    if Nowhere(queues', id) {
      forall q | q in queues
        ensures id !in queues[q]
      {
        assert q in queues';
      }
    }
  }

  /** What a visit of the release loop does to one job. */
  lemma ReleaseOther(f: Floor, client: ClientId, other: JobId, id: JobId)
    requires f.live <= |f.waiters| && other != id
    ensures var f' := ReleaseOne(f, client, other);
            && (id in f'.store <==> id in f.store) && (id in f.store ==> f'.store[id] == f.store[id])
            && (Nowhere(f'.queues, id) <==> Nowhere(f.queues, id))
            && f.out <= f'.out && forall c :: !Gave(f.out, f'.out, c, id)
  {
    var f' := ReleaseOne(f, client, other);
    if other in f.store && f.store[other].owner == client && f'.queues != f.queues {
      AppendElsewhere(f.queues, f.store[other].queue, other, id);
    }
  }

  lemma ReleaseItself(f: Floor, client: ClientId, id: JobId, c: ClientId)
    requires f.live <= |f.waiters|
    ensures var f' := ReleaseOne(f, client, id);
            f.out <= f'.out &&
            (Gave(f.out, f'.out, c, id) ==> id in f'.store && f'.store[id].owner == c && f'.queues == f.queues)
  {
  }

  lemma GaveSplit(a: seq<Response>, b: seq<Response>, c: seq<Response>, client: ClientId, id: JobId)
    requires a <= b <= c
    ensures Gave(a, c, client, id) <==> Gave(a, b, client, id) || Gave(b, c, client, id)
  {
    if Gave(a, b, client, id) {
      var k :| |a| <= k < |b| && IsGift(b[k], client, id);
      assert IsGift(c[k], client, id);
    }
    if Gave(a, c, client, id) {
      var k :| |a| <= k < |c| && IsGift(c[k], client, id);
      assert k < |b| ==> IsGift(b[k], client, id);
    }
  }

  /** The release loop hands a job over without queueing it, or leaves it where it was. */
  lemma {:induction false} ReleaseAssigns(f: Floor, client: ClientId, ids: seq<JobId>, id: JobId, c: ClientId)
    requires f.live <= |f.waiters| && Increasing(ids)
    ensures var f' := ReleaseAll(f, client, ids);
            && f.out <= f'.out
            && (Gave(f.out, f'.out, c, id) ==>
                  id in f'.store && f'.store[id].owner == c && (Nowhere(f'.queues, id) <==> Nowhere(f.queues, id)))
            && (id !in ids ==> !Gave(f.out, f'.out, c, id))
            && (id !in ids ==> (Nowhere(f'.queues, id) <==> Nowhere(f.queues, id)))
    decreases |ids|
  {
    if ids != [] {
      var init, last := ids[..|ids| - 1], ids[|ids| - 1];
      var f1 := ReleaseAll(f, client, init);
      var f2 := ReleaseAll(f, client, ids);
      ReleaseAssigns(f, client, init, id, c);
      if last == id {
        assert id !in init;
        ReleaseItself(f1, client, id, c);
      } else {
        ReleaseOther(f1, client, last, id);
        assert id in ids ==> id in init by { assert ids == init + [last]; }
      }
      GaveSplit(f.out, f1.out, f2.out, c, id);
    }
  }

  lemma PutGivesShared(s: Centre, msg: Message, client: ClientId, id: JobId)
    requires CentreOk(s) && msg.Put? && Gave(s.out, Step(s, msg).out, client, id)
    ensures !HeldBy(Step(s, msg), client, id)
  {
    var k := FirstWaiter(s.waiters, msg.queue);
    assert s.waiters[k] != NOBODY;
    assert client == s.waiters[k].client && id == s.nextId;
  }

  lemma GetGivesAlone(s: Centre, msg: Message, client: ClientId, id: JobId)
    requires CentreOk(s) && msg.Get? && Gave(s.out, Step(s, msg).out, client, id)
    ensures HeldBy(Step(s, msg), client, id)
  {
    PickIsQueued(s, msg.queues);
  }

  /** A job handed to a client is at once the client's and in no queue if and only if it came by a get, or by a
      disconnect that found it in no queue. A put that answers a waiter never assigns the job it hands over. */
  lemma ExclusiveHandover(s: Centre, msg: Message, client: ClientId, id: JobId)
    requires CentreOk(s) && Enabled(s, msg) && Gave(s.out, Step(s, msg).out, client, id)
    ensures HeldBy(Step(s, msg), client, id) <==> GivesAlone(s, msg, id)
  {
    match msg
    case Put(_, _, _, _) => PutGivesShared(s, msg, client, id);
    case Get(_, _, _) => GetGivesAlone(s, msg, client, id);
    case Disconnected(gone) => ReleaseAssigns(OpenFloor(s, gone), gone, s.jobs, id, client);
    case _ =>
  }

  /** Entry k is the first that asks for the queue. */
  ghost predicate FirstToAsk(ws: seq<Waiter>, queue: string, k: int) {
    0 <= k < |ws| && queue in ws[k].queues && forall i :: 0 <= i < k ==> queue !in ws[i].queues
  }

  /** A put makes one job, last in its queue, and acknowledges it. Exactly when a waiter asked for the queue, the
      one that has waited longest is answered and leaves the list; and then the job is queued all the same. */
  lemma PutSharesWithWaiter(s: Centre, client: ClientId, queue: string, data: Payload, pri: nat)
    requires CentreOk(s)
    ensures var s' := PutStep(s, client, queue, data, pri);
            && s'.store[s.nextId].owner == 0 && Queued(s'.queues, s'.store, s.nextId)
            && ((exists c :: Gave(s.out, s'.out, c, s.nextId)) <==>
                  exists i :: 0 <= i < |s.waiters| && queue in s.waiters[i].queues)
    ensures var s', id := PutStep(s, client, queue, data, pri), s.nextId;
            && (forall name :: At(s'.queues, name) == At(s.queues, name) + (if name == queue then [id] else []))
            && if exists i :: 0 <= i < |s.waiters| && queue in s.waiters[i].queues then
                 exists k :: FirstToAsk(s.waiters, queue, k) && s'.waiters == s.waiters[..k] + s.waiters[k + 1..] &&
                   s'.out == s.out + [PutOk(client, id), Given(s.waiters[k].client, id, queue, data, pri)]
               else s'.waiters == s.waiters && s'.out == s.out + [PutOk(client, id)]
  {
    var s' := PutStep(s, client, queue, data, pri);
    var k := FirstWaiter(s.waiters, queue);
    assert s'.queues[queue][|At(s.queues, queue)|] == s.nextId;
    if k < |s.waiters| {
      assert IsGift(s'.out[|s.out| + 1], s.waiters[k].client, s.nextId);
      assert Gave(s.out, s'.out, s.waiters[k].client, s.nextId);
      assert FirstToAsk(s.waiters, queue, k);
    }
  }

  /** A deletion of the job now would leave an entry of it in its queue. */
  ghost predicate Survives(s: Centre, id: JobId)
    requires id in s.store
  {
    var queue := At(s.queues, s.store[id].queue);
    if s.store[id].owner != 0 then id in queue
    else exists i, j :: 0 <= i < j < |queue| && queue[i] == id && queue[j] == id
  }

  /** A deleted job stays available exactly when it was owned and queued at once, or queued twice. */
  lemma DeleteLeavesEntry(s: Centre, client: ClientId, id: JobId)
    requires CentreOk(s) && id in s.jobs
    ensures var s' := DeleteStep(s, client, id);
            id !in s'.jobs && (!Nowhere(s'.queues, id) <==> Survives(s, id))
  {
    var s' := DeleteStep(s, client, id);
    var queue := At(s.queues, s.store[id].queue);
    DropIncreasing(s.jobs, id);
    DeleteKeeps(s, client, id);
    NowhereIsUnqueued(s'.queues, s'.store, id);
    if s.store[id].owner == 0 && id in queue {
      DropLeavesSecond(queue, id);
    }
  }

  lemma {:induction false} FirstIndex(ids: seq<JobId>, id: JobId, k: nat)
    requires k < |ids| && ids[k] == id
    ensures 0 <= IndexOf(ids, id) <= k
    decreases |ids|
  {
    if ids[0] != id {
      FirstIndex(ids[1..], id, k - 1);
    }
  }

  lemma DropLeavesSecond(ids: seq<JobId>, id: JobId)
    ensures id in Drop(ids, id) <==> exists i, j :: 0 <= i < j < |ids| && ids[i] == id && ids[j] == id
  {
    var i := IndexOf(ids, id);
    if i != -1 {
      var r := RemoveAt(ids, i);
      if id in r {
        var k :| 0 <= k < |r| && r[k] == id;
        FirstIndex(ids, id, if k < i then k else k + 1);
        assert ids[i] == id && ids[k + 1] == id;
      }
      if a, b :| 0 <= a < b < |ids| && ids[a] == id && ids[b] == id {
        FirstIndex(ids, id, a);
        assert r[b - 1] == id;
      }
    }
  }

  // ---- Whole runs without abort and without waiting gets ----

  ghost predicate Plain(msg: Message) {
    !msg.Abort? && !(msg.Get? && msg.wait)
  }

  ghost predicate AllPlain(msgs: seq<Message>) {
    forall k :: 0 <= k < |msgs| ==> Plain(msgs[k])
  }

  ghost predicate QueuesLive(queues: map<string, seq<JobId>>, jobs: seq<JobId>) {
    && (forall name :: name in queues ==> NoDup(queues[name]))
    && (forall name, id :: name in queues && id in queues[name] ==> id in jobs)
  }

  /** Every live job is unowned and once in its queue, or owned and in no queue; queues hold live jobs only. */
  ghost predicate Exclusive(s: Centre) {
    && s.waiters == []
    && QueuesLive(s.queues, s.jobs)
    && (forall id :: id in s.jobs ==> id in s.store && (s.store[id].owner == 0 <==> Queued(s.queues, s.store, id)))
  }

  lemma {:induction false} WithoutNoDup(ids: seq<JobId>, id: JobId)
    requires NoDup(ids)
    ensures NoDup(Without(ids, id))
    decreases |ids|
  {
    if ids != [] {
      WithoutNoDup(ids[1..], id);
      if ids[0] != id {
        var rest := Without(ids[1..], id);
        assert ids[0] !in rest;
      }
    }
  }

  lemma PutExclusive(s: Centre, msg: Message)
    requires CentreOk(s) && Exclusive(s) && msg.Put?
    ensures Exclusive(Step(s, msg))
  {
    var s', id := Step(s, msg), s.nextId;
    assert s'.queues[msg.queue][|At(s.queues, msg.queue)|] == id;
    assert msg.queue in s.queues && id in s.queues[msg.queue] ==> id in s.store;
    assert NoDup(At(s.queues, msg.queue) + [id]);
    forall name, x | name in s'.queues && x in s'.queues[name]
      ensures x in s'.jobs
    {
      assert x != id ==> x in At(s.queues, name) && x in s.jobs;
    }
    forall x | x in s'.jobs
      ensures x in s'.store && (s'.store[x].owner == 0 <==> Queued(s'.queues, s'.store, x))
    {
      assert x != id ==> x in s.jobs;
    }
  }

  lemma GetExclusive(s: Centre, msg: Message)
    requires CentreOk(s) && Exclusive(s) && msg.Get? && !msg.wait && msg.client in s.clients
    ensures Exclusive(Step(s, msg))
  {
    PickIsQueued(s, msg.queues);
    var pick := Pick(s.store, Scan(s.queues, msg.queues));
    if pick.Some? {
      WithoutNoDup(At(s.queues, s.store[pick.value].queue), pick.value);
    }
  }

  lemma DropNoDup(ids: seq<JobId>, id: JobId)
    requires NoDup(ids)
    ensures NoDup(Drop(ids, id)) && id !in Drop(ids, id)
  {
    DropLeavesSecond(ids, id);
  }

  lemma DeleteExclusive(s: Centre, msg: Message)
    requires CentreOk(s) && Exclusive(s) && msg.Delete?
    ensures Exclusive(Step(s, msg))
  {
    var s', id := Step(s, msg), msg.id;
    if id in s.jobs {
      var name := s.store[id].queue;
      DropIncreasing(s.jobs, id);
      DropNoDup(At(s.queues, name), id);
      forall q, x | q in s'.queues && x in s'.queues[q]
        ensures x in s'.jobs
      {
        DropMembers(At(s.queues, name), id, x);
        assert x in s.queues[q];
        DropMembers(s.jobs, id, x);
      }
      forall x | x in s'.jobs
        ensures x in s'.store && (s'.store[x].owner == 0 <==> Queued(s'.queues, s'.store, x))
      {
        DropMembers(s.jobs, id, x);
        DropMembers(At(s.queues, name), id, x);
      }
    }
  }

  /** Halfway through a disconnect in this fragment. */
  ghost predicate HalfReleased(s: Centre, f: Floor, gone: ClientId, done: seq<JobId>) {
    && f.live == 0 && f.waiters == [] && f.out == s.out
    && QueuesLive(f.queues, s.jobs)
    && Labelled(f.queues, f.store) && f.store.Keys == s.store.Keys
    && (forall id :: id in s.jobs ==> id in f.store && (f.store[id].owner == 0 <==> Queued(f.queues, f.store, id)))
    && (forall id :: id in s.jobs && id in done ==> f.store[id].owner != gone)
  }

  lemma HalfReleasedNext(s: Centre, f: Floor, gone: ClientId, done: seq<JobId>, id: JobId)
    requires HalfReleased(s, f, gone, done) && id in s.jobs && gone != 0
    ensures HalfReleased(s, ReleaseOne(f, gone, id), gone, done + [id])
  {
    var f' := ReleaseOne(f, gone, id);
    if f.store[id].owner == gone {
      var job := f.store[id];
      FiledUnderItsName(f.queues, f.store, id, job.(owner := 0));
      assert f'.queues[job.queue][|At(f.queues, job.queue)|] == id;
      forall name, x | name in f'.queues && x in f'.queues[name]
        ensures x in s.jobs
      {
        assert x != id ==> x in At(f.queues, name);
      }
    }
  }

  lemma {:induction false} ReleaseExclusive(s: Centre, gone: ClientId, n: nat)
    requires CentreOk(s) && Exclusive(s) && gone in s.clients && n <= |s.jobs|
    ensures HalfReleased(s, ReleaseAll(OpenFloor(s, gone), gone, s.jobs[..n]), gone, s.jobs[..n])
    decreases n
  {
    if n > 0 {
      ReleaseExclusive(s, gone, n - 1);
      assert s.jobs[..n][..n - 1] == s.jobs[..n - 1];
      assert s.jobs[..n] == s.jobs[..n - 1] + [s.jobs[n - 1]];
      HalfReleasedNext(s, ReleaseAll(OpenFloor(s, gone), gone, s.jobs[..n - 1]), gone, s.jobs[..n - 1], s.jobs[n - 1]);
    }
  }

  lemma StepExclusive(s: Centre, msg: Message)
    requires CentreOk(s) && Enabled(s, msg) && Exclusive(s) && Plain(msg)
    ensures Exclusive(Step(s, msg))
  {
    match msg
    case Connected(_) =>
    case Disconnected(gone) =>
      ReleaseExclusive(s, gone, |s.jobs|);
      assert s.jobs[..|s.jobs|] == s.jobs;
    case Put(_, _, _, _) => PutExclusive(s, msg);
    case Get(_, _, _) => GetExclusive(s, msg);
    case Delete(_, _) => DeleteExclusive(s, msg);
  }

  /** In every run without abort and without waiting gets. */
  lemma {:induction false} ExclusiveAssignment(msgs: seq<Message>)
    requires Disciplined(msgs) && AllPlain(msgs)
    ensures Exclusive(Run(msgs)) && CentreOk(Run(msgs))
    decreases |msgs|
  {
    NoJobLost(msgs);
    if msgs != [] {
      var init := msgs[..|msgs| - 1];
      DisciplinedPrefix(msgs);
      ExclusiveAssignment(init);
      StepExclusive(Run(init), msgs[|msgs| - 1]);
    }
  }

  /** The job is out of reach: in no queue and, if it is still live, owned by the client. */
  ghost predicate Away(s: Centre, client: ClientId, id: JobId) {
    id in s.store && Nowhere(s.queues, id) && (id in s.jobs ==> s.store[id].owner == client)
  }

  lemma PutLeavesAway(s: Centre, msg: Message, client: ClientId, id: JobId)
    requires CentreOk(s) && Exclusive(s) && Away(s, client, id) && msg.Put?
    ensures Away(Step(s, msg), client, id) && forall c :: !Gave(s.out, Step(s, msg).out, c, id)
  {
    AppendElsewhere(s.queues, msg.queue, s.nextId, id);
  }

  lemma AwayStays(s: Centre, msg: Message, client: ClientId, id: JobId)
    requires CentreOk(s) && Enabled(s, msg) && Exclusive(s) && Plain(msg) && Away(s, client, id)
    requires msg != Disconnected(client)
    ensures Away(Step(s, msg), client, id) && forall c :: !Gave(s.out, Step(s, msg).out, c, id)
  {
    match msg
    case Connected(_) =>
    case Put(_, _, _, _) => PutLeavesAway(s, msg, client, id);
    case Get(_, names, _) => PickIsQueued(s, names);
    case Delete(_, other) =>
      if other in s.jobs {
        DropMembers(s.jobs, other, id);
        DropMembers(At(s.queues, s.store[other].queue), other, id);
      }
    case Disconnected(gone) => OthersLeaveAway(s, gone, client, id);
  }

  lemma OthersLeaveAway(s: Centre, gone: ClientId, client: ClientId, id: JobId)
    requires CentreOk(s) && Exclusive(s) && gone in s.clients && Away(s, client, id) && gone != client
    ensures Away(DisconnectStep(s, gone), client, id) && forall c :: !Gave(s.out, DisconnectStep(s, gone).out, c, id)
  {
    ReleaseSkips(OpenFloor(s, gone), gone, s.jobs, id);
    ReleaseExclusive(s, gone, |s.jobs|);
    assert s.jobs[..|s.jobs|] == s.jobs;
  }

  lemma {:induction false} ReleaseSkips(f: Floor, gone: ClientId, ids: seq<JobId>, id: JobId)
    requires f.live <= |f.waiters| && id in f.store && (id in ids ==> f.store[id].owner != gone)
    ensures var f' := ReleaseAll(f, gone, ids);
            id in f'.store && f'.store[id] == f.store[id] && (Nowhere(f'.queues, id) <==> Nowhere(f.queues, id))
    decreases |ids|
  {
    if ids != [] {
      var init, last := ids[..|ids| - 1], ids[|ids| - 1];
      ReleaseSkips(f, gone, init, id);
      if last != id {
        ReleaseOther(ReleaseAll(f, gone, init), gone, last, id);
      }
    }
  }

  lemma {:induction false} AwayThrough(msgs: seq<Message>, more: seq<Message>, client: ClientId, id: JobId)
    requires Disciplined(msgs + more) && AllPlain(msgs + more)
    requires Away(Run(msgs), client, id) && Disconnected(client) !in more
    ensures Away(Run(msgs + more), client, id)
    decreases |more|
  {
    if more == [] {
      assert msgs + more == msgs;
    } else {
      var init, last := more[..|more| - 1], more[|more| - 1];
      assert (msgs + more)[..|msgs + more| - 1] == msgs + init;
      DisciplinedPrefix(msgs + more);
      assert AllPlain(msgs + init);
      AwayThrough(msgs, init, client, id);
      ExclusiveAssignment(msgs + init);
      AwayStays(Run(msgs + init), last, client, id);
    }
  }

  lemma RunNext(msgs: seq<Message>, msg: Message)
    ensures Run(msgs + [msg]) == Step(Run(msgs), msg)
  {
    assert (msgs + [msg])[..|msgs|] == msgs;
  }

  /** A plain disciplined run up to a point, and one message further. */
  lemma Upto(msgs: seq<Message>, msg: Message, rest: seq<Message>)
    requires Disciplined(msgs + [msg] + rest) && AllPlain(msgs + [msg] + rest)
    ensures Disciplined(msgs) && AllPlain(msgs) && Disciplined(msgs + [msg]) && AllPlain(msgs + [msg])
    ensures Enabled(Run(msgs), msg) && Plain(msg)
    ensures CentreOk(Run(msgs)) && Exclusive(Run(msgs)) && Run(msgs + [msg]) == Step(Run(msgs), msg)
  {
    var all := msgs + [msg] + rest;
    var upto := msgs + [msg];
    assert forall k :: 0 <= k < |upto| ==> all[k] == upto[k] && all[..k] == upto[..k];
    assert upto[..|upto| - 1] == msgs;
    DisciplinedPrefix(upto);
    assert forall k :: 0 <= k < |msgs| ==> upto[k] == msgs[k];
    ExclusiveAssignment(msgs);
  }

  lemma FromAwayNothing(msgs: seq<Message>, between: seq<Message>, last: Message,
                         client: ClientId, id: JobId, c: ClientId)
    requires Disciplined(msgs + between + [last]) && AllPlain(msgs + between + [last])
    requires Away(Run(msgs), client, id) && Disconnected(client) !in between && last != Disconnected(client)
    ensures !Gave(Run(msgs + between).out, Run(msgs + between + [last]).out, c, id)
  {
    assert msgs + between + [last] == (msgs + between) + [last] + [];
    Upto(msgs + between, last, []);
    AwayThrough(msgs, between, client, id);
    AwayStays(Run(msgs + between), last, client, id);
  }

  /** Once handed out, a job is handed out again only after its holder disconnects. */
  lemma HandedOutOnce(msgs: seq<Message>, first: Message, between: seq<Message>, last: Message,
                      id: JobId, holder: ClientId, next: ClientId)
    requires var all := msgs + [first] + between + [last]; Disciplined(all) && AllPlain(all)
    requires Gave(Run(msgs).out, Run(msgs + [first]).out, holder, id)
    requires var most := msgs + [first] + between; Gave(Run(most).out, Run(most + [last]).out, next, id)
    ensures Disconnected(holder) in between
  {
    assert msgs + [first] + between + [last] == msgs + [first] + (between + [last]);
    Upto(msgs, first, between + [last]);
    PlainGivesByGet(Run(msgs), first, holder, id);
    if Disconnected(holder) !in between {
      if last == Disconnected(holder) {
        var most := msgs + [first] + between;
        assert most + [last] == most + [last] + [];
        Upto(most, last, []);
        PlainGivesByGet(Run(most), last, next, id);
      } else {
        FromAwayNothing(msgs + [first], between, last, holder, id, next);
      }
    }
  }

  /** In this fragment only a get gives, and it gives for good. */
  lemma PlainGivesByGet(s: Centre, msg: Message, client: ClientId, id: JobId)
    requires CentreOk(s) && Enabled(s, msg) && Exclusive(s) && Plain(msg)
    requires Gave(s.out, Step(s, msg).out, client, id)
    ensures msg.Get? && Away(Step(s, msg), client, id)
  {
    match msg
    case Get(_, _, _) => GetGivesAlone(s, msg, client, id);
    case Disconnected(gone) =>
      assert s.jobs[..|s.jobs|] == s.jobs;
      ReleaseExclusive(s, gone, |s.jobs|);
    case _ =>
  }

  /** A deleted job is never handed out again. */
  lemma DeletedStaysDeleted(msgs: seq<Message>, client: ClientId, id: JobId, between: seq<Message>, last: Message,
                            c: ClientId)
    requires var all := msgs + [Delete(client, id)] + between + [last]; Disciplined(all) && AllPlain(all)
    requires id in Run(msgs).jobs
    ensures var most := msgs + [Delete(client, id)] + between; !Gave(Run(most).out, Run(most + [last]).out, c, id)
  {
    var deletion := Delete(client, id);
    assert msgs + [deletion] + between + [last] == msgs + [deletion] + (between + [last]);
    Upto(msgs, deletion, between + [last]);
    var s := Run(msgs);
    DeleteLeavesEntry(s, client, id);
    // Client 0 never connects, so nobody's disconnect can bring the job back.
    NobodyDisconnects(msgs + [deletion], between + [last]);
    assert Disconnected(0) !in between && last != Disconnected(0) by {
      assert forall m :: m in between ==> m in between + [last];
      assert last in between + [last];
    }
    FromAwayNothing(msgs + [deletion], between, last, 0, id, c);
  }

  lemma NobodyDisconnects(msgs: seq<Message>, more: seq<Message>)
    requires Disciplined(msgs + more)
    ensures Disconnected(0) !in more
  {
    if Disconnected(0) in more {
      var k :| 0 <= k < |more| && more[k] == Disconnected(0);
      var upto := (msgs + more)[..|msgs| + k];
      assert (msgs + more)[|msgs| + k] == Disconnected(0);
      assert Disciplined(upto) by {
        assert forall i :: 0 <= i < |upto| ==> upto[..i] == (msgs + more)[..i];
      }
      NoJobLost(upto);
      ClientsAreOnline(upto);
    }
  }

  // ---- A run of the code as it stands in which a job has two holders ----

  /** One more message on a run whose state is known. */
  lemma Extend(msgs: seq<Message>, s: Centre, msg: Message)
    requires Disciplined(msgs) && Run(msgs) == s && Enabled(s, msg)
    ensures Disciplined(msgs + [msg]) && Run(msgs + [msg]) == Step(s, msg)
  {
    var more := msgs + [msg];
    RunNext(msgs, msg);
    ClientsAreOnline(msgs);
    forall k | 0 <= k < |more|
      ensures if more[k].Connected? then more[k].client > 0 else more[k].client in Online(more[..k])
    {
      assert more[..k] == if k < |msgs| then msgs[..k] else msgs;
      assert more[k] == if k < |msgs| then msgs[k] else msg;
    }
  }

  lemma Begin()
    ensures var msgs := [Connected(1)]; Disciplined(msgs) && Run(msgs) == OPENING.(clients := {1})
  {
    Extend([], OPENING, Connected(1));
    assert [] + [Connected(1)] == [Connected(1)];
  }

  lemma ScanOne(queues: map<string, seq<JobId>>, name: string)
    ensures Scan(queues, [name]) == At(queues, name)
  {
    assert Scan(queues, []) == [];
    assert [name][..0] == [];
  }

  lemma PickOne(store: map<JobId, Job>, id: JobId)
    ensures Pick(store, [id]) == Some(id)
  {
    assert [id][..0] == [];
  }

  const FREE := Job("q", "x", 0, 0)

  /** The first put of a run, with nobody waiting or one client waiting for its queue. */
  lemma FirstPut(s: Centre, client: ClientId)
    requires s.nextId == 1 && s.queues == map[] && s.jobs == [] && s.store == map[] && s.out == []
    requires s.waiters == [] || s.waiters == [Waiter(1, ["q"])]
    ensures var s' := PutStep(s, client, "q", "x", 0);
            && s'.queues == map["q" := [1]] && s'.jobs == [1] && s'.clients == s.clients && s'.store == map[1 := FREE]
            && (s.waiters == [Waiter(1, ["q"])] ==> s'.out == [PutOk(client, 1), Given(1, 1, "q", "x", 0)])
  {
    assert At(s.queues, "q") + [1] == [1];
    assert "q" in Waiter(1, ["q"]).queues;
  }

  /** A get when the queue holds just job 1. */
  lemma TakeOnly(s: Centre, client: ClientId, job: Job)
    requires s.queues == map["q" := [1]] && s.store == map[1 := job] && job.queue == "q"
    ensures var s' := GetStep(s, client, ["q"], false);
            && s'.out == s.out + [Gift(client, 1, job)] && s'.store == map[1 := job.(owner := client)]
            && s'.queues == map["q" := []] && s'.jobs == s.jobs && s'.clients == s.clients
  {
    ScanOne(s.queues, "q");
    PickOne(s.store, 1);
    assert Without([1], 1) == [];
  }

  lemma WaitOnNothing(s: Centre)
    requires s.queues == map[] && s.waiters == []
    ensures GetStep(s, 1, ["q"], true) == s.(waiters := [Waiter(1, ["q"])])
  {
    ScanOne(s.queues, "q");
  }

  /** A put that answers a waiter leaves the job queued: a second client gets the same job. */
  lemma TwoHolders()
    ensures var msgs := [Connected(1)] + [Connected(2)] + [Get(1, ["q"], true)] +
                        [Put(2, "q", "x", 0)] + [Get(2, ["q"], false)];
            Disciplined(msgs) && Run(msgs).out == [PutOk(2, 1), Given(1, 1, "q", "x", 0)] + [Given(2, 1, "q", "x", 0)]
  {
    Begin();
    var m := [Connected(1)];
    Extend(m, Run(m), Connected(2));
    m := m + [Connected(2)];
    WaitOnNothing(Run(m));
    Extend(m, Run(m), Get(1, ["q"], true));
    m := m + [Get(1, ["q"], true)];
    FirstPut(Run(m), 2);
    Extend(m, Run(m), Put(2, "q", "x", 0));
    m := m + [Put(2, "q", "x", 0)];
    TakeOnly(Run(m), 2, FREE);
    Extend(m, Run(m), Get(2, ["q"], false));
  }
}
