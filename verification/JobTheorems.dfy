/** What holds after every run of the job centre. */
module JobTheorems {
  import opened Prelude
  import opened JobMachine

  // ---- The connection discipline ----

  ghost function Online(msgs: seq<Message>): set<ClientId> {
    if msgs == [] then {}
    else
      var init, msg := msgs[..|msgs| - 1], msgs[|msgs| - 1];
      if msg.Connected? then Online(init) + {msg.client}
      else if msg.Disconnected? then Online(init) - {msg.client}
      else Online(init)
  }

  /** Client ids start at 1, and a client's messages come between its connected and its disconnected. */
  ghost predicate Disciplined(msgs: seq<Message>) {
    forall k :: 0 <= k < |msgs| ==>
      if msgs[k].Connected? then msgs[k].client > 0 else msgs[k].client in Online(msgs[..k])
  }

  ghost predicate Enabled(s: Centre, msg: Message) {
    if msg.Connected? then msg.client > 0 else msg.client in s.clients
  }

  lemma {:induction false} ClientsAreOnline(msgs: seq<Message>)
    ensures Run(msgs).clients == Online(msgs)
    decreases |msgs|
  {
    if msgs != [] {
      ClientsAreOnline(msgs[..|msgs| - 1]);
    }
  }

  lemma DisciplinedPrefix(msgs: seq<Message>)
    requires Disciplined(msgs) && msgs != []
    ensures Disciplined(msgs[..|msgs| - 1]) && Enabled(Run(msgs[..|msgs| - 1]), msgs[|msgs| - 1])
  {
    var init := msgs[..|msgs| - 1];
    assert forall k :: 0 <= k < |init| ==> init[..k] == msgs[..k];
    ClientsAreOnline(init);
  }

  // ---- Invariants ----

  ghost predicate Increasing(ids: seq<JobId>) {
    forall i, j :: 0 <= i < j < |ids| ==> ids[i] < ids[j]
  }

  /** Ids are handed out once and in order. */
  ghost predicate IdsOk(s: Centre) {
    && s.nextId >= 1
    && (forall id :: id in s.store <==> 1 <= id < s.nextId)
    && Increasing(s.jobs)
    && (forall id :: id in s.jobs ==> id in s.store)
  }

  /** Every queue holds jobs of its own name only. */
  ghost predicate Labelled(queues: map<string, seq<JobId>>, store: map<JobId, Job>) {
    forall name, id :: name in queues && id in queues[name] ==> id in store && store[id].queue == name
  }

  ghost predicate Queued(queues: map<string, seq<JobId>>, store: map<JobId, Job>, id: JobId)
    requires id in store
  {
    id in At(queues, store[id].queue)
  }

  /** A live job is in its own queue or with a connected client. */
  ghost predicate NoneLost(s: Centre) {
    forall id :: id in s.jobs ==>
      id in s.store && (Queued(s.queues, s.store, id) || s.store[id].owner in s.clients)
  }

  ghost predicate WaitersConnected(ws: seq<Waiter>, clients: set<ClientId>) {
    forall i :: 0 <= i < |ws| ==> ws[i] == NOBODY || ws[i].client in clients
  }

  ghost predicate CentreOk(s: Centre) {
    && IdsOk(s)
    && Labelled(s.queues, s.store)
    && NoneLost(s)
    && WaitersConnected(s.waiters, s.clients)
    && 0 !in s.clients
  }

  // ---- Each step keeps them ----

  lemma FiledUnderItsName(queues: map<string, seq<JobId>>, store: map<JobId, Job>, id: JobId, job: Job)
    requires Labelled(queues, store) && (id in store ==> store[id].queue == job.queue)
    ensures Labelled(queues[job.queue := At(queues, job.queue) + [id]], store[id := job])
  {
    var queues' := queues[job.queue := At(queues, job.queue) + [id]];
    forall name, x | name in queues' && x in queues'[name]
      ensures x in store[id := job] && store[id := job][x].queue == name
    {
      if x != id && name == job.queue {
        assert x in At(queues, name);
      }
    }
  }

  lemma PutKeeps(s: Centre, client: ClientId, queue: string, data: Payload, pri: nat)
    requires CentreOk(s)
    ensures CentreOk(PutStep(s, client, queue, data, pri))
  {
    var s' := PutStep(s, client, queue, data, pri);
    var id := s.nextId;
    assert s'.jobs == s.jobs + [id];
    FiledUnderItsName(s.queues, s.store, id, Job(queue, data, pri, 0));
    forall i | 0 <= i < |s.jobs|
      ensures s.jobs[i] < id
    {
      assert s.jobs[i] in s.jobs;
    }
    forall j | j in s'.jobs
      ensures j in s'.store && (Queued(s'.queues, s'.store, j) || s'.store[j].owner in s'.clients)
    {
      if j == id {
        assert s'.queues[queue][|At(s.queues, queue)|] == id;
      } else {
        assert j in s.jobs;
      }
    }
  }

  lemma PickFromIds(store: map<JobId, Job>, ids: seq<JobId>)
    ensures var best := Pick(store, ids); if ids == [] then best == None else best.Some? && best.value in ids
  {
  }

  lemma {:induction false} ScanMembers(queues: map<string, seq<JobId>>, names: seq<string>, id: JobId)
    ensures id in Scan(queues, names) <==> exists k :: 0 <= k < |names| && id in At(queues, names[k])
    decreases |names|
  {
    if names != [] {
      var init, last := names[..|names| - 1], names[|names| - 1];
      ScanMembers(queues, init, id);
      if id in At(queues, last) {
        assert names[|names| - 1] == last;
      }
      if id in Scan(queues, init) {
        var k :| 0 <= k < |init| && id in At(queues, init[k]);
        assert names[k] == init[k];
      }
    }
  }

  lemma QueuedUnderName(queues: map<string, seq<JobId>>, store: map<JobId, Job>, name: string, id: JobId)
    requires Labelled(queues, store) && id in At(queues, name)
    ensures id in store && store[id].queue == name && Queued(queues, store, id)
  {
  }

  lemma PickIsQueued(s: Centre, names: seq<string>)
    requires Labelled(s.queues, s.store)
    ensures var pick := Pick(s.store, Scan(s.queues, names));
            pick.Some? ==>
              pick.value in s.store && Queued(s.queues, s.store, pick.value) && s.store[pick.value].queue in names
  {
    var scan := Scan(s.queues, names);
    PickFromIds(s.store, scan);
    if scan != [] {
      var id := Pick(s.store, scan).value;
      ScanMembers(s.queues, names, id);
      var k :| 0 <= k < |names| && id in At(s.queues, names[k]);
      QueuedUnderName(s.queues, s.store, names[k], id);
    }
  }

  lemma TakeLabelled(queues: map<string, seq<JobId>>, store: map<JobId, Job>, id: JobId, client: ClientId)
    requires Labelled(queues, store) && id in store
    ensures var name := store[id].queue;
            Labelled(queues[name := Without(At(queues, name), id)], store[id := store[id].(owner := client)])
  {
  }

  /** Taking a job of the queue bearing its name moves no other. */
  lemma TakeKeeps(s: Centre, client: ClientId, id: JobId)
    requires CentreOk(s) && client in s.clients && id in s.store
    ensures var job := s.store[id];
            var store := s.store[id := job.(owner := client)];
            var queues := s.queues[job.queue := Without(At(s.queues, job.queue), id)];
            NoneLost(s.(store := store, queues := queues)) && Labelled(queues, store)
  {
    TakeLabelled(s.queues, s.store, id, client);
    var job := s.store[id];
    var store := s.store[id := job.(owner := client)];
    var queues := s.queues[job.queue := Without(At(s.queues, job.queue), id)];
    forall j | j in s.jobs
      ensures j in store && (Queued(queues, store, j) || store[j].owner in s.clients)
    {
      assert j != id && s.store[j].owner !in s.clients ==> Queued(s.queues, s.store, j);
    }
  }

  lemma GetKeeps(s: Centre, client: ClientId, names: seq<string>, wait: bool)
    requires CentreOk(s) && client in s.clients
    ensures CentreOk(GetStep(s, client, names, wait))
  {
    PickIsQueued(s, names);
    match Pick(s.store, Scan(s.queues, names))
    case None =>
    case Some(id) => TakeKeeps(s, client, id);
  }

  lemma AbortKeeps(s: Centre, client: ClientId, id: int)
    requires CentreOk(s)
    ensures CentreOk(AbortStep(s, client, id))
  {
    var s' := AbortStep(s, client, id);
    forall j | j in s'.jobs
      ensures j in s'.store && (Queued(s'.queues, s'.store, j) || s'.store[j].owner in s'.clients)
    {
      assert j in s.jobs;
    }
  }

  /** Cutting out one entry of id takes no other id with it, and brings none. */
  lemma DropMembers(ids: seq<JobId>, id: JobId, x: JobId)
    ensures x in Drop(ids, id) ==> x in ids
    ensures x in ids && x != id ==> x in Drop(ids, id)
  {
    var i := IndexOf(ids, id);
    if i != -1 {
      var r := RemoveAt(ids, i);
      if x in r {
        var k :| 0 <= k < |r| && r[k] == x;
        assert x == ids[if k < i then k else k + 1];
      }
      if x in ids && x != id {
        var k :| 0 <= k < |ids| && ids[k] == x;
        assert x == r[if k < i then k else k - 1];
      }
    }
  }

  lemma DropIncreasing(ids: seq<JobId>, id: JobId)
    requires Increasing(ids)
    ensures Increasing(Drop(ids, id)) && id !in Drop(ids, id)
  {
    var i := IndexOf(ids, id);
    if i != -1 {
      var r := RemoveAt(ids, i);
      assert forall k :: 0 <= k < |r| ==> r[k] == ids[if k < i then k else k + 1];
    }
  }

  lemma DropLabelled(queues: map<string, seq<JobId>>, store: map<JobId, Job>, name: string, id: JobId)
    requires Labelled(queues, store) && name in queues
    ensures Labelled(queues[name := Drop(queues[name], id)], store)
  {
    forall x | x in Drop(queues[name], id)
      ensures x in store && store[x].queue == name
    {
      DropMembers(queues[name], id, x);
    }
  }

  lemma DeleteKeeps(s: Centre, client: ClientId, id: int)
    requires CentreOk(s)
    ensures CentreOk(DeleteStep(s, client, id))
  {
    var s' := DeleteStep(s, client, id);
    if id in s.jobs {
      DropIncreasing(s.jobs, id);
      if id in At(s.queues, s.store[id].queue) {
        DropLabelled(s.queues, s.store, s.store[id].queue, id);
      }
      forall j | j in s'.jobs
        ensures j in s'.store && (Queued(s'.queues, s'.store, j) || s'.store[j].owner in s'.clients)
      {
        DropMembers(s.jobs, id, j);
        DropMembers(At(s.queues, s.store[id].queue), id, j);
      }
    }
  }

  lemma CompactedConnected(ws: seq<Waiter>, client: ClientId, clients: set<ClientId>)
    requires WaitersConnected(ws, clients) && client != 0
    ensures WaitersConnected(Compacted(ws, client), clients - {client})
  {
    var kept := KeepOthers(ws, client);
    forall i | 0 <= i < |kept|
      ensures kept[i] == NOBODY || kept[i].client in clients - {client}
    {
      assert kept[i] in kept;
    }
  }

  lemma ShiftUpConnected(ws: seq<Waiter>, k: nat, live: nat, clients: set<ClientId>)
    requires k < live <= |ws| && WaitersConnected(ws, clients)
    ensures WaitersConnected(ShiftUp(ws, k, live), clients)
  {
  }

  /** What the release loop keeps while it runs; done are the jobs already visited. */
  ghost predicate Releasing(s: Centre, f: Floor, client: ClientId, done: seq<JobId>) {
    && f.live <= |f.waiters|
    && f.store.Keys == s.store.Keys
    && (forall id :: id in f.store ==> f.store[id].(owner := 0) == s.store[id].(owner := 0))
    && Labelled(f.queues, f.store)
    && WaitersConnected(f.waiters, s.clients - {client})
    && (forall id :: id in s.jobs ==> id in f.store && Placed(s, f, client, done, id))
  }

  /** A live job is queued, with another connected client, or still to be visited. */
  ghost predicate Placed(s: Centre, f: Floor, client: ClientId, done: seq<JobId>, id: JobId)
    requires id in f.store
  {
    || Queued(f.queues, f.store, id)
    || f.store[id].owner in s.clients - {client}
    || (f.store[id].owner == client && id !in done)
  }

  lemma ReleaseNext(s: Centre, f: Floor, client: ClientId, done: seq<JobId>, id: JobId)
    requires Releasing(s, f, client, done) && client != 0 && id in s.store
    ensures Releasing(s, ReleaseOne(f, client, id), client, done + [id])
  {
    var f' := ReleaseOne(f, client, id);
    if f.store[id].owner == client {
      var job := f.store[id];
      var k := FirstWaiter(f.waiters[..f.live], job.queue);
      if k < f.live {
        ShiftUpConnected(f.waiters, k, f.live, s.clients - {client});
        assert f.waiters[..f.live][k] == f.waiters[k];
        assert f.waiters[k] != NOBODY;
      } else {
        assert f'.queues[job.queue][|At(f.queues, job.queue)|] == id;
      }
    }
    forall j | j in s.jobs
      ensures j in f'.store && Placed(s, f', client, done + [id], j)
    {
      assert Placed(s, f, client, done, j);
    }
  }

  lemma {:induction false} ReleaseKeeps(s: Centre, client: ClientId, n: nat)
    requires CentreOk(s) && client in s.clients && n <= |s.jobs|
    ensures Releasing(s, ReleaseAll(OpenFloor(s, client), client, s.jobs[..n]), client, s.jobs[..n])
    decreases n
  {
    if n == 0 {
      CompactedConnected(s.waiters, client, s.clients);
    } else {
      ReleaseKeeps(s, client, n - 1);
      assert s.jobs[..n][..n - 1] == s.jobs[..n - 1];
      assert s.jobs[..n] == s.jobs[..n - 1] + [s.jobs[n - 1]];
      assert s.jobs[n - 1] in s.jobs;
      ReleaseNext(s, ReleaseAll(OpenFloor(s, client), client, s.jobs[..n - 1]), client, s.jobs[..n - 1], s.jobs[n - 1]);
    }
  }

  lemma DisconnectKeeps(s: Centre, client: ClientId)
    requires CentreOk(s) && client in s.clients
    ensures CentreOk(DisconnectStep(s, client))
  {
    var s' := DisconnectStep(s, client);
    ReleaseKeeps(s, client, |s.jobs|);
    assert s.jobs[..|s.jobs|] == s.jobs;
    var f := ReleaseAll(OpenFloor(s, client), client, s.jobs);
    forall j | j in s'.jobs
      ensures j in s'.store && (Queued(s'.queues, s'.store, j) || s'.store[j].owner in s'.clients)
    {
      assert Placed(s, f, client, s.jobs, j);
    }
  }

  lemma StepKeeps(s: Centre, msg: Message)
    requires CentreOk(s) && Enabled(s, msg)
    ensures CentreOk(Step(s, msg))
  {
    match msg
    case Connected(_) =>
    case Disconnected(client) => DisconnectKeeps(s, client);
    case Put(client, queue, data, pri) => PutKeeps(s, client, queue, data, pri);
    case Get(client, names, wait) => GetKeeps(s, client, names, wait);
    case Abort(client, id) => AbortKeeps(s, client, id);
    case Delete(client, id) => DeleteKeeps(s, client, id);
  }

  /** No live job is ever lost: it is in the queue bearing its name, or owned by a connected client;
      and no waiter of a departed client remains. */
  lemma {:induction false} NoJobLost(msgs: seq<Message>)
    requires Disciplined(msgs)
    ensures CentreOk(Run(msgs))
    decreases |msgs|
  {
    if msgs != [] {
      DisciplinedPrefix(msgs);
      NoJobLost(msgs[..|msgs| - 1]);
      StepKeeps(Run(msgs[..|msgs| - 1]), msgs[|msgs| - 1]);
    }
  }

  // ---- get takes the best job, and takes it wholly ----

  /** id is the first job of highest priority in the list. */
  ghost predicate FirstBest(store: map<JobId, Job>, ids: seq<JobId>, id: JobId) {
    exists k :: 0 <= k < |ids| && ids[k] == id && BestAt(store, ids, k)
  }

  ghost predicate BestAt(store: map<JobId, Job>, ids: seq<JobId>, k: nat)
    requires k < |ids|
  {
    && (forall i :: 0 <= i < k ==> Pri(store, ids[i]) < Pri(store, ids[k]))
    && (forall i :: k <= i < |ids| ==> Pri(store, ids[i]) <= Pri(store, ids[k]))
  }

  lemma {:induction false} PickIsFirstBest(store: map<JobId, Job>, ids: seq<JobId>)
    ensures match Pick(store, ids)
            case None => ids == []
            case Some(id) => FirstBest(store, ids, id)
    decreases |ids|
  {
    if ids != [] {
      var init, last := ids[..|ids| - 1], ids[|ids| - 1];
      PickIsFirstBest(store, init);
      if init == [] {
        assert BestAt(store, ids, 0);
      } else {
        var best := Pick(store, init).value;
        var k :| 0 <= k < |init| && init[k] == best && BestAt(store, init, k);
        if Pri(store, last) > Pri(store, best) {
          assert BestAt(store, ids, |ids| - 1);
        } else {
          assert BestAt(store, ids, k);
        }
      }
    }
  }

  ghost predicate Unqueued(s: Centre, id: JobId) {
    forall name :: name in s.queues ==> id !in s.queues[name]
  }

  /** A get answers with the first job of highest priority over all requested queues and removes every
      entry of it from every queue; it says no-job, or parks the client, exactly when all of them are empty. */
  lemma GetOptimal(s: Centre, client: ClientId, names: seq<string>, wait: bool)
    requires CentreOk(s)
    ensures var s' := GetStep(s, client, names, wait);
            var scan := Scan(s.queues, names);
            if forall k :: 0 <= k < |names| ==> At(s.queues, names[k]) == [] then
              s' == if wait then s.(waiters := s.waiters + [Waiter(client, names)])
                    else s.(out := s.out + [NoJob(client)])
            else
              exists id :: FirstBest(s.store, scan, id) && id in s.store && s.store[id].queue in names &&
                s'.out == s.out + [Gift(client, id, s.store[id])] &&
                s'.store == s.store[id := s.store[id].(owner := client)] && Unqueued(s', id)
  {
    var scan := Scan(s.queues, names);
    PickIsFirstBest(s.store, scan);
    if exists k :: 0 <= k < |names| && At(s.queues, names[k]) != [] {
      var k :| 0 <= k < |names| && At(s.queues, names[k]) != [];
      ScanMembers(s.queues, names, At(s.queues, names[k])[0]);
      PickIsQueued(s, names);
      var id := Pick(s.store, scan).value;
      var s' := GetStep(s, client, names, wait);
      assert Unqueued(s', id);
    } else if scan != [] {
      ScanMembers(s.queues, names, scan[0]);
      assert false;
    }
  }

  /** A queued job of a requested queue bounds the pick from below. */
  lemma PickAtLeast(queues: map<string, seq<JobId>>, store: map<JobId, Job>, names: seq<string>, k: nat, id: JobId)
    requires k < |names| && id in At(queues, names[k])
    ensures var pick := Pick(store, Scan(queues, names)); pick.Some? && Pri(store, pick.value) >= Pri(store, id)
  {
    var scan := Scan(queues, names);
    ScanMembers(queues, names, id);
    PickIsFirstBest(store, scan);
    var i :| 0 <= i < |scan| && scan[i] == id;
    var best := Pick(store, scan).value;
    var b :| 0 <= b < |scan| && scan[b] == best && BestAt(store, scan, b);
    assert Pri(store, scan[i]) <= Pri(store, scan[b]);
  }

  /** An abort is accepted exactly from the owner of a live job. The job then stands last in its queue, once more
      than before, and no get of the queue goes away empty-handed, or with a job of lower priority. */
  lemma AbortMakesAvailable(s: Centre, client: ClientId, id: int, other: ClientId, names: seq<string>)
    requires CentreOk(s)
    ensures var s' := AbortStep(s, client, id);
            var owned := id in s.jobs && s.store[id].owner == client;
            && s' == s.(queues := s'.queues, out := s.out + [if owned then Done(client) else NoJob(client)])
            && (!owned ==> s'.queues == s.queues)
            && (owned ==> forall name ::
                  At(s'.queues, name) == At(s.queues, name) + (if name == s.store[id].queue then [id] else []))
            && (owned && s.store[id].queue in names ==>
                  exists best :: Pick(s'.store, Scan(s'.queues, names)) == Some(best) &&
                    Pri(s.store, best) >= s.store[id].pri)
  {
    var s' := AbortStep(s, client, id);
    if id in s.jobs && s.store[id].owner == client && s.store[id].queue in names {
      var name := s.store[id].queue;
      assert s'.queues[name][|At(s.queues, name)|] == id;
      var k :| 0 <= k < |names| && names[k] == name;
      PickAtLeast(s'.queues, s'.store, names, k, id);
    }
  }

  // ---- Responses reach connected clients ----

  /** The writes of a step all go to clients that are connected when it is over. */
  ghost predicate Addressed(before: Centre, after: Centre) {
    before.out <= after.out && forall i :: |before.out| <= i < |after.out| ==> after.out[i].client in after.clients
  }

  lemma {:induction false} ReleaseAddresses(s: Centre, client: ClientId, n: nat)
    requires CentreOk(s) && client in s.clients && n <= |s.jobs|
    ensures var f := ReleaseAll(OpenFloor(s, client), client, s.jobs[..n]);
            s.out <= f.out && forall i :: |s.out| <= i < |f.out| ==> f.out[i].client in s.clients - {client}
    decreases n
  {
    if n > 0 {
      ReleaseAddresses(s, client, n - 1);
      ReleaseKeeps(s, client, n - 1);
      assert s.jobs[..n][..n - 1] == s.jobs[..n - 1];
      var f := ReleaseAll(OpenFloor(s, client), client, s.jobs[..n - 1]);
      var id := s.jobs[n - 1];
      if id in f.store && f.store[id].owner == client {
        var k := FirstWaiter(f.waiters[..f.live], f.store[id].queue);
        if k < f.live {
          assert f.waiters[..f.live][k] == f.waiters[k] && f.waiters[k] != NOBODY;
        }
      }
    }
  }

  /** No response is ever written to a client that is not there. */
  lemma ResponsesReachClients(msgs: seq<Message>, msg: Message)
    requires Disciplined(msgs + [msg])
    ensures Addressed(Run(msgs), Run(msgs + [msg]))
  {
    assert (msgs + [msg])[..|msgs|] == msgs;
    DisciplinedPrefix(msgs + [msg]);
    NoJobLost(msgs);
    var s := Run(msgs);
    match msg
    case Disconnected(client) =>
      ReleaseAddresses(s, client, |s.jobs|);
      assert s.jobs[..|s.jobs|] == s.jobs;
    case Put(_, queue, _, _) =>
      var k := FirstWaiter(s.waiters, queue);
      assert k < |s.waiters| ==> s.waiters[k] != NOBODY;
    case _ =>
  }

  // ---- Delivery integrity ----

  /** The puts of a run, in order: the n-th creates id n. */
  function Puts(msgs: seq<Message>): seq<Job> {
    if msgs == [] then []
    else
      var last := msgs[|msgs| - 1];
      Puts(msgs[..|msgs| - 1]) + (if last.Put? then [Job(last.queue, last.data, last.pri, 0)] else [])
  }

  /** Who sent them. */
  function Putters(msgs: seq<Message>): (who: seq<ClientId>)
    ensures |who| == |Puts(msgs)|
  {
    if msgs == [] then []
    else
      var last := msgs[|msgs| - 1];
      Putters(msgs[..|msgs| - 1]) + (if last.Put? then [last.client] else [])
  }

  /** The client sent a get naming the queue. */
  ghost predicate Asked(msgs: seq<Message>, client: ClientId, queue: string) {
    exists k :: 0 <= k < |msgs| && msgs[k].Get? && msgs[k].client == client && queue in msgs[k].queues
  }

  /** A job handed over is one that was put, to a client that asked; an id acknowledged is that of the client's put. */
  ghost predicate Genuine(msgs: seq<Message>, r: Response) {
    match r
    case Given(client, id, queue, data, pri) =>
      1 <= id <= |Puts(msgs)| && Puts(msgs)[id - 1] == Job(queue, data, pri, 0) && Asked(msgs, client, queue)
    case PutOk(client, id) => 1 <= id <= |Puts(msgs)| && Putters(msgs)[id - 1] == client
    case _ => true
  }

  ghost predicate WaitersAsked(msgs: seq<Message>, ws: seq<Waiter>) {
    forall i, queue :: 0 <= i < |ws| && queue in ws[i].queues ==> Asked(msgs, ws[i].client, queue)
  }

  ghost predicate StoreGenuine(msgs: seq<Message>, store: map<JobId, Job>) {
    && (forall id :: id in store <==> 1 <= id <= |Puts(msgs)|)
    && (forall id :: id in store ==> store[id].(owner := 0) == Puts(msgs)[id - 1])
  }

  ghost predicate OutGenuine(msgs: seq<Message>, out: seq<Response>) {
    forall i :: 0 <= i < |out| ==> Genuine(msgs, out[i])
  }

  ghost predicate Faithful(msgs: seq<Message>, s: Centre) {
    && s.nextId == |Puts(msgs)| + 1
    && StoreGenuine(msgs, s.store)
    && OutGenuine(msgs, s.out)
    && WaitersAsked(msgs, s.waiters)
    && Labelled(s.queues, s.store)
  }

  lemma AskedGrows(msgs: seq<Message>, msg: Message, client: ClientId, queue: string)
    requires Asked(msgs, client, queue)
    ensures Asked(msgs + [msg], client, queue)
  {
    var k :| 0 <= k < |msgs| && msgs[k].Get? && msgs[k].client == client && queue in msgs[k].queues;
    assert (msgs + [msg])[k] == msgs[k];
  }

  /** What was true of the run stays true of the longer run. */
  lemma HistoryGrows(msgs: seq<Message>, msg: Message, s: Centre)
    requires Faithful(msgs, s)
    ensures var more := msgs + [msg];
            && Puts(msgs) <= Puts(more) && Putters(msgs) <= Putters(more) && (!msg.Put? ==> Puts(more) == Puts(msgs))
            && OutGenuine(more, s.out) && WaitersAsked(more, s.waiters)
  {
    var more := msgs + [msg];
    assert more[..|msgs|] == msgs;
    forall i | 0 <= i < |s.out|
      ensures Genuine(more, s.out[i])
    {
      assert Genuine(msgs, s.out[i]);
      if s.out[i].Given? {
        AskedGrows(msgs, msg, s.out[i].client, s.out[i].queue);
      }
    }
    forall i, queue | 0 <= i < |s.waiters| && queue in s.waiters[i].queues
      ensures Asked(more, s.waiters[i].client, queue)
    {
      AskedGrows(msgs, msg, s.waiters[i].client, queue);
    }
  }

  /** What the release loop keeps for delivery. */
  ghost predicate FloorFaithful(msgs: seq<Message>, f: Floor) {
    && StoreGenuine(msgs, f.store)
    && OutGenuine(msgs, f.out)
    && WaitersAsked(msgs, f.waiters)
    && Labelled(f.queues, f.store)
  }

  lemma GiftGenuine(msgs: seq<Message>, store: map<JobId, Job>, id: JobId, client: ClientId)
    requires StoreGenuine(msgs, store) && id in store && Asked(msgs, client, store[id].queue)
    ensures Genuine(msgs, Gift(client, id, store[id]))
  {
  }

  lemma ReleaseFaithful(msgs: seq<Message>, f: Floor, client: ClientId, id: JobId)
    requires f.live <= |f.waiters| && FloorFaithful(msgs, f)
    ensures FloorFaithful(msgs, ReleaseOne(f, client, id))
  {
    if id in f.store && f.store[id].owner == client {
      var k := FirstWaiter(f.waiters[..f.live], f.store[id].queue);
      if k < f.live {
        assert f.waiters[..f.live][k] == f.waiters[k];
        GiftGenuine(msgs, f.store, id, f.waiters[k].client);
      }
    }
  }

  lemma {:induction false} ReleaseAllFaithful(msgs: seq<Message>, f: Floor, client: ClientId, ids: seq<JobId>)
    requires f.live <= |f.waiters| && FloorFaithful(msgs, f)
    ensures FloorFaithful(msgs, ReleaseAll(f, client, ids))
    decreases |ids|
  {
    if ids != [] {
      ReleaseAllFaithful(msgs, f, client, ids[..|ids| - 1]);
      ReleaseFaithful(msgs, ReleaseAll(f, client, ids[..|ids| - 1]), client, ids[|ids| - 1]);
    }
  }

  lemma CompactedAsked(msgs: seq<Message>, ws: seq<Waiter>, client: ClientId)
    requires WaitersAsked(msgs, ws)
    ensures WaitersAsked(msgs, Compacted(ws, client))
  {
    var kept := KeepOthers(ws, client);
    forall i, queue | 0 <= i < |ws| && queue in Compacted(ws, client)[i].queues
      ensures Asked(msgs, Compacted(ws, client)[i].client, queue)
    {
      if i < |kept| {
        assert kept[i] in kept;
        var j :| 0 <= j < |ws| && ws[j] == kept[i];
      }
    }
  }

  lemma PutStores(msgs: seq<Message>, msg: Message, s: Centre)
    requires Faithful(msgs, s) && msg.Put?
    ensures StoreGenuine(msgs + [msg], Step(s, msg).store)
    ensures |Puts(msgs + [msg])| == |Puts(msgs)| + 1
    ensures Putters(msgs + [msg])[|Puts(msgs)|] == msg.client
  {
    assert (msgs + [msg])[..|msgs|] == msgs;
  }

  lemma PutFaithful(msgs: seq<Message>, msg: Message, s: Centre)
    requires Faithful(msgs, s) && msg.Put?
    requires OutGenuine(msgs + [msg], s.out) && WaitersAsked(msgs + [msg], s.waiters)
    ensures Faithful(msgs + [msg], Step(s, msg))
  {
    var more, s' := msgs + [msg], Step(s, msg);
    FiledUnderItsName(s.queues, s.store, s.nextId, Job(msg.queue, msg.data, msg.pri, 0));
    PutStores(msgs, msg, s);
    var k := FirstWaiter(s.waiters, msg.queue);
    if k < |s.waiters| {
      GiftGenuine(more, s'.store, s.nextId, s.waiters[k].client);
    }
  }

  lemma TakeFaithful(msgs: seq<Message>, s: Centre, client: ClientId, id: JobId)
    requires Faithful(msgs, s) && id in s.store && Asked(msgs, client, s.store[id].queue)
    ensures var job := s.store[id];
            Faithful(msgs, s.(out := s.out + [Gift(client, id, job)],
                              store := s.store[id := job.(owner := client)],
                              queues := s.queues[job.queue := Without(At(s.queues, job.queue), id)]))
  {
    TakeLabelled(s.queues, s.store, id, client);
    GiftGenuine(msgs, s.store, id, client);
  }

  lemma GetFaithful(msgs: seq<Message>, msg: Message, s: Centre)
    requires Faithful(msgs + [msg], s) && msg.Get?
    ensures Faithful(msgs + [msg], Step(s, msg))
  {
    var more := msgs + [msg];
    assert more[|msgs|] == msg;
    PickIsQueued(s, msg.queues);
    match Pick(s.store, Scan(s.queues, msg.queues))
    case None =>
    case Some(id) =>
      assert Asked(more, msg.client, s.store[id].queue);
      TakeFaithful(more, s, msg.client, id);
  }

  lemma StepFaithful(msgs: seq<Message>, msg: Message, s: Centre)
    requires Faithful(msgs, s)
    ensures Faithful(msgs + [msg], Step(s, msg))
  {
    var more := msgs + [msg];
    HistoryGrows(msgs, msg, s);
    assert more[..|msgs|] == msgs;
    match msg
    case Put(_, _, _, _) => PutFaithful(msgs, msg, s);
    case Get(_, _, _) => GetFaithful(msgs, msg, s);
    case Disconnected(client) =>
      CompactedAsked(more, s.waiters, client);
      ReleaseAllFaithful(more, OpenFloor(s, client), client, s.jobs);
    case Abort(client, id) =>
      if id in s.jobs && id in s.store {
        FiledUnderItsName(s.queues, s.store, id, s.store[id]);
        assert s.store[id := s.store[id]] == s.store;
      }
    case Delete(client, id) =>
      if id in s.jobs && id in s.store && id in At(s.queues, s.store[id].queue) {
        DropLabelled(s.queues, s.store, s.store[id].queue, id);
      }
    case Connected(_) =>
  }

  /** The acknowledgements among the responses. */
  function Acks(out: seq<Response>): seq<Response> {
    if out == [] then []
    else
      var last := out[|out| - 1];
      Acks(out[..|out| - 1]) + (if last.PutOk? then [last] else [])
  }

  /** They are one for each put, in order: to its sender, with its number. */
  ghost predicate Acknowledged(who: seq<ClientId>, acks: seq<Response>) {
    |acks| == |who| && forall i :: 0 <= i < |who| ==> acks[i] == PutOk(who[i], i + 1)
  }

  lemma AcksNext(out: seq<Response>, r: Response)
    ensures Acks(out + [r]) == Acks(out) + (if r.PutOk? then [r] else [])
  {
    assert (out + [r])[..|out|] == out;
  }

  lemma {:induction false} ReleaseAcks(f: Floor, client: ClientId, ids: seq<JobId>)
    requires f.live <= |f.waiters|
    ensures Acks(ReleaseAll(f, client, ids).out) == Acks(f.out)
    decreases |ids|
  {
    if ids != [] {
      var init, id := ids[..|ids| - 1], ids[|ids| - 1];
      ReleaseAcks(f, client, init);
      var f1 := ReleaseAll(f, client, init);
      if id in f1.store {
        var k := FirstWaiter(f1.waiters[..f1.live], f1.store[id].queue);
        if k < f1.live {
          AcksNext(f1.out, Gift(f1.waiters[k].client, id, f1.store[id]));
        }
      }
    }
  }

  lemma PutAcks(s: Centre, msg: Message)
    requires msg.Put?
    ensures Acks(Step(s, msg).out) == Acks(s.out) + [PutOk(msg.client, s.nextId)]
  {
    var ack := PutOk(msg.client, s.nextId);
    var k := FirstWaiter(s.waiters, msg.queue);
    AcksNext(s.out, ack);
    if k < |s.waiters| {
      AcksNext(s.out + [ack], Gift(s.waiters[k].client, s.nextId, Job(msg.queue, msg.data, msg.pri, 0)));
    }
  }

  lemma GetAcks(s: Centre, msg: Message)
    requires msg.Get?
    ensures Acks(Step(s, msg).out) == Acks(s.out)
  {
    match Pick(s.store, Scan(s.queues, msg.queues))
    case None => AcksNext(s.out, NoJob(msg.client));
    case Some(id) =>
      if id in s.store {
        AcksNext(s.out, Gift(msg.client, id, s.store[id]));
      }
  }

  lemma OtherAcks(s: Centre, msg: Message)
    requires !msg.Put?
    ensures Acks(Step(s, msg).out) == Acks(s.out)
  {
    match msg
    case Disconnected(client) => ReleaseAcks(OpenFloor(s, client), client, s.jobs);
    case Get(_, _, _) => GetAcks(s, msg);
    case _ =>
      AcksNext(s.out, NoJob(msg.client));
      AcksNext(s.out, Done(msg.client));
  }

  /** Every get response, immediate or through a waiter, carries exactly what the put of that id carried,
      from a queue its receiver asked for; every put is acknowledged once, in order, with its own number. */
  lemma {:induction false} DeliveryIntegrity(msgs: seq<Message>)
    ensures Faithful(msgs, Run(msgs)) && Acknowledged(Putters(msgs), Acks(Run(msgs).out))
    decreases |msgs|
  {
    if msgs != [] {
      var init, last := msgs[..|msgs| - 1], msgs[|msgs| - 1];
      DeliveryIntegrity(init);
      StepFaithful(init, last, Run(init));
      assert init + [last] == msgs;
      if last.Put? {
        PutAcks(Run(init), last);
      } else {
        OtherAcks(Run(init), last);
      }
    }
  }
}
